/** The Redis ledger: a usage counter, a key per reservation, and a sorted set
    of expiry times, moved by three atomic scripts. Every script first reclaims
    at most 100 expired reservations, oldest first. */
module Redis {
  import opened Costs
  import opened Int64
  import opened Sums
  import opened Budgets
  import opened Transactions

  type Id = nat

  const BATCH := 100
  const MARGIN := 86400      // seconds a reservation key outlives its lease

  datatype Store = Store(used: int, keys: map<Id, int>, expiry: map<Id, int>)

  // ---- what the scripts do -----------------------------------------------------

  function Due(expiry: map<Id, int>, now: int): set<Id> {
    set i | i in expiry && expiry[i] <= now
  }

  /** What ZRANGEBYSCORE ... LIMIT 0 100 may return: as many due ids as fit, none of them younger than one left out. */
  ghost predicate IsOldest(expiry: map<Id, int>, now: int, batch: set<Id>) {
    && batch <= Due(expiry, now)
    && |batch| == (if |Due(expiry, now)| < BATCH then |Due(expiry, now)| else BATCH)
    && forall i, j | i in batch && j in Due(expiry, now) :: j !in batch ==> expiry[i] <= expiry[j]
  }

  ghost function Reclaimed(s: Store, batch: set<Id>): Store {
    Store(s.used - Sum(Restrict(s.keys, batch)), s.keys - batch, s.expiry - batch)
  }

  function Get(keys: map<Id, int>, id: Id): int {
    if id in keys then keys[id] else 0
  }

  datatype Op =
    | Reserve(batch: set<Id>, id: Id, estimate: int, now: int, ttl: int)
    | Commit(batch: set<Id>, id: Id, actual: int, now: int)
    | Release(batch: set<Id>, id: Id, now: int)
    | KeyDies(id: Id, now: int)     // a reservation key outlives its safety margin and Redis drops it

  ghost function ReserveScript(limit: int, s: Store, op: Op): (Store, Verdict)
    requires op.Reserve?
  {
    var live := Reclaimed(s, op.batch);
    if limit >= 0 && live.used + op.estimate > limit then (live, Exceeded)
    else (Store(live.used + op.estimate, live.keys[op.id := op.estimate], live.expiry[op.id := op.now + op.ttl]), Ok)
  }

  /** The commit script, and with charge 0 the release script. A stored 0 reads like a missing key. */
  ghost function SettleScript(s: Store, batch: set<Id>, id: Id, charge: int): (Store, Verdict) {
    var live := Reclaimed(s, batch);
    if Get(live.keys, id) == 0 then (live, NotFound)
    else (Store(live.used + charge - live.keys[id], live.keys - {id}, live.expiry - {id}), Ok)
  }

  ghost function Apply(limit: int, s: Store, op: Op): (Store, Verdict) {
    match op
    case Reserve(_, _, _, _, _) => ReserveScript(limit, s, op)
    case Commit(batch, id, actual, _) => SettleScript(s, batch, id, actual)
    case Release(batch, id, _) => SettleScript(s, batch, id, 0)
    case KeyDies(id, _) => (s.(keys := s.keys - {id}), Ok)
  }

  /** Ids are fresh, leases last at least a second, amounts are valid, the
      reclaimed batch is an oldest one, and a key dies a day after its lease ends at the earliest. */
  ghost predicate Legal(s: Store, op: Op) {
    match op
    case Reserve(batch, id, estimate, now, ttl) =>
      IsOldest(s.expiry, now, batch) && id !in s.keys && id !in s.expiry && ValidEstimate(estimate) && ttl >= 1
    case Commit(batch, _, actual, now) => IsOldest(s.expiry, now, batch) && actual >= 0
    case Release(batch, _, now) => IsOldest(s.expiry, now, batch)
    case KeyDies(id, now) => CanDie(s, id, now)
  }

  predicate CanDie(s: Store, id: Id, now: int) {
    id in s.keys && id in s.expiry && s.expiry[id] + MARGIN <= now
  }

  // ---- conservation ----------------------------------------------------------------

  /** What an operation commits, and what a dying key leaves counted for good. */
  function CommitsBy(op: Op, verdict: Verdict): int {
    if op.Commit? && verdict.Ok? then op.actual else 0
  }

  function LeaksBy(s: Store, op: Op): int {
    if op.KeyDies? && op.id in s.keys then s.keys[op.id] else 0
  }

  /** The counter is committed usage, plus live keys, plus what dead keys have leaked. */
  ghost predicate Inv(s: Store, committed: int, leaked: int) {
    && s.used == committed + Sum(s.keys) + leaked && committed >= 0 && leaked >= 0
    && (forall i :: i in s.keys ==> s.keys[i] >= 0)
    && s.keys.Keys <= s.expiry.Keys
  }

  ghost function Abs(limit: int, s: Store, committed: int): Budget<Id> {
    Budget(limit, committed, s.keys)
  }

  ghost function StepsOf(limit: int, s: Store, op: Op): seq<Step<Id>> {
    match op
    case KeyDies(id, _) => [Expire({id})]
    case _ =>
      [Expire(op.batch * s.keys.Keys)] +
      (if !Apply(limit, s, op).1.Ok? then []
       else match op
         case Reserve(_, id, estimate, _, _) => [Step.Reserve(id, estimate)]
         case Commit(_, id, actual, _) => [Step.Commit(id, actual)]
         case Release(_, id, _) => [Step.Release(id)])
  }

  lemma ReclaimKeeps(limit: int, s: Store, committed: int, leaked: int, batch: set<Id>, live: Store)
    requires Inv(s, committed, leaked) && live == Reclaimed(s, batch)
    ensures Inv(live, committed, leaked)
    ensures Path(Abs(limit, s, committed), [Expire(batch * s.keys.Keys)], Abs(limit, live, committed), false)
  {
    SumMinus(s.keys, batch);
    assert s.keys - (batch * s.keys.Keys) == s.keys - batch;
    OneStep(Abs(limit, s, committed), Expire(batch * s.keys.Keys), false);
  }

  lemma ReserveKeeps(limit: int, s: Store, committed: int, leaked: int, op: Op, s': Store)
    requires Inv(s, committed, leaked) && op.Reserve? && Legal(s, op) && s' == ReserveScript(limit, s, op).0
    ensures Inv(s', committed, leaked)
    ensures Path(Abs(limit, s, committed), StepsOf(limit, s, op), Abs(limit, s', committed), false)
  {
    var live := Reclaimed(s, op.batch);
    ReclaimKeeps(limit, s, committed, leaked, op.batch, live);
    if ReserveScript(limit, s, op).1.Ok? {
      SumInsert(live.keys, op.id, op.estimate);
      OneStep(Abs(limit, live, committed), Step.Reserve(op.id, op.estimate), false);
      PathConcat(Abs(limit, s, committed), [Expire(op.batch * s.keys.Keys)], Abs(limit, live, committed),
                 [Step.Reserve(op.id, op.estimate)], Abs(limit, s', committed), false);
    }
  }

  lemma SettleKeeps(limit: int, s: Store, committed: int, leaked: int, op: Op, s': Store, committed': int)
    requires Inv(s, committed, leaked) && (op.Commit? || op.Release?) && Legal(s, op)
    requires s' == Apply(limit, s, op).0 && committed' == committed + CommitsBy(op, Apply(limit, s, op).1)
    ensures Inv(s', committed', leaked)
    ensures Path(Abs(limit, s, committed), StepsOf(limit, s, op), Abs(limit, s', committed'), false)
  {
    var live := Reclaimed(s, op.batch);
    ReclaimKeeps(limit, s, committed, leaked, op.batch, live);
    if Apply(limit, s, op).1.Ok? {
      SumRemove(live.keys, op.id);
      var step := if op.Commit? then Step.Commit(op.id, op.actual) else Step.Release(op.id);
      OneStep(Abs(limit, live, committed), step, false);
      PathConcat(Abs(limit, s, committed), [Expire(op.batch * s.keys.Keys)], Abs(limit, live, committed),
                 [step], Abs(limit, s', committed'), false);
    }
  }

  /** Every script run, including those that write and then reply with an error,
      keeps the counter's meaning: committed usage, plus live reservations, plus
      what keys that died unreclaimed have leaked. */
  lemma ApplyKeeps(limit: int, s: Store, committed: int, leaked: int, op: Op, s': Store, committed': int)
    requires Inv(s, committed, leaked) && Legal(s, op)
    requires s' == Apply(limit, s, op).0 && committed' == committed + CommitsBy(op, Apply(limit, s, op).1)
    ensures Inv(s', committed', leaked + LeaksBy(s, op))
    ensures Path(Abs(limit, s, committed), StepsOf(limit, s, op), Abs(limit, s', committed'), false)
    ensures s'.used == committed' + Sum(s'.keys) <==> leaked + LeaksBy(s, op) == 0
    ensures !op.KeyDies? && s.keys.Keys == s.expiry.Keys ==> s'.keys.Keys == s'.expiry.Keys
  {
    match op
    case Reserve(_, _, _, _, _) => ReserveKeeps(limit, s, committed, leaked, op, s');
    case KeyDies(id, _) =>
      SumRemove(s.keys, id);
      OneStep(Abs(limit, s, committed), Expire({id}), false);
    case _ => SettleKeeps(limit, s, committed, leaked, op, s', committed');
  }

  // ---- runs ----------------------------------------------------------------------------

  ghost predicate Trace(limit: int, s: Store, ops: seq<Op>, s': Store)
    decreases |ops|
  {
    if ops == [] then s == s' else Legal(s, ops[0]) && Trace(limit, Apply(limit, s, ops[0]).0, ops[1..], s')
  }

  ghost function Committed(limit: int, s: Store, ops: seq<Op>): int
    decreases |ops|
  {
    if ops == [] then 0
    else CommitsBy(ops[0], Apply(limit, s, ops[0]).1) + Committed(limit, Apply(limit, s, ops[0]).0, ops[1..])
  }

  ghost function StepsIn(limit: int, s: Store, ops: seq<Op>): seq<Step<Id>>
    decreases |ops|
  {
    if ops == [] then [] else StepsOf(limit, s, ops[0]) + StepsIn(limit, Apply(limit, s, ops[0]).0, ops[1..])
  }

  ghost function Leaked(limit: int, s: Store, ops: seq<Op>): int
    decreases |ops|
  {
    if ops == [] then 0 else LeaksBy(s, ops[0]) + Leaked(limit, Apply(limit, s, ops[0]).0, ops[1..])
  }

  /** Over any run the ledger goes through a run of the budget machine, so each
      hold is subtracted once, whichever of reclaim, commit and release comes first. */
  lemma {:induction false} TraceRefines(limit: int, s: Store, ops: seq<Op>, s': Store, committed: int, leaked: int)
    requires Inv(s, committed, leaked) && Trace(limit, s, ops, s')
    ensures Inv(s', committed + Committed(limit, s, ops), leaked + Leaked(limit, s, ops))
    ensures Path(Abs(limit, s, committed), StepsIn(limit, s, ops),
                 Abs(limit, s', committed + Committed(limit, s, ops)), false)
    decreases |ops|
  {
    if ops == [] {
    } else {
      var next, committed1, leaked1, first := FirstOp(limit, s, ops, s', committed, leaked);
      TraceRefines(limit, next, ops[1..], s', committed1, leaked1);
      PathConcat(Abs(limit, s, committed), first, Abs(limit, next, committed1),
                 StepsIn(limit, next, ops[1..]), Abs(limit, s', committed + Committed(limit, s, ops)), false);
    }
  }

  /** A run after its first operation, and what that operation is for the budget. */
  lemma FirstOp(limit: int, s: Store, ops: seq<Op>, s': Store, committed: int, leaked: int)
    returns (next: Store, committed1: int, leaked1: int, first: seq<Step<Id>>)
    requires Inv(s, committed, leaked) && Trace(limit, s, ops, s') && ops != []
    ensures Inv(next, committed1, leaked1) && Trace(limit, next, ops[1..], s')
    ensures Path(Abs(limit, s, committed), first, Abs(limit, next, committed1), false)
    ensures committed + Committed(limit, s, ops) == committed1 + Committed(limit, next, ops[1..])
    ensures leaked + Leaked(limit, s, ops) == leaked1 + Leaked(limit, next, ops[1..])
    ensures StepsIn(limit, s, ops) == first + StepsIn(limit, next, ops[1..])
  {
    next, first := Apply(limit, s, ops[0]).0, StepsOf(limit, s, ops[0]);
    committed1 := committed + CommitsBy(ops[0], Apply(limit, s, ops[0]).1);
    leaked1 := leaked + LeaksBy(s, ops[0]);
    ApplyKeeps(limit, s, committed, leaked, ops[0], next, committed1);
  }

  predicate NoneDies(ops: seq<Op>) {
    forall i :: 0 <= i < |ops| ==> !ops[i].KeyDies?
  }

  /** While no key dies, keys and sorted set hold the same ids throughout, and nothing leaks. */
  lemma {:induction false} SameIds(limit: int, s: Store, ops: seq<Op>, s': Store)
    requires s.keys.Keys == s.expiry.Keys && Trace(limit, s, ops, s') && NoneDies(ops)
    ensures s'.keys.Keys == s'.expiry.Keys && Leaked(limit, s, ops) == 0
    decreases |ops|
  {
    if ops == [] {
    } else {
      var next := Apply(limit, s, ops[0]).0;
      assert !ops[0].KeyDies?;
      assert next.keys.Keys == next.expiry.Keys;
      SameIds(limit, next, ops[1..], s');
    }
  }

  lemma {:induction false} ScriptsSetNoLimit(limit: int, s: Store, ops: seq<Op>)
    ensures NoLimitSet(StepsIn(limit, s, ops))
    decreases |ops|
  {
    if ops == [] {
    } else {
      ScriptsSetNoLimit(limit, Apply(limit, s, ops[0]).0, ops[1..]);
    }
  }

  /** Committed usage and live reservations pass the limit by no more than commits overran their reservations. */
  lemma {:induction false} UsageBound(limit: int, s: Store, ops: seq<Op>, s': Store, committed: int, leaked: int)
    requires Inv(s, committed, leaked) && Trace(limit, s, ops, s') && 0 <= limit
    ensures committed + Committed(limit, s, ops) + Sum(s'.keys)
         <= Max(committed + Sum(s.keys), limit) + Overshoot(Abs(limit, s, committed), StepsIn(limit, s, ops))
  {
    var steps, committed' := StepsIn(limit, s, ops), committed + Committed(limit, s, ops);
    TraceRefines(limit, s, ops, s', committed, leaked);
    ScriptsSetNoLimit(limit, s, ops);
    PathBound(limit, s, s', committed, committed', steps);
  }

  lemma PathBound(limit: int, s: Store, s': Store, committed: int, committed': int, steps: seq<Step<Id>>)
    requires Path(Abs(limit, s, committed), steps, Abs(limit, s', committed'), false) && NoLimitSet(steps)
    requires 0 <= limit && Abs(limit, s, committed).Valid()
    ensures committed' + Sum(s'.keys)
         <= Max(committed + Sum(s.keys), limit) + Overshoot(Abs(limit, s, committed), steps)
  {
    FixedLimitBound(Abs(limit, s, committed), steps, Abs(limit, s', committed'), false);
  }

  /** The counter is within the limit after every script of a run. */
  ghost predicate AlwaysWithin(limit: int, s: Store, ops: seq<Op>)
    decreases |ops|
  {
    s.used <= limit && (ops != [] ==> AlwaysWithin(limit, Apply(limit, s, ops[0]).0, ops[1..]))
  }

  /** Every commit that finds its hold is covered by what the limit leaves beside the rest. */
  ghost predicate Funded(limit: int, s: Store, ops: seq<Op>)
    decreases |ops|
  {
    ops != [] ==> Covered(limit, s, ops[0]) && Funded(limit, Apply(limit, s, ops[0]).0, ops[1..])
  }

  ghost predicate Covered(limit: int, s: Store, op: Op) {
    op.Commit? ==>
      var live := Reclaimed(s, op.batch);
      Get(live.keys, op.id) != 0 ==> live.used - live.keys[op.id] + op.actual <= limit
  }

  /** When concurrent callers cannot exceed the limit: in exactly the runs whose
      commits are covered. Backlogs, leaks and expiries make no difference. */
  lemma {:induction false} WithinIffFunded(limit: int, s: Store, ops: seq<Op>, s': Store, committed: int, leaked: int)
    requires Inv(s, committed, leaked) && Trace(limit, s, ops, s') && 0 <= limit && s.used <= limit
    ensures AlwaysWithin(limit, s, ops) <==> Funded(limit, s, ops)
    decreases |ops|
  {
    if ops == [] {
    } else {
      var next := Apply(limit, s, ops[0]).0;
      var committed' := committed + CommitsBy(ops[0], Apply(limit, s, ops[0]).1);
      ApplyKeeps(limit, s, committed, leaked, ops[0], next, committed');
      WithinNext(limit, s, committed, leaked, ops[0], next);
      if next.used <= limit {
        WithinIffFunded(limit, next, ops[1..], s', committed', leaked + LeaksBy(s, ops[0]));
      }
    }
  }

  lemma WithinNext(limit: int, s: Store, committed: int, leaked: int, op: Op, next: Store)
    requires Inv(s, committed, leaked) && Legal(s, op) && s.used <= limit && 0 <= limit && next == Apply(limit, s, op).0
    ensures next.used <= limit <==> Covered(limit, s, op)
  {
    if !op.KeyDies? {
      SumNonNegative(Restrict(s.keys, op.batch));
    }
  }

  // ---- verdicts ---------------------------------------------------------------------------

  /** A grant leaves committed usage and every stored hold within the limit even
      while a backlog of expired holds or leaked amounts is still counted; a denial
      means the counter, with that backlog and leak, had no room. Without a limit
      nothing is denied. */
  lemma AdmissionExact(limit: int, s: Store, committed: int, leaked: int, op: Op)
    requires Inv(s, committed, leaked) && op.Reserve? && Legal(s, op)
    ensures var (s', verdict) := Apply(limit, s, op);
            var total := committed + leaked + Sum(s.keys - op.batch) + op.estimate;
            && verdict == (if limit < 0 || total <= limit then Ok else Exceeded)
            && (verdict.Ok? && limit >= 0 ==> committed + Sum(s'.keys) <= s'.used <= limit)
            && (verdict.Ok? ==> s'.keys == (s.keys - op.batch)[op.id := op.estimate] && s'.used == total)
  {
    ReserveKeeps(limit, s, committed, leaked, op, Apply(limit, s, op).0);
    ReclaimKeeps(limit, s, committed, leaked, op.batch, Reclaimed(s, op.batch));
  }

  /** What is stored for reservations whose lease has not ended. */
  function Live(s: Store, now: int): map<Id, int> {
    map i | i in s.keys && i in s.expiry && now < s.expiry[i] :: s.keys[i]
  }

  /** With a backlog of at most one batch and nothing leaked, admission is by
      committed usage and unexpired reservations alone: an abandoned lease never blocks. */
  lemma AdmissionWithoutBacklog(limit: int, s: Store, committed: int, op: Op)
    requires Inv(s, committed, 0) && op.Reserve? && Legal(s, op)
    requires |set i | i in s.expiry && s.expiry[i] <= op.now| <= 100
    ensures Apply(limit, s, op).1.Ok?
       <==> limit < 0 || committed + Sum(Live(s, op.now)) + op.estimate <= limit
  {
    AdmissionExact(limit, s, committed, 0, op);
    assert Due(s.expiry, op.now) == set i | i in s.expiry && s.expiry[i] <= op.now;
    SmallBacklog(s.expiry, op.now, op.batch);
    assert s.keys - op.batch == Live(s, op.now);
  }

  lemma SmallBacklog(expiry: map<Id, int>, now: int, batch: set<Id>)
    requires IsOldest(expiry, now, batch) && |Due(expiry, now)| <= 100
    ensures batch == Due(expiry, now)
  {
    if id :| id in Due(expiry, now) && id !in batch {
      assert batch <= Due(expiry, now) - {id};
      SetSizes(batch, Due(expiry, now) - {id});
    }
  }

  /** Scripts before time `end` that leave reservation `id` to its holder. */
  predicate Elsewhere(ops: seq<Op>, id: Id, end: int) {
    forall i :: 0 <= i < |ops| ==> ops[i].id != id && (!ops[i].KeyDies? ==> ops[i].now < end)
  }

  lemma {:induction false} HoldSurvives(limit: int, s: Store, ops: seq<Op>, s': Store, id: Id)
    requires id in s.keys && id in s.expiry && Trace(limit, s, ops, s') && Elsewhere(ops, id, s.expiry[id])
    ensures id in s'.keys && s'.keys[id] == s.keys[id] && id in s'.expiry && s'.expiry[id] == s.expiry[id]
    decreases |ops|
  {
    if ops == [] {
    } else {
      assert ops[0].id != id && (!ops[0].KeyDies? ==> id !in ops[0].batch);
      HoldSurvives(limit, Apply(limit, s, ops[0]).0, ops[1..], s', id);
    }
  }

  /** A granted reservation can be settled by its holder at any time before its
      lease ends, whatever else runs meanwhile, if and only if its estimate was
      positive: a zero estimate is granted, and its Commit is answered "reservation not found". */
  lemma SettleableIffPositive(limit: int, s: Store, op: Op, ops: seq<Op>, s': Store, settle: Op)
    requires op.Reserve? && Legal(s, op) && Apply(limit, s, op).1.Ok?
    requires Trace(limit, Apply(limit, s, op).0, ops, s') && Elsewhere(ops, op.id, op.now + op.ttl)
    requires (settle.Commit? || settle.Release?) && settle.id == op.id && settle.now < op.now + op.ttl
    requires Legal(s', settle)
    ensures Apply(limit, s', settle).1.Ok? <==> op.estimate > 0
  {
    HoldSurvives(limit, Apply(limit, s, op).0, ops, s', op.id);
    assert op.id !in settle.batch;
  }

  /** Once its key is gone a reservation cannot be settled again, by anyone, in any later script. */
  lemma {:induction false} SettledStays(limit: int, s: Store, ops: seq<Op>, s': Store, id: Id, settle: Op)
    requires id !in s.keys && Trace(limit, s, ops, s')
    requires forall i :: 0 <= i < |ops| && ops[i].Reserve? ==> ops[i].id != id
    requires (settle.Commit? || settle.Release?) && settle.id == id
    ensures Apply(limit, s', settle).1 == NotFound && Apply(limit, s', settle).0 == Reclaimed(s', settle.batch)
    decreases |ops|
  {
    if ops == [] {
    } else {
      SettledStays(limit, Apply(limit, s, ops[0]).0, ops[1..], s', id, settle);
    }
  }

  // ---- draining the backlog --------------------------------------------------------------

  lemma SetSizes(a: set<Id>, b: set<Id>)
    ensures |a - b| == |a| - |a * b|
    ensures a <= b ==> |a| <= |b|
  {
    assert a == (a - b) + (a * b);
    if a <= b {
      assert b == a + (b - a);
    }
  }

  /** What a batch takes from the entries already due at an earlier time `t`: the oldest go first. */
  lemma BatchDrains(expiry: map<Id, int>, now: int, t: int, batch: set<Id>)
    requires IsOldest(expiry, now, batch) && t <= now
    ensures var before, after := |Due(expiry, t)|, |Due(expiry - batch, t)|;
            after == if before < 100 then 0 else before - 100
  {
    var old_, due := Due(expiry, t), Due(expiry, now);
    assert old_ <= due;
    assert Due(expiry - batch, t) == old_ - batch;
    SetSizes(old_, batch);
    SetSizes(old_, due);
    if old_ <= batch {
      assert old_ * batch == old_ && old_ - batch == {};
      SetSizes(old_, batch);
    } else {
      var j :| j in old_ && j !in batch;
      forall i | i in batch ensures i in old_ {
        assert expiry[i] <= expiry[j];
      }
      assert old_ * batch == batch;
      SetSizes(batch, old_);
      assert due * batch == batch && j in due - batch;
      SetSizes(due, batch);
    }
  }

  /** The one entry due at `t` that a settlement removes beyond its batch: its own. */
  function Late(s: Store, op: Op, t: int): nat {
    if (op.Commit? || op.Release?) && op.id !in op.batch && Get(s.keys, op.id) != 0 && op.id in Due(s.expiry, t) then 1
    else 0
  }

  /** Every script run drains exactly its batch, denied or not, and a settlement its own entry. */
  lemma ScriptDrains(limit: int, s: Store, op: Op, t: int, s': Store)
    requires Legal(s, op) && !op.KeyDies? && t <= op.now && s' == Apply(limit, s, op).0
    ensures |Due(s'.expiry, t)| == Max(0, |Due(s.expiry, t)| - 100 - Late(s, op, t))
  {
    BatchDrains(s.expiry, op.now, t, op.batch);
    if op.Reserve? {
      assert Due(s'.expiry, t) == Due(s.expiry - op.batch, t);
    } else {
      SettlementDrains(s, op, t, s');
    }
  }

  lemma SettlementDrains(s: Store, op: Op, t: int, s': Store)
    requires op.Commit? || op.Release?
    requires s' == SettleScript(s, op.batch, op.id, if op.Commit? then op.actual else 0).0
    ensures |Due(s'.expiry, t)| == |Due(s.expiry - op.batch, t)| - Late(s, op, t)
  {
    var left := Due(s.expiry - op.batch, t);
    if Late(s, op, t) == 1 {
      assert op.id in left && Due(s'.expiry, t) == left - {op.id};
    } else {
      assert Due(s'.expiry, t) == left;
    }
  }

  function Scripts(ops: seq<Op>): nat {
    if ops == [] then 0 else (if ops[0].KeyDies? then 0 else 1) + Scripts(ops[1..])
  }

  ghost function Lates(limit: int, s: Store, ops: seq<Op>, t: int): nat
    decreases |ops|
  {
    if ops == [] then 0 else Late(s, ops[0], t) + Lates(limit, Apply(limit, s, ops[0]).0, ops[1..], t)
  }

  /** What is left of the entries due at time `t` after any mix of scripts, to
      the entry, no matter what expires or dies meanwhile. */
  lemma {:induction false} BacklogDrains(limit: int, s: Store, ops: seq<Op>, s': Store, t: int)
    requires Trace(limit, s, ops, s')
    requires forall i :: 0 <= i < |ops| && !ops[i].KeyDies? ==> t <= ops[i].now
    ensures |Due(s'.expiry, t)| == Max(0, |Due(s.expiry, t)| - 100 * Scripts(ops) - Lates(limit, s, ops, t))
    decreases |ops|
  {
    if ops == [] {
    } else {
      var next := Apply(limit, s, ops[0]).0;
      if !ops[0].KeyDies? {
        ScriptDrains(limit, s, ops[0], t, next);
      }
      BacklogDrains(limit, next, ops[1..], s', t);
    }
  }

  // ---- when reservation keys cannot die ------------------------------------------------------

  /** The scripts `ops` reclaim or settle everything that was due at `t` before them. */
  ghost predicate Enough(limit: int, s: Store, ops: seq<Op>, t: int) {
    |Due(s.expiry, t)| <= 100 * Scripts(ops) + Lates(limit, s, ops, t)
  }

  /** After such scripts no key is left whose lease ended by `t`. */
  lemma {:induction false} DrainedKeys(limit: int, s: Store, ops: seq<Op>, s': Store, t: int)
    requires s.keys.Keys <= s.expiry.Keys && Trace(limit, s, ops, s') && Enough(limit, s, ops, t)
    requires forall i :: 0 <= i < |ops| && !ops[i].KeyDies? ==> t <= ops[i].now
    ensures forall id :: id in s'.keys ==> id in s'.expiry && t < s'.expiry[id]
  {
    BacklogDrains(limit, s, ops, s', t);
    KeysListed(limit, s, ops, s');
    assert Due(s'.expiry, t) == {};
    forall id | id in s'.keys ensures id in s'.expiry && t < s'.expiry[id] {
      assert id !in Due(s'.expiry, t);
    }
  }

  /** A granted reservation that is neither settled nor reserved again is gone,
      and no longer counted, once its lease of `ttl` seconds has ended and as
      many scripts have run from then on as 100 at a time need for what was due. */
  lemma {:induction false} AbandonedIsReclaimed(limit: int, s: Store, op: Op, held: Store, ops: seq<Op>, s': Store)
    requires op.Reserve? && Legal(s, op) && Apply(limit, s, op) == (held, Ok) && s.keys.Keys <= s.expiry.Keys
    requires Trace(limit, held, ops, s')
    requires forall i :: 0 <= i < |ops| && !ops[i].KeyDies? ==> op.now + op.ttl <= ops[i].now
    requires forall i :: 0 <= i < |ops| && ops[i].Reserve? ==> ops[i].id != op.id
    requires |Due(held.expiry, op.now + op.ttl)| <= 100 * Scripts(ops)
    ensures op.id !in s'.keys && op.id !in s'.expiry
  {
    GrantedScore(limit, s, op, held);
    OverdueIsReclaimed(limit, held, ops, s', op.id, op.now + op.ttl);
  }

  lemma GrantedScore(limit: int, s: Store, op: Op, held: Store)
    requires op.Reserve? && Apply(limit, s, op) == (held, Ok)
    ensures op.id in held.expiry && held.expiry[op.id] == op.now + op.ttl
    ensures s.keys.Keys <= s.expiry.Keys ==> held.keys.Keys <= held.expiry.Keys
  {
  }

  lemma {:induction false} OverdueIsReclaimed(limit: int, s: Store, ops: seq<Op>, s': Store, id: Id, t: int)
    requires id in s.expiry && s.expiry[id] == t && s.keys.Keys <= s.expiry.Keys && Trace(limit, s, ops, s')
    requires forall i :: 0 <= i < |ops| && !ops[i].KeyDies? ==> t <= ops[i].now
    requires forall i :: 0 <= i < |ops| && ops[i].Reserve? ==> ops[i].id != id
    requires |Due(s.expiry, t)| <= 100 * Scripts(ops)
    ensures id !in s'.keys && id !in s'.expiry
  {
    ScoreKept(limit, s, ops, s', id);
    KeysListed(limit, s, ops, s');
    BacklogDrains(limit, s, ops, s', t);
    assert Due(s'.expiry, t) == {};
    assert id !in Due(s'.expiry, t);
  }

  lemma {:induction false} ScoreKept(limit: int, s: Store, ops: seq<Op>, s': Store, id: Id)
    requires Trace(limit, s, ops, s') && forall i :: 0 <= i < |ops| && ops[i].Reserve? ==> ops[i].id != id
    ensures id in s'.expiry ==> id in s.expiry && s'.expiry[id] == s.expiry[id]
    decreases |ops|
  {
    if ops == [] {
    } else {
      ScoreKept(limit, Apply(limit, s, ops[0]).0, ops[1..], s', id);
    }
  }

  /** The lease is exact: after any scripts of others before its end, the next
      one by anyone leaves the reservation if the end has not come and, with at
      most one batch due, removes it if it has. */
  lemma LeaseExact(limit: int, s: Store, op: Op, held: Store, ops: seq<Op>, s': Store, next: Op)
    requires op.Reserve? && Legal(s, op) && Apply(limit, s, op) == (held, Ok)
    requires Trace(limit, held, ops, s') && Elsewhere(ops, op.id, op.now + op.ttl)
    requires Legal(s', next) && !next.KeyDies? && next.id != op.id && |Due(s'.expiry, next.now)| <= 100
    ensures op.id in Apply(limit, s', next).0.keys <==> next.now < op.now + op.ttl
  {
    HoldSurvives(limit, held, ops, s', op.id);
    SmallBacklog(s'.expiry, next.now, next.batch);
  }

  lemma {:induction false} KeysListed(limit: int, s: Store, ops: seq<Op>, s': Store)
    requires s.keys.Keys <= s.expiry.Keys && Trace(limit, s, ops, s')
    ensures s'.keys.Keys <= s'.expiry.Keys
    decreases |ops|
  {
    if ops == [] {
    } else {
      var next := Apply(limit, s, ops[0]).0;
      assert next.keys.Keys <= next.expiry.Keys;
      KeysListed(limit, next, ops[1..], s');
    }
  }

  ghost function After(limit: int, s: Store, ops: seq<Op>): Store
    decreases |ops|
  {
    if ops == [] then s else After(limit, Apply(limit, s, ops[0]).0, ops[1..])
  }

  lemma {:induction false} TraceSplits(limit: int, s: Store, ops: seq<Op>, s': Store, k: nat)
    requires Trace(limit, s, ops, s') && k <= |ops|
    ensures Trace(limit, s, ops[..k], After(limit, s, ops[..k]))
    ensures Trace(limit, After(limit, s, ops[..k]), ops[k..], s')
    decreases k
  {
    if k == 0 {
      assert ops[..0] == [] && ops[0..] == ops;
    } else {
      TraceSplits(limit, Apply(limit, s, ops[0]).0, ops[1..], s', k - 1);
      assert ops[..k][0] == ops[0] && ops[..k][1..] == ops[1..][..k - 1] && ops[1..][k - 1..] == ops[k..];
    }
  }

  /** Position `i` is where time `t` is reached, on a clock that does not run backwards. */
  predicate Reaches(ops: seq<Op>, t: int, i: nat) {
    && i <= |ops|
    && (forall k :: 0 <= k < i ==> ops[k].now < t)
    && (forall k :: i <= k < |ops| ==> t <= ops[k].now)
  }

  /** Whenever a day has passed since some time `t`, the scripts of that day
      have reclaimed, 100 at a time, or settled all that was due at `t`. */
  ghost predicate Maintained(limit: int, s: Store, ops: seq<Op>) {
    forall t, i: nat, j: nat | Reaches(ops, t, i) && i <= j < |ops| ::
      t + 24 * 60 * 60 <= ops[j].now ==> Enough(limit, After(limit, s, ops[..i]), ops[i..j], t)
  }

  predicate Monotone(ops: seq<Op>) {
    forall k, l :: 0 <= k < l < |ops| ==> ops[k].now <= ops[l].now
  }

  lemma {:induction false} FirstReaching(ops: seq<Op>, t: int) returns (i: nat)
    requires Monotone(ops)
    ensures Reaches(ops, t, i)
    decreases |ops|
  {
    if ops == [] || t <= ops[0].now {
      i := 0;
    } else {
      var rest := FirstReaching(ops[1..], t);
      i := rest + 1;
      forall k | 0 <= k < i ensures ops[k].now < t {
        if k > 0 {
          assert ops[k] == ops[1..][k - 1];
        }
      }
      forall k | i <= k < |ops| ensures t <= ops[k].now {
        assert ops[k] == ops[1..][k - 1];
      }
    }
  }

  /** In some state of the run a key is old enough to die by the time of the next operation. */
  ghost predicate CanLose(limit: int, s: Store, ops: seq<Op>) {
    exists j: nat :: j < |ops| && Endangered(After(limit, s, ops[..j]), ops[j].now)
  }

  ghost predicate Endangered(s: Store, now: int) {
    exists id :: CanDie(s, id, now)
  }

  /** A day after `t` a key can die if and only if the scripts since `t` were
      too few for what was due at `t`. */
  lemma {:induction false} DeathPossibleIff(limit: int, s: Store, ops: seq<Op>, s': Store, t: int)
    requires s.keys.Keys == s.expiry.Keys && Trace(limit, s, ops, s') && NoneDies(ops)
    requires forall i :: 0 <= i < |ops| ==> t <= ops[i].now
    ensures Endangered(s', t + 24 * 60 * 60) <==> !Enough(limit, s, ops, t)
  {
    BacklogDrains(limit, s, ops, s', t);
    SameIds(limit, s, ops, s');
    DueCanDie(s', t, t + MARGIN);
  }

  lemma DueCanDie(s: Store, t: int, now: int)
    requires t + MARGIN <= now && s.keys.Keys == s.expiry.Keys
    ensures Due(s.expiry, t) != {} ==> Endangered(s, now)
    ensures now == t + MARGIN && Endangered(s, now) ==> Due(s.expiry, t) != {}
  {
    if id :| id in Due(s.expiry, t) {
      assert CanDie(s, id, now);
    }
    if now == t + MARGIN && Endangered(s, now) {
      var id :| CanDie(s, id, now);
      assert id in Due(s.expiry, t);
    }
  }

  /** When nothing can leak: no key is ever old enough to die if and only if the
      ledger is maintained; and then none dies, and the counter is exactly
      committed usage plus stored reservations. */
  lemma {:induction false} NoLeakIffMaintained(limit: int, s: Store, ops: seq<Op>, s': Store, committed: int)
    requires Inv(s, committed, 0) && s.keys.Keys == s.expiry.Keys && Trace(limit, s, ops, s') && Monotone(ops)
    ensures Maintained(limit, s, ops) <==> !CanLose(limit, s, ops)
    ensures Maintained(limit, s, ops) ==>
              && NoneDies(ops) && s'.keys.Keys == s'.expiry.Keys
              && s'.used == committed + Committed(limit, s, ops) + Sum(s'.keys)
  {
    if CanLose(limit, s, ops) {
      var j: nat :| j < |ops| && Endangered(After(limit, s, ops[..j]), ops[j].now);
      EndangeredIsNeglected(limit, s, ops, s', j);
    } else {
      DeathIsLoss(limit, s, ops, s');
      NeverEndangeredIsMaintained(limit, s, ops, s');
      SameIds(limit, s, ops, s');
      TraceRefines(limit, s, ops, s', committed, 0);
    }
  }

  /** A run, its stretch from the time `t` up to operation `j`, and the stores at both ends. */
  lemma {:induction false} Stretch(limit: int, s: Store, ops: seq<Op>, s': Store, t: int, i: nat, j: nat)
    returns (early: Store, late: Store)
    requires Trace(limit, s, ops, s') && Reaches(ops, t, i) && i <= j <= |ops|
    ensures early == After(limit, s, ops[..i]) && late == After(limit, s, ops[..j])
    ensures Trace(limit, s, ops[..i], early) && Trace(limit, early, ops[i..j], late)
    ensures forall k :: 0 <= k < |ops[i..j]| ==> t <= ops[i..j][k].now
  {
    early, late := After(limit, s, ops[..i]), After(limit, s, ops[..j]);
    TraceSplits(limit, s, ops, s', j);
    TraceSplits(limit, s, ops[..j], late, i);
    assert ops[..j][..i] == ops[..i] && ops[..j][i..] == ops[i..j];
  }

  lemma EndangeredIsNeglected(limit: int, s: Store, ops: seq<Op>, s': Store, j: nat)
    requires s.keys.Keys == s.expiry.Keys && Trace(limit, s, ops, s') && Monotone(ops)
    requires j < |ops| && Endangered(After(limit, s, ops[..j]), ops[j].now)
    ensures !Maintained(limit, s, ops)
  {
    var id :| CanDie(After(limit, s, ops[..j]), id, ops[j].now);
    var t := After(limit, s, ops[..j]).expiry[id];
    var i := FirstReaching(ops, t);
    assert i <= j;
    var early, late := Stretch(limit, s, ops, s', t, i, j);
    BacklogDrains(limit, early, ops[i..j], late, t);
    assert id in Due(late.expiry, t);
    assert !Enough(limit, early, ops[i..j], t);
    assert Reaches(ops, t, i) && i <= j < |ops| && t + MARGIN <= ops[j].now;
  }

  lemma DeathIsLoss(limit: int, s: Store, ops: seq<Op>, s': Store)
    requires Trace(limit, s, ops, s')
    ensures !CanLose(limit, s, ops) ==> NoneDies(ops)
  {
    forall j: nat | j < |ops| && ops[j].KeyDies? ensures CanLose(limit, s, ops) {
      TraceSplits(limit, s, ops, s', j);
      assert ops[j..][0] == ops[j];
      assert CanDie(After(limit, s, ops[..j]), ops[j].id, ops[j].now);
      assert Endangered(After(limit, s, ops[..j]), ops[j].now);
    }
  }

  lemma NeverEndangeredIsMaintained(limit: int, s: Store, ops: seq<Op>, s': Store)
    requires s.keys.Keys == s.expiry.Keys && Trace(limit, s, ops, s') && NoneDies(ops) && !CanLose(limit, s, ops)
    ensures Maintained(limit, s, ops)
  {
    forall t, i: nat, j: nat | Reaches(ops, t, i) && i <= j < |ops| && t + MARGIN <= ops[j].now
      ensures Enough(limit, After(limit, s, ops[..i]), ops[i..j], t)
    {
      assert !Endangered(After(limit, s, ops[..j]), ops[j].now);
      SafeStretch(limit, s, ops, s', t, i, j, ops[j].now);
    }
  }

  lemma {:induction false} SafeStretch(limit: int, s: Store, ops: seq<Op>, s': Store, t: int, i: nat, j: nat, now: int)
    requires s.keys.Keys == s.expiry.Keys && Trace(limit, s, ops, s') && NoneDies(ops)
    requires Reaches(ops, t, i) && i <= j <= |ops| && t + MARGIN <= now && !Endangered(After(limit, s, ops[..j]), now)
    ensures Enough(limit, After(limit, s, ops[..i]), ops[i..j], t)
  {
    var early, late := Stretch(limit, s, ops, s', t, i, j);
    SameIds(limit, s, ops[..i], early);
    SameIds(limit, early, ops[i..j], late);
    BacklogDrains(limit, early, ops[i..j], late, t);
    DueCanDie(late, t, now);
  }

  /** And a ledger nobody uses for a day after a lease ends can leak all of it. */
  lemma LeakWitness(limit: int, estimate: int) returns (ops: seq<Op>, s': Store)
    requires (limit < 0 || estimate <= limit) && 0 < estimate && ValidEstimate(estimate)
    ensures var s := Store(0, map[], map[]);
            Inv(s, 0, 0) && Trace(limit, s, ops, s') && Leaked(limit, s, ops) == estimate
    ensures s'.keys == map[] && s'.used == estimate
  {
    s' := Store(estimate, map[], map[0 := 1]);
    FirstReserve(limit, estimate);
    ops := OnlyDeath(limit, estimate, s');
    RunBefore(limit, Store(0, map[], map[]), Op.Reserve({}, 0, estimate, 0, 1),
              Store(estimate, map[0 := estimate], map[0 := 1]), ops, s');
    ops := [Op.Reserve({}, 0, estimate, 0, 1)] + ops;
  }

  lemma OnlyDeath(limit: int, estimate: int, s': Store) returns (ops: seq<Op>)
    requires s' == Store(estimate, map[], map[0 := 1])
    ensures Trace(limit, Store(estimate, map[0 := estimate], map[0 := 1]), ops, s')
    ensures Leaked(limit, Store(estimate, map[0 := estimate], map[0 := 1]), ops) == estimate
  {
    var held := Store(estimate, map[0 := estimate], map[0 := 1]);
    assert held.keys - {0} == map[];
    RunBefore(limit, held, KeyDies(0, 1 + MARGIN), s', [], s');
    ops := [KeyDies(0, 1 + MARGIN)] + [];
  }

  lemma FirstReserve(limit: int, estimate: int)
    requires (limit < 0 || estimate <= limit) && ValidEstimate(estimate)
    ensures Legal(Store(0, map[], map[]), Op.Reserve({}, 0, estimate, 0, 1))
    ensures Apply(limit, Store(0, map[], map[]), Op.Reserve({}, 0, estimate, 0, 1))
         == (Store(estimate, map[0 := estimate], map[0 := 1]), Ok)
  {
    ReclaimedNone(Store(0, map[], map[]));
    assert Due(map[], 0) == {};
  }

  /** One more operation in front of a run. */
  lemma RunBefore(limit: int, s: Store, op: Op, next: Store, ops: seq<Op>, s': Store)
    requires Legal(s, op) && next == Apply(limit, s, op).0 && Trace(limit, next, ops, s')
    ensures Trace(limit, s, [op] + ops, s') && Leaked(limit, s, [op] + ops) == LeaksBy(s, op) + Leaked(limit, next, ops)
  {
    assert ([op] + ops)[0] == op && ([op] + ops)[1..] == ops;
  }

  // ---- the scripts line by line -------------------------------------------------------------

  lemma {:induction false} HasOldest(expiry: map<Id, int>, ids: set<Id>) returns (oldest: Id)
    requires ids != {} && ids <= expiry.Keys
    ensures oldest in ids && forall j :: j in ids ==> expiry[oldest] <= expiry[j]
    decreases |ids|
  {
    oldest :| oldest in ids;
    if ids != {oldest} {
      var i := HasOldest(expiry, ids - {oldest});
      if expiry[i] < expiry[oldest] {
        oldest := i;
      }
    }
  }

  lemma OldestTaken(expiry: map<Id, int>, now: int, taken: set<Id>, rest: set<Id>)
    requires taken + rest == Due(expiry, now) && taken !! rest
    requires |taken| == BATCH || (|taken| < BATCH && rest == {})
    requires forall i, j | i in taken && j in rest :: expiry[i] <= expiry[j]
    ensures IsOldest(expiry, now, taken)
  {
    SetSizes(Due(expiry, now), taken);
    assert Due(expiry, now) * taken == taken && Due(expiry, now) - taken == rest;
  }

  /** ZRANGEBYSCORE expiry -inf now LIMIT 0 100 */
  method RangeByScore(expiry: map<Id, int>, now: int) returns (ids: seq<Id>, ghost taken: set<Id>)
    ensures forall i, j :: 0 <= i < j < |ids| ==> ids[i] != ids[j]
    ensures forall i :: i in taken <==> i in ids
    ensures IsOldest(expiry, now, taken)
  {
    var rest := Due(expiry, now);
    ids, taken := [], {};
    while |ids| < BATCH && rest != {}
      invariant |ids| <= BATCH && |taken| == |ids| && forall i :: i in taken <==> i in ids
      invariant taken + rest == Due(expiry, now) && taken !! rest
      invariant forall i, j :: 0 <= i < j < |ids| ==> ids[i] != ids[j]
      invariant forall i, j | i in taken && j in rest :: expiry[i] <= expiry[j]
      decreases rest
    {
      ghost var oldest := HasOldest(expiry, rest);
      var i :| i in rest && forall j :: j in rest ==> expiry[i] <= expiry[j];
      ids, rest, taken := ids + [i], rest - {i}, taken + {i};
    }
    OldestTaken(expiry, now, taken, rest);
  }

  lemma ReclaimedNone(s: Store)
    ensures Reclaimed(s, {}) == s
  {
    assert Restrict(s.keys, {}) == map[] && s.keys - {} == s.keys && s.expiry - {} == s.expiry;
  }

  lemma ReclaimedOneMore(s: Store, done: set<Id>, id: Id)
    requires id !in done && forall i :: i in s.keys ==> s.keys[i] >= 0
    ensures var t := Reclaimed(s, done);
            && Reclaimed(s, done + {id}) == Store(t.used - Get(t.keys, id), t.keys - {id}, t.expiry - {id})
            && Get(t.keys, id) >= 0
  {
    if id in s.keys {
      SumInsert(Restrict(s.keys, done), id, s.keys[id]);
      assert Restrict(s.keys, done + {id}) == Restrict(s.keys, done)[id := s.keys[id]];
    } else {
      assert Restrict(s.keys, done + {id}) == Restrict(s.keys, done);
    }
    assert s.keys - (done + {id}) == s.keys - done - {id} && s.expiry - (done + {id}) == s.expiry - done - {id};
  }

  class Ledger {
    const limit: int
    var store: Store

    constructor (limit: int, store: Store)
      ensures this.limit == limit && this.store == store
    {
      this.limit, this.store := limit, store;
    }

    /** The loop every script begins with. */
    method Reclaim(now: int) returns (ghost batch: set<Id>)
      requires forall i :: i in store.keys ==> store.keys[i] >= 0
      modifies this
      ensures IsOldest(old(store).expiry, now, batch) && store == Reclaimed(old(store), batch)
    {
      var expired: seq<Id>;
      expired, batch := RangeByScore(store.expiry, now);
      ghost var before, done: set<Id> := store, {};
      ReclaimedNone(before);
      var n := 0;
      while n < |expired|
        invariant n <= |expired| && done == (set i | i in expired[..n])
        invariant store == Reclaimed(before, done)
      {
        var id := expired[n];
        assert id !in done;
        assert expired[..n + 1] == expired[..n] + [id];
        ReclaimedOneMore(before, done, id);
        var value := Get(store.keys, id);
        if value > 0 {
          store := store.(used := store.used - value);
        }
        store := store.(keys := store.keys - {id}, expiry := store.expiry - {id});
        done := done + {id};
        n := n + 1;
      }
      assert expired[..n] == expired;
      assert done == batch;
    }

    method RunReserve(id: Id, estimate: int, now: int, ttl: int) returns (verdict: Verdict, ghost batch: set<Id>)
      requires forall i :: i in store.keys ==> store.keys[i] >= 0
      modifies this
      ensures IsOldest(old(store).expiry, now, batch)
      ensures (store, verdict) == Apply(limit, old(store), Op.Reserve(batch, id, estimate, now, ttl))
    {
      batch := Reclaim(now);
      if limit >= 0 && store.used + estimate > limit { return Exceeded, batch; }
      store := store.(used := store.used + estimate);
      store := store.(keys := store.keys[id := estimate], expiry := store.expiry[id := now + ttl]);
      return Ok, batch;
    }

    /** The client side of Reserve: validation, then at most one script run. */
    method Reserve(live: bool, id: Id, estimate: int, now: int, seconds: int, fate: Fate)
      returns (verdict: Verdict, ghost batch: set<Id>)
      requires forall i :: i in store.keys ==> store.keys[i] >= 0
      modifies this
      ensures !live || !(0 <= estimate <= 0x3FFF_FFFF_FFFF_FFFF) || fate.Lost? ==>
                store == old(store) && verdict == Refused
      ensures live && 0 <= estimate <= 0x3FFF_FFFF_FFFF_FFFF && !fate.Lost? ==>
                && IsOldest(old(store).expiry, now, batch)
                && var ttl := if seconds < 1 then 1 else seconds;
                   var (s, v) := Apply(limit, old(store), Op.Reserve(batch, id, estimate, now, ttl));
                   store == s && verdict == Told(v, true, Refused, fate)
    {
      batch := {};
      if !live || !ValidEstimate(estimate) || fate.Lost? { return Refused, batch; }
      verdict, batch := RunReserve(id, estimate, now, Max(seconds, 1));
      if fate.Ambiguous? {
        verdict := Refused;
      }
    }

    method RunCommit(id: Id, actual: int, now: int) returns (verdict: Verdict, ghost batch: set<Id>)
      requires forall i :: i in store.keys ==> store.keys[i] >= 0
      modifies this
      ensures IsOldest(old(store).expiry, now, batch)
      ensures (store, verdict) == Apply(limit, old(store), Op.Commit(batch, id, actual, now))
    {
      batch := Reclaim(now);
      var reserved := Get(store.keys, id);
      if reserved == 0 { return NotFound, batch; }
      var used := store.used + actual - reserved;
      store := Store(used, store.keys - {id}, store.expiry - {id});
      return Ok, batch;
    }

    method RunRelease(id: Id, now: int) returns (verdict: Verdict, ghost batch: set<Id>)
      requires forall i :: i in store.keys ==> store.keys[i] >= 0
      modifies this
      ensures IsOldest(old(store).expiry, now, batch)
      ensures (store, verdict) == Apply(limit, old(store), Op.Release(batch, id, now))
    {
      batch := Reclaim(now);
      var reserved := Get(store.keys, id);
      if reserved == 0 { return NotFound, batch; }
      var used := store.used - reserved;
      store := Store(used, store.keys - {id}, store.expiry - {id});
      return Ok, batch;
    }
  }

  /** A reservation handle: done once a terminal script has answered success. The
      script may also not run at all, or run while the client is told of a failure. */
  class Reservation {
    const ledger: Ledger
    const id: Id
    var done: bool

    constructor (ledger: Ledger, id: Id)
      ensures this.ledger == ledger && this.id == id && !done
    {
      this.ledger, this.id, done := ledger, id, false;
    }

    method Commit(live: bool, actual: int, now: int, fate: Fate) returns (verdict: Verdict, ghost batch: set<Id>)
      requires forall i :: i in ledger.store.keys ==> ledger.store.keys[i] >= 0
      modifies this`done, ledger
      ensures !live || old(done) ==>
                ledger.store == old(ledger.store) && done == old(done) && verdict == if live then Ok else Refused
      ensures live && !old(done) ==> done == verdict.Ok?
      ensures live && !old(done) && fate.Lost? ==> ledger.store == old(ledger.store) && verdict == Refused
      ensures live && !old(done) && !fate.Lost? ==>
                && IsOldest(old(ledger.store).expiry, now, batch)
                && var (s, v) := Apply(ledger.limit, old(ledger.store),
                                        Op.Commit(batch, id, if actual < 0 then 0 else actual, now));
                   ledger.store == s && verdict == Told(v, true, Refused, fate)
    {
      batch := {};
      if !live { return Refused, batch; }
      if done { return Ok, batch; }
      if fate.Lost? { return Refused, batch; }
      var charge := NonNegative(actual);
      verdict, batch := ledger.RunCommit(id, charge, now);
      if fate.Ambiguous? {
        verdict := Refused;
      }
      done := verdict.Ok?;
    }

    method Release(live: bool, now: int, fate: Fate) returns (verdict: Verdict, ghost batch: set<Id>)
      requires forall i :: i in ledger.store.keys ==> ledger.store.keys[i] >= 0
      modifies this`done, ledger
      ensures !live || old(done) ==>
                ledger.store == old(ledger.store) && done == old(done) && verdict == if live then Ok else Refused
      ensures live && !old(done) ==> done == verdict.Ok?
      ensures live && !old(done) && fate.Lost? ==> ledger.store == old(ledger.store) && verdict == Refused
      ensures live && !old(done) && !fate.Lost? ==>
                && IsOldest(old(ledger.store).expiry, now, batch)
                && var (s, v) := Apply(ledger.limit, old(ledger.store), Op.Release(batch, id, now));
                   ledger.store == s && verdict == Told(v, true, Refused, fate)
    {
      batch := {};
      if !live { return Refused, batch; }
      if done { return Ok, batch; }
      if fate.Lost? { return Refused, batch; }
      verdict, batch := ledger.RunRelease(id, now);
      if fate.Ambiguous? {
        verdict := Refused;
      }
      done := verdict.Ok?;
    }
  }
}
