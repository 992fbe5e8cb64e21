/** The reserve/commit/release protocol every backend implements, as one
    abstract machine: money spent, money held per reservation, and a limit
    (negative means unlimited). In a prepaid budget a commit needs funds, and
    the limit may not be set below what is in use. */
module Budgets {
  import opened Sums

  datatype Budget<Id> = Budget(limit: int, spent: int, holds: map<Id, int>) {
    ghost function Used(): int {
      spent + Sum(holds)
    }

    ghost predicate Valid() {
      spent >= 0 && forall id :: id in holds ==> holds[id] >= 0
    }
  }

  datatype Step<Id> =
    | Reserve(id: Id, amount: int)
    | Commit(id: Id, actual: int)
    | Release(id: Id)
    | Expire(ids: set<Id>)
    | SetLimit(limit: int)

  ghost predicate Admits<Id>(b: Budget<Id>, amount: int) {
    b.limit < 0 || b.Used() + amount <= b.limit
  }

  ghost predicate Enabled<Id>(b: Budget<Id>, step: Step<Id>, prepaid: bool) {
    match step
    case Reserve(id, amount) => id !in b.holds && amount >= 0 && Admits(b, amount)
    case Commit(id, actual) =>
      id in b.holds && actual >= 0 && (prepaid ==> b.Used() - b.holds[id] + actual <= b.limit)
    case Release(id) => id in b.holds
    case Expire(ids) => ids <= b.holds.Keys
    case SetLimit(limit) => prepaid ==> b.Used() <= limit
  }

  function Next<Id>(b: Budget<Id>, step: Step<Id>): Budget<Id> {
    match step
    case Reserve(id, amount) => b.(holds := b.holds[id := amount])
    case Commit(id, actual) => b.(spent := b.spent + actual, holds := b.holds - {id})
    case Release(id) => b.(holds := b.holds - {id})
    case Expire(ids) => b.(holds := b.holds - ids)
    case SetLimit(limit) => b.(limit := limit)
  }

  /** `steps` is a run of the machine from `b` to `b'`. */
  ghost predicate Path<Id>(b: Budget<Id>, steps: seq<Step<Id>>, b': Budget<Id>, prepaid: bool)
    decreases |steps|
  {
    if steps == [] then b == b'
    else Enabled(b, steps[0], prepaid) && Path(Next(b, steps[0]), steps[1..], b', prepaid)
  }

  lemma OneStep<Id>(b: Budget<Id>, step: Step<Id>, prepaid: bool)
    requires Enabled(b, step, prepaid)
    ensures Path(b, [step], Next(b, step), prepaid)
  {
    assert Path(Next(b, step), [step][1..], Next(b, step), prepaid);
  }

  lemma {:induction false} PathConcat<Id>(b0: Budget<Id>, s: seq<Step<Id>>, b1: Budget<Id>, t: seq<Step<Id>>,
                                         b2: Budget<Id>, prepaid: bool)
    requires Path(b0, s, b1, prepaid) && Path(b1, t, b2, prepaid)
    ensures Path(b0, s + t, b2, prepaid)
    decreases |s|
  {
    if s == [] {
      assert s + t == t;
    } else {
      PathConcat(Next(b0, s[0]), s[1..], b1, t, b2, prepaid);
      assert (s + t)[1..] == s[1..] + t;
    }
  }

  /** Where the steps lead, enabled or not. */
  function Result<Id>(b: Budget<Id>, steps: seq<Step<Id>>): Budget<Id>
    decreases |steps|
  {
    if steps == [] then b else Result(Next(b, steps[0]), steps[1..])
  }

  lemma ResultOfTwo<Id>(b: Budget<Id>, s: Step<Id>, t: Step<Id>)
    ensures Result(b, [s]) == Next(b, s) && Result(b, [s, t]) == Next(Next(b, s), t)
  {
    assert [s][1..] == [] && [s, t][1..] == [t] && [t][1..] == [];
    assert Result(b, [s, t]) == Result(Next(b, s), [t]);
    assert Result(Next(b, s), [t]) == Result(Next(Next(b, s), t), []);
  }

  lemma {:induction false} PathSplits<Id>(b: Budget<Id>, s: seq<Step<Id>>, t: seq<Step<Id>>, b': Budget<Id>,
                                          prepaid: bool)
    ensures Path(b, s + t, b', prepaid) <==> Path(b, s, Result(b, s), prepaid) && Path(Result(b, s), t, b', prepaid)
    decreases |s|
  {
    if s == [] {
      assert s + t == t;
    } else {
      PathSplits(Next(b, s[0]), s[1..], t, b', prepaid);
      assert (s + t)[0] == s[0] && (s + t)[1..] == s[1..] + t;
    }
  }

  /** What one step does to usage. */
  lemma UsedAfter<Id>(b: Budget<Id>, step: Step<Id>, prepaid: bool)
    requires b.Valid() && Enabled(b, step, prepaid)
    ensures Next(b, step).Valid()
    ensures match step
            case Reserve(_, amount) => Next(b, step).Used() == b.Used() + amount
            case Commit(id, actual) => Next(b, step).Used() == b.Used() - b.holds[id] + actual
            case Release(id) => Next(b, step).Used() == b.Used() - b.holds[id]
            case Expire(ids) => Next(b, step).Used() == b.Used() - Sum(Restrict(b.holds, ids)) <= b.Used()
            case SetLimit(_) => Next(b, step).Used() == b.Used()
  {
    match step
    case Reserve(id, amount) => SumInsert(b.holds, id, amount);
    case Commit(id, _) => SumRemove(b.holds, id);
    case Release(id) => SumRemove(b.holds, id);
    case Expire(ids) => SumMinus(b.holds, ids); SumNonNegative(Restrict(b.holds, ids));
    case SetLimit(_) =>
  }

  function Max(x: int, y: int): int {
    if x < y then y else x
  }

  /** The highest limit in force at any point of a run. */
  function Peak<Id>(limit: int, steps: seq<Step<Id>>): int
    decreases |steps|
  {
    if steps == [] then limit
    else Max(limit, Peak(if steps[0].SetLimit? then steps[0].limit else limit, steps[1..]))
  }

  function OvershootBy<Id>(b: Budget<Id>, step: Step<Id>): int {
    if step.Commit? && step.id in b.holds then Max(0, step.actual - b.holds[step.id]) else 0
  }

  /** By how much commits of a run charged more than they had reserved. */
  function Overshoot<Id>(b: Budget<Id>, steps: seq<Step<Id>>): int
    decreases |steps|
  {
    if steps == [] then 0 else OvershootBy(b, steps[0]) + Overshoot(Next(b, steps[0]), steps[1..])
  }

  lemma OvershootFirst<Id>(b: Budget<Id>, first: seq<Step<Id>>, rest: seq<Step<Id>>)
    requires |first| <= 1
    ensures Overshoot(b, first + rest)
         == if first == [] then Overshoot(b, rest) else OvershootBy(b, first[0]) + Overshoot(Next(b, first[0]), rest)
  {
    if first == [] {
      assert first + rest == rest;
    } else {
      assert (first + rest)[0] == first[0] && (first + rest)[1..] == rest;
    }
  }

  predicate Capped<Id>(limit: int, steps: seq<Step<Id>>) {
    limit >= 0 && forall i :: 0 <= i < |steps| && steps[i].SetLimit? ==> steps[i].limit >= 0
  }

  /** Usage never passes the highest limit by more than commits overran their
      reservations, however limits move and whatever expires. */
  lemma {:induction false} OvershootBound<Id>(b: Budget<Id>, steps: seq<Step<Id>>, b': Budget<Id>, prepaid: bool)
    requires b.Valid() && Path(b, steps, b', prepaid) && Capped(b.limit, steps)
    ensures b'.Valid()
    ensures b'.Used() <= Max(b.Used(), Peak(b.limit, steps)) + Overshoot(b, steps)
    decreases |steps|
  {
    if steps == [] {
    } else {
      UsedAfter(b, steps[0], prepaid);
      OvershootBound(Next(b, steps[0]), steps[1..], b', prepaid);
    }
  }

  /** A prepaid budget within its limit stays within its limit, with no side condition. */
  lemma {:induction false} PrepaidNeverOverdrawn<Id>(b: Budget<Id>, steps: seq<Step<Id>>, b': Budget<Id>)
    requires b.Valid() && Path(b, steps, b', true)
    requires 0 <= b.limit && b.Used() <= b.limit
    ensures b'.Valid() && b'.Used() <= b'.limit && 0 <= b'.limit
    decreases |steps|
  {
    if steps == [] {
    } else {
      UsedAfter(b, steps[0], true);
      SumNonNegative(b.holds);
      PrepaidNeverOverdrawn(Next(b, steps[0]), steps[1..], b');
    }
  }

  predicate NoLimitSet<Id>(steps: seq<Step<Id>>) {
    forall i :: 0 <= i < |steps| ==> !steps[i].SetLimit?
  }

  lemma {:induction false} FixedLimit<Id>(limit: int, steps: seq<Step<Id>>)
    requires NoLimitSet(steps)
    ensures Peak(limit, steps) == limit
    decreases |steps|
  {
    if steps == [] {
    } else {
      FixedLimit(limit, steps[1..]);
    }
  }

  /** The same for a run that sets no limit. */
  lemma FixedLimitBound<Id>(b: Budget<Id>, steps: seq<Step<Id>>, b': Budget<Id>, prepaid: bool)
    requires b.Valid() && Path(b, steps, b', prepaid) && 0 <= b.limit && NoLimitSet(steps)
    ensures b'.Used() <= Max(b.Used(), b.limit) + Overshoot(b, steps)
  {
    FixedLimit(b.limit, steps);
    OvershootBound(b, steps, b', prepaid);
  }

  /** Usage is within the limit in every state of a run. */
  ghost predicate Within<Id>(b: Budget<Id>, steps: seq<Step<Id>>)
    decreases |steps|
  {
    b.Used() <= b.limit && (steps != [] ==> Within(Next(b, steps[0]), steps[1..]))
  }

  /** When the limit is kept: exactly in the runs whose every commit passes the
      funds guard of a prepaid budget, and whose every new limit covers what is
      in use. Reservations, releases and expiry never break it. */
  lemma {:induction false} WithinIffFunded<Id>(b: Budget<Id>, steps: seq<Step<Id>>, b': Budget<Id>)
    requires b.Valid() && 0 <= b.limit && b.Used() <= b.limit && Path(b, steps, b', false)
    ensures Within(b, steps) <==> Path(b, steps, b', true)
    decreases |steps|
  {
    if steps == [] {
    } else {
      var next := Next(b, steps[0]);
      UsedAfter(b, steps[0], false);
      SumNonNegative(b.holds);
      SumNonNegative(next.holds);
      if next.Used() <= next.limit {
        WithinIffFunded(next, steps[1..], b');
      }
    }
  }

  /** The guard is needed: whatever the limit, one commit can pass it by any amount. */
  lemma OverLimitReachable<Id>(limit: int, id: Id, excess: nat)
    requires 0 <= limit
    ensures exists steps: seq<Step<Id>>, b': Budget<Id> ::
              Path(Budget(limit, 0, map[]), steps, b', false) && Capped(limit, steps) && b'.Used() == limit + excess
  {
    var b: Budget<Id> := Budget(limit, 0, map[]);
    var reserve, commit := Reserve(id, 0), Step<Id>.Commit(id, limit + excess);
    var held := Next(b, reserve);
    var b' := Next(held, commit);
    OneStep(b, reserve, false);
    OneStep(held, commit, false);
    PathConcat(b, [reserve], held, [commit], b', false);
    assert b'.holds == map[];
    assert Path(b, [reserve] + [commit], b', false) && Capped(limit, [reserve] + [commit]);
  }

  /** In every state of the run a step is taken from, usage is over a limit. */
  ghost predicate Over<Id>(b: Budget<Id>, steps: seq<Step<Id>>)
    decreases |steps|
  {
    steps != [] ==> 0 <= b.limit < b.Used() && Over(Next(b, steps[0]), steps[1..])
  }

  /** A budget over its limit admits nothing until it drains. */
  lemma {:induction false} OverAdmitsNothing<Id>(b: Budget<Id>, steps: seq<Step<Id>>, b': Budget<Id>, prepaid: bool)
    requires Path(b, steps, b', prepaid) && Over(b, steps)
    ensures forall i :: 0 <= i < |steps| ==> !steps[i].Reserve?
    decreases |steps|
  {
    if steps == [] {
    } else {
      OverAdmitsNothing(Next(b, steps[0]), steps[1..], b', prepaid);
      forall i | 0 <= i < |steps| ensures !steps[i].Reserve? {
        if i > 0 {
          assert steps[i] == steps[1..][i - 1];
        }
      }
    }
  }

  function Charged<Id>(steps: seq<Step<Id>>): int {
    if steps == [] then 0 else (if steps[0].Commit? then steps[0].actual else 0) + Charged(steps[1..])
  }

  function Opened<Id>(steps: seq<Step<Id>>, id: Id): int {
    if steps == [] then 0 else (if steps[0].Reserve? && steps[0].id == id then 1 else 0) + Opened(steps[1..], id)
  }

  function Closed<Id>(steps: seq<Step<Id>>, id: Id): int {
    if steps == [] then 0
    else (match steps[0]
          case Commit(i, _) => if i == id then 1 else 0
          case Release(i) => if i == id then 1 else 0
          case Expire(ids) => if id in ids then 1 else 0
          case _ => 0)
         + Closed(steps[1..], id)
  }

  /** Money is spent by commits only, and each hold is closed exactly once:
      every opening is matched by one closing or is still open. */
  lemma {:induction false} SettledExactlyOnce<Id>(b: Budget<Id>, steps: seq<Step<Id>>, b': Budget<Id>,
                                                prepaid: bool, id: Id)
    requires Path(b, steps, b', prepaid)
    ensures b'.spent == b.spent + Charged(steps)
    ensures Opened(steps, id) + (if id in b.holds then 1 else 0)
         == Closed(steps, id) + (if id in b'.holds then 1 else 0)
    decreases |steps|
  {
    if steps == [] {
    } else {
      SettledExactlyOnce(Next(b, steps[0]), steps[1..], b', prepaid, id);
    }
  }
}
