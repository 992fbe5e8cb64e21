/** The local ledger as individual atomic loads, compare-and-swaps and adds,
    interleaved over any number of goroutines. */
module LocalAtomics {
  import opened Int64
  import opened Sums
  import opened Budgets

  type Tid = nat
  type Rid = nat

  datatype Settlement = Charge(actual: int) | Free {
    function Amount(): int {
      if Charge? then actual else 0
    }
  }

  /** Where a goroutine inside Reserve, Commit or Release has got to. */
  datatype Pc =
    | Loading(estimate: int)                  // about to load usedMicros
    | Swapping(estimate: int, seen: int)      // checks passed, about to compare-and-swap
    | Claiming(rid: Rid, how: Settlement)     // about to compare-and-swap done
    | Adjusting(rid: Rid, how: Settlement)    // done is won, usedMicros.Add pending
    | Spending(actual: int)                   // usedMicros added, spentMicros.Add pending

  datatype Hold = Hold(reserved: int, done: bool)

  /** `applied` is history: what was charged for each reservation whose add to
      usedMicros has happened. */
  datatype World = World(limit: int, used: int, spent: int, holds: map<Rid, Hold>,
                         threads: map<Tid, Pc>, applied: map<Rid, int>)

  datatype Action =
    | StartReserve(t: Tid, estimate: int)
    | StartSettle(t: Tid, rid: Rid, how: Settlement)
    | Load(t: Tid)
    | Swap(t: Tid, newRid: Rid)
    | Cancel(t: Tid)
    | Claim(t: Tid)
    | Adjust(t: Tid)
    | Spend(t: Tid)

  /** The two guards between the load and the compare-and-swap, in wrapping arithmetic. */
  predicate Admit(limit: int, used: int, estimate: int) {
    && estimate <= Wrap(MAX - used)
    && !(limit >= 0 && used > limit - estimate)
  }

  /** The wrapping guards never let a wrapped counter through. */
  lemma AdmitMeans(limit: int, used: int, estimate: int)
    requires Fits(used) && ValidEstimate(estimate)
    ensures Admit(limit, used, estimate)
       <==> 0 <= used && used + estimate <= MAX && (limit >= 0 ==> used + estimate <= limit)
  {
    if used < 0 {
      assert MAX - used - MIN - RANGE == (MAX - used - MIN) % RANGE;
    }
  }

  /** A compare-and-swap of `t` would fail now. */
  predicate Stale(w: World, t: Tid) {
    t in w.threads && w.threads[t].Swapping? && w.used != w.threads[t].seen
  }

  predicate At(w: World, t: Tid, a: Action) {
    t in w.threads &&
    match a
    case Load(_) => w.threads[t].Loading?
    case Cancel(_) => w.threads[t].Loading?
    case Swap(_, newRid) => w.threads[t].Swapping? && newRid !in w.holds
    case Claim(_) => w.threads[t].Claiming?
    case Adjust(_) => w.threads[t].Adjusting? && w.threads[t].rid in w.holds
    case Spend(_) => w.threads[t].Spending?
    case _ => false
  }

  predicate Can(w: World, a: Action) {
    match a
    case StartReserve(t, estimate) => t !in w.threads && ValidEstimate(estimate)
    case StartSettle(t, rid, how) => t !in w.threads && rid in w.holds && 0 <= how.Amount() <= MAX
    case _ => At(w, a.t, a)
  }

  function Do(w: World, a: Action): World
    requires Can(w, a)
  {
    match a
    case StartReserve(t, estimate) => w.(threads := w.threads[t := Loading(estimate)])
    case StartSettle(t, rid, how) => w.(threads := w.threads[t := Claiming(rid, how)])
    case Load(t) =>
      var estimate := w.threads[t].estimate;
      if Admit(w.limit, w.used, estimate) then w.(threads := w.threads[t := Swapping(estimate, w.used)])
      else w.(threads := w.threads - {t})
    case Swap(t, newRid) =>
      var pc := w.threads[t];
      if !Stale(w, t) then
        w.(used := Wrap(pc.seen + pc.estimate), holds := w.holds[newRid := Hold(pc.estimate, false)],
           threads := w.threads - {t})
      else w.(threads := w.threads[t := Loading(pc.estimate)])
    case Cancel(t) => w.(threads := w.threads - {t})
    case Claim(t) =>
      var pc := w.threads[t];
      if pc.rid in w.holds && !w.holds[pc.rid].done then
        w.(holds := w.holds[pc.rid := w.holds[pc.rid].(done := true)],
           threads := w.threads[t := Adjusting(pc.rid, pc.how)])
      else w.(threads := w.threads - {t})
    case Adjust(t) =>
      var pc := w.threads[t];
      w.(used := Wrap(w.used + Wrap(pc.how.Amount() - w.holds[pc.rid].reserved)),
         applied := w.applied[pc.rid := pc.how.Amount()],
         threads := if pc.how.Amount() > 0 then w.threads[t := Spending(pc.how.Amount())] else w.threads - {t})
    case Spend(t) =>
      w.(spent := Wrap(w.spent + w.threads[t].actual), threads := w.threads - {t})
  }

  // ---- what the counters mean -------------------------------------------

  /** Each reservation weighs what it reserved until its settlement is added, and what was charged after. */
  ghost function Weights(w: World): map<Rid, int> {
    map r | r in w.holds :: if r in w.applied then w.applied[r] else w.holds[r].reserved
  }

  ghost function Unspent(w: World): map<Tid, int> {
    map t | t in w.threads && w.threads[t].Spending? :: w.threads[t].actual
  }

  ghost function Total(w: World): int {
    Sum(Weights(w))
  }

  ghost predicate PcOk(w: World, pc: Pc) {
    match pc
    case Loading(estimate) => ValidEstimate(estimate)
    case Swapping(estimate, seen) =>
      ValidEstimate(estimate) && 0 <= seen && seen + estimate <= MAX && (w.limit >= 0 ==> seen + estimate <= w.limit)
    case Claiming(rid, how) => rid in w.holds && 0 <= how.Amount() <= MAX
    case Adjusting(rid, how) =>
      rid in w.holds && w.holds[rid].done && rid !in w.applied && 0 <= how.Amount() <= MAX
    case Spending(actual) => 0 < actual <= MAX
  }

  /** Some goroutine is committed to adding the settlement of `r`. */
  ghost predicate Claimed(w: World, r: Rid) {
    exists t :: t in w.threads && w.threads[t].Adjusting? && w.threads[t].rid == r
  }

  ghost predicate ThreadsOk(w: World) {
    forall t :: t in w.threads ==> PcOk(w, w.threads[t])
  }

  ghost predicate OneClaimant(w: World) {
    forall t, u | t in w.threads && u in w.threads && w.threads[t].Adjusting? && w.threads[u].Adjusting? ::
      w.threads[t].rid == w.threads[u].rid ==> t == u
  }

  ghost predicate HoldsOk(w: World) {
    && (forall r :: r in w.holds ==> ValidEstimate(w.holds[r].reserved))
    && (forall r :: r in w.applied ==> r in w.holds && w.holds[r].done && 0 <= w.applied[r] <= MAX)
  }

  ghost predicate NoneStranded(w: World) {
    forall r :: r in w.holds && w.holds[r].done && r !in w.applied ==> Claimed(w, r)
  }

  ghost predicate WellFormed(w: World) {
    ThreadsOk(w) && OneClaimant(w) && HoldsOk(w) && NoneStranded(w)
  }

  /** usedMicros is open holds, plus holds claimed but not yet adjusted, plus
      what has been charged; spentMicros lags it exactly by the commits between
      their two adds. Both modulo 2^64, with no assumption on their size. */
  ghost predicate CountersOk(w: World) {
    && w.used == Wrap(Total(w))
    && w.spent == Wrap(Sum(w.applied) - Sum(Unspent(w)))
  }

  ghost predicate Inv(w: World) {
    WellFormed(w) && CountersOk(w)
  }

  lemma FreshLedger(limit: int)
    ensures Inv(World(limit, 0, 0, map[], map[], map[]))
  {
    var w := World(limit, 0, 0, map[], map[], map[]);
    assert Weights(w) == map[] && Unspent(w) == map[];
  }

  /** What a step adds to the total, and to what has been charged. */
  ghost function Shift(w: World, a: Action): int {
    if !Can(w, a) then 0
    else if a.Swap? && !Stale(w, a.t) then w.threads[a.t].estimate
    else if a.Adjust? then w.threads[a.t].how.Amount() - w.holds[w.threads[a.t].rid].reserved
    else 0
  }

  ghost function Applies(w: World, a: Action): int {
    if a.Adjust? && Can(w, a) then w.threads[a.t].how.Amount() else 0
  }

  lemma ThreadsKept(w: World, a: Action, w': World)
    requires ThreadsOk(w) && OneClaimant(w) && HoldsOk(w) && Can(w, a) && Fits(w.used) && w' == Do(w, a)
    ensures ThreadsOk(w')
  {
    forall t | t in w'.threads ensures PcOk(w', w'.threads[t]) {
      if t == a.t {
        OwnPcKept(w, a, w');
      } else {
        OtherPcKept(w, a, w', t);
      }
    }
  }

  lemma OwnPcKept(w: World, a: Action, w': World)
    requires ThreadsOk(w) && HoldsOk(w) && Can(w, a) && Fits(w.used) && w' == Do(w, a) && a.t in w'.threads
    ensures PcOk(w', w'.threads[a.t])
  {
    if a.t in w.threads {
      assert PcOk(w, w.threads[a.t]);
    }
    if a.Load? {
      AdmitMeans(w.limit, w.used, w.threads[a.t].estimate);
    }
  }

  lemma OtherPcKept(w: World, a: Action, w': World, t: Tid)
    requires ThreadsOk(w) && OneClaimant(w) && Can(w, a) && w' == Do(w, a) && t in w'.threads && t != a.t
    ensures PcOk(w', w'.threads[t])
  {
    assert PcOk(w, w.threads[t]);
  }

  lemma OneClaimantKept(w: World, a: Action)
    requires ThreadsOk(w) && OneClaimant(w) && Can(w, a)
    ensures OneClaimant(Do(w, a))
  {
    forall t | t in w.threads && w.threads[t].Adjusting?
      ensures w.threads[t].rid in w.holds && w.holds[w.threads[t].rid].done {
      assert PcOk(w, w.threads[t]);
    }
  }

  lemma HoldsKept(w: World, a: Action)
    requires ThreadsOk(w) && HoldsOk(w) && Can(w, a)
    ensures HoldsOk(Do(w, a))
  {
    if a.t in w.threads {
      assert PcOk(w, w.threads[a.t]);
    }
  }

  lemma NoneStrandedKept(w: World, a: Action)
    requires NoneStranded(w) && Can(w, a)
    ensures NoneStranded(Do(w, a))
  {
    var w' := Do(w, a);
    forall r | r in w'.holds && w'.holds[r].done && r !in w'.applied ensures Claimed(w', r) {
      if a.Claim? && a.t in w'.threads && w'.threads[a.t].rid == r {
      } else {
        assert Claimed(w, r);
        var t :| t in w.threads && w.threads[t].Adjusting? && w.threads[t].rid == r;
        assert t in w'.threads && w'.threads[t] == w.threads[t];
      }
    }
  }

  lemma UnspentKept(w: World, a: Action, w': World)
    requires Can(w, a) && w' == Do(w, a) && !a.Spend? && !a.Adjust?
    ensures Unspent(w') == Unspent(w)
  {
  }

  lemma AdjustUnspent(w: World, a: Action, w': World)
    requires ThreadsOk(w) && Can(w, a) && a.Adjust? && w' == Do(w, a)
    ensures Sum(Unspent(w')) == Sum(Unspent(w)) + Applies(w, a)
  {
    assert PcOk(w, w.threads[a.t]);
    if Applies(w, a) > 0 {
      SumInsert(Unspent(w), a.t, Applies(w, a));
      assert Unspent(w') == Unspent(w)[a.t := Applies(w, a)];
    } else {
      assert Unspent(w') == Unspent(w);
    }
  }

  lemma TotalMoves(w: World, a: Action, w': World)
    requires ThreadsOk(w) && HoldsOk(w) && Can(w, a) && w' == Do(w, a)
    ensures Total(w') == Total(w) + Shift(w, a)
  {
    if a.Swap? && !Stale(w, a.t) {
      SwapTotal(w, a, w');
    } else if a.Adjust? {
      AdjustTotal(w, a, w');
    } else {
      WeightsKept(w, a, w');
    }
  }

  lemma SwapTotal(w: World, a: Action, w': World)
    requires HoldsOk(w) && Can(w, a) && a.Swap? && !Stale(w, a.t) && w' == Do(w, a)
    ensures Total(w') == Total(w) + w.threads[a.t].estimate
  {
    SumInsert(Weights(w), a.newRid, w.threads[a.t].estimate);
    assert Weights(w') == Weights(w)[a.newRid := w.threads[a.t].estimate];
  }

  lemma WeightsKept(w: World, a: Action, w': World)
    requires Can(w, a) && w' == Do(w, a) && !a.Adjust? && (a.Swap? ==> Stale(w, a.t))
    ensures Weights(w') == Weights(w)
  {
  }

  lemma AdjustTotal(w: World, a: Action, w': World)
    requires ThreadsOk(w) && Can(w, a) && a.Adjust? && w' == Do(w, a)
    ensures Total(w') == Total(w) + Shift(w, a)
  {
    var rid := w.threads[a.t].rid;
    assert PcOk(w, w.threads[a.t]);
    SumUpdate(Weights(w), rid, Applies(w, a));
    assert Weights(w') == Weights(w)[rid := Applies(w, a)];
  }

  lemma AppliedMoves(w: World, a: Action, w': World)
    requires ThreadsOk(w) && Can(w, a) && w' == Do(w, a)
    ensures Sum(w'.applied) == Sum(w.applied) + Applies(w, a)
  {
    if a.Adjust? {
      assert PcOk(w, w.threads[a.t]);
      SumInsert(w.applied, w.threads[a.t].rid, Applies(w, a));
    }
  }

  lemma CounterMoves(w: World, a: Action, w': World)
    requires ThreadsOk(w) && HoldsOk(w) && Can(w, a) && Fits(w.used) && w' == Do(w, a)
    ensures w'.used == Wrap(w.used + Shift(w, a))
  {
    if a.Adjust? {
      assert PcOk(w, w.threads[a.t]);
    }
  }

  /** Every atomic step of every goroutine keeps the meaning of both counters. */
  lemma InvKept(w: World, a: Action)
    requires Inv(w) && Can(w, a)
    ensures Inv(Do(w, a))
  {
    ThreadsKept(w, a, Do(w, a));
    OneClaimantKept(w, a);
    HoldsKept(w, a);
    NoneStrandedKept(w, a);
    CountersKept(w, a, Do(w, a));
  }

  lemma CountersKept(w: World, a: Action, w': World)
    requires ThreadsOk(w) && HoldsOk(w) && CountersOk(w) && Can(w, a) && w' == Do(w, a)
    ensures CountersOk(w')
  {
    UsedKept(w, a, w', Shift(w, a));
    SpentKept(w, a, w');
  }

  lemma UsedKept(w: World, a: Action, w': World, shift: int)
    requires ThreadsOk(w) && HoldsOk(w) && CountersOk(w) && Can(w, a) && w' == Do(w, a) && shift == Shift(w, a)
    ensures w'.used == Wrap(Total(w'))
  {
    TotalMoves(w, a, w');
    CounterMoves(w, a, w');
    WrapFollows(w.used, Total(w), shift, w'.used, Total(w'));
  }

  /** A wrapped counter that moves with a plain one stays its reduction. */
  lemma WrapFollows(counter: int, plain: int, shift: int, counter': int, plain': int)
    requires counter == Wrap(plain) && counter' == Wrap(counter + shift) && plain' == plain + shift
    ensures counter' == Wrap(plain')
  {
    WrapAdd(plain, shift);
  }

  lemma SpentKept(w: World, a: Action, w': World)
    requires ThreadsOk(w) && CountersOk(w) && Can(w, a) && w' == Do(w, a)
    ensures w'.spent == Wrap(Sum(w'.applied) - Sum(Unspent(w')))
  {
    if a.Spend? {
      SpendKeepsSpent(w, a, w');
    } else if a.Adjust? {
      AdjustKeepsSpent(w, a, w');
    } else {
      UnspentKept(w, a, w');
    }
  }

  lemma SpendKeepsSpent(w: World, a: Action, w': World)
    requires CountersOk(w) && Can(w, a) && a.Spend? && w' == Do(w, a)
    ensures w'.spent == Wrap(Sum(w'.applied) - Sum(Unspent(w')))
  {
    SumRemove(Unspent(w), a.t);
    assert Unspent(w') == Unspent(w) - {a.t};
    WrapAdd(Sum(w.applied) - Sum(Unspent(w)), w.threads[a.t].actual);
  }

  lemma AdjustKeepsSpent(w: World, a: Action, w': World)
    requires ThreadsOk(w) && CountersOk(w) && Can(w, a) && a.Adjust? && w' == Do(w, a)
    ensures w'.spent == Wrap(Sum(w'.applied) - Sum(Unspent(w')))
  {
    AdjustUnspent(w, a, w');
    AppliedMoves(w, a, w');
  }

  // ---- runs --------------------------------------------------------------

  ghost predicate Trace(w: World, acts: seq<Action>, w': World)
    decreases |acts|
  {
    if acts == [] then w == w' else Can(w, acts[0]) && Trace(Do(w, acts[0]), acts[1..], w')
  }

  lemma {:induction false} Conservation(w: World, acts: seq<Action>, w': World)
    requires Inv(w) && Trace(w, acts, w')
    ensures Inv(w') && w'.limit == w.limit
    decreases |acts|
  {
    if acts == [] {
    } else {
      InvKept(w, acts[0]);
      Conservation(Do(w, acts[0]), acts[1..], w');
    }
  }

  /** No settlement under way or applied charges more than its hold. */
  ghost predicate Frugal(w: World) {
    FrugalThreads(w) && w.limit >= 0 && Total(w) <= w.limit
  }

  ghost predicate FrugalThreads(w: World) {
    forall t | t in w.threads && (w.threads[t].Claiming? || w.threads[t].Adjusting?) ::
      w.threads[t].rid in w.holds ==> w.threads[t].how.Amount() <= w.holds[w.threads[t].rid].reserved
  }

  predicate FrugalAction(w: World, a: Action) {
    a.StartSettle? && a.rid in w.holds ==> a.how.Amount() <= w.holds[a.rid].reserved
  }

  ghost predicate FrugalTrace(w: World, acts: seq<Action>)
    decreases |acts|
  {
    acts != [] ==> Can(w, acts[0]) && FrugalAction(w, acts[0]) && FrugalTrace(Do(w, acts[0]), acts[1..])
  }

  lemma TotalNonNegative(w: World)
    requires WellFormed(w)
    ensures Total(w) >= 0
  {
    SumNonNegative(Weights(w));
  }

  lemma FrugalThreadsKept(w: World, a: Action)
    requires FrugalThreads(w) && ThreadsOk(w) && Can(w, a) && FrugalAction(w, a)
    ensures FrugalThreads(Do(w, a))
  {
    var w' := Do(w, a);
    forall t | t in w'.threads && (w'.threads[t].Claiming? || w'.threads[t].Adjusting?)
      ensures w'.threads[t].rid in w'.holds ==> w'.threads[t].how.Amount() <= w'.holds[w'.threads[t].rid].reserved
    {
      if t in w.threads {
        assert PcOk(w, w.threads[t]);
      }
    }
  }

  lemma FrugalKept(w: World, a: Action)
    requires Inv(w) && Frugal(w) && w.limit <= MAX && Can(w, a) && FrugalAction(w, a)
    ensures Frugal(Do(w, a))
  {
    TotalNonNegative(w);
    TotalMoves(w, a, Do(w, a));
    FrugalThreadsKept(w, a);
    ShiftFits(w, a);
  }

  lemma ShiftFits(w: World, a: Action)
    requires ThreadsOk(w) && FrugalThreads(w) && w.limit >= 0 && w.used <= w.limit && Can(w, a)
    ensures Shift(w, a) <= 0 || w.used + Shift(w, a) <= w.limit
  {
    if a.t in w.threads {
      assert PcOk(w, w.threads[a.t]);
    }
  }

  /** If every commit reports at most its estimate, then in every reachable
      state of every interleaving 0 <= used <= limit and `used` is the exact
      total: the compare-and-swap admits no lost update, ABA included, and
      nothing wraps. */
  lemma {:induction false} NeverOverLimit(w: World, acts: seq<Action>, w': World)
    requires Inv(w) && Frugal(w) && w.limit <= MAX
    requires Trace(w, acts, w') && FrugalTrace(w, acts)
    ensures Inv(w') && 0 <= w'.used == Total(w') <= w'.limit == w.limit
    decreases |acts|
  {
    if acts == [] {
      TotalNonNegative(w);
    } else {
      InvKept(w, acts[0]);
      FrugalKept(w, acts[0]);
      NeverOverLimit(Do(w, acts[0]), acts[1..], w');
    }
  }

  // ---- refinement of the abstract budget ----------------------------------

  ghost function Abs(w: World): Budget<Rid> {
    Budget(w.limit, Sum(w.applied), map r | r in w.holds && r !in w.applied :: w.holds[r].reserved)
  }

  lemma AbsUsed(w: World)
    requires WellFormed(w)
    ensures Abs(w).Used() == Total(w) && Abs(w).Valid()
  {
    SumMinus(Weights(w), w.applied.Keys);
    assert Restrict(Weights(w), w.applied.Keys) == w.applied;
    assert Weights(w) - w.applied.Keys == Abs(w).holds;
    SumNonNegative(w.applied);
  }

  /** Only the winning compare-and-swap and the add to usedMicros are visible. */
  ghost function Visible(w: World, a: Action): seq<Step<Rid>> {
    if !Can(w, a) then []
    else if a.Swap? && !Stale(w, a.t) then [Reserve(a.newRid, w.threads[a.t].estimate)]
    else if a.Adjust? && w.threads[a.t].how.Charge? then [Commit(w.threads[a.t].rid, w.threads[a.t].how.actual)]
    else if a.Adjust? then [Release(w.threads[a.t].rid)]
    else []
  }

  /** Under a limit, a winning swap finds a total that fits in an int64. */
  ghost predicate InRange(w: World, a: Action) {
    a.Swap? && !Stale(w, a.t) && w.limit >= 0 ==> Fits(Total(w))
  }

  /** Each atomic step is a step of the abstract budget or no step at all, so
      Reserve takes effect at its swap; the one exception is a grant under a
      limit after unguarded commits have carried the total past an int64. */
  lemma StepRefines(w: World, a: Action, w': World)
    requires Inv(w) && Can(w, a) && Fits(w.limit) && w' == Do(w, a)
    ensures Path(Abs(w), Visible(w, a), Abs(w'), false) <==> InRange(w, a)
  {
    VisibleMoves(w, a, w');
    if Visible(w, a) == [] {
    } else {
      var step := Visible(w, a)[0];
      VisibleEnabled(w, a, step);
      assert Visible(w, a) == [step];
      assert Path(Next(Abs(w), step), [step][1..], Abs(w'), false);
    }
  }

  /** The abstract budget moves by the visible step and by nothing else. */
  lemma VisibleMoves(w: World, a: Action, w': World)
    requires Inv(w) && Can(w, a) && w' == Do(w, a)
    ensures Abs(w') == if Visible(w, a) == [] then Abs(w) else Next(Abs(w), Visible(w, a)[0])
  {
    if a.Swap? && !Stale(w, a.t) {
      SwapMoves(w, a, w');
    } else if a.Adjust? {
      AbsAdjusted(w, a, w');
    } else {
      HiddenStep(w, a, w');
    }
  }

  lemma VisibleEnabled(w: World, a: Action, step: Step<Rid>)
    requires Inv(w) && Can(w, a) && Fits(w.limit) && Visible(w, a) == [step]
    ensures Enabled(Abs(w), step, false) <==> InRange(w, a)
  {
    AbsUsed(w);
    TotalNonNegative(w);
    assert PcOk(w, w.threads[a.t]);
  }

  lemma HiddenStep(w: World, a: Action, w': World)
    requires Can(w, a) && w' == Do(w, a) && !a.Adjust? && (a.Swap? ==> Stale(w, a.t))
    ensures Abs(w') == Abs(w)
  {
    assert Abs(w').holds == Abs(w).holds;
  }

  lemma AbsAdjusted(w: World, a: Action, w': World)
    requires ThreadsOk(w) && Can(w, a) && a.Adjust? && w' == Do(w, a)
    ensures Abs(w') == Next(Abs(w), Step.Commit(w.threads[a.t].rid, w.threads[a.t].how.Amount()))
  {
    AppliedMoves(w, a, w');
    assert PcOk(w, w.threads[a.t]);
    assert Abs(w').holds == Abs(w).holds - {w.threads[a.t].rid};
  }

  lemma SwapMoves(w: World, a: Action, w': World)
    requires WellFormed(w) && Can(w, a) && a.Swap? && !Stale(w, a.t) && w' == Do(w, a)
    ensures Abs(w') == Next(Abs(w), Reserve(a.newRid, w.threads[a.t].estimate))
  {
    assert Abs(w').holds == Abs(w).holds[a.newRid := w.threads[a.t].estimate];
  }

  /** The budget steps of a whole run. */
  ghost function VisibleIn(w: World, acts: seq<Action>): seq<Step<Rid>>
    decreases |acts|
  {
    if acts == [] || !Can(w, acts[0]) then [] else Visible(w, acts[0]) + VisibleIn(Do(w, acts[0]), acts[1..])
  }

  ghost predicate AllInRange(w: World, acts: seq<Action>)
    decreases |acts|
  {
    acts != [] && Can(w, acts[0]) ==> InRange(w, acts[0]) && AllInRange(Do(w, acts[0]), acts[1..])
  }

  /** Over whole runs: an interleaving is a run of the budget machine exactly if
      each of its grants under a limit finds a total that fits. */
  lemma {:induction false} TraceRefines(w: World, acts: seq<Action>, w': World)
    requires Inv(w) && Fits(w.limit) && Trace(w, acts, w')
    ensures Inv(w')
    ensures Path(Abs(w), VisibleIn(w, acts), Abs(w'), false) <==> AllInRange(w, acts)
    decreases |acts|
  {
    if acts == [] {
    } else {
      var next, first := FirstStep(w, acts, w');
      TraceRefines(next, acts[1..], w');
      if first == [] {
        assert VisibleIn(w, acts) == VisibleIn(next, acts[1..]);
      } else {
        assert VisibleIn(w, acts)[0] == first[0] && VisibleIn(w, acts)[1..] == VisibleIn(next, acts[1..]);
      }
    }
  }

  /** A run after its first action, and what that action is for the budget. */
  lemma FirstStep(w: World, acts: seq<Action>, w': World) returns (next: World, first: seq<Step<Rid>>)
    requires Inv(w) && Fits(w.limit) && Trace(w, acts, w') && acts != []
    ensures Inv(next) && next.limit == w.limit && Trace(next, acts[1..], w')
    ensures VisibleIn(w, acts) == first + VisibleIn(next, acts[1..]) && |first| <= 1
    ensures Abs(next) == if first == [] then Abs(w) else Next(Abs(w), first[0])
    ensures AllInRange(w, acts) <==> (first == [] || Enabled(Abs(w), first[0], false)) && AllInRange(next, acts[1..])
  {
    next, first := Do(w, acts[0]), Visible(w, acts[0]);
    InvKept(w, acts[0]);
    VisibleMoves(w, acts[0], next);
    if first != [] {
      VisibleEnabled(w, acts[0], first[0]);
    }
  }

  ghost predicate TotalsFit(w: World, acts: seq<Action>)
    decreases |acts|
  {
    Fits(Total(w)) && (acts != [] && Can(w, acts[0]) ==> TotalsFit(Do(w, acts[0]), acts[1..]))
  }

  /** The guard Commit does not make: its add to usedMicros stays in an int64. */
  ghost predicate CommitsFit(w: World, acts: seq<Action>)
    decreases |acts|
  {
    acts != [] && Can(w, acts[0]) ==>
      (acts[0].Adjust? ==> w.used + Shift(w, acts[0]) <= MAX) && CommitsFit(Do(w, acts[0]), acts[1..])
  }

  /** Totals fit throughout a run exactly if every commit passes that guard, and
      then the run refines the budget. Reserve needs no such condition. */
  lemma {:induction false} FitIffCommitsFit(w: World, acts: seq<Action>, w': World)
    requires Inv(w) && Fits(Total(w)) && Trace(w, acts, w')
    ensures TotalsFit(w, acts) <==> CommitsFit(w, acts)
    ensures TotalsFit(w, acts) ==> AllInRange(w, acts)
    decreases |acts|
  {
    if acts == [] {
    } else {
      var next := Do(w, acts[0]);
      InvKept(w, acts[0]);
      TotalMoves(w, acts[0], next);
      TotalNonNegative(next);
      SwapFits(w, acts[0]);
      if Fits(Total(next)) {
        FitIffCommitsFit(next, acts[1..], w');
      }
    }
  }

  /** A winning swap leaves the counter in an int64, and within a limit if there is one. */
  lemma SwapFits(w: World, a: Action)
    requires ThreadsOk(w) && Can(w, a)
    ensures Shift(w, a) <= 0 || a.Adjust?
         || (w.used + Shift(w, a) <= MAX && (w.limit >= 0 ==> w.used + Shift(w, a) <= w.limit))
  {
    if a.t in w.threads {
      assert PcOk(w, w.threads[a.t]);
    }
  }

  /** The counter is exact and within the limit. */
  ghost predicate Within(w: World) {
    0 <= w.used == Total(w) <= w.limit
  }

  ghost predicate AlwaysWithin(w: World, acts: seq<Action>)
    decreases |acts|
  {
    Within(w) && (acts != [] && Can(w, acts[0]) ==> AlwaysWithin(Do(w, acts[0]), acts[1..]))
  }

  /** Every settlement, when it adds to usedMicros, leaves the counter it adds to within the limit. */
  ghost predicate Funded(w: World, acts: seq<Action>)
    decreases |acts|
  {
    acts != [] && Can(w, acts[0]) ==>
      (acts[0].Adjust? ==> w.used + Shift(w, acts[0]) <= w.limit) && Funded(Do(w, acts[0]), acts[1..])
  }

  /** When concurrent callers cannot exceed the limit: in exactly those
      interleavings whose commits are covered when they are added. No number of
      concurrent reservations, and nothing about the size of totals, matters. */
  lemma {:induction false} WithinIffFunded(w: World, acts: seq<Action>, w': World)
    requires Inv(w) && Within(w) && w.limit <= MAX && Trace(w, acts, w')
    ensures AlwaysWithin(w, acts) <==> Funded(w, acts)
    decreases |acts|
  {
    if acts == [] {
    } else {
      var next := Do(w, acts[0]);
      InvKept(w, acts[0]);
      TotalMoves(w, acts[0], next);
      TotalNonNegative(next);
      SwapFits(w, acts[0]);
      if Within(next) {
        WithinIffFunded(next, acts[1..], w');
      }
    }
  }

  /** With commits that may overrun their estimates, the counter passes the limit
      by no more than the sum of those overruns, even if it wraps on the way. */
  lemma {:induction false} UsageBound(w: World, acts: seq<Action>, w': World)
    requires Inv(w) && 0 <= w.limit && Trace(w, acts, w')
    ensures w'.used <= Max(Total(w), w.limit) + Overshoot(Abs(w), VisibleIn(w, acts))
  {
    BoundKept(w, acts, w', Max(Total(w), w.limit));
  }

  lemma {:induction false} OvershootNonNegative(b: Budget<Rid>, steps: seq<Step<Rid>>)
    ensures Overshoot(b, steps) >= 0
    decreases |steps|
  {
    if steps == [] {
    } else {
      OvershootNonNegative(Next(b, steps[0]), steps[1..]);
    }
  }

  lemma {:induction false} BoundKept(w: World, acts: seq<Action>, w': World, bound: int)
    requires Inv(w) && 0 <= w.limit <= bound && Total(w) <= bound && Trace(w, acts, w')
    ensures w'.used <= bound + Overshoot(Abs(w), VisibleIn(w, acts))
    decreases |acts|
  {
    TotalNonNegative(w);
    OvershootNonNegative(Abs(w), VisibleIn(w, acts));
    if acts == [] {
    } else {
      Conservation(w, acts, w');
      if bound < MAX {
        var next, overrun := Overrun(w, acts, w');
        BoundKept(next, acts[1..], w', bound + overrun);
      }
    }
  }

  /** A run after its first action, and that action's part of the overshoot. */
  lemma {:induction false} Overrun(w: World, acts: seq<Action>, w': World) returns (next: World, overrun: int)
    requires Inv(w) && acts != [] && 0 <= w.limit && Fits(Total(w)) && Trace(w, acts, w')
    ensures Inv(next) && next.limit == w.limit && Trace(next, acts[1..], w')
    ensures 0 <= overrun && Total(next) <= Max(Total(w), w.limit) + overrun
    ensures Overshoot(Abs(w), VisibleIn(w, acts)) == overrun + Overshoot(Abs(next), VisibleIn(next, acts[1..]))
  {
    next, overrun := Do(w, acts[0]), OverrunBy(w, acts[0]);
    InvKept(w, acts[0]);
    OverrunTotal(w, acts[0], next);
    OverrunSplit(w, acts, next);
  }

  ghost function OverrunBy(w: World, a: Action): int {
    if a.Adjust? then Max(0, Shift(w, a)) else 0
  }

  lemma OverrunTotal(w: World, a: Action, next: World)
    requires Inv(w) && Can(w, a) && 0 <= w.limit && Fits(Total(w)) && next == Do(w, a)
    ensures Total(next) <= Max(Total(w), w.limit) + OverrunBy(w, a)
  {
    TotalMoves(w, a, next);
    TotalNonNegative(w);
    SwapFits(w, a);
  }

  lemma OverrunSplit(w: World, acts: seq<Action>, next: World)
    requires Inv(w) && acts != [] && Can(w, acts[0]) && next == Do(w, acts[0])
    ensures Overshoot(Abs(w), VisibleIn(w, acts))
         == OverrunBy(w, acts[0]) + Overshoot(Abs(next), VisibleIn(next, acts[1..]))
  {
    var first, rest := Visible(w, acts[0]), VisibleIn(next, acts[1..]);
    VisibleMoves(w, acts[0], next);
    OverrunIs(w, acts[0], first);
    assert VisibleIn(w, acts) == first + rest;
    OvershootFirst(Abs(w), first, rest);
  }

  lemma OverrunIs(w: World, a: Action, first: seq<Step<Rid>>)
    requires ThreadsOk(w) && HoldsOk(w) && Can(w, a) && first == Visible(w, a)
    ensures OverrunBy(w, a) == if first == [] then 0 else OvershootBy(Abs(w), first[0])
  {
    if a.t in w.threads {
      assert PcOk(w, w.threads[a.t]);
    }
  }

  /** A Reserve goes on from its load, with a total that fits, exactly if the
      budget admits it at that moment and the new total fits: whatever the
      total, no Reserve it should admit is turned away. */
  lemma DenialIsExact(w: World, t: Tid)
    requires Inv(w) && Can(w, Load(t)) && Fits(w.limit)
    ensures Admits(Abs(w), w.threads[t].estimate) && Total(w) + w.threads[t].estimate <= MAX
       <==> t in Do(w, Load(t)).threads && Fits(Total(w))
  {
    AbsUsed(w);
    TotalNonNegative(w);
    assert PcOk(w, w.threads[t]);
    AdmitMeans(w.limit, w.used, w.threads[t].estimate);
  }

  // ---- lock-free progress ---------------------------------------------------

  ghost function Retries(w: World, acts: seq<Action>, t: Tid): int
    decreases |acts|
  {
    if acts == [] || !Can(w, acts[0]) then 0
    else (if acts[0].Swap? && acts[0].t == t && Stale(w, t) then 1 else 0) + Retries(Do(w, acts[0]), acts[1..], t)
  }

  /** Steps of goroutines other than `t` that change the counter. */
  ghost function Changes(w: World, acts: seq<Action>, t: Tid): int
    decreases |acts|
  {
    if acts == [] || !Can(w, acts[0]) then 0
    else (if acts[0].t != t && Do(w, acts[0]).used != w.used then 1 else 0) + Changes(Do(w, acts[0]), acts[1..], t)
  }

  /** Each failed swap of a goroutine is paid for by its own counter change of
      another goroutine since the paired load: no retry without someone else's progress. */
  lemma {:induction false} RetriesArePaidFor(w: World, acts: seq<Action>, w': World, t: Tid)
    requires Trace(w, acts, w')
    ensures Retries(w, acts, t) + (if Stale(w', t) then 1 else 0)
         <= Changes(w, acts, t) + (if Stale(w, t) then 1 else 0)
    decreases |acts|
  {
    if acts == [] {
    } else {
      RetriesArePaidFor(Do(w, acts[0]), acts[1..], w', t);
    }
  }

  /** Goroutines about to compare-and-swap, and those among them that would fail. */
  ghost function Swappers(w: World): set<Tid> {
    set t | t in w.threads && w.threads[t].Swapping?
  }

  ghost function StaleOnes(w: World): set<Tid> {
    set t | t in w.threads && Stale(w, t)
  }

  /** The failed swaps of all goroutines together. */
  ghost function AllRetries(w: World, acts: seq<Action>): int
    decreases |acts|
  {
    if acts == [] || !Can(w, acts[0]) then 0
    else (if acts[0].Swap? && Stale(w, acts[0].t) then 1 else 0) + AllRetries(Do(w, acts[0]), acts[1..])
  }

  /** For each change of the counter, how many goroutines were about to swap just after it. */
  ghost function Exposed(w: World, acts: seq<Action>): int
    decreases |acts|
  {
    if acts == [] || !Can(w, acts[0]) then 0
    else (if Do(w, acts[0]).used != w.used then |Swappers(Do(w, acts[0]))| else 0) + Exposed(Do(w, acts[0]), acts[1..])
  }

  ghost function AllChanges(w: World, acts: seq<Action>): int
    decreases |acts|
  {
    if acts == [] || !Can(w, acts[0]) then 0
    else (if Do(w, acts[0]).used != w.used then 1 else 0) + AllChanges(Do(w, acts[0]), acts[1..])
  }

  lemma SmallerSet(a: set<Tid>, b: set<Tid>)
    requires a <= b
    ensures |a| <= |b|
  {
    assert b == a + (b - a);
  }

  lemma StaleMoves(w: World, a: Action, w': World)
    requires Can(w, a) && w' == Do(w, a)
    ensures w'.used != w.used ==> StaleOnes(w') <= Swappers(w')
    ensures w'.used == w.used && a.Swap? && Stale(w, a.t) ==> StaleOnes(w') == StaleOnes(w) - {a.t}
    ensures w'.used == w.used ==> StaleOnes(w') <= StaleOnes(w)
  {
  }

  /** Lock-free progress of the whole system: all retries of all goroutines are
      paid for by changes of the counter, each paying at most once for every
      goroutine that was about to swap when it happened. */
  lemma {:induction false} AllRetriesArePaidFor(w: World, acts: seq<Action>, w': World)
    requires Trace(w, acts, w')
    ensures AllRetries(w, acts) + |StaleOnes(w')| <= Exposed(w, acts) + |StaleOnes(w)|
    decreases |acts|
  {
    if acts == [] {
    } else {
      var a, next := acts[0], Do(w, acts[0]);
      AllRetriesArePaidFor(next, acts[1..], w');
      StaleMoves(w, a, next);
      if next.used == w.used {
        SmallerSet(StaleOnes(next), StaleOnes(w));
      } else {
        SmallerSet(StaleOnes(next), Swappers(next));
      }
      FailedSwapChangesNothing(w, a, next);
    }
  }

  lemma FailedSwapChangesNothing(w: World, a: Action, w': World)
    requires Can(w, a) && w' == Do(w, a)
    ensures a.Swap? && Stale(w, a.t) ==> w'.used == w.used && a.t in StaleOnes(w)
  {
  }

  /** One more action in front of a run. */
  lemma Before(w: World, a: Action, next: World, acts: seq<Action>, w': World)
    requires Can(w, a) && next == Do(w, a) && Trace(next, acts, w')
    ensures Trace(w, [a] + acts, w')
    ensures AllRetries(w, [a] + acts) == (if a.Swap? && Stale(w, a.t) then 1 else 0) + AllRetries(next, acts)
    ensures AllChanges(w, [a] + acts) == (if next.used != w.used then 1 else 0) + AllChanges(next, acts)
  {
    assert ([a] + acts)[0] == a && ([a] + acts)[1..] == acts;
  }

  /** A new unlimited ledger with `n` goroutines inside Reserve, `k` of them past their loads. */
  function Waiting(n: nat, k: nat): World {
    World(-1, 0, 0, map[], Racers(n, k), map[])
  }

  function Racers(n: nat, k: nat): map<Tid, Pc> {
    map t: Tid | t < n && Below(t, n) :: if t < k then Swapping(1, 0) else Loading(1)
  }

  predicate Below(t: Tid, n: nat) {
    t < n
  }

  /** The same after one more goroutine's reservation has won. */
  function Overtaken(n: nat, k: nat): World {
    World(-1, 1, 0, map[0 := Hold(1, false)], Racers(n, k), map[])
  }

  lemma {:induction false} AllFail(n: nat, k: nat) returns (acts: seq<Action>, w': World)
    requires k <= n
    ensures Trace(Overtaken(n, k), acts, w')
    ensures AllRetries(Overtaken(n, k), acts) == k && AllChanges(Overtaken(n, k), acts) == 0
    decreases k
  {
    if k == 0 {
      acts, w' := [], Overtaken(n, 0);
    } else {
      acts, w' := AllFail(n, k - 1);
      assert Racers(n, k)[k - 1 := Loading(1)] == Racers(n, k - 1);
      Before(Overtaken(n, k), Swap(k - 1, 1), Overtaken(n, k - 1), acts, w');
      acts := [Swap(k - 1, 1)] + acts;
    }
  }

  lemma {:induction false} AllLoad(n: nat, k: nat) returns (acts: seq<Action>, w': World)
    requires k <= n + 1
    ensures Trace(Waiting(n + 1, k), acts, w')
    ensures AllRetries(Waiting(n + 1, k), acts) == n && AllChanges(Waiting(n + 1, k), acts) == 1
    decreases n + 1 - k
  {
    if k == n + 1 {
      acts, w' := AllFail(n, n);
      assert Racers(n + 1, n + 1) - {n} == Racers(n, n);
      Before(Waiting(n + 1, n + 1), Swap(n, 0), Overtaken(n, n), acts, w');
      acts := [Swap(n, 0)] + acts;
    } else {
      acts, w' := AllLoad(n, k + 1);
      AdmitMeans(-1, 0, 1);
      assert Racers(n + 1, k)[k := Swapping(1, 0)] == Racers(n + 1, k + 1);
      Before(Waiting(n + 1, k), Load(k), Waiting(n + 1, k + 1), acts, w');
      acts := [Load(k)] + acts;
    }
  }

  lemma {:induction false} AllArrive(n: nat, m: nat) returns (acts: seq<Action>, w': World)
    requires m <= n + 1
    ensures Trace(Waiting(m, 0), acts, w')
    ensures AllRetries(Waiting(m, 0), acts) == n && AllChanges(Waiting(m, 0), acts) == 1
    decreases n + 1 - m
  {
    if m == n + 1 {
      acts, w' := AllLoad(n, 0);
    } else {
      acts, w' := AllArrive(n, m + 1);
      assert Racers(m, 0)[m := Loading(1)] == Racers(m + 1, 0);
      Before(Waiting(m, 0), StartReserve(m, 1), Waiting(m + 1, 0), acts, w');
      acts := [StartReserve(m, 1)] + acts;
    }
  }

  /** Counting changes alone would not do: for every n there is a run of a new
      ledger in which one change of the counter fails the swaps of n goroutines. */
  lemma OneChangeFailsManySwaps(n: nat)
    ensures exists acts: seq<Action>, w': World ::
              var w := World(-1, 0, 0, map[], map[], map[]);
              Inv(w) && Trace(w, acts, w') && AllRetries(w, acts) == n && AllChanges(w, acts) == 1
  {
    var acts, w' := AllArrive(n, 0);
    var w := World(-1, 0, 0, map[], map[], map[]);
    FreshLedger(-1);
    assert Waiting(0, 0) == w;
    assert Inv(w) && Trace(w, acts, w') && AllRetries(w, acts) == n && AllChanges(w, acts) == 1;
  }

  /** Each change of the counter finds at most one goroutine about to swap. */
  ghost predicate Uncontended(w: World, acts: seq<Action>)
    decreases |acts|
  {
    acts != [] && Can(w, acts[0]) ==>
      (Do(w, acts[0]).used != w.used ==> |Swappers(Do(w, acts[0]))| <= 1) && Uncontended(Do(w, acts[0]), acts[1..])
  }

  /** Where that is so, changes do bound the retries of all goroutines together. */
  lemma {:induction false} UncontendedRetries(w: World, acts: seq<Action>, w': World)
    requires Trace(w, acts, w') && Uncontended(w, acts)
    ensures AllRetries(w, acts) + |StaleOnes(w')| <= AllChanges(w, acts) + |StaleOnes(w)|
  {
    AllRetriesArePaidFor(w, acts, w');
    ExposedOnce(w, acts);
  }

  lemma {:induction false} ExposedOnce(w: World, acts: seq<Action>)
    requires Uncontended(w, acts)
    ensures Exposed(w, acts) <= AllChanges(w, acts)
    decreases |acts|
  {
    if acts == [] || !Can(w, acts[0]) {
    } else {
      ExposedOnce(Do(w, acts[0]), acts[1..]);
    }
  }

  // ---- totals that leave the int64 range -------------------------------------

  lemma {:induction false} TraceConcat(w0: World, a: seq<Action>, w1: World, b: seq<Action>, w2: World)
    requires Trace(w0, a, w1) && Trace(w1, b, w2)
    ensures Trace(w0, a + b, w2)
    ensures TotalsFit(w0, a + b) ==> TotalsFit(w1, b)
    ensures AllInRange(w0, a + b) ==> AllInRange(w1, b)
    decreases |a|
  {
    if a == [] {
      assert a + b == b;
    } else {
      TraceConcat(Do(w0, a[0]), a[1..], w1, b, w2);
      assert (a + b)[0] == a[0] && (a + b)[1..] == a[1..] + b;
    }
  }

  /** An uninterrupted Reserve, granted. */
  lemma Granted(w: World, rid: Rid, estimate: int) returns (acts: seq<Action>, w': World)
    requires w.threads == map[] && rid !in w.holds && ValidEstimate(estimate) && Admit(w.limit, w.used, estimate)
    ensures acts == [StartReserve(0, estimate), Load(0), Swap(0, rid)] && Trace(w, acts, w')
    ensures w' == w.(used := Wrap(w.used + estimate), holds := w.holds[rid := Hold(estimate, false)])
  {
    var started := w.(threads := map[0 := Loading(estimate)]);
    var loaded := w.(threads := map[0 := Swapping(estimate, w.used)]);
    w' := w.(used := Wrap(w.used + estimate), holds := w.holds[rid := Hold(estimate, false)]);
    assert map[0 := Swapping(estimate, w.used)] - {0} == map[];
    Before(loaded, Swap(0, rid), w', [], w');
    Before(started, Load(0), loaded, [Swap(0, rid)] + [], w');
    Before(w, StartReserve(0, estimate), started, [Load(0)] + ([Swap(0, rid)] + []), w');
    acts := [StartReserve(0, estimate)] + ([Load(0)] + ([Swap(0, rid)] + []));
  }

  /** An uninterrupted Commit of the largest possible cost on a reservation of zero. */
  lemma Overrunning(w: World, rid: Rid) returns (acts: seq<Action>, w': World)
    requires w.threads == map[] && rid in w.holds && w.holds[rid] == Hold(0, false) && Fits(w.used)
    ensures Trace(w, acts, w') && w'.limit == w.limit && w'.threads == map[]
    ensures w'.used == Wrap(w.used + MAX)
    ensures w'.holds == w.holds[rid := Hold(0, true)] && w'.applied == w.applied[rid := MAX]
  {
    var how := Charge(MAX);
    var holds := w.holds[rid := Hold(0, true)];
    var started := w.(threads := map[0 := Claiming(rid, how)]);
    var claimed := w.(holds := holds, threads := map[0 := Adjusting(rid, how)]);
    var added := claimed.(used := Wrap(w.used + MAX), applied := w.applied[rid := MAX],
                          threads := map[0 := Spending(MAX)]);
    w' := added.(spent := Wrap(w.spent + MAX), threads := map[]);
    assert map[0 := Spending(MAX)] - {0} == map[];
    Before(added, Spend(0), w', [], w');
    Before(claimed, Adjust(0), added, [Spend(0)] + [], w');
    Before(started, Claim(0), claimed, [Adjust(0)] + ([Spend(0)] + []), w');
    Before(w, StartSettle(0, rid, how), started, [Claim(0)] + ([Adjust(0)] + ([Spend(0)] + [])), w');
    acts := [StartSettle(0, rid, how)] + ([Claim(0)] + ([Adjust(0)] + ([Spend(0)] + [])));
  }

  /** Reservations of 0, 0 and 2 in a new ledger with a limit of 2. */
  lemma ThreeGranted() returns (acts: seq<Action>, w: World)
    ensures Trace(World(2, 0, 0, map[], map[], map[]), acts, w)
    ensures w == World(2, 2, 0, map[0 := Hold(0, false), 1 := Hold(0, false), 2 := Hold(2, false)], map[], map[])
  {
    var w0 := World(2, 0, 0, map[], map[], map[]);
    AdmitMeans(2, 0, 0);
    AdmitMeans(2, 0, 2);
    var a0, w1 := Granted(w0, 0, 0);
    var a1, w2 := Granted(w1, 1, 0);
    var a2, w3 := Granted(w2, 2, 2);
    TraceConcat(w0, a0, w1, a1, w2);
    TraceConcat(w0, a0 + a1, w2, a2, w3);
    acts, w := a0 + a1 + a2, w3;
  }

  /** And then two commits of the largest cost: the total is 2^64 and the counter reads 0. */
  lemma WrappedAround() returns (acts: seq<Action>, w: World)
    ensures Trace(World(2, 0, 0, map[], map[], map[]), acts, w)
    ensures w.limit == 2 && w.used == 0 && w.threads == map[] && 3 !in w.holds && Total(w) == RANGE
  {
    var w0 := World(2, 0, 0, map[], map[], map[]);
    var a, w3 := ThreeGranted();
    var a3, w4 := Overrunning(w3, 0);
    var a4, w5 := Overrunning(w4, 1);
    TraceConcat(w0, a, w3, a3, w4);
    TraceConcat(w0, a + a3, w4, a4, w5);
    acts, w := a + a3 + a4, w5;
    TwiceMax();
    TwiceMaxAndTwo(w);
  }

  lemma TwiceMax()
    ensures Wrap(Wrap(2 + MAX) + MAX) == 0
  {
    WrapAdd(2 + MAX, MAX);
    assert (RANGE - MIN) % RANGE == -MIN;
  }

  lemma TwiceMaxAndTwo(w: World)
    requires w.holds.Keys == {0, 1, 2} && w.holds[2].reserved == 2 && w.applied == map[0 := MAX, 1 := MAX]
    ensures Total(w) == RANGE
  {
    var none: map<Rid, int> := map[];
    var one := none[0 := MAX];
    var two := one[1 := MAX];
    SumInsert(none, 0, MAX);
    SumInsert(one, 1, MAX);
    SumInsert(two, 2, 2);
    assert Weights(w) == two[2 := 2];
  }

  /** What the missing guard of Commit costs: a run of a new ledger whose total
      leaves the int64 range, and which then grants a reservation under a limit
      its total has long passed. */
  lemma OutOfRangeReachable()
    ensures exists acts: seq<Action>, w': World ::
              var w := World(2, 0, 0, map[], map[], map[]);
              Inv(w) && Trace(w, acts, w') && !TotalsFit(w, acts) && !AllInRange(w, acts)
  {
    var w := World(2, 0, 0, map[], map[], map[]);
    FreshLedger(2);
    var acts, mid := WrappedAround();
    AdmitMeans(2, 0, 0);
    var more, w' := Granted(mid, 3, 0);
    TraceConcat(w, acts, mid, more, w');
    OutOfRangeGrant(mid, more, w');
    assert Inv(w) && Trace(w, acts + more, w') && !TotalsFit(w, acts + more) && !AllInRange(w, acts + more);
  }

  lemma OutOfRangeGrant(w: World, acts: seq<Action>, w': World)
    requires w.limit >= 0 && w.threads == map[] && 3 !in w.holds && !Fits(Total(w)) && Admit(w.limit, w.used, 0)
    requires acts == [StartReserve(0, 0), Load(0), Swap(0, 3)] && Trace(w, acts, w')
    ensures !TotalsFit(w, acts) && !AllInRange(w, acts)
  {
    var started := Do(w, StartReserve(0, 0));
    var loaded := Do(started, Load(0));
    assert acts[1..] == [Load(0), Swap(0, 3)] && acts[1..][1..] == [Swap(0, 3)];
    WeightsKept(w, acts[0], started);
    WeightsKept(started, Load(0), loaded);
    assert !InRange(loaded, Swap(0, 3));
    assert !AllInRange(loaded, [Swap(0, 3)]);
    assert !AllInRange(started, [Load(0), Swap(0, 3)]);
  }
}
