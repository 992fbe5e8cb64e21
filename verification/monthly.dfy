/** The PostgreSQL monthly ledger: one budget row per scope holding a running
    used_micros, and one row per reservation. Transactions run statement by
    statement, interleaved, under row locks kept to the end of the transaction. */
module Monthly {
  import opened Costs
  import opened Int64
  import opened Sums
  import opened Budgets
  import opened Transactions
  import Leases

  type Id = nat
  type Tid = nat

  datatype Row = Row(amount: int, expires: int)

  /** One scope: its limit (negative means unlimited), the denormalised total, its reservation rows. */
  datatype Scope = Scope(limit: int, used: int, rows: map<Id, Row>)

  // ---- what each transaction does when nothing else runs ---------------------

  function Amounts(rows: map<Id, Row>): map<Id, int> {
    map i | i in rows :: rows[i].amount
  }

  function Expired(rows: map<Id, Row>, now: int): set<Id> {
    set i | i in rows && rows[i].expires <= now
  }

  /** The other rows, and what they hold. */
  function Unexpired(rows: map<Id, Row>, now: int): map<Id, Row> {
    map i | i in rows && now < rows[i].expires :: rows[i]
  }

  ghost function LiveHeld(rows: map<Id, Row>, now: int): int {
    Sum(Amounts(Unexpired(rows, now)))
  }

  lemma UnexpiredRest(rows: map<Id, Row>, now: int)
    ensures Unexpired(rows, now) == rows - Expired(rows, now)
    ensures Amounts(Unexpired(rows, now)) == Amounts(rows) - Expired(rows, now)
  {
  }

  datatype Job =
    | Reserving(id: Id, estimate: int, now: int, expires: int)
    | Charging(id: Id, actual: int)
    | Releasing(id: Id)

  /** What the expired rows hold. */
  ghost function Reclaimable(s: Scope, now: int): int {
    Sum(Restrict(Amounts(s.rows), Expired(s.rows, now)))
  }

  /** The counter less what was reclaimed, if anything was, in Go's wrapping arithmetic. */
  function Left(used: int, reclaimed: int): int {
    if reclaimed > 0 then Wrap(used - reclaimed) else used
  }

  /** The counter as Reserve tests it, after reclaiming. */
  ghost function Tested(s: Scope, now: int): int {
    Left(s.used, Reclaimable(s, now))
  }

  predicate Exceeds(limit: int, used: int, estimate: int) {
    limit >= 0 && used > limit - estimate
  }

  ghost function Serial(s: Scope, job: Job): Scope {
    match job
    case Reserving(id, estimate, now, expires) =>
      var live := s.rows - Expired(s.rows, now);
      if Exceeds(s.limit, Tested(s, now), estimate) then s.(used := Tested(s, now), rows := live)
      else s.(used := Wrap(Tested(s, now) + estimate), rows := live[id := Row(estimate, expires)])
    case Charging(id, actual) =>
      if id in s.rows then s.(used := s.used + (actual - s.rows[id].amount), rows := s.rows - {id}) else s
    case Releasing(id) =>
      if id in s.rows then s.(used := s.used - s.rows[id].amount, rows := s.rows - {id}) else s
  }

  // ---- the interleaved system -----------------------------------------------

  /** A transaction in progress. From Locked on, it owns the budget row. */
  datatype Tx =
    | Locked(job: Job, used: int, limit: int)                                    // SELECT ... FOR UPDATE done
    // inside the DELETE of expired rows
    | Reclaiming(job: Job, used: int, limit: int, todo: set<Id>, got: map<Id, int>)
    // its reservation row deleted, budget row not yet locked
    | Deleted(job: Job, held: int)
    | Written(job: Job, used: int, drop: set<Id>, add: map<Id, Row>)             // all statements done, COMMIT pending

  /** Committed data, who owns which row lock, and the transactions in progress. */
  datatype World = World(db: Scope, budgetOwner: set<Tid>, rowOwner: map<Id, Tid>, txs: map<Tid, Tx>)

  datatype Action =
    | BeginReserve(t: Tid, job: Job)
    | StartDelete(t: Tid)
    | ReclaimRow(t: Tid, row: Id)
    | FinishReserve(t: Tid)
    | BeginSettle(t: Tid, job: Job)
    | UpdateBudget(t: Tid)
    | CommitTx(t: Tid)
    | Abort(t: Tid)                  // error, disconnect, or chosen as a deadlock victim
    | ChangeLimit(limit: int)

  predicate Owns(tx: Tx) {
    !tx.Deleted?
  }

  /** SET used_micros = used_micros + delta, on the latest committed value; out of range is an SQL error. */
  function Updated(w: World, t: Tid): int
    requires t in w.txs && w.txs[t].Deleted?
  {
    w.db.used + (if w.txs[t].job.Charging? then w.txs[t].job.actual else 0) - w.txs[t].held
  }

  ghost predicate Can(w: World, a: Action) {
    match a
    case BeginReserve(t, job) =>
      t !in w.txs && w.budgetOwner == {} && job.Reserving? && job.id !in w.db.rows && ValidEstimate(job.estimate)
    case StartDelete(t) => t in w.txs && w.txs[t].Locked?
    case ReclaimRow(t, row) =>
      t in w.txs && w.txs[t].Reclaiming? && row in w.txs[t].todo && row !in w.rowOwner
    case FinishReserve(t) =>
      // the SUM is scanned into an int64
      t in w.txs && w.txs[t].Reclaiming? && w.txs[t].todo == {} && Fits(Sum(w.txs[t].got))
    case BeginSettle(t, job) =>
      t !in w.txs && !job.Reserving? && (job.Charging? ==> job.actual >= 0)
      && job.id in w.db.rows && job.id !in w.rowOwner
    case UpdateBudget(t) => t in w.txs && w.txs[t].Deleted? && w.budgetOwner == {} && Fits(Updated(w, t))
    case CommitTx(t) => t in w.txs && w.txs[t].Written?
    case Abort(t) => t in w.txs
    case ChangeLimit(limit) => w.budgetOwner == {} && Fits(limit)
  }

  function Unlock(w: World, t: Tid): World {
    w.(budgetOwner := w.budgetOwner - {t}, rowOwner := map i | i in w.rowOwner && w.rowOwner[i] != t :: w.rowOwner[i],
       txs := w.txs - {t})
  }

  ghost function Do(w: World, a: Action): World
    requires Can(w, a)
  {
    match a
    case BeginReserve(t, job) =>
      w.(budgetOwner := {t}, txs := w.txs[t := Locked(job, w.db.used, w.db.limit)])
    case StartDelete(t) =>
      var tx := w.txs[t];
      w.(txs := w.txs[t := Reclaiming(tx.job, tx.used, tx.limit,
                                      if tx.job.Reserving? then Expired(w.db.rows, tx.job.now) else {}, map[])])
    case ReclaimRow(t, row) =>
      var tx := w.txs[t];
      if row in w.db.rows then
        w.(rowOwner := w.rowOwner[row := t],
           txs := w.txs[t := tx.(todo := tx.todo - {row}, got := tx.got[row := w.db.rows[row].amount])])
      else w.(txs := w.txs[t := tx.(todo := tx.todo - {row})])
    case FinishReserve(t) =>
      var tx := w.txs[t];
      w.(txs := w.txs[t := AfterReclaim(tx)])
    case BeginSettle(t, job) =>
      w.(rowOwner := w.rowOwner[job.id := t], txs := w.txs[t := Deleted(job, w.db.rows[job.id].amount)])
    case UpdateBudget(t) =>
      var tx := w.txs[t];
      w.(budgetOwner := {t},
         txs := w.txs[t := Written(tx.job, Updated(w, t), {tx.job.id}, map[])])
    case CommitTx(t) =>
      var tx := w.txs[t];
      Unlock(w, t).(db := w.db.(used := tx.used, rows := (w.db.rows - tx.drop) + tx.add))
    case Abort(t) => Unlock(w, t)
    case ChangeLimit(limit) => w.(db := w.db.(limit := limit))
  }

  /** Reserve's decision: what it writes once the expired rows are deleted. */
  ghost function AfterReclaim(tx: Tx): Tx
    requires tx.Reclaiming?
  {
    var left := Left(tx.used, Sum(tx.got));
    if !tx.job.Reserving? || Exceeds(tx.limit, left, tx.job.estimate) then Written(tx.job, left, tx.got.Keys, map[])
    else Written(tx.job, Wrap(left + tx.job.estimate),
                 tx.got.Keys, map[tx.job.id := Row(tx.job.estimate, tx.job.expires)])
  }

  // ---- what holds between any two statements -----------------------------------

  /** The effect a finished transaction will have if it commits now. */
  function Committed(db: Scope, tx: Tx): Scope
    requires tx.Written?
  {
    db.(used := tx.used, rows := (db.rows - tx.drop) + tx.add)
  }

  ghost predicate Locks(w: World, t: Tid, rows: set<Id>) {
    forall i :: i in rows ==> i in w.rowOwner && w.rowOwner[i] == t
  }

  /** What a transaction knows is still true of the committed data. */
  ghost predicate TxOk(w: World, t: Tid, tx: Tx) {
    match tx
    case Locked(job, used, limit) =>
      job.Reserving? && job.id !in w.db.rows && used == w.db.used && limit == w.db.limit && ValidEstimate(job.estimate)
    case Reclaiming(job, used, limit, todo, got) =>
      && job.Reserving? && job.id !in w.db.rows && used == w.db.used && limit == w.db.limit
      && ValidEstimate(job.estimate)
      && todo + got.Keys == Expired(w.db.rows, job.now) && todo !! got.Keys
      && got == Restrict(Amounts(w.db.rows), got.Keys) && Locks(w, t, got.Keys)
    case Deleted(job, held) =>
      !job.Reserving? && (job.Charging? ==> job.actual >= 0)
      && job.id in w.db.rows && held == w.db.rows[job.id].amount
      && job.id in w.rowOwner && w.rowOwner[job.id] == t
    case Written(job, used, drop, _) =>
      && (!job.Reserving? ==> Fits(used))
      && Locks(w, t, drop) && Committed(w.db, tx) == Serial(w.db, job)
      && (job.Reserving? ==> ValidEstimate(job.estimate) && job.id !in w.db.rows)
      && (!job.Reserving? ==> job.id in w.db.rows) && (job.Charging? ==> job.actual >= 0)
  }

  /** The row locks a transaction has taken. */
  function Holding(tx: Tx): set<Id> {
    match tx
    case Locked(_, _, _) => {}
    case Reclaiming(_, _, _, _, got) => got.Keys
    case Deleted(job, _) => {job.id}
    case Written(_, _, drop, _) => drop
  }

  ghost predicate TxsOk(w: World) {
    forall t :: t in w.txs ==> TxOk(w, t, w.txs[t])
  }

  ghost predicate BudgetLockOk(w: World) {
    && (forall t :: t in w.txs && Owns(w.txs[t]) <==> t in w.budgetOwner)
    && (forall t, u :: t in w.budgetOwner && u in w.budgetOwner ==> t == u)
  }

  ghost predicate RowLocksOk(w: World) {
    forall i :: i in w.rowOwner ==> w.rowOwner[i] in w.txs && i in Holding(w.txs[w.rowOwner[i]])
  }

  ghost predicate Inv(w: World) {
    TxsOk(w) && BudgetLockOk(w) && RowLocksOk(w) && Fits(w.db.limit)
  }

  lemma FinishedIsSerial(w: World, t: Tid, tx: Tx, tx': Tx)
    requires TxOk(w, t, tx) && tx.Reclaiming? && tx.todo == {} && tx' == AfterReclaim(tx)
    ensures TxOk(w, t, tx')
  {
    var gone := Expired(w.db.rows, tx.job.now);
    assert tx.got.Keys == gone && tx.got == Restrict(Amounts(w.db.rows), gone);
    assert Tested(w.db, tx.job.now) == Left(tx.used, Sum(tx.got));
    var live := w.db.rows - gone;
    assert live + tx'.add == if tx'.add == map[] then live else live[tx.job.id := Row(tx.job.estimate, tx.job.expires)];
  }

  lemma UpdatedIsSerial(w: World, t: Tid, tx: Tx, tx': Tx)
    requires TxOk(w, t, tx) && tx.Deleted?
    requires tx' == Written(tx.job, w.db.used + (if tx.job.Charging? then tx.job.actual else 0) - tx.held,
                           {tx.job.id}, map[])
    requires Fits(tx'.used)
    ensures TxOk(w, t, tx')
  {
    assert (w.db.rows - {tx.job.id}) + map[] == w.db.rows - {tx.job.id};
  }

  lemma OwnStepKept(w: World, a: Action, w': World, t: Tid)
    requires Inv(w) && Can(w, a) && w' == Do(w, a) && t in w'.txs && !a.ChangeLimit? && t == a.t
    ensures TxOk(w', t, w'.txs[t])
  {
    if a.FinishReserve? {
      assert TxOk(w, t, w.txs[t]);
      FinishedIsSerial(w, t, w.txs[t], w'.txs[t]);
    } else if a.UpdateBudget? {
      assert TxOk(w, t, w.txs[t]);
      UpdatedIsSerial(w, t, w.txs[t], w'.txs[t]);
    } else if a.ReclaimRow? {
      assert TxOk(w, t, w.txs[t]);
      ReclaimedOne(w, w', t, a.row);
    }
  }

  lemma ReclaimedOne(w: World, w': World, t: Tid, row: Id)
    requires Can(w, ReclaimRow(t, row)) && w' == Do(w, ReclaimRow(t, row)) && TxOk(w, t, w.txs[t])
    ensures TxOk(w', t, w'.txs[t])
  {
  }

  /** A step of another transaction: its locks keep it away from what `t` relies on. */
  lemma OtherStepKept(w: World, a: Action, w': World, t: Tid)
    requires Inv(w) && Can(w, a) && w' == Do(w, a) && t in w'.txs && (a.ChangeLimit? || t != a.t)
    ensures t in w.txs && w'.txs[t] == w.txs[t] && TxOk(w', t, w'.txs[t])
  {
    assert TxOk(w, t, w.txs[t]);
    if a.CommitTx? {
      assert TxOk(w, a.t, w.txs[a.t]);
      assert Owns(w.txs[a.t]) && a.t in w.budgetOwner;
    }
  }

  lemma BudgetLockKept(w: World, a: Action, w': World)
    requires BudgetLockOk(w) && Can(w, a) && w' == Do(w, a)
    ensures BudgetLockOk(w')
  {
  }

  lemma RowLocksKept(w: World, a: Action, w': World)
    requires TxsOk(w) && RowLocksOk(w) && Can(w, a) && w' == Do(w, a)
    ensures RowLocksOk(w')
  {
    if !a.ChangeLimit? && a.t in w.txs {
      assert TxOk(w, a.t, w.txs[a.t]);
    }
  }

  lemma InvKept(w: World, a: Action, w': World)
    requires Inv(w) && Can(w, a) && w' == Do(w, a)
    ensures Inv(w')
  {
    forall t | t in w'.txs ensures TxOk(w', t, w'.txs[t]) {
      if !a.ChangeLimit? && t == a.t {
        OwnStepKept(w, a, w', t);
      } else {
        OtherStepKept(w, a, w', t);
      }
    }
    RowLocksKept(w, a, w');
    BudgetLockKept(w, a, w');
  }

  // ---- serialisability and conservation ------------------------------------------

  /** Concurrency is invisible: the committed data change only when a
      transaction commits, and then as if that transaction had run alone. */
  lemma CommitsAreSerial(w: World, a: Action)
    requires Inv(w) && Can(w, a)
    ensures a.CommitTx? ==> Do(w, a).db == Serial(w.db, w.txs[a.t].job)
    ensures a.ChangeLimit? ==> Do(w, a).db == w.db.(limit := a.limit)
    ensures !a.CommitTx? && !a.ChangeLimit? ==> Do(w, a).db == w.db
  {
    if a.CommitTx? {
      assert TxOk(w, a.t, w.txs[a.t]);
    }
  }

  ghost function Abs(s: Scope, spent: int): Budget<Id> {
    Budget(s.limit, spent, Amounts(s.rows))
  }

  ghost predicate RowsOk(rows: map<Id, Row>) {
    forall i :: i in rows ==> rows[i].amount >= 0
  }

  /** used_micros is committed usage plus the reservation rows. */
  ghost predicate Balanced(s: Scope, spent: int) {
    spent >= 0 && RowsOk(s.rows) && s.used == spent + Sum(Amounts(s.rows)) <= MAX && Fits(s.limit)
  }

  /** Only an unlimited scope can overflow, and only in Reserve's own addition. */
  ghost predicate Overflows(s: Scope, job: Job) {
    job.Reserving? && s.limit < 0 && Tested(s, job.now) + job.estimate > MAX
  }

  function SpendOf(s: Scope, job: Job): int {
    if job.Charging? && job.id in s.rows then job.actual else 0
  }

  ghost predicate JobOk(s: Scope, job: Job) {
    match job
    case Reserving(id, estimate, _, _) => id !in s.rows && ValidEstimate(estimate)
    case Charging(_, actual) => actual >= 0 && Fits(Serial(s, job).used)
    case Releasing(_) => Fits(Serial(s, job).used)
  }

  ghost function StepsOf(s: Scope, job: Job): seq<Step<Id>> {
    match job
    case Reserving(id, estimate, now, _) =>
      if Exceeds(s.limit, Tested(s, now), estimate) then [Expire(Expired(s.rows, now))]
      else [Expire(Expired(s.rows, now)), Reserve(id, estimate)]
    case Charging(id, actual) => if id in s.rows then [Step.Commit(id, actual)] else []
    case Releasing(id) => if id in s.rows then [Step.Release(id)] else []
  }

  /** Abandoned leases never hold budget: the counter Reserve tests is committed
      usage plus unexpired rows only, and denial or grant, the expired rows are gone. */
  lemma TestedIsLive(s: Scope, spent: int, now: int)
    requires Balanced(s, spent)
    ensures 0 <= Tested(s, now) == spent + LiveHeld(s.rows, now) <= s.used
  {
    var gone := Expired(s.rows, now);
    SumMinus(Amounts(s.rows), gone);
    UnexpiredRest(s.rows, now);
    SumNonNegative(Amounts(Unexpired(s.rows, now)));
    SumNonNegative(Restrict(Amounts(s.rows), gone));
    assert Fits(s.used - Reclaimable(s, now));
  }

  lemma ReservingRefines(s: Scope, spent: int, job: Job, s': Scope)
    requires Balanced(s, spent) && JobOk(s, job) && !Overflows(s, job) && job.Reserving? && s' == Serial(s, job)
    ensures Balanced(s', spent) && Path(Abs(s, spent), StepsOf(s, job), Abs(s', spent), false)
  {
    var gone := Expired(s.rows, job.now);
    var live := Scope(s.limit, Tested(s, job.now), s.rows - gone);
    TestedIsLive(s, spent, job.now);
    UnexpiredRest(s.rows, job.now);
    OneStep(Abs(s, spent), Expire(gone), false);
    if !Exceeds(s.limit, live.used, job.estimate) {
      SumInsert(Amounts(live.rows), job.id, job.estimate);
      assert Amounts(s'.rows) == Amounts(live.rows)[job.id := job.estimate];
      OneStep(Abs(live, spent), Reserve(job.id, job.estimate), false);
      PathConcat(Abs(s, spent), [Expire(gone)], Abs(live, spent), [Reserve(job.id, job.estimate)],
                 Abs(s', spent), false);
      assert [Expire(gone)] + [Reserve(job.id, job.estimate)] == StepsOf(s, job);
    }
  }

  lemma SerialKeeps(s: Scope, spent: int, job: Job, s': Scope)
    requires Balanced(s, spent) && JobOk(s, job) && !Overflows(s, job) && s' == Serial(s, job)
    ensures Balanced(s', spent + SpendOf(s, job))
    ensures Path(Abs(s, spent), StepsOf(s, job), Abs(s', spent + SpendOf(s, job)), false)
  {
    if job.Reserving? {
      ReservingRefines(s, spent, job, s');
    } else if job.id in s.rows {
      SumRemove(Amounts(s.rows), job.id);
      assert Amounts(s'.rows) == Amounts(s.rows) - {job.id};
      SumNonNegative(Amounts(s'.rows));
      OneStep(Abs(s, spent), StepsOf(s, job)[0], false);
    }
  }

  /** The hypothesis is exact: a reservation that overflows breaks the total, and nothing else can. */
  lemma BalancedIffNoOverflow(s: Scope, spent: int, job: Job)
    requires Balanced(s, spent) && JobOk(s, job)
    ensures Balanced(Serial(s, job), spent + SpendOf(s, job)) <==> !Overflows(s, job)
  {
    if !Overflows(s, job) {
      SerialKeeps(s, spent, job, Serial(s, job));
    } else {
      var live := Unexpired(s.rows, job.now);
      TestedIsLive(s, spent, job.now);
      UnexpiredRest(s.rows, job.now);
      SumInsert(Amounts(live), job.id, job.estimate);
      assert Amounts(Serial(s, job).rows) == Amounts(live)[job.id := job.estimate];
    }
  }

  /** One micro-unit is enough: a full unlimited scope grants it and its counter goes negative. */
  lemma OverflowLosesTotal(s: Scope, job: Job, s': Scope)
    requires s == Scope(-1, MAX, map[]) && job.Reserving? && job.estimate == 1 && s' == Serial(s, job)
    ensures Balanced(s, MAX) && Overflows(s, job) && s'.used == MIN && !Balanced(s', MAX)
  {
    FullScope(s, job);
    WrapsAtTheTop();
    BalancedIsPositive(s', MAX);
  }

  lemma BalancedIsPositive(s: Scope, spent: int)
    ensures Balanced(s, spent) ==> s.used >= 0
  {
    if RowsOk(s.rows) {
      SumNonNegative(Amounts(s.rows));
    }
  }

  lemma FullScope(s: Scope, job: Job)
    requires s.used == MAX && s.rows == map[] && Fits(s.limit) && job.Reserving?
    ensures Balanced(s, MAX) && Tested(s, job.now) == MAX
  {
    assert Amounts(s.rows) == map[] && Restrict(Amounts(s.rows), Expired(s.rows, job.now)) == map[];
  }

  lemma WrapsAtTheTop()
    ensures Wrap(MAX + 1) == MIN
  {
    assert (MAX + 1 - MIN) % RANGE == 0;
  }

  ghost predicate Trace(w: World, acts: seq<Action>, w': World)
    decreases |acts|
  {
    if acts == [] then w == w' else Can(w, acts[0]) && Trace(Do(w, acts[0]), acts[1..], w')
  }

  /** What the transactions committed during a run charged. */
  ghost function Charged(w: World, acts: seq<Action>): int
    decreases |acts|
  {
    if acts == [] || !Can(w, acts[0]) then 0
    else SpendAt(w, acts[0]) + Charged(Do(w, acts[0]), acts[1..])
  }

  function SpendAt(w: World, a: Action): int
    requires Can(w, a)
  {
    if a.CommitTx? then SpendOf(w.db, w.txs[a.t].job) else 0
  }

  /** Only commits and limit changes are visible. */
  ghost function StepsAt(w: World, a: Action): seq<Step<Id>>
    requires Can(w, a)
  {
    if a.CommitTx? then StepsOf(w.db, w.txs[a.t].job) else if a.ChangeLimit? then [SetLimit(a.limit)] else []
  }

  ghost function StepsIn(w: World, acts: seq<Action>): seq<Step<Id>>
    decreases |acts|
  {
    if acts == [] || !Can(w, acts[0]) then [] else StepsAt(w, acts[0]) + StepsIn(Do(w, acts[0]), acts[1..])
  }

  ghost predicate NoOverflow(w: World, acts: seq<Action>)
    decreases |acts|
  {
    acts != [] && Can(w, acts[0]) ==>
      (acts[0].CommitTx? ==> !Overflows(w.db, w.txs[acts[0].t].job)) && NoOverflow(Do(w, acts[0]), acts[1..])
  }

  /** In every reachable state, whatever is interleaved and aborted. */
  lemma {:induction false} InvThroughout(w: World, acts: seq<Action>, w': World)
    requires Inv(w) && Trace(w, acts, w')
    ensures Inv(w')
    decreases |acts|
  {
    if acts == [] {
    } else {
      InvKept(w, acts[0], Do(w, acts[0]));
      InvThroughout(Do(w, acts[0]), acts[1..], w');
    }
  }

  /** used_micros is right in every state of a run. */
  ghost predicate AlwaysBalanced(w: World, acts: seq<Action>, spent: int)
    decreases |acts|
  {
    Balanced(w.db, spent)
    && (acts != [] && Can(w, acts[0]) ==> AlwaysBalanced(Do(w, acts[0]), acts[1..], spent + SpendAt(w, acts[0])))
  }

  /** No lost update: over any interleaving of any transactions, with any of
      them aborted at any point, used_micros is at all times committed usage plus
      the reservation rows, although Reserve writes absolute values and
      settlements relative ones in the opposite lock order. The only thing that
      can break it is Reserve's unguarded addition in an unlimited scope. */
  lemma {:induction false} NoLostUpdate(w: World, acts: seq<Action>, w': World, spent: int)
    requires Inv(w) && Balanced(w.db, spent) && Trace(w, acts, w')
    ensures AlwaysBalanced(w, acts, spent) <==> NoOverflow(w, acts)
    ensures NoOverflow(w, acts) ==> Inv(w') && Balanced(w'.db, spent + Charged(w, acts))
    decreases |acts|
  {
    if acts == [] {
    } else {
      var next, spent', fits := FirstBalance(w, acts, w', spent);
      if fits {
        NoLostUpdate(next, acts[1..], w', spent');
      }
    }
  }

  /** A run after its first action, and whether that action left the counter right. */
  lemma {:induction false} FirstBalance(w: World, acts: seq<Action>, w': World, spent: int)
    returns (next: World, spent': int, fits: bool)
    requires Inv(w) && Balanced(w.db, spent) && Trace(w, acts, w') && acts != []
    ensures Inv(next) && Trace(next, acts[1..], w') && spent + Charged(w, acts) == spent' + Charged(next, acts[1..])
    ensures fits <==> Balanced(next.db, spent')
    ensures AlwaysBalanced(w, acts, spent) <==> AlwaysBalanced(next, acts[1..], spent')
    ensures NoOverflow(w, acts) <==> fits && NoOverflow(next, acts[1..])
    ensures !fits ==> !AlwaysBalanced(next, acts[1..], spent')
  {
    next, spent' := Do(w, acts[0]), spent + SpendAt(w, acts[0]);
    InvKept(w, acts[0], next);
    BalanceMoves(w, acts[0], next, spent, spent');
    fits := !acts[0].CommitTx? || !Overflows(w.db, w.txs[acts[0].t].job);
  }

  lemma BalanceMoves(w: World, a: Action, next: World, spent: int, spent': int)
    requires Inv(w) && Can(w, a) && next == Do(w, a) && Balanced(w.db, spent) && spent' == spent + SpendAt(w, a)
    ensures Balanced(next.db, spent') <==> (a.CommitTx? ==> !Overflows(w.db, w.txs[a.t].job))
  {
    CommitsAreSerial(w, a);
    if a.CommitTx? {
      WrittenIsOk(w, a.t);
      BalancedIffNoOverflow(w.db, spent, w.txs[a.t].job);
    }
  }

  // What remains true whatever overflows: the counter is right modulo 2^64.

  ghost predicate Congruent(s: Scope, spent: int) {
    spent >= 0 && RowsOk(s.rows) && s.used == Wrap(spent + Sum(Amounts(s.rows))) && Fits(s.limit)
  }

  ghost function LiveTotal(s: Scope, spent: int, now: int): int {
    spent + LiveHeld(s.rows, now)
  }

  /** A grant under a limit finds a total that fits in an int64. */
  ghost predicate InRange(s: Scope, spent: int, job: Job) {
    job.Reserving? && s.limit >= 0 && !Exceeds(s.limit, Tested(s, job.now), job.estimate) ==>
      Fits(LiveTotal(s, spent, job.now))
  }

  lemma TestedIsCongruent(s: Scope, spent: int, now: int)
    requires Congruent(s, spent)
    ensures Tested(s, now) == Wrap(LiveTotal(s, spent, now)) && 0 <= LiveTotal(s, spent, now)
  {
    var gone := Expired(s.rows, now);
    SumMinus(Amounts(s.rows), gone);
    UnexpiredRest(s.rows, now);
    SumNonNegative(Amounts(Unexpired(s.rows, now)));
    SumNonNegative(Restrict(Amounts(s.rows), gone));
    WrapAdd(spent + Sum(Amounts(s.rows)), -Reclaimable(s, now));
  }

  lemma SerialKeepsCongruent(s: Scope, spent: int, job: Job, s': Scope)
    requires Congruent(s, spent) && JobOk(s, job) && s' == Serial(s, job)
    ensures Congruent(s', spent + SpendOf(s, job))
  {
    if job.Reserving? {
      ReservingKeepsCongruent(s, spent, job, s');
    } else if job.id in s.rows {
      SettlingKeepsCongruent(s, spent, job, s');
    }
  }

  lemma ReservingKeepsCongruent(s: Scope, spent: int, job: Job, s': Scope)
    requires Congruent(s, spent) && JobOk(s, job) && job.Reserving? && s' == Serial(s, job)
    ensures Congruent(s', spent)
  {
    var live := s.(used := Tested(s, job.now), rows := s.rows - Expired(s.rows, job.now));
    TestedIsCongruent(s, spent, job.now);
    UnexpiredRest(s.rows, job.now);
    if !Exceeds(s.limit, live.used, job.estimate) {
      GrantKeepsCongruent(live, spent, job.id, job.estimate, job.expires, s');
    }
  }

  lemma GrantKeepsCongruent(s: Scope, spent: int, id: Id, estimate: int, expires: int, s': Scope)
    requires Congruent(s, spent) && id !in s.rows && ValidEstimate(estimate)
    requires s' == s.(used := Wrap(s.used + estimate), rows := s.rows[id := Row(estimate, expires)])
    ensures Congruent(s', spent)
  {
    WrapAdd(spent + Sum(Amounts(s.rows)), estimate);
    SumInsert(Amounts(s.rows), id, estimate);
    assert Amounts(s'.rows) == Amounts(s.rows)[id := estimate];
  }

  lemma SettlingKeepsCongruent(s: Scope, spent: int, job: Job, s': Scope)
    requires Congruent(s, spent) && JobOk(s, job) && !job.Reserving? && job.id in s.rows && s' == Serial(s, job)
    ensures Congruent(s', spent + SpendOf(s, job))
  {
    var delta := SpendOf(s, job) - s.rows[job.id].amount;
    SumRemove(Amounts(s.rows), job.id);
    assert Amounts(s'.rows) == Amounts(s.rows) - {job.id};
    assert s'.used == s.used + delta;
    WrapAdd(spent + Sum(Amounts(s.rows)), delta);
  }

  lemma SerialMoves(s: Scope, spent: int, job: Job, s': Scope)
    requires s' == Serial(s, job)
    ensures Abs(s', spent + SpendOf(s, job)) == Result(Abs(s, spent), StepsOf(s, job))
  {
    if job.Reserving? {
      var gone := Expired(s.rows, job.now);
      assert Amounts(s.rows - gone) == Amounts(s.rows) - gone;
      ResultOfTwo(Abs(s, spent), Expire(gone), Reserve(job.id, job.estimate));
      if !Exceeds(s.limit, Tested(s, job.now), job.estimate) {
        assert Amounts(s'.rows) == Amounts(s.rows - gone)[job.id := job.estimate];
      }
    } else if job.id in s.rows {
      var step := if job.Charging? then Step.Commit(job.id, job.actual) else Step.Release(job.id);
      assert Amounts(s'.rows) == Amounts(s.rows) - {job.id};
      ResultOfTwo(Abs(s, spent), step, step);
    }
  }

  /** A transaction is steps of the budget machine exactly if it is not a grant
      under a limit on a total that has left the int64 range. */
  lemma SerialSteps(s: Scope, spent: int, job: Job, s': Scope)
    requires Congruent(s, spent) && JobOk(s, job) && s' == Serial(s, job)
    ensures Path(Abs(s, spent), StepsOf(s, job), Abs(s', spent + SpendOf(s, job)), false) <==> InRange(s, spent, job)
  {
    SerialMoves(s, spent, job, s');
    if job.Reserving? {
      ReservingSteps(s, spent, job, Abs(s', spent));
    } else if job.id in s.rows {
      OneStep(Abs(s, spent), StepsOf(s, job)[0], false);
    }
  }

  lemma ReservingSteps(s: Scope, spent: int, job: Job, b': Budget<Id>)
    requires Congruent(s, spent) && JobOk(s, job) && job.Reserving? && b' == Result(Abs(s, spent), StepsOf(s, job))
    ensures Path(Abs(s, spent), StepsOf(s, job), b', false) <==> InRange(s, spent, job)
  {
    var gone := Expired(s.rows, job.now);
    var expire, reserve := Step<Id>.Expire(gone), Reserve(job.id, job.estimate);
    var live := Next(Abs(s, spent), expire);
    TestedIsCongruent(s, spent, job.now);
    UnexpiredRest(s.rows, job.now);
    assert live.Used() == LiveTotal(s, spent, job.now);
    ResultOfTwo(Abs(s, spent), expire, reserve);
    OneStep(Abs(s, spent), expire, false);
    if !Exceeds(s.limit, Tested(s, job.now), job.estimate) {
      PathSplits(Abs(s, spent), [expire], [reserve], b', false);
      assert StepsOf(s, job) == [expire] + [reserve];
      OneStepIff(live, reserve);
    }
  }

  lemma OneStepIff(b: Budget<Id>, step: Step<Id>)
    ensures Path(b, [step], Next(b, step), false) <==> Enabled(b, step, false)
  {
    assert [step][1..] == [];
  }

  /** From a right counter every transaction refines the budget, overflow or
      not, and leaves a right counter exactly if it does not overflow. */
  lemma SerialRefines(s: Scope, spent: int, job: Job, s': Scope)
    requires Balanced(s, spent) && JobOk(s, job) && s' == Serial(s, job)
    ensures Path(Abs(s, spent), StepsOf(s, job), Abs(s', spent + SpendOf(s, job)), false)
    ensures Balanced(s', spent + SpendOf(s, job)) <==> !Overflows(s, job)
  {
    BalancedIsPositive(s, spent);
    SerialSteps(s, spent, job, s');
    BalancedIffNoOverflow(s, spent, job);
    if job.Reserving? {
      TestedIsLive(s, spent, job.now);
    }
  }

  ghost predicate InRangeAt(w: World, a: Action, spent: int) {
    a.CommitTx? && a.t in w.txs ==> InRange(w.db, spent, w.txs[a.t].job)
  }

  ghost predicate AllInRange(w: World, acts: seq<Action>, spent: int)
    decreases |acts|
  {
    acts != [] && Can(w, acts[0]) ==>
      InRangeAt(w, acts[0], spent) && AllInRange(Do(w, acts[0]), acts[1..], spent + SpendAt(w, acts[0]))
  }

  lemma StepMoves(w: World, a: Action, next: World, spent: int, spent': int, first: seq<Step<Id>>)
    requires Inv(w) && Can(w, a) && next == Do(w, a) && Congruent(w.db, spent)
    requires spent' == spent + SpendAt(w, a) && first == StepsAt(w, a)
    ensures Congruent(next.db, spent') && Abs(next.db, spent') == Result(Abs(w.db, spent), first)
    ensures Path(Abs(w.db, spent), first, Abs(next.db, spent'), false) <==> InRangeAt(w, a, spent)
  {
    CommitsAreSerial(w, a);
    if a.CommitTx? {
      WrittenIsOk(w, a.t);
      CommittedMoves(w.db, spent, w.txs[a.t].job, next.db, spent', first);
    } else if a.ChangeLimit? {
      assert first[1..] == [];
      OneStep(Abs(w.db, spent), SetLimit(a.limit), false);
    }
  }

  lemma CommittedMoves(s: Scope, spent: int, job: Job, s': Scope, spent': int, first: seq<Step<Id>>)
    requires Congruent(s, spent) && JobOk(s, job) && s' == Serial(s, job)
    requires spent' == spent + SpendOf(s, job) && first == StepsOf(s, job)
    ensures Congruent(s', spent') && Abs(s', spent') == Result(Abs(s, spent), first)
    ensures Path(Abs(s, spent), first, Abs(s', spent'), false) <==> InRange(s, spent, job)
  {
    SerialKeepsCongruent(s, spent, job, s');
    SerialMoves(s, spent, job, s');
    SerialSteps(s, spent, job, s');
  }

  /** And the scope goes through a run of the budget machine, one transaction at
      a time, exactly if each grant under a limit finds a total that fits. */
  lemma {:induction false} TraceRefines(w: World, acts: seq<Action>, w': World, spent: int)
    requires Inv(w) && Congruent(w.db, spent) && Trace(w, acts, w')
    ensures Congruent(w'.db, spent + Charged(w, acts))
    ensures Path(Abs(w.db, spent), StepsIn(w, acts), Abs(w'.db, spent + Charged(w, acts)), false)
       <==> AllInRange(w, acts, spent)
    decreases |acts|
  {
    if acts == [] {
    } else {
      var next, spent', first, rest := FirstStep(w, acts, w', spent);
      TraceRefines(next, acts[1..], w', spent');
      PathSplits(Abs(w.db, spent), first, rest, Abs(w'.db, spent + Charged(w, acts)), false);
    }
  }

  /** A run after its first action, and what that action is for the budget. */
  lemma FirstStep(w: World, acts: seq<Action>, w': World, spent: int)
    returns (next: World, spent': int, first: seq<Step<Id>>, rest: seq<Step<Id>>)
    requires Inv(w) && Congruent(w.db, spent) && Trace(w, acts, w') && acts != []
    ensures Inv(next) && Congruent(next.db, spent') && Trace(next, acts[1..], w')
    ensures Abs(next.db, spent') == Result(Abs(w.db, spent), first)
    ensures AllInRange(w, acts, spent)
       <==> Path(Abs(w.db, spent), first, Abs(next.db, spent'), false) && AllInRange(next, acts[1..], spent')
    ensures spent + Charged(w, acts) == spent' + Charged(next, acts[1..])
    ensures rest == StepsIn(next, acts[1..]) && StepsIn(w, acts) == first + rest
  {
    next, spent', first := Do(w, acts[0]), spent + SpendAt(w, acts[0]), StepsAt(w, acts[0]);
    rest := StepsIn(next, acts[1..]);
    StepMoves(w, acts[0], next, spent, spent', first);
    InvKept(w, acts[0], next);
  }

  /** In particular where nothing overflows, or the limit never is one. */
  lemma {:induction false} NoOverflowInRange(w: World, acts: seq<Action>, w': World, spent: int)
    requires Inv(w) && Balanced(w.db, spent) && Trace(w, acts, w') && NoOverflow(w, acts)
    ensures AllInRange(w, acts, spent)
    decreases |acts|
  {
    if acts == [] {
    } else {
      var next, spent' := Do(w, acts[0]), spent + SpendAt(w, acts[0]);
      InvKept(w, acts[0], next);
      BalanceMoves(w, acts[0], next, spent, spent');
      if acts[0].CommitTx? && w.txs[acts[0].t].job.Reserving? {
        TestedIsLive(w.db, spent, w.txs[acts[0].t].job.now);
      }
      NoOverflowInRange(next, acts[1..], w', spent');
    }
  }

  predicate Unlimited(limit: int, acts: seq<Action>) {
    limit < 0 && forall i :: 0 <= i < |acts| && acts[i].ChangeLimit? ==> acts[i].limit < 0
  }

  lemma {:induction false} UnlimitedInRange(w: World, acts: seq<Action>, w': World, spent: int)
    requires Inv(w) && Trace(w, acts, w') && Unlimited(w.db.limit, acts)
    ensures AllInRange(w, acts, spent)
    decreases |acts|
  {
    if acts == [] {
    } else {
      var next := Do(w, acts[0]);
      InvKept(w, acts[0], next);
      CommitsAreSerial(w, acts[0]);
      UnlimitedInRange(next, acts[1..], w', spent + SpendAt(w, acts[0]));
    }
  }

  /** A scope that never has a limit refines the budget whatever overflows. */
  lemma {:induction false} UnlimitedRefines(w: World, acts: seq<Action>, w': World, spent: int)
    requires Inv(w) && Congruent(w.db, spent) && Trace(w, acts, w') && Unlimited(w.db.limit, acts)
    ensures Path(Abs(w.db, spent), StepsIn(w, acts), Abs(w'.db, spent + Charged(w, acts)), false)
  {
    UnlimitedInRange(w, acts, w', spent);
    TraceRefines(w, acts, w', spent);
  }

  lemma StepKeeps(w: World, a: Action, next: World, spent: int, spent': int, first: seq<Step<Id>>)
    requires Inv(w) && Can(w, a) && next == Do(w, a) && Balanced(w.db, spent)
    requires a.CommitTx? ==> !Overflows(w.db, w.txs[a.t].job)
    requires spent' == spent + SpendAt(w, a) && first == StepsAt(w, a)
    ensures Inv(next) && Balanced(next.db, spent') && Path(Abs(w.db, spent), first, Abs(next.db, spent'), false)
  {
    StepRefines(w, a, next, spent, spent', first);
    InvKept(w, a, next);
  }

  lemma WrittenIsOk(w: World, t: Tid)
    requires Inv(w) && t in w.txs && w.txs[t].Written?
    ensures JobOk(w.db, w.txs[t].job)
  {
    assert TxOk(w, t, w.txs[t]);
  }

  lemma StepRefines(w: World, a: Action, next: World, spent: int, spent': int, first: seq<Step<Id>>)
    requires Inv(w) && Can(w, a) && next == Do(w, a) && Balanced(w.db, spent)
    requires a.CommitTx? ==> !Overflows(w.db, w.txs[a.t].job)
    requires spent' == spent + SpendAt(w, a) && first == StepsAt(w, a)
    ensures Balanced(next.db, spent') && Path(Abs(w.db, spent), first, Abs(next.db, spent'), false)
  {
    CommitsAreSerial(w, a);
    if a.CommitTx? {
      WrittenIsOk(w, a.t);
      CommittedRefines(w.db, spent, w.txs[a.t].job, next.db, spent', first);
    } else if a.ChangeLimit? {
      LimitRefines(w.db, spent, a.limit, next.db);
    } else {
      NothingRefines(w.db, spent, next.db, spent', first);
    }
  }

  lemma CommittedRefines(s: Scope, spent: int, job: Job, s': Scope, spent': int, first: seq<Step<Id>>)
    requires Balanced(s, spent) && JobOk(s, job) && !Overflows(s, job) && s' == Serial(s, job)
    requires spent' == spent + SpendOf(s, job) && first == StepsOf(s, job)
    ensures Balanced(s', spent') && Path(Abs(s, spent), first, Abs(s', spent'), false)
  {
    SerialKeeps(s, spent, job, s');
  }

  lemma NothingRefines(s: Scope, spent: int, s': Scope, spent': int, first: seq<Step<Id>>)
    requires Balanced(s, spent) && s' == s && spent' == spent && first == []
    ensures Balanced(s', spent') && Path(Abs(s, spent), first, Abs(s', spent'), false)
  {
  }

  lemma LimitRefines(s: Scope, spent: int, limit: int, s': Scope)
    requires Balanced(s, spent) && Fits(limit) && s' == s.(limit := limit)
    ensures Balanced(s', spent) && Path(Abs(s, spent), [SetLimit(limit)], Abs(s', spent), false)
  {
    OneStep(Abs(s, spent), SetLimit(limit), false);
  }

  /** A limit rules overflow out. */
  lemma {:induction false} CappedNoOverflow(w: World, acts: seq<Action>, w': World)
    requires Trace(w, acts, w') && Capped(w.db.limit, StepsIn(w, acts)) && Inv(w)
    ensures NoOverflow(w, acts)
    decreases |acts|
  {
    if acts == [] {
    } else {
      var next, first, rest := Do(w, acts[0]), StepsAt(w, acts[0]), StepsIn(Do(w, acts[0]), acts[1..]);
      CommitsAreSerial(w, acts[0]);
      InvKept(w, acts[0], next);
      assert StepsIn(w, acts) == first + rest;
      assert Capped(next.db.limit, rest) by {
        forall i | 0 <= i < |rest| && rest[i].SetLimit? ensures rest[i].limit >= 0 {
          assert (first + rest)[|first| + i] == rest[i];
        }
        assert acts[0].ChangeLimit? ==> (first + rest)[0] == SetLimit(acts[0].limit);
      }
      CappedNoOverflow(next, acts[1..], w');
    }
  }

  /** Usage passes the highest limit in force by no more than commits overran
      their reservations, under any interleaving. */
  lemma {:induction false} UsageBound(w: World, acts: seq<Action>, w': World, spent: int)
    requires Inv(w) && Balanced(w.db, spent) && Trace(w, acts, w')
    requires Capped(w.db.limit, StepsIn(w, acts))
    ensures w'.db.used <= Max(w.db.used, Peak(w.db.limit, StepsIn(w, acts)))
                           + Overshoot(Abs(w.db, spent), StepsIn(w, acts))
  {
    CappedNoOverflow(w, acts, w');
    NoLostUpdate(w, acts, w', spent);
    NoOverflowInRange(w, acts, w', spent);
    BalancedIsPositive(w.db, spent);
    TraceRefines(w, acts, w', spent);
    OvershootBound(Abs(w.db, spent), StepsIn(w, acts), Abs(w'.db, spent + Charged(w, acts)), false);
  }

  ghost predicate AlwaysWithin(w: World, acts: seq<Action>)
    decreases |acts|
  {
    w.db.used <= w.db.limit && (acts != [] && Can(w, acts[0]) ==> AlwaysWithin(Do(w, acts[0]), acts[1..]))
  }

  /** Every commit that takes effect is covered, and no new limit is below what is in use. */
  ghost predicate Funded(w: World, acts: seq<Action>)
    decreases |acts|
  {
    acts != [] && Can(w, acts[0]) ==> Covered(w, acts[0]) && Funded(Do(w, acts[0]), acts[1..])
  }

  predicate Covered(w: World, a: Action) {
    match a
    case CommitTx(t) =>
      t in w.txs && w.txs[t].job.Charging? && w.txs[t].job.id in w.db.rows ==>
        w.db.used - w.db.rows[w.txs[t].job.id].amount + w.txs[t].job.actual <= w.db.limit
    case ChangeLimit(limit) => w.db.used <= limit
    case _ => true
  }

  /** When concurrent callers cannot exceed the limit: in exactly the
      interleavings whose commits and limit changes are covered. */
  lemma {:induction false} WithinIffFunded(w: World, acts: seq<Action>, w': World, spent: int)
    requires Inv(w) && Balanced(w.db, spent) && w.db.used <= w.db.limit && Trace(w, acts, w')
    ensures AlwaysWithin(w, acts) <==> Funded(w, acts)
    decreases |acts|
  {
    if acts == [] {
    } else {
      var next, spent' := Do(w, acts[0]), spent + SpendAt(w, acts[0]);
      SumNonNegative(Amounts(w.db.rows));
      StepKeeps(w, acts[0], next, spent, spent', StepsAt(w, acts[0]));
      WithinNext(w, acts[0], next, spent);
      if next.db.used <= next.db.limit {
        WithinIffFunded(next, acts[1..], w', spent');
      }
    }
  }

  lemma WithinNext(w: World, a: Action, next: World, spent: int)
    requires Inv(w) && Balanced(w.db, spent) && 0 <= w.db.used <= w.db.limit && Can(w, a) && next == Do(w, a)
    ensures next.db.used <= next.db.limit <==> Covered(w, a)
  {
    CommitsAreSerial(w, a);
    if a.CommitTx? {
      WrittenIsOk(w, a.t);
      SerialWithin(w.db, spent, w.txs[a.t].job);
    }
  }

  lemma SerialWithin(s: Scope, spent: int, job: Job)
    requires Balanced(s, spent) && JobOk(s, job) && 0 <= s.used <= s.limit
    ensures Serial(s, job).limit == s.limit
    ensures job.Charging? && job.id in s.rows ==> Serial(s, job).used == s.used - s.rows[job.id].amount + job.actual
    ensures !job.Charging? || job.id !in s.rows ==> Serial(s, job).used <= s.limit
  {
    if job.Reserving? {
      TestedIsLive(s, spent, job.now);
    }
  }

  // ---- the price of the opposite lock orders ----------------------------------------

  /** Reserve `t` needs a row that settlement `u` has already deleted. */
  predicate Stuck(w: World, t: Tid, u: Tid, row: Id) {
    && t in w.txs && w.txs[t].Reclaiming? && row in w.txs[t].todo
    && u in w.txs && row in w.rowOwner && w.rowOwner[row] == u
  }

  /** A Reserve blocked on a row is always a deadlock: the row belongs to a
      settlement that is itself waiting for the budget row the Reserve holds. */
  lemma BlockedIsDeadlock(w: World, t: Tid, row: Id)
    requires Inv(w) && t in w.txs && w.txs[t].Reclaiming? && row in w.txs[t].todo && !Can(w, ReclaimRow(t, row))
    ensures row in w.rowOwner && Stuck(w, t, w.rowOwner[row], row) && w.rowOwner[row] != t
    ensures w.txs[w.rowOwner[row]].Deleted?
    ensures forall a :: Can(w, a) && !a.ChangeLimit? && a.t == w.rowOwner[row] ==> a == Abort(a.t)
  {
    var u := w.rowOwner[row];
    assert TxOk(w, t, w.txs[t]);
    assert row in Holding(w.txs[u]);
    assert t in w.budgetOwner;
    if u != t {
      assert u !in w.budgetOwner;
    }
  }

  /** Reserve `t` is on its way to reclaim a row that lies expired in the hands
      of settlement `u`, which waits for the budget row `t` holds. */
  predicate Doomed(w: World, t: Tid, u: Tid) {
    && t in w.txs && (w.txs[t].Locked? || w.txs[t].Reclaiming?) && w.txs[t].job.Reserving?
    && u in w.txs && w.txs[u].Deleted? && w.txs[u].job.id in w.db.rows
    && w.db.rows[w.txs[u].job.id].expires <= w.txs[t].job.now
  }

  ghost predicate NoneDoomed(w: World) {
    forall t, u :: !Doomed(w, t, u)
  }

  /** While Reserve `t` reclaims and settlement `u` waits, they are in each
      other's way exactly if the row `u` settles had expired when `t` started. */
  lemma StuckIffExpired(w: World, t: Tid, u: Tid)
    requires Inv(w) && t in w.txs && w.txs[t].Reclaiming? && u in w.txs && w.txs[u].Deleted?
    ensures w.txs[u].job.id in w.db.rows
    ensures Stuck(w, t, u, w.txs[u].job.id) <==> w.db.rows[w.txs[u].job.id].expires <= w.txs[t].job.now
  {
    assert TxOk(w, t, w.txs[t]);
    assert TxOk(w, u, w.txs[u]);
    assert t != u;
  }

  lemma StuckIsDoomed(w: World, t: Tid, row: Id)
    requires Inv(w) && t in w.txs && w.txs[t].Reclaiming? && row in w.txs[t].todo && row in w.rowOwner
    ensures Doomed(w, t, w.rowOwner[row])
  {
    var u := w.rowOwner[row];
    BlockedIsDeadlock(w, t, row);
    assert TxOk(w, t, w.txs[t]);
    assert TxOk(w, u, w.txs[u]);
    assert row in Holding(w.txs[u]);
    StuckIffExpired(w, t, u);
  }

  lemma DoomedStays(w: World, a: Action, next: World, t: Tid, u: Tid)
    requires Inv(w) && Doomed(w, t, u) && Can(w, a) && next == Do(w, a) && a != Abort(t) && a != Abort(u)
    ensures Doomed(next, t, u) && (w.txs[t].Reclaiming? ==> next.txs[t].Reclaiming?)
  {
    assert TxOk(w, t, w.txs[t]);
    assert TxOk(w, u, w.txs[u]);
    assert t in w.budgetOwner;
    assert forall v :: v in w.txs && w.txs[v].Written? ==> v in w.budgetOwner;
  }

  /** From there on, already before the Reserve has come to the row, it is a
      deadlock until one of the two is aborted: neither can commit. */
  lemma {:induction false} DeadlockLasts(w: World, acts: seq<Action>, w': World, t: Tid, u: Tid)
    requires Inv(w) && Doomed(w, t, u) && Trace(w, acts, w')
    requires Abort(t) !in acts && Abort(u) !in acts
    ensures Inv(w') && Doomed(w', t, u) && !Can(w', CommitTx(t)) && !Can(w', CommitTx(u))
    ensures w.txs[t].Reclaiming? ==> Stuck(w', t, u, w'.txs[u].job.id)
    decreases |acts|
  {
    if acts == [] {
      if w.txs[t].Reclaiming? {
        StuckIffExpired(w, t, u);
      }
    } else {
      var next := Do(w, acts[0]);
      InvKept(w, acts[0], next);
      assert acts[0] in acts;
      DoomedStays(w, acts[0], next, t, u);
      DeadlockLasts(next, acts[1..], w', t, u);
    }
  }

  /** Totals that no longer fit in a bigint end a transaction by an SQL error. */
  ghost predicate OutOfRange(w: World, t: Tid) {
    t in w.txs &&
    if w.txs[t].Deleted? then w.budgetOwner == {} && !Fits(Updated(w, t))
    else w.txs[t].Reclaiming? && w.txs[t].todo == {} && !Fits(Sum(w.txs[t].got))
  }

  /** A transaction in progress goes on by itself: its next statement, its
      COMMIT, or the end an out-of-range total puts to it. */
  ghost predicate GoesOn(w: World, a: Action) {
    Can(w, a) &&
    match a
    case StartDelete(_) => true
    case ReclaimRow(_, _) => true
    case FinishReserve(_) => true
    case UpdateBudget(_) => true
    case CommitTx(_) => true
    case Abort(t) => OutOfRange(w, t)
    case _ => false
  }

  /** Nothing else blocks: without such a pair some transaction in progress can always go on. */
  lemma Progress(w: World) returns (a: Action)
    requires Inv(w) && w.txs != map[] && NoneDoomed(w)
    ensures GoesOn(w, a)
  {
    if t :| t in w.budgetOwner {
      assert t in w.txs && Owns(w.txs[t]);
      match w.txs[t]
      case Locked(_, _, _) => a := StartDelete(t);
      case Written(_, _, _, _) => a := CommitTx(t);
      case Reclaiming(_, _, _, todo, got) =>
        if row :| row in todo {
          if row in w.rowOwner {
            StuckIsDoomed(w, t, row);
            assert false;
          }
          a := ReclaimRow(t, row);
        } else {
          a := if Fits(Sum(got)) then FinishReserve(t) else Abort(t);
        }
    } else {
      var t :| t in w.txs;
      assert !Owns(w.txs[t]);
      a := if Fits(Updated(w, t)) then UpdateBudget(t) else Abort(t);
    }
  }

  lemma GoingOnKeeps(w: World, a: Action, next: World)
    requires Inv(w) && NoneDoomed(w) && GoesOn(w, a) && next == Do(w, a)
    ensures Inv(next) && NoneDoomed(next)
  {
    InvKept(w, a, next);
    forall t, u ensures !Doomed(next, t, u) {
      DoomBegins(w, a, next, t, u);
    }
  }

  /** Only a transaction that begins can bring about such a pair. */
  lemma DoomBegins(w: World, a: Action, next: World, t: Tid, u: Tid)
    requires Inv(w) && Can(w, a) && next == Do(w, a) && !a.BeginReserve? && !a.BeginSettle?
    ensures Doomed(next, t, u) ==> Doomed(w, t, u)
  {
    assert t in w.txs && (w.txs[t].Locked? || w.txs[t].Reclaiming?) ==> t in w.budgetOwner;
    assert forall v :: v in w.txs && w.txs[v].Written? ==> v in w.budgetOwner;
  }

  // What is left to do: transactions, settlements without the budget row,
  // Reserves before and inside their DELETE, rows still to delete.

  function Deleteds(w: World): set<Tid> {
    set t | t in w.txs && w.txs[t].Deleted?
  }

  function Lockeds(w: World): set<Tid> {
    set t | t in w.txs && w.txs[t].Locked?
  }

  function Reclaimings(w: World): set<Tid> {
    set t | t in w.txs && w.txs[t].Reclaiming?
  }

  function Todos(w: World): set<(Tid, Id)> {
    set t, i | t in w.txs && w.txs[t].Reclaiming? && i in w.txs[t].todo :: (t, i)
  }

  lemma LessToDo(w: World, a: Action, next: World)
    requires GoesOn(w, a) && next == Do(w, a)
    ensures if next.txs.Keys != w.txs.Keys then next.txs.Keys < w.txs.Keys
            else if Deleteds(next) != Deleteds(w) then Deleteds(next) < Deleteds(w)
            else if Lockeds(next) != Lockeds(w) then Lockeds(next) < Lockeds(w)
            else if Reclaimings(next) != Reclaimings(w) then Reclaimings(next) < Reclaimings(w)
            else Todos(next) < Todos(w)
  {
    if a.CommitTx? || a.Abort? {
      assert a.t in w.txs && a.t !in next.txs;
    } else if a.UpdateBudget? {
      assert a.t in Deleteds(w) && a.t !in Deleteds(next);
    } else if a.StartDelete? {
      assert a.t in Lockeds(w) && a.t !in Lockeds(next);
    } else if a.FinishReserve? {
      assert a.t in Reclaimings(w) && a.t !in Reclaimings(next);
    } else {
      assert Reclaimings(next) == Reclaimings(w);
      assert (a.t, a.row) in Todos(w) && (a.t, a.row) !in Todos(next);
    }
  }

  /** A run in which the transactions in progress go on and no new one begins. */
  ghost predicate Completion(w: World, acts: seq<Action>, w': World)
    decreases |acts|
  {
    if acts == [] then w == w' else GoesOn(w, acts[0]) && Completion(Do(w, acts[0]), acts[1..], w')
  }

  lemma {:induction false} Complete(w: World) returns (acts: seq<Action>, w': World)
    requires Inv(w) && NoneDoomed(w)
    ensures Completion(w, acts, w') && w'.txs == map[]
    decreases w.txs.Keys, Deleteds(w), Lockeds(w), Reclaimings(w), Todos(w)
  {
    if w.txs == map[] {
      acts, w' := [], w;
    } else {
      var a := Progress(w);
      var next := Do(w, a);
      GoingOnKeeps(w, a, next);
      LessToDo(w, a, next);
      var rest;
      rest, w' := Complete(next);
      acts := [a] + rest;
      assert acts[0] == a && acts[1..] == rest;
    }
  }

  lemma {:induction false} DoomedNeverCompletes(w: World, acts: seq<Action>, w': World, t: Tid, u: Tid)
    requires Inv(w) && Doomed(w, t, u) && Completion(w, acts, w')
    ensures Doomed(w', t, u)
    decreases |acts|
  {
    if acts == [] {
    } else {
      var next := Do(w, acts[0]);
      NotOutOfRange(w, t, u);
      InvKept(w, acts[0], next);
      DoomedStays(w, acts[0], next, t, u);
      DoomedNeverCompletes(next, acts[1..], w', t, u);
    }
  }

  lemma NotOutOfRange(w: World, t: Tid, u: Tid)
    requires Inv(w) && Doomed(w, t, u)
    ensures !OutOfRange(w, t) && !OutOfRange(w, u)
  {
    assert t in w.budgetOwner;
    if w.txs[t].Reclaiming? {
      StuckIffExpired(w, t, u);
    }
  }

  /** When the ledger is free of deadlock: all transactions in progress can run
      to their ends, without a victim and without help, if and only if no Reserve
      in progress meets a settlement of a reservation already expired for it. */
  lemma CompletesIff(w: World)
    requires Inv(w)
    ensures NoneDoomed(w) <==> exists acts: seq<Action>, w': World :: Completes(w, acts, w')
  {
    if NoneDoomed(w) {
      var acts, w' := Complete(w);
      assert Completes(w, acts, w');
    } else {
      var t, u :| Doomed(w, t, u);
      forall acts: seq<Action>, w': World | Completion(w, acts, w') ensures w'.txs != map[] {
        DoomedNeverCompletes(w, acts, w', t, u);
      }
    }
  }

  ghost predicate Completes(w: World, acts: seq<Action>, w': World) {
    Completion(w, acts, w') && w'.txs == map[]
  }

  /** No settlement starts, or is on, when its lease has ended for a Reserve in progress. */
  ghost predicate Timely(w: World, acts: seq<Action>)
    decreases |acts|
  {
    acts != [] && Can(w, acts[0]) ==>
      && (match acts[0]
          case BeginSettle(_, job) =>
            forall t :: t in w.txs && w.txs[t].job.Reserving? ==> w.txs[t].job.now < w.db.rows[job.id].expires
          case BeginReserve(_, job) =>
            forall u :: u in w.txs && w.txs[u].Deleted? && w.txs[u].job.id in w.db.rows ==>
              job.now < w.db.rows[w.txs[u].job.id].expires
          case _ => true)
      && Timely(Do(w, acts[0]), acts[1..])
  }

  /** A caller who settles before the lease ends never deadlocks: in every state
      of such a run all transactions in progress can run to their ends. */
  lemma {:induction false} TimelyNeverDeadlocks(w: World, acts: seq<Action>, w': World)
    requires Inv(w) && NoneDoomed(w) && Trace(w, acts, w') && Timely(w, acts)
    ensures Inv(w') && NoneDoomed(w')
    decreases |acts|
  {
    if acts == [] {
    } else {
      var next := Do(w, acts[0]);
      InvKept(w, acts[0], next);
      TimelyKeeps(w, acts, next);
      TimelyNeverDeadlocks(next, acts[1..], w');
    }
  }

  lemma TimelyKeeps(w: World, acts: seq<Action>, next: World)
    requires Inv(w) && NoneDoomed(w) && acts != [] && Can(w, acts[0]) && next == Do(w, acts[0]) && Timely(w, acts)
    ensures NoneDoomed(next)
  {
    var a := acts[0];
    forall t, u ensures !Doomed(next, t, u) {
      assert !Doomed(w, t, u);
      if !a.BeginReserve? && !a.BeginSettle? {
        DoomBegins(w, a, next, t, u);
      }
    }
  }

  /** Settling an expired, not yet reclaimed reservation while another caller
      reserves is all it takes. */
  lemma DeadlockReachable(limit: int, actual: int)
    requires Fits(limit) && actual >= 0
    ensures exists w: World, acts: seq<Action>, w': World ::
              Trace(w, acts, w') && Inv(w) && w.txs == map[] && Balanced(w.db, 0) && Stuck(w', 2, 1, 7)
  {
    var w := World(Scope(limit, 10, map[7 := Row(10, 0)]), {}, map[], map[]);
    SumInsert(map[], 7, 10);
    assert Amounts(w.db.rows) == map[][7 := 10];
    var reserve := Reserving(8, 0, 0, 30);
    var acts := [BeginSettle(1, Charging(7, actual)), BeginReserve(2, reserve), StartDelete(2)];
    var w1 := Do(w, acts[0]);
    var w2 := Do(w1, acts[1]);
    var w3 := Do(w2, acts[2]);
    assert Trace(w3, [], w3);
    assert Trace(w2, [acts[2]], w3);
    assert acts[1..] == [acts[1], acts[2]] && [acts[1], acts[2]][1..] == [acts[2]];
    assert Trace(w1, [acts[1], acts[2]], w3);
    assert Trace(w, acts, w3);
    assert Sum(map[7 := 10]) == 10;
    assert Balanced(w.db, 0);
    assert Inv(w);
    assert Stuck(w3, 2, 1, 7);
  }

  // ---- the transactions as the adapter issues them ------------------------------------

  /** What a transaction leaves behind and answers if it commits; a duplicate
      id, a missing row and an out-of-range total roll back. */
  ghost function Attempt(s: Scope, job: Job): (Scope, Verdict) {
    match job
    case Reserving(id, estimate, now, _) =>
      if !Fits(Reclaimable(s, now)) then (s, Refused)
      else if Exceeds(s.limit, Tested(s, now), estimate) then (Serial(s, job), Exceeded)
      else if id in s.rows - Expired(s.rows, now) then (s, Refused)
      else (Serial(s, job), Ok)
    case _ =>
      if job.id !in s.rows then (s, NotFound)
      else if !Fits(Serial(s, job).used) then (s, Refused)
      else (Serial(s, job), Ok)
  }

  /** Scope and answer once the transaction has met its fate. */
  ghost function Outcome(s: Scope, job: Job, fate: Fate): (Scope, Verdict) {
    var (after, verdict) := Attempt(s, job);
    (if fate.Lost? then s else after, Told(verdict, Durable(verdict), Refused, fate))
  }

  /** The attempt ended in a COMMIT. */
  predicate Durable(verdict: Verdict) {
    verdict.Ok? || verdict.Exceeded?
  }

  function ReserveJob(id: Id, estimate: int64, now: int, seconds: int): Job {
    Reserving(id, estimate as int, now, now + Max(seconds, 1))
  }

  function CommitJob(id: Id, actual: int64): Job {
    Charging(id, NonNegative(actual as int))
  }

  // What the answers mean.

  /** The transaction as issued is the one of the interleaved system: what it
      leaves if it commits is `Serial`, and an answer without effect is one of
      the three errors. An expired row is settled like any other. */
  lemma AttemptIsSerial(s: Scope, job: Job)
    ensures var (after, verdict) := Attempt(s, job);
            && after == (if verdict.Ok? || verdict.Exceeded? then Serial(s, job) else s)
            && (verdict.NotFound? <==> !job.Reserving? && job.id !in s.rows)
            && (verdict.Exceeded? ==> job.Reserving? && s.limit >= 0)
  {
  }

  /** Reserve grants exactly if there is no limit or committed usage, unexpired
      reservations and the estimate together are within it, and is denied in
      every other case; either way the expired rows are gone. */
  lemma AdmissionExact(s: Scope, spent: int, job: Job)
    requires Balanced(s, spent) && job.Reserving? && job.id !in s.rows && 0 <= job.estimate <= 0x3FFF_FFFF_FFFF_FFFF
    ensures var (after, verdict) := Attempt(s, job);
            var total := spent + LiveHeld(s.rows, job.now) + job.estimate;
            var granted := s.limit < 0 || total <= s.limit;
            var live := Unexpired(s.rows, job.now);
            && verdict == (if granted then Ok else Exceeded)
            && after.rows == (if granted then live[job.id := Row(job.estimate, job.expires)] else live)
            && after.limit == s.limit
            && (!granted ==> after.used == total - job.estimate)
            && (granted && total <= MAX ==> after.used == total)
  {
    TestedIsLive(s, spent, job.now);
    UnexpiredRest(s.rows, job.now);
    BalancedReclaims(s, spent, job.now);
  }

  lemma BalancedReclaims(s: Scope, spent: int, now: int)
    requires Balanced(s, spent)
    ensures 0 <= Reclaimable(s, now) <= s.used
  {
    SumMinus(Amounts(s.rows), Expired(s.rows, now));
    SumNonNegative(Amounts(s.rows) - Expired(s.rows, now));
    SumNonNegative(Restrict(Amounts(s.rows), Expired(s.rows, now)));
  }

  /** Commit and Release, exactly: a row is settled once it is found, expired or
      not, unless the new total does not fit in a bigint. */
  lemma SettlementExact(s: Scope, spent: int, job: Job)
    requires Balanced(s, spent) && !job.Reserving? && (job.Charging? ==> job.actual >= 0)
    ensures var (after, verdict) := Attempt(s, job);
            var charge := if job.Charging? then job.actual else 0;
            && (verdict.NotFound? <==> job.id !in s.rows)
            && (verdict.Ok? <==> job.id in s.rows && s.used - s.rows[job.id].amount + charge <= 0x7FFF_FFFF_FFFF_FFFF)
            && (verdict.Ok? ==>
                  after.rows == s.rows - {job.id} && after.used == spent + charge + Sum(Amounts(s.rows - {job.id})))
            && (!verdict.Ok? ==> after == s)
            && (job.Releasing? && job.id in s.rows ==> verdict.Ok?)
  {
    if job.id in s.rows {
      SumRemove(Amounts(s.rows), job.id);
      assert Amounts(s.rows - {job.id}) == Amounts(s.rows) - {job.id};
      SumNonNegative(Amounts(s.rows - {job.id}));
    }
  }

  /** The same in the interleaved system, whatever else is in progress: when a
      Reserve commits it has been granted exactly if what is committed then, and
      unexpired for it, leaves room. */
  lemma GrantIsExact(w: World, t: Tid, job: Job, spent: int)
    requires Inv(w) && Can(w, CommitTx(t)) && w.txs[t].job == job && job.Reserving? && Balanced(w.db, spent)
    ensures job.id in Do(w, CommitTx(t)).db.rows
       <==> w.db.limit < 0 || spent + LiveHeld(w.db.rows, job.now) + job.estimate <= w.db.limit
  {
    assert TxOk(w, t, w.txs[t]);
    CommitsAreSerial(w, CommitTx(t));
    AttemptIsSerial(w.db, job);
    AdmissionExact(w.db, spent, job);
  }

  /** The client is told of a failure when the transaction was lost, and when it
      committed but its COMMIT was reported as failed, be it a grant, a settlement
      or a denial; any other answer is the true one. */
  lemma AnswersAreTrue(s: Scope, job: Job, fate: Fate, after: Scope, verdict: Verdict)
    requires (after, verdict) == Attempt(s, job)
    ensures Outcome(s, job, fate)
         == match fate
            case Delivered => (after, verdict)
            case Lost => (s, Refused)
            case Ambiguous => (after, if verdict.Ok? || verdict.Exceeded? then Refused else verdict)
  {
  }

  // A transaction nobody interrupts.

  lemma Before(w: World, a: Action, next: World, acts: seq<Action>, w': World)
    requires Can(w, a) && next == Do(w, a) && Trace(next, acts, w')
    ensures Trace(w, [a] + acts, w')
  {
    assert ([a] + acts)[0] == a && ([a] + acts)[1..] == acts;
  }

  function Quiet(s: Scope): World {
    World(s, {}, map[], map[])
  }

  /** Whatever a transaction on its own is specified to leave behind and answer
      with success or denial is what its statements do in the interleaved system. */
  lemma AloneIsAttempt(s: Scope, job: Job) returns (acts: seq<Action>, w': World)
    requires Fits(s.limit) && (Attempt(s, job).1.Ok? || Attempt(s, job).1.Exceeded?)
    requires match job
             case Reserving(id, estimate, _, _) => id !in s.rows && ValidEstimate(estimate)
             case Charging(_, actual) => actual >= 0
             case Releasing(_) => true
    ensures Trace(Quiet(s), acts, w') && w' == Quiet(Attempt(s, job).0)
  {
    AttemptIsSerial(s, job);
    if job.Reserving? {
      acts, w' := ReserveAlone(s, job);
    } else {
      acts, w' := SettleAlone(s, job);
    }
  }

  lemma SettleAlone(s: Scope, job: Job) returns (acts: seq<Action>, w': World)
    requires Fits(s.limit) && !job.Reserving? && job.id in s.rows && (job.Charging? ==> job.actual >= 0)
    requires Fits(Serial(s, job).used)
    ensures Trace(Quiet(s), acts, w') && w' == Quiet(Serial(s, job))
  {
    var w := Quiet(s);
    var w1 := Do(w, BeginSettle(0, job));
    var w2 := Do(w1, UpdateBudget(0));
    InvKept(w, BeginSettle(0, job), w1);
    InvKept(w1, UpdateBudget(0), w2);
    acts, w' := CommitAlone(w2, job);
    Before(w1, UpdateBudget(0), w2, acts, w');
    acts := [UpdateBudget(0)] + acts;
    Before(w, BeginSettle(0, job), w1, acts, w');
    acts := [BeginSettle(0, job)] + acts;
  }

  lemma CommitAlone(w: World, job: Job) returns (acts: seq<Action>, w': World)
    requires Inv(w) && w.txs.Keys == {0} && w.txs[0].Written? && w.txs[0].job == job
    ensures Trace(w, acts, w') && w' == Quiet(Serial(w.db, job))
  {
    w' := Do(w, CommitTx(0));
    CommitsAreSerial(w, CommitTx(0));
    InvKept(w, CommitTx(0), w');
    assert w'.txs == map[];
    assert w'.rowOwner == map[] && w'.budgetOwner == {};
    Before(w, CommitTx(0), w', [], w');
    acts := [CommitTx(0)] + [];
  }

  lemma ReserveAlone(s: Scope, job: Job) returns (acts: seq<Action>, w': World)
    requires Fits(s.limit) && job.Reserving? && job.id !in s.rows && ValidEstimate(job.estimate)
    requires Fits(Reclaimable(s, job.now))
    ensures Trace(Quiet(s), acts, w') && w' == Quiet(Serial(s, job))
  {
    var w := Quiet(s);
    var w1 := Do(w, BeginReserve(0, job));
    var w2 := Do(w1, StartDelete(0));
    InvKept(w, BeginReserve(0, job), w1);
    InvKept(w1, StartDelete(0), w2);
    acts, w' := DeleteAlone(w2, job);
    Before(w1, StartDelete(0), w2, acts, w');
    acts := [StartDelete(0)] + acts;
    Before(w, BeginReserve(0, job), w1, acts, w');
    acts := [BeginReserve(0, job)] + acts;
  }

  /** From within the DELETE on, row by row. */
  lemma {:induction false} DeleteAlone(w: World, job: Job) returns (acts: seq<Action>, w': World)
    requires Inv(w) && w.txs.Keys == {0} && w.txs[0].Reclaiming? && w.txs[0].job == job
    requires Fits(Reclaimable(w.db, job.now))
    ensures Trace(w, acts, w') && w' == Quiet(Serial(w.db, job))
    decreases w.txs[0].todo
  {
    assert TxOk(w, 0, w.txs[0]);
    if row :| row in w.txs[0].todo {
      if row in w.rowOwner {
        StuckIsDoomed(w, 0, row);
        assert false;
      }
      var next := Do(w, ReclaimRow(0, row));
      InvKept(w, ReclaimRow(0, row), next);
      acts, w' := DeleteAlone(next, job);
      Before(w, ReclaimRow(0, row), next, acts, w');
      acts := [ReclaimRow(0, row)] + acts;
    } else {
      assert w.txs[0].got.Keys == Expired(w.db.rows, job.now);
      assert w.txs[0].got == Restrict(Amounts(w.db.rows), Expired(w.db.rows, job.now));
      var next := Do(w, FinishReserve(0));
      InvKept(w, FinishReserve(0), next);
      acts, w' := CommitAlone(next, job);
      Before(w, FinishReserve(0), next, acts, w');
      acts := [FinishReserve(0)] + acts;
    }
  }

  // How long a reservation lasts.

  /** What Reserve inserts: the estimate, until the whole seconds of the lease are over, one at least. */
  lemma GrantedRow(s: Scope, id: Id, estimate: int64, now: int, seconds: int, held: Scope)
    requires Attempt(s, ReserveJob(id, estimate, now, seconds)) == (held, Ok)
    ensures id in held.rows && held.rows[id] == Row(estimate as int, now + if seconds < 1 then 1 else seconds)
  {
  }

  /** A transaction that leaves reservation `id` to its holder. */
  predicate Elsewhere(w: World, a: Action, id: Id) {
    a.CommitTx? && a.t in w.txs ==> w.txs[a.t].job.id != id
  }

  ghost predicate AllElsewhere(w: World, acts: seq<Action>, id: Id)
    decreases |acts|
  {
    acts != [] && Can(w, acts[0]) ==> Elsewhere(w, acts[0], id) && AllElsewhere(Do(w, acts[0]), acts[1..], id)
  }

  /** A Reserve commits for which time `end` has come. */
  predicate Late(w: World, a: Action, end: int) {
    a.CommitTx? && a.t in w.txs && w.txs[a.t].job.Reserving? && end <= w.txs[a.t].job.now
  }

  ghost predicate SomeLate(w: World, acts: seq<Action>, end: int)
    decreases |acts|
  {
    acts != [] && Can(w, acts[0]) && (Late(w, acts[0], end) || SomeLate(Do(w, acts[0]), acts[1..], end))
  }

  lemma RowStep(w: World, a: Action, next: World, id: Id)
    requires Inv(w) && Can(w, a) && next == Do(w, a) && Elsewhere(w, a, id)
    ensures id !in w.db.rows ==> id !in next.db.rows
    ensures id in w.db.rows ==>
              && (id in next.db.rows <==> !Late(w, a, w.db.rows[id].expires))
              && (id in next.db.rows ==> next.db.rows[id] == w.db.rows[id])
  {
    CommitsAreSerial(w, a);
  }

  /** Over any interleaving of other transactions a reservation stays, with its
      amount, until a Reserve commits for which its lease has ended, and goes
      with the first that does: it never counts a moment longer. */
  lemma {:induction false} LeaseExact(w: World, acts: seq<Action>, w': World, id: Id)
    requires Inv(w) && Trace(w, acts, w') && id in w.db.rows && AllElsewhere(w, acts, id)
    ensures id in w'.db.rows <==> !SomeLate(w, acts, w.db.rows[id].expires)
    ensures id in w'.db.rows ==> w'.db.rows[id] == w.db.rows[id]
    decreases |acts|
  {
    if acts == [] {
    } else {
      var next := Do(w, acts[0]);
      InvKept(w, acts[0], next);
      RowStep(w, acts[0], next, id);
      if id in next.db.rows {
        LeaseExact(next, acts[1..], w', id);
      } else {
        GoneStaysGone(next, acts[1..], w', id);
      }
    }
  }

  lemma {:induction false} GoneStaysGone(w: World, acts: seq<Action>, w': World, id: Id)
    requires Inv(w) && Trace(w, acts, w') && id !in w.db.rows && AllElsewhere(w, acts, id)
    ensures id !in w'.db.rows
    decreases |acts|
  {
    if acts == [] {
    } else {
      InvKept(w, acts[0], Do(w, acts[0]));
      RowStep(w, acts[0], Do(w, acts[0]), id);
      GoneStaysGone(Do(w, acts[0]), acts[1..], w', id);
    }
  }

  method ReserveStatements(s: Scope, estimate: int64, id: Id, now: int, seconds: int)
    returns (tx: Scope, verdict: Verdict)
    requires Fits(s.used) && Fits(s.limit) && ValidEstimate(estimate as int)
    ensures (tx, verdict) == Attempt(s, ReserveJob(id, estimate, now, seconds))
  {
    var used, limit := s.used as int64, s.limit as int64;
    var live, reclaimed := Leases.DeleteReturning(s.rows, Amounts(s.rows), Expired(s.rows, now));
    if !Fits(reclaimed) { return s, Refused; }
    if reclaimed > 0 {
      used := Wrap(used as int - reclaimed) as int64;
    }
    tx := s.(used := used as int, rows := live);
    if limit >= 0 && used > limit - estimate { return tx, Exceeded; }
    if id in tx.rows { return s, Refused; }
    tx := tx.(rows := tx.rows[id := Row(estimate as int, now + Max(seconds, 1))]);
    tx := tx.(used := Wrap(used as int + estimate as int));
    verdict := Ok;
  }

  /** The statements of Commit and Release; an out-of-range total is an SQL error and rolls back. */
  method SettleStatements(s: Scope, job: Job) returns (tx: Scope, verdict: Verdict)
    requires !job.Reserving? && RowsOk(s.rows)
    ensures (tx, verdict) == Attempt(s, job)
  {
    if job.id !in s.rows { return s, NotFound; }
    var held := s.rows[job.id].amount;
    tx := s.(rows := s.rows - {job.id});
    var delta := (if job.Charging? then job.actual else 0) - held;
    if !Fits(tx.used + delta) { return s, Refused; }
    tx := tx.(used := tx.used + delta);
    verdict := Ok;
  }

  class Ledger {
    var scope: Scope

    constructor (scope: Scope)
      ensures this.scope == scope
    {
      this.scope := scope;
    }

    method Finish(tx: Scope, verdict: Verdict, fate: Fate) returns (v: Verdict)
      modifies this
      ensures scope == if fate.Lost? then old(scope) else tx
      ensures v == Told(verdict, Durable(verdict), Refused, fate)
    {
      if fate.Lost? { return Refused; }
      scope := tx;
      v := if fate.Ambiguous? && Durable(verdict) then Refused else verdict;
    }

    method Reserve(live: bool, estimate: int64, id: Id, now: int, seconds: int, fate: Fate) returns (verdict: Verdict)
      requires Fits(scope.used) && Fits(scope.limit)
      modifies this
      ensures !live || !(0 <= estimate <= 0x3FFF_FFFF_FFFF_FFFF) ==> scope == old(scope) && verdict == Refused
      ensures live && 0 <= estimate <= 0x3FFF_FFFF_FFFF_FFFF ==>
                (scope, verdict) == Outcome(old(scope), ReserveJob(id, estimate, now, seconds), fate)
    {
      if !live || !ValidEstimate(estimate as int) { return Refused; }
      var tx, v := ReserveStatements(scope, estimate, id, now, seconds);
      verdict := Finish(tx, v, fate);
    }
  }

  /** A reservation handle: one successful terminal call, and nothing after it. */
  class Reservation {
    const ledger: Ledger
    const id: Id
    var done: bool

    constructor (ledger: Ledger, id: Id)
      ensures this.ledger == ledger && this.id == id && !done
    {
      this.ledger, this.id, done := ledger, id, false;
    }

    method Settle(live: bool, job: Job, fate: Fate) returns (verdict: Verdict)
      requires !job.Reserving? && job.id == id && RowsOk(ledger.scope.rows)
      modifies this`done, ledger
      ensures !live || old(done) ==>
                ledger.scope == old(ledger.scope) && done == old(done) && verdict == if live then Ok else Refused
      ensures live && !old(done) ==>
                && done == verdict.Ok?
                && (ledger.scope, verdict) == Outcome(old(ledger.scope), job, fate)
    {
      if !live { return Refused; }
      if done { return Ok; }
      var tx, v := SettleStatements(ledger.scope, job);
      verdict := ledger.Finish(tx, v, fate);
      done := verdict.Ok?;
    }

    /** A negative actual cost is charged as zero. */
    method Commit(live: bool, actual: int64, fate: Fate) returns (verdict: Verdict)
      requires RowsOk(ledger.scope.rows)
      modifies this`done, ledger
      ensures !live || old(done) ==>
                ledger.scope == old(ledger.scope) && done == old(done) && verdict == if live then Ok else Refused
      ensures live && !old(done) ==>
                && done == verdict.Ok?
                && (ledger.scope, verdict)
                   == Outcome(old(ledger.scope), Charging(id, if actual < 0 then 0 else actual as int), fate)
    {
      verdict := Settle(live, CommitJob(id, actual), fate);
    }

    method Release(live: bool, fate: Fate) returns (verdict: Verdict)
      requires RowsOk(ledger.scope.rows)
      modifies this`done, ledger
      ensures !live || old(done) ==>
                ledger.scope == old(ledger.scope) && done == old(done) && verdict == if live then Ok else Refused
      ensures live && !old(done) ==>
                && done == verdict.Ok?
                && (ledger.scope, verdict) == Outcome(old(ledger.scope), Releasing(id), fate)
    {
      verdict := Settle(live, Releasing(id), fate);
    }
  }
}
