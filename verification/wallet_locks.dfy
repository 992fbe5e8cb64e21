/** Wallet transactions interleaved statement by statement. Each begins by
    locking its wallet's row and keeps the lock to its end; what it reads of the
    holds and the entries of that wallet it may read at any later time. */
module WalletLocks {
  import opened Budgets
  import opened Costs
  import opened Int64
  import opened Options
  import opened Transactions
  import opened Wallet

  type Tid = nat

  /** What a transaction has read: the wallet row and its owners' status with
      the lock, then the wallet's hold rows and entries, in either order. */
  datatype Tx = Tx(op: Op, tenants: set<Id>, users: set<User>, account: Account,
                   holds: Option<map<Id, Hold>>, entries: Option<map<Key, Entry>>)

  /** Committed tables, who holds which wallet row, and the transactions in progress. */
  datatype World = World(db: Tables, owner: map<Id, Tid>, txs: map<Tid, Tx>)

  datatype Action =
    | Lock(t: Tid, op: Op)
    | ReadHolds(t: Tid)
    | ReadEntries(t: Tid)
    | Finish(t: Tid)
    | Abort(t: Tid)
    | Alone(op: Op)                 // one statement: open a wallet, change a status

  // ---- one wallet's part of the tables -----------------------------------------

  function HoldsOf(holds: map<Id, Hold>, w: Id): map<Id, Hold> {
    map i | i in holds && holds[i].wallet == w :: holds[i]
  }

  function EntriesOf(entries: map<Key, Entry>, w: Id): map<Key, Entry> {
    map k | k in entries && k.wallet == w :: entries[k]
  }

  function Part(db: Tables, w: Id): Tables
    requires w in db.wallets
  {
    Tables(map[w := db.wallets[w]], HoldsOf(db.holds, w), EntriesOf(db.entries, w), db.activeTenants, db.activeUsers)
  }

  /** The tables with wallet `w`'s part replaced. */
  function Graft(db: Tables, part: Tables, w: Id): Tables
    requires w in part.wallets
  {
    db.(wallets := db.wallets[w := part.wallets[w]],
        holds := GraftHolds(db.holds, part.holds, w), entries := GraftEntries(db.entries, part.entries, w))
  }

  predicate Locking(op: Op) {
    op.Reserve? || op.Commit? || op.Release? || op.Credit?
  }

  predicate Unused(op: Op, holds: map<Id, Hold>) {
    op.Reserve? ==> op.id !in holds
  }

  // ---- transactions touch only their wallet's part --------------------------------

  function GraftHolds(holds: map<Id, Hold>, part: map<Id, Hold>, w: Id): map<Id, Hold> {
    (holds - HoldsOf(holds, w).Keys) + part
  }

  function GraftEntries(entries: map<Key, Entry>, part: map<Key, Entry>, w: Id): map<Key, Entry> {
    (entries - EntriesOf(entries, w).Keys) + part
  }

  lemma HoldParts(holds: map<Id, Hold>, w: Id, gone: set<Id>)
    requires forall i :: i in gone ==> i in holds && holds[i].wallet == w
    ensures GraftHolds(holds, HoldsOf(holds, w), w) == holds
    ensures GraftHolds(holds, HoldsOf(holds, w) - gone, w) == holds - gone
  {
  }

  lemma AddedHold(holds: map<Id, Hold>, part: map<Id, Hold>, w: Id, id: Id, h: Hold)
    ensures GraftHolds(holds, part[id := h], w) == GraftHolds(holds, part, w)[id := h]
  {
  }

  lemma EntryParts(entries: map<Key, Entry>, k: Key, e: Entry)
    ensures GraftEntries(entries, EntriesOf(entries, k.wallet), k.wallet) == entries
    ensures GraftEntries(entries, EntriesOf(entries, k.wallet)[k := e], k.wallet) == entries[k := e]
  {
  }

  lemma PartReads(db: Tables, w: Id, id: Id)
    requires w in db.wallets
    ensures var part := Part(db, w);
            && (id in part.holds <==> id in db.holds && db.holds[id].wallet == w)
            && (id in part.holds ==> part.holds[id] == db.holds[id])
            && (Key(w, id) in part.entries <==> Key(w, id) in db.entries)
            && (Key(w, id) in part.entries ==> part.entries[Key(w, id)] == db.entries[Key(w, id)])
  {
  }

  lemma PartSums(db: Tables, w: Id, now: int)
    requires w in db.wallets
    ensures Amounts(Part(db, w).holds, w) == Amounts(db.holds, w)
    ensures Expired(Part(db, w).holds, w, now) == Expired(db.holds, w, now)
  {
  }

  lemma ReclaimedIsLocal(db: Tables, w: Id, now: int)
    requires w in db.wallets
    ensures Reclaimed(db, w, now) == Graft(db, Reclaimed(Part(db, w), w, now), w)
  {
    var part := Reclaimed(Part(db, w), w, now);
    PartSums(db, w, now);
    assert part.wallets[w] == Reclaimed(db, w, now).wallets[w];
    assert part.holds == HoldsOf(db.holds, w) - Expired(db.holds, w, now);
    HoldParts(db.holds, w, Expired(db.holds, w, now));
    EntryParts(db.entries, Key(w, Blank), Entry(true, 1));
  }

  lemma WithHoldIsLocal(db: Tables, part: Tables, w: Id, id: Id, amount: int, expires: int)
    requires w in db.wallets && w in part.wallets && id !in db.holds
    ensures WithHold(Graft(db, part, w), w, id, amount, expires) == Graft(db, WithHold(part, w, id, amount, expires), w)
  {
    AddedHold(db.holds, part.holds, w, id, Hold(w, amount, expires));
  }

  lemma UnchangedIsLocal(db: Tables, w: Id)
    requires w in db.wallets
    ensures Graft(db, Part(db, w), w) == db
  {
    HoldParts(db.holds, w, {});
    EntryParts(db.entries, Key(w, Blank), Entry(true, 1));
  }

  lemma ReserveIsLocal(db: Tables, who: Caller, estimate: int, id: Id, now: int)
    requires who.wallet in db.wallets && id !in db.holds
    ensures var (part, verdict) := ReserveTx(Part(db, who.wallet), who, estimate, id, now);
            who.wallet in part.wallets
            && ReserveTx(db, who, estimate, id, now) == (Graft(db, part, who.wallet), verdict)
  {
    var w := who.wallet;
    UnchangedIsLocal(db, w);
    ReclaimedIsLocal(db, w, now);
    var part := Reclaimed(Part(db, w), w, now);
    assert part.wallets[w] == Reclaimed(db, w, now).wallets[w] && id !in part.holds;
    WithHoldIsLocal(db, part, w, id, estimate, now + Max(who.ttl, 1));
  }

  lemma SettledIsLocal(db: Tables, w: Id, id: Id, actual: int)
    requires w in db.wallets && id in db.holds && db.holds[id].wallet == w
    ensures Settled(db, id, actual) == Graft(db, Settled(Part(db, w), id, actual), w)
  {
    HoldParts(db.holds, w, {id});
    EntryParts(db.entries, Key(w, id), Entry(false, actual));
  }

  lemma SettleIsLocal(db: Tables, w: Id, id: Id, charge: int, now: int)
    requires w in db.wallets
    ensures var (part, verdict) := SettleTx(Part(db, w), w, id, charge, now);
            w in part.wallets && SettleTx(db, w, id, charge, now) == (Graft(db, part, w), verdict)
  {
    UnchangedIsLocal(db, w);
    PartReads(db, w, id);
    if id in db.holds && db.holds[id].wallet == w {
      SettledIsLocal(db, w, id, charge);
    }
  }

  lemma ReleaseIsLocal(db: Tables, who: Caller, id: Id)
    requires who.wallet in db.wallets
    ensures var (part, verdict) := ReleaseTx(Part(db, who.wallet), who, id);
            who.wallet in part.wallets && ReleaseTx(db, who, id) == (Graft(db, part, who.wallet), verdict)
  {
    UnchangedIsLocal(db, who.wallet);
    if id in db.holds && db.holds[id].wallet == who.wallet {
      SettledIsLocal(db, who.wallet, id, 0);
    }
  }

  lemma CreditIsLocal(db: Tables, w: Id, amount: int, key: Id)
    requires w in db.wallets
    ensures var (part, verdict) := CreditTx(Part(db, w), w, amount, key);
            w in part.wallets && CreditTx(db, w, amount, key) == (Graft(db, part, w), verdict)
  {
    UnchangedIsLocal(db, w);
    HoldParts(db.holds, w, {});
    EntryParts(db.entries, Key(w, key), Entry(true, amount));
  }

  /** A locking transaction does the same whether it sees all tables or only its wallet's part of them. */
  lemma AttemptIsLocal(db: Tables, op: Op)
    requires Locking(op) && Subject(op) in db.wallets && Unused(op, db.holds)
    ensures var (part, verdict) := Attempt(Part(db, Subject(op)), op);
            Subject(op) in part.wallets && Attempt(db, op) == (Graft(db, part, Subject(op)), verdict)
  {
    match op
    case Reserve(who, estimate, id, now) => ReserveIsLocal(db, who, estimate, id, now);
    case Commit(who, id, actual, now) => CommitIsLocal(db, who, id, actual, now);
    case Release(who, id) => ReleaseIsLocal(db, who, id);
    case Credit(w, amount, key) => CreditIsLocal(db, w, amount, key);
  }

  lemma CommitIsLocal(db: Tables, who: Caller, id: Id, actual: int, now: int)
    requires who.wallet in db.wallets
    ensures var (part, verdict) := CommitTx(Part(db, who.wallet), who, id, actual, now);
            who.wallet in part.wallets && CommitTx(db, who, id, actual, now) == (Graft(db, part, who.wallet), verdict)
  {
    UnchangedIsLocal(db, who.wallet);
    SettleIsLocal(db, who.wallet, id, NonNegative(actual), now);
  }

  // ---- the interleaved system ----------------------------------------------------------

  predicate Can(w: World, a: Action) {
    match a
    case Lock(t, op) =>
      t !in w.txs && Locking(op) && Subject(op) in w.db.wallets && Subject(op) !in w.owner && Unused(op, w.db.holds)
      && (op.Reserve? ==> forall u :: u in w.txs && w.txs[u].op.Reserve? ==> w.txs[u].op.id != op.id)
    case ReadHolds(t) => t in w.txs
    case ReadEntries(t) => t in w.txs
    case Finish(t) => t in w.txs && w.txs[t].holds.Some? && w.txs[t].entries.Some?
    case Abort(t) => t in w.txs
    case Alone(op) => !Locking(op) && Subject(op) !in w.owner
  }

  function Unlock(w: World, t: Tid): World {
    w.(owner := map i | i in w.owner && w.owner[i] != t :: w.owner[i], txs := w.txs - {t})
  }

  /** The tables as the transaction has read them. */
  function View(tx: Tx): Tables
    requires tx.holds.Some? && tx.entries.Some?
  {
    Tables(map[Subject(tx.op) := tx.account], tx.holds.value, tx.entries.value, tx.tenants, tx.users)
  }

  ghost function Do(w: World, a: Action): World
    requires Can(w, a)
  {
    match a
    case Lock(t, op) =>
      w.(owner := w.owner[Subject(op) := t],
         txs := w.txs[t := Tx(op, w.db.activeTenants, w.db.activeUsers, w.db.wallets[Subject(op)], None, None)])
    case ReadHolds(t) =>
      w.(txs := w.txs[t := w.txs[t].(holds := Some(HoldsOf(w.db.holds, Subject(w.txs[t].op))))])
    case ReadEntries(t) =>
      w.(txs := w.txs[t := w.txs[t].(entries := Some(EntriesOf(w.db.entries, Subject(w.txs[t].op))))])
    case Finish(t) => Unlock(w, t).(db := Written(w.db, w.txs[t]))
    case Abort(t) => Unlock(w, t)
    case Alone(op) => w.(db := Attempt(w.db, op).0)
  }

  /** The tables after the writes of a transaction that has read all it needs. */
  ghost function Written(db: Tables, tx: Tx): Tables
    requires tx.holds.Some? && tx.entries.Some?
  {
    var part := Attempt(View(tx), tx.op).0;
    if Subject(tx.op) in part.wallets then Graft(db, part, Subject(tx.op)) else db
  }

  // ---- what the locks preserve -----------------------------------------------------------

  /** What a transaction has read of its wallet is still so. */
  ghost predicate TxOk(w: World, t: Tid, tx: Tx) {
    && Locking(tx.op) && Unused(tx.op, w.db.holds)
    && Subject(tx.op) in w.owner && w.owner[Subject(tx.op)] == t
    && Subject(tx.op) in w.db.wallets && tx.account == w.db.wallets[Subject(tx.op)]
    && (tx.holds.Some? ==> tx.holds.value == HoldsOf(w.db.holds, Subject(tx.op)))
    && (tx.entries.Some? ==> tx.entries.value == EntriesOf(w.db.entries, Subject(tx.op)))
  }

  ghost predicate Inv(w: World) {
    && (forall t :: t in w.txs ==> TxOk(w, t, w.txs[t]))
    && (forall t, u :: t in w.txs && u in w.txs && t != u && w.txs[t].op.Reserve? && w.txs[u].op.Reserve? ==>
          w.txs[t].op.id != w.txs[u].op.id)
  }

  function Since(db: Tables, tx: Tx): Tables {
    db.(activeTenants := tx.tenants, activeUsers := tx.users)
  }

  /** A commit is the transaction run alone on the tables as they are now, with
      its owners' status as it was when the wallet was locked. */
  lemma WrittenIsSerial(w: World, t: Tid)
    requires Inv(w) && Can(w, Finish(t))
    ensures Written(w.db, w.txs[t])
         == Attempt(Since(w.db, w.txs[t]), w.txs[t].op).0
            .(activeTenants := w.db.activeTenants, activeUsers := w.db.activeUsers)
  {
    var tx := w.txs[t];
    assert TxOk(w, t, tx);
    var then_ := Since(w.db, tx);
    assert View(tx) == Part(then_, Subject(tx.op));
    AttemptIsLocal(then_, tx.op);
  }

  // ---- serialisability -------------------------------------------------------------------

  /** Wallet `v` is the same in both. */
  ghost predicate SameFor(db: Tables, db': Tables, v: Id) {
    && v in db.wallets && v in db'.wallets && db'.wallets[v] == db.wallets[v]
    && HoldsOf(db'.holds, v) == HoldsOf(db.holds, v) && EntriesOf(db'.entries, v) == EntriesOf(db.entries, v)
  }

  lemma OtherHolds(holds: map<Id, Hold>, v: Id, gone: set<Id>)
    requires forall i :: i in gone && i in holds ==> holds[i].wallet != v
    ensures HoldsOf(holds - gone, v) == HoldsOf(holds, v)
  {
  }

  lemma ReclaimedElsewhere(db: Tables, w: Id, now: int, v: Id)
    requires v in db.wallets && w in db.wallets && v != w
    ensures SameFor(db, Reclaimed(db, w, now), v)
  {
    OtherHolds(db.holds, v, Expired(db.holds, w, now));
  }

  lemma WithHoldElsewhere(db: Tables, w: Id, id: Id, amount: int, expires: int, v: Id)
    requires v in db.wallets && w in db.wallets && v != w && id !in db.holds
    ensures SameFor(db, WithHold(db, w, id, amount, expires), v)
  {
  }

  lemma ReserveElsewhere(db: Tables, who: Caller, estimate: int, id: Id, now: int, v: Id)
    requires v in db.wallets && v != who.wallet && id !in db.holds
    ensures SameFor(db, ReserveTx(db, who, estimate, id, now).0, v)
  {
    if who.wallet in db.wallets {
      var live := Reclaimed(db, who.wallet, now);
      ReclaimedElsewhere(db, who.wallet, now, v);
      WithHoldElsewhere(live, who.wallet, id, estimate, now + Max(who.ttl, 1), v);
    }
  }

  lemma SettledElsewhere(db: Tables, id: Id, actual: int, v: Id)
    requires id in db.holds && db.holds[id].wallet in db.wallets && v in db.wallets && v != db.holds[id].wallet
    ensures SameFor(db, Settled(db, id, actual), v)
  {
    OtherHolds(db.holds, v, {id});
  }

  lemma CommitElsewhere(db: Tables, who: Caller, id: Id, actual: int, now: int, v: Id)
    requires v in db.wallets && v != who.wallet
    ensures SameFor(db, CommitTx(db, who, id, actual, now).0, v)
  {
    if CommitTx(db, who, id, actual, now).1.Ok? {
      SettledElsewhere(db, id, NonNegative(actual), v);
    }
  }

  lemma ReleaseElsewhere(db: Tables, who: Caller, id: Id, v: Id)
    requires v in db.wallets && v != who.wallet
    ensures SameFor(db, ReleaseTx(db, who, id).0, v)
  {
    if ReleaseTx(db, who, id).1.Ok? {
      SettledElsewhere(db, id, 0, v);
    }
  }

  lemma FundedElsewhere(db: Tables, w: Id, key: Id, amount: int, v: Id)
    requires w in db.wallets && v in db.wallets && v != w
    ensures SameFor(db, Funded(db, w, key, amount), v)
  {
  }

  lemma CreditElsewhere(db: Tables, w: Id, amount: int, key: Id, v: Id)
    requires v in db.wallets && v != w
    ensures SameFor(db, CreditTx(db, w, amount, key).0, v)
  {
    if w in db.wallets {
      FundedElsewhere(db, w, key, amount, v);
    }
  }

  lemma OpenElsewhere(db: Tables, w: Id, tenant: Id, user: Id, currency: Id, amount: int, key: Id, v: Id)
    requires v in db.wallets && v != w
    ensures SameFor(db, OpenTx(db, w, tenant, user, currency, amount, key).0, v)
  {
    FundedElsewhere(db.(wallets := db.wallets[w := Account(tenant, user, currency, 0, 0, Active)]), w, key, amount, v);
  }

  /** A transaction leaves every wallet but its own as it was. */
  lemma OthersUntouched(db: Tables, op: Op, v: Id)
    requires v in db.wallets && v != Subject(op) && Unused(op, db.holds)
    ensures SameFor(db, Attempt(db, op).0, v)
  {
    match op
    case Reserve(who, estimate, id, now) => ReserveElsewhere(db, who, estimate, id, now, v);
    case Commit(who, id, actual, now) => CommitElsewhere(db, who, id, actual, now, v);
    case Release(who, id) => ReleaseElsewhere(db, who, id, v);
    case Credit(w, amount, key) => CreditElsewhere(db, w, amount, key, v);
    case Open(w, tenant, user, currency, amount, key) => OpenElsewhere(db, w, tenant, user, currency, amount, key, v);
    case _ =>
  }

  lemma OnlyItsHold(db: Tables, op: Op, id: Id)
    requires id !in db.holds && (op.Reserve? ==> op.id != id)
    ensures id !in Attempt(db, op).0.holds
  {
  }

  lemma OwnStepKept(w: World, a: Action, w': World)
    requires Inv(w) && Can(w, a) && !a.Alone? && w' == Do(w, a) && a.t in w'.txs
    ensures TxOk(w', a.t, w'.txs[a.t])
  {
    if a.t in w.txs {
      assert TxOk(w, a.t, w.txs[a.t]);
    }
  }

  lemma OtherStepKept(w: World, a: Action, w': World, t: Tid)
    requires Inv(w) && Can(w, a) && w' == Do(w, a) && t in w.txs && (!a.Alone? ==> a.t != t)
    ensures t in w'.txs && w'.txs[t] == w.txs[t] && TxOk(w', t, w'.txs[t])
  {
    assert TxOk(w, t, w.txs[t]);
    if a.Finish? {
      assert TxOk(w, a.t, w.txs[a.t]);
      FinishKept(w, a.t, w', t);
    } else if a.Alone? {
      AloneKept(w, a.op, w', t);
    }
  }

  lemma FinishKept(w: World, u: Tid, w': World, t: Tid)
    requires Inv(w) && Can(w, Finish(u)) && w' == Do(w, Finish(u)) && t in w.txs && t != u
    ensures t in w'.txs && w'.txs[t] == w.txs[t] && TxOk(w', t, w'.txs[t])
  {
    assert TxOk(w, t, w.txs[t]);
    assert TxOk(w, u, w.txs[u]);
    WrittenIsSerial(w, u);
    var then_, op := Since(w.db, w.txs[u]), w.txs[u].op;
    OthersUntouched(then_, op, Subject(w.txs[t].op));
    if w.txs[t].op.Reserve? {
      OnlyItsHold(then_, op, w.txs[t].op.id);
    }
  }

  lemma AloneKept(w: World, op: Op, w': World, t: Tid)
    requires Inv(w) && Can(w, Alone(op)) && w' == Do(w, Alone(op)) && t in w.txs
    ensures t in w'.txs && w'.txs[t] == w.txs[t] && TxOk(w', t, w'.txs[t])
  {
    assert TxOk(w, t, w.txs[t]);
    OthersUntouched(w.db, op, Subject(w.txs[t].op));
    if w.txs[t].op.Reserve? {
      OnlyItsHold(w.db, op, w.txs[t].op.id);
    }
  }

  lemma InvKept(w: World, a: Action, w': World)
    requires Inv(w) && Can(w, a) && w' == Do(w, a)
    ensures Inv(w')
  {
    forall t | t in w'.txs ensures TxOk(w', t, w'.txs[t]) {
      if !a.Alone? && a.t == t {
        OwnStepKept(w, a, w');
      } else {
        OtherStepKept(w, a, w', t);
      }
    }
    IdsStayApart(w, a, w');
  }

  lemma IdsStayApart(w: World, a: Action, w': World)
    requires Inv(w) && Can(w, a) && w' == Do(w, a)
    ensures forall t, u :: t in w'.txs && u in w'.txs && t != u && w'.txs[t].op.Reserve? && w'.txs[u].op.Reserve? ==>
              w'.txs[t].op.id != w'.txs[u].op.id
  {
    forall t, u | t in w'.txs && u in w'.txs && t != u && w'.txs[t].op.Reserve? && w'.txs[u].op.Reserve?
      ensures w'.txs[t].op.id != w'.txs[u].op.id
    {
      OpStays(w, a, w', t);
      OpStays(w, a, w', u);
    }
  }

  lemma OpStays(w: World, a: Action, w': World, t: Tid)
    requires Can(w, a) && w' == Do(w, a) && t in w'.txs
    ensures if a.Lock? && a.t == t then t !in w.txs && w'.txs[t].op == a.op
            else t in w.txs && w'.txs[t].op == w.txs[t].op
  {
  }

  /** The same as if nothing were interleaved: a commit is its transaction with
      the owners' status set back to what it saw. */
  ghost function SerialAt(w: World, a: Action): seq<Event> {
    match a
    case Finish(t) =>
      if t !in w.txs then []
      else [Event(SetOwners(w.txs[t].tenants, w.txs[t].users), Delivered), Event(w.txs[t].op, Delivered),
            Event(SetOwners(w.db.activeTenants, w.db.activeUsers), Delivered)]
    case Alone(op) => [Event(op, Delivered)]
    case _ => []
  }

  ghost function Serial(w: World, acts: seq<Action>): seq<Event>
    decreases |acts|
  {
    if acts == [] || !Can(w, acts[0]) then [] else SerialAt(w, acts[0]) + Serial(Do(w, acts[0]), acts[1..])
  }

  ghost predicate Trace(w: World, acts: seq<Action>, w': World)
    decreases |acts|
  {
    if acts == [] then w == w' else Can(w, acts[0]) && Trace(Do(w, acts[0]), acts[1..], w')
  }

  lemma {:induction false} RunConcat(db: Tables, a: seq<Event>, b: seq<Event>)
    ensures Run(db, a + b) == Run(Run(db, a), b)
    decreases |a|
  {
    if a == [] {
      assert a + b == b;
    } else {
      RunConcat(Apply(db, a[0].op, a[0].fate).0, a[1..], b);
      assert (a + b)[0] == a[0] && (a + b)[1..] == a[1..] + b;
    }
  }

  lemma StepIsSerial(w: World, a: Action, w': World)
    requires Inv(w) && Can(w, a) && w' == Do(w, a)
    ensures w'.db == Run(w.db, SerialAt(w, a))
  {
    if a.Finish? {
      WrittenIsSerial(w, a.t);
      RunOfThree(w.db, w.txs[a.t], SerialAt(w, a));
    } else if a.Alone? {
      assert SerialAt(w, a)[1..] == [];
    }
  }

  lemma RunOfThree(db: Tables, tx: Tx, events: seq<Event>)
    requires events == [Event(SetOwners(tx.tenants, tx.users), Delivered), Event(tx.op, Delivered),
                        Event(SetOwners(db.activeTenants, db.activeUsers), Delivered)]
    requires Locking(tx.op)
    ensures Run(db, events)
         == Attempt(Since(db, tx), tx.op).0.(activeTenants := db.activeTenants, activeUsers := db.activeUsers)
  {
    var after := Attempt(Since(db, tx), tx.op).0;
    assert Run(db, events) == Run(Since(db, tx), events[1..]);
    assert events[1..][0] == Event(tx.op, Delivered);
    assert Run(Since(db, tx), events[1..]) == Run(after, events[1..][1..]);
    assert events[1..][1..][1..] == [];
    assert Run(after, events[1..][1..]) == after.(activeTenants := db.activeTenants, activeUsers := db.activeUsers);
  }

  /** Serialisability: whatever is interleaved, delayed or aborted, the tables
      are those of a run of whole transactions one after another. So everything
      that holds over all such runs holds over all interleavings. */
  lemma {:induction false} InterleavingsAreRuns(w: World, acts: seq<Action>, w': World)
    requires Inv(w) && Trace(w, acts, w')
    ensures Inv(w') && w'.db == Run(w.db, Serial(w, acts))
    decreases |acts|
  {
    if acts == [] {
    } else {
      var next := Do(w, acts[0]);
      InvKept(w, acts[0], next);
      StepIsSerial(w, acts[0], next);
      InterleavingsAreRuns(next, acts[1..], w');
      RunConcat(w.db, SerialAt(w, acts[0]), Serial(next, acts[1..]));
    }
  }

  /** With one lock each there is no deadlock: from any state all transactions
      in progress can commit, none of them aborted and no other one begun. */
  lemma {:induction false} NeverDeadlocks(w: World) returns (acts: seq<Action>, w': World)
    ensures Trace(w, acts, w') && w'.txs == map[]
    ensures forall a :: a in acts ==> a.ReadHolds? || a.ReadEntries? || a.Finish?
    decreases w.txs.Keys
  {
    if w.txs == map[] {
      acts, w' := [], w;
    } else {
      var t :| t in w.txs;
      var w1 := Do(w, ReadHolds(t));
      var w2 := Do(w1, ReadEntries(t));
      var w3 := Do(w2, Finish(t));
      assert t !in w3.txs.Keys && w3.txs.Keys < w.txs.Keys;
      var rest;
      rest, w' := NeverDeadlocks(w3);
      Before(w2, Finish(t), w3, rest, w');
      Before(w1, ReadEntries(t), w2, [Finish(t)] + rest, w');
      acts := [ReadEntries(t)] + ([Finish(t)] + rest);
      Before(w, ReadHolds(t), w1, acts, w');
      acts := [ReadHolds(t)] + acts;
    }
  }

  lemma Before(w: World, a: Action, next: World, acts: seq<Action>, w': World)
    requires Can(w, a) && next == Do(w, a) && Trace(next, acts, w')
    ensures Trace(w, [a] + acts, w')
  {
    assert ([a] + acts)[0] == a && ([a] + acts)[1..] == acts;
  }

  /** And every whole transaction on a wallet is one of them: run alone, read
      after read, it leaves exactly what it is specified to leave. */
  lemma AloneIsAttempt(db: Tables, op: Op) returns (acts: seq<Action>, w': World)
    requires Locking(op) && Subject(op) in db.wallets && Unused(op, db.holds)
    ensures Trace(World(db, map[], map[]), acts, w') && w' == World(Attempt(db, op).0, map[], map[])
  {
    var w := World(db, map[], map[]);
    var w1 := Do(w, Lock(0, op));
    var w2 := Do(w1, ReadHolds(0));
    var w3 := Do(w2, ReadEntries(0));
    w' := Do(w3, Finish(0));
    AttemptIsLocal(db, op);
    assert View(w3.txs[0]) == Part(db, Subject(op));
    assert w'.owner == map[] && w'.txs == map[];
    Before(w3, Finish(0), w', [], w');
    Before(w2, ReadEntries(0), w3, [Finish(0)] + [], w');
    acts := [ReadEntries(0)] + ([Finish(0)] + []);
    Before(w1, ReadHolds(0), w2, acts, w');
    acts := [ReadHolds(0)] + acts;
    Before(w, Lock(0, op), w1, acts, w');
    acts := [Lock(0, op)] + acts;
  }

  /** In particular no interleaving overdraws a wallet, loses a hold or an entry,
      or lets a balance differ from its credits less its debits. */
  lemma {:induction false} InterleavedNeverOverdrawn(db: Tables, acts: seq<Action>, w': World, wallet: Id)
    requires Wallet.Inv(db) && Trace(World(db, map[], map[]), acts, w')
    ensures Wallet.Inv(w'.db)
    ensures wallet in db.wallets ==>
              && wallet in w'.db.wallets
              && Path(Abs(db, wallet), StepsIn(db, Serial(World(db, map[], map[]), acts), wallet),
                      Abs(w'.db, wallet), true)
  {
    var w := World(db, map[], map[]);
    InterleavingsAreRuns(w, acts, w');
    RunRefines(db, Serial(w, acts), wallet);
  }
}
