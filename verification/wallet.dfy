/** Prepaid wallets in PostgreSQL: wallet rows, hold rows, append-only entries,
    and the transactions that move them, one whole transaction at a time. Each
    may fail, and a failed commit may have been applied all the same. */
module Wallet {
  import opened Costs
  import opened Int64
  import opened Sums
  import opened Budgets
  import opened Transactions
  import Leases

  /** Identifiers are opaque; Blank stands for NULL and for text that is all spaces. */
  datatype Id = Blank | Id(n: nat)

  datatype Key = Key(wallet: Id, name: Id)      // UNIQUE (wallet_id, idempotency_key)
  datatype User = User(tenant: Id, name: Id)

  datatype Status = Active | Suspended | Closed

  datatype Account = Account(tenant: Id, user: Id, currency: Id,
                             balance: int, reserved: int, status: Status)

  datatype Hold = Hold(wallet: Id, amount: int, expires: int)

  datatype Entry = Entry(credit: bool, amount: int)

  datatype Tables = Tables(
    wallets: map<Id, Account>,
    holds: map<Id, Hold>,
    entries: map<Key, Entry>,
    activeTenants: set<Id>,
    activeUsers: set<User>)

  /** The identity, currency and lease time a ledger is configured with. */
  datatype Caller = Caller(tenant: Id, user: Id, wallet: Id, currency: Id, ttl: int)

  datatype Op =
    | Reserve(who: Caller, estimate: int, id: Id, now: int)
    | Commit(who: Caller, id: Id, actual: int, now: int)
    | Release(who: Caller, id: Id)
    | Credit(wallet: Id, amount: int, key: Id)
    | Open(wallet: Id, tenant: Id, user: Id, currency: Id, amount: int, key: Id)
    | SetStatus(wallet: Id, status: Status)
    | SetOwners(tenants: set<Id>, users: set<User>)

  // ---- what the tables hold ------------------------------------------------

  function Amounts(holds: map<Id, Hold>, w: Id): map<Id, int> {
    map i | i in holds && holds[i].wallet == w :: holds[i].amount
  }

  ghost function Booked(entries: map<Key, Entry>, w: Id, credit: bool): map<Key, int> {
    map k | k in entries && k.wallet == w && entries[k].credit == credit :: entries[k].amount
  }

  ghost function Credits(db: Tables, w: Id): int {
    Sum(Booked(db.entries, w, true))
  }

  ghost function Debits(db: Tables, w: Id): int {
    Sum(Booked(db.entries, w, false))
  }

  function Expired(holds: map<Id, Hold>, w: Id, now: int): set<Id> {
    set i | i in holds && holds[i].wallet == w && holds[i].expires <= now
  }

  ghost predicate WalletOk(db: Tables, w: Id)
    requires w in db.wallets
  {
    && 0 <= db.wallets[w].reserved == Sum(Amounts(db.holds, w)) <= db.wallets[w].balance <= MAX
    && db.wallets[w].balance == Credits(db, w) - Debits(db, w)
  }

  ghost predicate HoldRows(holds: map<Id, Hold>, wallets: set<Id>) {
    forall i :: i in holds ==> holds[i].wallet in wallets && 0 <= holds[i].amount
  }

  ghost predicate EntryRows(entries: map<Key, Entry>, wallets: set<Id>) {
    forall k :: k in entries ==> k.wallet in wallets && 0 < entries[k].amount
  }

  ghost predicate Balanced(db: Tables) {
    forall w :: w in db.wallets ==> WalletOk(db, w)
  }

  /** For every wallet: reserved is the sum of its hold rows, 0 <= reserved <=
      balance in an int64, and balance is exactly credits minus debits. */
  ghost predicate Inv(db: Tables) {
    Balanced(db) && HoldRows(db.holds, db.wallets.Keys) && EntryRows(db.entries, db.wallets.Keys)
  }

  // ---- transactions ----------------------------------------------------------

  predicate Known(db: Tables, who: Caller) {
    && who.wallet in db.wallets
    && var a := db.wallets[who.wallet]; a.tenant == who.tenant && a.user == who.user && a.currency == who.currency
  }

  /** The wallet, its tenant and its user are all active. */
  predicate Entitled(db: Tables, who: Caller) {
    && Known(db, who) && db.wallets[who.wallet].status == Active
    && who.tenant in db.activeTenants && User(who.tenant, who.user) in db.activeUsers
  }

  function SetMoney(db: Tables, w: Id, balance: int, reserved: int): Tables
    requires w in db.wallets
  {
    db.(wallets := db.wallets[w := db.wallets[w].(balance := balance, reserved := reserved)])
  }

  ghost function Reclaimed(db: Tables, w: Id, now: int): Tables
    requires w in db.wallets
  {
    var a := db.wallets[w];
    SetMoney(db, w, a.balance, a.reserved - Sum(Restrict(Amounts(db.holds, w), Expired(db.holds, w, now))))
    .(holds := db.holds - Expired(db.holds, w, now))
  }

  function WithHold(db: Tables, w: Id, id: Id, amount: int, expires: int): Tables
    requires w in db.wallets
  {
    SetMoney(db, w, db.wallets[w].balance, db.wallets[w].reserved + amount)
    .(holds := db.holds[id := Hold(w, amount, expires)])
  }

  /** Remove a hold, charging `actual` for it. */
  function Settled(db: Tables, id: Id, actual: int): Tables
    requires id in db.holds && db.holds[id].wallet in db.wallets
  {
    var h := db.holds[id];
    var a := db.wallets[h.wallet];
    var paid := SetMoney(db, h.wallet, a.balance - actual, a.reserved - h.amount).(holds := db.holds - {id});
    if actual > 0 then paid.(entries := db.entries[Key(h.wallet, id) := Entry(false, actual)]) else paid
  }

  function Funded(db: Tables, w: Id, key: Id, amount: int): Tables
    requires w in db.wallets
  {
    var a := db.wallets[w];
    SetMoney(db, w, a.balance + amount, a.reserved).(entries := db.entries[Key(w, key) := Entry(true, amount)])
  }

  predicate Taken(db: Tables, tenant: Id, user: Id, currency: Id) {
    exists w :: w in db.wallets && db.wallets[w].tenant == tenant && db.wallets[w].user == user
                && db.wallets[w].currency == currency
  }

  // What each transaction leaves behind and reports if it commits; a refusal or
  // a missing hold rolls back.

  ghost function ReserveTx(db: Tables, who: Caller, estimate: int, id: Id, now: int): (Tables, Verdict) {
    if !ValidEstimate(estimate) || !Entitled(db, who) then (db, Refused)
    else
      var live := Reclaimed(db, who.wallet, now);
      var a := live.wallets[who.wallet];
      if estimate > a.balance - a.reserved then (live, Exceeded)
      else if id in live.holds then (db, Refused)
      else (WithHold(live, who.wallet, id, estimate, now + Max(who.ttl, 1)), Ok)
  }

  function CommitTx(db: Tables, who: Caller, id: Id, actual: int, now: int): (Tables, Verdict) {
    if Entitled(db, who) then SettleTx(db, who.wallet, id, NonNegative(actual), now) else (db, Refused)
  }

  function SettleTx(db: Tables, w: Id, id: Id, charge: int, now: int): (Tables, Verdict)
    requires w in db.wallets
  {
    if id !in db.holds || db.holds[id].wallet != w || db.holds[id].expires <= now then (db, NotFound)
    else if charge > db.wallets[w].balance - (db.wallets[w].reserved - db.holds[id].amount) then (db, Exceeded)
    else if charge > 0 && Key(w, id) in db.entries then (db, Refused)
    else (Settled(db, id, charge), Ok)
  }

  function ReleaseTx(db: Tables, who: Caller, id: Id): (Tables, Verdict) {
    if !Known(db, who) then (db, Refused)
    else if id !in db.holds || db.holds[id].wallet != who.wallet then (db, NotFound)
    else (Settled(db, id, 0), Ok)
  }

  function CreditTx(db: Tables, w: Id, amount: int, key: Id): (Tables, Verdict) {
    if amount <= 0 || key.Blank? || w !in db.wallets then (db, Refused)
    else if Key(w, key) in db.entries then (db, if db.entries[Key(w, key)] == Entry(true, amount) then Ok else Refused)
    else if db.wallets[w].balance + amount > MAX then (db, Refused)
    else (Funded(db, w, key, amount), Ok)
  }

  function OpenTx(db: Tables, w: Id, tenant: Id, user: Id, currency: Id, amount: int, key: Id): (Tables, Verdict) {
    if Taken(db, tenant, user, currency) then (db, Ok)
    else if w in db.wallets || amount <= 0 || amount > MAX then (db, Refused)
    else (Funded(db.(wallets := db.wallets[w := Account(tenant, user, currency, 0, 0, Active)]), w, key, amount), Ok)
  }

  function SetStatusTx(db: Tables, w: Id, status: Status): (Tables, Verdict) {
    if w in db.wallets then (db.(wallets := db.wallets[w := db.wallets[w].(status := status)]), Ok) else (db, NotFound)
  }

  ghost function Attempt(db: Tables, op: Op): (Tables, Verdict) {
    match op
    case Reserve(who, estimate, id, now) => ReserveTx(db, who, estimate, id, now)
    case Commit(who, id, actual, now) => CommitTx(db, who, id, actual, now)
    case Release(who, id) => ReleaseTx(db, who, id)
    case Credit(w, amount, key) => CreditTx(db, w, amount, key)
    case Open(w, tenant, user, currency, amount, key) => OpenTx(db, w, tenant, user, currency, amount, key)
    case SetStatus(w, status) => SetStatusTx(db, w, status)
    case SetOwners(tenants, users) => (db.(activeTenants := tenants, activeUsers := users), Ok)
  }

  /** The attempt ended without a COMMIT, so there is nothing to be ambiguous about. */
  predicate RollsBack(op: Op, verdict: Verdict) {
    verdict.Refused? || verdict.NotFound? || (op.Commit? && verdict.Exceeded?)
  }

  ghost function Apply(db: Tables, op: Op, fate: Fate): (Tables, Verdict) {
    var (after, verdict) := Attempt(db, op);
    (if fate.Lost? then db else after, Told(verdict, !RollsBack(op, verdict), Refused, fate))
  }

  // ---- every transaction keeps the invariant ---------------------------------

  // Two versions of a table that agree on every wallet but `w`.

  ghost predicate WalletsApart(wallets: map<Id, Account>, wallets': map<Id, Account>, w: Id) {
    wallets - {w} == wallets' - {w} && w in wallets'
  }

  ghost predicate HoldsApart(holds: map<Id, Hold>, holds': map<Id, Hold>, w: Id) {
    forall v :: v != w ==> Amounts(holds', v) == Amounts(holds, v)
  }

  ghost predicate EntriesApart(entries: map<Key, Entry>, entries': map<Key, Entry>, w: Id) {
    forall v, c :: v != w ==> Booked(entries', v, c) == Booked(entries, v, c)
  }

  /** A transaction on wallet `w` leaves every other wallet's row and sums alone. */
  ghost predicate Touches(db: Tables, db': Tables, w: Id) {
    && WalletsApart(db.wallets, db'.wallets, w)
    && HoldsApart(db.holds, db'.holds, w)
    && EntriesApart(db.entries, db'.entries, w)
  }

  lemma OneWalletKeeps(db: Tables, db': Tables, w: Id)
    requires Inv(db) && Touches(db, db', w) && WalletOk(db', w)
    requires HoldRows(db'.holds, db'.wallets.Keys) && EntryRows(db'.entries, db'.wallets.Keys)
    ensures Inv(db')
  {
    forall v | v in db'.wallets ensures WalletOk(db', v) {
      if v != w {
        assert v in db'.wallets - {w};
        assert WalletOk(db, v);
      }
    }
  }

  /** The wallet as a prepaid budget: what was credited is the limit, what was debited is spent. */
  ghost function Abs(db: Tables, w: Id): Budget<Id> {
    Budget(Credits(db, w), Debits(db, w), Amounts(db.holds, w))
  }

  lemma AbsMeans(db: Tables, w: Id)
    requires Inv(db) && w in db.wallets
    ensures Abs(db, w).Valid()
    ensures Abs(db, w).Used() == Credits(db, w) - (db.wallets[w].balance - db.wallets[w].reserved) <= Abs(db, w).limit
  {
    assert WalletOk(db, w);
    SumNonNegative(Booked(db.entries, w, false));
  }

  lemma ReclaimedKeeps(db: Tables, w: Id, now: int)
    requires Inv(db) && w in db.wallets
    ensures Inv(Reclaimed(db, w, now)) && Touches(db, Reclaimed(db, w, now), w)
    ensures Path(Abs(db, w), [Expire(Expired(db.holds, w, now))], Abs(Reclaimed(db, w, now), w), true)
  {
    var live, gone := Reclaimed(db, w, now), Expired(db.holds, w, now);
    ReclaimedTouches(db, w, now, live);
    ReclaimedWalletOk(db, w, now, live) by {
      assert WalletOk(db, w);
    }
    OneWalletKeeps(db, live, w);
    ReclaimedMaps(db.holds, w, now);
    OneStep(Abs(db, w), Expire(gone), true);
  }

  lemma ReclaimedTouches(db: Tables, w: Id, now: int, live: Tables)
    requires w in db.wallets && live == Reclaimed(db, w, now)
    requires HoldRows(db.holds, db.wallets.Keys) && EntryRows(db.entries, db.wallets.Keys)
    ensures Touches(db, live, w)
    ensures HoldRows(live.holds, live.wallets.Keys) && EntryRows(live.entries, live.wallets.Keys)
  {
    ReclaimedMaps(db.holds, w, now);
    assert live.wallets.Keys == db.wallets.Keys;
  }

  lemma ReclaimedWalletOk(db: Tables, w: Id, now: int, live: Tables)
    requires w in db.wallets && live == Reclaimed(db, w, now)
    requires WalletOk(db, w) && HoldRows(db.holds, db.wallets.Keys)
    ensures WalletOk(live, w)
  {
    var gone := Expired(db.holds, w, now);
    ReclaimedMaps(db.holds, w, now);
    SumMinus(Amounts(db.holds, w), gone);
    SumNonNegative(Amounts(live.holds, w));
    SumNonNegative(Restrict(Amounts(db.holds, w), gone));
  }

  lemma ReclaimedMaps(holds: map<Id, Hold>, w: Id, now: int)
    ensures Amounts(holds - Expired(holds, w, now), w) == Amounts(holds, w) - Expired(holds, w, now)
    ensures HoldsApart(holds, holds - Expired(holds, w, now), w)
  {
  }

  lemma WithHoldMaps(holds: map<Id, Hold>, id: Id, h: Hold)
    requires id !in holds
    ensures Amounts(holds[id := h], h.wallet) == Amounts(holds, h.wallet)[id := h.amount]
    ensures HoldsApart(holds, holds[id := h], h.wallet)
  {
  }

  lemma WithHoldKeeps(db: Tables, w: Id, id: Id, amount: int, expires: int)
    requires Inv(db) && w in db.wallets && id !in db.holds
    requires 0 <= amount <= db.wallets[w].balance - db.wallets[w].reserved
    ensures Inv(WithHold(db, w, id, amount, expires)) && Touches(db, WithHold(db, w, id, amount, expires), w)
    ensures Path(Abs(db, w), [Step.Reserve(id, amount)], Abs(WithHold(db, w, id, amount, expires), w), true)
  {
    var db' := WithHold(db, w, id, amount, expires);
    WithHoldTouches(db, w, id, amount, expires, db');
    WithHoldWalletOk(db, w, id, amount, expires, db') by {
      assert WalletOk(db, w);
    }
    OneWalletKeeps(db, db', w);
    WithHoldMaps(db.holds, id, Hold(w, amount, expires));
    AbsMeans(db, w);
    OneStep(Abs(db, w), Step.Reserve(id, amount), true);
  }

  lemma WithHoldTouches(db: Tables, w: Id, id: Id, amount: int, expires: int, db': Tables)
    requires w in db.wallets && id !in db.holds && 0 <= amount && db' == WithHold(db, w, id, amount, expires)
    requires HoldRows(db.holds, db.wallets.Keys) && EntryRows(db.entries, db.wallets.Keys)
    ensures Touches(db, db', w)
    ensures HoldRows(db'.holds, db'.wallets.Keys) && EntryRows(db'.entries, db'.wallets.Keys)
  {
    WithHoldMaps(db.holds, id, Hold(w, amount, expires));
    assert db'.wallets.Keys == db.wallets.Keys;
  }

  lemma WithHoldWalletOk(db: Tables, w: Id, id: Id, amount: int, expires: int, db': Tables)
    requires w in db.wallets && id !in db.holds && db' == WithHold(db, w, id, amount, expires)
    requires WalletOk(db, w) && 0 <= amount <= db.wallets[w].balance - db.wallets[w].reserved
    ensures WalletOk(db', w)
  {
    WithHoldMaps(db.holds, id, Hold(w, amount, expires));
    SumInsert(Amounts(db.holds, w), id, amount);
  }

  lemma DropHoldMaps(holds: map<Id, Hold>, id: Id)
    requires id in holds
    ensures Amounts(holds - {id}, holds[id].wallet) == Amounts(holds, holds[id].wallet) - {id}
    ensures HoldsApart(holds, holds - {id}, holds[id].wallet)
  {
  }

  lemma BookMaps(entries: map<Key, Entry>, k: Key, e: Entry)
    requires k !in entries
    ensures Booked(entries[k := e], k.wallet, e.credit) == Booked(entries, k.wallet, e.credit)[k := e.amount]
    ensures Booked(entries[k := e], k.wallet, !e.credit) == Booked(entries, k.wallet, !e.credit)
    ensures EntriesApart(entries, entries[k := e], k.wallet)
  {
  }

  lemma SettledKeeps(db: Tables, w: Id, id: Id, actual: int, db': Tables)
    requires Inv(db) && id in db.holds && db.holds[id].wallet == w && db' == Settled(db, id, actual)
    requires 0 <= actual <= db.wallets[w].balance - (db.wallets[w].reserved - db.holds[id].amount)
    requires actual > 0 ==> Key(w, id) !in db.entries
    ensures Inv(db') && Touches(db, db', w)
  {
    SettledTouches(db, w, id, actual, db');
    SettledWalletOk(db, w, id, actual, db') by {
      assert WalletOk(db, w);
    }
    SettledRows(db, w, id, actual, db');
    OneWalletKeeps(db, db', w);
  }

  lemma SettledRows(db: Tables, w: Id, id: Id, actual: int, db': Tables)
    requires id in db.holds && db.holds[id].wallet == w && w in db.wallets && db' == Settled(db, id, actual)
    requires HoldRows(db.holds, db.wallets.Keys) && EntryRows(db.entries, db.wallets.Keys)
    ensures HoldRows(db'.holds, db'.wallets.Keys) && EntryRows(db'.entries, db'.wallets.Keys)
  {
    assert db'.wallets.Keys == db.wallets.Keys;
  }

  lemma SettledWalletOk(db: Tables, w: Id, id: Id, actual: int, db': Tables)
    requires id in db.holds && db.holds[id].wallet == w && w in db.wallets && db' == Settled(db, id, actual)
    requires WalletOk(db, w) && HoldRows(db.holds, db.wallets.Keys)
    requires 0 <= actual <= db.wallets[w].balance - (db.wallets[w].reserved - db.holds[id].amount)
    requires actual > 0 ==> Key(w, id) !in db.entries
    ensures WalletOk(db', w)
  {
    SettledSums(db, w, id, actual);
    SumNonNegative(Amounts(db'.holds, w));
  }

  lemma SettledTouches(db: Tables, w: Id, id: Id, actual: int, db': Tables)
    requires id in db.holds && db.holds[id].wallet == w && w in db.wallets && db' == Settled(db, id, actual)
    requires actual > 0 ==> Key(w, id) !in db.entries
    ensures Touches(db, db', w)
  {
    DropHoldMaps(db.holds, id);
    if actual > 0 {
      BookMaps(db.entries, Key(w, id), Entry(false, actual));
    }
  }

  lemma SettledSums(db: Tables, w: Id, id: Id, actual: int)
    requires id in db.holds && db.holds[id].wallet == w && w in db.wallets
    requires 0 <= actual && (actual > 0 ==> Key(w, id) !in db.entries)
    ensures Abs(Settled(db, id, actual), w) == Next(Abs(db, w), Step.Commit(id, actual))
    ensures Sum(Amounts(db.holds, w)) == Sum(Amounts(Settled(db, id, actual).holds, w)) + db.holds[id].amount
  {
    DropHoldMaps(db.holds, id);
    SumRemove(Amounts(db.holds, w), id);
    if actual > 0 {
      BookMaps(db.entries, Key(w, id), Entry(false, actual));
      SumInsert(Booked(db.entries, w, false), Key(w, id), actual);
    }
  }

  lemma SettledRefines(db: Tables, w: Id, id: Id, actual: int)
    requires Inv(db) && id in db.holds && db.holds[id].wallet == w
    requires 0 <= actual <= db.wallets[w].balance - (db.wallets[w].reserved - db.holds[id].amount)
    requires actual > 0 ==> Key(w, id) !in db.entries
    ensures Path(Abs(db, w), [Step.Commit(id, actual)], Abs(Settled(db, id, actual), w), true)
    ensures actual == 0 ==> Path(Abs(db, w), [Step.Release(id)], Abs(Settled(db, id, actual), w), true)
  {
    SettledSums(db, w, id, actual);
    AbsMeans(db, w);
    OneStep(Abs(db, w), Step.Commit(id, actual), true);
    OneStep(Abs(db, w), Step.Release(id), true);
  }

  lemma FundedKeeps(db: Tables, w: Id, key: Id, amount: int, db': Tables)
    requires Inv(db) && w in db.wallets && Key(w, key) !in db.entries && db' == Funded(db, w, key, amount)
    requires 0 < amount && db.wallets[w].balance + amount <= MAX
    ensures Inv(db') && Touches(db, db', w)
  {
    FundedTouches(db, w, key, amount, db');
    FundedWalletOk(db, w, key, amount, db') by {
      assert WalletOk(db, w);
    }
    OneWalletKeeps(db, db', w);
  }

  lemma FundedTouches(db: Tables, w: Id, key: Id, amount: int, db': Tables)
    requires w in db.wallets && Key(w, key) !in db.entries && db' == Funded(db, w, key, amount) && 0 < amount
    requires HoldRows(db.holds, db.wallets.Keys) && EntryRows(db.entries, db.wallets.Keys)
    ensures Touches(db, db', w)
    ensures HoldRows(db'.holds, db'.wallets.Keys) && EntryRows(db'.entries, db'.wallets.Keys)
  {
    BookMaps(db.entries, Key(w, key), Entry(true, amount));
    assert db'.wallets.Keys == db.wallets.Keys;
  }

  lemma FundedWalletOk(db: Tables, w: Id, key: Id, amount: int, db': Tables)
    requires w in db.wallets && Key(w, key) !in db.entries && db' == Funded(db, w, key, amount)
    requires WalletOk(db, w) && 0 < amount && db.wallets[w].balance + amount <= MAX
    ensures WalletOk(db', w)
  {
    FundedSums(db, w, key, amount, db');
  }

  lemma FundedSums(db: Tables, w: Id, key: Id, amount: int, db': Tables)
    requires w in db.wallets && Key(w, key) !in db.entries && db' == Funded(db, w, key, amount)
    ensures Abs(db', w) == Next(Abs(db, w), SetLimit(Credits(db, w) + amount))
  {
    BookMaps(db.entries, Key(w, key), Entry(true, amount));
    SumInsert(Booked(db.entries, w, true), Key(w, key), amount);
  }

  lemma FundedRefines(db: Tables, w: Id, key: Id, amount: int, db': Tables)
    requires Inv(db) && w in db.wallets && Key(w, key) !in db.entries && db' == Funded(db, w, key, amount) && 0 < amount
    ensures Path(Abs(db, w), [SetLimit(Credits(db, w) + amount)], Abs(db', w), true)
  {
    FundedSums(db, w, key, amount, db');
    AbsMeans(db, w);
    OneStep(Abs(db, w), SetLimit(Credits(db, w) + amount), true);
  }

  lemma FreshWallet(db: Tables, w: Id, a: Account)
    requires Inv(db) && w !in db.wallets && a.balance == 0 && a.reserved == 0
    ensures Inv(db.(wallets := db.wallets[w := a])) && Touches(db, db.(wallets := db.wallets[w := a]), w)
  {
    var db' := db.(wallets := db.wallets[w := a]);
    UnusedWallet(db, w);
    assert Touches(db, db', w);
    OneWalletKeeps(db, db', w);
  }

  lemma UnusedWallet(db: Tables, w: Id)
    requires w !in db.wallets && HoldRows(db.holds, db.wallets.Keys) && EntryRows(db.entries, db.wallets.Keys)
    ensures Sum(Amounts(db.holds, w)) == 0 && Credits(db, w) == 0 && Debits(db, w) == 0
  {
    assert Amounts(db.holds, w) == map[]
        && Booked(db.entries, w, true) == map[] && Booked(db.entries, w, false) == map[];
  }

  /** The wallet an operation is about. */
  function Subject(op: Op): Id {
    match op
    case Reserve(who, _, _, _) => who.wallet
    case Commit(who, _, _, _) => who.wallet
    case Release(who, _) => who.wallet
    case Credit(w, _, _) => w
    case Open(w, _, _, _, _, _) => w
    case SetStatus(w, _) => w
    case SetOwners(_, _) => Blank
  }

  ghost function ReserveSteps(db: Tables, who: Caller, estimate: int, id: Id, now: int): seq<Step<Id>> {
    if ReserveTx(db, who, estimate, id, now).1.Ok?
    then [Expire(Expired(db.holds, who.wallet, now)), Step.Reserve(id, estimate)]
    else [Expire(Expired(db.holds, who.wallet, now))]
  }

  /** The steps of the subject's prepaid budget that an operation's effect
      amounts to: reclaiming expired holds, then at most one step more. */
  ghost function Visible(db: Tables, op: Op): seq<Step<Id>> {
    match op
    case Reserve(who, estimate, id, now) => ReserveSteps(db, who, estimate, id, now)
    case Commit(_, id, actual, _) => [Step.Commit(id, NonNegative(actual))]
    case Release(_, id) => [Step.Release(id)]
    case Credit(w, amount, _) => [SetLimit(Credits(db, w) + amount)]
    case _ => []
  }

  lemma GrantRefines(db: Tables, w: Id, estimate: int, id: Id, now: int, expires: int)
    requires Inv(db) && w in db.wallets
    requires var live := Reclaimed(db, w, now);
             id !in live.holds && 0 <= estimate <= live.wallets[w].balance - live.wallets[w].reserved
    ensures var after := WithHold(Reclaimed(db, w, now), w, id, estimate, expires);
            && Inv(after) && Touches(db, after, w)
            && Path(Abs(db, w), [Expire(Expired(db.holds, w, now)), Step.Reserve(id, estimate)], Abs(after, w), true)
  {
    var live := Reclaimed(db, w, now);
    var after := WithHold(live, w, id, estimate, expires);
    ReclaimedKeeps(db, w, now);
    WithHoldKeeps(live, w, id, estimate, expires);
    TouchesTwice(db, live, after, w);
    var expire, reserve := [Expire(Expired(db.holds, w, now))], [Step.Reserve(id, estimate)];
    PathConcat(Abs(db, w), expire, Abs(live, w), reserve, Abs(after, w), true);
    assert expire + reserve == [Expire(Expired(db.holds, w, now)), Step.Reserve(id, estimate)];
  }

  /** A Reserve either changes nothing, or only reclaims, or reclaims and holds. */
  lemma ReserveCases(db: Tables, who: Caller, estimate: int, id: Id, now: int)
    requires Inv(db)
    ensures var (after, verdict) := ReserveTx(db, who, estimate, id, now);
            if !verdict.Ok? && !verdict.Exceeded? then after == db
            else
              && who.wallet in db.wallets
              && var w, live := who.wallet, Reclaimed(db, who.wallet, now);
                 if verdict.Ok?
                 then && after == WithHold(live, w, id, estimate, now + Max(who.ttl, 1))
                      && id !in live.holds && 0 <= estimate <= live.wallets[w].balance - live.wallets[w].reserved
                 else after == live
  {
  }

  lemma TouchesTwice(db0: Tables, db1: Tables, db2: Tables, w: Id)
    requires Touches(db0, db1, w) && Touches(db1, db2, w)
    ensures Touches(db0, db2, w)
  {
  }

  /** `after` follows from `db` by `steps` of the prepaid budget of wallet `w`, and touches no other wallet. */
  ghost predicate Moves(db: Tables, after: Tables, w: Id, steps: seq<Step<Id>>) {
    && Inv(after) && Touches(db, after, w)
    && (w in db.wallets ==> Path(Abs(db, w), steps, Abs(after, w), true))
  }

  lemma StatusRefines(db: Tables, op: Op, w: Id)
    requires Inv(db) && (op.SetStatus? || op.SetOwners?)
    ensures Inv(Attempt(db, op).0)
    ensures w in db.wallets ==> w in Attempt(db, op).0.wallets && Abs(Attempt(db, op).0, w) == Abs(db, w)
  {
    var after := Attempt(db, op).0;
    forall v | v in after.wallets ensures WalletOk(after, v) {
      assert WalletOk(db, v);
    }
  }

  // A transaction either changes nothing or moves its own wallet.

  lemma ReserveMoves(db: Tables, op: Op, after: Tables, w: Id, steps: seq<Step<Id>>)
    requires Inv(db) && op.Reserve? && after == Attempt(db, op).0 && w == Subject(op) && steps == Visible(db, op)
    ensures after == db || Moves(db, after, w, steps)
  {
    var Reserve(who, estimate, id, now) := op;
    ReserveCases(db, who, estimate, id, now);
    if Attempt(db, op).1.Ok? {
      GrantMoves(db, w, estimate, id, now, now + Max(who.ttl, 1), after, steps);
    } else if Attempt(db, op).1.Exceeded? {
      ReclaimMoves(db, w, now, after, steps);
    }
  }

  lemma GrantMoves(db: Tables, w: Id, estimate: int, id: Id, now: int, expires: int,
                   after: Tables, steps: seq<Step<Id>>)
    requires Inv(db) && w in db.wallets && steps == [Expire(Expired(db.holds, w, now)), Step.Reserve(id, estimate)]
    requires var live := Reclaimed(db, w, now);
             && id !in live.holds && 0 <= estimate <= live.wallets[w].balance - live.wallets[w].reserved
             && after == WithHold(live, w, id, estimate, expires)
    ensures Moves(db, after, w, steps)
  {
    GrantRefines(db, w, estimate, id, now, expires);
  }

  lemma ReclaimMoves(db: Tables, w: Id, now: int, after: Tables, steps: seq<Step<Id>>)
    requires Inv(db) && w in db.wallets && after == Reclaimed(db, w, now)
    requires steps == [Expire(Expired(db.holds, w, now))]
    ensures Moves(db, after, w, steps)
  {
    ReclaimedKeeps(db, w, now);
  }

  lemma CommitMoves(db: Tables, op: Op, after: Tables, w: Id, steps: seq<Step<Id>>)
    requires Inv(db) && op.Commit? && after == Attempt(db, op).0 && w == Subject(op) && steps == Visible(db, op)
    ensures after == db || Moves(db, after, w, steps)
  {
    if Attempt(db, op).1.Ok? {
      SettledKeeps(db, w, op.id, NonNegative(op.actual), after);
      SettledRefines(db, w, op.id, NonNegative(op.actual));
    }
  }

  lemma ReleaseMoves(db: Tables, op: Op, after: Tables, w: Id, steps: seq<Step<Id>>)
    requires Inv(db) && op.Release? && after == Attempt(db, op).0 && w == Subject(op) && steps == Visible(db, op)
    ensures after == db || Moves(db, after, w, steps)
  {
    if Attempt(db, op).1.Ok? {
      assert WalletOk(db, w);
      SettledKeeps(db, w, op.id, 0, after);
      SettledRefines(db, w, op.id, 0);
    }
  }

  lemma CreditMoves(db: Tables, op: Op, after: Tables, w: Id, steps: seq<Step<Id>>)
    requires op.Credit? && after == Attempt(db, op).0 && w == Subject(op) && steps == Visible(db, op)
    ensures Inv(db) ==> after == db || Moves(db, after, w, steps)
  {
    CreditTxMoves(db, op.wallet, op.amount, op.key, after, steps);
  }

  lemma CreditTxMoves(db: Tables, w: Id, amount: int, key: Id, after: Tables, steps: seq<Step<Id>>)
    requires after == CreditTx(db, w, amount, key).0 && steps == [SetLimit(Credits(db, w) + amount)]
    ensures Inv(db) ==> after == db || Moves(db, after, w, steps)
  {
    CreditCases(db, w, amount, key, after);
    if Inv(db) && after != db {
      FundedMoves(db, w, key, amount, after, steps);
    }
  }

  /** A credit either changes nothing or funds the wallet under a new key. */
  lemma CreditCases(db: Tables, w: Id, amount: int, key: Id, after: Tables)
    requires after == CreditTx(db, w, amount, key).0
    ensures after == db
         || (&& w in db.wallets && Key(w, key) !in db.entries && after == Funded(db, w, key, amount)
             && 0 < amount && db.wallets[w].balance + amount <= MAX)
  {
  }

  lemma FundedMoves(db: Tables, w: Id, key: Id, amount: int, after: Tables, steps: seq<Step<Id>>)
    requires Inv(db) && w in db.wallets && Key(w, key) !in db.entries && after == Funded(db, w, key, amount)
    requires 0 < amount && db.wallets[w].balance + amount <= MAX && steps == [SetLimit(Credits(db, w) + amount)]
    ensures Moves(db, after, w, steps)
  {
    FundedKeeps(db, w, key, amount, after);
    FundedRefines(db, w, key, amount, after);
  }

  lemma OpenMoves(db: Tables, op: Op, after: Tables, w: Id, steps: seq<Step<Id>>)
    requires Inv(db) && op.Open? && after == Attempt(db, op).0 && w == Subject(op) && steps == Visible(db, op)
    ensures after == db || Moves(db, after, w, steps)
  {
    if Attempt(db, op).1.Ok? && !Taken(db, op.tenant, op.user, op.currency) {
      var empty := db.(wallets := db.wallets[w := Account(op.tenant, op.user, op.currency, 0, 0, Active)]);
      FreshWallet(db, w, Account(op.tenant, op.user, op.currency, 0, 0, Active));
      FundedKeeps(empty, w, op.key, op.amount, after);
      TouchesTwice(db, empty, after, w);
    }
  }

  lemma AttemptMoves(db: Tables, op: Op, after: Tables, w: Id, steps: seq<Step<Id>>)
    requires Inv(db) && after == Attempt(db, op).0 && !op.SetStatus? && !op.SetOwners?
    requires w == Subject(op) && steps == Visible(db, op)
    ensures after == db || Moves(db, after, w, steps)
  {
    match op
    case Reserve(_, _, _, _) => ReserveMoves(db, op, after, w, steps);
    case Commit(_, _, _, _) => CommitMoves(db, op, after, w, steps);
    case Release(_, _) => ReleaseMoves(db, op, after, w, steps);
    case Credit(_, _, _) => CreditMoves(db, op, after, w, steps);
    case Open(_, _, _, _, _, _) => OpenMoves(db, op, after, w, steps);
  }

  lemma OthersKept(db: Tables, after: Tables, s: Id, w: Id)
    requires Touches(db, after, s)
    ensures w in db.wallets ==> w in after.wallets && (w != s ==> Abs(after, w) == Abs(db, w))
  {
    assert w in db.wallets && w != s ==> w in db.wallets - {s};
  }

  /** Every transaction that commits keeps the invariant and is, for its own
      wallet, steps of a prepaid budget; for every other wallet it is nothing. */
  lemma AttemptRefines(db: Tables, op: Op, w: Id, after: Tables)
    requires Inv(db) && after == Attempt(db, op).0
    ensures Inv(after)
    ensures w in db.wallets ==>
              && w in after.wallets
              && Path(Abs(db, w), if after != db && Subject(op) == w then Visible(db, op) else [], Abs(after, w), true)
  {
    if after != db {
      if op.SetStatus? || op.SetOwners? {
        StatusRefines(db, op, w);
      } else {
        AttemptMoves(db, op, after, Subject(op), Visible(db, op));
        OthersKept(db, after, Subject(op), w);
      }
    }
  }

  // ---- whole runs ------------------------------------------------------------

  datatype Event = Event(op: Op, fate: Fate)

  ghost function Run(db: Tables, events: seq<Event>): Tables
    decreases |events|
  {
    if events == [] then db else Run(Apply(db, events[0].op, events[0].fate).0, events[1..])
  }

  /** What one event is for wallet `w`: nothing, or the steps its operation amounts to. */
  ghost function StepsAt(db: Tables, event: Event, w: Id): seq<Step<Id>> {
    if Apply(db, event.op, event.fate).0 != db && Subject(event.op) == w then Visible(db, event.op) else []
  }

  ghost function StepsIn(db: Tables, events: seq<Event>, w: Id): seq<Step<Id>>
    decreases |events|
  {
    if events == [] then []
    else StepsAt(db, events[0], w) + StepsIn(Apply(db, events[0].op, events[0].fate).0, events[1..], w)
  }

  /** Over any run of any transactions by anyone, with any failures, a wallet
      goes through a run of the prepaid budget: it is never overdrawn, its
      reserved amount is always its hold rows, its balance always credits minus debits. */
  lemma {:induction false} RunRefines(db: Tables, events: seq<Event>, w: Id)
    requires Inv(db)
    ensures Inv(Run(db, events))
    ensures w in db.wallets ==>
              && w in Run(db, events).wallets
              && Path(Abs(db, w), StepsIn(db, events, w), Abs(Run(db, events), w), true)
    decreases |events|
  {
    if events == [] {
    } else {
      var next := Apply(db, events[0].op, events[0].fate).0;
      ApplyRefines(db, events[0], w, next);
      RunRefines(next, events[1..], w);
      if w in db.wallets {
        PathConcat(Abs(db, w), StepsAt(db, events[0], w), Abs(next, w), StepsIn(next, events[1..], w),
                   Abs(Run(db, events), w), true);
      }
    }
  }

  lemma ApplyRefines(db: Tables, event: Event, w: Id, next: Tables)
    requires Inv(db) && next == Apply(db, event.op, event.fate).0
    ensures Inv(next)
    ensures w in db.wallets ==> w in next.wallets && Path(Abs(db, w), StepsAt(db, event, w), Abs(next, w), true)
  {
    if !event.fate.Lost? {
      AttemptRefines(db, event.op, w, next);
    }
  }

  /** So a database that starts empty keeps the invariant whatever happens to it. */
  lemma FromEmptyTables(tenants: set<Id>, users: set<User>, events: seq<Event>)
    ensures Inv(Run(Tables(map[], map[], map[], tenants, users), events))
  {
    RunRefines(Tables(map[], map[], map[], tenants, users), events, Blank);
  }

  predicate SameOwner(a: Account, a': Account) {
    a'.tenant == a.tenant && a'.user == a.user && a'.currency == a.currency
  }

  lemma OwnerKept(db: Tables, op: Op, w: Id, after: Tables)
    requires w in db.wallets && after == Attempt(db, op).0
    ensures w in after.wallets && SameOwner(db.wallets[w], after.wallets[w])
  {
  }

  /** A wallet row never disappears and never changes its owner or currency. */
  lemma {:induction false} WalletStays(db: Tables, events: seq<Event>, w: Id, later: Tables)
    requires w in db.wallets && later == Run(db, events)
    ensures w in later.wallets && SameOwner(db.wallets[w], later.wallets[w])
    decreases |events|
  {
    if events == [] {
    } else {
      var next := Apply(db, events[0].op, events[0].fate).0;
      OneEventKeepsOwner(db, events[0], w, next);
      WalletStays(next, events[1..], w, later);
    }
  }

  lemma OneEventKeepsOwner(db: Tables, event: Event, w: Id, next: Tables)
    requires w in db.wallets && next == Apply(db, event.op, event.fate).0
    ensures w in next.wallets && SameOwner(db.wallets[w], next.wallets[w])
  {
    if !event.fate.Lost? {
      OwnerKept(db, event.op, w, next);
    }
  }

  /** Seeding a wallet again, in the same or another call, at any later time,
      changes nothing: a spent balance is never reset. */
  lemma SeedingAgain(db: Tables, seed: Op, events: seq<Event>, again: Op)
    requires seed.Open? && Attempt(db, seed).1.Ok?
    requires again.Open? && again.tenant == seed.tenant && again.user == seed.user && again.currency == seed.currency
    ensures var later := Run(Attempt(db, seed).0, events); Attempt(later, again) == (later, Ok)
  {
    var seeded := Attempt(db, seed).0;
    var later := Run(seeded, events);
    var w := SeededWallet(db, seed, seeded);
    WalletStays(seeded, events, w, later);
  }

  lemma SeededWallet(db: Tables, seed: Op, seeded: Tables) returns (w: Id)
    requires seed.Open? && Attempt(db, seed).1.Ok? && seeded == Attempt(db, seed).0
    ensures w in seeded.wallets
    ensures seeded.wallets[w].tenant == seed.tenant && seeded.wallets[w].user == seed.user
         && seeded.wallets[w].currency == seed.currency
  {
    if Taken(db, seed.tenant, seed.user, seed.currency) {
      w :| w in db.wallets && db.wallets[w].tenant == seed.tenant && db.wallets[w].user == seed.user
           && db.wallets[w].currency == seed.currency;
    } else {
      w := seed.wallet;
    }
  }

  /** A transaction books under key `k` when it settles that reservation or credits with that key. */
  predicate Uses(op: Op, k: Key) {
    match op
    case Commit(who, id, _, _) => Key(who.wallet, id) == k
    case Credit(w, _, key) => Key(w, key) == k
    case _ => false
  }

  function Signed(entries: map<Key, Entry>, k: Key): int {
    if k !in entries then 0 else if entries[k].credit then entries[k].amount else -entries[k].amount
  }

  /** By how much transactions booking under `k` moved the balance over a run. */
  ghost function BalanceMoved(db: Tables, events: seq<Event>, k: Key): int
    decreases |events|
  {
    if events == [] then 0
    else
      var next := Apply(db, events[0].op, events[0].fate).0;
      (if Uses(events[0].op, k) && k.wallet in db.wallets && k.wallet in next.wallets
       then next.wallets[k.wallet].balance - db.wallets[k.wallet].balance else 0)
      + BalanceMoved(next, events[1..], k)
  }

  lemma EntryBooksItsBalance(db: Tables, op: Op, k: Key, after: Tables)
    requires k.wallet in db.wallets && after == Attempt(db, op).0
    ensures k.wallet in after.wallets
    ensures k in db.entries ==> k in after.entries && after.entries[k] == db.entries[k]
    ensures Signed(after.entries, k) - Signed(db.entries, k)
         == if Uses(op, k) then after.wallets[k.wallet].balance - db.wallets[k.wallet].balance else 0
  {
  }

  /** Exactly once: however often a settlement or a credit is retried, after
      however many ambiguous answers and among whatever else happens, all it
      ever moves the balance by is its one immutable entry. */
  lemma {:induction false} KeyBooksOnce(db: Tables, events: seq<Event>, k: Key)
    requires k.wallet in db.wallets
    ensures k in db.entries ==> k in Run(db, events).entries && Run(db, events).entries[k] == db.entries[k]
    ensures BalanceMoved(db, events, k) == Signed(Run(db, events).entries, k) - Signed(db.entries, k)
    decreases |events|
  {
    if events == [] {
    } else {
      var next := Apply(db, events[0].op, events[0].fate).0;
      if !events[0].fate.Lost? {
        EntryBooksItsBalance(db, events[0].op, k, next);
      }
      KeyBooksOnce(next, events[1..], k);
    }
  }

  /** A credit that took effect is acknowledged and does nothing ever after;
      its key is refused to any other amount. */
  lemma CreditReplay(db: Tables, events: seq<Event>, w: Id, amount: int, key: Id, other: int)
    requires Attempt(db, Credit(w, amount, key)).1.Ok?
    ensures var later := Run(Attempt(db, Credit(w, amount, key)).0, events);
            && Attempt(later, Credit(w, amount, key)) == (later, Ok)
            && (other != amount ==> Attempt(later, Credit(w, other, key)) == (later, Refused))
  {
    var credited := Attempt(db, Credit(w, amount, key)).0;
    WalletStays(credited, events, w, Run(credited, events));
    KeyBooksOnce(credited, events, Key(w, key));
  }

  /** How often hold `id` disappears during a run: reclaimed, committed or released. */
  ghost function Removals(db: Tables, events: seq<Event>, id: Id): int
    decreases |events|
  {
    if events == [] then 0
    else
      var next := Apply(db, events[0].op, events[0].fate).0;
      (if id in db.holds && id !in next.holds then 1 else 0) + Removals(next, events[1..], id)
  }

  /** With reservation ids not reused, a hold is removed at most once over any run. */
  lemma {:induction false} SettledOnce(db: Tables, events: seq<Event>, id: Id)
    requires forall i :: 0 <= i < |events| && events[i].op.Reserve? ==> events[i].op.id != id
    ensures Removals(db, events, id) + (if id in Run(db, events).holds then 1 else 0)
         == (if id in db.holds then 1 else 0)
    decreases |events|
  {
    if events == [] {
    } else {
      OnlyReserveAdds(db, events[0], id);
      SettledOnce(Apply(db, events[0].op, events[0].fate).0, events[1..], id);
    }
  }

  lemma OnlyReserveAdds(db: Tables, event: Event, id: Id)
    requires event.op.Reserve? ==> event.op.id != id
    ensures id !in db.holds ==> id !in Apply(db, event.op, event.fate).0.holds
  {
  }

  /** And once it is gone, whichever answer was lost on the way, every Commit or
      Release of it changes nothing and never reports success. */
  lemma GoneForGood(db: Tables, events: seq<Event>, id: Id, settle: Event)
    requires id !in db.holds && forall i :: 0 <= i < |events| && events[i].op.Reserve? ==> events[i].op.id != id
    requires (settle.op.Commit? || settle.op.Release?) && settle.op.id == id
    ensures var (after, verdict) := Apply(Run(db, events), settle.op, settle.fate);
            after == Run(db, events) && !verdict.Ok?
  {
    SettledOnce(db, events, id);
    RemovalsNonNegative(db, events, id);
  }

  lemma {:induction false} RemovalsNonNegative(db: Tables, events: seq<Event>, id: Id)
    ensures Removals(db, events, id) >= 0
    decreases |events|
  {
    if events == [] {
    } else {
      RemovalsNonNegative(Apply(db, events[0].op, events[0].fate).0, events[1..], id);
    }
  }

  // ---- exact verdicts ----------------------------------------------------------

  /** Reserve and Commit answer anything but a refusal, and change anything, only
      for a wallet that is active, with the tenant, user and currency it belongs
      to, both of them active; for such a wallet they refuse nothing but an
      estimate out of range, a used id, and a debit under a used key. */
  lemma OnlyActiveOwners(db: Tables, op: Op, after: Tables, verdict: Verdict)
    requires (op.Reserve? || op.Commit?) && (after, verdict) == Attempt(db, op)
    ensures var active :=
              && op.who.wallet in db.wallets
              && var a := db.wallets[op.who.wallet];
                 && a.tenant == op.who.tenant && a.user == op.who.user && a.currency == op.who.currency
                 && a.status == Active && a.tenant in db.activeTenants && User(a.tenant, a.user) in db.activeUsers;
            && (!verdict.Refused? || after != db ==>
                  active && (op.Reserve? ==> 0 <= op.estimate <= 0x3FFF_FFFF_FFFF_FFFF))
            && (active
                && (op.Reserve? ==> 0 <= op.estimate <= 0x3FFF_FFFF_FFFF_FFFF && op.id !in db.holds)
                && (op.Commit? && op.actual > 0 ==> Key(op.who.wallet, op.id) !in db.entries)
                ==> !verdict.Refused?)
  {
  }

  /** The wallet, its tenant or its user is not active. */
  predicate Frozen(db: Tables, w: Id) {
    && w in db.wallets
    && (db.wallets[w].status != Active || OwnerOut(db.wallets[w], db.activeTenants, db.activeUsers))
  }

  ghost predicate FrozenThroughout(db: Tables, events: seq<Event>, w: Id)
    decreases |events|
  {
    Frozen(db, w) && (events != [] ==> FrozenThroughout(Apply(db, events[0].op, events[0].fate).0, events[1..], w))
  }

  /** No hold of the wallet is new, and no debit. */
  ghost predicate NoneCharged(db: Tables, later: Tables, w: Id) {
    && w in db.wallets && w in later.wallets
    && (forall i :: i in Amounts(later.holds, w) ==>
          i in Amounts(db.holds, w) && Amounts(later.holds, w)[i] == Amounts(db.holds, w)[i])
    && Booked(later.entries, w, false) == Booked(db.entries, w, false)
  }

  lemma FrozenStep(db: Tables, op: Op, w: Id, after: Tables)
    requires Inv(db) && Frozen(db, w) && after == Attempt(db, op).0
    ensures NoneCharged(db, after, w)
  {
    if after == db || op.SetStatus? || op.SetOwners? {
    } else if Subject(op) != w {
      AttemptMoves(db, op, after, Subject(op), Visible(db, op));
      OthersKept(db, after, Subject(op), w);
    } else {
      match op
      case Release(_, id) => ReleaseChargesNothing(db, op, w, after);
      case Credit(_, amount, key) => CreditChargesNothing(db, w, amount, key, after);
      case Open(_, _, _, _, _, _) =>
      case _ => OnlyActiveOwners(db, op, after, Attempt(db, op).1);
    }
  }

  lemma ReleaseChargesNothing(db: Tables, op: Op, w: Id, after: Tables)
    requires op.Release? && op.who.wallet == w && w in db.wallets && after == Attempt(db, op).0
    ensures NoneCharged(db, after, w)
  {
    if op.id in db.holds {
      DropHoldMaps(db.holds, op.id);
    }
  }

  lemma CreditChargesNothing(db: Tables, w: Id, amount: int, key: Id, after: Tables)
    requires w in db.wallets && after == CreditTx(db, w, amount, key).0
    ensures NoneCharged(db, after, w)
  {
    CreditCases(db, w, amount, key, after);
    if after != db {
      BookMaps(db.entries, Key(w, key), Entry(true, amount));
    }
  }

  /** While a wallet, its tenant or its user is suspended nothing is reserved
      and nothing is charged, whatever else happens: its holds can only go, its
      balance moves by credits alone, and a Reserve or Commit is refused. */
  lemma {:induction false} FrozenNeverCharged(db: Tables, events: seq<Event>, w: Id, op: Op, later: Tables)
    requires Inv(db) && FrozenThroughout(db, events, w) && later == Run(db, events)
    requires (op.Reserve? || op.Commit?) && op.who.wallet == w
    ensures NoneCharged(db, later, w)
    ensures later.wallets[w].balance - db.wallets[w].balance == Credits(later, w) - Credits(db, w)
    ensures Attempt(later, op) == (later, Refused)
    decreases |events|
  {
    assert WalletOk(db, w);
    if events == [] {
      OnlyActiveOwners(db, op, Attempt(db, op).0, Attempt(db, op).1);
    } else {
      var next := Apply(db, events[0].op, events[0].fate).0;
      ApplyRefines(db, events[0], w, next);
      assert WalletOk(next, w);
      if !events[0].fate.Lost? {
        FrozenStep(db, events[0].op, w, next);
      }
      FrozenNeverCharged(next, events[1..], w, op, later);
    }
  }

  lemma StatusKept(db: Tables, op: Op, w: Id, after: Tables)
    requires w in db.wallets && after == Attempt(db, op).0
    ensures w in after.wallets
    ensures !(op.SetStatus? && op.wallet == w) ==> after.wallets[w].status == db.wallets[w].status
    ensures op.SetStatus? && op.wallet == w ==> after.wallets[w].status == op.status
  {
  }

  /** A suspension lasts until the wallet is set active again. */
  lemma {:induction false} SuspensionLasts(db: Tables, events: seq<Event>, w: Id)
    requires w in db.wallets && db.wallets[w].status != Active
    requires forall i :: 0 <= i < |events| && events[i].op.SetStatus? && events[i].op.wallet == w ==>
               events[i].op.status != Active
    ensures FrozenThroughout(db, events, w)
    decreases |events|
  {
    if events == [] {
    } else {
      var next := Apply(db, events[0].op, events[0].fate).0;
      if !events[0].fate.Lost? {
        StatusKept(db, events[0].op, w, next);
      }
      SuspensionLasts(next, events[1..], w);
    }
  }

  /** So does that of a tenant or user, until both are listed as active. */
  lemma {:induction false} OwnerSuspensionLasts(db: Tables, events: seq<Event>, w: Id, a: Account)
    requires w in db.wallets && SameOwner(db.wallets[w], a) && OwnerOut(a, db.activeTenants, db.activeUsers)
    requires forall i :: 0 <= i < |events| && events[i].op.SetOwners? ==>
               OwnerOut(a, events[i].op.tenants, events[i].op.users)
    ensures FrozenThroughout(db, events, w)
    decreases |events|
  {
    if events == [] {
    } else {
      var next := Apply(db, events[0].op, events[0].fate).0;
      OneEventKeepsOwner(db, events[0], w, next);
      OwnersKept(db, events[0], next);
      OwnerSuspensionLasts(next, events[1..], w, a);
    }
  }

  predicate OwnerOut(a: Account, tenants: set<Id>, users: set<User>) {
    a.tenant !in tenants || User(a.tenant, a.user) !in users
  }

  lemma OwnersKept(db: Tables, event: Event, next: Tables)
    requires next == Apply(db, event.op, event.fate).0
    ensures (next.activeTenants, next.activeUsers)
         == if event.op.SetOwners? && !event.fate.Lost? then (event.op.tenants, event.op.users)
            else (db.activeTenants, db.activeUsers)
  {
  }

  /** All holds but the expired ones of wallet `w`. */
  function Unexpired(holds: map<Id, Hold>, w: Id, now: int): map<Id, Hold> {
    map i | i in holds && (holds[i].wallet != w || now < holds[i].expires) :: holds[i]
  }

  /** What unexpired reservations of the wallet still hold. */
  ghost function LiveHeld(db: Tables, w: Id, now: int): int {
    Sum(Amounts(Unexpired(db.holds, w, now), w))
  }

  /** Reserve grants exactly when the balance covers the estimate beside the
      unexpired holds alone, so an abandoned lease never blocks; and grant or
      denial, the expired holds are gone afterwards. */
  lemma AdmissionExact(db: Tables, who: Caller, estimate: int, id: Id, now: int)
    requires Inv(db) && Entitled(db, who) && ValidEstimate(estimate)
    ensures var (after, verdict) := ReserveTx(db, who, estimate, id, now);
            var room := db.wallets[who.wallet].balance - LiveHeld(db, who.wallet, now);
            var live := Unexpired(db.holds, who.wallet, now);
            && (verdict.Exceeded? <==> estimate > room)
            && (verdict.Ok? <==> estimate <= room && id !in live)
            && (verdict.Exceeded? ==>
                  after.holds == live && after.wallets[who.wallet].reserved == LiveHeld(db, who.wallet, now))
            && (verdict.Ok? ==>
                  after.wallets[who.wallet].reserved == LiveHeld(db, who.wallet, now) + estimate)
  {
    assert WalletOk(db, who.wallet);
    assert Unexpired(db.holds, who.wallet, now) == db.holds - Expired(db.holds, who.wallet, now);
    ReclaimedMaps(db.holds, who.wallet, now);
    SumMinus(Amounts(db.holds, who.wallet), Expired(db.holds, who.wallet, now));
  }

  /** What a wallet's balance leaves beside all its holds other than `id`. */
  ghost function Room(db: Tables, w: Id, id: Id): int
    requires w in db.wallets
  {
    db.wallets[w].balance - Sum(Amounts(db.holds - {id}, w))
  }

  /** Commit charges exactly when the hold is live and what is left beside all
      other holds covers the actual cost, even beyond the amount held; the one
      other refusal is a debit whose key another entry already uses. A negative
      cost is charged as zero. */
  lemma SettlementExact(db: Tables, who: Caller, id: Id, actual: int, now: int)
    requires Inv(db) && Entitled(db, who)
    requires id in db.holds && db.holds[id].wallet == who.wallet
    ensures var (after, verdict) := CommitTx(db, who, id, actual, now);
            var room := Room(db, who.wallet, id);
            var charge := if actual < 0 then 0 else actual;
            && (verdict.NotFound? <==> db.holds[id].expires <= now)
            && (verdict.Exceeded? <==> now < db.holds[id].expires && charge > room)
            && (verdict.Ok? <==>
                  && now < db.holds[id].expires && charge <= room
                  && (charge > 0 ==> Key(who.wallet, id) !in db.entries))
            && (verdict.Ok? ==>
                  && after.holds == db.holds - {id}
                  && after.wallets[who.wallet].balance == db.wallets[who.wallet].balance - charge)
            && (!verdict.Ok? ==> after == db)
  {
    assert WalletOk(db, who.wallet);
    DropHoldMaps(db.holds, id);
    SumRemove(Amounts(db.holds, who.wallet), id);
  }

  /** A transaction that leaves reservation `id` to its holder. */
  predicate Elsewhere(op: Op, id: Id) {
    op.Reserve? || op.Commit? || op.Release? ==> op.id != id
  }

  /** Others remove a hold in one way only: a Reserve on the same wallet once its lease has ended. */
  lemma HoldStep(db: Tables, op: Op, id: Id, after: Tables)
    requires id in db.holds && Elsewhere(op, id) && after == Attempt(db, op).0
    ensures id in after.holds ==> after.holds[id] == db.holds[id]
    ensures id !in after.holds
       <==> op.Reserve? && op.who.wallet == db.holds[id].wallet && db.holds[id].expires <= op.now
            && !Attempt(db, op).1.Refused?
  {
  }

  /** A Reserve of wallet `w` takes effect that finds the time `end` has come. */
  ghost predicate Reclaims(db: Tables, event: Event, w: Id, end: int) {
    && event.op.Reserve? && event.op.who.wallet == w && end <= event.op.now
    && !event.fate.Lost? && !Attempt(db, event.op).1.Refused?
  }

  ghost predicate SomeReclaims(db: Tables, events: seq<Event>, w: Id, end: int)
    decreases |events|
  {
    events != [] &&
    (Reclaims(db, events[0], w, end) || SomeReclaims(Apply(db, events[0].op, events[0].fate).0, events[1..], w, end))
  }

  lemma {:induction false} HoldKept(db: Tables, events: seq<Event>, id: Id, later: Tables)
    requires id in db.holds && later == Run(db, events)
    requires forall i :: 0 <= i < |events| ==> Elsewhere(events[i].op, id)
    ensures id in later.holds ==> later.holds[id] == db.holds[id]
    ensures id in later.holds <==> !SomeReclaims(db, events, db.holds[id].wallet, db.holds[id].expires)
    decreases |events|
  {
    if events == [] {
    } else {
      var next := Apply(db, events[0].op, events[0].fate).0;
      if !events[0].fate.Lost? {
        HoldStep(db, events[0].op, id, next);
      }
      if id in next.holds {
        HoldKept(next, events[1..], id, later);
      } else {
        GoneStaysGone(next, events[1..], id, later);
      }
    }
  }

  lemma {:induction false} GoneStaysGone(db: Tables, events: seq<Event>, id: Id, later: Tables)
    requires id !in db.holds && later == Run(db, events)
    requires forall i :: 0 <= i < |events| ==> Elsewhere(events[i].op, id)
    ensures id !in later.holds
    decreases |events|
  {
    SettledOnce(db, events, id);
    RemovalsNonNegative(db, events, id);
  }

  function LeaseEnd(op: Op): int
    requires op.Reserve?
  {
    op.now + if op.who.ttl < 1 then 1 else op.who.ttl
  }

  lemma GrantedHold(db: Tables, op: Op, held: Tables)
    requires op.Reserve? && Attempt(db, op) == (held, Ok)
    ensures op.id in held.holds && held.holds[op.id] == Hold(op.who.wallet, op.estimate, LeaseEnd(op))
    ensures held.holds - {op.id} == Unexpired(db.holds, op.who.wallet, op.now) - {op.id}
  {
  }

  /** A granted reservation is its holder's for exactly its lease, a second at
      least: whatever others do meanwhile, it is not found exactly from the end
      on, or once a Reserve of the wallet for which the end had come has
      reclaimed it; until then a Commit of up to its estimate succeeds. */
  lemma HeldForItsLease(db: Tables, grant: Op, held: Tables, events: seq<Event>, commit: Op, later: Tables)
    requires Inv(db) && grant.Reserve? && Attempt(db, grant) == (held, Ok) && later == Run(held, events)
    requires forall i :: 0 <= i < |events| ==> Elsewhere(events[i].op, grant.id)
    requires commit.Commit? && commit.id == grant.id && commit.who.wallet == grant.who.wallet
    requires Entitled(later, commit.who)
    ensures Attempt(later, commit).1.NotFound?
       <==> LeaseEnd(grant) <= commit.now || SomeReclaims(held, events, grant.who.wallet, LeaseEnd(grant))
    ensures !Attempt(later, commit).1.NotFound? && commit.actual <= grant.estimate
            && (commit.actual > 0 ==> Key(grant.who.wallet, grant.id) !in later.entries)
            ==> Attempt(later, commit).1.Ok?
  {
    var w, id := grant.who.wallet, grant.id;
    GrantedHold(db, grant, held);
    HoldKept(held, events, id, later);
    AttemptRefines(db, grant, w, held);
    RunRefines(held, events, w);
    if id in later.holds {
      SettlementExact(later, commit.who, id, commit.actual, commit.now);
      RoomForItself(later, w, id);
    }
  }

  /** What is left beside all other holds covers the hold itself. */
  lemma RoomForItself(db: Tables, w: Id, id: Id)
    requires Inv(db) && w in db.wallets && id in db.holds && db.holds[id].wallet == w
    ensures db.holds[id].amount <= Room(db, w, id)
  {
    assert WalletOk(db, w);
    DropHoldMaps(db.holds, id);
    SumRemove(Amounts(db.holds, w), id);
  }

  /** A hold can be released by its owner for as long as it is there, whatever
      has happened since: suspended or not, before or after its lease. */
  lemma ReleasableWhileHeld(db: Tables, events: seq<Event>, who: Caller, id: Id, later: Tables)
    requires who.wallet in db.wallets && id in db.holds && db.holds[id].wallet == who.wallet
    requires var a := db.wallets[who.wallet];
             a.tenant == who.tenant && a.user == who.user && a.currency == who.currency
    requires forall i :: 0 <= i < |events| ==> Elsewhere(events[i].op, id)
    requires later == Run(db, events)
    ensures var (after, verdict) := ReleaseTx(later, who, id);
            if id in later.holds then verdict.Ok? && Released(later, after, who.wallet, id, db.holds[id].amount)
            else (after, verdict) == (later, NotFound)
  {
    WalletStays(db, events, who.wallet, later);
    HoldKept(db, events, id, later);
    ReleaseExact(later, who, id, ReleaseTx(later, who, id).0, ReleaseTx(later, who, id).1);
  }

  lemma ReleaseExact(db: Tables, who: Caller, id: Id, after: Tables, verdict: Verdict)
    requires (after, verdict) == ReleaseTx(db, who, id)
    ensures var own := who.wallet in db.wallets
                       && var a := db.wallets[who.wallet];
                          a.tenant == who.tenant && a.user == who.user && a.currency == who.currency;
            var held := id in db.holds && db.holds[id].wallet == who.wallet;
            verdict == if !own then Refused else if held then Ok else NotFound
    ensures if verdict.Ok? then id in db.holds && Released(db, after, who.wallet, id, db.holds[id].amount)
            else after == db
  {
  }

  /** The hold is gone and its amount free again, and that is all. */
  predicate Released(db: Tables, after: Tables, w: Id, id: Id, amount: int) {
    && w in db.wallets && after.holds == db.holds - {id} && after.entries == db.entries
    && after.wallets == db.wallets[w := db.wallets[w].(reserved := db.wallets[w].reserved - amount)]
  }

  /** A credit succeeds exactly if its amount is positive, its key is not blank,
      the wallet exists, and the key is either new, with room for the amount in a
      bigint, or was used for the same credit; only a new key moves the balance. */
  lemma CreditExact(db: Tables, w: Id, amount: int, key: Id)
    ensures var (after, verdict) := Attempt(db, Credit(w, amount, key));
            && (verdict.Ok? <==>
                  && 0 < amount && key != Blank && w in db.wallets
                  && if Key(w, key) in db.entries then db.entries[Key(w, key)] == Entry(true, amount)
                     else db.wallets[w].balance + amount <= 0x7FFF_FFFF_FFFF_FFFF)
            && (!verdict.Ok? || Key(w, key) in db.entries ==> after == db)
            && (verdict.Ok? && Key(w, key) !in db.entries ==>
                  && after.wallets[w] == db.wallets[w].(balance := db.wallets[w].balance + amount)
                  && after.entries == db.entries[Key(w, key) := Entry(true, amount)])
  {
  }

  lemma FundedKeepsRest(db: Tables, w: Id, key: Id, amount: int, who: Caller, credited: Tables)
    requires w in db.wallets && credited == Funded(db, w, key, amount)
    ensures credited.holds == db.holds && credited.wallets[w].balance == db.wallets[w].balance + amount
    ensures Entitled(db, who) ==> Entitled(credited, who)
  {
  }

  /** What is credited can be reserved: a new credit raises what Reserve admits by exactly its amount. */
  lemma CreditMakesRoom(db: Tables, w: Id, amount: int, key: Id, credited: Tables,
                        who: Caller, estimate: int, id: Id, now: int)
    requires Inv(db) && CreditTx(db, w, amount, key) == (credited, Ok) && Key(w, key) !in db.entries
    requires who.wallet == w && id !in db.holds && Entitled(db, who) && ValidEstimate(estimate)
    ensures ReserveTx(credited, who, estimate, id, now).1.Ok?
       <==> estimate <= db.wallets[w].balance - LiveHeld(db, w, now) + amount
  {
    CreditCases(db, w, amount, key, credited);
    FundedKeeps(db, w, key, amount, credited);
    FundedKeepsRest(db, w, key, amount, who, credited);
    AdmissionExact(credited, who, estimate, id, now);
  }

  /** Opening a wallet for an owner and currency that has none, under a new id
      and with an amount that fits, creates it active with that balance and its
      opening entry; otherwise it changes nothing. */
  lemma OpenExact(db: Tables, op: Op)
    requires op.Open?
    ensures var (after, verdict) := Attempt(db, op);
            var taken := exists v :: v in db.wallets && SameOwner(db.wallets[v], OwnerOf(op));
            && (verdict.Ok? <==> taken || (op.wallet !in db.wallets && 0 < op.amount <= 0x7FFF_FFFF_FFFF_FFFF))
            && (!verdict.Ok? || taken ==> after == db)
            && (verdict.Ok? && !taken ==>
                  && after.wallets == db.wallets[op.wallet := OwnerOf(op)] && after.holds == db.holds
                  && after.entries == db.entries[Key(op.wallet, op.key) := Entry(true, op.amount)])
  {
    assert Taken(db, op.tenant, op.user, op.currency)
      <==> exists v :: v in db.wallets && SameOwner(db.wallets[v], OwnerOf(op));
  }

  function OwnerOf(op: Op): Account
    requires op.Open?
  {
    Account(op.tenant, op.user, op.currency, op.amount, 0, Active)
  }

  /** UNIQUE (tenant_id, user_id, currency) */
  ghost predicate OneWalletEach(db: Tables) {
    forall v, w :: v in db.wallets && w in db.wallets && SameOwner(db.wallets[v], db.wallets[w]) ==> v == w
  }

  /** Nobody ever has two wallets in one currency. */
  lemma {:induction false} OwnersStayUnique(db: Tables, events: seq<Event>)
    requires OneWalletEach(db)
    ensures OneWalletEach(Run(db, events))
    decreases |events|
  {
    if events == [] {
    } else {
      var next := Apply(db, events[0].op, events[0].fate).0;
      if !events[0].fate.Lost? {
        UniqueStep(db, events[0].op, next);
      }
      OwnersStayUnique(next, events[1..]);
    }
  }

  lemma UniqueStep(db: Tables, op: Op, after: Tables)
    requires OneWalletEach(db) && after == Attempt(db, op).0
    ensures OneWalletEach(after)
  {
    if op.Open? {
      OpenExact(db, op);
    } else {
      forall v, w | v in after.wallets && w in after.wallets && SameOwner(after.wallets[v], after.wallets[w])
        ensures v == w
      {
        OldWallet(db, op, v, after);
        OldWallet(db, op, w, after);
      }
    }
  }

  /** Only Open brings in a wallet. */
  lemma OldWallet(db: Tables, op: Op, w: Id, after: Tables)
    requires !op.Open? && after == Attempt(db, op).0 && w in after.wallets
    ensures w in db.wallets && SameOwner(db.wallets[w], after.wallets[w])
  {
    if w in db.wallets {
      OwnerKept(db, op, w, after);
    }
  }

  /** Any answer but a refusal is true of the tables. A refusal may hide a
      transaction that was lost, or that committed while its COMMIT was reported
      as a failure; a denied Reserve commits too, for what it reclaimed. */
  lemma AnswersAreTrue(db: Tables, op: Op, fate: Fate)
    ensures !Apply(db, op, fate).1.Refused? ==> Apply(db, op, fate).1 == Attempt(db, op).1
    ensures Apply(db, op, fate).0 == if fate.Lost? then db else Attempt(db, op).0
    ensures Apply(db, op, fate).1 != Attempt(db, op).1 ==>
              fate.Lost? || (fate.Ambiguous? && (Attempt(db, op).1.Ok? || (!op.Commit? && Attempt(db, op).1.Exceeded?)))
    ensures fate.Lost? || (fate.Ambiguous? && (Attempt(db, op).1.Ok? || (op.Reserve? && Attempt(db, op).1.Exceeded?)))
            ==> Apply(db, op, fate).1.Refused?
  {
  }

  /** A commit whose success was reported as a failure has settled its hold: a
      retry finds nothing and charges nothing, also after anything else. */
  lemma AmbiguousCommit(db: Tables, commit: Op, events: seq<Event>, retry: Event, later: Tables)
    requires commit.Commit? && Attempt(db, commit).1.Ok?
    requires forall i :: 0 <= i < |events| && events[i].op.Reserve? ==> events[i].op.id != commit.id
    requires later == Run(Apply(db, commit, Ambiguous).0, events)
    requires (retry.op.Commit? || retry.op.Release?) && retry.op.id == commit.id
    ensures Apply(db, commit, Ambiguous) == (Attempt(db, commit).0, Refused)
    ensures Apply(later, retry.op, retry.fate).0 == later && !Apply(later, retry.op, retry.fate).1.Ok?
  {
    GoneForGood(Attempt(db, commit).0, events, commit.id, retry);
  }

  // ---- the transactions statement by statement -----------------------------------

  /** The sizes that keep all the int64 arithmetic below in range. */
  ghost predicate Sized(db: Tables, w: Id, now: int)
    requires w in db.wallets
  {
    && 0 <= Sum(Restrict(Amounts(db.holds, w), Expired(db.holds, w, now))) <= db.wallets[w].reserved
    && db.wallets[w].reserved <= db.wallets[w].balance <= MAX
    && forall i :: i in db.holds && db.holds[i].wallet == w ==> 0 <= db.holds[i].amount <= db.wallets[w].reserved
  }

  /** They follow from the invariant alone: neither overflow nor the "invalid
      balance" and "invariant violated" branches can happen. */
  lemma InvSizes(db: Tables, w: Id, now: int)
    requires Inv(db) && w in db.wallets
    ensures Sized(db, w, now)
  {
    assert WalletOk(db, w);
    ReclaimedMaps(db.holds, w, now);
    SumMinus(Amounts(db.holds, w), Expired(db.holds, w, now));
    SumNonNegative(Amounts(db.holds - Expired(db.holds, w, now), w));
    SumNonNegative(Restrict(Amounts(db.holds, w), Expired(db.holds, w, now)));
    forall i | i in db.holds && db.holds[i].wallet == w ensures 0 <= db.holds[i].amount <= db.wallets[w].reserved {
      SumAtLeast(Amounts(db.holds, w), i);
    }
  }

  method ReclaimStatements(db: Tables, w: Id, now: int) returns (tx: Tables, balance: int64, reserved: int64)
    requires w in db.wallets && Sized(db, w, now)
    ensures tx == Reclaimed(db, w, now)
    ensures balance as int == tx.wallets[w].balance && 0 <= reserved as int == tx.wallets[w].reserved <= balance as int
  {
    balance, reserved := db.wallets[w].balance as int64, db.wallets[w].reserved as int64;
    var live, reclaimed := Leases.DeleteReturning(db.holds, Amounts(db.holds, w), Expired(db.holds, w, now));
    reserved := reserved - reclaimed as int64;
    tx := db;
    if reclaimed > 0 {
      tx := SetMoney(db, w, balance as int, reserved as int);
    } else {
      assert db.wallets == SetMoney(db, w, balance as int, reserved as int).wallets;
    }
    tx := tx.(holds := live);
  }

  method ReserveStatements(db: Tables, who: Caller, estimate: int64, id: Id, now: int)
    returns (tx: Tables, verdict: Verdict)
    requires Entitled(db, who) ==> Sized(db, who.wallet, now)
    ensures (tx, verdict) == ReserveTx(db, who, estimate as int, id, now)
  {
    if !ValidEstimate(estimate as int) || !Entitled(db, who) { return db, Refused; }
    var balance, reserved: int64;
    tx, balance, reserved := ReclaimStatements(db, who.wallet, now);
    if estimate > balance - reserved { return tx, Exceeded; }
    if id in tx.holds { return db, Refused; }
    var seconds := Max(who.ttl, 1);
    tx := tx.(holds := tx.holds[id := Hold(who.wallet, estimate as int, now + seconds)]);
    tx := SetMoney(tx, who.wallet, tx.wallets[who.wallet].balance, (reserved + estimate) as int);
    verdict := Ok;
  }

  method CommitStatements(db: Tables, who: Caller, id: Id, actual: int64, now: int)
    returns (tx: Tables, verdict: Verdict)
    requires Entitled(db, who) ==> Sized(db, who.wallet, now)
    ensures (tx, verdict) == CommitTx(db, who, id, actual as int, now)
  {
    var charge := NonNegative(actual as int) as int64;
    if !Entitled(db, who) { return db, Refused; }
    tx, verdict := SettleStatements(db, who.wallet, id, charge, now);
  }

  method SettleStatements(db: Tables, w: Id, id: Id, charge: int64, now: int) returns (tx: Tables, verdict: Verdict)
    requires charge >= 0 && w in db.wallets && Sized(db, w, now)
    ensures (tx, verdict) == SettleTx(db, w, id, charge as int, now)
  {
    var balance, reserved := db.wallets[w].balance as int64, db.wallets[w].reserved as int64;
    if id !in db.holds || db.holds[id].wallet != w || db.holds[id].expires <= now { return db, NotFound; }
    var held := db.holds[id].amount as int64;
    tx := db.(holds := db.holds - {id});
    var available := balance - (reserved - held);
    if charge > available { return db, Exceeded; }
    tx := SetMoney(tx, w, tx.wallets[w].balance - charge as int, tx.wallets[w].reserved - held as int);
    if charge > 0 {
      if Key(w, id) in tx.entries { return db, Refused; }
      tx := tx.(entries := tx.entries[Key(w, id) := Entry(false, charge as int)]);
    }
    verdict := Ok;
  }

  method ReleaseStatements(db: Tables, who: Caller, id: Id) returns (tx: Tables, verdict: Verdict)
    ensures (tx, verdict) == ReleaseTx(db, who, id)
  {
    if !Known(db, who) { return db, Refused; }
    var w := who.wallet;
    if id !in db.holds || db.holds[id].wallet != w { return db, NotFound; }
    var held := db.holds[id].amount;
    tx := db.(holds := db.holds - {id});
    tx := SetMoney(tx, w, tx.wallets[w].balance, tx.wallets[w].reserved - held);
    verdict := Ok;
  }

  /** cost_credit_wallet, under the wallet's row lock. */
  method CreditStatements(db: Tables, w: Id, amount: int64, key: Id) returns (tx: Tables, verdict: Verdict)
    ensures (tx, verdict) == CreditTx(db, w, amount as int, key)
  {
    if amount <= 0 || key.Blank? || w !in db.wallets { return db, Refused; }
    tx := db;
    var found := Key(w, key) !in tx.entries;           // INSERT ... ON CONFLICT DO NOTHING
    if found {
      tx := tx.(entries := tx.entries[Key(w, key) := Entry(true, amount as int)]);
      if tx.wallets[w].balance + amount as int > MAX { return db, Refused; }   // bigint out of range
      tx := SetMoney(tx, w, tx.wallets[w].balance + amount as int, tx.wallets[w].reserved);
    } else if !tx.entries[Key(w, key)].credit || tx.entries[Key(w, key)].amount != amount as int {
      return db, Refused;
    }
    verdict := Ok;
  }

  class Database {
    var tables: Tables

    constructor (tables: Tables)
      ensures this.tables == tables
    {
      this.tables := tables;
    }

    /** COMMIT or rollback of what the statements of `op` did. */
    method Finish(tx: Tables, verdict: Verdict, op: Op, fate: Fate) returns (v: Verdict)
      modifies this
      ensures tables == if fate.Lost? then old(tables) else tx
      ensures v == Told(verdict, !RollsBack(op, verdict), Refused, fate)
    {
      if fate.Lost? { return Refused; }
      tables := tx;
      v := if fate.Ambiguous? && !RollsBack(op, verdict) then Refused else verdict;
    }

    method Reserve(who: Caller, estimate: int64, id: Id, now: int, fate: Fate) returns (verdict: Verdict)
      requires Inv(tables)
      modifies this
      ensures (tables, verdict) == Apply(old(tables), Op.Reserve(who, estimate as int, id, now), fate)
    {
      if Entitled(tables, who) {
        InvSizes(tables, who.wallet, now);
      }
      var tx, v := ReserveStatements(tables, who, estimate, id, now);
      verdict := Finish(tx, v, Op.Reserve(who, estimate as int, id, now), fate);
    }

    method Commit(who: Caller, id: Id, actual: int64, now: int, fate: Fate) returns (verdict: Verdict)
      requires Inv(tables)
      modifies this
      ensures (tables, verdict) == Apply(old(tables), Op.Commit(who, id, actual as int, now), fate)
    {
      if Entitled(tables, who) {
        InvSizes(tables, who.wallet, now);
      }
      var tx, v := CommitStatements(tables, who, id, actual, now);
      verdict := Finish(tx, v, Op.Commit(who, id, actual as int, now), fate);
    }

    method Release(who: Caller, id: Id, fate: Fate) returns (verdict: Verdict)
      modifies this
      ensures (tables, verdict) == Apply(old(tables), Op.Release(who, id), fate)
    {
      var tx, v := ReleaseStatements(tables, who, id);
      verdict := Finish(tx, v, Op.Release(who, id), fate);
    }

    method CreditWallet(w: Id, amount: int64, key: Id, fate: Fate) returns (verdict: Verdict)
      modifies this
      ensures (tables, verdict) == Apply(old(tables), Credit(w, amount as int, key), fate)
    {
      var tx, v := CreditStatements(tables, w, amount, key);
      verdict := Finish(tx, v, Credit(w, amount as int, key), fate);
    }
  }

  /** A reservation handle: terminal calls are serialised by its mutex and stop once one has succeeded. */
  class Reservation {
    const db: Database
    const who: Caller
    const id: Id
    var done: bool

    constructor (db: Database, who: Caller, id: Id)
      ensures this.db == db && this.who == who && this.id == id && !done
    {
      this.db, this.who, this.id, done := db, who, id, false;
    }

    method Commit(live: bool, actual: int64, now: int, fate: Fate) returns (verdict: Verdict)
      requires Inv(db.tables)
      modifies this`done, db
      ensures !live || old(done) ==>
                db.tables == old(db.tables) && done == old(done) && verdict == if live then Ok else Refused
      ensures live && !old(done) ==>
                && done == verdict.Ok?
                && (db.tables, verdict) == Apply(old(db.tables), Op.Commit(who, id, actual as int, now), fate)
    {
      if !live { return Refused; }
      if done { return Ok; }
      verdict := db.Commit(who, id, actual, now, fate);
      done := verdict.Ok?;
    }

    method Release(live: bool, fate: Fate) returns (verdict: Verdict)
      modifies this`done, db
      ensures !live || old(done) ==>
                db.tables == old(db.tables) && done == old(done) && verdict == if live then Ok else Refused
      ensures live && !old(done) ==>
                && done == verdict.Ok?
                && (db.tables, verdict) == Apply(old(db.tables), Op.Release(who, id), fate)
    {
      if !live { return Refused; }
      if done { return Ok; }
      verdict := db.Release(who, id, fate);
      done := verdict.Ok?;
    }
  }
}
