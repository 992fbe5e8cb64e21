/** The in-process ledger: a compare-and-swap reservation loop, a one-shot
    reservation handle, and a ring of the most recent audit events. */
module LocalLedger {
  import opened Int64
  import opened Options
  import opened Costs
  import opened LocalAtomics

  const CAPACITY := 1024

  /** A Go context as the ledger sees it: nil, already done, or live. */
  datatype Context = Nil | Done | Live

  datatype Error = NilContext | Cancelled | InvalidEstimate | InvalidCost | BudgetExceeded | CurrencyMismatch

  datatype Result<+T> = Ok(value: T) | Err(error: Error)

  datatype Event = Event(domain: string, operation: string, cost: int64, currency: string, timestamp: int)

  /** The counter as the k-th load of a Reserve finds it: other goroutines leave
      `others[j]` in it between the j-th load and its compare-and-swap. */
  function Loaded(initial: int64, others: seq<int64>, k: nat): int64
    requires k <= |others|
  {
    if k == 0 then initial else others[k - 1]
  }

  /** What a reservation's terminal calls can see and change. */
  datatype Account = Account(used: int64, spent: int64, done: bool)

  /** The first terminal call charges; every later one changes nothing. */
  function Settle(a: Account, reserved: int64, charge: int64): Account
    requires reserved >= 0 && charge >= 0
  {
    if a.done then a
    else Account(Wrap(a.used as int + charge as int - reserved as int) as int64,
                 Wrap(a.spent as int + charge as int) as int64, true)
  }

  function AccountOf(w: World, rid: Rid): Account
    requires rid in w.holds && Fits(w.used) && Fits(w.spent)
  {
    Account(w.used as int64, w.spent as int64, w.holds[rid].done)
  }

  /** A terminal call as the sequence of its atomic steps: it stops at the swap
      of done if that fails, and skips the second add if nothing is charged. */
  function TerminalCall(w: World, t: Tid, rid: Rid, how: Settlement): seq<Action>
    requires rid in w.holds
  {
    [StartSettle(t, rid, how), Claim(t)]
    + (if w.holds[rid].done then [] else [Adjust(t)] + (if how.Amount() > 0 then [Spend(t)] else []))
  }

  /** Run without interruption, the atomic steps of a terminal call are `Settle`. */
  lemma SettleIsItsSteps(w: World, t: Tid, rid: Rid, how: Settlement) returns (w': World)
    requires Fits(w.used) && Fits(w.spent) && Can(w, StartSettle(t, rid, how)) && ValidEstimate(w.holds[rid].reserved)
    ensures Trace(w, TerminalCall(w, t, rid, how), w') && w'.threads == w.threads
    ensures rid in w'.holds && Fits(w'.used) && Fits(w'.spent)
    ensures AccountOf(w', rid) == Settle(AccountOf(w, rid), w.holds[rid].reserved as int64, how.Amount() as int64)
  {
    var started := Do(w, StartSettle(t, rid, how));
    var rest: seq<Action>;
    rest, w' := ClaimAndAdd(started, t, rid, how);
    Before(w, StartSettle(t, rid, how), started, rest, w');
    assert TerminalCall(w, t, rid, how) == [StartSettle(t, rid, how)] + rest;
    assert w'.threads == w.threads;
  }

  /** The swap of done, and if it is won the two adds. */
  lemma ClaimAndAdd(w: World, t: Tid, rid: Rid, how: Settlement) returns (rest: seq<Action>, w': World)
    requires Fits(w.used) && Fits(w.spent) && t in w.threads && w.threads[t] == Claiming(rid, how)
    requires rid in w.holds && ValidEstimate(w.holds[rid].reserved) && 0 <= how.Amount() <= MAX
    ensures rest == [Claim(t)]
                    + (if w.holds[rid].done then [] else [Adjust(t)] + (if how.Amount() > 0 then [Spend(t)] else []))
    ensures Trace(w, rest, w') && w'.threads == w.threads - {t}
    ensures rid in w'.holds && Fits(w'.used) && Fits(w'.spent)
    ensures AccountOf(w', rid) == Settle(AccountOf(w, rid), w.holds[rid].reserved as int64, how.Amount() as int64)
  {
    var claimed := Do(w, Claim(t));
    var adds: seq<Action>;
    if w.holds[rid].done {
      adds, w' := [], claimed;
    } else {
      adds, w' := AddsAreSettle(claimed, t, rid, how);
    }
    Before(w, Claim(t), claimed, adds, w');
    rest := [Claim(t)] + adds;
  }

  lemma AddsAreSettle(w: World, t: Tid, rid: Rid, how: Settlement) returns (adds: seq<Action>, w': World)
    requires Fits(w.used) && Fits(w.spent) && t in w.threads && w.threads[t] == Adjusting(rid, how)
    requires rid in w.holds && ValidEstimate(w.holds[rid].reserved) && 0 <= how.Amount() <= MAX
    ensures adds == [Adjust(t)] + (if how.Amount() > 0 then [Spend(t)] else [])
    ensures Trace(w, adds, w') && w'.threads == w.threads - {t} && w'.holds == w.holds
    ensures w'.used == Wrap(w.used + how.Amount() - w.holds[rid].reserved) && w'.spent == Wrap(w.spent + how.Amount())
  {
    var adjusted := Do(w, Adjust(t));
    if how.Amount() > 0 {
      w' := Do(adjusted, Spend(t));
      adds := [Spend(t)];
      Before(adjusted, Spend(t), w', [], w');
      assert [Spend(t)] + [] == adds;
    } else {
      w', adds := adjusted, [];
    }
    Before(w, Adjust(t), adjusted, adds, w');
    adds := [Adjust(t)] + adds;
  }

  /** The error of a call whose context is unusable. */
  function Unusable(context: Context): Option<Error> {
    match context
    case Nil => Some(NilContext)
    case Done => Some(Cancelled)
    case Live => None
  }

  class LocalReservation {
    const ledger: Ledger
    const reserved: int64
    var done: bool

    constructor (ledger: Ledger, reserved: int64)
      ensures this.ledger == ledger && this.reserved == reserved && !done
    {
      this.ledger, this.reserved := ledger, reserved;
      done := false;
    }

    function View(): Account
      reads this, ledger
    {
      Account(ledger.used, ledger.spent, done)
    }

    method Commit(context: Context, actual: int64) returns (error: Option<Error>)
      requires reserved >= 0
      modifies this`done, ledger`used, ledger`spent
      ensures error == Unusable(context)
      ensures View() == if context.Live? then Settle(old(View()), reserved, if actual < 0 then 0 else actual)
                        else old(View())
    {
      if context.Nil? { return Some(NilContext); }
      if context.Done? { return Some(Cancelled); }
      var charge := NonNegative(actual as int) as int64;
      if done { return None; }
      done := true;
      ledger.used := Wrap(ledger.used as int + (charge - reserved) as int) as int64;
      if charge > 0 {
        ledger.spent := Wrap(ledger.spent as int + charge as int) as int64;
      }
      return None;
    }

    method Release(context: Context) returns (error: Option<Error>)
      requires reserved >= 0
      modifies this`done, ledger`used
      ensures error == Unusable(context)
      ensures View() == if context.Live? then Settle(old(View()), reserved, 0) else old(View())
    {
      if context.Nil? { return Some(NilContext); }
      if context.Done? { return Some(Cancelled); }
      if done { return None; }
      done := true;
      ledger.used := Wrap(ledger.used as int + (-reserved) as int) as int64;
      return None;
    }
  }

  class Ledger {
    const limit: int64
    const currency: string
    var used: int64
    var spent: int64
    var head: int           // a uint64, counting modulo 2^64
    const ring: array<Event>
    ghost var log: seq<Event>

    ghost predicate Valid()
      reads this, ring
    {
      && ring.Length == CAPACITY
      && head == |log| % RANGE
      && forall i :: 0 <= i < |log| && |log| - CAPACITY <= i ==> ring[i % CAPACITY] == log[i]
    }

    constructor (limit: int64, currency: string)
      ensures Valid() && fresh(ring) && log == [] && used == 0 && spent == 0
      ensures this.limit == limit && this.currency == currency
    {
      this.limit, this.currency := limit, currency;
      used, spent, head := 0, 0, 0;
      ring := new Event[CAPACITY](_ => Event("", "", 0, "", 0));
      log := [];
    }

    /** The retry loop against any interference. It retries only when another
        goroutine changed the counter since its load, and whatever it answers
        is decided by the counter value `seen` at its last load. */
    method Reserve(context: Context, estimate: int64, others: seq<int64>, patience: nat)
      returns (r: Result<LocalReservation>, retries: nat, seen: int64)
      modifies this`used
      ensures retries <= |others| && seen == Loaded(old(used), others, retries)
      ensures forall k :: 0 <= k < retries ==> others[k] != Loaded(old(used), others, k)
      ensures r == Err(NilContext) <==> context.Nil?
      ensures context.Done? ==> r == Err(Cancelled)
      ensures r == Err(InvalidEstimate) <==> context.Live? && !(0 <= estimate <= 0x3FFF_FFFF_FFFF_FFFF)
      ensures context.Nil? || context.Done? || r == Err(InvalidEstimate) ==> used == old(used)
      ensures r.Ok? || r.error in {NilContext, Cancelled, InvalidEstimate, BudgetExceeded}
      ensures r.Ok? ==> fresh(r.value) && r.value.ledger == this && r.value.reserved == estimate && !r.value.done
      ensures r.Ok? ==>
                && Admit(limit as int, seen as int, estimate as int)
                && used as int == seen as int + estimate as int
      ensures r == Err(BudgetExceeded) ==> !Admit(limit as int, seen as int, estimate as int) && used == seen
      ensures r == Err(Cancelled) && context.Live? ==> retries > patience && used == seen
    {
      retries, seen := 0, used;
      if context.Nil? { return Err(NilContext), 0, used; }
      if context.Done? { return Err(Cancelled), 0, used; }
      if !ValidEstimate(estimate as int) { return Err(InvalidEstimate), 0, used; }
      while true
        invariant retries <= |others| && used == Loaded(old(used), others, retries)
        invariant forall k :: 0 <= k < retries ==> others[k] != Loaded(old(used), others, k)
        decreases |others| - retries
      {
        seen := used;
        if !Admit(limit as int, seen as int, estimate as int) {
          return Err(BudgetExceeded), retries, seen;
        }
        if retries < |others| {
          used := others[retries];   // other goroutines run
        }
        if used == seen {            // compare-and-swap
          AdmitMeans(limit as int, seen as int, estimate as int);
          used := seen + estimate;
          var handle := new LocalReservation(this, estimate);
          return Ok(handle), retries, seen;
        }
        retries := retries + 1;
        if retries > patience {
          return Err(Cancelled), retries, used;
        }
      }
    }

    method Record(context: Context, event: Event, now: int) returns (error: Option<Error>)
      requires Valid()
      modifies this`head, this`log, ring
      ensures Valid()
      ensures error == if Unusable(context).Some? then Unusable(context)
                       else if event.cost <= 0 then Some(InvalidCost)
                       else if event.currency != "" && event.currency != currency then Some(CurrencyMismatch)
                       else None
      ensures log == if error.Some? then old(log)
                     else old(log) + [event.(currency := currency,
                                               timestamp := if event.timestamp == 0 then now else event.timestamp)]
    {
      if context.Nil? { return Some(NilContext); }
      if context.Done? { return Some(Cancelled); }
      if event.cost <= 0 { return Some(InvalidCost); }
      var e := event;
      if e.currency == "" {
        e := e.(currency := currency);
      }
      if e.currency != currency { return Some(CurrencyMismatch); }
      if e.timestamp == 0 {
        e := e.(timestamp := now);
      }
      SameSlot(|log|, head);
      NextSlot(|log|);
      NextHead(|log|);
      ring[head % CAPACITY] := e;
      head := (head + 1) % RANGE;
      log := log + [e];
      return None;
    }

    lemma RingAt(count: nat, i: nat)
      requires Valid() && i < count <= head && count <= CAPACITY
      ensures count <= |log| && ring[(head - count + i) % CAPACITY] == log[|log| - count + i]
    {
      var q := |log| / RANGE;
      assert |log| - head == q * RANGE;
      SameSlot(|log| - count + i, head - count + i);
    }

    /** The most recent events in order: as many as the ring holds, counting
        records modulo 2^64, so all of the last 1024 until the counter wraps. */
    method Entries() returns (out: seq<Event>)
      requires Valid()
      ensures |out| == if head < 1024 then head else 1024
      ensures |log| < 0x1_0000_0000_0000_0000 ==> |out| == if |log| < 1024 then |log| else 1024
      ensures |out| <= |log| && out == log[|log| - |out|..]
    {
      var count := if head < CAPACITY then head else CAPACITY;
      out := [];
      var start := head - count;
      while |out| < count
        invariant |out| <= count <= |log|
        invariant forall i :: 0 <= i < |out| ==> out[i] == log[|log| - count + i]
      {
        RingAt(count, |out|);
        out := out + [ring[(start + |out|) % CAPACITY]];
      }
    }
  }

  /** 2^64 is a multiple of the ring size, so a wrapped head still names the right slot. */
  lemma SameSlot(i: int, j: int)
    requires i >= 0 && j >= 0 && (i - j) % RANGE == 0
    ensures i % CAPACITY == j % CAPACITY
  {
    var q := (i - j) / RANGE;
    assert i == j + (q * (RANGE / CAPACITY)) * CAPACITY;
    Shift1024(j, q * (RANGE / CAPACITY));
  }

  lemma Shift1024(j: int, q: int)
    ensures (j + q * CAPACITY) % CAPACITY == j % CAPACITY
  {
  }

  lemma NextHead(n: nat)
    ensures (n % RANGE + 1) % RANGE == (n + 1) % RANGE
  {
  }

  /** A new slot collides with none of the 1023 before it. */
  lemma NextSlot(n: nat)
    ensures forall i :: n - CAPACITY < i < n ==> i % CAPACITY != n % CAPACITY
  {
  }
}
