/** The action hooks around a local reservation: After settles it, OnPanic and
    OnCancel release it, in whatever order and however often they are called
    on the same context. The fixed-estimate and per-request guards share this
    life cycle and differ only in where the estimate comes from. */
module Guard {
  import opened Int64
  import opened Costs
  import opened LocalLedger
  import opened Options

  datatype Hook =
    | AfterError
    | AfterSuccess(reported: Option<int64>)
    | OnPanic
    | OnCancel

  function ChargeOf(estimate: int64, hook: Hook): int64
    requires estimate >= 0
  {
    if hook.AfterSuccess? then Actual(estimate, hook.reported) else 0
  }

  /** Account and audited costs after one hook. */
  function Fire(a: Account, audited: seq<int64>, estimate: int64, hook: Hook): (Account, seq<int64>)
    requires estimate >= 0
  {
    (Settle(a, estimate, ChargeOf(estimate, hook)),
     if ChargeOf(estimate, hook) > 0 then audited + [ChargeOf(estimate, hook)] else audited)
  }

  function FireAll(a: Account, audited: seq<int64>, estimate: int64, hooks: seq<Hook>): (Account, seq<int64>)
    requires estimate >= 0
    decreases |hooks|
  {
    if hooks == [] then (a, audited)
    else var (a', audited') := Fire(a, audited, estimate, hooks[0]); FireAll(a', audited', estimate, hooks[1..])
  }

  function AuditTotal(xs: seq<int64>): int {
    if xs == [] then 0 else AuditTotal(xs[..|xs| - 1]) + xs[|xs| - 1] as int
  }

  function Charges(estimate: int64, hooks: seq<Hook>): int
    requires estimate >= 0
  {
    if hooks == [] then 0 else ChargeOf(estimate, hooks[0]) as int + Charges(estimate, hooks[1..])
  }

  lemma {:induction false} SettledIsFinal(a: Account, audited: seq<int64>, estimate: int64, hooks: seq<Hook>)
    requires estimate >= 0 && a.done
    ensures FireAll(a, audited, estimate, hooks).0 == a
    decreases |hooks|
  {
    if hooks == [] {
    } else {
      SettledIsFinal(a, Fire(a, audited, estimate, hooks[0]).1, estimate, hooks[1..]);
    }
  }

  /** The first hook decides the outcome; all later ones leave both counters alone. */
  lemma FirstHookWins(a: Account, audited: seq<int64>, estimate: int64, hooks: seq<Hook>)
    requires estimate >= 0 && hooks != []
    ensures FireAll(a, audited, estimate, hooks).0 == Settle(a, estimate, ChargeOf(estimate, hooks[0]))
  {
    var (a', audited') := Fire(a, audited, estimate, hooks[0]);
    SettledIsFinal(a', audited', estimate, hooks[1..]);
  }

  /** What a request is charged, in any order and multiplicity of hooks: what a
      successful run reported, nothing if that is negative, the estimate if it
      reported nothing; and nothing if it failed, panicked or was cancelled. The
      whole hold is given back, and the first hook audits what it charges. */
  lemma ChargedAsReported(a: Account, audited: seq<int64>, estimate: int64, hooks: seq<Hook>)
    requires estimate >= 0 && hooks != [] && !a.done
    ensures var charge := match hooks[0]
                          case AfterSuccess(Some(reported)) => if reported < 0 then 0 else reported
                          case AfterSuccess(None) => estimate
                          case AfterError => 0
                          case OnPanic => 0
                          case OnCancel => 0;
            var after := FireAll(a, audited, estimate, hooks).0;
            && after.done && after.spent as int == Wrap(a.spent as int + charge as int)
            && after.used as int == Wrap(a.used as int + charge as int - estimate as int)
            && Fire(a, audited, estimate, hooks[0]).1 == audited + if charge > 0 then [charge] else []
  {
    FirstHookWins(a, audited, estimate, hooks);
  }

  lemma {:induction false} AuditedIsEverySuccess(a: Account, audited: seq<int64>, estimate: int64, hooks: seq<Hook>)
    requires estimate >= 0
    ensures AuditTotal(FireAll(a, audited, estimate, hooks).1) == AuditTotal(audited) + Charges(estimate, hooks)
    ensures Charges(estimate, hooks) >= 0
    decreases |hooks|
  {
    if hooks == [] {
    } else {
      var (a', audited') := Fire(a, audited, estimate, hooks[0]);
      AuditedIsEverySuccess(a', audited', estimate, hooks[1..]);
      if |audited'| > |audited| {
        assert audited'[..|audited|] == audited;
      }
    }
  }

  /** None of these hooks reports a positive cost. */
  ghost predicate Quiet(estimate: int64, hooks: seq<Hook>)
    requires estimate >= 0
  {
    forall i :: 0 <= i < |hooks| ==> ChargeOf(estimate, hooks[i]) == 0
  }

  /** The audit trail grows by exactly what the reservation was charged if and
      only if no hook after the first reports a positive cost: a success hook
      that finds the reservation already settled charges nothing and still records its event. */
  lemma AuditMatchesSpendIff(a: Account, audited: seq<int64>, estimate: int64, hooks: seq<Hook>)
    requires estimate >= 0 && hooks != [] && !a.done
    ensures var (a', audited') := FireAll(a, audited, estimate, hooks);
            && a' == Settle(a, estimate, ChargeOf(estimate, hooks[0]))
            && (AuditTotal(audited') - AuditTotal(audited) == ChargeOf(estimate, hooks[0]) as int
                <==> Quiet(estimate, hooks[1..]))
  {
    FirstHookWins(a, audited, estimate, hooks);
    AuditedIsEverySuccess(a, audited, estimate, hooks);
    ChargesZeroIff(estimate, hooks[1..]);
  }

  lemma {:induction false} ChargesZeroIff(estimate: int64, hooks: seq<Hook>)
    requires estimate >= 0
    ensures Charges(estimate, hooks) >= 0
    ensures Charges(estimate, hooks) == 0 <==> Quiet(estimate, hooks)
  {
    if hooks == [] {
    } else {
      ChargesZeroIff(estimate, hooks[1..]);
      assert hooks == [hooks[0]] + hooks[1..];
    }
  }

  /** A cancelled call whose action nevertheless completes is the smallest case:
      nothing is spent, and the audit trail says otherwise. */
  lemma CancelledYetAudited(estimate: int64)
    requires 0 < estimate
    ensures var (a, audited) := FireAll(Account(estimate, 0, false), [], estimate, [OnCancel, AfterSuccess(None)]);
            a.spent == 0 && AuditTotal(audited) == estimate as int
  {
    var hooks := [OnCancel, AfterSuccess(None)];
    AuditedIsEverySuccess(Account(estimate, 0, false), [], estimate, hooks);
    FirstHookWins(Account(estimate, 0, false), [], estimate, hooks);
    assert hooks[1..] == [AfterSuccess(None)];
    assert Charges(estimate, [AfterSuccess(None)]) == estimate as int;
  }

  function CostsOf(log: seq<Event>): seq<int64> {
    seq(|log|, i requires 0 <= i < |log| => log[i].cost)
  }

  /** The hooks run against the real ledger; terminal accounting ignores the
      request's own context, so it is never refused for cancellation. */
  class Guarded {
    const ledger: Ledger
    const reservation: LocalReservation

    constructor (ledger: Ledger, reservation: LocalReservation)
      ensures this.ledger == ledger && this.reservation == reservation
    {
      this.ledger, this.reservation := ledger, reservation;
    }

    method Run(hook: Hook, domain: string, operation: string, now: int)
      requires reservation.ledger == ledger && ledger.Valid() && reservation.reserved >= 0
      modifies reservation, ledger, ledger.ring
      ensures ledger.Valid()
      ensures (reservation.View(), CostsOf(ledger.log))
           == Fire(old(reservation.View()), old(CostsOf(ledger.log)), reservation.reserved, hook)
    {
      match hook
      case AfterError => var _ := reservation.Release(Live);
      case OnPanic => var _ := reservation.Release(Live);
      case OnCancel => var _ := reservation.Release(Live);
      case AfterSuccess(reported) =>
        var actual := reservation.reserved;
        if reported.Some? {
          actual := NonNegative(reported.value as int) as int64;
        }
        var _ := reservation.Commit(Live, actual);
        ghost var before := ledger.log;
        if actual > 0 {
          var _ := ledger.Record(Live, Event(domain, operation, actual, "", 0), now);
          assert ledger.log[..|before|] == before;
          assert CostsOf(ledger.log) == CostsOf(before) + [actual];
        }
    }
  }
}
