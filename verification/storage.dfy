/** Runtime tenant budgets in an atomic key-value store: the policy, the
    committed usage and the reservations of a tenant live in one record of
    decimal strings, replaced as a whole and only when the update succeeds. */
module Storage {
  import opened Costs
  import opened Int64
  import opened Sums
  import opened Budgets
  import opened Options
  import opened Decimal
  import Transactions

  /** The stored JSON value, field by field; an absent or empty map is omitted. */
  datatype Raw = Raw(version: int, budget: string, spent: string, reservations: Option<map<string, string>>)

  datatype Record = Record(budget: string, spent: string, reservations: map<string, string>)

  datatype Answer = Granted | Done | Missing | Invalid | Exceeded | NotFound | Refused

  // ---- reading and writing the record ---------------------------------------------

  predicate Readable(amounts: map<string, string>) {
    forall id :: id in amounts ==> id != "" && ParseNonNegative(amounts[id]).Some?
  }

  predicate Valid(r: Record) {
    r.spent != "" && ParseNonNegative(r.spent).Some? && Readable(r.reservations)
  }

  function Decode(raw: Raw): Option<Record> {
    var spent := if raw.spent == "" then "0" else raw.spent;
    var reservations := if raw.reservations.Some? then raw.reservations.value else map[];
    if raw.version != 0 && raw.version != 1 then None
    else if ParseNonNegative(spent).None? then None
    else if !Readable(reservations) then None
    else Some(Record(raw.budget, spent, reservations))
  }

  function Encode(r: Record): Raw {
    Raw(1, r.budget, r.spent, if r.reservations == map[] then None else Some(r.reservations))
  }

  /** Decoding yields valid records only, and decoding what was encoded gives the record back. */
  lemma DecodeEncode(raw: Raw, r: Record)
    ensures Encode(r).version == 1 && (Encode(r).reservations.None? <==> r.reservations == map[])
    ensures Decode(raw).Some? ==> Valid(Decode(raw).value)
    ensures Valid(r) <==> Decode(Encode(r)) == Some(r)
    ensures Decode(raw).Some? ==> Decode(Encode(Decode(raw).value)) == Decode(raw)
  {
    assert ParseNonNegative("0") == Some(0) by {
      RoundTrip(0);
      assert Format(0) == "0";
    }
  }

  function Amount(raw: string): int {
    var parsed := ParseNonNegative(raw);
    if parsed.Some? then parsed.value else 0
  }

  ghost function Holds(r: Record): map<string, int> {
    map id | id in r.reservations :: Amount(r.reservations[id])
  }

  /** Spent, plus held, plus one more estimate, as plain integers. */
  ghost function Total(r: Record, estimate: int): int {
    Amount(r.spent) + Sum(Holds(r)) + estimate
  }

  // ---- the update callbacks -----------------------------------------------------------

  function WithHold(r: Record, id: string, estimate: nat): Record {
    r.(reservations := r.reservations[id := Format(estimate)])
  }

  /** Reserve's verdict, in exact integers whatever the order the map is walked in. */
  ghost function Decision(r: Record, estimate: int): Answer {
    if ParseNonNegative(r.budget).None? then Invalid
    else if Total(r, estimate) > MAX then Invalid
    else if Total(r, estimate) > Amount(r.budget) then Exceeded
    else Granted
  }

  function CommitRecord(r: Record, id: string, actual: int): (Record, Answer) {
    if id !in r.reservations then (r, NotFound)
    else if Amount(r.spent) + actual > MAX then (r, Invalid)
    else (r.(spent := Format(Max(0, Amount(r.spent) + actual)), reservations := r.reservations - {id}), Done)
  }

  function ReleaseRecord(r: Record, id: string): (Record, Answer) {
    if id !in r.reservations then (r, NotFound) else (r.(reservations := r.reservations - {id}), Done)
  }

  datatype Op =
    | SetBudget(limit: int)
    | Reserve(id: string, estimate: int)
    | Commit(id: string, actual: int)
    | Release(id: string)

  predicate Legal(stored: Option<Raw>, op: Op) {
    match op
    case Reserve(id, estimate) =>
      ValidEstimate(estimate) && id != "" &&
      (stored.Some? && stored.value.reservations.Some? ==> id !in stored.value.reservations.value)
    case Commit(_, actual) => 0 <= actual <= MAX
    case _ => true
  }

  /** One atomic update; an error leaves the stored value as it was. */
  ghost function Update(stored: Option<Raw>, op: Op): (Option<Raw>, Answer) {
    match op
    case SetBudget(limit) =>
      if limit < 0 then (stored, Refused)
      else if stored.None? then (Some(Encode(Record(Format(limit), "0", map[]))), Done)
      else
        var r := Decode(stored.value);
        if r.None? then (stored, Invalid) else (Some(Encode(r.value.(budget := Format(limit)))), Done)
    case Reserve(id, estimate) =>
      if stored.None? then (stored, Missing)
      else
        var r := Decode(stored.value);
        if r.None? then (stored, Invalid)
        else if Decision(r.value, estimate) != Granted then (stored, Decision(r.value, estimate))
        else (Some(Encode(WithHold(r.value, id, Max(0, estimate)))), Granted)
    case Commit(id, actual) =>
      if stored.None? then (stored, NotFound)
      else
        var r := Decode(stored.value);
        if r.None? then (stored, Invalid) else Settled(stored, CommitRecord(r.value, id, actual))
    case Release(id) =>
      if stored.None? then (stored, NotFound)
      else
        var r := Decode(stored.value);
        if r.None? then (stored, Invalid) else Settled(stored, ReleaseRecord(r.value, id))
  }

  function Settled(stored: Option<Raw>, settlement: (Record, Answer)): (Option<Raw>, Answer) {
    (if settlement.1.Done? then Some(Encode(settlement.0)) else stored, settlement.1)
  }

  // ---- refinement ------------------------------------------------------------------------

  ghost function Abs(r: Record): Budget<string> {
    Budget(Amount(r.budget), Amount(r.spent), Holds(r))
  }

  ghost function StepsOf(r: Record, op: Op, answer: Answer): seq<Step<string>> {
    match op
    case SetBudget(limit) => if answer.Done? then [SetLimit(limit)] else []
    case Reserve(id, estimate) => if answer.Granted? then [Step.Reserve(id, estimate)] else []
    case Commit(id, actual) => if answer.Done? then [Step.Commit(id, actual)] else []
    case Release(id) => if answer.Done? then [Step.Release(id)] else []
  }

  lemma HoldsNonNegative(r: Record)
    requires Valid(r)
    ensures Sum(Holds(r)) >= 0 && Abs(r).Valid() && Abs(r).Used() == Total(r, 0)
  {
    SumNonNegative(Holds(r));
  }

  lemma SetBudgetRefines(r: Record, limit: int)
    requires Valid(r) && 0 <= limit <= MAX
    ensures var r' := r.(budget := Format(limit));
            Valid(r') && Path(Abs(r), [SetLimit(limit)], Abs(r'), false)
            && Holds(r') == Holds(r) && Amount(r'.spent) == Amount(r.spent)
  {
    RoundTrip(limit);
    OneStep(Abs(r), SetLimit(limit), false);
  }

  lemma ReserveRefines(r: Record, id: string, estimate: int)
    requires Valid(r) && ValidEstimate(estimate) && id != "" && id !in r.reservations
    requires Decision(r, estimate) == Granted
    ensures Valid(WithHold(r, id, estimate))
    ensures Path(Abs(r), [Step.Reserve(id, estimate)], Abs(WithHold(r, id, estimate)), false)
  {
    RoundTrip(estimate);
    assert Holds(WithHold(r, id, estimate)) == Holds(r)[id := estimate];
    OneStep(Abs(r), Step.Reserve(id, estimate), false);
  }

  lemma CommitRefines(r: Record, id: string, actual: int)
    requires Valid(r) && 0 <= actual && CommitRecord(r, id, actual).1.Done?
    ensures var r' := CommitRecord(r, id, actual).0;
            Valid(r') && Path(Abs(r), [Step.Commit(id, actual)], Abs(r'), false)
  {
    var r' := CommitRecord(r, id, actual).0;
    RoundTrip(Amount(r.spent) + actual);
    assert Holds(r') == Holds(r) - {id};
    OneStep(Abs(r), Step.Commit(id, actual), false);
  }

  lemma ReleaseRefines(r: Record, id: string)
    requires Valid(r) && ReleaseRecord(r, id).1.Done?
    ensures var r' := ReleaseRecord(r, id).0;
            Valid(r') && Path(Abs(r), [Step.Release(id)], Abs(r'), false)
  {
    var r' := ReleaseRecord(r, id).0;
    assert Holds(r') == Holds(r) - {id};
    OneStep(Abs(r), Step.Release(id), false);
  }

  /** An update either answers with an error and leaves the stored value as it
      was, or is one step of the tenant's budget. */
  lemma UpdateRefines(stored: Option<Raw>, op: Op, r: Record, after: Option<Raw>, answer: Answer)
    requires stored.Some? && Decode(stored.value) == Some(r) && Legal(stored, op) && (op.SetBudget? ==> op.limit <= MAX)
    requires (after, answer) == Update(stored, op)
    ensures answer.Granted? || answer.Done? || after == stored
    ensures after.Some? && Decode(after.value).Some?
    ensures Path(Abs(r), StepsOf(r, op, answer), Abs(Decode(after.value).value), false)
  {
    DecodeEncode(stored.value, r);
    if answer.Granted? || answer.Done? {
      match op
      case SetBudget(limit) =>
        SetBudgetRefines(r, limit);
        DecodeEncode(stored.value, r.(budget := Format(limit)));
      case Reserve(id, estimate) =>
        ReserveRefines(r, id, estimate);
        DecodeEncode(stored.value, WithHold(r, id, estimate));
      case Commit(id, actual) =>
        CommitRefines(r, id, actual);
        DecodeEncode(stored.value, CommitRecord(r, id, actual).0);
      case Release(id) =>
        ReleaseRefines(r, id);
        DecodeEncode(stored.value, ReleaseRecord(r, id).0);
    }
  }

  /** Without a readable policy nothing is granted or denied as exhausted, and
      nothing changes, except that a tenant's first budget starts an empty record. */
  lemma FailsClosed(stored: Option<Raw>, op: Op, after: Option<Raw>, answer: Answer)
    requires stored.None? || Decode(stored.value).None?
          || (op.Reserve? && ParseNonNegative(Decode(stored.value).value.budget).None?)
    requires (after, answer) == Update(stored, op) && (op.SetBudget? ==> op.limit <= MAX)
    ensures !answer.Granted? && !answer.Exceeded?
    ensures after == stored
         || (stored.None? && op.SetBudget? && Decode(after.value) == Some(Record(Format(op.limit), "0", map[])))
  {
    if op.SetBudget? && op.limit >= 0 {
      var empty := Record(Format(op.limit), "0", map[]);
      DecodeEncode(Encode(empty), empty);
      RoundTrip(0);
      assert Format(0) == "0";
    }
  }

  // ---- runs ------------------------------------------------------------------------------

  datatype Event = Event(op: Op, fate: Transactions.Fate)

  ghost function Apply(stored: Option<Raw>, event: Event): Option<Raw> {
    if event.fate.Lost? then stored else Update(stored, event.op).0
  }

  ghost predicate Trace(stored: Option<Raw>, events: seq<Event>, stored': Option<Raw>)
    decreases |events|
  {
    if events == [] then stored == stored'
    else Legal(stored, events[0].op) && (events[0].op.SetBudget? ==> events[0].op.limit <= MAX)
         && Trace(Apply(stored, events[0]), events[1..], stored')
  }

  /** What the commits applied during a run charged. */
  ghost function Committed(stored: Option<Raw>, events: seq<Event>): int
    decreases |events|
  {
    if events == [] then 0
    else CommittedAt(stored, events[0]) + Committed(Apply(stored, events[0]), events[1..])
  }

  ghost function CommittedAt(stored: Option<Raw>, event: Event): int {
    if event.op.Commit? && !event.fate.Lost? && Update(stored, event.op).1.Done? then event.op.actual else 0
  }

  ghost function StepsAt(stored: Option<Raw>, event: Event): seq<Step<string>> {
    if event.fate.Lost? || stored.None? || Decode(stored.value).None? then []
    else StepsOf(Decode(stored.value).value, event.op, Update(stored, event.op).1)
  }

  ghost function StepsIn(stored: Option<Raw>, events: seq<Event>): seq<Step<string>>
    decreases |events|
  {
    if events == [] then [] else StepsAt(stored, events[0]) + StepsIn(Apply(stored, events[0]), events[1..])
  }

  /** Over any mix of policy changes, reservations, settlements and failures, a
      tenant's record stays readable and goes through a run of the budget
      machine, and stored spend grows by exactly what was committed. */
  lemma {:induction false} LifeCycle(stored: Option<Raw>, events: seq<Event>, stored': Option<Raw>)
    requires stored.Some? && Decode(stored.value).Some? && Trace(stored, events, stored')
    ensures stored'.Some? && Decode(stored'.value).Some?
    ensures Path(Abs(Decode(stored.value).value), StepsIn(stored, events), Abs(Decode(stored'.value).value), false)
    ensures Amount(Decode(stored'.value).value.spent)
         == Amount(Decode(stored.value).value.spent) + Committed(stored, events)
    decreases |events|
  {
    if events == [] {
    } else {
      var r, next := Decode(stored.value).value, Apply(stored, events[0]);
      OneEvent(stored, events[0], r, next);
      LifeCycle(next, events[1..], stored');
      PathConcat(Abs(r), StepsAt(stored, events[0]), Abs(Decode(next.value).value), StepsIn(next, events[1..]),
                 Abs(Decode(stored'.value).value), false);
    }
  }

  lemma OneEvent(stored: Option<Raw>, event: Event, r: Record, next: Option<Raw>)
    requires stored.Some? && Decode(stored.value) == Some(r) && next == Apply(stored, event)
    requires Legal(stored, event.op) && (event.op.SetBudget? ==> event.op.limit <= MAX)
    ensures next.Some? && Decode(next.value).Some?
    ensures Path(Abs(r), StepsAt(stored, event), Abs(Decode(next.value).value), false)
    ensures Amount(Decode(next.value).value.spent) == Amount(r.spent) + CommittedAt(stored, event)
  {
    if !event.fate.Lost? {
      var (after, answer) := Update(stored, event.op);
      UpdateRefines(stored, event.op, r, after, answer);
      assert forall step :: StepsAt(stored, event) == [step] ==> Next(Abs(r), step) == Abs(Decode(next.value).value);
    }
  }

  /** Usage passes the highest limit ever set by no more than commits overran their reservations. */
  lemma UsageBound(stored: Option<Raw>, events: seq<Event>, stored': Option<Raw>)
    requires stored.Some? && Decode(stored.value).Some? && Trace(stored, events, stored')
    ensures stored'.Some? && Decode(stored'.value).Some?
    ensures var r, r' := Decode(stored.value).value, Decode(stored'.value).value;
            Total(r', 0) <= Max(Total(r, 0), Peak(Amount(r.budget), StepsIn(stored, events)))
                            + Overshoot(Abs(r), StepsIn(stored, events))
  {
    var r := Decode(stored.value).value;
    LifeCycle(stored, events, stored');
    DecodeEncode(stored.value, r);
    HoldsNonNegative(r);
    PoliciesNonNegative(stored, events, stored');
    OvershootBound(Abs(r), StepsIn(stored, events), Abs(Decode(stored'.value).value), false);
  }

  /** A policy that is refused for being negative is never stored. */
  lemma {:induction false} PoliciesNonNegative(stored: Option<Raw>, events: seq<Event>, stored': Option<Raw>)
    requires stored.Some? && Decode(stored.value).Some? && Trace(stored, events, stored')
    ensures Capped(Amount(Decode(stored.value).value.budget), StepsIn(stored, events))
    decreases |events|
  {
    if events == [] {
    } else {
      var next, first := Apply(stored, events[0]), StepsAt(stored, events[0]);
      OneEvent(stored, events[0], Decode(stored.value).value, next);
      PoliciesNonNegative(next, events[1..], stored');
      assert forall i :: 0 <= i < |first| && first[i].SetLimit? ==> first[i].limit >= 0;
    }
  }

  /** Committed and held usage of a readable record, and whether its policy covers it. */
  ghost predicate Within(stored: Option<Raw>) {
    stored.Some? && Decode(stored.value).Some? &&
    Total(Decode(stored.value).value, 0) <= Amount(Decode(stored.value).value.budget)
  }

  ghost predicate AlwaysWithin(stored: Option<Raw>, events: seq<Event>)
    decreases |events|
  {
    Within(stored) && (events != [] ==> AlwaysWithin(Apply(stored, events[0]), events[1..]))
  }

  /** A commit that takes effect is covered by what the policy leaves beside the
      other holds, and a new policy covers what is in use. */
  ghost predicate Covered(stored: Option<Raw>, event: Event)
    requires stored.Some? && Decode(stored.value).Some?
  {
    var r := Decode(stored.value).value;
    !event.fate.Lost? && Update(stored, event.op).1.Done? ==>
      match event.op
      case Commit(id, actual) => id in Holds(r) ==> Total(r, 0) - Holds(r)[id] + actual <= Amount(r.budget)
      case SetBudget(limit) => Total(r, 0) <= limit
      case _ => true
  }

  ghost predicate Funded(stored: Option<Raw>, events: seq<Event>)
    decreases |events|
  {
    events != [] && stored.Some? && Decode(stored.value).Some? ==>
      Covered(stored, events[0]) && Funded(Apply(stored, events[0]), events[1..])
  }

  /** When a tenant's usage stays within its policy: in exactly the runs whose
      commits and policy changes are covered. */
  lemma {:induction false} WithinIffFunded(stored: Option<Raw>, events: seq<Event>, stored': Option<Raw>)
    requires Within(stored) && Trace(stored, events, stored')
    ensures AlwaysWithin(stored, events) <==> Funded(stored, events)
    decreases |events|
  {
    if events == [] {
    } else {
      var r, next := Decode(stored.value).value, Apply(stored, events[0]);
      OneEvent(stored, events[0], r, next);
      WithinNext(stored, events[0], r, next);
      if Within(next) {
        WithinIffFunded(next, events[1..], stored');
      }
    }
  }

  lemma WithinNext(stored: Option<Raw>, event: Event, r: Record, next: Option<Raw>)
    requires Within(stored) && Decode(stored.value) == Some(r) && next == Apply(stored, event)
    requires Legal(stored, event.op) && (event.op.SetBudget? ==> event.op.limit <= MAX)
    ensures Within(next) <==> Covered(stored, event)
  {
    DecodeEncode(stored.value, r);
    HoldsNonNegative(r);
    OneEvent(stored, event, r, next);
    var r' := Decode(next.value).value;
    DecodeEncode(next.value, r');
    HoldsNonNegative(r');
    if StepsAt(stored, event) != [] {
      StepIs(Abs(r), StepsAt(stored, event)[0], Abs(r'), StepsAt(stored, event));
    }
  }

  lemma StepIs(b: Budget<string>, step: Step<string>, b': Budget<string>, steps: seq<Step<string>>)
    requires b.Valid() && 0 <= b.limit && b.Used() <= b.limit && steps == [step] && Path(b, steps, b', false)
    ensures Enabled(b, step, false) && b' == Next(b, step)
    ensures b'.Used() <= b'.limit <==> Enabled(b, step, true)
  {
    assert Path(Next(b, step), steps[1..], b', false);
    UsedAfter(b, step, false);
  }

  /** A policy change keeps spend and holds, and never keeps an in-flight hold from settling. */
  lemma PolicyNeverBlocks(stored: Option<Raw>, limit: int, id: string, actual: int)
    requires stored.Some? && Decode(stored.value).Some? && 0 <= limit <= MAX && 0 <= actual <= MAX
    ensures var changed := Update(stored, SetBudget(limit)).0;
            && Holds(Decode(changed.value).value) == Holds(Decode(stored.value).value)
            && Decode(changed.value).value.spent == Decode(stored.value).value.spent
            && Update(changed, Op.Commit(id, actual)).1 == Update(stored, Op.Commit(id, actual)).1
            && Update(changed, Op.Release(id)).1 == Update(stored, Op.Release(id)).1
  {
    var r := Decode(stored.value).value;
    DecodeEncode(stored.value, r.(budget := Format(limit)));
  }

  // ---- exact answers ---------------------------------------------------------------------

  /** The stored value has been replaced by the record `r'`. */
  predicate Stores(after: Option<Raw>, r': Record) {
    after.Some? && Decode(after.value) == Some(r')
  }

  /** Reserve decides by the abstract budget: granted if it admits the estimate,
      invalid if the new total does not fit in an int64 or the policy cannot be
      read, exceeded otherwise; a grant adds the hold and nothing else. */
  lemma AdmissionExact(stored: Option<Raw>, r: Record, id: string, estimate: int, after: Option<Raw>, answer: Answer)
    requires stored.Some? && Decode(stored.value) == Some(r) && Legal(stored, Op.Reserve(id, estimate))
    requires (after, answer) == Update(stored, Op.Reserve(id, estimate))
    ensures var policy := ParseNonNegative(r.budget);
            var total := Abs(r).Used() + estimate;
            answer == if policy.None? || total > 0x7FFF_FFFF_FFFF_FFFF then Invalid
                      else if Admits(Abs(r), estimate) then Granted
                      else Exceeded
    ensures if answer.Granted? then Stores(after, WithHold(r, id, estimate)) && Amount(Format(estimate)) == estimate
            else after == stored
  {
    DecodeEncode(stored.value, r);
    HoldsNonNegative(r);
    RoundTrip(estimate);
    if Decision(r, estimate).Granted? {
      ReserveRefines(r, id, estimate);
      DecodeEncode(stored.value, WithHold(r, id, estimate));
    }
  }

  /** A reservation on record is settled by its Commit if the new spend fits in
      an int64, whatever was reserved and whatever the policy, and by its Release
      always; one that is not on record is not found. */
  lemma SettlementExact(stored: Option<Raw>, r: Record, id: string, actual: int)
    requires stored.Some? && Decode(stored.value) == Some(r) && 0 <= actual
    ensures var (after, answer) := Update(stored, Op.Commit(id, actual));
            && (answer.Done? <==> id in r.reservations && Amount(r.spent) + actual <= 0x7FFF_FFFF_FFFF_FFFF)
            && (answer.NotFound? <==> id !in r.reservations)
            && (answer.Done? ==>
                  exists raw :: Stores(after, r.(spent := raw, reservations := r.reservations - {id}))
                                && Amount(raw) == Amount(r.spent) + actual)
            && (!answer.Done? ==> after == stored)
    ensures var (after, answer) := Update(stored, Op.Release(id));
            && (answer.Done? <==> id in r.reservations) && (answer.NotFound? <==> id !in r.reservations)
            && (answer.Done? ==> Stores(after, r.(reservations := r.reservations - {id})))
            && (!answer.Done? ==> after == stored)
  {
    DecodeEncode(stored.value, r);
    if id in r.reservations {
      DecodeEncode(stored.value, ReleaseRecord(r, id).0);
      if Amount(r.spent) + actual <= MAX {
        CommitRefines(r, id, actual);
        DecodeEncode(stored.value, CommitRecord(r, id, actual).0);
        RoundTrip(Amount(r.spent) + actual);
        assert Stores(Update(stored, Op.Commit(id, actual)).0,
                      r.(spent := Format(Amount(r.spent) + actual), reservations := r.reservations - {id}));
      }
    }
  }

  /** A policy is stored exactly if it is not negative and there is no record yet
      or a readable one, and then it is the one Reserve goes by. */
  lemma PolicyExact(stored: Option<Raw>, limit: int)
    requires limit <= MAX
    ensures var (after, answer) := Update(stored, SetBudget(limit));
            && (answer.Done? <==> 0 <= limit && (stored.Some? ==> Decode(stored.value).Some?))
            && (answer.Done? ==>
                  && after.Some? && Decode(after.value).Some?
                  && ParseNonNegative(Decode(after.value).value.budget) == Some(limit)
                  && (stored.None? ==> Abs(Decode(after.value).value) == Budget(limit, 0, map[])))
            && (!answer.Done? ==> after == stored)
  {
    if 0 <= limit {
      RoundTrip(limit);
      RoundTrip(0);
      assert Format(0) == "0";
      if stored.None? {
        DecodeEncode(Encode(Record(Format(limit), "0", map[])), Record(Format(limit), "0", map[]));
        assert Holds(Record(Format(limit), "0", map[])) == map[];
      } else if Decode(stored.value).Some? {
        var r := Decode(stored.value).value;
        DecodeEncode(stored.value, r.(budget := Format(limit)));
      }
    }
  }

  /** An event that may settle reservation `id`. */
  predicate Settles(op: Op, id: string) {
    (op.Commit? || op.Release?) && op.id == id
  }

  /** A hold stays settleable until something settles it: over any run of other
      updates, policy changes included, it stays on record with its amount, so
      its Release succeeds, and its Commit does if the new spend fits. */
  lemma {:induction false} StaysSettleable(stored: Option<Raw>, events: seq<Event>, stored': Option<Raw>, id: string,
                                           actual: int)
    requires stored.Some? && Decode(stored.value).Some? && id in Decode(stored.value).value.reservations
    requires Trace(stored, events, stored') && 0 <= actual
    requires forall i :: 0 <= i < |events| ==> !Settles(events[i].op, id)
    ensures stored'.Some? && Decode(stored'.value).Some?
    ensures var r, r' := Decode(stored.value).value, Decode(stored'.value).value;
            && id in r'.reservations && r'.reservations[id] == r.reservations[id]
            && Update(stored', Op.Release(id)).1.Done?
            && (Update(stored', Op.Commit(id, actual)).1.Done?
                <==> Amount(r'.spent) + actual <= 0x7FFF_FFFF_FFFF_FFFF)
    decreases |events|
  {
    var r := Decode(stored.value).value;
    if events == [] {
      SettlementExact(stored, r, id, actual);
    } else {
      var next := Apply(stored, events[0]);
      OneEvent(stored, events[0], r, next);
      OthersLeave(stored, events[0].op, r, id);
      StaysSettleable(next, events[1..], stored', id, actual);
    }
  }

  lemma OthersLeave(stored: Option<Raw>, op: Op, r: Record, id: string)
    requires stored.Some? && Decode(stored.value) == Some(r) && id in r.reservations
    requires Legal(stored, op) && !Settles(op, id) && (op.SetBudget? ==> op.limit <= MAX)
    ensures var after := Update(stored, op).0;
            && after.Some? && Decode(after.value).Some? && id in Decode(after.value).value.reservations
            && Decode(after.value).value.reservations[id] == r.reservations[id]
  {
    match op
    case SetBudget(limit) =>
      if 0 <= limit {
        DecodeEncode(stored.value, r.(budget := Format(limit)));
      }
    case Reserve(new_, estimate) =>
      AdmissionExact(stored, r, new_, estimate, Update(stored, op).0, Update(stored, op).1);
    case Commit(other, actual) => SettlementExact(stored, r, other, actual);
    case Release(other) => SettlementExact(stored, r, other, 0);
  }

  /** The caller is told of a failure when the update was lost, and when it was
      applied but the store reported a failure; any other answer is the true one. */
  lemma AnswersAreTrue(stored: Option<Raw>, event: Event, after: Option<Raw>, answer: Answer)
    requires (after, answer) == Update(stored, event.op)
    ensures (Apply(stored, event), AnswerTo(answer, event.fate))
         == match event.fate
            case Delivered => (after, answer)
            case Lost => (stored, Refused)
            case Ambiguous => (after, if answer.Done? || answer.Granted? then Refused else answer)
  {
  }

  /** What can be read: version 0 or 1, a spend that is absent or a non-negative
      decimal, and reservations with ids and non-negative decimals; an absent
      spend is zero. */
  lemma ReadableIff(raw: Raw)
    ensures Decode(raw).Some?
       <==> && 0 <= raw.version <= 1 && (raw.spent == "" || ParseNonNegative(raw.spent).Some?)
            && (raw.reservations.Some? ==>
                  forall id :: id in raw.reservations.value ==>
                    id != "" && ParseNonNegative(raw.reservations.value[id]).Some?)
    ensures Decode(raw).Some? ==>
              var r := Decode(raw).value;
              && r.budget == raw.budget && Amount(r.spent) == (if raw.spent == "" then 0 else Amount(raw.spent))
              && r.reservations == (if raw.reservations.Some? then raw.reservations.value else map[])
  {
    assert ParseNonNegative("0") == Some(0) by {
      RoundTrip(0);
      assert Format(0) == "0";
    }
  }

  // ---- the code step by step ------------------------------------------------------------------

  /** Reserve's admission: an overflow-guarded int64 sum over the reservations
      in an arbitrary order. The guards make it exact. */
  method Admit(r: Record, estimate: int64) returns (answer: Answer)
    requires Valid(r) && ValidEstimate(estimate as int)
    ensures answer == Decision(r, estimate as int)
  {
    var parsed := ParseNonNegative(r.budget);
    if parsed.None? { return Invalid; }
    var limit, spent := parsed.value as int64, Amount(r.spent) as int64;
    var reserved: int64 := 0;
    var rest := r.reservations.Keys;
    assert Holds(r) - rest == map[];
    while rest != {}
      invariant rest <= r.reservations.Keys && reserved as int == Sum(Holds(r) - rest) && reserved >= 0
      decreases rest
    {
      var id :| id in rest;
      var amount := Amount(r.reservations[id]) as int64;
      SumAbsorb(Holds(r), rest, id);
      if amount > MAX as int64 - reserved { return Invalid; }
      reserved := reserved + amount;
      rest := rest - {id};
    }
    assert Holds(r) - rest == Holds(r);
    if spent > MAX as int64 - reserved || estimate > MAX as int64 - (spent + reserved) { return Invalid; }
    var used := spent + reserved;
    if estimate > limit - used { return Exceeded; }
    return Granted;
  }

  /** The answer to the caller, who learns of an applied update only if it is delivered. */
  function AnswerTo(answer: Answer, fate: Transactions.Fate): Answer {
    Transactions.Told(answer, answer.Granted? || answer.Done?, Refused, fate)
  }

  class Tenant {
    var stored: Option<Raw>

    constructor ()
      ensures stored == None
    {
      stored := None;
    }

    method SetRuntimeBudget(live: bool, limit: int64, fate: Transactions.Fate) returns (ok: bool)
      modifies this
      ensures stored == if live then Apply(old(stored), Event(SetBudget(limit as int), fate)) else old(stored)
      ensures ok <==> live && fate.Delivered? && Update(old(stored), SetBudget(limit as int)).1.Done?
    {
      if !live || limit < 0 { return false; }
      var record := Record("", "0", map[]);
      if stored.Some? {
        var decoded := Decode(stored.value);
        if decoded.None? { return false; }
        record := decoded.value;
      }
      record := record.(budget := Format(limit as int));
      if fate.Lost? { return false; }
      stored := Some(Encode(record));
      return fate.Delivered?;
    }

    method Reserve(live: bool, id: string, estimate: int64, fate: Transactions.Fate) returns (answer: Answer)
      modifies this
      ensures live && 0 <= estimate <= 0x3FFF_FFFF_FFFF_FFFF ==>
                stored == Apply(old(stored), Event(Op.Reserve(id, estimate as int), fate))
      ensures !live || !(0 <= estimate <= 0x3FFF_FFFF_FFFF_FFFF) ==> stored == old(stored) && answer == Refused
      ensures live && 0 <= estimate <= 0x3FFF_FFFF_FFFF_FFFF ==>
                answer == AnswerTo(Update(old(stored), Op.Reserve(id, estimate as int)).1, fate)
    {
      if !live || !ValidEstimate(estimate as int) { return Refused; }
      if fate.Lost? { return Refused; }
      if stored.None? { return Missing; }
      var decoded := Decode(stored.value);
      if decoded.None? { return Invalid; }
      DecodeEncode(stored.value, decoded.value);
      answer := Admit(decoded.value, estimate);
      if answer != Granted { return; }
      stored := Some(Encode(WithHold(decoded.value, id, estimate as int)));
      if fate.Ambiguous? {
        answer := Refused;
      }
    }
  }

  /** A reservation handle: one successful terminal call, and nothing after it. */
  class Reservation {
    const tenant: Tenant
    const id: string
    var done: bool

    constructor (tenant: Tenant, id: string)
      ensures this.tenant == tenant && this.id == id && !done
    {
      this.tenant, this.id, done := tenant, id, false;
    }

    method Commit(live: bool, actual: int64, fate: Transactions.Fate) returns (answer: Answer)
      modifies this`done, tenant
      ensures !live || old(done) ==>
                tenant.stored == old(tenant.stored) && done == old(done) && answer == if live then Done else Refused
      ensures live && !old(done) ==>
                && done == answer.Done?
                && var commit := Op.Commit(id, if actual < 0 then 0 else actual as int);
                   tenant.stored == Apply(old(tenant.stored), Event(commit, fate))
                   && answer == AnswerTo(Update(old(tenant.stored), commit).1, fate)
    {
      if !live { return Refused; }
      if done { return Done; }
      var charge := NonNegative(actual as int) as int64;
      if fate.Lost? { return Refused; }
      if tenant.stored.None? { return NotFound; }
      var decoded := Decode(tenant.stored.value);
      if decoded.None? { return Invalid; }
      var record := decoded.value;
      if id !in record.reservations { return NotFound; }
      DecodeEncode(tenant.stored.value, record);
      record := record.(reservations := record.reservations - {id});
      var spent := Amount(record.spent) as int64;
      if charge > MAX as int64 - spent { return Invalid; }
      record := record.(spent := Format((spent + charge) as int));
      tenant.stored := Some(Encode(record));
      if fate.Ambiguous? { return Refused; }
      done := true;
      return Done;
    }

    method Release(live: bool, fate: Transactions.Fate) returns (answer: Answer)
      modifies this`done, tenant
      ensures !live || old(done) ==>
                tenant.stored == old(tenant.stored) && done == old(done) && answer == if live then Done else Refused
      ensures live && !old(done) ==>
                && tenant.stored == Apply(old(tenant.stored), Event(Op.Release(id), fate))
                && answer == AnswerTo(Update(old(tenant.stored), Op.Release(id)).1, fate)
                && done == answer.Done?
    {
      if !live { return Refused; }
      if done { return Done; }
      if fate.Lost? { return Refused; }
      if tenant.stored.None? { return NotFound; }
      var decoded := Decode(tenant.stored.value);
      if decoded.None? { return Invalid; }
      var record := decoded.value;
      if id !in record.reservations { return NotFound; }
      record := record.(reservations := record.reservations - {id});
      tenant.stored := Some(Encode(record));
      if fate.Ambiguous? { return Refused; }
      done := true;
      return Done;
    }
  }
}
