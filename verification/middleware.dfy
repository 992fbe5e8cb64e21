/** The quota middleware around a protected action, composed with the abstract
    budget. The environment decides everything the code cannot: whether the
    backend fails, and whether a failed call had taken effect; whether the
    target, its cost report, or a backend call panics; and what other requests,
    lapsing leases and policy changes do to the same budget meanwhile. */
module Middleware {
  import opened Costs
  import opened Int64
  import opened Sums
  import opened Budgets
  import opened Options

  type Id = string

  /** A backend call does what its contract says, or it fails or panics, with or without its effect. */
  datatype Weather = Clear | Fails(applied: bool) | Panics(applied: bool)

  datatype Target = Returns(reported: Option<int64>) | Errs | Blows

  /** What others do to the budget: other requests, a lease that lapses (maybe our own), a new limit. */
  datatype Other =
    | OtherReserve(id: Id, amount: int)
    | OtherCommit(id: Id, actual: int)
    | OtherRelease(id: Id)
    | Lapse(id: Id)
    | Policy(limit: int)

  datatype Env = Env(
    estimate: Option<int64>,    // None: the estimate does not resolve
    identified: bool,           // the trusted tenant or account identity is present
    inputIsObject: bool,
    reserve: Weather,
    target: Target,
    others: seq<Other>,         // while the target runs
    later: seq<Other>,          // between a failed settlement and the deferred cleanup
    reportBlows: bool,          // asking the output for its cost panics
    commit: Weather,
    release: Weather,
    record: Weather,
    outputIsObject: bool)

  datatype Call =
    | ReserveCall(granted: bool)
    | TargetCall
    | CommitCall(ok: bool)
    | ReleaseCall(ok: bool)
    | RecordCall(ok: bool)

  datatype Outcome = Output(reserved: bool) | Error | Panic

  datatype Answer = Yes | No | Broken | Blown

  // ---- whose step is whose -----------------------------------------------------

  function StepOf(other: Other): Step<Id> {
    match other
    case OtherReserve(id, amount) => Step.Reserve(id, amount)
    case OtherCommit(id, actual) => Step.Commit(id, actual)
    case OtherRelease(id) => Step.Release(id)
    case Lapse(id) => Expire({id})
    case Policy(limit) => SetLimit(limit)
  }

  /** A reservation, commit or release of `id`. */
  predicate Names(step: Step<Id>, id: Id) {
    match step
    case Reserve(i, _) => i == id
    case Commit(i, _) => i == id
    case Release(i) => i == id
    case _ => false
  }

  function Own(steps: seq<Step<Id>>, id: Id): seq<Step<Id>> {
    if steps == [] then []
    else Own(steps[..|steps| - 1], id) + (if Names(steps[|steps| - 1], id) then [steps[|steps| - 1]] else [])
  }

  function Foreign(steps: seq<Step<Id>>, id: Id): seq<Step<Id>> {
    if steps == [] then []
    else Foreign(steps[..|steps| - 1], id) + (if Names(steps[|steps| - 1], id) then [] else [steps[|steps| - 1]])
  }

  lemma OneMoreStep(steps: seq<Step<Id>>, step: Step<Id>, id: Id)
    ensures Own(steps + [step], id) == Own(steps, id) + (if Names(step, id) then [step] else [])
    ensures Foreign(steps + [step], id) == Foreign(steps, id) + (if Names(step, id) then [] else [step])
  {
    assert (steps + [step])[..|steps + [step]| - 1] == steps;
  }

  lemma {:induction false} ChargedAppend(s: seq<Step<Id>>, t: seq<Step<Id>>)
    ensures Charged(s + t) == Charged(s) + Charged(t)
    decreases |s|
  {
    if s == [] {
      assert s + t == t;
    } else {
      ChargedAppend(s[1..], t);
      assert (s + t)[0] == s[0] && (s + t)[1..] == s[1..] + t;
    }
  }

  lemma {:induction false} ChargedSplits(steps: seq<Step<Id>>, id: Id)
    ensures Charged(steps) == Charged(Own(steps, id)) + Charged(Foreign(steps, id))
    decreases |steps|
  {
    if steps == [] {
    } else {
      var front, last := steps[..|steps| - 1], steps[|steps| - 1];
      ChargedSplits(front, id);
      OneMoreStep(front, last, id);
      assert front + [last] == steps;
      ChargedAppend(front, [last]);
      ChargedAppend(Own(front, id), if Names(last, id) then [last] else []);
      ChargedAppend(Foreign(front, id), if Names(last, id) then [] else [last]);
    }
  }

  lemma SpentIs(origin: Budget<Id>, steps: seq<Step<Id>>, b: Budget<Id>, prepaid: bool, id: Id,
                own: seq<Step<Id>>, foreign: seq<Step<Id>>)
    requires Path(origin, steps, b, prepaid) && own == Own(steps, id) && foreign == Foreign(steps, id)
    ensures b.spent == origin.spent + Charged(own) + Charged(foreign)
  {
    SettledExactlyOnce(origin, steps, b, prepaid, id);
    ChargedSplits(steps, id);
  }

  /** What a stretch of a run adds to the spend: its own charge and what others were charged. */
  lemma ChargedPerRequest(origin: Budget<Id>, steps: seq<Step<Id>>, b: Budget<Id>,
                          steps': seq<Step<Id>>, b': Budget<Id>,
                          prepaid: bool, id: Id, mine: seq<Step<Id>>, theirs: seq<Step<Id>>)
    requires Path(origin, steps, b, prepaid) && Path(origin, steps', b', prepaid)
    requires Own(steps', id) == Own(steps, id) + mine && Foreign(steps', id) == Foreign(steps, id) + theirs
    ensures b'.spent == b.spent + Charged(mine) + Charged(theirs)
  {
    var own, foreign := Own(steps, id), Foreign(steps, id);
    SpentIs(origin, steps, b, prepaid, id, own, foreign);
    SpentIs(origin, steps', b', prepaid, id, own + mine, foreign + theirs);
    ChargedAppend(own, mine);
    ChargedAppend(foreign, theirs);
  }

  function StepsOf(others: seq<Other>): seq<Step<Id>> {
    seq(|others|, i requires 0 <= i < |others| => StepOf(others[i]))
  }

  /** Every one of these steps is one of those the environment takes. */
  predicate From(theirs: seq<Step<Id>>, others: seq<Other>) {
    forall step :: step in theirs ==> step in StepsOf(others)
  }

  // ---- the calls of a request ----------------------------------------------------

  function Answered(weather: Weather, ok: bool): Answer {
    match weather
    case Clear => if ok then Yes else No
    case Fails(_) => Broken
    case Panics(_) => Blown
  }

  function TakesEffect(weather: Weather): bool {
    weather.Clear? || weather.applied
  }

  predicate Ran(calls: seq<Call>) {
    |calls| >= 2 && calls[1] == TargetCall
  }

  predicate Committed(calls: seq<Call>) {
    |calls| >= 3 && calls[2] == CommitCall(true)
  }

  /** No record was to be made, or it succeeded. */
  predicate Recorded(calls: seq<Call>) {
    |calls| == 4 ==> calls[3] == RecordCall(true)
  }

  /** The backend and target calls one request may make, in order: nothing; a
      refused reservation; or a granted one, the target, and then either a
      successful commit with at most one audit record, or exactly one release
      attempt after at most one failed commit. */
  predicate Proper(calls: seq<Call>) {
    || calls == []
    || calls == [ReserveCall(false)]
    || (&& |calls| >= 3 && calls[0] == ReserveCall(true) && calls[1] == TargetCall
        && (|| (|calls| == 3 && (calls[2] == CommitCall(true) || calls[2].ReleaseCall?))
            || (|calls| == 4 && calls[2] == CommitCall(true) && calls[3].RecordCall?)
            || (|calls| == 4 && calls[2] == CommitCall(false) && calls[3].ReleaseCall?)))
  }

  function Releases(calls: seq<Call>): nat {
    multiset(calls)[ReleaseCall(true)] + multiset(calls)[ReleaseCall(false)]
  }

  /** What a proper request amounts to: the target runs once if and only if the
      reservation was granted, and every run is paired with one successful
      commit or one release attempt, never both and never neither. */
  lemma ProperMeans(calls: seq<Call>)
    requires Proper(calls)
    ensures multiset(calls)[TargetCall] == (if ReserveCall(true) in calls then 1 else 0)
    ensures multiset(calls)[TargetCall] == multiset(calls)[CommitCall(true)] + Releases(calls)
    ensures Ran(calls) <==> TargetCall in calls
    ensures Committed(calls) <==> CommitCall(true) in calls
  {
    if |calls| >= 3 {
      var tail := calls[2..];
      assert calls == [ReserveCall(true), TargetCall] + tail;
      assert multiset(calls) == multiset{ReserveCall(true), TargetCall} + multiset(tail);
      assert tail == if |calls| == 3 then [calls[2]] else [calls[2], calls[3]];
    }
  }

  /** Nothing is wrong with the request, and the backend takes its reservation. */
  predicate Clean(env: Env) {
    env.identified && env.estimate.Some? && 0 <= env.estimate.value <= 0x3FFF_FFFF_FFFF_FFFF && env.reserve.Clear?
  }

  /** The target returns within its lease, its cost can be read, and the backend takes the commit. */
  predicate Completes(env: Env, id: Id) {
    && env.target.Returns? && !(env.target.reported.Some? && env.reportBlows)
    && Lapse(id) !in env.others && env.commit.Clear?
  }

  /** Whether `other` can happen now, given the counter `used`; nobody else uses this request's id. */
  predicate Possible(b: Budget<Id>, used: int, other: Other, id: Id, prepaid: bool) {
    !Names(StepOf(other), id) &&
    match other
    case OtherReserve(i, amount) => i !in b.holds && amount >= 0 && (b.limit < 0 || used + amount <= b.limit)
    case OtherCommit(i, actual) => i in b.holds && actual >= 0 && (prepaid ==> used - b.holds[i] + actual <= b.limit)
    case OtherRelease(i) => i in b.holds
    case Lapse(i) => i in b.holds
    case Policy(limit) => prepaid ==> used <= limit
  }

  function UsedThen(b: Budget<Id>, used: int, other: Other): int {
    match other
    case OtherReserve(_, amount) => used + amount
    case OtherCommit(i, actual) => if i in b.holds then used - b.holds[i] + actual else used
    case OtherRelease(i) => if i in b.holds then used - b.holds[i] else used
    case Lapse(i) => if i in b.holds then used - b.holds[i] else used
    case Policy(_) => used
  }

  lemma PossibleIsEnabled(b: Budget<Id>, other: Other, id: Id, prepaid: bool)
    requires b.Valid() && Possible(b, b.Used(), other, id, prepaid)
    ensures Enabled(b, StepOf(other), prepaid) && Next(b, StepOf(other)).Used() == UsedThen(b, b.Used(), other)
  {
    UsedAfter(b, StepOf(other), prepaid);
    if other.Lapse? {
      SumRemove(b.holds, other.id);
    }
  }

  /** What others can do leaves an affordable commit of a live lease enabled. */
  lemma CommitEnabled(before: Budget<Id>, b: Budget<Id>, id: Id, estimate: int64, env: Env, prepaid: bool)
    requires b.Valid() && estimate >= 0 && env.target.Returns? && (prepaid ==> b.Used() <= b.limit)
    requires id in b.holds ==> b.holds[id] == estimate as int
    requires env.others == [] ==> b == before
    ensures id in b.holds && (prepaid ==> Affordable(before.Used() - estimate as int, before.limit, estimate, env))
            ==> Enabled(b, Step.Commit(id, Actual(estimate, env.target.reported) as int), prepaid)
  {
  }

  class Host {
    const prepaid: bool                // wallet accounting: Commit needs funds and writes its own audit entry
    var budget: Budget<Id>
    var used: int
    ghost var steps: seq<Step<Id>>     // the run of the budget machine so far
    ghost const origin: Budget<Id>
    var calls: seq<Call>

    ghost predicate Valid()
      reads this
    {
      && budget.Valid() && used == budget.Used() && Path(origin, steps, budget, prepaid)
      && (prepaid ==> used <= budget.limit)
    }

    constructor (budget: Budget<Id>, used: int, prepaid: bool)
      requires budget.Valid() && used == budget.Used() && (prepaid ==> used <= budget.limit)
      ensures Valid() && this.budget == budget && calls == [] && this.prepaid == prepaid
    {
      this.prepaid, this.budget, this.used := prepaid, budget, used;
      this.origin, this.steps, this.calls := budget, [], [];
    }

    /** One step of the budget machine, by whomever. */
    method Take(step: Step<Id>, used': int, ghost id: Id)
      requires Valid() && Enabled(budget, step, prepaid) && used' == Next(budget, step).Used()
      modifies this`budget, this`used, this`steps
      ensures Valid() && budget == Next(old(budget), step)
      ensures Own(steps, id) == old(Own(steps, id)) + (if Names(step, id) then [step] else [])
      ensures Foreign(steps, id) == old(Foreign(steps, id)) + (if Names(step, id) then [] else [step])
    {
      UsedAfter(budget, step, prepaid);
      SumNonNegative(budget.holds);
      OneStep(budget, step, prepaid);
      PathConcat(origin, steps, budget, [step], Next(budget, step), prepaid);
      OneMoreStep(steps, step, id);
      budget, used, steps := Next(budget, step), used', steps + [step];
    }

    method Reserve(id: Id, estimate: int64, weather: Weather) returns (answer: Answer)
      requires Valid() && id !in budget.holds
      modifies this
      ensures Valid()
      ensures answer.Yes? ==>
                && ValidEstimate(estimate as int) && budget == Next(old(budget), Step.Reserve(id, estimate as int))
      ensures answer.No? ==> budget == old(budget) && !Admits(old(budget), estimate as int)
      ensures budget == old(budget) || budget == Next(old(budget), Step.Reserve(id, estimate as int))
      ensures budget != old(budget) ==>
                && ValidEstimate(estimate as int)
                && budget.Used() == old(budget).Used() + estimate as int
      ensures Own(steps, id)
           == old(Own(steps, id)) + (if budget == old(budget) then [] else [Step.Reserve(id, estimate as int)])
      ensures Foreign(steps, id) == old(Foreign(steps, id))
      ensures weather.Clear? && ValidEstimate(estimate as int) ==>
                answer == if Admits(old(budget), estimate as int) then Yes else No
      ensures calls == old(calls) + [ReserveCall(answer.Yes?)]
    {
      calls := calls + [ReserveCall(false)];
      if !ValidEstimate(estimate as int) { return Broken; }
      var admitted := budget.limit < 0 || used + estimate as int <= budget.limit;
      answer := Answered(weather, admitted);
      if admitted && TakesEffect(weather) {
        UsedAfter(budget, Step.Reserve(id, estimate as int), prepaid);
        Take(Step.Reserve(id, estimate as int), used + estimate as int, id);
        assert id in budget.holds;
      }
      calls := calls[..|calls| - 1] + [ReserveCall(answer.Yes?)];
    }

    /** Commit with charge Some, Release with None. */
    method Settle(id: Id, charge: Option<int>, weather: Weather) returns (answer: Answer)
      requires Valid() && (charge.Some? ==> charge.value >= 0)
      modifies this
      ensures Valid()
      ensures budget == old(budget)
           || (id in old(budget).holds && budget == Next(old(budget), Settlement(id, charge)))
      ensures answer.Yes? ==> id in old(budget).holds && id !in budget.holds
      ensures Own(steps, id) == old(Own(steps, id)) + (if budget == old(budget) then [] else [Settlement(id, charge)])
      ensures Foreign(steps, id) == old(Foreign(steps, id))
      ensures weather.Clear? ==> answer == if Enabled(old(budget), Settlement(id, charge), prepaid) then Yes else No
      ensures calls == old(calls) + [if charge.Some? then CommitCall(answer.Yes?) else ReleaseCall(answer.Yes?)]
    {
      var ok := id in budget.holds
                && (prepaid && charge.Some? ==> used - budget.holds[id] + charge.value <= budget.limit);
      answer := Answered(weather, ok);
      if ok && TakesEffect(weather) {
        UsedAfter(budget, Settlement(id, charge), prepaid);
        Take(Settlement(id, charge), used - budget.holds[id] + (if charge.Some? then charge.value else 0), id);
      }
      calls := calls + [if charge.Some? then CommitCall(answer.Yes?) else ReleaseCall(answer.Yes?)];
    }

    method Record(weather: Weather) returns (answer: Answer)
      modifies this`calls
      ensures answer == Answered(weather, true)
      ensures calls == old(calls) + [RecordCall(answer.Yes?)]
    {
      answer := Answered(weather, true);
      calls := calls + [RecordCall(answer.Yes?)];
    }

    /** Others use the budget. They can end our lease, and nothing else of ours. */
    method Meanwhile(id: Id, others: seq<Other>) returns (ghost theirs: seq<Step<Id>>)
      requires Valid()
      modifies this`budget, this`used, this`steps
      ensures Valid()
      ensures Own(steps, id) == old(Own(steps, id)) && Foreign(steps, id) == old(Foreign(steps, id)) + theirs
      ensures From(theirs, others)
      ensures id in budget.holds ==> id in old(budget).holds && budget.holds[id] == old(budget).holds[id]
      ensures id in old(budget).holds && Lapse(id) !in others ==> id in budget.holds
      ensures others == [] ==> budget == old(budget) && theirs == []
    {
      theirs := [];
      var n := 0;
      while n < |others|
        invariant n <= |others| && Valid()
        invariant Own(steps, id) == old(Own(steps, id)) && Foreign(steps, id) == old(Foreign(steps, id)) + theirs
        invariant From(theirs, others)
        invariant id in budget.holds ==> id in old(budget).holds && budget.holds[id] == old(budget).holds[id]
        invariant id in old(budget).holds && Lapse(id) !in others ==> id in budget.holds
        invariant n == 0 ==> budget == old(budget) && theirs == []
      {
        if Possible(budget, used, others[n], id, prepaid) {
          PossibleIsEnabled(budget, others[n], id, prepaid);
          Take(StepOf(others[n]), UsedThen(budget, used, others[n]), id);
          assert StepsOf(others)[n] == StepOf(others[n]);
          theirs := theirs + [StepOf(others[n])];
        }
        n := n + 1;
      }
    }

    /** From the return of the target to the point where the deferred cleanup takes over. */
    method Conclude(id: Id, estimate: int64, env: Env) returns (settled: bool, result: Outcome)
      requires Valid() && estimate >= 0 && calls == [ReserveCall(true), TargetCall]
      modifies this
      ensures Valid()
      ensures settled ==> Proper(calls) && Committed(calls) && env.target.Returns? && id !in budget.holds
      ensures !settled ==>
                calls == [ReserveCall(true), TargetCall] || calls == [ReserveCall(true), TargetCall, CommitCall(false)]
      ensures if budget == old(budget) then Own(steps, id) == old(Own(steps, id)) && !settled
              else && env.target.Returns? && id in old(budget).holds
                   && budget == Next(old(budget), Step.Commit(id, Actual(estimate, env.target.reported) as int))
                   && Own(steps, id)
                      == old(Own(steps, id)) + [Step.Commit(id, Actual(estimate, env.target.reported) as int)]
      ensures Foreign(steps, id) == old(Foreign(steps, id))
      ensures settled ==>
                && env.target.Returns?
                && budget.spent - old(budget).spent == (match env.target.reported
                                                        case Some(cost) => if cost < 0 then 0 else cost as int
                                                        case None => estimate as int)
                && (|calls| == 4 <==> !prepaid && budget.spent > old(budget).spent)
      ensures result == Output(true) <==> settled && env.outputIsObject && Recorded(calls)
      ensures result.Output? ==> result.reserved
      ensures env.target.Errs? ==> result.Error?
      ensures env.target.Blows? ==> result.Panic?
      ensures Completes(env, id)
              && Enabled(old(budget), Step.Commit(id, Actual(estimate, env.target.reported) as int), prepaid)
              ==> settled
      ensures settled && env.record.Clear? ==> Recorded(calls)
    {
      settled := false;
      if env.target.Blows? { return false, Panic; }
      if env.target.Errs? { return false, Error; }
      if env.target.reported.Some? && env.reportBlows { return false, Panic; }
      var actual := Actual(estimate, env.target.reported);
      var answer := Settle(id, Some(actual as int), env.commit);
      if answer.Blown? { return false, Panic; }
      if !answer.Yes? { return false, Error; }
      if actual > 0 && !prepaid {
        answer := Record(env.record);
        if answer.Blown? { return true, Panic; }
        if !answer.Yes? { return true, Error; }
      }
      return true, if env.outputIsObject then Output(true) else Error;
    }

    /** The deferred cleanup: nothing if the request is settled, or else one release attempt. */
    method Cleanup(id: Id, env: Env, settled: bool, result: Outcome)
      returns (outcome: Outcome, ghost mine: seq<Step<Id>>, ghost theirs: seq<Step<Id>>)
      requires Valid() && (settled ==> id !in budget.holds)
      modifies this
      ensures Valid()
      ensures settled ==> calls == old(calls) && outcome == result
      ensures !settled ==> exists ok :: calls == old(calls) + [ReleaseCall(ok)]
      ensures Own(steps, id) == old(Own(steps, id)) + mine
      ensures mine == [] || (mine == [Step.Release(id)] && id in old(budget).holds)
      ensures Foreign(steps, id) == old(Foreign(steps, id)) + theirs && From(theirs, env.later)
      ensures env.later == [] ==> budget.holds - {id} == old(budget).holds - {id}
      ensures !result.Output? ==> !outcome.Output?
      ensures result.Panic? ==> outcome.Panic?
      ensures settled || env.release.Clear? ==> id !in budget.holds
    {
      outcome, mine, theirs := result, [], [];
      if settled { return; }
      theirs := Meanwhile(id, env.later);
      ghost var before := budget;
      var released := Settle(id, None, env.release);
      mine := if budget == before then [] else [Step.Release(id)];
      if released.Blown? {
        outcome := Panic;
      } else if !released.Yes? && !outcome.Panic? {
        outcome := Error;
      }
    }

    /** Settlement and cleanup. */
    method Finish(id: Id, estimate: int64, env: Env)
      returns (outcome: Outcome, ghost mine: seq<Step<Id>>, ghost theirs: seq<Step<Id>>)
      requires Valid() && estimate >= 0 && calls == [ReserveCall(true), TargetCall]
      modifies this
      ensures Valid()
      ensures Proper(calls) && Ran(calls)
      ensures Own(steps, id) == old(Own(steps, id)) + mine && Ending(mine, id, estimate, env)
      ensures Committed(calls) ==> env.target.Returns? && |mine| == 1 && mine[0].Commit? && id !in budget.holds
      ensures Foreign(steps, id) == old(Foreign(steps, id)) + theirs && From(theirs, env.later)
      ensures env.later == [] ==> budget.holds - {id} == old(budget).holds - {id}
      ensures outcome.Output? ==> outcome.reserved
      ensures outcome == Output(true) <==> Committed(calls) && env.outputIsObject && Recorded(calls)
      ensures Committed(calls) ==> (|calls| == 4 <==> !prepaid && mine[0].actual > 0)
      ensures env.target.Errs? ==> !outcome.Output?
      ensures env.target.Blows? ==> outcome.Panic?
      ensures Completes(env, id)
              && Enabled(old(budget), Step.Commit(id, Actual(estimate, env.target.reported) as int), prepaid)
              ==> Committed(calls)
      ensures Committed(calls) && env.record.Clear? ==> Recorded(calls)
      ensures env.release.Clear? ==> id !in budget.holds
    {
      ghost var before := budget;
      var settled: bool;
      settled, outcome := Conclude(id, estimate, env);
      mine := if budget == before then [] else [Step.Commit(id, Actual(estimate, env.target.reported) as int)];
      ghost var release;
      outcome, release, theirs := Cleanup(id, env, settled, outcome);
      mine := mine + release;
    }

    /** The target and what follows it. */
    method Run(id: Id, estimate: int64, env: Env)
      returns (outcome: Outcome, ghost mine: seq<Step<Id>>, ghost theirs: seq<Step<Id>>, ghost later: seq<Step<Id>>)
      requires Valid() && id in budget.holds && estimate >= 0 && calls == [ReserveCall(true)]
      requires budget.holds[id] == estimate as int
      modifies this
      ensures Valid()
      ensures Proper(calls) && Ran(calls)
      ensures Own(steps, id) == old(Own(steps, id)) + mine && Ending(mine, id, estimate, env)
      ensures Committed(calls) ==> env.target.Returns? && |mine| == 1 && mine[0].Commit? && id !in budget.holds
      ensures Foreign(steps, id) == old(Foreign(steps, id)) + theirs + later
      ensures From(theirs, env.others) && From(later, env.later)
      ensures env.others == [] && env.later == [] ==> budget.holds - {id} == old(budget).holds - {id}
      ensures outcome.Output? ==> outcome.reserved
      ensures outcome == Output(true) <==> Committed(calls) && env.outputIsObject && Recorded(calls)
      ensures Committed(calls) ==> (|calls| == 4 <==> !prepaid && mine[0].actual > 0)
      ensures env.target.Errs? ==> !outcome.Output?
      ensures env.target.Blows? ==> outcome.Panic?
      ensures Completes(env, id)
              && (prepaid ==> Affordable(old(budget).Used() - estimate as int, old(budget).limit, estimate, env))
              ==> Committed(calls)
      ensures Committed(calls) && env.record.Clear? ==> Recorded(calls)
      ensures env.release.Clear? ==> id !in budget.holds
    {
      calls := calls + [TargetCall];
      theirs := Meanwhile(id, env.others);
      if env.target.Returns? {
        CommitEnabled(old(budget), budget, id, estimate, env, prepaid);
      }
      outcome, mine, later := Finish(id, estimate, env);
    }

    /** Up to the reservation: a refusal with its answer, or a grant. */
    method Begin(id: Id, env: Env) returns (granted: bool, outcome: Outcome)
      requires Valid() && id !in budget.holds
      modifies this
      ensures Valid()
      ensures granted ==>
                && calls == [ReserveCall(true)] && env.estimate.Some? && ValidEstimate(env.estimate.value as int)
                && budget == Next(old(budget), Step.Reserve(id, env.estimate.value as int))
                && budget.Used() == old(budget).Used() + env.estimate.value as int
      ensures !granted ==> Proper(calls) && !Ran(calls) && (id in budget.holds ==> !outcome.Output?)
      ensures !granted && outcome.Output? ==>
                && !outcome.reserved && budget == old(budget)
                && env.estimate.Some? && !Admits(budget, env.estimate.value as int)
      ensures if budget == old(budget) then Own(steps, id) == old(Own(steps, id))
              else && env.estimate.Some? && env.estimate.value >= 0
                   && Own(steps, id) == old(Own(steps, id)) + [Step.Reserve(id, env.estimate.value as int)]
      ensures Foreign(steps, id) == old(Foreign(steps, id)) && budget.holds - {id} == old(budget).holds
      ensures env.estimate.None? || !env.identified ==>
                !granted && calls == [] && outcome == Error && budget == old(budget)
      ensures Clean(env) ==>
                && (granted <==> Admits(old(budget), env.estimate.value as int))
                && (!granted ==> outcome == if env.inputIsObject then Output(false) else Error)
    {
      calls := [];
      if env.estimate.None? || !env.identified {
        assert budget.holds - {id} == budget.holds;
        return false, Error;
      }
      var estimate := env.estimate.value;
      var answer := Reserve(id, estimate, env.reserve);
      assert old(budget).holds - {id} == old(budget).holds;
      assert Next(old(budget), Step.Reserve(id, estimate as int)).holds - {id} == old(budget).holds;
      if answer.No? { return false, if env.inputIsObject then Output(false) else Error; }
      if answer.Blown? { return false, Panic; }
      if !answer.Yes? { return false, Error; }
      granted, outcome := true, Error;
    }

    /** One request through the middleware, in every environment. */
    method Handle(id: Id, env: Env)
      returns (outcome: Outcome, ghost mine: seq<Step<Id>>, ghost theirs: seq<Step<Id>>, ghost later: seq<Step<Id>>)
      requires Valid() && id !in budget.holds
      modifies this
      ensures Valid()
      ensures Proper(calls)
      // Without an estimate or an identity nothing is called and nothing changes.
      ensures env.estimate.None? || !env.identified ==> calls == [] && outcome == Error && mine == []
      // The request's own part of the run: a reservation at most, then at most one
      // commit, at the actual cost, or release.
      ensures Own(steps, id) == old(Own(steps, id)) + mine && Mine(mine, id, env)
      ensures Committed(calls) ==> env.target.Returns? && |mine| == 2 && mine[1].Commit? && id !in budget.holds
      ensures |mine| == 2 && mine[1].Commit? ==>
                && env.target.Returns? && env.estimate.Some?
                && mine[1].actual == match env.target.reported
                                     case Some(reported) => if reported < 0 then 0 else reported as int
                                     case None => env.estimate.value as int
      // A charge is recorded once more, except in wallet mode, where the commit itself does that.
      ensures Committed(calls) ==> (|calls| == 4 <==> !prepaid && mine[1].actual > 0)
      // All other steps are those of others, and the spend is the sum of the two.
      ensures Foreign(steps, id) == old(Foreign(steps, id)) + theirs + later
      ensures From(theirs, env.others) && From(later, env.later)
      ensures budget.spent == old(budget).spent + Charged(mine) + Charged(theirs + later)
      ensures env.others == [] && env.later == [] ==> budget.holds - {id} == old(budget).holds
      // A result without an error means denied and not run, or committed, and recorded if there is a record to make.
      ensures outcome == Output(true)
         <==> Committed(calls) && env.outputIsObject && Recorded(calls)
      ensures outcome.Output? && !outcome.reserved ==>
                && !Ran(calls) && budget == old(budget)
                && env.estimate.Some? && !Admits(budget, env.estimate.value as int)
      // The target's failure and panic are never swallowed, and a hold left behind comes with an error or a panic.
      ensures Ran(calls) && env.target.Errs? ==> !outcome.Output?
      ensures Ran(calls) && env.target.Blows? ==> outcome.Panic?
      ensures id in budget.holds ==> !outcome.Output?
      // A granted request runs, a completed run is committed and answered, and any other run is released.
      ensures Clean(env) ==>
                && (Ran(calls) <==> Admits(old(budget), env.estimate.value as int))
                && (!Ran(calls) ==> outcome == if env.inputIsObject then Output(false) else Error)
      ensures Ran(calls) && Completes(env, id) ==>
                && env.estimate.Some? && env.estimate.value >= 0
                && (!prepaid || Affordable(old(budget).Used(), old(budget).limit, env.estimate.value, env)
                    ==> Committed(calls))
      ensures Committed(calls) && env.record.Clear? ==> Recorded(calls)
      ensures Ran(calls) && env.release.Clear? ==> id !in budget.holds
    {
      mine, theirs, later := [], [], [];
      var granted: bool;
      granted, outcome := Begin(id, env);
      mine := Own(steps, id)[|old(Own(steps, id))|..];
      if granted {
        ghost var settlement;
        outcome, settlement, theirs, later := Run(id, env.estimate.value, env);
        mine := mine + settlement;
        assert mine[1..] == settlement;
      }
      ChargedPerRequest(origin, old(steps), old(budget), steps, budget, prepaid, id, mine, theirs + later);
    }
  }

  function Settlement(id: Id, charge: Option<int>): Step<Id> {
    if charge.Some? then Step.Commit(id, charge.value) else Step.Release(id)
  }

  /** How a run can end for its own hold: settled once, at the actual cost; released once; or left. */
  predicate Ending(mine: seq<Step<Id>>, id: Id, estimate: int64, env: Env)
    requires estimate >= 0
  {
    || mine == []
    || mine == [Step.Release(id)]
    || (env.target.Returns? && mine == [Step.Commit(id, Actual(estimate, env.target.reported) as int)])
  }

  predicate Mine(mine: seq<Step<Id>>, id: Id, env: Env) {
    mine != [] ==>
      && env.estimate.Some? && env.estimate.value >= 0
      && mine[0] == Step.Reserve(id, env.estimate.value as int) && Ending(mine[1..], id, env.estimate.value, env)
  }

  /** A prepaid budget covers the actual cost of a request: it is no more than
      the estimate, or nobody else is about and it fits beside what was in use before. */
  predicate Affordable(used: int, limit: int, estimate: int64, env: Env)
    requires estimate >= 0
  {
    env.target.Returns? &&
    (Actual(estimate, env.target.reported) <= estimate
     || (env.others == [] && used + Actual(estimate, env.target.reported) as int <= limit))
  }
}
