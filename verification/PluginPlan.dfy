/**
 The plan of plugin calls that runs before the model: planned calls are executed one after the other.
 What each call would return, and whether the run is aborted by then, are parameters.
 */
module PluginPlan {
  import opened Prelude

  datatype Planned = Planned(ordinal: int, outputKey: string)

  /** A call returns an output and perhaps a cost, or throws, perhaps after its effect was paid for. */
  datatype Called<T> = Returned(output: T, cost: Option<real>) | Threw(cost: Option<real>)

  datatype Error = Aborted | PlanInvalid | CostInvalid | CallFailed

  datatype Result<T> = Result(context: map<string, T>, cost: real, invocations: nat)

  /** The plan lists calls by rising ordinal, each with an output key of its own. */
  predicate ValidPlan(plan: seq<Planned>) {
    && (forall i :: 0 <= i < |plan| ==> plan[i].ordinal >= 0)
    && forall i, j :: 0 <= i < j < |plan| ==>
         plan[i].ordinal < plan[j].ordinal && plan[i].outputKey != plan[j].outputKey
  }

  predicate Delivered<T(==)>(c: Called<T>) {
    c.Returned? && (c.cost.Some? ==> c.cost.value >= 0.0)
  }

  /** What a call has cost, whether or not it returned; a negative cost is no cost. */
  function Paid<T>(c: Called<T>): (cost: real)
    ensures cost >= 0.0
  {
    if c.cost.Some? && c.cost.value >= 0.0 then c.cost.value else 0.0
  }

  function TotalCost<T>(calls: seq<Called<T>>): (cost: real)
    ensures cost >= 0.0
  {
    if calls == [] then 0.0 else TotalCost(calls[..|calls| - 1]) + Paid(calls[|calls| - 1])
  }

  /** The context holds the output of every call under its key, and nothing else. */
  ghost predicate Holds<T>(context: map<string, T>, plan: seq<Planned>, calls: seq<Called<T>>, n: nat)
    requires n <= |plan| <= |calls|
  {
    && (forall k :: k in context <==> exists i :: 0 <= i < n && plan[i].outputKey == k)
    && forall i :: 0 <= i < n ==>
         calls[i].Returned? && plan[i].outputKey in context && context[plan[i].outputKey] == calls[i].output
  }

  /** The first `n` calls fit the plan, are not aborted, and deliver. */
  predicate RunsTo<T(==)>(plan: seq<Planned>, calls: seq<Called<T>>, aborted: seq<bool>, n: nat)
    requires n <= |plan| == |calls| == |aborted|
  {
    ValidPlan(plan[..n]) && forall i :: 0 <= i < n ==> !aborted[i] && Delivered(calls[i])
  }

  /** Why a run of the plan ends early after `started` calls: the next one is not made, or the last one made failed. */
  predicate Explains<T(==)>(error: Error, plan: seq<Planned>, calls: seq<Called<T>>, aborted: seq<bool>, started: nat)
    requires started <= |plan| == |calls| == |aborted|
  {
    match error
    case Aborted => started < |plan| && RunsTo(plan, calls, aborted, started) && aborted[started]
    case PlanInvalid =>
      started < |plan| && RunsTo(plan, calls, aborted, started) && !ValidPlan(plan[..started + 1])
    case CallFailed =>
      && started > 0 && RunsTo(plan, calls, aborted, started - 1) && ValidPlan(plan[..started])
      && !aborted[started - 1] && calls[started - 1].Threw?
    case CostInvalid =>
      && started > 0 && RunsTo(plan, calls, aborted, started - 1) && ValidPlan(plan[..started])
      && !aborted[started - 1] && calls[started - 1].Returned? && !Delivered(calls[started - 1])
  }

  /** The run made every call and reports their outputs and their total cost. */
  ghost predicate RanAll<T>(plan: seq<Planned>, calls: seq<Called<T>>, aborted: seq<bool>, result: Result<T>,
                            started: nat)
    requires |plan| == |calls| == |aborted|
  {
    && RunsTo(plan, calls, aborted, |plan|) && started == |plan| == result.invocations
    && Holds(result.context, plan, calls, |plan|) && result.cost == TotalCost(calls)
  }

  /** What a run of the plan amounts to: everything delivered, or the first failure and nothing after it. */
  ghost predicate Ran<T>(plan: seq<Planned>, calls: seq<Called<T>>, aborted: seq<bool>,
                         outcome: Prelude.Result<Result<T>, Error>, started: nat)
    requires |plan| == |calls| == |aborted|
  {
    && started <= |plan|
    && (outcome.Success? ==> RanAll(plan, calls, aborted, outcome.value, started))
    && (outcome.Failure? ==> Explains(outcome.error, plan, calls, aborted, started))
  }

  /**
   Runs the plan. It succeeds exactly when the plan is valid, nothing aborts it and every call delivers;
   then every output is under its key and the cost is the sum of the costs. Otherwise it ends with the
   first failure: `started` calls were made, and none after it.
   */
  method Execute<T(==)>(plan: seq<Planned>, calls: seq<Called<T>>, aborted: seq<bool>)
    returns (outcome: Prelude.Result<Result<T>, Error>, started: nat)
    requires |plan| == |calls| == |aborted|
    ensures started <= |plan|
    ensures outcome.Success? ==> RanAll(plan, calls, aborted, outcome.value, started)
    ensures outcome.Failure? ==> Explains(outcome.error, plan, calls, aborted, started)
  {
    var context: map<string, T>, cost, prior := map[], 0.0, -1;
    started := 0;
    for i := 0 to |plan|
      invariant started == i && RunsTo(plan, calls, aborted, i)
      invariant Holds(context, plan, calls, i)
      invariant prior == if i == 0 then -1 else plan[i - 1].ordinal
      invariant cost == TotalCost(calls[..i])
    {
      if aborted[i] {
        return Failure(Aborted), started;
      }
      ExtendPlan(plan, i, prior);
      if plan[i].ordinal <= prior || plan[i].outputKey in context {
        return Failure(PlanInvalid), started;
      }
      prior := plan[i].ordinal;
      started := i + 1;
      var failure;
      failure, context, cost := Collect(plan, calls, i, context, cost);
      if failure.Some? {
        return Failure(failure.value), started;
      }
    }
    assert calls[..|calls|] == calls;
    return Success(Result(context, cost, |plan|)), started;
  }

  /** Takes in what call `i` returned. */
  method Collect<T(==)>(plan: seq<Planned>, calls: seq<Called<T>>, i: nat, context: map<string, T>, cost: real)
    returns (failure: Option<Error>, newContext: map<string, T>, newCost: real)
    requires i < |plan| == |calls| && Holds(context, plan, calls, i) && plan[i].outputKey !in context
    requires cost == TotalCost(calls[..i])
    ensures failure.None? <==> Delivered(calls[i])
    ensures failure.None? ==> Holds(newContext, plan, calls, i + 1) && newCost == TotalCost(calls[..i + 1])
    ensures failure.Some? ==> failure.value == if calls[i].Threw? then CallFailed else CostInvalid
  {
    newContext, newCost := context, cost;
    if calls[i].Threw? {
      return Some(CallFailed), newContext, newCost;
    }
    ExtendContext(context, plan, calls, i);
    newContext := context[plan[i].outputKey := calls[i].output];
    if calls[i].cost.Some? {
      if calls[i].cost.value < 0.0 {
        return Some(CostInvalid), newContext, newCost;
      }
      newCost := cost + calls[i].cost.value;
    }
    assert calls[..i + 1][..i] == calls[..i];
    return None, newContext, newCost;
  }

  /** A run of the plan succeeds exactly when the plan is valid, nothing aborts it and every call delivers. */
  lemma SucceedsWhenAllDeliver<T>(plan: seq<Planned>, calls: seq<Called<T>>, aborted: seq<bool>,
                                  outcome: Prelude.Result<Result<T>, Error>, started: nat)
    requires |plan| == |calls| == |aborted| && Ran(plan, calls, aborted, outcome, started)
    ensures outcome.Success? <==> RunsTo(plan, calls, aborted, |plan|)
  {
    if outcome.Failure? && outcome.error.PlanInvalid? && RunsTo(plan, calls, aborted, |plan|) {
      PrefixIsValid(plan, started + 1);
    }
  }

  lemma PrefixIsValid(plan: seq<Planned>, n: nat)
    requires n <= |plan|
    ensures ValidPlan(plan[..|plan|]) ==> ValidPlan(plan[..n])
  {
    assert plan[..|plan|] == plan;
  }

  lemma ExtendContext<T>(context: map<string, T>, plan: seq<Planned>, calls: seq<Called<T>>, i: nat)
    requires i < |plan| <= |calls| && Holds(context, plan, calls, i) && calls[i].Returned?
    requires plan[i].outputKey !in context
    ensures Holds(context[plan[i].outputKey := calls[i].output], plan, calls, i + 1)
  {
  }

  /** The next call fits the plan when its ordinal is the largest and its key is new. */
  lemma ExtendPlan(plan: seq<Planned>, i: nat, prior: int)
    requires i < |plan| && ValidPlan(plan[..i])
    requires prior == if i == 0 then -1 else plan[i - 1].ordinal
    ensures ValidPlan(plan[..i + 1]) <==>
              plan[i].ordinal > prior && forall j :: 0 <= j < i ==> plan[j].outputKey != plan[i].outputKey
  {
    assert forall j :: 0 <= j < i ==> plan[..i][j] == plan[j];
    assert forall j :: 0 <= j <= i ==> plan[..i + 1][j] == plan[j];
    if i > 0 {
      assert forall j :: 0 <= j < i ==> plan[..i][j].ordinal <= plan[..i][i - 1].ordinal;
    }
  }

  // ---------------------------------------------------------------------------
  // What the engine learns about the cost
  // ---------------------------------------------------------------------------

  /** How many calls are made when the first `i` have run: up to the first failure, the failing call included. */
  function MadeFrom<T(==)>(plan: seq<Planned>, calls: seq<Called<T>>, aborted: seq<bool>, i: nat): (n: nat)
    requires i <= |plan| == |calls| == |aborted|
    ensures i <= n <= |plan|
    decreases |plan| - i
  {
    if i == |plan| || aborted[i] || !ValidPlan(plan[..i + 1]) then i
    else if !Delivered(calls[i]) then i + 1
    else MadeFrom(plan, calls, aborted, i + 1)
  }

  function Made<T(==)>(plan: seq<Planned>, calls: seq<Called<T>>, aborted: seq<bool>): (n: nat)
    requires |plan| == |calls| == |aborted|
    ensures n <= |plan|
  {
    MadeFrom(plan, calls, aborted, 0)
  }

  /** What the calls that are made cost. */
  function Incurred<T(==)>(plan: seq<Planned>, calls: seq<Called<T>>, aborted: seq<bool>): real
    requires |plan| == |calls| == |aborted|
  {
    TotalCost(calls[..Made(plan, calls, aborted)])
  }

  /** The plug-in cost the engine settles: it learns a cost only from a plan that succeeds. */
  function Settled<T>(outcome: Prelude.Result<Result<T>, Error>): real {
    match outcome
    case Success(result) => result.cost
    case Failure(_) => 0.0
  }

  lemma {:induction false} MadeBeyond<T>(plan: seq<Planned>, calls: seq<Called<T>>, aborted: seq<bool>, i: nat, n: nat)
    requires i <= n <= |plan| == |calls| == |aborted| && RunsTo(plan, calls, aborted, n)
    ensures MadeFrom(plan, calls, aborted, i) == MadeFrom(plan, calls, aborted, n)
    decreases n - i
  {
    if i < n {
      assert plan[..n][..i + 1] == plan[..i + 1];
      PrefixStaysValid(plan[..n], i + 1);
      MadeBeyond(plan, calls, aborted, i + 1, n);
    }
  }

  lemma PrefixStaysValid(plan: seq<Planned>, n: nat)
    requires n <= |plan| && ValidPlan(plan)
    ensures ValidPlan(plan[..n])
  {
  }

  /** The calls a run makes are those the inputs determine. */
  lemma StartedAreMade<T>(plan: seq<Planned>, calls: seq<Called<T>>, aborted: seq<bool>,
                          outcome: Prelude.Result<Result<T>, Error>, started: nat)
    requires |plan| == |calls| == |aborted| && Ran(plan, calls, aborted, outcome, started)
    ensures started == Made(plan, calls, aborted)
  {
    if outcome.Failure? && (outcome.error.CallFailed? || outcome.error.CostInvalid?) {
      MadeBeyond(plan, calls, aborted, 0, started - 1);
    } else {
      MadeBeyond(plan, calls, aborted, 0, started);
    }
  }

  lemma {:induction false} FreeCallsCostNothing<T>(calls: seq<Called<T>>)
    ensures TotalCost(calls) == 0.0 <==> forall i :: 0 <= i < |calls| ==> Paid(calls[i]) == 0.0
  {
    if calls != [] {
      var n := |calls| - 1;
      FreeCallsCostNothing(calls[..n]);
      assert forall i :: 0 <= i < n ==> calls[..n][i] == calls[i];
    }
  }

  /**
   The engine settles what was incurred exactly when the plan is valid, nothing aborts it and every call
   delivers, or when every call up to the first failure is free: a plan that fails after a paid call, or
   in one, leaves that cost out of the run's settlement.
   */
  lemma SettledIsIncurred<T>(plan: seq<Planned>, calls: seq<Called<T>>, aborted: seq<bool>,
                             outcome: Prelude.Result<Result<T>, Error>, started: nat)
    requires |plan| == |calls| == |aborted| && Ran(plan, calls, aborted, outcome, started)
    ensures Settled(outcome) == Incurred(plan, calls, aborted) <==>
              || RunsTo(plan, calls, aborted, |plan|)
              || forall i :: 0 <= i < Made(plan, calls, aborted) ==> Paid(calls[i]) == 0.0
  {
    SucceedsWhenAllDeliver(plan, calls, aborted, outcome, started);
    StartedAreMade(plan, calls, aborted, outcome, started);
    if outcome.Success? {
      assert calls[..|calls|] == calls;
    } else {
      FreeCallsCostNothing(calls[..started]);
      assert forall i :: 0 <= i < started ==> calls[..started][i] == calls[i];
    }
  }

  /** Two such plans: a paid call followed by one that throws, and a call that throws after it was paid for. */
  lemma FailedPlanDropsCost() returns (plan: seq<Planned>, calls: seq<Called<int>>, others: seq<Called<int>>)
    ensures |plan| == |calls| == |others| == 2 && calls[0].Returned? && others[0].Threw?
    ensures Ran(plan, calls, [false, false], Failure(CallFailed), 2) && Incurred(plan, calls, [false, false]) == 1.0
    ensures Ran(plan, others, [false, false], Failure(CallFailed), 1) && Incurred(plan, others, [false, false]) == 1.0
  {
    plan := [Planned(0, "first"), Planned(1, "second")];
    calls, others := [Returned(0, Some(1.0)), Threw(None)], [Threw(Some(1.0)), Threw(None)];
    assert plan[..2] == plan && plan[..1] == [plan[0]] && plan[..0] == [];
    StartedAreMade(plan, calls, [false, false], Failure(CallFailed), 2);
    StartedAreMade(plan, others, [false, false], Failure(CallFailed), 1);
    assert calls[..2] == calls && calls[..1] == [calls[0]] && calls[..1][..0] == [];
    assert others[..1] == [others[0]] && others[..1][..0] == [];
    assert TotalCost(calls[..1]) == 1.0 && TotalCost(others[..1]) == 1.0;
  }
}
