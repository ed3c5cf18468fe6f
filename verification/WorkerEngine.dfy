/**
 The engine that drives one claim: it renews the lease once, works, and picks one disposition. What the
 work comes to is a parameter, and between any two of the engine's transactions every other process may
 run; only the slot's own claim stays.
 */
module WorkerEngine {
  import opened Prelude
  import opened WorkerProtocol
  import opened WorkerInvariants
  import opened WorkerHistories
  import opened WorkerStore

  /** What the engine catches. */
  datatype Error =
    | WorkerStopping
    | LeaseLost
    | RunCancelled
    | PluginError(code: string)
    | WorkerFault(retryable: bool)
    | OtherError

  /** What the work comes to: a result to publish, or an error with the cost observed by then. */
  datatype Work =
    | Produced(result: Settlement, pluginStarted: bool)
    | Raised(error: Error, incurred: Option<Settlement>, pluginStarted: bool)

  /** Plugin errors that hold the run instead of failing it. */
  const HOLDING: set<string> := {
    "PLUGIN_DISABLED", "PLUGIN_WORKSTATION_UNAVAILABLE", "PLUGIN_HTTP_UNAVAILABLE", "PLUGIN_MCP_UNAVAILABLE",
    "PLUGIN_CLI_UNAVAILABLE", "PLUGIN_DB_UNAVAILABLE"
  }

  /** A plugin error fails the run for good, a fault says so itself, anything else may be retried. */
  predicate Retryable(error: Error) {
    match error
    case WorkerFault(retryable) => retryable
    case PluginError(_) => false
    case _ => true
  }

  /** Errors after which the engine leaves the run to whoever owns it, or to recovery. */
  predicate Abandons(error: Error) {
    error.WorkerStopping? || error.LeaseLost? || error == PluginError("PLUGIN_RUN_LEASE_LOST")
  }

  predicate Cancels(error: Error) {
    error.RunCancelled? || error == PluginError("RUN_CANCELLED")
  }

  predicate Holds(error: Error) {
    error.PluginError? && error.code in HOLDING
  }

  /** The slot works on claim `run` in a reachable world. */
  ghost predicate Works(w: World, worker: WorkerId, run: Claim) {
    Reachable(w) && worker in w.active && w.active[worker] == run
  }

  /** Other processes take the world to a reachable one and leave the slot's claim alone. */
  ghost predicate Spares(others: World -> World, worker: WorkerId) {
    forall w: World, run: Claim {:trigger Works(others(w), worker, run)} ::
      Works(w, worker, run) ==> Works(others(w), worker, run)
  }

  lemma StillWorks(others: World -> World, w: World, worker: WorkerId, run: Claim)
    requires Spares(others, worker) && Works(w, worker, run)
    ensures Works(others(w), worker, run) && Reachable(others(w))
  {
  }

  /** How an execution ended. */
  datatype Ending = Published | LeftTo(state: RunState) | NotOwned | Abandoned

  /** The ending is one step of the machine from `before`, or none. */
  ghost predicate Ended(before: World, after: World, run: Id, worker: WorkerId, ending: Ending,
                        cost: Option<Settlement>)
  {
    match ending
    case Published =>
      && cost.Some? && MayCommit(before, run, worker, cost.value)
      && after == Commit(before, run, worker, cost.value)
    case LeftTo(state) =>
      && OwnedBy(before, run, worker) && MayLeave(before, run, state)
      && after == Leave(before, run, state, cost)
    case NotOwned => !OwnedBy(before, run, worker) && after == before
    case Abandoned => after == before
  }

  /** Unless the engine abandons the run, it does not own it afterwards, and it settled it at most once. */
  lemma EndsOwnership(before: World, after: World, run: Id, worker: WorkerId, ending: Ending, cost: Option<Settlement>)
    requires Ended(before, after, run, worker, ending, cost) && !ending.Abandoned?
    ensures !OwnedBy(after, run, worker)
    ensures ending.Published? || ending.LeftTo? ==> |after.charges| == |before.charges| + 1
    ensures ending.NotOwned? ==> after.charges == before.charges
  {
  }

  // ---------------------------------------------------------------------------
  // What the engine decides
  // ---------------------------------------------------------------------------

  /** The disposition of an error: a requested cancellation wins over a hold, a retry and a failure. */
  function Disposed(w: World, run: Id, worker: WorkerId, error: Error, pluginStarted: bool): Ending {
    if Abandons(error) then Abandoned
    else if !OwnedBy(w, run, worker) then NotOwned
    else if Cancels(error) || w.runs[run].cancelRequested then LeftTo(Cancelled)
    else if Holds(error) then LeftTo(PausedPlugin)
    else if Retryable(error) && !pluginStarted && run !in w.invoked
            && w.runs[run].attempts < w.runs[run].spec.maxAttempts
    then LeftTo(Queued)
    else LeftTo(RunState.Failed)
  }

  /** What completion makes of a result whose cost is not refused. */
  function Completed(w: World, run: Id, worker: WorkerId, result: Settlement): Ending {
    if MayCommit(w, run, worker, result) then Published
    else if OwnedBy(w, run, worker) then LeftTo(Cancelled)
    else NotOwned
  }

  /** The world after the first heartbeat. */
  function Renewed(w: World, run: Id, worker: WorkerId, leaseMs: Time): World {
    if OwnedBy(w, run, worker) then Renew(w, run, worker, leaseMs) else w
  }

  /** The first heartbeat tells the engine to stop. */
  predicate Stopped(w: World, run: Claim, worker: WorkerId) {
    OwnedBy(w, run.run, worker)
    && (w.runs[run.run].cancelRequested || !AuthorityHolds(w, run.run, run.epoch))
  }

  /**
   How an execution that starts in `start` must end. The engine disposes in the world it finds after the
   heartbeat, and once more in the world it finds after a refused result; the cost it settles is none
   before the work, the cost observed with an error, or the cost of the result.
   */
  ghost predicate Concludes(start: World, run: Claim, worker: WorkerId, leaseMs: Time, work: Work,
                            others: World -> World, before: World, ending: Ending, cost: Option<Settlement>)
  {
    var first := others(Renewed(start, run.run, worker, leaseMs));
    if !OwnedBy(start, run.run, worker) then
      before == first && ending == Abandoned && cost == None
    else if Stopped(start, run, worker) then
      before == first && ending == Disposed(first, run.run, worker, RunCancelled, false) && cost == None
    else
      match work
      case Raised(error, incurred, pluginStarted) =>
        before == first && ending == Disposed(first, run.run, worker, error, pluginStarted) && cost == incurred
      case Produced(result, pluginStarted) =>
        && cost == Some(result)
        && if CostRefused(first, run, worker, result) then
             before == others(first) && ending == Disposed(others(first), run.run, worker, OtherError, pluginStarted)
           else
             before == first && ending == Completed(first, run.run, worker, result)
  }

  /**
   A result whose cost is refused settles that cost all the same, above the estimate or not, and the run is
   requeued when it is still owned, not cancelled, has attempts left and no plugin was called.
   */
  lemma RefusedCostIsRetried(start: World, run: Claim, worker: WorkerId, leaseMs: Time, work: Work,
                             others: World -> World, before: World, after: World, ending: Ending,
                             cost: Option<Settlement>)
    requires Concludes(start, run, worker, leaseMs, work, others, before, ending, cost)
    requires Ended(before, after, run.run, worker, ending, cost)
    requires OwnedBy(start, run.run, worker) && !Stopped(start, run, worker) && work.Produced?
    requires CostRefused(others(Renewed(start, run.run, worker, leaseMs)), run, worker, work.result)
    requires OwnedBy(before, run.run, worker)
    ensures before == others(others(Renewed(start, run.run, worker, leaseMs)))
    ensures CostSoFar(after.runs[run.run]) == CostSoFar(before.runs[run.run]) + work.result.actual
    ensures var g := before.runs[run.run].grant.value;
            after.grants[g].spent == before.grants[g].spent + work.result.actual
    ensures after.runs[run.run].state == Queued <==>
              && !before.runs[run.run].cancelRequested && !work.pluginStarted && run.run !in before.invoked
              && before.runs[run.run].attempts < before.runs[run.run].spec.maxAttempts
  {
  }

  /** The row is running under the worker's lease. */
  predicate Holding(r: Run, worker: WorkerId) {
    r.state == Running && r.lease.Some? && r.lease.value.owner == worker
  }

  /**
   What becomes of the row of an owned run, error by error. Stopping and a lost lease leave it alone. Otherwise
   a requested cancellation cancels it. If there is none, a plugin outage holds it, any other plugin error and a
   fault that is not retryable fail it for good, and the remaining errors put it back in the queue while it has
   attempts left and called no plugin.
   */
  lemma ErrorsLead(before: World, after: World, run: Id, worker: WorkerId, error: Error, pluginStarted: bool,
                   cost: Option<Settlement>)
    requires Reachable(before) && run < |before.runs| && Holding(before.runs[run], worker)
    requires Ended(before, after, run, worker, Disposed(before, run, worker, error, pluginStarted), cost)
    ensures |after.runs| == |before.runs|
    ensures error in {WorkerStopping, Error.LeaseLost, PluginError("PLUGIN_RUN_LEASE_LOST")} ==> after == before
    ensures error in {RunCancelled, PluginError("RUN_CANCELLED")} ==> after.runs[run].state == Cancelled
    ensures before.runs[run].cancelRequested
            && error !in {WorkerStopping, Error.LeaseLost, PluginError("PLUGIN_RUN_LEASE_LOST")} ==>
              after.runs[run].state == Cancelled
    ensures !before.runs[run].cancelRequested ==>
              match error
              case PluginError(code) =>
                if code in {"PLUGIN_DISABLED", "PLUGIN_WORKSTATION_UNAVAILABLE", "PLUGIN_HTTP_UNAVAILABLE",
                            "PLUGIN_MCP_UNAVAILABLE", "PLUGIN_CLI_UNAVAILABLE", "PLUGIN_DB_UNAVAILABLE"}
                then after.runs[run].state == PausedPlugin
                else code !in {"PLUGIN_RUN_LEASE_LOST", "RUN_CANCELLED"} ==>
                       after.runs[run].state == RunState.Failed
              case WorkerFault(false) => after.runs[run].state == RunState.Failed
              case WorkerFault(true) => Requeued(before, after, run, pluginStarted)
              case OtherError => Requeued(before, after, run, pluginStarted)
              case _ => true
  {
    RunningRow(before, run);
  }

  /** The run is back in the queue if it has attempts left and called no plugin, and otherwise it failed. */
  predicate Requeued(before: World, after: World, run: Id, pluginStarted: bool)
    requires run < |before.runs| && run < |after.runs|
  {
    var r := before.runs[run];
    after.runs[run].state ==
    if !pluginStarted && run !in before.invoked && r.attempts < r.spec.maxAttempts then Queued else RunState.Failed
  }

  // ---------------------------------------------------------------------------
  // The engine
  // ---------------------------------------------------------------------------

  /** The one transaction picked for an error. */
  method Dispose(store: Store, run: Claim, worker: WorkerId, error: Error, incurred: Option<Settlement>,
                 pluginStarted: bool)
    returns (ending: Ending)
    requires Reachable(store.View())
    modifies store
    ensures Reachable(store.View()) && store.active == old(store.active)
    ensures ending == Disposed(old(store.View()), run.run, worker, error, pluginStarted)
    ensures Ended(old(store.View()), store.View(), run.run, worker, ending, incurred)
    ensures !(run.run < |old(store.runs)| && Holding(old(store.runs)[run.run], worker)) ==>
              store.View() == old(store.View())
  {
    if Abandons(error) {
      return Abandoned;
    }
    if Cancels(error) {
      var cancelled := store.CancelClaimed(run.run, worker, incurred);
      return if cancelled then LeftTo(Cancelled) else NotOwned;
    }
    if Holds(error) {
      var row := store.LockOwned(run.run, worker);
      var settled := store.PauseForPlugin(run.run, worker, incurred);
      if !settled {
        return NotOwned;
      }
      return LeftTo(if row.value.cancelRequested then Cancelled else PausedPlugin);
    }
    var d := store.FailOrRetry(run.run, worker, Retryable(error), incurred, Retryable(error) && pluginStarted);
    match d.state {
      case LeaseLost => return NotOwned;
      case ToCancelled => return LeftTo(Cancelled);
      case ToQueued => return LeftTo(Queued);
      case ToFailed => return LeftTo(RunState.Failed);
    }
  }

  /** Publishes a result, unless the store refuses its cost and changes nothing. */
  method Publish(store: Store, run: Claim, worker: WorkerId, result: Settlement)
    returns (ending: Option<Ending>)
    requires Works(store.View(), worker, run)
    modifies store
    ensures Works(store.View(), worker, run)
    ensures ending.None? <==> CostRefused(old(store.View()), run, worker, result)
    ensures ending.None? ==> store.View() == old(store.View())
    ensures ending.None? ==>
              result.actual > run.estimate || result.actual > run.ceiling
              || exists c :: c in old(store.charges) && c.grant == run.grant && c.amount > c.estimate
    ensures ending.Some? ==>
              && ending.value == Completed(old(store.View()), run.run, worker, result)
              && Ended(old(store.View()), store.View(), run.run, worker, ending.value, Some(result))
  {
    ghost var w := store.View();
    CarriedClaim(w, worker);
    var row := store.LockOwned(run.run, worker);
    var published := store.Complete(run, worker, result);
    if published.Failure? {
      assert published.error == ModelCostExceeded || published.error == BudgetExceededAtCompletion;
      assert w.active[worker].estimate == w.runs[run.run].spec.estimate;
      return None;
    }
    return Some(if published.value then Published else if row.Some? then LeftTo(Cancelled) else NotOwned);
  }

  /**
   One execution of a claim, with other processes running after each of its transactions. It ends as
   `Concludes` says, by at most one step of the machine on the run.
   */
  method Execute(store: Store, run: Claim, worker: WorkerId, leaseMs: Time, work: Work, others: World -> World)
    returns (ending: Ending, ghost before: World, ghost cost: Option<Settlement>)
    requires Works(store.View(), worker, run) && Spares(others, worker)
    modifies store
    ensures Works(store.View(), worker, run)
    ensures Concludes(old(store.View()), run, worker, leaseMs, work, others, before, ending, cost)
    ensures Ended(before, store.View(), run.run, worker, ending, cost)
  {
    var owned, stop := store.Heartbeat(run.run, worker, leaseMs, run.epoch);
    assert Works(store.View(), worker, run);
    Yield(store, run, worker, others);
    var error, incurred, pluginStarted := Error.LeaseLost, None, false;
    if owned && stop {
      error := RunCancelled;
    } else if owned && work.Raised? {
      error, incurred, pluginStarted := work.error, work.incurred, work.pluginStarted;
    } else if owned {
      before, cost := store.View(), Some(work.result);
      var published := Publish(store, run, worker, work.result);
      if published.Some? {
        ending := published.value;
        return;
      }
      Yield(store, run, worker, others);
      error, incurred, pluginStarted := OtherError, Some(work.result), work.pluginStarted;
    }
    before, cost := store.View(), incurred;
    ending := Dispose(store, run, worker, error, incurred, pluginStarted);
  }

  /** Other processes run. */
  method Yield(store: Store, run: Claim, worker: WorkerId, others: World -> World)
    requires Works(store.View(), worker, run) && Spares(others, worker)
    modifies store
    ensures Works(store.View(), worker, run)
    ensures store.View() == others(old(store.View()))
  {
    StillWorks(others, store.View(), worker, run);
    store.Observe(others(store.View()));
  }

  /** What became of one claimed run: the world the execution disposed in, and the world it left. */
  datatype Episode = Episode(
    claim: Claim, before: World, after: World, ending: Ending, cost: Option<Settlement>)

  /** The episode follows from a claim that led to `start`. */
  ghost predicate Lives(start: World, worker: WorkerId, leaseMs: Time, work: Work, others: World -> World, e: Episode) {
    && Concludes(others(start), e.claim, worker, leaseMs, work, others, e.before, e.ending, e.cost)
    && Ended(e.before, e.after, e.claim.run, worker, e.ending, e.cost)
  }

  /**
   A slot claims a run, executes it, and is idle again: it never works on two claims. It works exactly when
   the claim admitted a run; otherwise the claim's refusal or deferral is all that happens.
   */
  method RunNext(store: Store, worker: WorkerId, leaseMs: Time, locked: set<Id>, tables: Id -> Facts, work: Work,
                 others: World -> World)
    returns (worked: bool, ghost candidate: Option<Id>, ghost claimed: World, ghost episode: Option<Episode>)
    requires Reachable(store.View()) && worker !in store.active && Spares(others, worker)
    modifies store
    ensures Reachable(store.View()) && worker !in store.active
    ensures worked <==> episode.Some?
    ensures Claims(old(store.View()), worker, leaseMs, locked, tables, candidate,
                   if episode.Some? then Some(episode.value.claim) else None, claimed)
    ensures !worked ==> store.View() == claimed
    ensures worked ==>
              && Lives(claimed, worker, leaseMs, work, others, episode.value)
              && store.View() == Forget(episode.value.after, worker)
  {
    var run;
    run, candidate := store.ClaimNext(worker, leaseMs, locked, tables);
    claimed, episode := store.View(), None;
    if run.None? {
      return false, candidate, claimed, episode;
    }
    Yield(store, run.value, worker, others);
    var ending;
    ghost var before, cost;
    ending, before, cost := Execute(store, run.value, worker, leaseMs, work, others);
    episode := Some(Episode(run.value, before, store.View(), ending, cost));
    store.Forget(worker);
    worked := true;
  }
}
