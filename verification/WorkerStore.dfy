/**
 The worker's database transactions, written out as the store performs them: row by row, with
 reservations clamped at zero and the exhaustion flag recomputed in three different places.
 Each method is one transaction and is proved to be exactly the steps of `WorkerProtocol`.
 */
module WorkerStore {
  import opened Prelude
  import opened WorkerProtocol
  import opened WorkerInvariants
  import opened WorkerHistories

  /** What a claim reads about one run from tables outside this model. */
  datatype Facts = Facts(
    releaseDigest: Digest, releaseProject: Option<string>, tools: set<string>, dailyBrief: bool,
    epochApproved: bool, pluginApproved: bool, inputAllowed: bool)

  datatype Fault = ModelCostExceeded | BudgetExceededAtCompletion

  datatype Disposition = Disposition(state: DispositionState, retryAfterMs: Option<Time>)
  datatype DispositionState = ToQueued | ToFailed | ToCancelled | LeaseLost

  // ---------------------------------------------------------------------------
  // What the transactions are meant to decide
  // ---------------------------------------------------------------------------

  /** The retry delay of a queued run has passed at time `t`. */
  predicate Ripe(r: Run, t: Time) {
    r.attempts == 0 || r.updatedAt <= t - ClaimDelayMs(r.spec.backoff, r.attempts)
  }

  predicate Claimable(w: World, locked: set<Id>, i: Id) {
    && i < |w.runs| && i !in locked
    && var r := w.runs[i];
    && r.state == Queued && r.spec.entry.Some? && !r.spec.legacyUnresolved && r.grant.Some?
    && Ripe(r, w.now)
  }

  predicate Before(w: World, i: Id, j: Id)
    requires i < |w.runs| && j < |w.runs|
  {
    var a, b := w.runs[i].spec.createdAt, w.runs[j].spec.createdAt;
    a < b || (a == b && i <= j)
  }

  /** Run `i` is the oldest claimable run that no other transaction holds. */
  predicate IsCandidate(w: World, locked: set<Id>, i: Id) {
    && Claimable(w, locked, i)
    && forall j :: 0 <= j < |w.runs| && Claimable(w, locked, j) ==> Before(w, i, j)
  }

  /** The grant and the current release cover the run exactly as it was requested. */
  predicate Covers(w: World, i: Id, f: Facts)
    requires i < |w.runs|
  {
    var r := w.runs[i];
    && r.grant.Some? && r.grant.value < |w.grants|
    && var g := w.grants[r.grant.value];
    && g.terms.release == r.spec.release && g.terms.releaseDigest == r.spec.releaseDigest == f.releaseDigest
    && Live(g) && InWindow(g, w.now)
    && (r.attempts == 0 ==> g.state == Active && g.used < g.terms.maxRuns)
    && r.spec.entry == Some(g.terms.entry) && g.terms.context == r.spec.context
    && g.terms.project == r.spec.project == f.releaseProject
    && (r.spec.needsPluginApproval ==> f.pluginApproved)
    && (ProductionRequired(r.spec) ==> CurrentEpoch(w, r.spec).Some? && f.epochApproved)
    && f.dailyBrief && f.inputAllowed
    && f.tools == r.spec.tools && f.tools <= g.terms.tools
    && r.spec.estimate <= g.terms.perRun
  }

  predicate Affordable(w: World, i: Id)
    requires i < |w.runs| && w.runs[i].grant.Some? && w.runs[i].grant.value < |w.grants|
  {
    var g := w.grants[w.runs[i].grant.value];
    g.spent + g.reserved + w.runs[i].spec.estimate <= g.terms.budget
  }

  function ClaimEpoch(w: World, spec: RunSpec): Option<Time> {
    if ProductionRequired(spec) then CurrentEpoch(w, spec) else None
  }

  /** The authority a worker still needs while it runs: heartbeat and completion ask the same. */
  predicate AuthorityHolds(w: World, i: Id, epoch: Option<Time>)
    requires IsRunning(w, i)
  {
    var r := w.runs[i];
    var g := w.grants[r.grant.value];
    && Live(g) && InWindow(g, w.now)
    && (ProductionRequired(r.spec) ==> epoch.Some? && epoch == CurrentEpoch(w, r.spec))
  }

  /** What a claim does to the oldest claimable run: send it back for approval, pause it, or admit it. */
  ghost predicate Claims(w: World, worker: WorkerId, leaseMs: Time, locked: set<Id>, tables: Id -> Facts,
                         candidate: Option<Id>, claimed: Option<Claim>, after: World)
  {
    match candidate
    case None =>
      && (forall i :: 0 <= i < |w.runs| ==> !Claimable(w, locked, i))
      && claimed.None? && after == w
    case Some(i) =>
      && IsCandidate(w, locked, i)
      && if !Covers(w, i, tables(i)) then
           claimed.None? && after == Refuse(w, i)
         else if !Affordable(w, i) then
           claimed.None? && after == Defer(w, i)
         else
           var epoch := ClaimEpoch(w, w.runs[i].spec);
           && MayAdmit(w, worker, i, epoch)
           && claimed == Some(ClaimRecord(w, worker, i, epoch))
           && after == Admit(w, worker, i, leaseMs, epoch)
  }

  /** Completion throws: the cost is beyond what was reserved, or the grant has no budget left for it. */
  predicate CostRefused(w: World, run: Claim, worker: WorkerId, result: Settlement) {
    && OwnedBy(w, run.run, worker) && !w.runs[run.run].cancelRequested
    && (|| result.actual > run.estimate || result.actual > run.ceiling
        || (AuthorityHolds(w, run.run, run.epoch)
            && var g := w.grants[w.runs[run.run].grant.value];
               g.spent + result.actual + g.reserved - run.estimate > g.terms.budget))
  }

  predicate LeaseExpired(w: World, i: Id) {
    IsRunning(w, i) && w.runs[i].lease.Some? && w.runs[i].lease.value.expiresAt < w.now
  }

  /** Where recovery sends an expired run. */
  function RecoveryTarget(w: World, i: Id): RunState
    requires i < |w.runs|
  {
    if w.runs[i].attempts >= w.runs[i].spec.maxAttempts || i in w.invoked then Failed else Queued
  }

  /** The row of run `i` after recovery. */
  function SweptRow(w: World, locked: set<Id>, i: Id): Run
    requires i < |w.runs|
  {
    if i !in locked && LeaseExpired(w, i) then ExitRow(w.runs[i], RecoveryTarget(w, i), None, w.now) else w.runs[i]
  }

  /** Adding one enabled step to a history. */
  lemma HistoryExtends(w: World, steps: seq<Step>, s: Step)
    requires History(w, steps) && Enabled(After(w, steps), s)
    ensures History(w, steps + [s]) && After(w, steps + [s]) == Next(After(w, steps), s)
  {
    assert (steps + [s])[..|steps|] == steps;
  }

  /** A history of recoveries only: runs leave `running` and nothing is charged. */
  predicate IsSweep(w: World, sweep: seq<Step>) {
    && History(w, sweep)
    && forall k :: 0 <= k < |sweep| ==> sweep[k].LeaveStep? && sweep[k].cost == None
  }

  lemma {:induction false} SweepKeeps(w: World, sweep: seq<Step>)
    requires IsSweep(w, sweep)
    ensures var v := After(w, sweep);
            v.now == w.now && v.invoked == w.invoked && |v.runs| == |w.runs| && |v.grants| == |w.grants|
    decreases |sweep|
  {
    if sweep != [] {
      assert forall k :: 0 <= k < |sweep| - 1 ==> sweep[..|sweep| - 1][k] == sweep[k];
      SweepKeeps(w, sweep[..|sweep| - 1]);
    }
  }

  /** 1 for each run that a step sends to `to`. */
  function Leaves(to: RunState): Step -> int {
    (s: Step) => if s.LeaveStep? && s.to == to then 1 else 0
  }

  /** A row the sweep has not reached is judged as it was when the sweep began. */
  lemma UntouchedRow(w: World, sweep: seq<Step>, i: Id)
    requires IsSweep(w, sweep) && i < |w.runs| && i < |After(w, sweep).runs| && After(w, sweep).runs[i] == w.runs[i]
    ensures var v := After(w, sweep);
            LeaseExpired(v, i) == LeaseExpired(w, i) && RecoveryTarget(v, i) == RecoveryTarget(w, i) && v.now == w.now
  {
    SweepKeeps(w, sweep);
  }

  /** A settlement as the code computes it, with the remaining reservation clamped at zero. */
  function ClampedSettle(g: Grant, estimate: Money, amount: Money): Grant {
    var g' := g.(reserved := Max(0, g.reserved - estimate), spent := g.spent + amount);
    if Live(g) then g'.(state := if Spent(g') then Exhausted else Active) else g'
  }

  /** A disposition as the code writes it: row by row, with the clamped settlement. */
  function WrittenLeave(w: World, i: Id, to: RunState, cost: Option<Settlement>): World
    requires IsRunning(w, i)
  {
    var r := w.runs[i];
    var g := r.grant.value;
    w.(runs := w.runs[i := ExitRow(r, to, cost, w.now)],
       grants := w.grants[g := ClampedSettle(w.grants[g], r.spec.estimate, CostOf(cost))],
       charges := w.charges + [Charge(i, g, CostOf(cost), r.spec.estimate)],
       metrics := w.metrics + CostRows(i, cost))
  }

  lemma ReservationHeld(w: World, i: Id)
    requires Reachable(w) && IsRunning(w, i)
    ensures w.grants[w.runs[i].grant.value].reserved >= w.runs[i].spec.estimate
  {
    ReachableKeepsInv(w);
    ReservationCovers(w, i);
  }

  /** In a reachable world the clamp never bites: the reservation is always still there. */
  lemma ClampNeverBites(w: World, i: Id, amount: Money)
    requires Reachable(w) && IsRunning(w, i)
    ensures var g := w.grants[w.runs[i].grant.value];
            ClampedSettle(g, w.runs[i].spec.estimate, amount) == Settle(g, w.runs[i].spec.estimate, amount)
  {
    ReservationHeld(w, i);
  }

  /** The claim a worker carries still names the row's own grant while it owns the row. */
  lemma CarriedClaim(w: World, worker: WorkerId)
    requires Reachable(w) && worker in w.active
    ensures BoundClaim(w, w.active[worker]) && w.active[worker].worker == worker
  {
    ReachableKeepsInv(w);
  }

  /** Completion settles on the grant named by the claim, not on the one named by the row. */
  function SettledOn(w: World, i: Id, g: Id, cost: Settlement): World
    requires IsRunning(w, i) && g < |w.grants|
  {
    w.(runs := w.runs[i := ExitRow(w.runs[i], Succeeded, Some(cost), w.now)],
       grants := w.grants[g := ClampedSettle(w.grants[g], w.runs[i].spec.estimate, cost.actual)])
  }

  /**
   Why a worker slot must never be shared: with a stale claim of the same slot the two grants can
   differ, and then the reservation law survives exactly when there was nothing to release.
   */
  lemma StaleClaimBreaksReservations(w: World, i: Id, g: Id, cost: Settlement)
    requires Shape(w) && Reservations(w) && IsRunning(w, i) && g < |w.grants|
    ensures Reservations(SettledOn(w, i, g, cost)) <==>
            g == w.runs[i].grant.value || w.runs[i].spec.estimate == 0
  {
    var v, own := SettledOn(w, i, g, cost), w.runs[i].grant.value;
    ReservationCovers(w, i);
    forall h | 0 <= h < |w.grants|
      ensures Sum(v.runs, HeldOn(h)) == Sum(w.runs, HeldOn(h)) - (if h == own then w.runs[i].spec.estimate else 0)
    {
      SumUpdate(w.runs, i, v.runs[i], HeldOn(h));
    }
    SumCovers(w.runs, i, HeldOn(g));
    if g != own && w.runs[i].spec.estimate > 0 {
      assert v.grants[own].reserved != Sum(v.runs, HeldOn(own));
    }
  }

  // A run of two attempts under two grants, for the lemma below.

  const SAMPLE_SPEC := RunSpec(
    0, "release", Some(0), false, "context", None, true, true, false, {}, 5, 5, 3, Fixed, 0)
  const SAMPLE_TERMS := Terms(0, "release", 0, "context", None, {}, 0, 1000, 5, 100, 10)
  const FIRST_CLAIM := Claim(0, "slot", 0, 1, "context", None, 5, 5)
  const SECOND_CLAIM := Claim(0, "slot", 1, 2, "context", None, 5, 5)

  function SampleGrant(reserved: int, used: int): Grant {
    Grant(SAMPLE_TERMS, Active, 0, reserved, used)
  }

  function SampleWorld(state: RunState, grant: Option<Id>, attempts: nat, first: Grant, second: Grant,
                       charges: seq<Charge>, claims: seq<Claim>, active: map<WorkerId, Claim>): World
  {
    var lease := if state == Running then Some(Lease("slot", 1)) else None;
    World([Run(SAMPLE_SPEC, state, grant, None, attempts, lease, false, 0)], [first, second], map[],
          charges, [], claims, [], {}, active, 0)
  }

  function SampleStart(): World {
    SampleWorld(Queued, Some(0), 0, SampleGrant(0, 0), SampleGrant(0, 0), [], [], map[])
  }

  function SampleClaimed(): World {
    SampleWorld(Running, Some(0), 1, SampleGrant(5, 1), SampleGrant(0, 0), [],
                [FIRST_CLAIM], map["slot" := FIRST_CLAIM])
  }

  function SampleRequeued(): World {
    SampleWorld(Queued, Some(0), 1, SampleGrant(0, 1), SampleGrant(0, 0), [Charge(0, 0, 0, 5)],
                [FIRST_CLAIM], map["slot" := FIRST_CLAIM])
  }

  function SampleMoved(): World {
    SampleWorld(Queued, Some(1), 1, SampleGrant(0, 1), SampleGrant(0, 0), [Charge(0, 0, 0, 5)],
                [FIRST_CLAIM], map[])
  }

  function SampleReclaimed(): World {
    SampleWorld(Running, Some(1), 2, SampleGrant(0, 1), SampleGrant(5, 0), [Charge(0, 0, 0, 5)],
                [FIRST_CLAIM, SECOND_CLAIM], map["slot" := SECOND_CLAIM])
  }

  lemma SampleStarts()
    ensures Reachable(SampleStart())
  {
    var w := World([], [], map[], [], [], [], [], {}, map[], 0);
    assert History(w, []) && After(w, []) == w;
    StepReaches(w, IssueStep(SAMPLE_TERMS));
    StepReaches(IssueGrant(w, SAMPLE_TERMS), IssueStep(SAMPLE_TERMS));
    w := IssueGrant(IssueGrant(w, SAMPLE_TERMS), SAMPLE_TERMS);
    StepReaches(w, RequestStep(SAMPLE_SPEC, Some(0)));
    assert RequestRun(w, SAMPLE_SPEC, Some(0)) == SampleStart();
  }

  lemma SampleAdmits()
    ensures MayAdmit(SampleStart(), "slot", 0, None)
    ensures Admit(SampleStart(), "slot", 0, 1, None) == SampleClaimed()
  {
    assert Reserve(SampleGrant(0, 0), 5, true) == SampleGrant(5, 1);
    assert ClaimRecord(SampleStart(), "slot", 0, None) == FIRST_CLAIM;
  }

  /** The slot claims the run under the first grant. */
  lemma SampleIsClaimed()
    ensures Reachable(SampleClaimed())
  {
    SampleStarts();
    SampleAdmits();
    StepReaches(SampleStart(), AdmitStep("slot", 0, 1, None));
  }

  lemma SampleLeaves()
    ensures MayLeave(SampleClaimed(), 0, Queued)
    ensures Leave(SampleClaimed(), 0, Queued, None) == SampleRequeued()
  {
    assert Settle(SampleGrant(5, 1), 5, 0) == SampleGrant(0, 1);
    assert CostRows(0, None) == [];
  }

  /** The lease is taken back. */
  lemma SampleIsRequeued()
    ensures Reachable(SampleRequeued())
  {
    SampleIsClaimed();
    SampleLeaves();
    StepReaches(SampleClaimed(), LeaveStep(0, Queued, None));
  }

  lemma SampleMoves()
    ensures Enabled(SampleRequeued(), ForgetStep("slot"))
    ensures var idle := Forget(SampleRequeued(), "slot");
            Enabled(idle, RefuseStep(0)) && Enabled(Refuse(idle, 0), ApproveStep(0, 1))
            && Approve(Refuse(idle, 0), 0, 1) == SampleMoved()
  {
  }

  /** The slot is idle again; the run is refused, and approved under the second grant. */
  lemma SampleIsMoved()
    ensures Reachable(SampleMoved())
  {
    SampleIsRequeued();
    SampleMoves();
    var idle := Forget(SampleRequeued(), "slot");
    StepReaches(SampleRequeued(), ForgetStep("slot"));
    StepReaches(idle, RefuseStep(0));
    StepReaches(Refuse(idle, 0), ApproveStep(0, 1));
  }

  lemma SampleAdmitsAgain()
    ensures MayAdmit(SampleMoved(), "slot", 0, None)
    ensures Admit(SampleMoved(), "slot", 0, 1, None) == SampleReclaimed()
  {
    assert Reserve(SampleGrant(0, 0), 5, false) == SampleGrant(5, 0);
    assert ClaimRecord(SampleMoved(), "slot", 0, None) == SECOND_CLAIM;
  }

  /** The slot claims the run again. */
  lemma SampleIsReclaimed()
    ensures Reachable(SampleReclaimed())
  {
    SampleIsMoved();
    SampleAdmitsAgain();
    StepReaches(SampleMoved(), AdmitStep("slot", 0, 1, None));
  }

  /**
   A stale claim of the lease's own slot name, on another grant that is still usable: it is on record in a
   reachable world. A second process under the same slot name is all that it takes to complete with it.
   */
  lemma StaleClaimIsOnRecord() returns (w: World, stale: Claim, cost: Settlement)
    ensures Reachable(w) && stale in w.claims && IsRunning(w, stale.run)
    ensures OwnedBy(w, stale.run, stale.worker) && stale.grant < |w.grants|
    ensures var g := w.grants[stale.grant];
            Live(g) && InWindow(g, w.now) && g.terms.context == stale.context && !w.runs[stale.run].cancelRequested
    ensures cost.actual <= stale.estimate && cost.actual <= stale.ceiling
    ensures !Reservations(SettledOn(w, stale.run, stale.grant, cost))
  {
    SampleIsReclaimed();
    w, stale, cost := SampleReclaimed(), FIRST_CLAIM, Settlement(1, 0);
    assert w.claims[0] == stale;
    SampleBreaks(cost);
  }

  lemma SampleBreaks(cost: Settlement)
    requires Reachable(SampleReclaimed())
    ensures !Reservations(SettledOn(SampleReclaimed(), 0, 0, cost))
  {
    var w := SampleReclaimed();
    assert IsRunning(w, 0) && w.runs[0].grant == Some(1) && w.runs[0].spec.estimate == 5;
    ReachableKeepsInv(w);
    StaleClaimBreaksReservations(w, 0, 0, cost);
  }

  /** A completion that does not fit its budget is the trace of an earlier overrun on the grant. */
  lemma MisfitMeansOverrun(w: World, i: Id, cost: Settlement)
    requires Reachable(w) && IsRunning(w, i) && cost.actual <= w.runs[i].spec.estimate
    requires var g := w.grants[w.runs[i].grant.value];
             g.spent + cost.actual + (g.reserved - w.runs[i].spec.estimate) > g.terms.budget
    ensures exists c :: c in w.charges && c.grant == w.runs[i].grant.value && c.amount > c.estimate
  {
    ReachableKeepsInv(w);
    OverrunMeansExcess(w.charges, w.runs[i].grant.value);
  }

  /** A running row always has its lease and its grant. */
  lemma RunningRow(w: World, i: Id)
    requires Reachable(w) && i < |w.runs| && w.runs[i].state == Running
    ensures IsRunning(w, i) && w.runs[i].lease.Some? && w.runs[i].attempts > 0
  {
    ReachableKeepsInv(w);
    assert RunOk(w, w.runs[i]);
  }

  /** One disposition: the clamped settlement is the machine's, and the result is reachable. */
  lemma LeaveReaches(w: World, i: Id, to: RunState, cost: Option<Settlement>)
    requires Reachable(w) && MayLeave(w, i, to) && to != Succeeded
    ensures Reachable(Leave(w, i, to, cost))
    ensures WrittenLeave(w, i, to, cost) == Leave(w, i, to, cost)
  {
    StepReaches(w, LeaveStep(i, to, cost));
    ClampNeverBites(w, i, CostOf(cost));
  }

  /** A run is admitted exactly when it is covered and affordable. */
  lemma CoveredMayAdmit(w: World, worker: WorkerId, locked: set<Id>, i: Id, f: Facts)
    requires worker !in w.active && Claimable(w, locked, i) && Covers(w, i, f) && Affordable(w, i)
    ensures MayAdmit(w, worker, i, ClaimEpoch(w, w.runs[i].spec))
  {
  }

  // ---------------------------------------------------------------------------
  // The store
  // ---------------------------------------------------------------------------

  class Store {
    var runs: seq<Run>
    var grants: seq<Grant>
    var channels: map<string, Channel>
    var metrics: seq<Metric>
    var claims: seq<Claim>
    var outcomes: seq<Outcome>
    var invoked: set<Id>
    var now: Time
    /** Not tables: what was settled so far, and the claim each worker slot is working on. */
    var charges: seq<Charge>
    var active: map<WorkerId, Claim>

    function View(): World
      reads this
    {
      World(runs, grants, channels, charges, metrics, claims, outcomes, invoked, active, now)
    }

    /** An empty database. */
    constructor (start: Time)
      ensures Fresh(View()) && Reachable(View())
      ensures now == start
    {
      runs, grants, channels, metrics, claims, outcomes := [], [], map[], [], [], [];
      invoked, now, charges, active := {}, start, [], map[];
      new;
      assert History(View(), []) && After(View(), []) == View();
    }

    /** Releases a reservation; nothing was spent. */
    method ReleaseGrantReservation(grantId: Id, amount: Money, runId: Id)
      modifies this`grants, this`charges
      ensures charges == old(charges) + [Charge(runId, grantId, 0, amount)]
      ensures grants == if grantId < |old(grants)|
                        then old(grants)[grantId := ClampedSettle(old(grants)[grantId], amount, 0)]
                        else old(grants)
      ensures grantId < |old(grants)| && old(grants)[grantId].state in {Active, Exhausted} ==>
                var g := grants[grantId];
                g.state == if g.used >= g.terms.maxRuns || g.spent + g.reserved >= g.terms.budget
                           then Exhausted else Active
    {
      charges := charges + [Charge(runId, grantId, 0, amount)];
      if grantId >= |grants| {
        return;
      }
      var grant := grants[grantId];
      var reserved := Max(0, grant.reserved - amount);
      var exhausted := grant.used >= grant.terms.maxRuns || grant.spent + reserved >= grant.terms.budget;
      var state := grant.state;
      if state == Active || state == Exhausted {
        state := if exhausted then Exhausted else Active;
      }
      grants := grants[grantId := grant.(reserved := reserved, state := state)];
    }

    /** Releases a reservation and records what was spent. */
    method ReconcileIncurredCost(grantId: Id, amount: Money, incurred: Settlement, runId: Id)
      modifies this`grants, this`charges
      ensures charges == old(charges) + [Charge(runId, grantId, incurred.actual, amount)]
      ensures grants == if grantId < |old(grants)|
                        then old(grants)[grantId := ClampedSettle(old(grants)[grantId], amount, incurred.actual)]
                        else old(grants)
      ensures grantId < |old(grants)| && old(grants)[grantId].state in {Active, Exhausted} ==>
                var g := grants[grantId];
                g.state == if g.used >= g.terms.maxRuns || g.spent + g.reserved >= g.terms.budget
                           then Exhausted else Active
    {
      charges := charges + [Charge(runId, grantId, incurred.actual, amount)];
      if grantId >= |grants| {
        return;
      }
      var grant := grants[grantId];
      var reserved := Max(0, grant.reserved - amount);
      var spent := grant.spent + incurred.actual;
      var state := grant.state;
      if state == Active || state == Exhausted {
        state := if grant.used >= grant.terms.maxRuns || spent + reserved >= grant.terms.budget
                 then Exhausted else Active;
      }
      grants := grants[grantId := grant.(reserved := reserved, spent := spent, state := state)];
    }

    /** Settles one attempt on its grant and records its cost samples. */
    method SettleAttempt(runId: Id, grantId: Id, amount: Money, incurred: Option<Settlement>)
      modifies this`grants, this`charges, this`metrics
      ensures charges == old(charges) + [Charge(runId, grantId, CostOf(incurred), amount)]
      ensures metrics == old(metrics) + CostRows(runId, incurred)
      ensures grants == if grantId < |old(grants)|
                        then old(grants)[grantId := ClampedSettle(old(grants)[grantId], amount, CostOf(incurred))]
                        else old(grants)
    {
      if incurred.None? {
        ReleaseGrantReservation(grantId, amount, runId);
        return;
      }
      ReconcileIncurredCost(grantId, amount, incurred.value, runId);
      metrics := metrics + [Metric(runId, ModelCost, incurred.value.actual - incurred.value.plugin)];
      if incurred.value.plugin > 0 {
        metrics := metrics + [Metric(runId, PluginCost, incurred.value.plugin)];
      }
    }

    /** The row another transaction locks for `workerId`: running, and leased to it. */
    method LockOwned(runId: Id, workerId: WorkerId) returns (row: Option<Run>)
      requires Reachable(View())
      ensures row.Some? <==> OwnedBy(View(), runId, workerId)
      ensures row.Some? ==> row.value == runs[runId]
    {
      if runId < |runs| && runs[runId].state == Running {
        RunningRow(View(), runId);
      }
      if runId < |runs| && runs[runId].state == Running
         && runs[runId].lease.Some? && runs[runId].lease.value.owner == workerId {
        return Some(runs[runId]);
      }
      return None;
    }

    /** Writes the row of a run that stops running, then settles its attempt. */
    method WriteDisposition(runId: Id, row: Run, to: RunState, incurred: Option<Settlement>)
      requires IsRunning(View(), runId) && row == runs[runId]
      modifies this`runs, this`grants, this`charges, this`metrics
      ensures View() == WrittenLeave(old(View()), runId, to, incurred)
    {
      var actual: Option<Money> := row.actual;
      if incurred.Some? {
        actual := Some((if row.actual.Some? then row.actual.value else 0) + incurred.value.actual);
      }
      runs := runs[runId := row.(state := to, actual := actual, lease := None, updatedAt := now)];
      SettleAttempt(runId, row.grant.value, row.spec.estimate, incurred);
    }

    method CancelWithinTransaction(runId: Id, workerId: WorkerId, incurred: Option<Settlement>)
      returns (cancelled: bool)
      requires Reachable(View())
      modifies this`runs, this`grants, this`charges, this`metrics
      ensures Reachable(View())
      ensures cancelled == old(OwnedBy(View(), runId, workerId))
      ensures View() == if cancelled then Leave(old(View()), runId, Cancelled, incurred) else old(View())
    {
      var lock := LockOwned(runId, workerId);
      if lock.None? {
        return false;
      }
      LeaveReaches(View(), runId, Cancelled, incurred);
      WriteDisposition(runId, lock.value, Cancelled, incurred);
      return true;
    }

    /** The engine gives up a run it claimed. */
    method CancelClaimed(runId: Id, workerId: WorkerId, incurred: Option<Settlement>)
      returns (cancelled: bool)
      requires Reachable(View())
      modifies this`runs, this`grants, this`charges, this`metrics
      ensures Reachable(View())
      ensures cancelled == old(OwnedBy(View(), runId, workerId))
      ensures View() == if cancelled then Leave(old(View()), runId, Cancelled, incurred) else old(View())
    {
      cancelled := CancelWithinTransaction(runId, workerId, incurred);
    }

    /** Holds a run whose plug-in became unavailable; a requested cancellation wins. */
    method PauseForPlugin(runId: Id, workerId: WorkerId, incurred: Option<Settlement>)
      returns (settled: bool)
      requires Reachable(View())
      modifies this`runs, this`grants, this`charges, this`metrics
      ensures Reachable(View())
      ensures settled == old(OwnedBy(View(), runId, workerId))
      ensures !settled ==> View() == old(View())
      ensures settled ==>
                View() == Leave(old(View()), runId,
                                if old(runs)[runId].cancelRequested then Cancelled else PausedPlugin, incurred)
    {
      var lock := LockOwned(runId, workerId);
      if lock.None? {
        return false;
      }
      if lock.value.cancelRequested {
        settled := CancelWithinTransaction(runId, workerId, incurred);
        return;
      }
      LeaveReaches(View(), runId, PausedPlugin, incurred);
      WriteDisposition(runId, lock.value, PausedPlugin, incurred);
      return true;
    }

    /**
     Retries a failed attempt if that is allowed, and fails the run otherwise. A run that is
     requeued becomes ripe exactly when the reported delay has passed.
     */
    method FailOrRetry(runId: Id, workerId: WorkerId, retryable: bool, incurred: Option<Settlement>,
                       suppressed: bool)
      returns (d: Disposition)
      requires Reachable(View())
      modifies this`runs, this`grants, this`charges, this`metrics
      ensures Reachable(View())
      ensures d.state == LeaseLost <==> !old(OwnedBy(View(), runId, workerId))
      ensures d.state == LeaseLost ==> View() == old(View())
      ensures old(OwnedBy(View(), runId, workerId)) ==>
                && (d.state == ToCancelled <==> old(runs)[runId].cancelRequested)
                && (d.state == ToQueued <==>
                      && !old(runs)[runId].cancelRequested && retryable && !suppressed && runId !in invoked
                      && old(runs)[runId].attempts < old(runs)[runId].spec.maxAttempts)
                && View() == Leave(old(View()), runId,
                                   if d.state == ToCancelled then Cancelled
                                   else if d.state == ToQueued then Queued else Failed, incurred)
      ensures d.retryAfterMs.Some? <==> d.state == ToQueued
      ensures d.state == ToQueued ==>
                forall t :: Ripe(runs[runId], t) <==> t >= now + d.retryAfterMs.value
    {
      var lock := LockOwned(runId, workerId);
      if lock.None? {
        return Disposition(LeaseLost, None);
      }
      var row := lock.value;
      if row.cancelRequested {
        var _ := CancelWithinTransaction(runId, workerId, incurred);
        return Disposition(ToCancelled, None);
      }
      var effectiveSuppression := suppressed || runId in invoked;
      if retryable && !effectiveSuppression && row.attempts < row.spec.maxAttempts {
        var retryAfterMs := RetryDelayMs(row.spec.backoff, row.attempts);
        RunningRow(View(), runId);
        DelaysAgree(row.spec.backoff, row.attempts);
        LeaveReaches(View(), runId, Queued, incurred);
        WriteDisposition(runId, row, Queued, incurred);
        return Disposition(ToQueued, Some(retryAfterMs));
      }
      LeaveReaches(View(), runId, Failed, incurred);
      WriteDisposition(runId, row, Failed, incurred);
      return Disposition(ToFailed, None);
    }

    // -------------------------------------------------------------------------
    // Claiming
    // -------------------------------------------------------------------------

    /** The first row of the claim query: oldest first, rows held elsewhere skipped. */
    method FindCandidate(locked: set<Id>) returns (candidate: Option<Id>)
      ensures candidate.Some? ==> IsCandidate(View(), locked, candidate.value)
      ensures candidate.None? ==> forall i :: 0 <= i < |runs| ==> !Claimable(View(), locked, i)
    {
      candidate := None;
      for i := 0 to |runs|
        invariant candidate.Some? ==> candidate.value < i && Claimable(View(), locked, candidate.value)
        invariant candidate.Some? ==>
                    forall j :: 0 <= j < i && Claimable(View(), locked, j) ==> Before(View(), candidate.value, j)
        invariant candidate.None? ==> forall j :: 0 <= j < i ==> !Claimable(View(), locked, j)
      {
        var r := runs[i];
        if i !in locked && r.state == Queued && r.spec.entry.Some? && !r.spec.legacyUnresolved && r.grant.Some?
           && (r.attempts == 0 || r.updatedAt <= now - ClaimDelayMs(r.spec.backoff, r.attempts))
        {
          if candidate.None? || r.spec.createdAt < runs[candidate.value].spec.createdAt {
            candidate := Some(i);
          }
        }
      }
    }

    /** The reasons for which a claim is refused, checked in the store's terms. */
    method AuthorityRefused(i: Id, f: Facts) returns (refused: bool)
      requires i < |runs|
      ensures refused <==> !Covers(View(), i, f)
    {
      var r := runs[i];
      var grant: Option<Grant> := None;
      if r.grant.Some? && r.grant.value < |grants| {
        var row := grants[r.grant.value];
        if row.terms.release == r.spec.release && row.terms.releaseDigest == r.spec.releaseDigest {
          grant := Some(row);
        }
      }
      var firstAttempt := r.attempts == 0;
      var unusable :=
        || grant.None?
        || grant.value.state == Revoked || grant.value.state == Expired
        || (firstAttempt && grant.value.state == Exhausted)
        || grant.value.terms.validFrom > now || grant.value.terms.validUntil <= now
        || (firstAttempt && grant.value.used >= grant.value.terms.maxRuns);
      var productionRequired := !r.spec.development || !r.spec.deterministic;
      var key := ChannelKey(f.releaseProject);
      var channel := if productionRequired && key in channels then Some(channels[key]) else None;
      var currentRelease := !productionRequired || (channel.Some? && channel.value.release == Some(r.spec.release));
      var epochApproved := !productionRequired
                           || (channel.Some? && channel.value.promotedAt.Some? && f.epochApproved);
      var scopeInvalid :=
        || r.spec.releaseDigest != f.releaseDigest
        || (if grant.Some? then Some(grant.value.terms.entry) else None) != r.spec.entry
        || (if grant.Some? then Some(grant.value.terms.context) else None) != Some(r.spec.context)
        || (r.spec.needsPluginApproval && !f.pluginApproved)
        || !currentRelease || !epochApproved || !f.dailyBrief
        || r.spec.project != f.releaseProject
        || grant.None? || grant.value.terms.project != r.spec.project
        || !f.inputAllowed
        || !(f.tools <= r.spec.tools) || !(r.spec.tools <= f.tools) || !(f.tools <= grant.value.terms.tools);
      var perRunExceeded := grant.Some? && r.spec.estimate > grant.value.terms.perRun;
      return unusable || scopeInvalid || perRunExceeded;
    }

    /**
     Claims the oldest ripe run for an idle worker slot, or sends that run back for approval when
     its authority no longer covers it, or pauses it when its grant cannot pay for it.
     */
    method ClaimNext(workerId: WorkerId, leaseMs: Time, locked: set<Id>, tables: Id -> Facts)
      returns (claimed: Option<Claim>, ghost candidate: Option<Id>)
      requires Reachable(View()) && workerId !in active
      modifies this`runs, this`grants, this`claims, this`active
      ensures Reachable(View())
      ensures Claims(old(View()), workerId, leaseMs, locked, tables, candidate, claimed, View())
    {
      ghost var w := View();
      var found := FindCandidate(locked);
      candidate := found;
      claimed := None;
      if found.None? {
        return;
      }
      var i := found.value;
      var f := tables(i);
      var r := runs[i];
      var refused := AuthorityRefused(i, f);
      if refused {
        StepReaches(w, RefuseStep(i));
        runs := runs[i := r.(state := AwaitingApproval, grant := None, updatedAt := now)];
        return;
      }
      var grant := grants[r.grant.value];
      var remaining := grant.terms.budget - grant.spent - grant.reserved;
      if r.spec.estimate > remaining {
        StepReaches(w, DeferStep(i));
        runs := runs[i := r.(state := PausedBudget, updatedAt := now)];
        return;
      }
      CoveredMayAdmit(w, workerId, locked, i, f);
      StepReaches(w, AdmitStep(workerId, i, leaseMs, ClaimEpoch(w, r.spec)));
      var c := WriteClaim(workerId, leaseMs, i);
      claimed := Some(c);
    }

    /** Takes the lease, reserves the estimate, and records the claim. */
    method WriteClaim(workerId: WorkerId, leaseMs: Time, i: Id) returns (claim: Claim)
      requires i < |runs| && MayAdmit(View(), workerId, i, ClaimEpoch(View(), runs[i].spec))
      modifies this`runs, this`grants, this`claims, this`active
      ensures claim == ClaimRecord(old(View()), workerId, i, ClaimEpoch(old(View()), old(runs)[i].spec))
      ensures View() == Admit(old(View()), workerId, i, leaseMs, ClaimEpoch(old(View()), old(runs)[i].spec))
      ensures var g := grants[claim.grant];
              g.state == if g.used >= g.terms.maxRuns || g.spent + g.reserved >= g.terms.budget
                         then Exhausted else old(grants)[claim.grant].state
    {
      var r := runs[i];
      var g := r.grant.value;
      var grant := grants[g];
      var firstAttempt := r.attempts == 0;
      var epoch: Option<Time> := None;
      if !r.spec.development || !r.spec.deterministic {
        var key := ChannelKey(r.spec.project);
        epoch := channels[key].promotedAt;
      }
      runs := runs[i := r.(state := Running, attempts := r.attempts + 1,
                           lease := Some(Lease(workerId, now + leaseMs)), updatedAt := now)];
      var reserved := grant.reserved + r.spec.estimate;
      var used := grant.used + (if firstAttempt then 1 else 0);
      var state := grant.state;
      if used >= grant.terms.maxRuns || grant.spent + reserved >= grant.terms.budget {
        state := Exhausted;
      }
      grants := grants[g := grant.(used := used, reserved := reserved, state := state)];
      claim := Claim(i, workerId, g, r.attempts + 1, r.spec.context, epoch, r.spec.estimate, r.spec.ceiling);
      claims := claims + [claim];
      active := active[workerId := claim];
    }

    /**
     Extends the lease of a run the worker owns. The worker is told to stop exactly when it no
     longer owns the run, was asked to stop, or lost the authority completion will ask for.
     */
    method Heartbeat(runId: Id, workerId: WorkerId, leaseMs: Time, productionEpoch: Option<Time>)
      returns (owned: bool, cancellationRequested: bool)
      requires Reachable(View())
      modifies this`runs
      ensures Reachable(View())
      ensures owned == old(OwnedBy(View(), runId, workerId))
      ensures View() == if owned then Renew(old(View()), runId, workerId, leaseMs) else old(View())
      ensures !owned ==> cancellationRequested
      ensures owned ==>
                (cancellationRequested <==>
                  old(runs)[runId].cancelRequested || !AuthorityHolds(old(View()), runId, productionEpoch))
    {
      ghost var w := View();
      var lock := LockOwned(runId, workerId);
      if lock.None? {
        return false, true;
      }
      var row := lock.value;
      StepReaches(w, RenewStep(runId, workerId, leaseMs));
      runs := runs[runId := row.(lease := Some(Lease(workerId, now + leaseMs)), updatedAt := now)];
      var invalid := AuthorityInvalid(row, productionEpoch);
      return true, invalid || row.cancelRequested;
    }

    /** The authority check shared by heartbeat and completion, in the store's terms. */
    method AuthorityInvalid(row: Run, productionEpoch: Option<Time>) returns (invalid: bool)
      requires row.grant.Some? && row.grant.value < |grants|
      ensures var g := grants[row.grant.value];
              invalid <==>
              !(&& Live(g) && InWindow(g, now)
                && (ProductionRequired(row.spec) ==>
                      productionEpoch.Some? && productionEpoch == CurrentEpoch(View(), row.spec)))
    {
      var grant := grants[row.grant.value];
      var productionRequired := !row.spec.development || !row.spec.deterministic;
      var key := ChannelKey(row.spec.project);
      var channel := if key in channels then channels[key] else Channel(None, None);
      invalid :=
        || grant.state == Revoked || grant.state == Expired
        || grant.terms.validFrom > now || grant.terms.validUntil <= now
        || (productionRequired
            && (channel.release != Some(row.spec.release) || productionEpoch == None
                || channel.promotedAt != productionEpoch));
    }

    // -------------------------------------------------------------------------
    // Completion
    // -------------------------------------------------------------------------

    /**
     Publishes the outcome of the claim the worker carries. The result is published exactly when
     the machine may commit; a requested cancellation or lost authority cancels the run instead,
     and a cost beyond the reservation or the budget rolls everything back.
     */
    method Complete(run: Claim, workerId: WorkerId, result: Settlement) returns (published: Result<bool, Fault>)
      requires Reachable(View()) && workerId in active && active[workerId] == run
      modifies this`runs, this`grants, this`charges, this`metrics, this`outcomes
      ensures Reachable(View())
      ensures published == Success(true) <==> old(MayCommit(View(), run.run, workerId, result))
      ensures published == Success(true) ==> View() == Commit(old(View()), run.run, workerId, result)
      ensures published.Failure? <==> old(CostRefused(View(), run, workerId, result))
      ensures published.Failure? ==> View() == old(View())
      ensures published == Success(false) ==>
                if old(OwnedBy(View(), run.run, workerId))
                then && (old(runs)[run.run].cancelRequested || !AuthorityHolds(old(View()), run.run, run.epoch))
                     && View() == Leave(old(View()), run.run, Cancelled, Some(result))
                else View() == old(View())
      ensures published == Failure(ModelCostExceeded) ==>
                && old(OwnedBy(View(), run.run, workerId))
                && (result.actual > old(runs)[run.run].spec.estimate || result.actual > old(runs)[run.run].spec.ceiling)
      ensures published == Failure(BudgetExceededAtCompletion) ==>
                exists c :: c in old(charges) && c.grant == run.grant && c.amount > c.estimate
    {
      ghost var w := View();
      var lock := LockOwned(run.run, workerId);
      if lock.None? {
        return Success(false);
      }
      CarriedClaim(w, workerId);
      var row := lock.value;
      if row.cancelRequested {
        var _ := CancelWithinTransaction(run.run, workerId, Some(result));
        return Success(false);
      }
      if result.actual > run.ceiling || result.actual > run.estimate {
        return Failure(ModelCostExceeded);
      }
      var grant := grants[run.grant];
      var invalid := AuthorityInvalid(row, run.epoch);
      if invalid || grant.terms.context != run.context {
        var _ := CancelWithinTransaction(run.run, workerId, Some(result));
        return Success(false);
      }
      var spent := grant.spent + result.actual;
      var reserved := Max(0, grant.reserved - row.spec.estimate);
      ClampNeverBites(w, run.run, result.actual);
      if spent + reserved > grant.terms.budget {
        MisfitMeansOverrun(w, run.run, result);
        return Failure(BudgetExceededAtCompletion);
      }
      StepReaches(w, CommitStep(run.run, workerId, result));
      WriteCommit(run, row, spent, reserved, result);
      return Success(true);
    }

    /** Records the outcome and the samples, ends the run, and settles its grant. */
    method WriteCommit(run: Claim, row: Run, spent: int, reserved: int, result: Settlement)
      requires MayCommit(View(), run.run, run.worker, result) && active[run.worker] == run && row == runs[run.run]
      requires row.grant == Some(run.grant)
      requires spent == grants[run.grant].spent + result.actual
      requires reserved == grants[run.grant].reserved - row.spec.estimate
      modifies this`runs, this`grants, this`charges, this`metrics, this`outcomes
      ensures View() == Commit(old(View()), run.run, run.worker, result)
    {
      var epoch: Option<Time> := None;
      if !row.spec.development || !row.spec.deterministic {
        epoch := channels[ChannelKey(row.spec.project)].promotedAt;
      }
      outcomes := outcomes + [Outcome(run.run, run.worker, run.grant, row.spec.release, epoch)];
      metrics := metrics + CostRows(run.run, Some(result));
      var actual := Some((if row.actual.Some? then row.actual.value else 0) + result.actual);
      runs := runs[run.run := row.(state := Succeeded, actual := actual, lease := None, updatedAt := now)];
      SettleCommit(run, row.spec.estimate, result.actual, spent, reserved);
    }

    /** Writes the totals computed at completion, and the flag that follows from them. */
    method SettleCommit(run: Claim, estimate: Money, amount: Money, spent: int, reserved: int)
      requires run.grant < |grants|
      requires spent == grants[run.grant].spent + amount && reserved == grants[run.grant].reserved - estimate
      modifies this`grants, this`charges
      ensures charges == old(charges) + [Charge(run.run, run.grant, amount, estimate)]
      ensures grants == old(grants)[run.grant := Settle(old(grants)[run.grant], estimate, amount)]
      ensures old(grants)[run.grant].state in {Active, Exhausted} ==>
                var g := grants[run.grant];
                g.state == if g.used >= g.terms.maxRuns || g.spent + g.reserved >= g.terms.budget
                           then Exhausted else Active
    {
      charges := charges + [Charge(run.run, run.grant, amount, estimate)];
      var grant := grants[run.grant];
      var state := grant.state;
      if state == Active || state == Exhausted {
        state := if grant.used >= grant.terms.maxRuns || spent + reserved >= grant.terms.budget
                 then Exhausted else Active;
      }
      grants := grants[run.grant := grant.(spent := spent, reserved := reserved, state := state)];
    }

    // -------------------------------------------------------------------------
    // Recovery
    // -------------------------------------------------------------------------

    /** Takes back one expired lease, one more step of the sweep that started in `w`. */
    method RecoverRow(i: Id, ghost w: World, ghost sweep: seq<Step>) returns (terminal: bool, ghost longer: seq<Step>)
      requires Reachable(View()) && LeaseExpired(View(), i)
      requires IsSweep(w, sweep) && View() == After(w, sweep)
      modifies this`runs, this`grants, this`charges, this`metrics
      ensures Reachable(View())
      ensures IsSweep(w, longer) && View() == After(w, longer)
      ensures longer == sweep + [LeaveStep(i, if terminal then Failed else Queued, None)]
      ensures terminal <==> RecoveryTarget(old(View()), i) == Failed
      ensures runs == old(runs)[i := ExitRow(old(runs)[i], RecoveryTarget(old(View()), i), None, now)]
    {
      var row := runs[i];
      terminal := row.attempts >= row.spec.maxAttempts || i in invoked;
      var to := if terminal then Failed else Queued;
      LeaveReaches(View(), i, to, None);
      HistoryExtends(w, sweep, LeaveStep(i, to, None));
      longer := sweep + [LeaveStep(i, to, None)];
      WriteDisposition(i, row, to, None);
    }

    /**
     Takes back every expired lease no other transaction holds. Runs with attempts left and no
     plug-in row are requeued, the others fail, and nothing else in the run table changes; the
     whole sweep is a history of the machine.
     */
    method RecoverExpiredLeases(locked: set<Id>)
      returns (requeued: nat, failed: nat, ghost sweep: seq<Step>)
      requires Reachable(View())
      modifies this`runs, this`grants, this`charges, this`metrics
      ensures Reachable(View())
      ensures IsSweep(old(View()), sweep) && View() == After(old(View()), sweep)
      ensures requeued == Sum(sweep, Leaves(Queued)) && failed == Sum(sweep, Leaves(Failed))
      ensures |runs| == |old(runs)|
      ensures forall i :: 0 <= i < |runs| ==> runs[i] == SweptRow(old(View()), locked, i)
    {
      ghost var w := View();
      requeued, failed, sweep := 0, 0, [];
      for i := 0 to |runs|
        invariant Reachable(View())
        invariant IsSweep(w, sweep) && View() == After(w, sweep)
        invariant |runs| == |w.runs|
        invariant requeued == Sum(sweep, Leaves(Queued)) && failed == Sum(sweep, Leaves(Failed))
        invariant forall j :: i <= j < |runs| ==> runs[j] == w.runs[j]
        invariant forall j :: 0 <= j < i ==> runs[j] == SweptRow(w, locked, j)
      {
        var taken, terminal;
        taken, terminal, sweep := VisitRow(i, locked, w, sweep);
        if taken {
          if terminal {
            failed := failed + 1;
          } else {
            requeued := requeued + 1;
          }
        }
      }
    }

    /** Looks at one row of the sweep: takes its lease back when it is expired and not held elsewhere. */
    method VisitRow(i: Id, locked: set<Id>, ghost w: World, ghost sweep: seq<Step>)
      returns (taken: bool, terminal: bool, ghost longer: seq<Step>)
      requires Reachable(View()) && i < |runs| == |w.runs| && runs[i] == w.runs[i]
      requires IsSweep(w, sweep) && View() == After(w, sweep)
      modifies this`runs, this`grants, this`charges, this`metrics
      ensures Reachable(View())
      ensures IsSweep(w, longer) && View() == After(w, longer)
      ensures Sum(longer, Leaves(Queued)) == Sum(sweep, Leaves(Queued)) + (if taken && !terminal then 1 else 0)
      ensures Sum(longer, Leaves(Failed)) == Sum(sweep, Leaves(Failed)) + (if taken && terminal then 1 else 0)
      ensures runs == old(runs)[i := SweptRow(w, locked, i)]
    {
      taken, terminal, longer := false, false, sweep;
      var row := runs[i];
      UntouchedRow(w, sweep, i);
      if i !in locked && row.state == Running && row.lease.Some? && row.lease.value.expiresAt < now && row.grant.Some? {
        RunningRow(View(), i);
        taken := true;
        terminal, longer := RecoverRow(i, w, sweep);
        SumAppend(sweep, LeaveStep(i, if terminal then Failed else Queued, None), Leaves(Queued));
        SumAppend(sweep, LeaveStep(i, if terminal then Failed else Queued, None), Leaves(Failed));
      }
    }

    /** Other transactions run: the tables change under the worker. */
    method Observe(next: World)
      requires Reachable(next)
      modifies this
      ensures View() == next
    {
      runs, grants, channels, metrics := next.runs, next.grants, next.channels, next.metrics;
      claims, outcomes, invoked, now := next.claims, next.outcomes, next.invoked, next.now;
      charges, active := next.charges, next.active;
    }

    /** The engine's execution ends; the slot is idle again. */
    method Forget(workerId: WorkerId)
      requires Reachable(View()) && workerId in active
      modifies this`active
      ensures Reachable(View()) && View() == WorkerProtocol.Forget(old(View()), workerId)
    {
      StepReaches(View(), ForgetStep(workerId));
      active := active - {workerId};
    }
  }
}
