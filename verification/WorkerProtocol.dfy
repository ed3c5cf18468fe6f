/**
 The lease, budget and retry protocol of the durable worker as an abstract machine.

 A `World` holds the tables the worker's transactions read and write, and every transaction is
 one atomic `Step`. Row identifiers are positions in their table. Money is a whole number of
 1e-8 USD, the scale of the cost columns.

 The machine is deliberately simpler than the code: the six ways of leaving `running` share
 one settlement, and nothing is clamped at zero. `WorkerStore` shows that the code's
 transactions, written out as the store writes them, are exactly these steps.
 */
module WorkerProtocol {
  import opened Prelude

  type Id = nat
  type Digest = string
  type WorkerId = string
  type Time = int
  type Money = nat

  // ---------------------------------------------------------------------------
  // Tables
  // ---------------------------------------------------------------------------

  datatype RunState =
    | AwaitingApproval | Queued | Running | PausedBudget | PausedPlugin
    | Succeeded | Failed | Cancelled

  datatype Backoff = Fixed | Exponential

  datatype Lease = Lease(owner: WorkerId, expiresAt: Time)

  /** The columns of a run that never change after it is requested. */
  datatype RunSpec = RunSpec(
    release: Id, releaseDigest: Digest, entry: Option<Id>, legacyUnresolved: bool,
    context: Digest, project: Option<string>, development: bool, deterministic: bool,
    needsPluginApproval: bool, tools: set<string>, estimate: Money, ceiling: Money,
    maxAttempts: nat, backoff: Backoff, createdAt: Time)

  datatype Run = Run(
    spec: RunSpec, state: RunState, grant: Option<Id>, actual: Option<Money>, attempts: nat,
    lease: Option<Lease>, cancelRequested: bool, updatedAt: Time)

  datatype GrantState = Active | Revoked | Exhausted | Expired

  datatype Terms = Terms(
    release: Id, releaseDigest: Digest, entry: Id, context: Digest, project: Option<string>,
    tools: set<string>, validFrom: Time, validUntil: Time, perRun: Money, budget: Money,
    maxRuns: nat)

  datatype Grant = Grant(terms: Terms, state: GrantState, spent: int, reserved: int, used: int)

  datatype Channel = Channel(release: Option<Id>, promotedAt: Option<Time>)

  /** What a worker carries away from a claim, and what the audit row of the claim records. */
  datatype Claim = Claim(
    run: Id, worker: WorkerId, grant: Id, attempt: nat, context: Digest, epoch: Option<Time>,
    estimate: Money, ceiling: Money)

  /** Cost reported with a disposition; the plug-in part is included in `actual`. */
  datatype Settlement = Settlement(actual: Money, plugin: Money)

  datatype Charge = Charge(run: Id, grant: Id, amount: Money, estimate: Money)

  datatype MetricName = ModelCost | PluginCost

  datatype Metric = Metric(run: Id, name: MetricName, value: int)

  datatype Outcome = Outcome(run: Id, worker: WorkerId, grant: Id, release: Id, epoch: Option<Time>)

  datatype World = World(
    runs: seq<Run>, grants: seq<Grant>, channels: map<string, Channel>,
    charges: seq<Charge>, metrics: seq<Metric>, claims: seq<Claim>, outcomes: seq<Outcome>,
    invoked: set<Id>, active: map<WorkerId, Claim>, now: Time)

  // ---------------------------------------------------------------------------
  // Derived quantities
  // ---------------------------------------------------------------------------

  /** What a run holds reserved on grant `g`: its estimate while it is running under it. */
  function HeldOn(g: Id): Run -> int {
    (r: Run) => if r.state == Running && r.grant == Some(g) then r.spec.estimate else 0
  }

  function ChargedTo(g: Id): Charge -> int {
    (c: Charge) => if c.grant == g then c.amount else 0
  }

  /** Cost above the estimate, which only a late reconciliation can record. */
  function OverrunOn(g: Id): Charge -> int {
    (c: Charge) => if c.grant == g then Max(0, c.amount - c.estimate) else 0
  }

  function ChargedFor(run: Id): Charge -> int {
    (c: Charge) => if c.run == run then c.amount else 0
  }

  function MeteredFor(run: Id): Metric -> int {
    (m: Metric) => if m.run == run then m.value else 0
  }

  function ClaimOf(run: Id): Claim -> int {
    (c: Claim) => if c.run == run then 1 else 0
  }

  function FirstClaimUnder(g: Id): Claim -> int {
    (c: Claim) => if c.grant == g && c.attempt == 1 then 1 else 0
  }

  function OutcomeOf(run: Id): Outcome -> int {
    (o: Outcome) => if o.run == run then 1 else 0
  }

  function CostSoFar(r: Run): Money {
    if r.actual.Some? then r.actual.value else 0
  }

  /** The run budget or the cost budget of the grant is used up. */
  predicate Spent(g: Grant) {
    g.used >= g.terms.maxRuns || g.spent + g.reserved >= g.terms.budget
  }

  predicate Live(g: Grant) {
    g.state == Active || g.state == Exhausted
  }

  predicate ProductionRequired(spec: RunSpec) {
    !spec.development || !spec.deterministic
  }

  function ChannelKey(project: Option<string>): string {
    if project.Some? then project.value else "default"
  }

  /** The promotion epoch of the run's own release, if that release is the current one. */
  function CurrentEpoch(w: World, spec: RunSpec): Option<Time> {
    var key := ChannelKey(spec.project);
    if key in w.channels && w.channels[key].release == Some(spec.release)
    then w.channels[key].promotedAt else None
  }

  /** The delay a failed attempt reports, in milliseconds. */
  function RetryDelayMs(backoff: Backoff, attempt: nat): Time {
    if backoff == Fixed then 1000 else Min(300000, 1000 * PowerOfTwo(Min(attempt, 8)))
  }

  /** The delay the claim query enforces, in milliseconds. */
  function ClaimDelayMs(backoff: Backoff, attempts: nat): Time {
    if backoff == Fixed then 1000 else Min(300, PowerOfTwo(Min(attempts, 8))) * 1000
  }

  function PowerOfTwo(n: nat): nat {
    if n == 0 then 1 else 2 * PowerOfTwo(n - 1)
  }

  // ---------------------------------------------------------------------------
  // Worker steps
  // ---------------------------------------------------------------------------

  /** A running run together with the grant it runs under. */
  predicate IsRunning(w: World, i: Id) {
    && i < |w.runs|
    && w.runs[i].state == Running
    && w.runs[i].grant.Some?
    && w.runs[i].grant.value < |w.grants|
  }

  predicate OwnedBy(w: World, i: Id, worker: WorkerId) {
    && IsRunning(w, i)
    && w.runs[i].lease.Some?
    && w.runs[i].lease.value.owner == worker
  }

  predicate InWindow(g: Grant, now: Time) {
    g.terms.validFrom <= now < g.terms.validUntil
  }

  predicate MayAdmit(w: World, worker: WorkerId, i: Id, epoch: Option<Time>) {
    && worker !in w.active
    && i < |w.runs|
    && var r := w.runs[i];
    && r.state == Queued
    && r.grant.Some? && r.grant.value < |w.grants|
    && var g := w.grants[r.grant.value];
    && Live(g) && InWindow(g, w.now)
    && (r.attempts == 0 ==> g.state == Active && g.used < g.terms.maxRuns)
    && g.terms.context == r.spec.context
    && r.spec.estimate <= g.terms.perRun
    && g.spent + g.reserved + r.spec.estimate <= g.terms.budget
    && (ProductionRequired(r.spec) ==> epoch.Some? && epoch == CurrentEpoch(w, r.spec))
  }

  function ClaimRecord(w: World, worker: WorkerId, i: Id, epoch: Option<Time>): Claim
    requires MayAdmit(w, worker, i, epoch)
  {
    var r := w.runs[i];
    Claim(i, worker, r.grant.value, r.attempts + 1, r.spec.context, epoch, r.spec.estimate, r.spec.ceiling)
  }

  function Reserve(g: Grant, estimate: Money, first: bool): Grant {
    var g' := g.(used := g.used + (if first then 1 else 0), reserved := g.reserved + estimate);
    if Spent(g') then g'.(state := Exhausted) else g'
  }

  /** A worker takes the lease of a queued run and reserves its estimate. */
  function Admit(w: World, worker: WorkerId, i: Id, leaseMs: Time, epoch: Option<Time>): World
    requires MayAdmit(w, worker, i, epoch)
  {
    var r := w.runs[i];
    var c := ClaimRecord(w, worker, i, epoch);
    w.(runs := w.runs[i := r.(state := Running, attempts := r.attempts + 1,
                              lease := Some(Lease(worker, w.now + leaseMs)), updatedAt := w.now)],
       grants := w.grants[c.grant := Reserve(w.grants[c.grant], r.spec.estimate, r.attempts == 0)],
       claims := w.claims + [c],
       active := w.active[worker := c])
  }

  predicate MayRefuse(w: World, i: Id) { i < |w.runs| && w.runs[i].state == Queued }

  /** A queued run whose authority no longer covers it goes back for approval. */
  function Refuse(w: World, i: Id): World
    requires MayRefuse(w, i)
  {
    w.(runs := w.runs[i := w.runs[i].(state := AwaitingApproval, grant := None, updatedAt := w.now)])
  }

  /** A queued run waits because its grant cannot cover its estimate. */
  function Defer(w: World, i: Id): World
    requires MayRefuse(w, i)
  {
    w.(runs := w.runs[i := w.runs[i].(state := PausedBudget, updatedAt := w.now)])
  }

  /** Heartbeat: the owner extends its lease. */
  function Renew(w: World, i: Id, worker: WorkerId, leaseMs: Time): World
    requires OwnedBy(w, i, worker)
  {
    w.(runs := w.runs[i := w.runs[i].(lease := Some(Lease(worker, w.now + leaseMs)), updatedAt := w.now)])
  }

  /** Releases one reservation, records one charge, and recomputes the exhaustion flag. */
  function Settle(g: Grant, estimate: Money, amount: Money): Grant {
    var g' := g.(reserved := g.reserved - estimate, spent := g.spent + amount);
    if Live(g) then g'.(state := if Spent(g') then Exhausted else Active) else g'
  }

  function CostOf(cost: Option<Settlement>): Money {
    if cost.Some? then cost.value.actual else 0
  }

  function CostRows(i: Id, cost: Option<Settlement>): seq<Metric> {
    if cost.None? then []
    else
      [Metric(i, ModelCost, cost.value.actual - cost.value.plugin)]
      + (if cost.value.plugin > 0 then [Metric(i, PluginCost, cost.value.plugin)] else [])
  }

  predicate MayLeave(w: World, i: Id, to: RunState) {
    && IsRunning(w, i)
    && to in {PausedPlugin, Queued, Failed, Cancelled, Succeeded}
    && (to == Queued ==> w.runs[i].attempts < w.runs[i].spec.maxAttempts && i !in w.invoked)
  }

  /** The row of a run after it left `running`. */
  function ExitRow(r: Run, to: RunState, cost: Option<Settlement>, now: Time): Run {
    r.(state := to, lease := None, updatedAt := now,
       actual := if cost.None? then r.actual else Some(CostSoFar(r) + cost.value.actual))
  }

  /** The one way out of `running`: settle the money, drop the lease, move to `to`. */
  function Leave(w: World, i: Id, to: RunState, cost: Option<Settlement>): World
    requires MayLeave(w, i, to)
  {
    var r := w.runs[i];
    var g := r.grant.value;
    w.(runs := w.runs[i := ExitRow(r, to, cost, w.now)],
       grants := w.grants[g := Settle(w.grants[g], r.spec.estimate, CostOf(cost))],
       charges := w.charges + [Charge(i, g, CostOf(cost), r.spec.estimate)],
       metrics := w.metrics + CostRows(i, cost))
  }

  predicate MayCommit(w: World, i: Id, worker: WorkerId, cost: Settlement) {
    && OwnedBy(w, i, worker)
    && worker in w.active && w.active[worker].run == i
    && var r := w.runs[i];
    && var g := w.grants[r.grant.value];
    && var c := w.active[worker];
    && !r.cancelRequested
    && cost.actual <= r.spec.estimate && cost.actual <= r.spec.ceiling
    && Live(g) && InWindow(g, w.now)
    && g.terms.context == c.context
    && (ProductionRequired(r.spec) ==> c.epoch.Some? && c.epoch == CurrentEpoch(w, r.spec))
    && g.spent + cost.actual + g.reserved - r.spec.estimate <= g.terms.budget
  }

  function EpochAtCommit(w: World, spec: RunSpec): Option<Time> {
    if ProductionRequired(spec) then CurrentEpoch(w, spec) else None
  }

  /** The owner publishes the outcome and leaves `running` as succeeded. */
  function Commit(w: World, i: Id, worker: WorkerId, cost: Settlement): World
    requires MayCommit(w, i, worker, cost)
  {
    var r := w.runs[i];
    Leave(w, i, Succeeded, Some(cost)).(outcomes :=
      w.outcomes + [Outcome(i, worker, r.grant.value, r.spec.release, EpochAtCommit(w, r.spec))])
  }

  /** The process drops its claim: it finished, lost its lease, or crashed. */
  function Forget(w: World, worker: WorkerId): World {
    w.(active := w.active - {worker})
  }

  // ---------------------------------------------------------------------------
  // Steps of the control plane and of the environment
  // ---------------------------------------------------------------------------

  function RequestRun(w: World, spec: RunSpec, grant: Option<Id>): World {
    w.(runs := w.runs + [Run(spec, if grant.Some? then Queued else AwaitingApproval, grant, None, 0,
                             None, false, w.now)])
  }

  function IssueGrant(w: World, terms: Terms): World {
    w.(grants := w.grants + [Grant(terms, Active, 0, 0, 0)])
  }

  function Approve(w: World, i: Id, g: Id): World
    requires i < |w.runs|
  {
    w.(runs := w.runs[i := w.runs[i].(state := Queued, grant := Some(g), updatedAt := w.now)])
  }

  /** Cancelling a run that is not running ends it; a running one is only asked to stop. */
  function RequestCancel(w: World, i: Id): World
    requires i < |w.runs|
  {
    var r := w.runs[i];
    w.(runs := w.runs[i := if r.state == Running then r.(cancelRequested := true, updatedAt := w.now)
                           else r.(state := Cancelled, updatedAt := w.now)])
  }

  /** What revoking grant `g` does to one run. */
  function RevokedRun(r: Run, g: Id, now: Time): Run {
    if r.grant == Some(g) && r.state == Queued then
      r.(state := AwaitingApproval, grant := None, updatedAt := now)
    else if r.grant == Some(g) && r.state == Running then
      r.(cancelRequested := true, updatedAt := now)
    else r
  }

  function Revoke(w: World, g: Id): World
    requires g < |w.grants|
  {
    w.(runs := seq(|w.runs|, i requires 0 <= i < |w.runs| => RevokedRun(w.runs[i], g, w.now)),
       grants := w.grants[g := w.grants[g].(state := Revoked)])
  }

  function Expire(w: World, g: Id): World
    requires g < |w.grants|
  {
    w.(grants := w.grants[g := w.grants[g].(state := Expired)])
  }

  /** A plug-in outage holds a queued run. */
  function Hold(w: World, i: Id): World
    requires i < |w.runs|
  {
    w.(runs := w.runs[i := w.runs[i].(state := PausedPlugin, updatedAt := w.now)])
  }

  /** A held run is put back in the queue. */
  function Resume(w: World, i: Id): World
    requires i < |w.runs|
  {
    w.(runs := w.runs[i := w.runs[i].(state := Queued, updatedAt := w.now)])
  }

  // ---------------------------------------------------------------------------
  // Steps and traces
  // ---------------------------------------------------------------------------

  datatype Step =
    | AdmitStep(worker: WorkerId, run: Id, leaseMs: Time, epoch: Option<Time>)
    | RefuseStep(run: Id)
    | DeferStep(run: Id)
    | RenewStep(run: Id, worker: WorkerId, leaseMs: Time)
    | LeaveStep(run: Id, to: RunState, cost: Option<Settlement>)
    | CommitStep(run: Id, worker: WorkerId, settled: Settlement)
    | ForgetStep(worker: WorkerId)
    | RequestStep(spec: RunSpec, under: Option<Id>)
    | IssueStep(terms: Terms)
    | ApproveStep(run: Id, grant: Id)
    | CancelStep(run: Id)
    | RevokeStep(grant: Id)
    | ExpireStep(grant: Id)
    | HoldStep(run: Id)
    | ResumeStep(run: Id)
    | InvokeStep(run: Id)
    | PromoteStep(key: string, release: Option<Id>)
    | TickStep(elapsed: nat)

  predicate Enabled(w: World, s: Step) {
    match s
    case AdmitStep(worker, i, _, epoch) => MayAdmit(w, worker, i, epoch)
    case RefuseStep(i) => MayRefuse(w, i)
    case DeferStep(i) => MayRefuse(w, i)
    case RenewStep(i, worker, _) => OwnedBy(w, i, worker)
    case LeaveStep(i, to, _) => MayLeave(w, i, to) && to != Succeeded
    case CommitStep(i, worker, cost) => MayCommit(w, i, worker, cost)
    case ForgetStep(worker) => worker in w.active
    case RequestStep(spec, grant) =>
      spec.maxAttempts > 0 && (grant.Some? ==> grant.value < |w.grants|)
    case IssueStep(terms) => terms.maxRuns > 0
    case ApproveStep(i, g) => i < |w.runs| && w.runs[i].state == AwaitingApproval && g < |w.grants|
    case CancelStep(i) => i < |w.runs| && w.runs[i].state !in {Succeeded, Failed, Cancelled}
    case RevokeStep(g) => g < |w.grants| && w.grants[g].state != Revoked
    case ExpireStep(g) => g < |w.grants| && Live(w.grants[g])
    case HoldStep(i) => MayRefuse(w, i)
    case ResumeStep(i) =>
      && i < |w.runs|
      && w.runs[i].state in {PausedBudget, PausedPlugin}
      && w.runs[i].attempts < w.runs[i].spec.maxAttempts
    case InvokeStep(i) => IsRunning(w, i)
    case PromoteStep(_, _) => true
    case TickStep(_) => true
  }

  function Next(w: World, s: Step): World
    requires Enabled(w, s)
  {
    match s
    case AdmitStep(worker, i, leaseMs, epoch) => Admit(w, worker, i, leaseMs, epoch)
    case RefuseStep(i) => Refuse(w, i)
    case DeferStep(i) => Defer(w, i)
    case RenewStep(i, worker, leaseMs) => Renew(w, i, worker, leaseMs)
    case LeaveStep(i, to, cost) => Leave(w, i, to, cost)
    case CommitStep(i, worker, cost) => Commit(w, i, worker, cost)
    case ForgetStep(worker) => Forget(w, worker)
    case RequestStep(spec, grant) => RequestRun(w, spec, grant)
    case IssueStep(terms) => IssueGrant(w, terms)
    case ApproveStep(i, g) => Approve(w, i, g)
    case CancelStep(i) => RequestCancel(w, i)
    case RevokeStep(g) => Revoke(w, g)
    case ExpireStep(g) => Expire(w, g)
    case HoldStep(i) => Hold(w, i)
    case ResumeStep(i) => Resume(w, i)
    case InvokeStep(i) => w.(invoked := w.invoked + {i})
    case PromoteStep(key, release) => w.(channels := w.channels[key := Channel(release, Some(w.now))])
    case TickStep(elapsed) => w.(now := w.now + elapsed)
  }

  /** Every step of the history is enabled where it is taken. */
  predicate History(w: World, steps: seq<Step>)
    decreases |steps|, 0
  {
    var n := |steps| - 1;
    steps == [] || (History(w, steps[..n]) && Enabled(After(w, steps[..n]), steps[n]))
  }

  /** The world a history leads to. */
  function After(w: World, steps: seq<Step>): World
    requires History(w, steps)
    decreases |steps|, 1
  {
    var n := |steps| - 1;
    if steps == [] then w else Next(After(w, steps[..n]), steps[n])
  }

  /** Before the first run and the first grant. */
  predicate Fresh(w: World) {
    && w.runs == [] && w.grants == [] && w.charges == [] && w.metrics == [] && w.claims == []
    && w.outcomes == [] && w.invoked == {} && w.active == map[]
  }
}
