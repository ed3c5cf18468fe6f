/**
 The worker protocol over whole histories: any number of workers, any interleaving of claims,
 dispositions, crashes, recoveries, approvals, revocations and promotions.
 */
module WorkerHistories {
  import opened Prelude
  import opened WorkerProtocol
  import opened WorkerInvariants

  // ---------------------------------------------------------------------------
  // The invariant holds in every reachable world
  // ---------------------------------------------------------------------------

  predicate WorkerStep(s: Step) {
    s.AdmitStep? || s.RefuseStep? || s.DeferStep? || s.RenewStep? || s.LeaveStep? || s.CommitStep? || s.ForgetStep?
  }

  lemma QueueEditsKeep(w: World, i: Id)
    requires Inv(w) && MayRefuse(w, i)
    ensures Inv(Refuse(w, i)) && Inv(Defer(w, i)) && Inv(Hold(w, i))
  {
    EditKeeps(w, i, Refuse(w, i).runs[i]);
    EditKeeps(w, i, Defer(w, i).runs[i]);
    EditKeeps(w, i, Hold(w, i).runs[i]);
  }

  lemma RenewKeeps(w: World, i: Id, worker: WorkerId, leaseMs: Time)
    requires Inv(w) && OwnedBy(w, i, worker)
    ensures Inv(Renew(w, i, worker, leaseMs))
  {
    EditKeeps(w, i, Renew(w, i, worker, leaseMs).runs[i]);
  }

  lemma ApproveKeeps(w: World, i: Id, g: Id)
    requires Inv(w) && Enabled(w, ApproveStep(i, g))
    ensures Inv(Approve(w, i, g))
  {
    EditKeeps(w, i, Approve(w, i, g).runs[i]);
  }

  lemma CancelKeeps(w: World, i: Id)
    requires Inv(w) && Enabled(w, CancelStep(i))
    ensures Inv(RequestCancel(w, i))
  {
    EditKeeps(w, i, RequestCancel(w, i).runs[i]);
  }

  lemma ResumeKeeps(w: World, i: Id)
    requires Inv(w) && Enabled(w, ResumeStep(i))
    ensures Inv(Resume(w, i))
  {
    EditKeeps(w, i, Resume(w, i).runs[i]);
  }

  lemma WorkerStepKeeps(w: World, s: Step)
    requires Inv(w) && WorkerStep(s) && Enabled(w, s)
    ensures Inv(Next(w, s))
  {
    match s
    case AdmitStep(worker, i, leaseMs, epoch) => AdmitKeeps(w, worker, i, leaseMs, epoch);
    case RefuseStep(i) => QueueEditsKeep(w, i);
    case DeferStep(i) => QueueEditsKeep(w, i);
    case RenewStep(i, worker, leaseMs) => RenewKeeps(w, i, worker, leaseMs);
    case LeaveStep(i, to, cost) => LeaveKeeps(w, i, to, cost);
    case CommitStep(i, worker, cost) => CommitKeeps(w, i, worker, cost);
    case ForgetStep(worker) => SurroundingsKeep(w, Forget(w, worker));
  }

  lemma RevokeKeeps(w: World, g: Id)
    requires Inv(w) && g < |w.grants|
    ensures Inv(Revoke(w, g))
  {
    var runs := Revoke(w, g).runs;
    forall i | 0 <= i < |runs| ensures RunOk(w, w.runs[i]) && Edit(w, w.runs[i], runs[i]) {
    }
    EditsKeep(w, runs);
    WithdrawKeeps(w.(runs := runs), g, Revoked);
  }

  lemma SurroundingFrame(w: World, s: Step)
    requires Enabled(w, s) && (s.InvokeStep? || s.PromoteStep? || s.TickStep?)
    requires forall i :: i in w.invoked ==> i < |w.runs|
    ensures var v := Next(w, s);
            && v == w.(channels := v.channels, now := v.now, invoked := v.invoked, active := v.active)
            && v.active == w.active && forall i :: i in v.invoked ==> i < |w.runs|
  {
  }

  /** Steps that touch neither runs nor grants. */
  lemma SurroundingStepKeeps(w: World, s: Step)
    requires Inv(w) && Enabled(w, s) && (s.InvokeStep? || s.PromoteStep? || s.TickStep?)
    ensures Inv(Next(w, s))
  {
    SurroundingFrame(w, s);
    SurroundingsKeep(w, Next(w, s));
  }

  lemma EnvironmentStepKeeps(w: World, s: Step)
    requires Inv(w) && !WorkerStep(s) && Enabled(w, s)
    ensures Inv(Next(w, s))
  {
    match s
    case RequestStep(spec, grant) => RequestKeeps(w, spec, grant);
    case IssueStep(terms) => IssueKeeps(w, terms);
    case ApproveStep(i, g) => ApproveKeeps(w, i, g);
    case CancelStep(i) => CancelKeeps(w, i);
    case RevokeStep(g) => RevokeKeeps(w, g);
    case ExpireStep(g) => WithdrawKeeps(w, g, Expired);
    case HoldStep(i) => QueueEditsKeep(w, i);
    case ResumeStep(i) => ResumeKeeps(w, i);
    case _ => SurroundingStepKeeps(w, s);
  }

  lemma StepKeeps(w: World, s: Step)
    requires Inv(w) && Enabled(w, s)
    ensures Inv(Next(w, s))
  {
    if WorkerStep(s) {
      WorkerStepKeeps(w, s);
    } else {
      EnvironmentStepKeeps(w, s);
    }
  }

  /** Every history from an empty database keeps the invariant. */
  lemma {:induction false} HistoryKeeps(w: World, steps: seq<Step>)
    requires Fresh(w) && History(w, steps)
    ensures Inv(After(w, steps))
  {
    if steps != [] {
      HistoryKeeps(w, steps[..|steps| - 1]);
      StepKeeps(After(w, steps[..|steps| - 1]), steps[|steps| - 1]);
    }
  }

  /** Some history from an empty database leads here. */
  ghost predicate Reachable(w: World) {
    exists start, steps :: Fresh(start) && History(start, steps) && After(start, steps) == w
  }

  lemma ReachableKeepsInv(w: World)
    requires Reachable(w)
    ensures Inv(w)
  {
    var start, steps :| Fresh(start) && History(start, steps) && After(start, steps) == w;
    HistoryKeeps(start, steps);
  }

  lemma StepReaches(w: World, s: Step)
    requires Reachable(w) && Enabled(w, s)
    ensures Reachable(Next(w, s))
  {
    var start, steps :| Fresh(start) && History(start, steps) && After(start, steps) == w;
    assert (steps + [s])[..|steps|] == steps;
    assert History(start, steps + [s]) && After(start, steps + [s]) == Next(w, s);
  }

  /**
   The books of every reachable world, spelled out: what is reserved on a grant is the sum of the
   estimates of the runs running under it; what is spent is the sum of its charges; a run's cost
   is the same in its row, in its cost samples and in its charges; and spending stays within the
   budget up to the recorded overruns.
   */
  lemma BooksBalance(w: World, steps: seq<Step>, g: Id, i: Id)
    requires Fresh(w) && History(w, steps)
    ensures var v := After(w, steps);
            && (g < |v.grants| ==>
                  && v.grants[g].reserved == Sum(v.runs, HeldOn(g))
                  && v.grants[g].spent == Sum(v.charges, ChargedTo(g))
                  && v.grants[g].spent + v.grants[g].reserved
                     <= v.grants[g].terms.budget + Sum(v.charges, OverrunOn(g)))
            && (i < |v.runs| ==>
                  && CostSoFar(v.runs[i]) == Sum(v.charges, ChargedFor(i))
                  && CostSoFar(v.runs[i]) == Sum(v.metrics, MeteredFor(i)))
  {
    HistoryKeeps(w, steps);
  }

  /**
   The exhaustion flag of a live grant is right except in one case: a grant with no cost budget
   at all stays `active` until the first claim under it.
   */
  lemma FlagIsExact(w: World, steps: seq<Step>, g: Id)
    requires Fresh(w) && History(w, steps)
    requires g < |After(w, steps).grants| && After(w, steps).grants[g].state in {Active, Exhausted}
    ensures var v := After(w, steps);
            var row := v.grants[g];
            (row.state == Exhausted <==>
               row.used >= row.terms.maxRuns || row.spent + row.reserved >= row.terms.budget)
            <==> (row.terms.budget > 0 || exists c :: c in v.claims && c.grant == g)
  {
    HistoryKeeps(w, steps);
    var v := After(w, steps);
    if v.grants[g].terms.budget == 0 {
      BudgetlessGrantIsSpent(v, g);
    }
    FlagTells(v, g);
  }

  lemma FlagTells(v: World, g: Id)
    requires Flags(v) && g < |v.grants| && v.grants[g].state in {Active, Exhausted}
    requires v.grants[g].terms.budget == 0 ==> Spent(v.grants[g])
    ensures var row := v.grants[g];
            (row.state == Exhausted <==>
               row.used >= row.terms.maxRuns || row.spent + row.reserved >= row.terms.budget)
            <==> (row.terms.budget > 0 || exists c :: c in v.claims && c.grant == g)
  {
    assert Claimed(v, g) <==> exists c :: c in v.claims && c.grant == g;
  }

  /** The exceptional case: a grant issued without a cost budget is used up and active. */
  lemma BudgetlessGrantStaysActive(w: World, terms: Terms)
    requires Fresh(w) && terms.maxRuns > 0 && terms.budget == 0
    ensures History(w, [IssueStep(terms)])
    ensures var v := After(w, [IssueStep(terms)]);
            && |v.grants| == 1 && v.grants[0].state == Active && v.claims == []
            && v.grants[0].spent + v.grants[0].reserved == 0 == v.grants[0].terms.budget
  {
    assert History(w, []) && After(w, []) == w;
    assert [IssueStep(terms)][..|[IssueStep(terms)]| - 1] == [];
  }

  /** Without a budget a grant counts as spent from the start. */
  lemma BudgetlessGrantIsSpent(w: World, g: Id)
    requires Inv(w) && g < |w.grants| && w.grants[g].terms.budget == 0
    ensures Spent(w.grants[g])
  {
    if w.runs != [] {
      SumCovers(w.runs, 0, HeldOn(g));
    }
    if w.charges != [] {
      SumCovers(w.charges, 0, ChargedTo(g));
    }
  }

  /**
   Used runs are the runs first claimed under the grant, and neither limit is passed: no run is
   claimed more often than it has attempts, whatever retries, recoveries and approvals happen.
   */
  lemma LimitsHold(w: World, steps: seq<Step>, g: Id, i: Id)
    requires Fresh(w) && History(w, steps)
    ensures var v := After(w, steps);
            && (g < |v.grants| ==>
                  v.grants[g].used == Sum(v.claims, FirstClaimUnder(g)) <= v.grants[g].terms.maxRuns)
            && (i < |v.runs| ==>
                  Sum(v.claims, ClaimOf(i)) == v.runs[i].attempts <= v.runs[i].spec.maxAttempts)
  {
    HistoryKeeps(w, steps);
  }

  /** With no overrun on its grant, the budget check at completion cannot fail. */
  lemma CompletionFitsBudget(w: World, i: Id, cost: Settlement)
    requires Inv(w) && IsRunning(w, i) && cost.actual <= w.runs[i].spec.estimate
    requires forall c :: c in w.charges && c.grant == w.runs[i].grant.value ==> c.amount <= c.estimate
    ensures var g := w.grants[w.runs[i].grant.value];
            g.spent + cost.actual + (g.reserved - w.runs[i].spec.estimate) <= g.terms.budget
  {
    OverrunMeansExcess(w.charges, w.runs[i].grant.value);
  }

  // ---------------------------------------------------------------------------
  // What no step undoes
  // ---------------------------------------------------------------------------

  predicate Terminal(r: Run) {
    r.state in {Succeeded, Failed, Cancelled}
  }

  predicate RunEvolves(r: Run, r': Run) {
    && r'.spec == r.spec
    && r.attempts <= r'.attempts
    && CostSoFar(r) <= CostSoFar(r')
    && (r.cancelRequested ==> r'.cancelRequested)
    && (Terminal(r) ==> r'.state == r.state && r'.actual == r.actual && r'.attempts == r.attempts)
  }

  predicate GrantEvolves(g: Grant, g': Grant) {
    && g'.terms == g.terms
    && g.spent <= g'.spent && g.used <= g'.used
    && (!Live(g) ==> !Live(g'))
  }

  /** Tables only grow, logs are append-only, final states are final, withdrawal is final. */
  ghost predicate Evolves(w: World, w': World) {
    && |w.runs| <= |w'.runs| && |w.grants| <= |w'.grants|
    && (forall i :: 0 <= i < |w.runs| ==> RunEvolves(w.runs[i], w'.runs[i]))
    && (forall g :: 0 <= g < |w.grants| ==> GrantEvolves(w.grants[g], w'.grants[g]))
    && w.charges <= w'.charges && w.metrics <= w'.metrics && w.claims <= w'.claims && w.outcomes <= w'.outcomes
    && w.invoked <= w'.invoked && w.now <= w'.now
  }

  lemma AdmitEvolves(w: World, worker: WorkerId, i: Id, leaseMs: Time, epoch: Option<Time>)
    requires MayAdmit(w, worker, i, epoch)
    ensures Evolves(w, Admit(w, worker, i, leaseMs, epoch))
  {
  }

  lemma LeaveEvolves(w: World, i: Id, to: RunState, cost: Option<Settlement>)
    requires MayLeave(w, i, to)
    ensures Evolves(w, Leave(w, i, to, cost))
  {
  }

  lemma CommitEvolves(w: World, i: Id, worker: WorkerId, cost: Settlement)
    requires MayCommit(w, i, worker, cost)
    ensures Evolves(w, Commit(w, i, worker, cost))
  {
    LeaveEvolves(w, i, Succeeded, Some(cost));
  }

  lemma WorkerStepEvolves(w: World, s: Step)
    requires WorkerStep(s) && Enabled(w, s)
    ensures Evolves(w, Next(w, s))
  {
    match s
    case AdmitStep(worker, i, leaseMs, epoch) => AdmitEvolves(w, worker, i, leaseMs, epoch);
    case LeaveStep(i, to, cost) => LeaveEvolves(w, i, to, cost);
    case CommitStep(i, worker, cost) => CommitEvolves(w, i, worker, cost);
    case _ =>
  }

  lemma EnvironmentStepEvolves(w: World, s: Step)
    requires !WorkerStep(s) && Enabled(w, s)
    ensures Evolves(w, Next(w, s))
  {
    if s.RevokeStep? {
      RevokeEvolves(w, s.grant);
    }
  }

  lemma RevokeEvolves(w: World, g: Id)
    requires g < |w.grants|
    ensures Evolves(w, Revoke(w, g))
  {
  }

  lemma {:induction false} HistoryEvolves(w: World, steps: seq<Step>)
    requires History(w, steps)
    ensures Evolves(w, After(w, steps))
    decreases |steps|
  {
    if steps != [] {
      var n := |steps| - 1;
      HistoryEvolves(w, steps[..n]);
      if WorkerStep(steps[n]) {
        WorkerStepEvolves(After(w, steps[..n]), steps[n]);
      } else {
        EnvironmentStepEvolves(After(w, steps[..n]), steps[n]);
      }
    }
  }

  /** Two histories can be joined exactly when the second one goes on from where the first one leads. */
  lemma {:induction false} HistoriesJoin(w: World, first: seq<Step>, second: seq<Step>)
    requires History(w, first)
    ensures History(w, first + second) <==> History(After(w, first), second)
    ensures History(w, first + second) ==> After(After(w, first), second) == After(w, first + second)
    decreases |second|
  {
    if second == [] {
      assert first + second == first;
    } else {
      var before, last := second[..|second| - 1], second[|second| - 1];
      HistoriesJoin(w, first, before);
      DropLast(first, second);
    }
  }

  lemma DropLast<T>(a: seq<T>, b: seq<T>)
    requires b != []
    ensures (a + b)[..|a + b| - 1] == a + b[..|b| - 1] && (a + b)[|a + b| - 1] == b[|b| - 1]
  {
  }

  /** Every beginning of a history is a history. */
  lemma {:induction false} PrefixIsHistory(w: World, steps: seq<Step>, k: nat)
    requires History(w, steps) && k <= |steps|
    ensures History(w, steps[..k])
    decreases |steps|
  {
    if k == |steps| {
      assert steps[..k] == steps;
    } else {
      PrefixIsHistory(w, steps[..|steps| - 1], k);
      assert steps[..|steps| - 1][..k] == steps[..k];
    }
  }

  /** Histories can be cut anywhere and continued. */
  lemma HistorySplits(w: World, steps: seq<Step>, k: nat)
    requires History(w, steps) && k <= |steps|
    ensures History(w, steps[..k])
    ensures History(After(w, steps[..k]), steps[k..])
    ensures After(After(w, steps[..k]), steps[k..]) == After(w, steps)
  {
    PrefixIsHistory(w, steps, k);
    HistoriesJoin(w, steps[..k], steps[k..]);
    assert steps[..k] + steps[k..] == steps;
  }

  /** The world only evolves between two points of a history. */
  lemma EvolvesBetween(w: World, steps: seq<Step>, j: nat, k: nat)
    requires History(w, steps) && j <= k <= |steps|
    ensures History(w, steps[..j]) && History(w, steps[..k])
    ensures Evolves(After(w, steps[..j]), After(w, steps[..k]))
  {
    HistorySplits(w, steps, k);
    HistorySplits(w, steps[..k], j);
    assert steps[..k][..j] == steps[..j];
    HistoryEvolves(After(w, steps[..j]), steps[..k][j..]);
  }

  /** Every step of a history is taken from the world the earlier steps lead to. */
  lemma TakenAt(w: World, steps: seq<Step>, k: nat)
    requires History(w, steps) && k < |steps|
    ensures History(w, steps[..k]) && Enabled(After(w, steps[..k]), steps[k])
    ensures History(w, steps[..k + 1]) && After(w, steps[..k + 1]) == Next(After(w, steps[..k]), steps[k])
  {
    HistorySplits(w, steps, k + 1);
    assert steps[..k + 1][..k] == steps[..k];
  }

  /** A run once asked to stop never publishes an outcome, however long the history goes on. */
  lemma CancelledNeverSucceeds(w: World, steps: seq<Step>, k: nat, i: Id)
    requires Fresh(w) && History(w, steps) && k <= |steps| && History(w, steps[..k])
    requires i < |After(w, steps[..k]).runs| && After(w, steps[..k]).runs[i].cancelRequested
    ensures i < |After(w, steps).runs| && After(w, steps).runs[i].state != Succeeded
    ensures Sum(After(w, steps).outcomes, OutcomeOf(i)) == 0
  {
    HistorySplits(w, steps, k);
    HistoryEvolves(After(w, steps[..k]), steps[k..]);
    HistoryKeeps(w, steps);
    assert RunEvolves(After(w, steps[..k]).runs[i], After(w, steps).runs[i]);
    assert RunOk(After(w, steps), After(w, steps).runs[i]);
  }

  /** Once a run has a plug-in row, no retry and no recovery ever puts it back in the queue. */
  lemma InvokedNeverRequeued(w: World, steps: seq<Step>, j: nat, k: nat, i: Id)
    requires History(w, steps) && j < k < |steps|
    requires steps[j] == InvokeStep(i) && steps[k].LeaveStep? && steps[k].run == i
    ensures steps[k].to != Queued
  {
    TakenAt(w, steps, j);
    TakenAt(w, steps, k);
    EvolvesBetween(w, steps, j + 1, k);
    assert i in After(w, steps[..j + 1]).invoked;
  }

  // ---------------------------------------------------------------------------
  // Where an outcome comes from
  // ---------------------------------------------------------------------------

  /** Step `j` of the history is the claim that audit row `c` records. */
  ghost predicate ClaimedAt(w: World, steps: seq<Step>, j: nat, c: Claim) {
    && j < |steps| && History(w, steps[..j])
    && steps[j].AdmitStep? && steps[j].worker == c.worker && steps[j].run == c.run && steps[j].epoch == c.epoch
    && MayAdmit(After(w, steps[..j]), c.worker, c.run, c.epoch)
    && ClaimRecord(After(w, steps[..j]), c.worker, c.run, c.epoch) == c
  }

  /**
   When the claim was made, the run waited in the queue for this attempt, and the grant it names was not withdrawn, in
   its window, bound to the run's context, and able to pay for the run; a first attempt had a run left to use.
   */
  predicate Granted(u: World, c: Claim) {
    && c.run < |u.runs| && u.runs[c.run].state == Queued && u.runs[c.run].grant == Some(c.grant)
    && c.attempt == u.runs[c.run].attempts + 1 && c.grant < |u.grants|
    && var (spec, g) := (u.runs[c.run].spec, u.grants[c.grant]);
    && g.state in {Active, Exhausted} && g.terms.validFrom <= u.now < g.terms.validUntil
    && g.terms.context == spec.context == c.context
    && c.estimate == spec.estimate <= g.terms.perRun && c.ceiling == spec.ceiling
    && g.spent + g.reserved + spec.estimate <= g.terms.budget
    && (c.attempt == 1 ==> g.state == Active && g.used < g.terms.maxRuns)
    && c.worker !in u.active
  }

  lemma AdmittedIsGranted(u: World, worker: WorkerId, i: Id, epoch: Option<Time>)
    requires MayAdmit(u, worker, i, epoch)
    ensures Granted(u, ClaimRecord(u, worker, i, epoch))
  {
  }

  lemma ClaimedAtExtends(w: World, steps: seq<Step>, n: nat, j: nat, c: Claim)
    requires n <= |steps| && ClaimedAt(w, steps[..n], j, c)
    ensures ClaimedAt(w, steps, j, c)
  {
    assert steps[..n][..j] == steps[..j];
  }

  /** Every recorded claim was made by some step of the history, under a grant that allowed it then. */
  lemma {:induction false} ClaimHasOrigin(w: World, steps: seq<Step>, c: Claim) returns (j: nat)
    requires Fresh(w) && History(w, steps) && c in After(w, steps).claims
    ensures ClaimedAt(w, steps, j, c) && Granted(After(w, steps[..j]), c)
    decreases |steps|
  {
    var n := |steps| - 1;
    if c in After(w, steps[..n]).claims {
      j := ClaimHasOrigin(w, steps[..n], c);
      ClaimedAtExtends(w, steps, n, j, c);
    } else {
      j := n;
      AdmittedIsGranted(After(w, steps[..n]), c.worker, c.run, c.epoch);
    }
  }

  lemma OnlyCommitSucceeds(w: World, s: Step, i: Id)
    requires Enabled(w, s)
    requires i < |Next(w, s).runs| && Next(w, s).runs[i].state == Succeeded
    requires i < |w.runs| ==> w.runs[i].state != Succeeded
    ensures s.CommitStep? && s.run == i
  {
  }

  /** The step that made a run succeed is a commit, and it is found in the history. */
  lemma {:induction false} SuccessHasCommit(w: World, steps: seq<Step>, i: Id) returns (k: nat)
    requires Fresh(w) && History(w, steps)
    requires i < |After(w, steps).runs| && After(w, steps).runs[i].state == Succeeded
    ensures k < |steps| && History(w, steps[..k])
    ensures steps[k].CommitStep? && steps[k].run == i
    ensures MayCommit(After(w, steps[..k]), i, steps[k].worker, steps[k].settled)
    decreases |steps|
  {
    var n := |steps| - 1;
    var v := After(w, steps[..n]);
    if i < |v.runs| && v.runs[i].state == Succeeded {
      k := SuccessHasCommit(w, steps[..n], i);
      assert steps[..n][..k] == steps[..k];
    } else {
      OnlyCommitSucceeds(v, steps[n], i);
      k := n;
    }
  }

  /** In both channel tables the run's release is the one promoted, and it was promoted once. */
  predicate SameRelease(before: map<string, Channel>, after: map<string, Channel>, spec: RunSpec) {
    var key := match spec.project case Some(project) => project case None => "default";
    && key in before && before[key].release == Some(spec.release) && before[key].promotedAt.Some?
    && key in after && after[key].release == Some(spec.release)
    && after[key].promotedAt == before[key].promotedAt
  }

  /** The run's grant is not withdrawn, in its window and bound to its context, and covers the cost. */
  predicate WithinAuthority(v: World, i: Id, cost: Settlement) {
    && i < |v.runs| && v.runs[i].grant.Some? && v.runs[i].grant.value < |v.grants|
    && var (spec, g) := (v.runs[i].spec, v.grants[v.runs[i].grant.value]);
    && g.state in {Active, Exhausted} && g.terms.validFrom <= v.now < g.terms.validUntil
    && g.terms.context == spec.context
    && cost.actual <= spec.estimate && cost.actual <= spec.ceiling
    && g.spent + cost.actual + g.reserved - spec.estimate <= g.terms.budget
  }

  /**
   Provenance of an outcome. A run that succeeded was claimed at step `j` and committed at a later
   step `k` by the same worker, still holding the lease of that very attempt. At the commit no one
   had asked the run to stop and its grant was live, in its window and bound to the context the
   worker claimed, and the settled cost fit the estimate, the ceiling and the budget. Where
   production is required, the run's own release was the current one of its channel at both
   steps, in the same promotion epoch, whatever was promoted in between.
   */
  lemma SuccessProvenance(w: World, steps: seq<Step>, i: Id) returns (j: nat, k: nat)
    requires Fresh(w) && History(w, steps)
    requires i < |After(w, steps).runs| && After(w, steps).runs[i].state == Succeeded
    ensures j < k < |steps| && History(w, steps[..j]) && History(w, steps[..k])
    ensures steps[j].AdmitStep? && steps[k].CommitStep? && steps[j].run == steps[k].run == i
    ensures steps[j].worker == steps[k].worker
    ensures var u, v := After(w, steps[..j]), After(w, steps[..k]);
            && i < |u.runs| && u.runs[i].state == Queued && OwnedBy(v, i, steps[k].worker)
            && v.runs[i].attempts == u.runs[i].attempts + 1
            && u.runs[i].grant == v.runs[i].grant && u.runs[i].spec == v.runs[i].spec
            && !v.runs[i].cancelRequested && WithinAuthority(v, i, steps[k].settled)
    ensures var spec := After(w, steps[..k]).runs[i].spec;
            !spec.development || !spec.deterministic ==>
              SameRelease(After(w, steps[..j]).channels, After(w, steps[..k]).channels, spec)
  {
    k := SuccessHasCommit(w, steps, i);
    var v, worker := After(w, steps[..k]), steps[k].worker;
    HistoryKeeps(w, steps[..k]);
    var c := v.active[worker];
    assert BoundClaim(v, c);
    j := ClaimHasOrigin(w, steps[..k], c);
    ClaimedAtExtends(w, steps, k, j, c);
    EvolvesBetween(w, steps, j, k);
    assert RunEvolves(After(w, steps[..j]).runs[i], v.runs[i]);
    CommitIsAuthorised(v, i, worker, steps[k].settled);
    if !v.runs[i].spec.development || !v.runs[i].spec.deterministic {
      CommitSeesRelease(After(w, steps[..j]), v, i, worker, steps[k].settled);
    }
  }

  lemma CommitIsAuthorised(v: World, i: Id, worker: WorkerId, cost: Settlement)
    requires MayCommit(v, i, worker, cost) && v.active[worker].context == v.runs[i].spec.context
    ensures WithinAuthority(v, i, cost)
  {
  }

  lemma CommitSeesRelease(u: World, v: World, i: Id, worker: WorkerId, cost: Settlement)
    requires MayCommit(v, i, worker, cost) && MayAdmit(u, worker, i, v.active[worker].epoch)
    requires u.runs[i].spec == v.runs[i].spec && (!v.runs[i].spec.development || !v.runs[i].spec.deterministic)
    ensures SameRelease(u.channels, v.channels, v.runs[i].spec)
  {
  }

  /** One outcome if and only if the run succeeded, and no outcome otherwise. */
  lemma OneOutcomePerSuccess(w: World, steps: seq<Step>, i: Id)
    requires Fresh(w) && History(w, steps) && i < |After(w, steps).runs|
    ensures var v := After(w, steps);
            Sum(v.outcomes, OutcomeOf(i)) == (if v.runs[i].state == Succeeded then 1 else 0)
    ensures var v := After(w, steps);
            forall o :: o in v.outcomes && o.run == i ==> v.runs[i].state == Succeeded && Published(v, o)
  {
    HistoryKeeps(w, steps);
  }

  // ---------------------------------------------------------------------------
  // Workers alone always come to rest
  // ---------------------------------------------------------------------------

  function Rank(state: RunState): nat {
    if state == Running then 2 else if state == Queued then 1 else 0
  }

  /** Attempts left, then the rank of the state. */
  function WorkLeftIn(): Run -> int {
    (r: Run) => 3 * (r.spec.maxAttempts - r.attempts) + Rank(r.state)
  }

  function WorkLeft(w: World): int {
    Sum(w.runs, WorkLeftIn())
  }

  /** 1 for every claim, refusal and disposition; heartbeats and forgotten claims count nothing. */
  function Disposes(): Step -> int {
    (s: Step) => if s.RenewStep? || s.ForgetStep? then 0 else 1
  }

  lemma WorkLeftNotNegative(w: World)
    requires Inv(w)
    ensures WorkLeft(w) >= 0
  {
    if w.runs != [] {
      forall i | 0 <= i < |w.runs| ensures WorkLeftIn()(w.runs[i]) >= 0 {
        assert RunOk(w, w.runs[i]);
      }
      SumCovers(w.runs, 0, WorkLeftIn());
    }
  }

  lemma WorkerStepUsesWork(w: World, s: Step)
    requires WorkerStep(s) && Enabled(w, s)
    ensures WorkLeft(Next(w, s)) + Disposes()(s) <= WorkLeft(w)
  {
    if !s.ForgetStep? {
      SumUpdate(w.runs, s.run, Next(w, s).runs[s.run], WorkLeftIn());
    }
  }

  /** A history of worker steps alone holds at most as many dispositions as there is work left. */
  lemma {:induction false} WorkersComeToRest(w: World, steps: seq<Step>)
    requires Inv(w) && History(w, steps) && forall k :: 0 <= k < |steps| ==> WorkerStep(steps[k])
    ensures Inv(After(w, steps))
    ensures Sum(steps, Disposes()) <= WorkLeft(w) - WorkLeft(After(w, steps))
    ensures Sum(steps, Disposes()) <= WorkLeft(w)
    decreases |steps|
  {
    if steps != [] {
      var n := |steps| - 1;
      assert forall k :: 0 <= k < n ==> steps[..n][k] == steps[k];
      WorkersComeToRest(w, steps[..n]);
      StepKeeps(After(w, steps[..n]), steps[n]);
      WorkerStepUsesWork(After(w, steps[..n]), steps[n]);
    }
    WorkLeftNotNegative(After(w, steps));
  }

  // ---------------------------------------------------------------------------
  // Retry delay
  // ---------------------------------------------------------------------------

  lemma PowersGrow(n: nat, m: nat)
    requires n <= m
    ensures 1 <= PowerOfTwo(n) <= PowerOfTwo(m)
  {
  }

  /** The delay a failure reports is the delay the claim query waits, for every attempt count. */
  lemma DelaysAgree(backoff: Backoff, attempts: nat)
    ensures RetryDelayMs(backoff, attempts) == ClaimDelayMs(backoff, attempts)
    ensures backoff == Fixed || attempts == 0 ==> RetryDelayMs(backoff, attempts) == 1000
    ensures backoff == Exponential && attempts < 8 ==>
              RetryDelayMs(backoff, attempts + 1) == 2 * RetryDelayMs(backoff, attempts)
    ensures backoff == Exponential && attempts >= 8 ==> RetryDelayMs(backoff, attempts) == 256000
  {
    PowersGrow(Min(attempts, 8), 8);
    PowersGrow(Min(attempts + 1, 8), 8);
    assert PowerOfTwo(8) == 256;
  }
}
