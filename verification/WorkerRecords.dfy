/**
 What the worker's transactions leave in the tables, column by column: a claim, a disposition, a completion and a
 recovery, and how long a lease lasts.
 */
module WorkerRecords {
  import opened Prelude
  import opened WorkerProtocol
  import opened WorkerInvariants
  import opened WorkerHistories
  import opened WorkerStore

  /** All rows but one are as they were. */
  predicate OthersStay<T(==)>(before: seq<T>, after: seq<T>, i: nat) {
    |after| == |before| && forall j :: 0 <= j < |before| && j != i ==> after[j] == before[j]
  }

  /** The row of run `i` changed in state, grant and time of change only, and no other run did. */
  predicate Requeues(w: World, v: World, i: Id, state: RunState, grant: Option<Id>) {
    && i < |w.runs| == |v.runs| && OthersStay(w.runs, v.runs, i)
    && v.runs[i].spec == w.runs[i].spec && v.runs[i].state == state && v.runs[i].grant == grant
    && v.runs[i].attempts == w.runs[i].attempts && v.runs[i].actual == w.runs[i].actual
    && v.runs[i].lease == w.runs[i].lease && v.runs[i].cancelRequested == w.runs[i].cancelRequested
    && v.grants == w.grants && v.claims == w.claims && v.charges == w.charges && v.active == w.active
  }

  /** The run is leased to the worker for its next attempt, and its estimate is reserved on its grant. */
  predicate Leases(w: World, v: World, i: Id, worker: WorkerId, leaseMs: Time) {
    && i < |w.runs| == |v.runs| && OthersStay(w.runs, v.runs, i)
    && v.runs[i].spec == w.runs[i].spec && v.runs[i].state == Running && v.runs[i].grant == w.runs[i].grant
    && v.runs[i].attempts == w.runs[i].attempts + 1 && v.runs[i].cancelRequested == w.runs[i].cancelRequested
    && v.runs[i].lease == Some(Lease(worker, w.now + leaseMs)) && v.runs[i].actual == w.runs[i].actual
    && w.runs[i].grant.Some? && w.runs[i].grant.value < |w.grants| == |v.grants|
    && var g := w.runs[i].grant.value;
    && OthersStay(w.grants, v.grants, g)
    && v.grants[g].reserved == w.grants[g].reserved + w.runs[i].spec.estimate
    && v.grants[g].used == w.grants[g].used + (if w.runs[i].attempts == 0 then 1 else 0)
    && v.grants[g].spent == w.grants[g].spent && v.grants[g].terms == w.grants[g].terms
    && v.charges == w.charges
  }

  /** The claim names the run, the slot, the grant, the attempt, and the limits of what was leased. */
  predicate Names(c: Claim, w: World, i: Id, worker: WorkerId)
    requires i < |w.runs| && w.runs[i].grant.Some?
  {
    && c.run == i && c.worker == worker && c.grant == w.runs[i].grant.value && c.attempt == w.runs[i].attempts + 1
    && c.context == w.runs[i].spec.context
    && c.estimate == w.runs[i].spec.estimate && c.ceiling == w.runs[i].spec.ceiling
  }

  /**
   What a claim leaves behind: nothing when no run is claimable; a run sent back for approval without its grant when
   the grant does not cover it any more; a run paused for its budget when the grant cannot pay for it; and otherwise
   the lease, the reservation and the claim on record, which the slot then works on.
   */
  lemma ClaimLeads(w: World, worker: WorkerId, leaseMs: Time, locked: set<Id>, tables: Id -> Facts,
                   candidate: Option<Id>, claimed: Option<Claim>, v: World)
    requires Claims(w, worker, leaseMs, locked, tables, candidate, claimed, v)
    ensures candidate.None? ==> v == w && claimed.None?
    ensures candidate.Some? && !Covers(w, candidate.value, tables(candidate.value)) ==>
              claimed.None? && Requeues(w, v, candidate.value, AwaitingApproval, None)
    ensures candidate.Some? && Covers(w, candidate.value, tables(candidate.value)) ==>
              var i := candidate.value;
              && i < |w.runs| && w.runs[i].grant.Some? && w.runs[i].grant.value < |w.grants|
              && var g := w.grants[w.runs[i].grant.value];
                 if g.spent + g.reserved + w.runs[i].spec.estimate > g.terms.budget then
                   claimed.None? && Requeues(w, v, i, PausedBudget, w.runs[i].grant)
                 else
                   && claimed.Some? && Names(claimed.value, w, i, worker) && Leases(w, v, i, worker, leaseMs)
                   && v.claims == w.claims + [claimed.value]
                   && v.active == w.active[worker := claimed.value]
  {
  }

  /** The attempt is over: the lease is gone, the estimate is released, and what was spent is on every book. */
  predicate Settles(w: World, v: World, i: Id, to: RunState, amount: nat) {
    && i < |w.runs| == |v.runs| && OthersStay(w.runs, v.runs, i)
    && v.runs[i].state == to && v.runs[i].lease == None
    && v.runs[i].spec == w.runs[i].spec && v.runs[i].grant == w.runs[i].grant
    && v.runs[i].attempts == w.runs[i].attempts
    && w.runs[i].grant.Some? && w.runs[i].grant.value < |w.grants| == |v.grants|
    && var g := w.runs[i].grant.value;
    && OthersStay(w.grants, v.grants, g)
    && v.grants[g].reserved == w.grants[g].reserved - w.runs[i].spec.estimate
    && v.grants[g].spent == w.grants[g].spent + amount && v.grants[g].used == w.grants[g].used
    && v.grants[g].terms == w.grants[g].terms
    && v.claims == w.claims && v.now == w.now && v.invoked == w.invoked
  }

  /** One sample for the model's part of a cost, and one for the plugins' part if they cost anything. */
  predicate Samples(before: seq<Metric>, after: seq<Metric>, i: Id, cost: Option<Settlement>) {
    match cost
    case None => after == before
    case Some(c) =>
      var model := Metric(i, ModelCost, c.actual - c.plugin);
      after == before + (if c.plugin == 0 then [model] else [model, Metric(i, PluginCost, c.plugin)])
  }

  /** What a disposition leaves behind, whichever it is. */
  lemma DispositionLeads(w: World, i: Id, to: RunState, cost: Option<Settlement>)
    requires MayLeave(w, i, to)
    ensures var v := Leave(w, i, to, cost);
            && Settles(w, v, i, to, match cost case Some(c) => c.actual case None => 0)
            && Samples(w.metrics, v.metrics, i, cost) && v.outcomes == w.outcomes
            && v.runs[i].actual == (match (w.runs[i].actual, cost)
                                    case (_, None) => w.runs[i].actual
                                    case (None, Some(c)) => Some(c.actual)
                                    case (Some(before), Some(c)) => Some(before + c.actual))
  {
  }

  /** What a completion leaves behind: the settled run, succeeded, and one outcome of the worker's own. */
  lemma CompletionLeads(w: World, i: Id, worker: WorkerId, cost: Settlement)
    requires MayCommit(w, i, worker, cost)
    ensures var v := Commit(w, i, worker, cost);
            && Settles(w, v, i, Succeeded, cost.actual) && Samples(w.metrics, v.metrics, i, Some(cost))
            && |v.outcomes| == |w.outcomes| + 1 && w.outcomes <= v.outcomes
            && var o := v.outcomes[|w.outcomes|];
            && o.run == i && o.worker == worker && Some(o.grant) == w.runs[i].grant
            && o.release == w.runs[i].spec.release
            && (w.runs[i].spec.development && w.runs[i].spec.deterministic ==> o.epoch == None)
  {
    DispositionLeads(w, i, Succeeded, Some(cost));
  }

  /** A lease that is not renewed is taken back by a recovery exactly when more than its time has passed. */
  lemma LeaseLasts(w: World, worker: WorkerId, i: Id, leaseMs: Time, epoch: Option<Time>, elapsed: nat)
    requires MayAdmit(w, worker, i, epoch)
    ensures var v := Admit(w, worker, i, leaseMs, epoch);
            LeaseExpired(v.(now := v.now + elapsed), i) <==> elapsed > leaseMs
    ensures var v := Admit(w, worker, i, leaseMs, epoch);
            && OwnedBy(v, i, worker)
            && (LeaseExpired(Renew(v, i, worker, leaseMs).(now := v.now + elapsed), i) <==> elapsed > leaseMs)
  {
  }

  /** A run that was taken back waits out its delay: it is claimable again from then on, and not before. */
  lemma TakenBackRipens(w: World, i: Id, elapsed: nat)
    requires MayLeave(w, i, Queued)
    ensures var v := Leave(w, i, Queued, None);
            var r := w.runs[i];
            w.runs[i].attempts > 0 ==>
              (Ripe(v.runs[i], v.now + elapsed) <==> elapsed >= RetryDelayMs(r.spec.backoff, r.attempts))
  {
    DelaysAgree(w.runs[i].spec.backoff, w.runs[i].attempts);
  }

  /** Where recovery takes an expired run: it has failed for good after its last attempt or a plugin row. */
  lemma RecoveryLeads(w: World, locked: set<Id>, i: Id)
    requires Reachable(w) && i < |w.runs|
    ensures var r, s := w.runs[i], SweptRow(w, locked, i);
            if i !in locked && r.state == Running && r.lease.Some? && r.lease.value.expiresAt < w.now then
              && s.state == (if r.attempts < r.spec.maxAttempts && i !in w.invoked then Queued else Failed)
              && s.lease == None && s.attempts == r.attempts && s.grant == r.grant && s.actual == r.actual
              && s.spec == r.spec && s.cancelRequested == r.cancelRequested
            else s == r
  {
    if w.runs[i].state == Running {
      RunningRow(w, i);
    }
  }

  /**
   What stops a run from outside: a request to cancel ends a run that is not running and only asks a running one; a
   revocation withdraws the grant, sends its queued runs back for approval and asks its running ones to stop.
   */
  lemma StopsLead(w: World, i: Id, g: Id)
    requires i < |w.runs| && g < |w.grants|
    ensures var r, s := w.runs[i], RequestCancel(w, i).runs[i];
            if r.state == Running then s.state == Running && s.cancelRequested && s.lease == r.lease
            else s.state == Cancelled
    ensures OthersStay(w.runs, RequestCancel(w, i).runs, i) && RequestCancel(w, i).grants == w.grants
    ensures Revoke(w, g).grants[g].state == Revoked && OthersStay(w.grants, Revoke(w, g).grants, g)
    ensures |Revoke(w, g).runs| == |w.runs|
    ensures var r, s := w.runs[i], Revoke(w, g).runs[i];
            if r.grant == Some(g) && r.state == Queued then s.state == AwaitingApproval && s.grant == None
            else if r.grant == Some(g) && r.state == Running then
              s.state == Running && s.cancelRequested && s.lease == r.lease && s.grant == r.grant
            else s == r
  {
  }

  /** What the surroundings may do at any time: nothing but a row's own state stands in their way. */
  lemma SurroundingsAct(w: World, i: Id, g: Id, spec: RunSpec, terms: Terms, key: string, release: Option<Id>,
                        elapsed: nat)
    requires i < |w.runs| && g < |w.grants|
    ensures Enabled(w, TickStep(elapsed)) && Enabled(w, PromoteStep(key, release))
    ensures Enabled(w, IssueStep(terms)) <==> terms.maxRuns > 0
    ensures Enabled(w, RequestStep(spec, Some(g))) <==> spec.maxAttempts > 0
    ensures Enabled(w, RequestStep(spec, None)) <==> spec.maxAttempts > 0
    ensures Enabled(w, RevokeStep(g)) <==> w.grants[g].state != Revoked
    ensures Enabled(w, ExpireStep(g)) <==> w.grants[g].state in {Active, Exhausted}
    ensures Enabled(w, CancelStep(i)) <==> w.runs[i].state !in {Succeeded, Failed, Cancelled}
    ensures Enabled(w, ApproveStep(i, g)) <==> w.runs[i].state == AwaitingApproval
    ensures Enabled(w, HoldStep(i)) <==> w.runs[i].state == Queued
    ensures Enabled(w, ResumeStep(i)) <==>
              && w.runs[i].state in {PausedBudget, PausedPlugin}
              && w.runs[i].attempts < w.runs[i].spec.maxAttempts
  {
  }

  /** What they leave behind: new rows at their beginnings, a run back in the queue, a promotion dated now. */
  lemma SurroundingsLead(w: World, i: Id, g: Id, spec: RunSpec, terms: Terms, key: string, release: Option<Id>)
    requires i < |w.runs| && g < |w.grants| && spec.maxAttempts > 0 && terms.maxRuns > 0
    ensures Next(w, RequestStep(spec, Some(g))).runs ==
            w.runs + [Run(spec, Queued, Some(g), None, 0, None, false, w.now)]
    ensures Next(w, RequestStep(spec, None)).runs ==
            w.runs + [Run(spec, AwaitingApproval, None, None, 0, None, false, w.now)]
    ensures Next(w, IssueStep(terms)).grants == w.grants + [Grant(terms, Active, 0, 0, 0)]
    ensures w.runs[i].state == AwaitingApproval ==>
              var v := Next(w, ApproveStep(i, g));
              Requeues(w, v, i, Queued, Some(g))
    ensures w.runs[i].state == Queued ==> Requeues(w, Next(w, HoldStep(i)), i, PausedPlugin, w.runs[i].grant)
    ensures w.runs[i].state in {PausedBudget, PausedPlugin} && w.runs[i].attempts < w.runs[i].spec.maxAttempts ==>
              Requeues(w, Next(w, ResumeStep(i)), i, Queued, w.runs[i].grant)
    ensures var v := Next(w, PromoteStep(key, release));
            v == w.(channels := w.channels[key := Channel(release, Some(w.now))])
  {
  }
}
