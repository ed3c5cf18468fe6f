/**
 What every step of the worker protocol keeps: the books balance, the flags tell the truth, and
 an outcome exists exactly for the runs that succeeded.
 */
module WorkerInvariants {
  import opened Prelude
  import opened WorkerProtocol

  // ---------------------------------------------------------------------------
  // The invariant
  // ---------------------------------------------------------------------------

  predicate RunOk(w: World, r: Run) {
    && r.spec.maxAttempts > 0
    && r.attempts <= r.spec.maxAttempts
    && (r.state in {AwaitingApproval, Queued, PausedBudget} ==> r.attempts < r.spec.maxAttempts)
    && (r.grant.Some? ==> r.grant.value < |w.grants|)
    && (r.state == Running <==> r.lease.Some?)
    && (r.state == Running ==> r.grant.Some? && r.attempts > 0)
    && (r.state == Succeeded ==> !r.cancelRequested)
  }

  /** References stay inside their tables, and every row is well formed. */
  ghost predicate Shape(w: World) {
    && (forall i :: 0 <= i < |w.runs| ==> RunOk(w, w.runs[i]))
    && (forall g :: 0 <= g < |w.grants| ==> w.grants[g].terms.maxRuns > 0)
    && (forall k :: 0 <= k < |w.charges| ==> w.charges[k].run < |w.runs| && w.charges[k].grant < |w.grants|)
    && (forall k :: 0 <= k < |w.metrics| ==> w.metrics[k].run < |w.runs|)
    && (forall k :: 0 <= k < |w.claims| ==> w.claims[k].run < |w.runs| && w.claims[k].grant < |w.grants|)
    && (forall k :: 0 <= k < |w.outcomes| ==> w.outcomes[k].run < |w.runs|)
    && (forall i :: i in w.invoked ==> i < |w.runs|)
  }

  /** What is reserved on a grant is exactly what the runs running under it may still cost. */
  ghost predicate Reservations(w: World) {
    forall g :: 0 <= g < |w.grants| ==> w.grants[g].reserved == Sum(w.runs, HeldOn(g))
  }

  /** A run's recorded cost, its cost samples and its charges to grants are one amount. */
  ghost predicate Costs(w: World) {
    && (forall g :: 0 <= g < |w.grants| ==> w.grants[g].spent == Sum(w.charges, ChargedTo(g)))
    && (forall i :: 0 <= i < |w.runs| ==> CostSoFar(w.runs[i]) == Sum(w.charges, ChargedFor(i)))
    && (forall i :: 0 <= i < |w.runs| ==> CostSoFar(w.runs[i]) == Sum(w.metrics, MeteredFor(i)))
  }

  /** Spent plus reserved exceeds the budget by no more than the recorded overruns. */
  ghost predicate Budgets(w: World) {
    forall g :: 0 <= g < |w.grants| ==>
      w.grants[g].spent + w.grants[g].reserved <= w.grants[g].terms.budget + Sum(w.charges, OverrunOn(g))
  }

  /** Attempts and used runs are the number of recorded claims, and stay within their limits. */
  ghost predicate Counts(w: World) {
    && (forall i :: 0 <= i < |w.runs| ==> w.runs[i].attempts == Sum(w.claims, ClaimOf(i)))
    && (forall g :: 0 <= g < |w.grants| ==> w.grants[g].used == Sum(w.claims, FirstClaimUnder(g)))
    && (forall g :: 0 <= g < |w.grants| ==> w.grants[g].used <= w.grants[g].terms.maxRuns)
  }

  /** The claims of one run are numbered in order: an attempt number is never handed out twice. */
  ghost predicate Numbered(w: World) {
    && (forall k :: 0 <= k < |w.claims| && w.claims[k].run < |w.runs| ==>
          1 <= w.claims[k].attempt <= w.runs[w.claims[k].run].attempts)
    && (forall k, l :: 0 <= k < l < |w.claims| && w.claims[k].run == w.claims[l].run ==>
          w.claims[k].attempt < w.claims[l].attempt)
  }

  ghost predicate Claimed(w: World, g: Id) {
    exists k :: 0 <= k < |w.claims| && w.claims[k].grant == g
  }

  /** The exhaustion flag of a live grant, exactly. */
  ghost predicate Flags(w: World) {
    forall g :: 0 <= g < |w.grants| && Live(w.grants[g]) ==>
      (w.grants[g].state == Exhausted <==>
       Spent(w.grants[g]) && (w.grants[g].terms.budget > 0 || Claimed(w, g)))
  }

  /** A worker that still owns the row it claimed carries that row's own claim. */
  predicate BoundClaim(w: World, c: Claim) {
    && c.run < |w.runs|
    && var r := w.runs[c.run];
    && c.context == r.spec.context && c.estimate == r.spec.estimate && c.ceiling == r.spec.ceiling
    && c.attempt <= r.attempts
    && c in w.claims
    && c.grant < |w.grants| && w.grants[c.grant].terms.context == c.context
    && (r.lease.Some? && r.lease.value.owner == c.worker ==>
          r.grant == Some(c.grant) && r.attempts == c.attempt)
  }

  /** Claim `k` is the one run `i` is running under. */
  predicate LeasedUnder(w: World, i: Id, c: Claim) {
    && i < |w.runs|
    && c.run == i
    && c.attempt == w.runs[i].attempts
    && w.runs[i].grant == Some(c.grant)
    && w.runs[i].lease.Some? && w.runs[i].lease.value.owner == c.worker
  }

  ghost predicate Leased(w: World, i: Id) {
    exists k :: 0 <= k < |w.claims| && LeasedUnder(w, i, w.claims[k])
  }

  /** Grants keep their terms. */
  predicate SameTerms(w: World, w': World) {
    |w.grants| <= |w'.grants| && forall g :: 0 <= g < |w.grants| ==> w'.grants[g].terms == w.grants[g].terms
  }

  ghost predicate AllLeased(w: World) {
    forall i :: 0 <= i < |w.runs| && w.runs[i].state == Running ==> Leased(w, i)
  }

  ghost predicate ActiveBound(w: World) {
    forall worker :: worker in w.active ==> w.active[worker].worker == worker && BoundClaim(w, w.active[worker])
  }

  ghost predicate EpochsKept(w: World) {
    forall k :: 0 <= k < |w.claims| && w.claims[k].run < |w.runs|
                && ProductionRequired(w.runs[w.claims[k].run].spec) ==>
      w.claims[k].epoch.Some?
  }

  /** Every lease stands for a recorded claim, and every worker's claim is still bound to its run. */
  ghost predicate Bindings(w: World) {
    AllLeased(w) && ActiveBound(w) && EpochsKept(w)
  }

  /** The claim under which an outcome was published: same worker, grant and promotion epoch. */
  predicate PublishedUnder(w: World, o: Outcome, c: Claim) {
    && o.run < |w.runs| && w.runs[o.run].state == Succeeded
    && c.run == o.run && c.worker == o.worker && c.grant == o.grant
    && c.attempt == w.runs[o.run].attempts
    && o.release == w.runs[o.run].spec.release
    && (ProductionRequired(w.runs[o.run].spec) ==> o.epoch.Some? && o.epoch == c.epoch)
  }

  ghost predicate Published(w: World, o: Outcome) {
    exists k :: 0 <= k < |w.claims| && PublishedUnder(w, o, w.claims[k])
  }

  /** One outcome for each run that succeeded and none for any other. */
  ghost predicate Outcomes(w: World) {
    && (forall i :: 0 <= i < |w.runs| ==>
          Sum(w.outcomes, OutcomeOf(i)) == if w.runs[i].state == Succeeded then 1 else 0)
    && (forall k :: 0 <= k < |w.outcomes| ==> Published(w, w.outcomes[k]))
  }

  ghost predicate Inv(w: World) {
    && Shape(w) && Reservations(w) && Costs(w) && Budgets(w) && Counts(w) && Numbered(w) && Flags(w)
    && Bindings(w) && Outcomes(w)
  }

  // ---------------------------------------------------------------------------
  // Consequences
  // ---------------------------------------------------------------------------

  /** The reservation of a running run is still there: releasing it never goes below zero. */
  lemma ReservationCovers(w: World, i: Id)
    requires Shape(w) && Reservations(w) && IsRunning(w, i)
    ensures w.grants[w.runs[i].grant.value].reserved >= w.runs[i].spec.estimate
  {
    SumCovers(w.runs, i, HeldOn(w.runs[i].grant.value));
  }

  /** An overrun is recorded exactly when some charge to the grant is above its estimate. */
  lemma {:induction false} OverrunMeansExcess(charges: seq<Charge>, g: Id)
    ensures Sum(charges, OverrunOn(g)) >= 0
    ensures Sum(charges, OverrunOn(g)) > 0 <==> exists c :: c in charges && c.grant == g && c.amount > c.estimate
  {
    if charges != [] {
      var n := |charges| - 1;
      OverrunMeansExcess(charges[..n], g);
      assert charges == charges[..n] + [charges[n]];
      assert OverrunOn(g)(charges[n]) > 0 <==> charges[n].grant == g && charges[n].amount > charges[n].estimate;
    }
  }

  /** A lease keeps its claim while the claim log grows and the row keeps its lease. */
  lemma LeaseCarries(w: World, w': World, i: Id)
    requires i < |w.runs| && i < |w'.runs| && w.claims <= w'.claims && Leased(w, i)
    requires w'.runs[i].attempts == w.runs[i].attempts && w'.runs[i].grant == w.runs[i].grant
    requires w.runs[i].lease.Some? && w'.runs[i].lease.Some?
    requires w'.runs[i].lease.value.owner == w.runs[i].lease.value.owner
    ensures Leased(w', i)
  {
    var k :| 0 <= k < |w.claims| && LeasedUnder(w, i, w.claims[k]);
    assert LeasedUnder(w', i, w'.claims[k]);
  }

  /** Published outcomes stay published while the logs grow and succeeded runs stay as they are. */
  lemma OutcomesCarry(w: World, w': World)
    requires forall k :: 0 <= k < |w.outcomes| ==> Published(w, w.outcomes[k])
    requires w.claims <= w'.claims && |w.runs| <= |w'.runs|
    requires forall i :: 0 <= i < |w.runs| && w.runs[i].state == Succeeded ==>
               && w'.runs[i].state == Succeeded
               && w'.runs[i].attempts == w.runs[i].attempts && w'.runs[i].spec == w.runs[i].spec
    ensures forall k :: 0 <= k < |w.outcomes| ==> Published(w', w.outcomes[k])
  {
    forall k | 0 <= k < |w.outcomes| ensures Published(w', w.outcomes[k]) {
      assert Published(w, w.outcomes[k]);
      var j :| 0 <= j < |w.claims| && PublishedUnder(w, w.outcomes[k], w.claims[j]);
      assert PublishedUnder(w', w.outcomes[k], w'.claims[j]);
    }
  }

  lemma SameClaimsSameUse(w: World, w': World)
    requires w'.claims == w.claims
    ensures forall g :: Claimed(w', g) <==> Claimed(w, g)
  {
  }

  // ---------------------------------------------------------------------------
  // Admission keeps the invariant
  // ---------------------------------------------------------------------------

  lemma AdmitKeepsBooks(w: World, worker: WorkerId, i: Id, leaseMs: Time, epoch: Option<Time>)
    requires Shape(w) && Reservations(w) && Costs(w) && MayAdmit(w, worker, i, epoch)
    ensures Reservations(Admit(w, worker, i, leaseMs, epoch))
    ensures Costs(Admit(w, worker, i, leaseMs, epoch))
  {
    var w' := Admit(w, worker, i, leaseMs, epoch);
    forall g | 0 <= g < |w.grants| ensures w'.grants[g].reserved == Sum(w'.runs, HeldOn(g)) {
      SumUpdate(w.runs, i, w'.runs[i], HeldOn(g));
    }
  }

  lemma AdmitKeepsBudgets(w: World, worker: WorkerId, i: Id, leaseMs: Time, epoch: Option<Time>)
    requires Budgets(w) && MayAdmit(w, worker, i, epoch)
    ensures Budgets(Admit(w, worker, i, leaseMs, epoch))
  {
    OverrunMeansExcess(w.charges, w.runs[i].grant.value);
  }

  lemma AdmitKeepsCounts(w: World, worker: WorkerId, i: Id, leaseMs: Time, epoch: Option<Time>)
    requires Counts(w) && MayAdmit(w, worker, i, epoch)
    ensures Counts(Admit(w, worker, i, leaseMs, epoch))
  {
    var w' := Admit(w, worker, i, leaseMs, epoch);
    var c := ClaimRecord(w, worker, i, epoch);
    forall g | 0 <= g < |w.grants| ensures w'.grants[g].used == Sum(w'.claims, FirstClaimUnder(g)) {
      SumAppend(w.claims, c, FirstClaimUnder(g));
    }
    forall j | 0 <= j < |w.runs| ensures w'.runs[j].attempts == Sum(w'.claims, ClaimOf(j)) {
      SumAppend(w.claims, c, ClaimOf(j));
    }
  }

  lemma AdmitKeepsNumbered(w: World, worker: WorkerId, i: Id, leaseMs: Time, epoch: Option<Time>)
    requires Shape(w) && Numbered(w) && MayAdmit(w, worker, i, epoch)
    ensures Numbered(Admit(w, worker, i, leaseMs, epoch))
  {
  }

  lemma AdmitKeepsFlags(w: World, worker: WorkerId, i: Id, leaseMs: Time, epoch: Option<Time>)
    requires Flags(w) && MayAdmit(w, worker, i, epoch)
    ensures Flags(Admit(w, worker, i, leaseMs, epoch))
  {
    var w' := Admit(w, worker, i, leaseMs, epoch);
    var c := ClaimRecord(w, worker, i, epoch);
    assert w'.claims[|w.claims|] == c;
    forall g | 0 <= g < |w.grants| ensures Claimed(w', g) <==> Claimed(w, g) || g == c.grant {
      if Claimed(w, g) {
        var k :| 0 <= k < |w.claims| && w.claims[k].grant == g;
        assert w'.claims[k].grant == g;
      }
    }
  }

  lemma AdmitKeepsLeases(w: World, worker: WorkerId, i: Id, leaseMs: Time, epoch: Option<Time>)
    requires AllLeased(w) && MayAdmit(w, worker, i, epoch)
    ensures AllLeased(Admit(w, worker, i, leaseMs, epoch))
  {
    var w' := Admit(w, worker, i, leaseMs, epoch);
    assert w'.claims[|w.claims|] == ClaimRecord(w, worker, i, epoch);
    forall j | 0 <= j < |w'.runs| && w'.runs[j].state == Running ensures Leased(w', j) {
      if j == i {
        assert LeasedUnder(w', j, w'.claims[|w.claims|]);
      } else {
        LeaseCarries(w, w', j);
      }
    }
  }

  lemma AdmitKeepsActive(w: World, worker: WorkerId, i: Id, leaseMs: Time, epoch: Option<Time>)
    requires ActiveBound(w) && MayAdmit(w, worker, i, epoch)
    ensures ActiveBound(Admit(w, worker, i, leaseMs, epoch))
  {
    assert Admit(w, worker, i, leaseMs, epoch).claims[|w.claims|] == ClaimRecord(w, worker, i, epoch);
  }

  lemma AdmitKeepsBindings(w: World, worker: WorkerId, i: Id, leaseMs: Time, epoch: Option<Time>)
    requires Bindings(w) && MayAdmit(w, worker, i, epoch)
    ensures Bindings(Admit(w, worker, i, leaseMs, epoch))
  {
    AdmitKeepsLeases(w, worker, i, leaseMs, epoch);
    AdmitKeepsActive(w, worker, i, leaseMs, epoch);
  }

  lemma AdmitKeepsOutcomes(w: World, worker: WorkerId, i: Id, leaseMs: Time, epoch: Option<Time>)
    requires Outcomes(w) && MayAdmit(w, worker, i, epoch)
    ensures Outcomes(Admit(w, worker, i, leaseMs, epoch))
  {
    var w' := Admit(w, worker, i, leaseMs, epoch);
    OutcomesCarry(w, w');
  }

  lemma AdmitKeepsShape(w: World, worker: WorkerId, i: Id, leaseMs: Time, epoch: Option<Time>)
    requires Shape(w) && MayAdmit(w, worker, i, epoch)
    ensures Shape(Admit(w, worker, i, leaseMs, epoch))
  {
  }

  /** Claiming keeps the whole invariant. */
  lemma AdmitKeeps(w: World, worker: WorkerId, i: Id, leaseMs: Time, epoch: Option<Time>)
    requires Inv(w) && MayAdmit(w, worker, i, epoch)
    ensures Inv(Admit(w, worker, i, leaseMs, epoch))
  {
    AdmitKeepsShape(w, worker, i, leaseMs, epoch);
    AdmitKeepsBooks(w, worker, i, leaseMs, epoch);
    AdmitKeepsBudgets(w, worker, i, leaseMs, epoch);
    AdmitKeepsCounts(w, worker, i, leaseMs, epoch);
    AdmitKeepsNumbered(w, worker, i, leaseMs, epoch);
    AdmitKeepsFlags(w, worker, i, leaseMs, epoch);
    AdmitKeepsBindings(w, worker, i, leaseMs, epoch);
    AdmitKeepsOutcomes(w, worker, i, leaseMs, epoch);
  }

  // ---------------------------------------------------------------------------
  // Leaving `running` keeps the invariant, whichever way the run leaves
  // ---------------------------------------------------------------------------

  lemma LeaveKeepsShape(w: World, i: Id, to: RunState, cost: Option<Settlement>)
    requires Shape(w) && MayLeave(w, i, to) && (to == Succeeded ==> !w.runs[i].cancelRequested)
    ensures Shape(Leave(w, i, to, cost))
  {
  }

  lemma LeaveKeepsReservations(w: World, i: Id, to: RunState, cost: Option<Settlement>)
    requires Reservations(w) && MayLeave(w, i, to)
    ensures Reservations(Leave(w, i, to, cost))
  {
    var w' := Leave(w, i, to, cost);
    forall g | 0 <= g < |w.grants| ensures w'.grants[g].reserved == Sum(w'.runs, HeldOn(g)) {
      SumUpdate(w.runs, i, w'.runs[i], HeldOn(g));
    }
  }

  lemma LeaveKeepsCharges(w: World, i: Id, to: RunState, cost: Option<Settlement>)
    requires Costs(w) && MayLeave(w, i, to)
    ensures var w' := Leave(w, i, to, cost);
            && (forall g :: 0 <= g < |w'.grants| ==> w'.grants[g].spent == Sum(w'.charges, ChargedTo(g)))
            && (forall j :: 0 <= j < |w'.runs| ==> CostSoFar(w'.runs[j]) == Sum(w'.charges, ChargedFor(j)))
  {
    var w' := Leave(w, i, to, cost);
    var charge := Charge(i, w.runs[i].grant.value, CostOf(cost), w.runs[i].spec.estimate);
    forall g | 0 <= g < |w.grants| ensures w'.grants[g].spent == Sum(w'.charges, ChargedTo(g)) {
      SumAppend(w.charges, charge, ChargedTo(g));
    }
    forall j | 0 <= j < |w.runs| ensures CostSoFar(w'.runs[j]) == Sum(w'.charges, ChargedFor(j)) {
      SumAppend(w.charges, charge, ChargedFor(j));
    }
  }

  /** The samples of one settlement add up to its cost, split into model and plug-in parts or not. */
  lemma CostRowsAddUp(metrics: seq<Metric>, i: Id, cost: Option<Settlement>, j: Id)
    ensures Sum(metrics + CostRows(i, cost), MeteredFor(j))
         == Sum(metrics, MeteredFor(j)) + (if i == j then CostOf(cost) else 0)
  {
    if cost.None? {
      assert metrics + CostRows(i, cost) == metrics;
    } else {
      var model := Metric(i, ModelCost, cost.value.actual - cost.value.plugin);
      SumAppend(metrics, model, MeteredFor(j));
      if cost.value.plugin > 0 {
        var plugin := Metric(i, PluginCost, cost.value.plugin);
        SumAppend(metrics + [model], plugin, MeteredFor(j));
        assert metrics + CostRows(i, cost) == metrics + [model] + [plugin];
      } else {
        assert metrics + CostRows(i, cost) == metrics + [model];
      }
    }
  }

  lemma LeaveKeepsCosts(w: World, i: Id, to: RunState, cost: Option<Settlement>)
    requires Costs(w) && MayLeave(w, i, to)
    ensures Costs(Leave(w, i, to, cost))
  {
    LeaveKeepsCharges(w, i, to, cost);
    var w' := Leave(w, i, to, cost);
    forall j | 0 <= j < |w.runs| ensures CostSoFar(w'.runs[j]) == Sum(w'.metrics, MeteredFor(j)) {
      CostRowsAddUp(w.metrics, i, cost, j);
    }
  }

  lemma LeaveKeepsBudgets(w: World, i: Id, to: RunState, cost: Option<Settlement>)
    requires Budgets(w) && MayLeave(w, i, to)
    ensures Budgets(Leave(w, i, to, cost))
  {
    var w' := Leave(w, i, to, cost);
    forall g | 0 <= g < |w.grants|
      ensures w'.grants[g].spent + w'.grants[g].reserved
           <= w'.grants[g].terms.budget + Sum(w'.charges, OverrunOn(g))
    {
      SumAppend(w.charges, w'.charges[|w.charges|], OverrunOn(g));
    }
  }

  lemma LeaveKeepsCounts(w: World, i: Id, to: RunState, cost: Option<Settlement>)
    requires Counts(w) && Numbered(w) && MayLeave(w, i, to)
    ensures Counts(Leave(w, i, to, cost)) && Numbered(Leave(w, i, to, cost))
  {
  }

  lemma LeaveKeepsFlags(w: World, i: Id, to: RunState, cost: Option<Settlement>)
    requires Bindings(w) && Flags(w) && MayLeave(w, i, to)
    ensures Flags(Leave(w, i, to, cost))
  {
    var w' := Leave(w, i, to, cost);
    assert Leased(w, i);
    assert Claimed(w, w.runs[i].grant.value);
    SameClaimsSameUse(w, w');
  }

  lemma LeaveKeepsBindings(w: World, i: Id, to: RunState, cost: Option<Settlement>)
    requires Bindings(w) && MayLeave(w, i, to)
    ensures Bindings(Leave(w, i, to, cost))
  {
    var w' := Leave(w, i, to, cost);
    forall j | 0 <= j < |w'.runs| && w'.runs[j].state == Running ensures Leased(w', j) {
      LeaseCarries(w, w', j);
    }
  }

  lemma LeaveKeepsOutcomes(w: World, i: Id, to: RunState, cost: Option<Settlement>)
    requires Outcomes(w) && MayLeave(w, i, to) && to != Succeeded
    ensures Outcomes(Leave(w, i, to, cost))
  {
    var w' := Leave(w, i, to, cost);
    OutcomesCarry(w, w');
  }

  /** Everything but the outcome count, for all six ways out at once. */
  lemma LeaveKeepsLedgers(w: World, i: Id, to: RunState, cost: Option<Settlement>)
    requires Inv(w) && MayLeave(w, i, to) && (to == Succeeded ==> !w.runs[i].cancelRequested)
    ensures var w' := Leave(w, i, to, cost);
            && Shape(w') && Reservations(w') && Costs(w') && Budgets(w')
            && Counts(w') && Numbered(w') && Flags(w') && Bindings(w')
  {
    LeaveKeepsShape(w, i, to, cost);
    LeaveKeepsReservations(w, i, to, cost);
    LeaveKeepsCosts(w, i, to, cost);
    LeaveKeepsBudgets(w, i, to, cost);
    LeaveKeepsCounts(w, i, to, cost);
    LeaveKeepsFlags(w, i, to, cost);
    LeaveKeepsBindings(w, i, to, cost);
  }

  lemma LeaveKeeps(w: World, i: Id, to: RunState, cost: Option<Settlement>)
    requires Inv(w) && MayLeave(w, i, to) && to != Succeeded
    ensures Inv(Leave(w, i, to, cost))
  {
    LeaveKeepsLedgers(w, i, to, cost);
    LeaveKeepsOutcomes(w, i, to, cost);
  }

  lemma CommitKeepsOutcomeCounts(w: World, i: Id, worker: WorkerId, cost: Settlement)
    requires Outcomes(w) && MayCommit(w, i, worker, cost)
    ensures var w' := Commit(w, i, worker, cost);
            forall j :: 0 <= j < |w'.runs| ==>
              Sum(w'.outcomes, OutcomeOf(j)) == if w'.runs[j].state == Succeeded then 1 else 0
  {
    var w' := Commit(w, i, worker, cost);
    forall j | 0 <= j < |w.runs|
      ensures Sum(w'.outcomes, OutcomeOf(j)) == if w'.runs[j].state == Succeeded then 1 else 0
    {
      SumAppend(w.outcomes, w'.outcomes[|w.outcomes|], OutcomeOf(j));
    }
  }

  lemma CommitKeepsOutcomes(w: World, i: Id, worker: WorkerId, cost: Settlement)
    requires Shape(w) && Bindings(w) && Outcomes(w) && MayCommit(w, i, worker, cost)
    ensures Outcomes(Commit(w, i, worker, cost))
  {
    var w' := Commit(w, i, worker, cost);
    var o := w'.outcomes[|w.outcomes|];
    CommitKeepsOutcomeCounts(w, i, worker, cost);
    OutcomesCarry(w, w');
    var j :| 0 <= j < |w.claims| && w.claims[j] == w.active[worker];
    assert PublishedUnder(w', o, w'.claims[j]);
  }

  /** The outcome row touches nothing but the outcome count. */
  lemma OutcomeRowKeeps(w: World, o: Outcome)
    requires Shape(w) && Reservations(w) && Costs(w) && Budgets(w)
    requires Counts(w) && Numbered(w) && Flags(w) && Bindings(w)
    requires o.run < |w.runs|
    ensures var w' := w.(outcomes := w.outcomes + [o]);
            && Shape(w') && Reservations(w') && Costs(w') && Budgets(w')
            && Counts(w') && Numbered(w') && Flags(w') && Bindings(w')
  {
    OutcomeRowKeepsBooks(w, o);
    OutcomeRowKeepsBindings(w, o);
  }

  lemma OutcomeRowKeepsBooks(w: World, o: Outcome)
    requires Shape(w) && Reservations(w) && Costs(w) && Budgets(w) && Counts(w) && Numbered(w) && Flags(w)
    requires o.run < |w.runs|
    ensures var w' := w.(outcomes := w.outcomes + [o]);
            Shape(w') && Reservations(w') && Costs(w') && Budgets(w') && Counts(w') && Numbered(w') && Flags(w')
  {
    SameClaimsSameUse(w, w.(outcomes := w.outcomes + [o]));
  }

  lemma OutcomeRowKeepsBindings(w: World, o: Outcome)
    requires Bindings(w)
    ensures Bindings(w.(outcomes := w.outcomes + [o]))
  {
    var w' := w.(outcomes := w.outcomes + [o]);
    forall j | 0 <= j < |w'.runs| && w'.runs[j].state == Running ensures Leased(w', j) {
      LeaseCarries(w, w', j);
    }
  }

  lemma CommitKeeps(w: World, i: Id, worker: WorkerId, cost: Settlement)
    requires Inv(w) && MayCommit(w, i, worker, cost)
    ensures Inv(Commit(w, i, worker, cost))
  {
    var v, w' := Leave(w, i, Succeeded, Some(cost)), Commit(w, i, worker, cost);
    LeaveKeepsLedgers(w, i, Succeeded, Some(cost));
    CommitKeepsOutcomes(w, i, worker, cost);
    OutcomeRowKeeps(v, w'.outcomes[|w.outcomes|]);
  }

  // ---------------------------------------------------------------------------
  // Edits that move no money and no lease: heartbeats, refusals, requests, revocations
  // ---------------------------------------------------------------------------

  /** `r'` is `r` with bookkeeping changed: same money, same attempts, same lease owner. */
  predicate Edit(w: World, r: Run, r': Run) {
    && RunOk(w, r')
    && r'.spec == r.spec && r'.attempts == r.attempts && r'.actual == r.actual
    && (r'.state == Running <==> r.state == Running)
    && (r'.state == Succeeded <==> r.state == Succeeded)
    && (r.state == Running ==>
          r'.grant == r.grant && r.lease.Some? && r'.lease.value.owner == r.lease.value.owner)
  }

  predicate Edits(w: World, runs: seq<Run>) {
    && |runs| == |w.runs|
    && forall i :: 0 <= i < |runs| ==> RunOk(w, w.runs[i]) && Edit(w, w.runs[i], runs[i])
  }

  lemma EditsKeepBooks(w: World, runs: seq<Run>)
    requires Edits(w, runs) && Reservations(w) && Costs(w)
    ensures Reservations(w.(runs := runs))
    ensures Costs(w.(runs := runs))
  {
    forall g | 0 <= g < |w.grants| ensures w.grants[g].reserved == Sum(runs, HeldOn(g)) {
      SumPointwise(w.runs, runs, HeldOn(g));
    }
  }

  lemma EditsKeepBindings(w: World, runs: seq<Run>)
    requires Edits(w, runs) && Bindings(w)
    ensures Bindings(w.(runs := runs))
  {
    var w' := w.(runs := runs);
    forall j | 0 <= j < |w'.runs| && w'.runs[j].state == Running ensures Leased(w', j) {
      LeaseCarries(w, w', j);
    }
  }

  lemma EditsKeepOutcomes(w: World, runs: seq<Run>)
    requires Edits(w, runs) && Outcomes(w)
    ensures Outcomes(w.(runs := runs))
  {
    var w' := w.(runs := runs);
    OutcomesCarry(w, w');
  }

  lemma EditsKeepTheRest(w: World, runs: seq<Run>)
    requires Edits(w, runs) && Shape(w) && Budgets(w) && Counts(w) && Numbered(w) && Flags(w)
    ensures var w' := w.(runs := runs); Shape(w') && Budgets(w') && Counts(w') && Numbered(w') && Flags(w')
  {
    var w' := w.(runs := runs);
    forall i | 0 <= i < |w'.runs| ensures RunOk(w', w'.runs[i]) {
      assert Edit(w, w.runs[i], runs[i]);
    }
    assert forall g :: Claimed(w', g) <==> Claimed(w, g);
  }

  /** Any number of such edits in one transaction keep the invariant. */
  lemma EditsKeep(w: World, runs: seq<Run>)
    requires Inv(w) && Edits(w, runs)
    ensures Inv(w.(runs := runs))
  {
    EditsKeepBooks(w, runs);
    EditsKeepBindings(w, runs);
    EditsKeepOutcomes(w, runs);
    EditsKeepTheRest(w, runs);
  }

  lemma EditKeeps(w: World, i: Id, r: Run)
    requires Inv(w) && i < |w.runs| && Edit(w, w.runs[i], r)
    ensures Inv(w.(runs := w.runs[i := r]))
  {
    EditsKeep(w, w.runs[i := r]);
  }

  // ---------------------------------------------------------------------------
  // Grants withdrawn, rows added, and steps outside the run and grant tables
  // ---------------------------------------------------------------------------

  /** Leases and outcomes depend on the run, claim and outcome tables only. */
  lemma RecordsKeep(w: World, w': World)
    requires Bindings(w) && Outcomes(w)
    requires w'.claims == w.claims && w'.outcomes == w.outcomes && w'.runs == w.runs
    requires SameTerms(w, w')
    requires forall worker :: worker in w'.active ==> worker in w.active && w'.active[worker] == w.active[worker]
    ensures Bindings(w') && Outcomes(w')
  {
    OutcomesCarry(w, w');
    forall j | 0 <= j < |w'.runs| && w'.runs[j].state == Running ensures Leased(w', j) {
      LeaseCarries(w, w', j);
    }
  }

  lemma WithdrawKeeps(w: World, g: Id, state: GrantState)
    requires Inv(w) && g < |w.grants| && state in {Revoked, Expired}
    ensures Inv(w.(grants := w.grants[g := w.grants[g].(state := state)]))
  {
    var w' := w.(grants := w.grants[g := w.grants[g].(state := state)]);
    RecordsKeep(w, w');
    SameClaimsSameUse(w, w');
    WithdrawKeepsBooks(w, g, state);
  }

  lemma WithdrawKeepsBooks(w: World, g: Id, state: GrantState)
    requires Shape(w) && Reservations(w) && Costs(w) && Budgets(w) && Counts(w) && Numbered(w)
    requires g < |w.grants| && state in {Revoked, Expired}
    ensures var w' := w.(grants := w.grants[g := w.grants[g].(state := state)]);
            Shape(w') && Reservations(w') && Costs(w') && Budgets(w') && Counts(w') && Numbered(w')
  {
  }

  /** Channels, the clock, plug-in rows and finished workers touch no invariant. */
  lemma SurroundingsKeep(w: World, w': World)
    requires Inv(w)
    requires w' == w.(channels := w'.channels, now := w'.now, invoked := w'.invoked, active := w'.active)
    requires forall i :: i in w'.invoked ==> i < |w.runs|
    requires forall worker :: worker in w'.active ==> worker in w.active && w'.active[worker] == w.active[worker]
    ensures Inv(w')
  {
    RecordsKeep(w, w');
    SameClaimsSameUse(w, w');
  }

  lemma RequestKeepsCounts(w: World, r: Run)
    requires Shape(w) && Counts(w) && Numbered(w) && RunOk(w, r) && r.attempts == 0
    ensures var w' := w.(runs := w.runs + [r]); Shape(w') && Counts(w') && Numbered(w')
  {
    SumZero(w.claims, ClaimOf(|w.runs|));
  }

  lemma RequestKeepsBooks(w: World, r: Run)
    requires Shape(w) && Reservations(w) && Costs(w) && Budgets(w)
    requires r.state in {Queued, AwaitingApproval} && r.actual == None
    ensures var w' := w.(runs := w.runs + [r]); Reservations(w') && Costs(w') && Budgets(w')
  {
    forall g | 0 <= g < |w.grants| ensures Sum(w.runs + [r], HeldOn(g)) == Sum(w.runs, HeldOn(g)) {
      SumAppend(w.runs, r, HeldOn(g));
    }
    SumZero(w.charges, ChargedFor(|w.runs|));
    SumZero(w.metrics, MeteredFor(|w.runs|));
  }

  lemma RequestKeepsRecords(w: World, r: Run)
    requires Shape(w) && Bindings(w) && Outcomes(w) && r.state in {Queued, AwaitingApproval}
    ensures var w' := w.(runs := w.runs + [r]); Bindings(w') && Outcomes(w')
  {
    var w' := w.(runs := w.runs + [r]);
    OutcomesCarry(w, w');
    SumZero(w.outcomes, OutcomeOf(|w.runs|));
    forall j | 0 <= j < |w'.runs| && w'.runs[j].state == Running ensures Leased(w', j) {
      LeaseCarries(w, w', j);
    }
  }

  lemma RequestKeeps(w: World, spec: RunSpec, grant: Option<Id>)
    requires Inv(w) && spec.maxAttempts > 0 && (grant.Some? ==> grant.value < |w.grants|)
    ensures Inv(RequestRun(w, spec, grant))
  {
    var w' := RequestRun(w, spec, grant);
    RequestKeepsCounts(w, w'.runs[|w.runs|]);
    RequestKeepsBooks(w, w'.runs[|w.runs|]);
    RequestKeepsRecords(w, w'.runs[|w.runs|]);
    SameClaimsSameUse(w, w');
  }

  lemma IssueKeepsCounts(w: World, terms: Terms)
    requires Shape(w) && Counts(w) && Numbered(w) && terms.maxRuns > 0
    ensures var w' := IssueGrant(w, terms); Shape(w') && Counts(w') && Numbered(w')
  {
    SumZero(w.claims, FirstClaimUnder(|w.grants|));
  }

  lemma IssueKeepsBooks(w: World, terms: Terms)
    requires Shape(w) && Reservations(w) && Costs(w) && Budgets(w)
    ensures var w' := IssueGrant(w, terms); Reservations(w') && Costs(w') && Budgets(w')
  {
    var g := |w.grants|;
    SumZero(w.runs, HeldOn(g));
    SumZero(w.charges, ChargedTo(g));
    SumZero(w.charges, OverrunOn(g));
  }

  lemma IssueKeeps(w: World, terms: Terms)
    requires Inv(w) && terms.maxRuns > 0
    ensures Inv(IssueGrant(w, terms))
  {
    var w' := IssueGrant(w, terms);
    IssueKeepsCounts(w, terms);
    IssueKeepsBooks(w, terms);
    RecordsKeep(w, w');
    SameClaimsSameUse(w, w');
  }
}
