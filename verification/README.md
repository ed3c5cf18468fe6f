# Verified model of the agent platform

The platform runs agent workloads: a durable queue of execution runs that many workers share, plugin
calls with evidence of their effects, releases of resources that pin each other, schemas, context
envelopes and workstation hand-overs. This project models the parts in which the pieces depend on each
other most, and proves what they guarantee together.

**Worker protocol.** `WorkerProtocol` is an abstract machine over the tables of runs, grants, charges,
metrics, claims and outcomes. Its steps are the worker's transactions and the control plane's. `WorkerInvariants`
and `WorkerHistories` prove what every history of it keeps, for any number of workers and any interleaving of
claims, crashes, recoveries, approvals, revocations and promotions. `WorkerStore` writes the transactions out
as the store performs them, row by row and with clamped reservations, and proves each to be exactly the
machine's steps. `WorkerRecords` says column by column what they leave in the tables. `WorkerEngine` drives one claim
through them while other processes run in between.

**Plugin calls.** `PluginLedger` is the append-only evidence transaction. `PluginExecution` is the interleaving of
any number of executions over that ledger, with appends in flight, lost acknowledgements, late processing,
crashes and restarts. `PluginEvidence` says what the records hold and what an execution can always achieve.
`PluginLimits` is the narrowing of limits from tool to requirement to grant. `PluginPlan` is
the plan that calls plugins before the model.

**Catalog and releases.** `SkillComposition` is the greedy composer of skills. `Graphs` holds a depth-first search
used by `DependencyCycles` (the compiler's check) and `ResourceLineage` (the ancestry check). `EntryClosure` is the
recursive query that finds what a release's entry reaches.

**Values.** `Json` holds JSON values, a writer, and a reader for the grammar of RFC 8259 (sections 2 to 7).
`CanonicalJson` is the canonical text behind digests. `SchemaValidator` is the bounded interpreter of payload
schemas, and `SchemaMeaning` says what their keywords mean apart from the interpreter. `ContextMerge` and `ContextAssembly` are the assembly of context layers.

**Delivery and workstations.** `DigestDelivery` is the cursor of delivered digests. `WorkstationBroker` is the
waiting, leasing and expiring of runs that need a workstation.

`Prelude` and `Sorting` are shared: optional values, sums, stable sorting.

## Findings

- A grant without any cost budget stays `active` until the first claim under it, although its budget is used up
  from the start; apart from that the exhaustion flag is exact (`WorkerHistories.FlagIsExact`,
  `WorkerHistories.BudgetlessGrantStaysActive`).
- Completion settles on the grant named by the worker's claim, every other disposition on the grant named by the
  row. The two agree as long as a slot name belongs to one slot, which works on one claim at a time. That names are
  unique is an assumption on the configuration: the daemon takes a configured worker name
  (`apps/worker/src/daemon.ts:30`), so two processes can share slot names. A stale claim on record under the
  lease's own slot name, on another usable grant, is reachable (`WorkerStore.StaleClaimIsOnRecord`); completing
  with such a claim keeps the reservation law exactly when it names the row's grant or there is nothing to release
  (`WorkerStore.StaleClaimBreaksReservations`). In the model a queued run may be refused for any reason that lies in
  other tables; whether those tables allow it while its old grant stays usable is not settled here.
- A result whose cost exceeds its reservation is refused by the store, and the engine then treats the refusal as
  an error that may be retried: the excess is settled, and the run is requeued exactly when it is not cancelled, has
  attempts left and called no plugin (`WorkerEngine.Execute`, `WorkerEngine.RefusedCostIsRetried`).
- A budget check that fails at completion is always the trace of an earlier overrun on the same grant
  (`WorkerStore.MisfitMeansOverrun`).
- The limits in force can exceed a requirement: exactly when the requirement tightens a limit that the grant does
  not declare (`PluginLimits.WithinRequirementWhenDeclared`, `PluginLimits.OmittedLimitBroadens`).
- A plan of plugin calls leaves what it paid out of the run's settlement exactly when it does not run to its end and
  one of the calls made up to the first failure, the failing one included, was paid for. A call can be paid for and
  then throw, because its authority is read again after the effect (`PluginPlan.SettledIsIncurred`,
  `PluginPlan.FailedPlanDropsCost`).
- A canonical text depends on member order exactly when two different keys of one object tie in the host's string
  comparison (`CanonicalJson.OrderIndependentWithoutTies`).
- The schema interpreter looks names up in host objects: a required key counts as present when it is the name of
  an inherited property, and an object with a member of such a name is rejected unless the schema declares the
  property, whatever it says of additional properties (`SchemaValidator.RequiredMeansHeld`,
  `SchemaValidator.InheritedNameIsRejected`).
- Merging context layers is associative except where a leaf of the middle value hides an object that the highest
  value brings back (`ContextMerge.AssociativeUnlessHidden`).
- The depth cut of the entry closure loses nothing up to 101 resources and can lose one from 102 on
  (`EntryClosure.SmallReleaseLosesNothing`, `EntryClosure.DepthCutLosesLonger`).

## Model

| member | source | states |
|---|---|---|
| WorkerHistories.StepKeeps | apps/worker/src/store.ts:350-1437 | every worker transaction and every control-plane or environment step keeps the whole invariant: reservations, costs, budgets, claim counts, flags, lease bindings and outcomes |
| WorkerHistories.HistoryKeeps | apps/worker/src/store.ts:350-1437 | the invariant holds after every history from an empty database |
| WorkerHistories.BooksBalance | apps/worker/src/store.ts:1296-1437 | in every reachable world a grant's reserved amount is the sum of the estimates running under it, its spent amount is the sum of its charges, spent plus reserved exceeds the budget at most by recorded overruns, and a run's cost is the same in its row, its metric samples and its charges |
| WorkerHistories.FlagIsExact | apps/worker/src/store.ts:699-710 | for a grant that is active or exhausted, exhausted means that its used runs reach the maximum or spent plus reserved reaches the budget, if and only if it has a cost budget or was claimed under |
| WorkerHistories.BudgetlessGrantStaysActive | apps/worker/src/store.ts:699-710 | one issued grant with a budget of zero, which is thereby reached, is active: the exception is reachable in one step |
| WorkerHistories.LimitsHold | apps/worker/src/store.ts:681-734 | a grant's used runs are the runs first claimed under it and stay within its limit; a run is claimed exactly as often as it has attempts, at most its maximum |
| WorkerHistories.CompletionFitsBudget | apps/worker/src/store.ts:848-855 | without an overrun on the grant the budget check at completion cannot fail |
| WorkerHistories.EvolvesBetween | apps/worker/src/store.ts:350-1437 | between any two points of a history logs only grow, final states stay final, attempts, costs and spending never fall, a withdrawn grant stays withdrawn |
| WorkerHistories.CancelledNeverSucceeds | apps/worker/src/store.ts:803-809 | a run once asked to stop never succeeds and never gets an outcome |
| WorkerHistories.InvokedNeverRequeued | apps/worker/src/store.ts:371-398 | after a plugin row exists no retry and no recovery requeues the run |
| WorkerHistories.ClaimHasOrigin | apps/worker/src/store.ts:681-734 | every recorded claim was made by a claiming step from the queue, when the grant it names was not withdrawn, in its window, bound to the run's context and able to pay, and the slot had no other claim |
| WorkerHistories.SuccessProvenance | apps/worker/src/store.ts:793-866 | a succeeded run was claimed and later committed by the same worker under the lease of that attempt, not asked to stop, with a grant that is not withdrawn, in its window, bound to the same context and able to pay; where production is required, the channel of the project names the run's own release at both steps, promoted once |
| WorkerHistories.OneOutcomePerSuccess | apps/worker/src/store.ts:857-866 | a run has exactly one outcome if and only if it succeeded, published under its own claim |
| WorkerHistories.WorkersComeToRest | apps/worker/src/store.ts:350-736 | a history of worker steps alone has at most as many claims and dispositions as there is work left, measured by attempts left and state rank |
| WorkerHistories.DelaysAgree | apps/worker/src/store.ts:168-171 | the delay a failure reports equals the delay the claim query enforces, for every attempt count: one second when fixed, otherwise doubling from one second to 256 at the eighth attempt |
| WorkerInvariants.AdmitKeeps | apps/worker/src/store.ts:681-734 | claiming keeps the invariant |
| WorkerInvariants.LeaveKeeps | apps/worker/src/store.ts:1328-1401 | leaving `running` keeps the invariant whichever way the run leaves |
| WorkerInvariants.CommitKeeps | apps/worker/src/store.ts:857-995 | publishing an outcome keeps the invariant |
| WorkerInvariants.ReservationCovers | apps/worker/src/store.ts:1311-1326 | the reservation of a running run is still on its grant, so releasing it never goes below zero |
| WorkerInvariants.OverrunMeansExcess | apps/worker/src/store.ts:1403-1437 | an overrun is on record exactly when some charge to the grant exceeds its estimate |
| WorkerStore.ClampNeverBites | apps/worker/src/store.ts:1311-1326 | in a reachable world the clamped settlement is the exact one |
| WorkerStore.LeaveReaches | apps/worker/src/store.ts:1328-1401 | a disposition written with the clamp is the machine's step and leads to a reachable world |
| WorkerStore.CarriedClaim | apps/worker/src/store.ts:790-815 | the claim a worker carries is recorded and, while it owns the row, names the row's grant and attempt |
| WorkerStore.StaleClaimBreaksReservations | apps/worker/src/store.ts:812-855 | settling a completion on another grant keeps the reservation law exactly when it is the row's own grant or the estimate is zero |
| WorkerStore.StaleClaimIsOnRecord | apps/worker/src/store.ts:790-855 | a reachable world with a recorded claim of the lease's own slot name on another live grant of the same context; completing with it breaks the reservation law |
| WorkerStore.MisfitMeansOverrun | apps/worker/src/store.ts:848-855 | a completion that does not fit the budget implies an earlier overrun on the grant |
| WorkerStore.CoveredMayAdmit | apps/worker/src/store.ts:505-600 | a claimable, covered and affordable run may be admitted |
| WorkerStore.Store.constructor | apps/worker/src/store.ts:347-349 | the empty database is the start of every history |
| WorkerStore.Store.ReleaseGrantReservation | apps/worker/src/store.ts:1296-1326 | the grant's row after a release: reservation lowered and clamped; unless withdrawn it is exhausted exactly when its used runs reach the maximum or spent plus reserved reaches the budget |
| WorkerStore.Store.ReconcileIncurredCost | apps/worker/src/store.ts:1403-1437 | the grant's row after a reconciliation, with the incurred cost added even above the estimate and the flag recomputed from the columns |
| WorkerStore.Store.SettleAttempt | apps/worker/src/store.ts:1328-1401 | the grant and the model and plugin cost samples after one attempt |
| WorkerStore.Store.CancelWithinTransaction | apps/worker/src/store.ts:1227-1294 | cancels exactly when the worker owns the running row, as the machine's leave step |
| WorkerStore.Store.CancelClaimed | apps/worker/src/store.ts:998-1006 | the same, for a claim the engine gives up |
| WorkerStore.Store.PauseForPlugin | apps/worker/src/store.ts:1008-1068 | holds an owned run, or cancels it if that was requested |
| WorkerStore.Store.FailOrRetry | apps/worker/src/store.ts:1070-1225 | requeues exactly when retryable, not cancelled, not suppressed, without a plugin row and with attempts left; a requeued run becomes claimable exactly when the reported delay has passed |
| WorkerStore.Store.FindCandidate | apps/worker/src/store.ts:456-503 | the oldest claimable run that no other transaction holds, or none if there is none |
| WorkerStore.Store.AuthorityRefused | apps/worker/src/store.ts:505-600 | refuses exactly when the grant and the current release do not cover the run as it was requested |
| WorkerStore.Store.ClaimNext | apps/worker/src/store.ts:456-736 | admits, refuses or defers the candidate exactly as the machine does |
| WorkerStore.Store.WriteClaim | apps/worker/src/store.ts:681-734 | lease, attempt, reservation and claim record as in the machine's admit step; the grant is exhausted when its used runs reach the maximum or spent plus reserved reaches the budget |
| WorkerStore.Store.Heartbeat | apps/worker/src/store.ts:738-788 | extends the lease of an owned run; tells the worker to stop exactly when it lost the run, was asked to stop, or lost authority |
| WorkerStore.Store.AuthorityInvalid | apps/worker/src/store.ts:816-847 | the authority check shared by heartbeat and completion, both directions |
| WorkerStore.Store.Complete | apps/worker/src/store.ts:790-996 | publishes exactly when the machine may commit; otherwise cancels, rolls back on a cost beyond the reservation or the budget, or finds the lease gone |
| WorkerStore.Store.WriteCommit | apps/worker/src/store.ts:857-995 | the rows written by a completion are the machine's commit |
| WorkerStore.Store.RecoverRow | apps/worker/src/store.ts:371-425 | one expired lease is taken back: requeued or failed by attempts and plugin rows |
| WorkerStore.Store.RecoverExpiredLeases | apps/worker/src/store.ts:350-454 | every expired lease not held elsewhere is taken back, nothing else in the run table changes, and the sweep is a history of the machine |
| WorkerRecords.ClaimLeads | apps/worker/src/store.ts:456-736 | what a claim leaves in every column, by its four outcomes: nothing, back for approval without grant, paused for budget, or leased with one more attempt, the estimate reserved and the claim on record |
| WorkerRecords.DispositionLeads | apps/worker/src/store.ts:1227-1437 | after any disposition the lease is gone, the estimate is released, and the cost is on the run, its grant and its samples |
| WorkerRecords.CompletionLeads | apps/worker/src/store.ts:857-995 | a completion settles like a disposition and adds one outcome that names the worker, the grant and the release |
| WorkerRecords.LeaseLasts | apps/worker/src/store.ts:371-398 | a lease that is not renewed can be taken back exactly when more than its time has passed since the claim or the last renewal |
| WorkerRecords.TakenBackRipens | apps/worker/src/store.ts:456-503 | a run taken back is claimable again exactly when its delay has passed |
| WorkerRecords.RecoveryLeads | apps/worker/src/store.ts:371-425 | a recovery fails a run for good exactly after its last attempt or a plugin row, and otherwise queues it; all else in the row stays |
| WorkerRecords.StopsLead | apps/backend/src/services/execution-service.ts:1279-1360 | a revocation withdraws the grant, sends its queued runs back for approval and asks its running ones to stop; a request to cancel ends a run unless it is running |
| WorkerRecords.SurroundingsAct | apps/backend/src/services/execution-service.ts:2535-2565 | which steps of the control plane and the clock are possible, by the state of the row they touch |
| WorkerRecords.SurroundingsLead | apps/backend/src/services/execution-service.ts:1439-1925 | what requests, grants, approvals, holds, resumptions and promotions leave in the columns |
| WorkerEngine.Execute | apps/worker/src/engine.ts:148-328 | with other processes running after every transaction, the ending and the settled cost are fixed by the first heartbeat, the work and the worlds found: a lost lease is abandoned, a stop cancels without cost, an error is disposed of with the cost observed, a result is completed or, its cost refused, disposed of with that cost; the execution is at most one step on its run |
| WorkerEngine.Dispose | apps/worker/src/engine.ts:262-320 | exactly one disposition per error and row, and nothing changes when the worker does not hold the row |
| WorkerEngine.ErrorsLead | apps/worker/src/engine.ts:101-320 | the state of the row after each error, by the error's own code: plugin outages hold the run, other plugin errors and faults that are not retryable fail it for good, a cancellation cancels it, stopping and a lost lease leave it alone, and the rest requeues it while attempts are left and no plugin was called |
| WorkerEngine.Publish | apps/worker/src/engine.ts:248-261 | a result is refused exactly when its cost does not fit the claim or the budget, and then nothing has changed; otherwise it is published exactly when the machine may commit, or the run is cancelled, or the lease is gone |
| WorkerEngine.RunNext | apps/worker/src/engine.ts:127-138 | the slot works exactly when the claim admitted the oldest claimable run; it then executes that claim to its end and is idle again, and otherwise the claim's refusal or deferral is all that happened |
| WorkerEngine.RefusedCostIsRetried | apps/worker/src/engine.ts:262-320 | after a refused cost the whole cost is charged to the run and its grant, and the run is queued exactly when it is not cancelled, no plugin was called and attempts are left |
| WorkerEngine.EndsOwnership | apps/worker/src/engine.ts:248-320 | after any disposition the worker does not own the run and the run was settled exactly once |
| PluginLedger.Ledger.AppendInvocation | apps/worker/src/plugin-store.ts:549-725 | an inserted record holds every column of its event, the latency cut at 31 bits; a repetition is recognised exactly when all columns agree, and an event that differs from the record under its key and sequence is refused as diverged; the ledger law is kept |
| PluginLedger.Ledger.CompareRecord | apps/worker/src/plugin-store.ts:560-580 | under a recorded key and sequence, existing means that every column agrees and diverged that one does not |
| PluginLedger.Ledger.InsertInvocation | apps/worker/src/plugin-store.ts:591-725 | a record under a new key and sequence is inserted exactly when it is admissible, within the limit of starts |
| PluginLedger.Ledger.RefuseBeginning | apps/worker/src/plugin-store.ts:619-677 | which code refuses a beginning: exactly the first that applies of disabled, requirement, authority, scope and limit |
| PluginLedger.Ledger.RefuseEnd | apps/worker/src/plugin-store.ts:678-696 | an end is invalid exactly without its own beginning on record, and a success is refused exactly when the run, its lease, the plugin or the grant does not stand any more |
| PluginLedger.AppendKeepsLedger | apps/worker/src/plugin-store.ts:549-580 | an admissible record keeps one record per key and sequence and every end after its beginning |
| PluginLedger.TerminalIsFinal | apps/worker/src/plugin-store.ts:556-580 | a recorded end is the only one for its key, now and in every later ledger |
| PluginExecution.ActionKeeps | apps/worker/src/plugin-execution.ts:326-450 | every action of every execution, and every late or unacknowledged append, keeps the invariant |
| PluginExecution.AtMostOnce | apps/worker/src/plugin-execution.ts:326-374 | over all executions, crashes and restarts the effect of a key is started at most once, and a started effect has its beginning on record |
| PluginExecution.RecordPrecedesEffect | apps/worker/src/plugin-execution.ts:326-374 | when the effect is started, the beginning is already recorded and nothing was started before |
| PluginExecution.ReturnIsRecordedForGood | apps/worker/src/plugin-execution.ts:375-450 | a normal return is backed by a recorded success for that output, and no later record contradicts it |
| PluginExecution.SuccessMeansStarted | apps/worker/src/plugin-execution.ts:375-431 | a recorded success means the effect was started exactly once |
| PluginExecution.LedgerStaysLawful | apps/worker/src/plugin-store.ts:549-580 | the ledger law holds in every state of every behaviour |
| PluginExecution.LedgerGrows | apps/worker/src/plugin-store.ts:698-723 | the ledger of any earlier state is a prefix of that of any later state |
| PluginExecution.StartsStayWithinLimit | apps/worker/src/plugin-store.ts:657-696 | in every reachable ledger the starts of a run, installation and tool are within the limit that the last insert of one was checked against, and there are none without such an insert |
| PluginEvidence.RecordsAreTheirCalls | apps/worker/src/plugin-execution.ts:326-418 | every record of every behaviour is, column by column, the beginning, the success or the failure of a call that was made; five codes count as cancelled |
| PluginEvidence.CallCanSucceed | apps/worker/src/plugin-execution.ts:326-398 | from any state a call under a new key can be carried through to one start, two full records and its output |
| PluginEvidence.SilenceExhaustsTries | apps/worker/src/plugin-execution.ts:433-452 | without acknowledgement the terminal record is sent exactly as often as there are tries left, and then the execution throws |
| PluginEvidence.TriesAreConfigured | apps/worker/src/plugin-execution.ts:433-452 | a terminal record starts with the configured number of tries |
| PluginEvidence.LostAnswerIsHarmless | apps/worker/src/plugin-execution.ts:433-452 | an inserted success whose acknowledgement is lost is recognised at the next try: one record, and the output is returned |
| PluginEvidence.AnswersDecide | apps/worker/src/plugin-execution.ts:345-418 | what each acknowledged verdict makes of the execution that waited for it |
| PluginEvidence.FailedNeverReturns | apps/worker/src/plugin-execution.ts:398-431 | an execution that failed once never returns an output, however the behaviour goes on |
| PluginLimits.AssertScopeNarrowsTool | packages/runtime/src/plugin-runtime.ts:243-266 | accepts exactly non-negative scopes within the tool's limits and returns the tool's limits overridden by the scope's |
| PluginLimits.AssertGrantNarrowsRequirement | apps/worker/src/plugin-execution.ts:134-165 | accepts exactly grants for the same plugin, tool and effect whose declared limits are within the requirement |
| PluginLimits.WithinRequirementWhenDeclared | apps/worker/src/plugin-execution.ts:155-164 | the limits in force stay within the requirement if and only if the grant declares every limit the requirement tightens |
| PluginLimits.DeclaredLimitsHold | apps/worker/src/plugin-execution.ts:155-164 | mandatory and declared limits never exceed the requirement, and the requirement never exceeds the tool |
| PluginLimits.OmittedLimitBroadens | packages/runtime/src/plugin-runtime.ts:253-264 | an authorized call whose limits in force exceed the requirement |
| PluginPlan.Execute | apps/worker/src/plugin-plan.ts:32-61 | all outputs under their keys and the sum of the costs, or the first failure with exactly the calls before it made |
| PluginPlan.SucceedsWhenAllDeliver | apps/worker/src/plugin-plan.ts:41-59 | the plan succeeds if and only if ordinals rise, keys differ, nothing aborts it and every call delivers |
| PluginPlan.StartedAreMade | apps/worker/src/plugin-plan.ts:41-59 | the calls a run of the plan makes are those up to the first failure, as plan, calls and aborts determine it |
| PluginPlan.SettledIsIncurred | apps/worker/src/engine.ts:163-209 | the engine settles the incurred plugin cost if and only if the plan runs to its end or every call made is free |
| PluginPlan.FailedPlanDropsCost | apps/worker/src/plugin-execution.ts:355-376 | a paid call followed by one that throws, and a call that throws after it was paid for: both costs are left out of the settlement |
| SkillComposition.PickShrinksGap | packages/contracts/src/reuse-domain.ts:401-419 | one greedy pick shrinks the gap to a best team by the factor 1 - 1/k |
| SkillComposition.GapOfTeam | packages/contracts/src/reuse-domain.ts:402-409 | the gap to any team of k skills is at most k times the best single gain |
| SkillComposition.BestCandidate | packages/contracts/src/reuse-domain.ts:402-414 | the eligible skill with most gain, the smaller identifier on a tie, or none if nothing is gained |
| SkillComposition.Compose | packages/contracts/src/reuse-domain.ts:397-420 | the seed followed by the composer's picks, until the size limit is reached or nothing more is gained |
| SkillComposition.ComposedGrows | packages/contracts/src/reuse-domain.ts:401-421 | a composition has two or more skills if and only if some skill adds to its seed |
| SkillComposition.ComposedMeetsBound | packages/contracts/src/reuse-domain.ts:396-420 | from the top seed a composition covers at least 1 - (1 - 1/k)^k of what any k eligible skills cover |
| SkillComposition.PoolIsEligible | packages/contracts/src/reuse-domain.ts:381-393 | the pool holds exactly the published skills that are not retired and share a requested feature, by falling number of matches and then rising identifier |
| SkillComposition.Collect | packages/contracts/src/reuse-domain.ts:395-443 | one composition per key, every extensible seed represented |
| SkillComposition.Suggest | packages/contracts/src/reuse-domain.ts:371-453 | suggestions of two or more published skills with exactly the requested features they hold, in order of coverage, size and key, with distinct keys; the first one meets the bound; none exactly when none are wanted or no skill adds to another; the composition of every extensible seed is listed, or as many as wanted are and each ranks before it |
| SkillComposition.OptionsAreCut | packages/contracts/src/reuse-domain.ts:376-378 | at most 5 suggestions, 5 by default; teams of 2 to 5 skills, 4 by default |
| Graphs.Search.Visit | packages/runtime/src/compiler.ts:285-298 | a visit ends with everything from the node on visited, or with a node on a real cycle |
| Graphs.Search.Run | packages/runtime/src/compiler.ts:283-299 | the search ends without a cycle if and only if the graph is acyclic, and then yields a rank falling along every edge |
| DependencyCycles.AssertAcyclicDependencies | packages/runtime/src/compiler.ts:259-300 | accepts exactly distinct versions with distinct, resolved and acyclic dependencies; a rejection names what is wrong |
| ResourceLineage.AssertAcyclicResourceLineage | packages/contracts/src/reuse-domain.ts:474-505 | accepts exactly well-formed edges without repetition or shared ordinal that form no cycle; a cycle found is real |
| ResourceLineage.Record | packages/contracts/src/reuse-domain.ts:475-492 | finds repeated edges and composition ordinals and builds exactly the recorded ancestry |
| EntryClosure.ClosureIsBoundedReach | apps/worker/src/store.ts:533-559 | the query finds exactly the resources at most 100 stored pins from the entry, each pin under the digest that release and stored version agree on |
| EntryClosure.SmallReleaseLosesNothing | packages/contracts/src/platform-schemas.ts:493-496 | for releases of at most 101 resources that is everything pins lead to, cycles included |
| EntryClosure.RecursionEnds | apps/worker/src/store.ts:553-554 | the recursion stops of itself |
| EntryClosure.DepthCutLosesLonger | apps/worker/src/store.ts:553-554 | a release of 102 resources in which a reachable one is lost |
| EntryClosure.BelongsWhenRooted | apps/worker/src/plugin-store.ts:756-758 | the entry belongs to the release exactly when the release holds it under its stored digest |
| EntryClosure.ClosureHoldsDigests | apps/worker/src/plugin-store.ts:759-763 | what the plugin query reaches belongs with its entry and has its stored digest |
| EntryClosure.Shorten | apps/worker/src/store.ts:544-555 | every walk can be replaced by one without repetition that is no longer |
| Json.ReadsBackText | packages/runtime/src/plugin-runtime.ts:1160-1168 | a reader for the JSON grammar undoes the writer |
| Json.ReadsPairs | packages/runtime/src/plugin-runtime.ts:1162 | an escaped surrogate pair is read as the one character it stands for |
| Json.EscapesAreStandard | packages/runtime/src/plugin-runtime.ts:1162 | every character is written as itself, as its two-character escape, or as its four-digit code |
| Json.PunctuationIsStandard | packages/runtime/src/plugin-runtime.ts:1162 | constants, brackets and separators are those of the grammar |
| Json.WriteIsInjective | packages/runtime/src/plugin-runtime.ts:290-292 | equal texts mean equal values, so comparing texts compares values |
| Json.FaithfulNumeralsExist | packages/runtime/src/plugin-runtime.ts:1162 | a way to print numbers that reading undoes exists |
| CanonicalJson.TextTellsApart | packages/runtime/src/plugin-runtime.ts:1160-1169 | equal canonical texts mean values equal up to member order at every depth |
| CanonicalJson.CanonicalTextIsNormalForm | packages/runtime/src/compiler.ts:27-41 | without ties of keys, canonical texts are equal if and only if the values are equal up to member order |
| CanonicalJson.OrderIndependentWithoutTies | packages/runtime/src/plugin-runtime.ts:1164-1166 | the text is the same for every member order if and only if no two keys of an object tie |
| CanonicalJson.OnePassIsCanonical | packages/runtime/src/plugin-runtime.ts:1161-1168 | sorting and writing in one pass gives the text of the sorted value |
| Sorting.SortIsSorted | packages/runtime/src/compiler.ts:31-32 | the comparison sort gives a sorted permutation |
| Sorting.SortIsStable | packages/runtime/src/compiler.ts:31-32 | elements that tie keep their order |
| Sorting.SortedIsUnique | packages/runtime/src/context-assembly.ts:118-121 | where no two different elements tie there is one sorted arrangement |
| SchemaValidator.ValidateSchemaNode | packages/runtime/src/plugin-runtime.ts:301-488 | the interpreter with its running count does what the specification function says |
| SchemaValidator.ValidateKeywords | packages/runtime/src/plugin-runtime.ts:348-488 | the keyword checks of one node, in the source's order of errors |
| SchemaValidator.AssertPluginJsonSchema | packages/runtime/src/plugin-runtime.ts:490-511 | accepts exactly the values with a derivation of at most 1000 nodes at paths of at most 32 segments |
| SchemaValidator.AcceptsExactlyTheDerivable | packages/runtime/src/plugin-runtime.ts:301-488 | the same from any count: acceptance if and only if a derivation in the counter-free semantics fits what is left |
| SchemaValidator.AcceptedConforms | packages/runtime/src/plugin-runtime.ts:301-488 | acceptance yields a derivation with exactly as many nodes as were counted |
| SchemaValidator.ConformingIsAccepted | packages/runtime/src/plugin-runtime.ts:301-488 | a derivation that fits the limits is accepted with its size counted |
| SchemaValidator.VerdictStands | packages/runtime/src/plugin-runtime.ts:308-311 | any verdict but exhaustion stands when the count starts lower |
| SchemaValidator.CircularDerivesNothing | packages/runtime/src/plugin-runtime.ts:322-347 | references that lead back to themselves derive nothing |
| SchemaValidator.CircularIsRejected | packages/runtime/src/plugin-runtime.ts:322-347 | the interpreter ends on them with the complexity error |
| SchemaValidator.LessAtAnyScale | packages/runtime/src/plugin-runtime.ts:407-420 | numbers are compared as numbers, at whatever scale they are written |
| SchemaValidator.IntegersAreWhole | packages/runtime/src/plugin-runtime.ts:383 | the integer type accepts exactly whole numbers |
| SchemaValidator.RequiredMeansHeld | packages/runtime/src/plugin-runtime.ts:460-468 | when the required check passes, all required keys are held if and only if those with inherited names are |
| SchemaValidator.InheritedNameCounts | packages/runtime/src/plugin-runtime.ts:460-468 | the empty object meets the requirement of a key named like an inherited one |
| SchemaValidator.InheritedNameIsRejected | packages/runtime/src/plugin-runtime.ts:469-474 | an object with a member of an inherited name is rejected unless the schema declares that property |
| SchemaMeaning.KeywordsMean | packages/runtime/src/plugin-runtime.ts:348-468 | the keyword checks pass exactly when the value meets the written-out meaning of `enum`, `const`, `type`, the bounds, `items` and `required` |
| SchemaMeaning.ObjectMeans | packages/runtime/src/plugin-runtime.ts:441-488 | an object conforms exactly when it meets its schema and each member conforms to its property, or else to what `additionalProperties` says |
| SchemaMeaning.ArrayMeans | packages/runtime/src/plugin-runtime.ts:418-440 | an array conforms exactly when it meets its schema and each item conforms to the schema of items |
| SchemaMeaning.ScalarVerdict | packages/runtime/src/plugin-runtime.ts:301-406 | the verdict and error code for a value without parts, in the order of the checks |
| SchemaMeaning.ObjectRejection | packages/runtime/src/plugin-runtime.ts:348-468 | why an object is rejected before its members are looked at |
| SchemaMeaning.ArrayRejection | packages/runtime/src/plugin-runtime.ts:418-440 | why an array is rejected before its items are looked at |
| SchemaMeaning.NoSchemaVerdict | packages/runtime/src/plugin-runtime.ts:312-320 | what is no object is no schema |
| SchemaMeaning.ReferenceVerdict | packages/runtime/src/plugin-runtime.ts:322-347 | a simple local reference passes the value on to what it names and counts one node |
| SchemaMeaning.BadReferenceVerdict | packages/runtime/src/plugin-runtime.ts:322-347 | a reference is unsupported exactly unless it is simple and local, and invalid when it names nothing |
| SchemaMeaning.ClosedObjectsDeclareAll | packages/runtime/src/plugin-runtime.ts:475-482 | with `additionalProperties` false every member of an accepted object is a declared property |
| SchemaMeaning.GovernedMembersAreAccepted | packages/runtime/src/plugin-runtime.ts:469-488 | every member of an accepted object is accepted by its property's schema, or else by the schema for additional properties |
| SchemaMeaning.UndeclaredMembersPass | packages/runtime/src/plugin-runtime.ts:469-488 | with `additionalProperties` true or absent, a member the schema does not mention never changes the verdict |
| SchemaMeaning.PointCanBeShifted | packages/runtime/src/plugin-runtime.ts:407-420 | one more zero and a smaller exponent are the same number |
| SchemaMeaning.NormalFormExists | packages/runtime/src/plugin-runtime.ts:290-292 | every number has a normal form |
| SchemaMeaning.NormalFormIsUnique | packages/runtime/src/plugin-runtime.ts:290-292 | numbers in normal form are equal exactly when they are the same number |
| ContextMerge.MergeValues | packages/runtime/src/context-assembly.ts:72-85 | the loop computes the recursive merge, members in the host's order of enumeration |
| ContextMerge.MergeKeepsOrder | packages/runtime/src/context-assembly.ts:76-83 | a merge of an object in the host's order is again in it: index-like keys first, by rising value |
| ContextMerge.IndexKeysComeFirst | packages/runtime/src/context-assembly.ts:76-83 | numerals without leading zero up to 2^32 - 2 come before other keys, and by value |
| ContextMerge.GetMerged | packages/runtime/src/context-assembly.ts:77-83 | key by key the merge combines what both objects hold |
| ContextMerge.HigherWins | packages/runtime/src/context-assembly.ts:72-85 | at every path the higher value decides unless it is silent there, and then the lower one does |
| ContextMerge.AssociativeUnlessHidden | packages/runtime/src/context-assembly.ts:72-85 | merging in either grouping shows the same at a path if and only if no leaf of the middle value hides there what the highest value's object uncovers |
| ContextMerge.MergingIsNotAssociative | packages/runtime/src/context-assembly.ts:79-82 | three values for which the grouping matters |
| ContextAssembly.AssembleContext | packages/runtime/src/context-assembly.ts:106-165 | the loops compute the specified envelope, whose values, authority, order, classes and sizes the rows below state apart from it, or the first refusal |
| ContextAssembly.OrderIsIgnored | packages/runtime/src/context-assembly.ts:102-121 | every permutation of the layers gives the same envelope, or is refused as well |
| ContextAssembly.AuthorityLaw | packages/runtime/src/context-assembly.ts:132-159 | allowed exactly if declared somewhere, declared by all who declare, and denied by none; denials and protocols are those of any layer |
| ContextAssembly.LayersOnlyRestrict | packages/runtime/src/context-assembly.ts:102-105 | one more layer never lifts a denial or a protocol and never widens declared permissions |
| ContextAssembly.HighestLayerWins | packages/runtime/src/context-assembly.ts:4-11 | at each path the envelope shows what the request shows unless it is silent there, then the agent, the project, the business domain, the private profile and the core |
| ContextAssembly.SomeLayerDecides | packages/runtime/src/context-assembly.ts:118-131 | where some layer is not silent, one decides in that order |
| ContextAssembly.ClassificationIsHighest | packages/runtime/src/context-assembly.ts:13-30 | the envelope is restricted if some layer is, else private, else internal, else public; a layer without class has the one of its source |
| ContextAssembly.ProvenanceFollowsSources | packages/runtime/src/context-assembly.ts:118-158 | the provenance describes every layer once, from the core to the request, and the size is the sum of a quarter of the bytes of each, rounded up and at least one |
| ContextAssembly.ListsAreSortedOnce | packages/runtime/src/context-assembly.ts:87-89 | permissions, denials and protocols are sorted and held once |
| ContextAssembly.RefusalIsFirst | packages/runtime/src/context-assembly.ts:106-116 | a refusal names what is wrong with the first layer that cannot be added to those before it |
| DigestDelivery.Deliveries.RecordDigestDelivery | apps/worker/src/store.ts:273-345 | the worker's transaction has exactly the specified effect and error |
| DigestDelivery.ApplyKeeps | apps/backend/src/services/attention-service.ts:1382-1480 | deliveries of workers and of clients, new snapshots and new runs keep windows in order and never lose or move back anything |
| DigestDelivery.HistoryGrows | apps/worker/src/store.ts:331-344 | over every history no cursor moves back and no attempt is lost |
| DigestDelivery.EventDeliveredOnce | apps/worker/src/store.ts:309-330 | no event is delivered to one actor and scope in two attempts |
| DigestDelivery.DeliveriesFollowCursor | apps/worker/src/store.ts:309-344 | what was delivered by a point of the history is at or before the cursor there, what is delivered later is past it |
| DigestDelivery.DeliveryIsRecorded | apps/worker/src/store.ts:297-344 | a delivery past the cursor adds one delivered attempt and moves the cursor to the window's end; one at or before it changes nothing; one without cursor is an error |
| DigestDelivery.FailureIsRecordedOnce | apps/worker/src/store.ts:297-344 | a run that did not deliver leaves one attempt, however often recorded, and moves no cursor |
| DigestDelivery.NothingToRecord | apps/worker/src/store.ts:273-296 | a run without digest records nothing; a missing run and a snapshot of another scope are errors |
| DigestDelivery.AcknowledgementIsRecorded | apps/backend/src/services/attention-service.ts:1382-1480 | what a client's acknowledgement does, by whether its key, the snapshot and the window are new |
| DigestDelivery.WindowIsOpened | apps/backend/src/services/attention-service.ts:1280-1369 | a window after the cursor is opened unless an undelivered one is waiting |
| WorkstationBroker.TraceKeeps | packages/contracts/src/workstation-broker-domain.ts:40-296 | every trace keeps the shape of the run, the binding of orders and proofs to it, and the count of expiry items |
| WorkstationBroker.LeasedOrExpired | packages/contracts/src/workstation-broker-domain.ts:222-296 | a leased run never expires, an expired one is never leased, what was reported stays |
| WorkstationBroker.EffectsAndReports | packages/contracts/src/workstation-broker-domain.ts:263-296 | effects are allowed exactly when ready or leased, and exactly the expired runs have reported, once, at or after their expiry time |
| WorkstationBroker.WindowsPartitionTime | packages/contracts/src/workstation-broker-domain.ts:230-281 | while waiting, expiry is possible exactly from the expiry time on and resuming exactly before it |
| WorkstationBroker.VerifiedResumes | packages/contracts/src/workstation-broker-domain.ts:161-261 | a binding verified against an issued order resumes the waiting run at any later time before expiry if its nonce is unused |
| WorkstationBroker.LeaseIsVouched | packages/contracts/src/workstation-broker-domain.ts:161-219 | a leased run has a binding whose user and device proofs were accepted for its own identity before it expired |
| WorkstationBroker.PlacedCanIssue | packages/contracts/src/workstation-broker-schemas.ts:118-151 | a waiting run can issue an order exactly when its terms are in order and fit between request and expiry |
| WorkstationBroker.PlacementVerdict | packages/contracts/src/workstation-broker-domain.ts:41-113 | which requests are ready, wait, or are malformed, and the deadline: the requested window, two hours for a daily brief, one hour otherwise |
| WorkstationBroker.HandshakeVerdict | packages/contracts/src/workstation-broker-domain.ts:161-219 | the verdict on a handshake at any point of a trace, by the request's own identity, ticket and deadline |
| WorkstationBroker.ResumptionVerdict | packages/contracts/src/workstation-broker-domain.ts:222-261 | the verdict on resuming with any binding at any point of a trace |
| WorkstationBroker.ExpiryVerdict | packages/contracts/src/workstation-broker-domain.ts:263-296 | the verdict on expiring at any point of a trace, and the one item it reports |

## Left out

- Stale worker slots: slot names are assumed to be unique, which the configuration has to see to; `WorkerStore.StaleClaimIsOnRecord` and `WorkerStore.StaleClaimBreaksReservations` say what would happen otherwise.
- Row identifiers are positions in the order of insertion; they stand for opaque identifiers and for their order.
- Money is a whole number of the cost columns' smallest unit; rounding, epsilons and decimal conversion are not modelled.
- What a claim reads from tables outside the model (definitions, approvals, releases) is an arbitrary value per run; the entry closure it queries is modelled on its own in `EntryClosure`.
- WorkerStore.Store.RecoverExpiredLeases: visits rows in order of identifier; the result per row does not depend on the order. Rows locked elsewhere are a parameter.
- WorkerStore.Store.Complete: token, latency and quality samples, run steps, artifact text and audit events are not part of this model, and the digest delivery inside the transaction is modelled on its own in `DigestDelivery`.
- WorkerEngine.Execute: what the work comes to and what other processes do are parameters; stream handling, timers and the lease monitor are not modelled, so in the machine any disposition may follow a claim at any time.
- The control plane appears as steps with the preconditions the worker relies on; a held run is resumed only with attempts left, and a requested run does not start paused. The inline executor of the control plane is not part of this model.
- The content of the per-call authorization checks is a nondeterministic pass or failure in `PluginExecution`; only the narrowing of limits is modelled, in `PluginLimits`.
- Outputs of plugin calls are identified with their digests, and database triggers on plugin rows are not modelled.
- PluginLimits.AssertScopeNarrowsTool: infinite and undefined numbers do not occur; limits are real numbers.
- PluginPlan.Execute: what each call returns, what it cost when it throws, and whether the run is aborted by then are parameters.
- SkillComposition.Suggest: profiles are sets of normalised feature keys; the normalisation, the score of a single match and the textual delta of a suggestion are not modelled. The order of keys is a parameter, and identifiers are numbers in the host's order.
- DependencyCycles.AssertAcyclicDependencies: the check of plugin references between resolution and the search is not modelled. Both cycle checks share one search: the ancestry check asks first whether a node is under way and then whether it is done, which makes no difference because no node is both.
- Json.ReadsBackText: strings hold Unicode scalar values, so unpaired surrogates are not modelled and a lone escaped half is rejected; how numbers are printed and read is a parameter with the law that reading undoes printing.
- CanonicalJson.CanonicalTextIsNormalForm: hashing is not modelled; the host's order of keys is a parameter and includes that the compiler's printer puts index-like keys first.
- SchemaValidator.ValidateSchemaNode: a path is kept as its number of segments, and values are compared as the equality of their texts.
- ContextMerge.MergeValues: assigning the host's prototype name as a key is treated like any other key.
- ContextAssembly.AssembleContext: the digest of the envelope is not modelled; the size of a layer's text and the order of strings are parameters.
- DigestDelivery.ApplyKeeps: workspaces' unique attempt keys and the scope checks of readers are not modelled.
- WorkstationBroker.TraceKeeps: formats of identifiers and the digests of proofs are not modelled; who else consumes nonces is an arbitrary event.
- HTTP transport, address ranges, redirects, secrets, model providers, schemas of requests, role ranks, schedulers, routes and the user interface are not modelled; most would only add easy members.
- The feature deltas, capability scores, configuration revisions and finite transition tables would only add easy members.
