# Verified model of the workflow execution, replay and investigation system

A webhook turns a request into a workflow run. A processor publishes the run's stage 0 from an outbox. Any number of
workers consume redelivered messages, claim a stage, call a provider, finalize under a claim token, publish the next stage
and only then commit the offset. A reconciler quarantines owners whose lease ran out. A publisher ships failure records. On
top of that, a rejected call may be sent once more: an investigation proposes it, an operator approves it, a single-use
request is reserved, dispatched and claimed under revalidation. This project models that system and proves what it is
built to guarantee.

Three assumptions hold everywhere. A database transaction happens whole or not at all, at one instant, and unique
constraints refuse a second row (the constraints are those of packages/db/prisma/schema.prisma and
apps/ai_agent/migrations). Claim tokens and row ids are fresh. A handler that reports a rejection says the truth. The topic
is a set of append-only partitions, each read in order from its committed offset.

| file | models |
|---|---|
| Domain, ExecutionTables, ExecutionStore | execution, attempt and failure rows; their transactions as functions and as methods over mutable tables with rollback; the reconciler; failure normalization |
| ReplayTables, ReplayStore | replay request, execution, attempt and failure rows; claim, record, deny, complete, dispatch |
| ReplayPolicy, DiagnosisGate | the deterministic replay policy, the evidence it decides on, and the cooldown on both sides |
| Orchestration | one stage from claim to resolution, one replay from claim to record, settlement of the message |
| Protocol, ProtocolInvariant, ProtocolKeeping, ProtocolSteps | the whole execution system as a transition system that stops at every await, its invariant, and one lemma per event |
| ProtocolTheorems, ReplayTheorems, RecordTheorems, ProtocolWitness | what holds in every run, and two concrete runs that show the theorems are not empty |
| ProtocolProgress | nothing stands still: what one worker, processor, dispatcher or reconciler alone makes of any reachable state |
| Authority, AuthorityService | operators, proposals, decisions, single-use replay requests, the worker's revalidation |
| Investigations, InvestigationRuns, InvestigationTheorems, InvestigationStore, OperationalLimits | the investigation queue: leases, attempts, sliding budgets, caps, snapshots, the poller, the cost ceiling |
| RequestAllowance, InvestigationWitness | the daily request allowance when other transactions run between a start's look-up and its insertion; concrete runs of the queue |
| EventStream | the resumable event stream over a retained history |
| CaseWorkflow | the versioned case row and its append-only log |
| DlqPublisher, DlqRuns | publication of failure records by rival publishers |
| JsonValues, CanonicalJson, ObjectGraphs, Fingerprints | canonical JSON, its parser, object graphs, and the two fingerprints |
| Templates | template scanning, substitution and validation |
| Kappa | Cohen's kappa |

Where the source updates rows or fields step by step, the project has methods over mutable fields, each proved against a
function of the old state; the properties are then proved of those functions, over every interleaving.

## Findings

- Validation does not rule out the empty-text fallback of template substitution: a path may lead to an object with a field
  named `toString`, whose conversion to text throws (`Templates.ValidCanStillFallBack`). The exact condition is
  `Templates.Convertible`, stated in `Templates.ValidFieldsFallBackExactly`.
- A replay candidate proposed while its cooldown runs is stored as blocked, and that status decides what operators may
  choose; it can never be approved later, and its investigation takes no second proposal. `Authority.ProposedTooEarly` is a
  concrete case. The exact condition: a candidate that meets every other condition can ever be approved if and only if its
  cooldown is over at the moment it is proposed (`Authority.ApprovableExactly`).
- An idempotency key of the case workflow is looked up over all cases: two cases escalated under one key, and the second is
  answered with the first case's event while it stays where it was (`CaseWorkflow.AnotherCasesEvent`). The answer is the
  case's own event if and only if the key is not looked up or was not recorded for another case
  (`CaseWorkflow.OwnEventExactly`).
- An investigation's owner whose lease has run out can no longer finish, and can still fail the job
  (`InvestigationWitness.ExpiredOwnerFails`): its failure is recorded, at any time, if and only if the job has neither been
  claimed again nor ended (`InvestigationTheorems.FailsExactlyUntilTakenOver`).
- The daily request allowance can be exceeded. A start that finds an active investigation of its case does not look at the
  allowance, and the investigation may end before the insertion: with an allowance of one,
  `InvestigationWitness.AllowanceIsExceeded` stores two in a day. Whatever order the starts' times come in, no day exceeds
  the allowance unless such an ending separates a look-up from an insertion into an allowance that is used up
  (`RequestAllowance.AllowanceHolds`); with times in order, every such insertion exceeds one
  (`RequestAllowance.AllowanceExactly`); with both halves in one step none does (`RequestAllowance.AtomicStartsHold`).

## Model

| member | source | states |
|---|---|---|
| ProtocolTheorems.EffectivelyOnce | apps/worker/orchestration.ts:56-89 | In every run, of all provider calls for one stage at most one may have been delivered; a second call is a replay, made after the first was reported and recorded rejected and its cooldown had passed; there is never a third. |
| ProtocolTheorems.SecondCallIsACooledReplay | apps/worker/replay.ts:66-149 | Of two calls for one stage, the earlier is an ordinary call reported rejected, the later a replay at or after the recorded end of the cooldown. |
| ProtocolTheorems.StageOrder | apps/worker/index.ts:46-56 | Every message, execution row and provider call of a stage has every earlier stage of its run succeeded, itself or in its replay. |
| ProtocolTheorems.NoStrandedRun | apps/worker/message-resolution.ts:10-19 | At every moment the first unfinished stage of every ingested run is accounted for: outbox row, uncommitted message, uncommitted hand-over from the stage before, or a failure on record. |
| ProtocolTheorems.CommittedMeansResolved | apps/worker/message-resolution.ts:10-19 | An offset has passed a message only if its stage is settled durably and the next stage's message is already in the topic. |
| ProtocolTheorems.OneReplayPerRun | apps/primary_backend/services/replay-policy-facts.ts:130-147 | No two replay requests ever exist for one run, whatever their cases and approvals. |
| ProtocolTheorems.RunsOnlyMoveForward | apps/worker/execution-store.ts:147-341 | Over any continuation of any run an execution leaves PENDING at most once and never changes its outcome, replay statuses move only forward, finished attempts and failure records stay as they are. |
| ProtocolProgress.IngestedRunCanComplete | apps/worker/index.ts:27-60 | From every state that keeps the invariant, a run waiting in the outbox whose stages nobody claimed can be carried to its end by one processor and one idle worker: all stages succeed, all its messages are committed. |
| ProtocolProgress.FreshStageIsCalled | apps/worker/orchestration.ts:56-89 | In every reachable state a worker alone at a stage nobody claimed calls it once, records what was reported, hands on the next stage after an acceptance, and commits. |
| ProtocolProgress.RecordedStageIsSettled | apps/worker/execution-store.ts:133-145 | A redelivered message of a succeeded stage is handed on and committed, of a failed one committed; with a live owner or an unrecorded failure the state stays as it is. |
| ProtocolProgress.OverdueStageIsQuarantined | apps/worker/execution-store.ts:144-187 | The message of a stage whose owner's lease is over is committed with the stage quarantined. |
| ProtocolProgress.FreshStageIsRefused | apps/worker/orchestration.ts:63-67 | A stage without a handler is recorded as not attempted and committed. |
| ProtocolProgress.ReplayedStageIsSettled | apps/worker/replay.ts:162-174 | The message of a failed stage whose replay succeeded hands on what the replay was to hand on; while the replay runs it stays. |
| ProtocolProgress.UnreplayedStageIsSettled | apps/worker/replay.ts:162-174 | A replay that was refused, failed or has not begun leaves the failed stage what it is, and its message is committed. |
| ProtocolProgress.ReadyReplayIsCalled | apps/worker/replay.ts:176-205 | In every reachable state a replay that may run is called once and ends in row, attempt, failure record and log as its provider reports; its message is passed on and committed. |
| ProtocolProgress.ReplayWithoutHandlerIsRefused | apps/worker/replay.ts:187-205 | A replay without a handler ends not attempted, without a call, and its message is committed. |
| ProtocolProgress.SessionsBeginAtOffset | apps/worker/index.ts:27-60 | A session begins at the committed offset, so whatever a crash interrupts is delivered again. |
| ProtocolProgress.RunIsIngested | apps/webhook/app.ts:19-27 | A run and its outbox row appear together, once. |
| ProtocolProgress.EndedReplayIsSettled | apps/worker/replay.ts:75-76 | The message of an ended replay is committed, after a success with the next stage handed on again. |
| ProtocolProgress.AbandonedReplayIsEnded | apps/worker/replay.ts:77-81 | The message of a replay whose owner's lease is over is committed with the outcome unknown. |
| ProtocolProgress.RefusedReplayIsEnded | apps/worker/replay.ts:107-135 | The message of a replay that is refused is committed with the first reason that holds on record, and nothing is called. |
| ProtocolProgress.WaitingReplayStays | apps/worker/replay.ts:67-79 | A replay that waits or is switched off leaves the state as it is. |
| ProtocolProgress.OutboxRunIsSent | apps/processor/index.ts:35-50 | A run in the outbox has its first message in the topic before it leaves the outbox. |
| ProtocolProgress.DueRequestIsDispatched | apps/primary_backend/services/replay-dispatcher.ts:19-53 | A due request's message is in the topic and stamped, or due again after its backoff when the send was not acknowledged. |
| ProtocolProgress.AllowedRequestIsStored | apps/primary_backend/services/replay.ts:101-124 | A request the policy allows on the tables as they are is stored with what the policy names. |
| ProtocolProgress.RowsAllowExactly | apps/primary_backend/services/replay-policy-facts.ts:106-218 | In terms of execution, attempt, failure and request rows, exactly when the policy allows a replay. |
| ProtocolProgress.DueExactly | apps/primary_backend/services/replay-dispatcher.ts:19-38 | When a request is due, what leasing it writes, and that one that is not due stays as it is. |
| ProtocolProgress.NeglectedStageIsReconciled | apps/worker/dlq-reconciler.ts:45-119 | The reconciler's step quarantines an expired owner and gives an old failure its record, from any reachable state. |
| ProtocolTheorems.FailedExactlyWithRecord | apps/worker/dlq-reconciler.ts:45-119 | In every reachable state a failed execution has its failure record and only a failed one has, older rows aside; no settled execution keeps an open attempt. |
| ProtocolTheorems.Reachable | apps/worker/index.ts:27-60 | Every state reachable by any events satisfies the system's invariant. |
| ProtocolTheorems.ApplyKeeps | apps/worker/index.ts:27-60 | Each single event keeps the system's invariant. |
| ProtocolSteps.AllowedMeansCooled | apps/primary_backend/services/replay-policy-facts.ts:172-218 | When the policy allows a replay on current facts, the stage is recorded failed, its call recorded rejected and cooled down, all earlier executions succeeded, no later one exists and no other request does. |
| ProtocolSteps.RequestIsOk | apps/primary_backend/services/replay.ts:88-124 | In a reachable state a request can be made only for a stage recorded rejected whose earlier stages all succeeded in their own executions. |
| ProtocolSteps.RejectionWasCalled | apps/worker/orchestration.ts:76-87 | A worker about to record a rejection has called the provider for that stage and was told so. |
| ProtocolSteps.FinishSuccessStep | apps/worker/execution-store.ts:245-265 | Recording an acceptance keeps the system's invariant although only the token and not the lease is looked at. |
| ProtocolSteps.PublishedIsResolved | apps/worker/message-resolution.ts:10-13 | Once the next stage's message is in the topic, the message of a succeeded stage may be committed. |
| RecordTheorems.RecordsAlwaysAgree | apps/worker/execution-store.ts:217-341 | In every reachable state each attempt carries its execution's fingerprints, each failure record its execution's identity and outcome, and what an owner recorded repeats its attempt field by field. |
| RecordTheorems.StoreChangesByTransactions | apps/worker/execution-store.ts:133-341 | Whatever the event, the execution tables change by exactly one transaction or not at all. |
| RecordTheorems.LeaseProtectsOwner | apps/worker/execution-store.ts:144-187 | After a claim no quarantine of the stage, by a rival or by the reconciler, commits in any continuation before two minutes have passed; while the stage is open, one commits exactly with a time from then on and the token of the claim. |
| RecordTheorems.OnlyOwnerCloses | apps/worker/execution-store.ts:245-341 | In any continuation within those two minutes, an event that changes the open stage's row is a success, failure or refusal under the token of the claim. |
| ReplayTheorems.SuccessIsTheOwners | apps/worker/replay.ts:151-158 | A replay becomes SUCCESS only when its current token holder completes it inside its lease with the acceptance its call reported; no original execution row changes. |
| ReplayTheorems.ReplayLifecycleHolds | apps/worker/replay.ts:37-64 | In every reachable state an ended replay has one finished attempt with the outcome its status says, and exactly the ones that ended otherwise than in success have one agreeing failure record. |
| ProtocolWitness.DeliveryHappens | apps/worker/orchestration.ts:40-90 | A concrete run from an empty system delivers a stage and passes its offset. |
| ProtocolWitness.SecondCallHappens | apps/worker/replay.ts:176-205 | A concrete run rejects a call, waits, requests, dispatches and claims a replay, and has it accepted. |
| ExecutionTables.TransactionKeepsLifecycle | apps/worker/execution-store.ts:133-341 | Every execution transaction that commits keeps rows, attempts and failures consistent, undoes nothing, and touches one execution. |
| ExecutionTables.RecordsStayAgreed | apps/worker/execution-store.ts:217-341 | Every transaction keeps attempts and failure records in agreement with their execution. |
| ExecutionTables.LifecycleIsLocal | apps/worker/execution-store.ts:133-341 | A transaction on one execution keeps all others consistent. |
| ExecutionStore.ExecutionDb.Insert | apps/worker/execution-store.ts:197-215 | The claim inserts a leased PENDING row, or changes nothing when the stage has a row. |
| ExecutionStore.ExecutionDb.StartAttempt | apps/worker/execution-store.ts:217-243 | Opens the attempt under the owner's token with the row's fingerprints, or changes nothing. |
| ExecutionStore.ExecutionDb.FinalizeSuccess | apps/worker/execution-store.ts:245-265 | Closes row and attempt together, or rolls back to the state before. |
| ExecutionStore.ExecutionDb.PersistFailure | apps/worker/execution-store.ts:267-341 | Closes row and attempt and records the failure together, or rolls back; says which. |
| ExecutionStore.ExecutionDb.FenceExpired | apps/worker/execution-store.ts:147-187 | Quarantines an expired owner with its open attempts and one failure record, or changes nothing. |
| ExecutionStore.ExecutionDb.RepairFailed | apps/worker/dlq-reconciler.ts:90-119 | Gives a failed row without a record its one record, or changes nothing. |
| ExecutionStore.ExecutionDb.ReconcileNext | apps/worker/dlq-reconciler.ts:122-149 | One pass quarantines an expired owner, else repairs a missing record, else finds nothing; what it did is stated in every case. |
| ExecutionStore.ReconcileAll | apps/worker/dlq-reconciler.ts:122-149 | Repeated passes end after exactly as many as there were neglected rows and leave none, keeping everything settled. |
| ExecutionStore.ReconciliationProgresses | apps/worker/dlq-reconciler.ts:45-119 | A committed quarantine or repair takes exactly its own execution off the list of neglected ones. |
| ExecutionStore.NormalizeFailure | apps/worker/execution-store.ts:96-118 | Whatever is thrown never becomes an acceptance, and becomes a rejection exactly when it is well classified as one; status and retry time survive exactly inside their ranges. |
| Orchestration.Claim | apps/worker/execution-store.ts:133-215 | Each answer exactly when it is due: ownership for a stage with no row, success and failure as they are on record, a live owner left alone, an expired one quarantined with unknown outcome, an older failure without a record unresolved. |
| Orchestration.ExecuteStage | apps/worker/orchestration.ts:40-90 | The answer as a total case split on the old tables: a success on record advances, a failure on record or an expired owner stops, a live owner and an unrecorded failure stay unresolved, none of them called; a fresh stage is called once and ends in row, attempt and failure record as the report says. |
| Orchestration.ExecuteReplayStage | apps/worker/replay.ts:176-205 | The provider is called exactly under a fresh claim with a handler; a result inside the lease is on record, field by field, and advances exactly when it was delivered; a late one changes and acknowledges nothing; without a claim the answer is what is on record. |
| Orchestration.SettleMessage | apps/worker/message-resolution.ts:4-20 | The next stage is sent before the offset moves; an unresolved message or failed send never moves it. |
| ReplayTables.ReplayTransactionKeepsLifecycle | apps/worker/replay.ts:37-159 | Every replay transaction keeps the replay rows consistent, moves statuses only forward and touches one replay. |
| ReplayTables.SuccessOnlyByOwner | apps/worker/replay.ts:151-158 | No transaction but an owner's completion inside its lease makes a replay succeed. |
| ReplayTables.DispatchBackoffGrows | apps/primary_backend/services/replay-dispatcher.ts:42-46 | Dispatch waits never shrink as attempts grow and lie between one and sixty seconds. |
| ReplayTables.DispatchBackoffDoubles | apps/primary_backend/services/replay-dispatcher.ts:43-47 | Each wait is twice the one before, at most a minute. |
| ReplayStore.ReplayDb.Claim | apps/worker/replay.ts:66-149 | Each of the six answers if and only if its condition on the old rows holds: owned, with token, two minutes of lease, next stage and one open attempt; succeeded; busy; ended, with the reason on record; switched off; thrown. |
| ReplayStore.ThrowsOnlyWithoutAction | apps/worker/replay.ts:125-130 | On consistent rows a claim throws exactly when everything else holds but the action is not there. |
| ReplayStore.ReplayDb.Record | apps/worker/replay.ts:37-56 | Attempt, failure record and terminal status change together, or nothing does. |
| ReplayStore.ReplayDb.Deny | apps/worker/replay.ts:58-64 | A denial ends the replay not attempted in one transaction. |
| ReplayStore.ReplayDb.Complete | apps/worker/replay.ts:151-159 | Records the owner's result only while its lease runs. |
| ReplayStore.ReplayDb.DispatchOne | apps/primary_backend/services/replay-dispatcher.ts:19-53 | Publication is stamped exactly after an acknowledged send of a due request; a failed send is due again after its backoff; nothing else of the replay changes. |
| ReplayPolicy.RequiresApprovalExactly | apps/primary_backend/services/replay-policy.ts:47-95 | Approval is required exactly when every listed condition holds and no attempt's deadline lies ahead. |
| ReplayPolicy.ReasonsAreExact | apps/primary_backend/services/replay-policy.ts:63-86 | A blocking reason is given exactly when its condition holds. |
| ReplayPolicy.NoReasonsMeansGrounded | apps/primary_backend/services/replay-policy.ts:63-87 | No reason is given exactly when every condition but the cooldown holds. |
| ReplayPolicy.EligibilityIsMonotone | apps/primary_backend/services/replay-policy.ts:89-94 | For fixed facts an eligible case stays eligible, with the same answer. |
| ReplayPolicy.NotBefore | apps/primary_backend/services/replay-policy.ts:89-91 | The deadline is some attempt's and no attempt's is later. |
| ReplayPolicy.EvaluateReplayPolicy | apps/primary_backend/services/replay-policy.ts:47-95 | The evaluation that fills its result in place gives the answer the conditions determine, in every case, including the range error on an impossible date. |
| DiagnosisGate.DeadlinesAgree | apps/ai_agent/src/graph.ts:645-662 | For all evidence the policy can put a deadline on, it is the deadline the diagnosis reports; both fail on the same dates. |
| DiagnosisGate.SupportedEvidenceIsGrounded | apps/ai_agent/src/graph.ts:597-643 | Evidence the diagnosis supports is grounded for the policy exactly when failure code, configuration and replay history are right. |
| DiagnosisGate.GroundedEvidenceIsSupported | apps/primary_backend/services/replay-policy-facts.ts:41-95 | Evidence the policy grounds is evidence the diagnosis supports. |
| DiagnosisGate.GatesAgreeExactly | apps/ai_agent/src/graph.ts:597-643 | For untouched evidence of an unchanged call, supported by the diagnosis if and only if grounded for the policy and the listed things only the diagnosis sees hold. |
| DiagnosisGate.UnknownOutcomeCounts | apps/primary_backend/services/replay-policy-facts.ts:73-74 | The reason of an unknown outcome holds exactly if the current execution, the saved failure or an attempt has one. |
| DiagnosisGate.EvidenceGroundsExactly | apps/primary_backend/services/replay-policy-facts.ts:41-95 | Saved evidence, current evidence and configuration together ground a replay if and only if each of the listed conditions holds of the part it is read from. |
| DiagnosisGate.OnlyCandidatesHaveDeadlines | apps/ai_agent/src/graph.ts:645-662 | Without a replay candidate neither side names a deadline. |
| Authority.AuthorityChain | apps/primary_backend/services/replay.ts:37-124 | In every run each request hangs on one approve decision on the latest proposal version for its case and owner; no approval, case or execution has two requests; no proposal has two decisions. |
| Authority.SubmitExactly | apps/primary_backend/services/investigation-proposals.ts:48-92 | A proposal is added if and only if an operator submits it for the case's owner to an investigation without one; what is stored, and when a submission is a repetition. |
| Authority.DecideExactly | apps/primary_backend/services/investigation-authority.ts:26-33 | Of a fitting choice, a decision is recorded if and only if the proposal is undecided and unexpired and the pair of disposition and decision is one of five; what is stored, and when a decision is a repetition. |
| Authority.RequestExactly | apps/primary_backend/services/replay.ts:88-124 | A replay is requested if and only if a fitting approve decision, its case and its execution are unused, the decision has not expired and the policy requires approval and names the call; what is stored. |
| Authority.FittingChoicesAreDenied | apps/primary_backend/services/investigation-authority.ts:146-163 | A fitting choice that is refused is refused for the first of the listed reasons that holds. |
| Authority.AsksAreDenied | apps/primary_backend/services/replay.ts:37-124 | So is an ask for a replay. |
| Authority.RequestsAreSingleUse | apps/primary_backend/services/replay.ts:92-100 | A request under a used id, approval or case writes nothing: the same one is answered again, any other is refused. |
| Authority.DecisionsAreFinal | apps/primary_backend/services/investigation-authority.ts:146-154 | A decision on a decided proposal writes nothing; any other than the recorded one is refused. |
| Authority.RecordsAreImmutable | packages/db/prisma/schema.prisma:37-106 | Proposals, decisions and requests are never changed or withdrawn. |
| Authority.ApprovableExactly | apps/primary_backend/services/investigation-authority.ts:26-33 | A candidate that meets every other condition can be approved after some continuation, by somebody at some time, if and only if its cooldown was over when it was proposed. |
| Authority.RipeProposalIsApproved | apps/primary_backend/services/investigation-authority.ts:156-171 | Proposed after its cooldown, it is approved by any operator at any moment of the proposal's two days. |
| Authority.CooldownProposalIsNeverApproved | apps/primary_backend/services/investigation-authority.ts:26-33 | A candidate stored while not requiring approval can never be decided over any run, nor replaced by a new proposal of its investigation. |
| Authority.ProposedTooEarly | apps/primary_backend/services/investigation-proposals.ts:48-92 | Concrete facts whose candidate, proposed a minute early, is stored as blocked and refused every decision after any run and at any time; a minute later it is approved. |
| Authority.ChainHappens | apps/primary_backend/services/replay.ts:88-124 | From nothing, five steps lead to a replay request with exactly the bindings, fingerprints and window that were decided on. |
| Authority.RequestsAreRipe | apps/primary_backend/services/replay.ts:101-122 | A request is made only inside its own window, with the policy's deadline. |
| Authority.RevocationStops | apps/worker/replay.ts:106-107 | Who is no operator any more decides and requests nothing, and no replay approved or requested by that person is authorized. |
| Authority.StillAuthorizedExactly | apps/worker/replay.ts:83-113 | The worker's long check holds exactly when both operators still are operators, the case is bound as before, the window is open and the handler is the same. |
| AuthorityService.AuthorityDb.Submit | apps/primary_backend/services/investigation-proposals.ts:48-92 | A proposal is added only by an operator for the case's owner to an investigation that had none, becomes its latest, and leaves all others as they were; a refusal or repetition changes nothing. |
| AuthorityService.AuthorityDb.Decide | apps/primary_backend/services/investigation-authority.ts:106-180 | A decision is added only by an operator to an undecided, latest, unexpired proposal that admits it, an approval only while the policy requires one; all others stay; a refusal changes nothing. |
| AuthorityService.AuthorityDb.RequestReplay | apps/primary_backend/services/replay.ts:88-124 | The one request added hangs on an approve decision and a case nobody used, with both operators still in office and the policy's deadline, and ends no later than its approval; the chain of all requests is kept. |
| AuthorityService.ClaimAuthorized | apps/worker/replay.ts:83-149 | A worker owns a replay if and only if it waits untouched, every binding still holds, the moment lies in the window, and policy, action and identity are as they were; a reserved replay whose bindings or window are gone ends without ever running. |
| AuthorityService.EvaluateSnapshotPolicy | apps/primary_backend/services/investigation-proposals.ts:18-42 | A diagnosed candidate counts as grounded exactly when the facts ground it, cooldown aside; every other candidate is marked. |
| InvestigationTheorems.SlidingBudget | apps/ai_agent/src/investigation-store.ts:155-188 | In every run, what an owner or operator reserved in any 24 hours, with the evaluation's reservations of those hours, stays within the token and the cent budget, whatever order transactions began in. |
| InvestigationTheorems.WindowFits | apps/ai_agent/src/investigation-store.ts:165-180 | Reservations that each fit the day before them fit every day-long window. |
| InvestigationTheorems.LeasesCapped | apps/ai_agent/src/investigation-store.ts:148-164 | At every instant from now on live leases stay within the global, owner and operator caps. |
| InvestigationTheorems.AtMostThreeClaims | apps/ai_agent/src/investigation-store.ts:145-160 | No job is claimed more than three times. |
| InvestigationTheorems.EligibleExactly | apps/ai_agent/src/investigation-store.ts:145-180 | When a job may be claimed: waiting or past its ninety seconds, fewer than three attempts, and leases, tokens and cents of the last 24 hours to spare for its owner and its operator. |
| InvestigationTheorems.EveryJobConsistent | apps/ai_agent/src/investigation-store.ts:215-240 | A job's events tell one life; its one snapshot exists exactly if it reached proposed; no case has two active investigations, no request two rows. |
| InvestigationTheorems.SupersededNeverFinishes | apps/ai_agent/src/investigation-store.ts:223-245 | A token that is no longer the job's can neither finish nor fail it, now or after any further events. |
| InvestigationTheorems.ExpiredNeverFinishes | apps/ai_agent/src/investigation-store.ts:223-240 | Whatever happens after a claim, no finish under its token succeeds from the end of its lease on. |
| InvestigationTheorems.FailsExactlyUntilTakenOver | apps/ai_agent/src/investigation-store.ts:242-245 | Whatever happens after a claim, a failure under its token is recorded if and only if the job has neither been claimed again nor ended. |
| InvestigationTheorems.LeaseNeverChanges | apps/ai_agent/src/investigation-store.ts:145-160 | Over any run a current token keeps the lease and the attempt it was claimed with, until it is lost for good. |
| InvestigationWitness.ExpiredOwnerFails | apps/ai_agent/src/investigation-store.ts:223-245 | A concrete run in which the owner's ninety seconds are over: its finish is refused, its failure recorded. |
| InvestigationTheorems.LeaseProtectsOwner | apps/ai_agent/src/investigation-store.ts:145-160 | After a claim and whatever others do until the clock has passed ninety seconds, the job is still the claimant's: live before that instant, open to another claim or the final sweep only after it. |
| InvestigationTheorems.NothingTakenBack | apps/ai_agent/migrations/0001_investigations.sql:32-47 | Snapshots, jobs and reservations are never removed or changed back. |
| InvestigationTheorems.ClaimsAreBounded | apps/ai_agent/src/runner.ts:16-47 | With no new jobs, all pollers together claim no more often than attempts were left. |
| InvestigationRuns.ApplyKeeps | apps/ai_agent/src/investigation-store.ts:84-280 | Every transaction keeps jobs, keys, reservations, caps and tokens consistent. |
| RequestAllowance.AllowanceHolds | apps/ai_agent/src/investigation-store.ts:84-137 | In every run in which no insertion overruns, what was stored for an owner or operator in any 24 hours, with the evaluation's rows of those hours, stays within the allowance. |
| RequestAllowance.AllowanceExactly | apps/ai_agent/src/investigation-store.ts:84-137 | With the starts' times in the order of their lock, every day stays within the allowance if and only if no insertion overruns: none follows the ending of the active investigation its look-up saw, in a free place, with the allowance used up. |
| RequestAllowance.RoomExactly | apps/ai_agent/src/investigation-store.ts:95-112 | In every run, whatever the order of times, every row found room in the allowance when it was inserted if and only if no insertion overran. |
| RequestAllowance.AtomicStartsHold | apps/ai_agent/src/investigation-store.ts:84-137 | If nothing runs between look-up and insertion, every day of every run stays within the allowance. |
| InvestigationWitness.AllowanceIsExceeded | apps/ai_agent/src/investigation-store.ts:95-112 | A concrete run that stores two investigations of one owner in a day with an allowance of one. |
| InvestigationStore.InvestigationStore.LookUp | apps/ai_agent/src/investigation-store.ts:91-111 | The look-up refuses exactly when the request is new, the case has no active investigation and the allowance is used up; otherwise it says what it saw. |
| InvestigationStore.InvestigationStore.Insert | apps/ai_agent/src/investigation-store.ts:112-130 | The insertion fills a free place whatever was looked up; otherwise the row there is answered, to nobody it is not bound to. |
| InvestigationStore.InvestigationStore.Start | apps/ai_agent/src/investigation-store.ts:84-137 | With both halves in one step a request is stored once and within its allowance; the caller gets a row with exactly its own binding, or a refusal that changes nothing. |
| InvestigationStore.InvestigationStore.ClaimNext | apps/ai_agent/src/investigation-store.ts:139-197 | Sweeps exhausted jobs, then leases the oldest unlocked job that fits every cap and budget and reserves its attempt, or none if none fits. |
| InvestigationStore.InvestigationStore.Finish | apps/ai_agent/src/investigation-store.ts:215-240 | Snapshot and proposal together, only for the owner inside its lease. |
| InvestigationStore.InvestigationStore.Fail | apps/ai_agent/src/investigation-store.ts:242-245 | Ends the job of the token's owner, and only that. |
| InvestigationStore.InvestigationStore.ApplyDecision | apps/ai_agent/src/investigation-store.ts:258-279 | Each answer if and only if it is due: the first decision on a proposal is applied, the same again is a no-op, any other is refused. |
| InvestigationStore.RunInvestigationOnce | apps/ai_agent/src/runner.ts:16-29 | One turn takes the oldest job that fits after the sweep: proposed with its snapshot exactly if the execution returned inside ninety seconds, in error otherwise, all other jobs as the sweep left them; without such a job only the sweep happens. |
| InvestigationStore.Poller.Poll | apps/ai_agent/src/runner.ts:37-47 | The drain loop ends after at most the attempts left, only one drain of a poller runs at a time, and one that is neither disabled nor stopped goes on until no unlocked job fits. |
| OperationalLimits.OperationalLimits | apps/ai_agent/src/operational-limits.ts:19-42 | A deployment gets limits if and only if every value is in bounds and an enabled one covers the model's price; each limit is its own value or its default, each where it belongs. |
| OperationalLimits.CeilingCoversEverySplit | apps/ai_agent/src/operational-limits.ts:35-39 | The per-attempt reservation covers any split of the attempt's tokens into input and output. |
| OperationalLimits.CeilingIsLeast | apps/ai_agent/src/operational-limits.ts:37-39 | No smaller whole number of cents does, unless it is less than one. |
| OperationalLimits.RealSpendWithinBudget | apps/ai_agent/src/operational-limits.ts:35-41 | What anyone's attempts really cost in any 24 hours stays within the spend budget. |
| EventStream.ExpiredExactly | apps/ai_agent/src/investigation-store.ts:79-80 | A cursor gets a snapshot exactly when there is none, it is ahead, or the event after it has left retention. |
| EventStream.BatchIsLinked | apps/ai_agent/src/investigation-store.ts:60-82 | One batch continues from its cursor event by event, and moves it whenever there is anything new. |
| EventStream.StreamInvestigationEvents | apps/ai_agent/src/events.ts:15-42 | Whatever history and clock do meanwhile, each milestone written follows the frame before it by one unless a current snapshot came between. |
| EventStream.ReconnectsStayLinked | apps/ai_agent/src/events.ts:22-34 | All frames a client receives over any number of connections, each resumed from the last frame it has, with any tails lost and the history growing meanwhile, are linked: each milestone follows the frame before it by one unless a then current snapshot came between. |
| EventStream.MilestonesCountUp | apps/ai_agent/src/events.ts:31-34 | Without a snapshot the client gets every event once, in order, with its own status. |
| EventStream.BatchSizes | apps/ai_agent/src/investigation-store.ts:60-82 | A batch after a cursor still in retention brings all later events, at most 64. |
| EventStream.HeartbeatIsDue | apps/ai_agent/src/events.ts:22-41 | A turn before the end of the connection writes its batch, and a heartbeat once ten seconds have passed. |
| CaseWorkflow.LogRefinesState | apps/primary_backend/services/case-workflow.ts:203-302 | After any interleaving a row's version is one more than its events, the events chain from the start to the row's place, and the row is resolved exactly if that place is. |
| CaseWorkflow.OneEventPerKey | apps/primary_backend/services/case-workflow.ts:205-228 | One idempotency key adds at most one event. |
| CaseWorkflow.TransitionExactly | apps/primary_backend/services/case-workflow.ts:203-226 | When a transition is recorded or answered, when it conflicts and when it is refused, each if and only if. |
| CaseWorkflow.RecordsWhatWasAsked | apps/primary_backend/services/case-workflow.ts:228-302 | The event and the row repeat what was asked, field by field: place, next version, given details over those it had, resolution; other cases stay. |
| CaseWorkflow.RowTellsWhatWasAsked | apps/primary_backend/services/case-workflow.ts:203-302 | In every run a row is where its last recorded transition asked for, each detail as it was last given. |
| CaseWorkflow.RecordedKeyIsNoOp | apps/primary_backend/services/case-workflow.ts:205-217 | Once a key is recorded, any later transition under it leaves log and rows alone and is answered with the recorded event. |
| CaseWorkflow.OwnEventExactly | apps/primary_backend/services/case-workflow.ts:205-217 | A recorded transition is answered with an event of its own case if and only if its key is not looked up or was not recorded for another case. |
| CaseWorkflow.AnotherCasesEvent | apps/primary_backend/services/case-workflow.ts:205-217 | A concrete run with two cases and one key: the second case is answered with the first one's event and does not move. |
| CaseWorkflow.OneWinnerPerVersion | apps/primary_backend/services/case-workflow.ts:219-226 | Of two transitions that expect the same version, only one is ever recorded. |
| CaseWorkflow.TransitionKeeps | apps/primary_backend/services/case-workflow.ts:203-302 | Every transition that commits keeps each row equal to what its log says. |
| CaseWorkflow.CaseWorkflowService.TransitionCase | apps/primary_backend/services/case-workflow.ts:179-308 | The transition as it is carried out: event and row together, or everything undone. |
| CaseWorkflow.CaseWorkflowService.GetOrCreateWorkflow | apps/primary_backend/services/case-workflow.ts:105-146 | The case's row, created at the start if there is none. |
| DlqRuns.PublishedOnceAfterAcknowledgement | apps/worker/dlq-publisher.ts:117-166 | With any publishers, a record counts as published only after an acknowledged send of its id by the publisher that stamped it, and one stamp wins. |
| DlqRuns.PublishedIsFinal | apps/worker/dlq-publisher.ts:47-58 | A published record never changes again. |
| DlqRuns.StalePublisherIsHarmless | apps/worker/dlq-publisher.ts:136-164 | A publisher whose claim was taken over changes nothing of the record. |
| DlqRuns.UnpublishedIsDueAgain | apps/worker/dlq-publisher.ts:47-58 | Whatever happened to its publishers, an unpublished record is due within two minutes. |
| DlqRuns.RecordIsClaimed | apps/worker/dlq-publisher.ts:47-115 | A publisher that comes across a record claims it for two minutes if and only if it is unpublished, its next attempt has come and no claim on it runs; any other it leaves alone. |
| DlqRuns.OthersArePassedOver | apps/worker/dlq-publisher.ts:96-112 | A candidate that is not due any more is passed over for the next one. |
| DlqRuns.OwnedRecordIsSent | apps/worker/dlq-publisher.ts:118-166 | A claimed record is sent once: published when acknowledged, free again and due after its delay when refused. |
| DlqPublisher.DelaysGrow | apps/worker/dlq-publisher.ts:129-135 | Retry delays never shrink as attempts grow and lie between one and sixty seconds. |
| DlqPublisher.DelayDoubles | apps/worker/dlq-publisher.ts:128-135 | The first wait is a second, each further one twice the one before, at most a minute. |
| DlqPublisher.EventFrom | apps/worker/dlq-publisher.ts:60-79 | What is sent names the stored failure, is well formed whatever is stored, and repeats a well-formed record. |
| DlqPublisher.RetryTable.ClaimNext | apps/worker/dlq-publisher.ts:89-115 | The first candidate still due is claimed and the others left alone. |
| DlqPublisher.RetryTable.PublishNext | apps/worker/dlq-publisher.ts:118-166 | Stamped after an acknowledged send, rescheduled after a failed one, nothing else touched. |
| CanonicalJson.RoundTrip | apps/worker/execution-store.ts:45-64 | A parser recovers every JSON value from its canonical text followed by any delimiter. |
| CanonicalJson.EqualTextExactly | apps/worker/execution-store.ts:45-64 | Two JSON values have the same canonical text exactly when they are equal up to key order. |
| CanonicalJson.StringReads | apps/worker/execution-store.ts:46 | Printed strings read back, with every escape and lone surrogate. |
| CanonicalJson.CanonicalForms | apps/worker/execution-store.ts:45-64 | The words, quotes, brackets and braces of the text, character by character. |
| CanonicalJson.JoinedForms | apps/worker/execution-store.ts:54-60 | Items with commas in between, fields as quoted key, colon and value. |
| CanonicalJson.EscapedForms | apps/worker/execution-store.ts:46 | Which code units of a string print after a backslash, as four hexadecimal digits, or as themselves. |
| CanonicalJson.PairsPrint | apps/worker/execution-store.ts:46 | Surrogates print as they are in a pair and as an escape otherwise. |
| JsonValues.OrderedIsUnique | apps/worker/execution-store.ts:60 | A collection of keys has one order by code units. |
| JsonValues.BelowExactly | apps/worker/execution-store.ts:60 | A key comes before another exactly if it is its beginning or has the smaller code unit where they first differ. |
| ObjectGraphs.AcceptsExactlyTrees | apps/worker/execution-store.ts:45-64 | The traversal ends on every object graph, accepts exactly those that unfold to a finite JSON value, however much they share, and prints that value's canonical text. |
| ObjectGraphs.RejectsExactlyCycles | apps/worker/execution-store.ts:52-63 | A graph with nothing but JSON in it is rejected exactly when some way down meets a reference twice. |
| ObjectGraphs.NotJsonIsRejected | apps/worker/execution-store.ts:47-59 | Numbers that are not finite, values that are none and instances of classes are rejected wherever they are held. |
| ObjectGraphs.ScalarsPrint | apps/worker/execution-store.ts:46-50 | A JSON scalar is held and prints as itself. |
| ObjectGraphs.CanonicalJsonText | apps/worker/execution-store.ts:45-64 | The traversal over one mutable set gives that result and leaves the set as it found it, however it ends. |
| Fingerprints.FingerprintsMatchExactly | apps/worker/execution-store.ts:68-86 | With an injective digest both fingerprints of two calls match exactly when all six inputs do. |
| Fingerprints.FingerprintTexts | apps/worker/execution-store.ts:68-86 | The two texts that are digested, property by property in their order. |
| Fingerprints.DecimalInjective | apps/worker/execution-store.ts:47-50 | Different stages print differently. |
| Fingerprints.DecimalReads | apps/worker/execution-store.ts:47-50 | A stage prints as its decimal digits, without leading zeros. |
| Templates.MatchesExactly | apps/worker/parse.ts:3 | An expression is taken exactly where double braces enclose something without a closing brace. |
| Templates.SegmentsCover | apps/worker/parse.ts:3 | Literal text and expressions together are the template, in order. |
| Templates.SplitExactly | apps/worker/parse.ts:5 | The keys of a path are the one list of texts without a dot that, joined by dots, is the path. |
| Templates.FieldIsSubstituted | apps/worker/parse.ts:4-14 | A dotted path in double braces between plain text is replaced by the text of the value under those keys of nested objects; validation finds it exactly when that value is not null. |
| Templates.PrintedForms | apps/worker/parse.ts:14 | What truth values, numbers, texts and objects print as; an object with its own toString cannot be printed. |
| Templates.PrintedList | apps/worker/parse.ts:14 | A list prints its items with commas in between. |
| Templates.TemplatePaths | apps/worker/validation.ts:39-43 | The paths listed are those of the template's expressions, in order. |
| Templates.Parse | apps/worker/parse.ts:1-19 | The output is the literal text with the values at exactly those paths in between. |
| Templates.ValidateActionInputs | apps/worker/validation.ts:45-92 | The report names exactly the empty required fields, exactly those that are not text and exactly the missing paths; it is valid exactly when the action is supported and there is none of them. |
| Templates.HasPath | apps/worker/validation.ts:30-37 | A path is there exactly when every step is a property of an object and the end is not null. |
| Templates.ValidFieldsFallBackExactly | apps/worker/validation.ts:68-70 | For accepted fields substitution finds a value at every path, and falls back exactly when one cannot be converted to text. |
| Templates.ValidCanStillFallBack | apps/worker/parse.ts:13-17 | Concrete metadata that is valid and still substitutes empty text. |
| Kappa.KappaBounds | apps/ai_agent/src/evaluation/diagnosis-r4.ts:372-381 | For every non-empty list the coefficient lies in [-1, 1], is 1 exactly when all pairs agree, and the fallback value 0 is never taken. |
| Kappa.KappaByCounts | apps/ai_agent/src/evaluation/diagnosis-r4.ts:372-381 | The coefficient in closed form over the counts of the four kinds of pairs. |

## Left out

- HTTP routes, clients, middleware, login, the web frontend: no state property beyond the services modelled here.
- Provider handlers: a call is a step whose report is accepted, rejected, not attempted or unknown.
- Kafka retention and partition keys: a message may go to any partition and is never lost from the topic.
- Message parsing of the topic (`parseZapEvent`): malformed messages are not produced by the modelled parties.
- SHA-256, HMAC and random identifiers: an injective digest and a source of fresh tokens.
- Clocks: the execution system reads one non-decreasing clock; clock differences between hosts are not modelled. The investigation queue needs no such order and has none.
- Language models, prompts, the diagnosis graph's own runtime and tracing.
- Lab scripts, release switches, configuration contracts, offline evaluation, owner repair and redaction services.
- Evidence reading in triage-evidence.ts: its queries appear as the facts they report about the modelled rows; their row limits (50 attempts, 100 predecessors) are not modelled, as an execution here has at most two attempts.
- ProtocolTheorems.OneReplayPerRun: what the replay policy reads from tables outside the execution system (proposal facts, action configuration) is an arbitrary input of the event, so the result does not depend on it.
- ReplayStore.ReplayDb.Claim: the rows it revalidates against appear as findings; AuthorityService.ClaimAuthorized supplies the authority, and the protocol model the policy.
- New reservations of the offline evaluation during a run: the shared budgets and the daily allowance count those on record at its start.
- Orchestration.ExecuteStage: no rival acts between the transactions of this one call; every interleaving is the protocol model's, with the same transactions.
- Orchestration.ExecuteReplayStage: no rival acts between its transactions, and what the revalidation finds is given by the caller; the protocol model has the interleavings and computes the policy, AuthorityService.ClaimAuthorized the authority.
- The number of a run's stages: fixed when the run is ingested, while the worker counts the zap's actions at every message; editing a zap's actions is not modelled.
- CaseWorkflow.LogRefinesState: events chain in the order they were recorded; the read query orders them by time and id, which need not be that order when two events carry the same millisecond.
- EventStream.StreamInvestigationEvents: assumes event times that do not decrease with the sequence number and an end of the connection that loses only a tail of what was written.
- DlqPublisher.RetryTable.PublishNext: no rival acts between claim, send and stamp, which DlqRuns models; candidates are given in the order the query returns them; rows that disappear are not modelled.
- ObjectGraphs.AcceptsExactlyTrees: lists have no holes; the join of a list with holes would print them as nothing. The fingerprinted inputs come from JSON columns, which hold none.
- CanonicalJson.RoundTrip: a number is the decimal text it prints as; that different finite numbers print differently is taken from the language, as is that -0 prints as 0.
- OperationalLimits.CeilingCoversEverySplit: exact arithmetic; rounding of the floating-point product is not modelled.
- Kappa.KappaBounds: exact arithmetic; rounding is not modelled.
- Templates.ValidateActionInputs: the lists it reports are not ordered, and credential presence and the input digest are not computed.
- Serialization-conflict retries: a retried transaction is one that happened once or not at all.
