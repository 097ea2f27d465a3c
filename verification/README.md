# Verified model of the agentic mesh's durable state machines

The V5 control plane keeps its promises through rows in a database and files under a lock: a call is a few transactions
with remote calls in between, any of which may fail, be retried, race with another caller or die with its process. This
project models those rows and files, takes each transaction or lock-held write as one atomic step, and proves what holds in
every state of every run.

It is a Dafny 4.11 project. `dafny verify dfyconfig.toml` checks all of it.

## How it is laid out

**The flow engine, with governance and handoffs** (`Flow*.dfy`, `HandoffKeys.dfy`). `FlowDefinition` validates a flow graph
and selects routes. `FlowTables` holds every table as one value, `System`, with a guard and an effect for each transaction.
A call that spans several transactions leaves its local variables in `prepares` or `completions` between them, so that any
number of calls, retries and crashes may interleave; `FlowRuns.IsRun` is any such run. `FlowInvariants` states one
invariant, `FlowPreservation` and `FlowSteps` show that each step keeps it, and `FlowJournal`, `FlowTheorems`,
`FlowObligations`, `FlowSafety` and `HandoffKeys` draw the theorems about whole runs from it. `FlowFields` says what a
run's fields decide, `FlowEvidence` who may put what on record, `FlowQueues` what is queued for whom, `FlowAnswers` what a
committed call leaves behind, and `FlowGuards` exactly when each call is taken. `FlowOffers` and `FlowProgress` say exactly
which transitions, pickups and completions can still be finished, and `FlowExamples` builds runs in which the code does not
do what one might expect. `FlowDatabase` is the
imperative form: a class whose fields are the tables and whose methods are the transactions, each proved to change the
tables exactly as its guard and effect say, or not at all.

**Immutable releases** (`ReleaseProtocol.dfy`, `ImmutableReleases.dfy`). The coordinator runs against a script of what the
outside world does at each transaction and driver call: answer, raise, or take the process down. A proof-only log keeps what
all operations ever did and saw; every method keeps it lawful, so that each event is justified by the ones before it. The
theorems about phases, deployments and the registered image are about that log.

**Package resolution** (`Json.dfy`, `PackageGraph.dfy`, `PackageResolver.dfy`). The depth-first walk mutates its lists of
finished and visited packages, is proved equal to a recursive function, and that function is proved to succeed exactly on
the dependency closures that load and have no cycle. The settings fold is described path by path.

**The fleet scaler** (`Fleet.dfy`, `FleetScaler.dfy`), **configuration activation and promotion** (`ConfigActivation.dfy`,
`ConfigPromotions.dfy`, `PromotionStore.dfy`), **ADO milestones** (`AdoProgress.dfy`, `MilestonePublisher.dfy`), **document
discovery** (`DocumentTree.dfy`, `ImportDiscovery.dfy`) and **sorted advisory locks** (`AdvisoryLocks.dfy`) follow the same
pattern. Where a class keeps its properties in `Valid()`, any sequence of its calls is a run, since every call requires only
that and leaves it behind. `TextOrder.dfy` orders texts; `Wrappers.dfy` has options, results and the elements of a sequence.

## Where the code does not do what one might expect

- A replayed start answers with the work item its operation id first started, not with the one requested, because the
  request digest leaves the work item out (`FlowExamples.ReplayedStartAnswersAnother`;
  `FlowTheorems.StartAnswersExactly` says when).
- Two calls may open transitions of two work items under one operation id. The one that commits second never can, and its
  run is stuck (`FlowExamples.ReusedOperationArises`). `FlowProgress.TransitionCanCommitExactly` and
  `FlowProgress.CompletionCanFinishExactly` say when an open transition or completion can still be finished.
- Handoff keys of different work items can collide (`HandoffKeys.KeysCollideExactly` says when); the fingerprint still keeps
  any handoff from being shared. The transition whose key is taken then cannot be committed.
- A rejection recorded after a gate's approval is kept but revokes nothing (`FlowTheorems.ApprovedGateTakesRejection`,
  `FlowExamples.RejectionAfterApprovalArises`).
- If a second release operation is deployed while an older one is unfinished, resuming the older one puts its own old image
  back (`ReleaseProtocol.OverlapCanDrift`); what the registry says of itself holds all the same.
- The fleet's busy count can exceed its running count (`Fleet.BusyExceedsExactly`). The capacity bounds do not use it.
- Promotion resolves a draft's packages twice and compares only the first result, so a draft can be marked activated without
  its validated digest in the history (`ConfigPromotions.ChangedContentArises`; `ConfigPromotions.MarkedAsValidatedExactly`
  says when). With packages that resolve alike throughout it cannot (`ConfigPromotions.ActivatedAsValidated`).
- Locking in sorted key order avoids deadlock only as far as the hash to lock numbers allows
  (`AdvisoryLocks.DeadlockFreeExactly`).

## What is taken as given

Request digests, release identifiers, milestone fingerprints and handoff identifiers are injective, so the request, the
revision, the payload or the key stands for them. Action ids are fresh tokens. Clocks never go back. Configuration digests are
texts of 64 hexadecimal digits, and what a reference list resolves to is given, and may change at any time.

## Model

| member | source | states |
|---|---|---|
| FlowDefinition.OverlapIsExact | src/agentic_mesh_v5/flow_definition.py:259-264 | the pairwise condition test says yes exactly when some field map satisfies both conditions |
| FlowDefinition.OverlapMeansBothMatch | src/agentic_mesh_v5/flow_definition.py:249-256 | two routes with one outcome and overlapping conditions are exactly two routes that some outcome and fields match together |
| FlowDefinition.RejectOverlappingRoutes | src/agentic_mesh_v5/flow_definition.py:247-256 | a state is rejected iff some outcome and field map matches two of its routes |
| FlowDefinition.CheckState | src/agentic_mesh_v5/flow_definition.py:139-150 | one state passes iff its identifiers are distinct, it is terminal iff it has no routes, every route lands in a state owned by the route's target role, and no two routes can match together |
| FlowDefinition.ReachableStates | src/agentic_mesh_v5/flow_definition.py:151-156 | the worklist ends with exactly the states reachable from the entry along routes |
| FlowDefinition.ValidateFlow | src/agentic_mesh_v5/flow_definition.py:117-166 | a flow is accepted iff its entry exists, its declared terminal states are exactly the flagged ones, every state passes its checks and every state is reachable |
| FlowDefinition.TerminalReachable | src/agentic_mesh_v5/flow_definition.py:131-157 | an accepted flow has a path from its entry to a terminal state |
| FlowDefinition.SelectRouteExact | src/agentic_mesh_v5/flow_definition.py:75-83 | where no two routes can match together, selection returns a route iff it matches, so it fails only by matching none |
| FlowDefinition.AmbiguityBlocksSelection | src/agentic_mesh_v5/flow_definition.py:75-83 | where two routes can match together, some fields make selection fail although a route matches |
| FlowDefinition.ApplicableExact | src/agentic_mesh_v5/flow_definition.py:65-73 | the obligations beside the artifact are exactly the actions whose condition holds |
| FlowInvariants.ObligationsDistinct | src/agentic_mesh_v5/flow_definition.py:65-73 | the obligations a state gives for any fields have distinct identifiers, none of them the artifact's |
| Json.MergeAt | src/agentic_mesh_v5/package_resolver.py:221-229 | at every key path a merge holds what the overlay holds there if the overlay touches the path, and what the base holds otherwise |
| Json.MergeAllAt | src/agentic_mesh_v5/package_resolver.py:273-292 | after folding any list of objects, every key path holds what the last object to touch it holds there, and the base's value if none does |
| Json.SlotsDetermine | src/agentic_mesh_v5/package_resolver.py:221-229 | two objects that agree at every key path are equal, so the path-by-path description of a merge is complete |
| FlowSteps.StartKeeps | src/agentic_mesh_v5/flow_engine.py:91-185 | starting a run keeps the whole invariant of the flow tables |
| FlowSteps.DispatchKeeps | src/agentic_mesh_v5/flow_engine.py:187-262 | dispatching a consult or inform keeps it, and touches only the visit an active run is in |
| FlowSteps.OpenKeeps | src/agentic_mesh_v5/flow_engine.py:301-349 | opening a transition keeps it: the visit is left only with every obligation discharged |
| FlowSteps.ResumeKeeps | src/agentic_mesh_v5/flow_engine.py:296-300 | a retry of an open transition keeps it |
| FlowSteps.OfferForKeeps | src/agentic_mesh_v5/flow_engine.py:349-362 | offering the transition's handoff, new or found, keeps it |
| FlowSteps.CommitKeeps | src/agentic_mesh_v5/flow_engine.py:363-387 | journalling the prepared transition keeps it |
| FlowSteps.PickupKeeps | src/agentic_mesh_v5/flow_engine.py:395-489 | picking a transition up keeps it: the new visit gets exactly its obligations, all pending |
| FlowSteps.OpenCompletionKeeps | src/agentic_mesh_v5/flow_engine.py:509-547 | holding a run for completion keeps it |
| FlowSteps.TryKeeps | src/agentic_mesh_v5/flow_engine.py:548-562 | the kernel's attempt to complete the work item keeps it |
| FlowSteps.CommitCompletionKeeps | src/agentic_mesh_v5/flow_engine.py:563-585 | completing the run keeps it |
| FlowSteps.VerifyKeeps | src/agentic_mesh_v5/governance.py:64-136 | verifying an artifact keeps it: each visit's artifact has one verification |
| FlowSteps.ConsultKeeps | src/agentic_mesh_v5/governance.py:138-201 | recording a consultation keeps it |
| FlowSteps.DecideKeeps | src/agentic_mesh_v5/governance.py:203-320 | deciding a gate keeps it: the decision reviews the document the visit's artifact was verified as |
| FlowSteps.SponsorKeeps | src/agentic_mesh_v5/sponsor_approvals.py:246-410 | a sponsor's decision of a gate, taken as one step, keeps it |
| FlowSteps.OfferKeeps | src/agentic_mesh_v5/handoffs.py:146-254 | offering any handoff keeps it |
| FlowSteps.ClaimKeeps | src/agentic_mesh_v5/handoffs.py:256-304 | claiming a handoff keeps it |
| FlowSteps.AcceptKeeps | src/agentic_mesh_v5/handoffs.py:306-343 | accepting a handoff keeps it |
| FlowSteps.EnvironmentKeeps | src/agentic_mesh_v5/lifecycle.py:80-86 | whatever the lifecycle store (under its table of transitions), the queues, the fleet and routing may do in between keeps it |
| FlowRuns.AlwaysInv | src/agentic_mesh_v5/flow_engine.py:81-585 | the invariant holds in every state of every run, under any interleaving of calls, retries and crashes |
| FlowRuns.ChangesOneRun | src/agentic_mesh_v5/flow_engine.py:365-384 | a step that changes runs changes one run, keeps its pinned flow, and if it journals at all appends one row of that run under an operation the journal did not have |
| FlowJournal.HistoryShape | src/agentic_mesh_v5/flow_engine.py:753-772 | one work item's rows read start (prepare pickup)* and then nothing, an open prepare or a complete |
| FlowJournal.HistoryWalks | src/agentic_mesh_v5/flow_engine.py:440-477 | the states entered are a walk along routes of the pinned flow from its entry, ending where the run is |
| FlowJournal.JournalTellsTheRun | src/agentic_mesh_v5/flow_engine.py:130-167 | in every reachable state the version is the journal length, sequences are 1..n, the shape and the walk hold, and the status agrees with the shape |
| FlowJournal.JournalOnlyGrows | src/agentic_mesh_v5/flow_engine.py:753-772 | the journal only grows, and a run keeps its flow and never goes back a version |
| FlowJournal.OperationTakesEffectOnce | src/agentic_mesh_v5/flow_engine.py:775-788 | at most one step of a whole run journals a given operation id |
| FlowJournal.VersionsAreJournalled | src/agentic_mesh_v5/flow_engine.py:365-381 | no run moves to another version without one new row of its own under a new operation, and no other run changes with it |
| FlowFields.LeftVisitsDidWhatWasAsked | src/agentic_mesh_v5/flow_engine.py:662-727 | in every reachable state, each visit the journal has left by prepare or complete has every obligation discharged that its state asked for under the fields the run had when that visit was entered |
| FlowFields.VisitAsksForItsFields | src/agentic_mesh_v5/flow_engine.py:641-659 | in every run, a visit's obligation rows are exactly its artifact and those actions of its state whose condition holds of the run's fields at the very step that entered it, the requested ones for a start; the entry leaves the fields as they were |
| FlowFields.OpeningIsGoverned | src/agentic_mesh_v5/flow_engine.py:316-349 | a transition opens with the supplied fields over the run's own and the recorded impact over both; the one route that answers the outcome under those values is pending, and nothing else of the run changes |
| FlowFields.OpensExactly | src/agentic_mesh_v5/flow_engine.py:301-333 | in every reachable state, a transition can be opened iff its operation is unused, the run is active at the expected version with everything discharged, no other non-null impact is proposed than the recorded one, and some route answers the outcome |
| FlowAnswers.FieldsChangeOnOpening | src/agentic_mesh_v5/flow_engine.py:336-349 | a run's fields change only as a transition of it is opened |
| FlowAnswers.CommittedCallsReplay | src/agentic_mesh_v5/flow_engine.py:775-788 | whatever a step committed, every later call under its operation is answered with its work item if it makes the same request, and refused if it makes another; the row names who asked |
| FlowAnswers.AttemptExact | src/agentic_mesh_v5/flow_engine.py:548-562 | the kernel completes a work item iff it is still the active one read, at that version, and nothing blocks it; it then bears the fixed reason and the call's evidence |
| FlowAnswers.PickupHandsOver | src/agentic_mesh_v5/flow_engine.py:457-468 | a pickup hands the work item, at a new version, to the role that owns the state entered, and touches no other |
| FlowTheorems.GatesReviewOneDocument | src/agentic_mesh_v5/governance.py:482-506 | all decisions of a visit's gates review one path and eTag: those its artifact was verified as |
| FlowTheorems.RejectionRevokesNothing | src/agentic_mesh_v5/governance.py:277-300 | a rejection is stored and changes no obligation's discharge, either way |
| FlowTheorems.ApprovedGateTakesRejection | src/agentic_mesh_v5/governance.py:277-300 | every gate that can be approved can be rejected right afterwards, is then on record as both, and stays discharged |
| FlowExamples.RejectionAfterApprovalArises | src/agentic_mesh_v5/governance.py:277-300 | a run from nothing in which a gate is approved and then rejected, and stays discharged |
| FlowTheorems.ReplayNamesItsWork | src/agentic_mesh_v5/flow_engine.py:775-788 | a replayed call answers with the work item it names; a replayed start, whose digest names none (line 108), with the one that operation started on the same flow |
| FlowTheorems.StartAnswersExactly | src/agentic_mesh_v5/flow_engine.py:101-113 | a start that answers does so with the requested work item iff no row carries its operation or the row that does is of that work item; a row with the same request answers with its own |
| FlowExamples.ReplayedStartAnswersAnother | src/agentic_mesh_v5/flow_engine.py:108 | a run after which a start of one work item is answered with another, though under any other operation id it would have started |
| FlowTheorems.RetryResumesPendingRoute | src/agentic_mesh_v5/flow_engine.py:296-300 | a retry of an open transition selects exactly the pending route again, and is let through unless its operation id was used meanwhile |
| FlowTheorems.OneHandoffPerVersion | src/agentic_mesh_v5/flow_engine.py:349-362 | all calls that transition one work item from one version hold the same handoff, the one the journal records |
| FlowObligations.ObligationsOnlyMoveForward | src/agentic_mesh_v5/governance.py:546-563 | over any run an obligation keeps its role and payload, its status only leaves pending, and it never changes once its visit is left |
| FlowEvidence.RecordsAreEntitled | src/agentic_mesh_v5/governance.py:64-320 | in every reachable state every record was made by an actor entitled to it: artifacts by their role at their own path, consultations by the role consulted or by exception, gates by their role, never a sponsor's, and about the architecture only with an impact; every recorded impact comes from such an approval |
| FlowEvidence.DecidesExactly | src/agentic_mesh_v5/governance.py:203-320 | exactly which decisions of which type of gate are taken, and from whom |
| FlowEvidence.PathNamesBoth | src/agentic_mesh_v5/governance.py:585-588 | each placeholder of an artifact path becomes what it stands for, in either order, and nothing else changes |
| FlowTheorems.DecisionDischarges | src/agentic_mesh_v5/governance.py:277-320 | a gate that is approved or excepted is discharged |
| FlowGuards.VerificationDischarges | src/agentic_mesh_v5/governance.py:103-136 | a verified artifact is discharged |
| FlowGuards.ConsultationDischarges | src/agentic_mesh_v5/governance.py:138-201 | a consultation answered or excepted is discharged |
| FlowGuards.DispatchDischarges | src/agentic_mesh_v5/flow_engine.py:187-262 | an inform dispatched is discharged |
| FlowGuards.StartsExactly | src/agentic_mesh_v5/flow_engine.py:110-167 | a run is started iff its operation is unused and its work item is active, of the entry state's owner, and without a run |
| FlowGuards.DispatchesExactly | src/agentic_mesh_v5/flow_engine.py:187-262 | in every reachable state, a consult or inform of the current visit is dispatched iff its role has a queue, or exactly this is queued under its key |
| FlowGuards.CompletionOpensExactly | src/agentic_mesh_v5/flow_engine.py:509-547 | a run is held for completion iff it is active in a terminal state at the expected version with everything discharged |
| FlowGuards.VerifiesExactly | src/agentic_mesh_v5/governance.py:79-102 | exactly when an artifact is verified |
| FlowGuards.ConsultsExactly | src/agentic_mesh_v5/governance.py:150-190 | exactly when a consultation is recorded |
| FlowQueues.WorkIsQueued | src/agentic_mesh_v5/handoffs.py:201-254 | in every reachable state, what is dispatched is on its role's queue with its payload, what is handed off is on the target role's queue with its payload, and whoever claims a handoff is an instance of that role by a lease on that item |
| FlowQueues.QueuedApart | src/agentic_mesh_v5/flow_engine.py:225-245 | no two dispatched obligations of one work item share a queue item |
| FlowQueues.TransitionIsAnnounced | src/agentic_mesh_v5/flow_engine.py:349-362 | what a prepared transition puts on the next owner's queue names the state it leads to and the route it takes |
| FlowGuards.NewOffersExactly | src/agentic_mesh_v5/handoffs.py:165-212 | a new handoff is offered iff its queue item is leased, live, by a running instance, and the target role has a queue |
| FlowGuards.ClaimsExactly | src/agentic_mesh_v5/handoffs.py:256-304 | in every reachable state, a handoff is claimed iff by a running instance of its target role, by a live lease on its item, while it is offered or its claimant's lease is dead |
| FlowGuards.AcceptsExactly | src/agentic_mesh_v5/handoffs.py:306-343 | it is accepted iff by the same lease that claimed it, still live |
| FlowSafety.AcceptedIsAbsorbing | src/agentic_mesh_v5/handoffs.py:267-272 | an accepted handoff never changes again |
| FlowSafety.LiveClaimIsNeverDisplaced | src/agentic_mesh_v5/handoffs.py:273-299 | no step takes a claimed handoff from a lease that is live |
| FlowSafety.HandoffTimesAreOrdered | src/agentic_mesh_v5/handoffs.py:201-212 | offered, queued, claimed and accepted times are ordered, and present exactly as the status says |
| FlowSafety.AcceptedEarlier | src/agentic_mesh_v5/handoffs.py:317-339 | every accepted handoff was accepted at an earlier step by a running instance of its target role under a live lease on its queue item |
| FlowSafety.EnteredAfterAcceptance | src/agentic_mesh_v5/flow_engine.py:426-477 | a run becomes active in a state only after a handoff to that state's owner role was so accepted |
| FlowSafety.OnlyItsOperationAdvances | src/agentic_mesh_v5/flow_engine.py:741-750 | while a transition or completion is being prepared, only the commit of its own operation and request changes the run |
| FlowSafety.ReusedOperationBlocks | src/agentic_mesh_v5/flow_engine.py:301-387 | a run preparing under an operation id that another call journals first never changes again |
| FlowOffers.AlwaysSources | src/agentic_mesh_v5/handoffs.py:154-171 | in every run each handoff's fingerprint names a lease, item and instance that are still there and belong together, and a call that holds a handoff holds the one its own offer makes |
| FlowOffers.OfferableBefore | src/agentic_mesh_v5/handoffs.py:154-212 | an offer that another handoff or queue item under its key stands in the way of stays impossible |
| FlowProgress.TransitionCanCommitExactly | src/agentic_mesh_v5/flow_engine.py:289-387 | in every reachable state an open transition can still be committed iff no journal row carries its operation and the key of its handoff is free or carries this very transition (a queue item under it alone counts as taken, unless routed alike at this moment) |
| FlowProgress.PickupExactly | src/agentic_mesh_v5/flow_engine.py:408-440 | in every reachable state, a pickup is taken iff its operation is unused and the run waits, at the expected version, for a handoff that was accepted, while its work item is active |
| FlowProgress.PickupCanHappenExactly | src/agentic_mesh_v5/flow_engine.py:395-489 | in every reachable state, a run that waits for its handoff can still be picked up iff its work item has neither failed nor completed |
| FlowProgress.CompletionCanFinishExactly | src/agentic_mesh_v5/flow_engine.py:509-585 | in every reachable state a run being completed can still be completed iff no journal row carries its operation and its work item has neither failed nor been completed otherwise |
| FlowExamples.ReusedOperationArises | src/agentic_mesh_v5/flow_engine.py:301-387 | a run from nothing in which two work items open transitions under one operation id, one is committed, and the other can never move again |
| FlowSafety.CompletedRunFinishedItsWork | src/agentic_mesh_v5/flow_engine.py:548-585 | a completed run's work item is completed for the fixed reason with the evidence the run's last row records |
| FlowSafety.OwnersAgree | src/agentic_mesh_v5/flow_engine.py:457-468 | a run's owner, the owner of its current state and the role of its work item are always one |
| HandoffKeys.KeyReadsBack | src/agentic_mesh_v5/flow_engine.py:354 | for one work item the idempotency key tells version and route |
| HandoffKeys.KeysCollideExactly | src/agentic_mesh_v5/flow_engine.py:354 | keys of two work items collide iff one id carries on with the other's version and the start of its route; the routes then differ |
| HandoffKeys.KeysDoCollide | src/agentic_mesh_v5/flow_engine.py:354 | two work items, versions and routes with one key |
| HandoffKeys.HandoffsAreNeverShared | src/agentic_mesh_v5/handoffs.py:154-164 | although keys can collide, no two journalled transitions ever share a handoff, because the second offer meets another fingerprint |
| FlowDatabase.Database.AddObligations | src/agentic_mesh_v5/flow_engine.py:641-659 | the insert loop leaves exactly the specified rows |
| FlowDatabase.Database.Start | src/agentic_mesh_v5/flow_engine.py:91-185 | answers a replay, refuses, or starts the run: which of these, with the whole new state, for every call |
| FlowDatabase.Database.Dispatch | src/agentic_mesh_v5/flow_engine.py:187-262 | queues the obligation's work and marks it dispatched, or changes nothing |
| FlowDatabase.Database.BeginTransition | src/agentic_mesh_v5/flow_engine.py:289-348 | answers a replay, resumes or opens the transition on the one route that can be selected, or changes nothing when none of these is possible |
| FlowDatabase.Database.OfferTransition | src/agentic_mesh_v5/flow_engine.py:349-362 | the second transaction: the handoff made or found, or nothing changed |
| FlowDatabase.Database.CommitTransition | src/agentic_mesh_v5/flow_engine.py:363-387 | journals the transition once; a call that comes late answers with what was journalled |
| FlowDatabase.Database.PrepareTransition | src/agentic_mesh_v5/flow_engine.py:264-393 | the three transactions in turn: success means this very request is in the journal, failure that nothing was journalled; a row journalled is this run made pending, and no other run changes |
| FlowDatabase.Database.PickupTransition | src/agentic_mesh_v5/flow_engine.py:395-489 | enters the target state with its obligations and work owner, or changes nothing |
| FlowDatabase.Database.BeginCompletion | src/agentic_mesh_v5/flow_engine.py:509-547 | holds the run for completion, finds it held, answers a replay, or changes nothing |
| FlowDatabase.Database.CommitCompletion | src/agentic_mesh_v5/flow_engine.py:563-585 | completes the run only when its work item was seen completed with the same evidence |
| FlowDatabase.Database.CompleteRun | src/agentic_mesh_v5/flow_engine.py:491-585 | a whole completion: success means this very request is in the journal, failure that nothing was journalled; a row journalled is this run completed, and no other run changes |
| FlowDatabase.Database.Satisfy | src/agentic_mesh_v5/governance.py:546-563 | satisfies an obligation exactly when it is pending |
| FlowDatabase.Database.VerifyArtifact | src/agentic_mesh_v5/governance.py:64-136 | stores the verification and satisfies the artifact, replays it, or changes nothing |
| FlowDatabase.Database.RecordConsultation | src/agentic_mesh_v5/governance.py:138-201 | stores the consultation, replays it, or changes nothing |
| FlowDatabase.Database.DecideGate | src/agentic_mesh_v5/governance.py:203-320 | stores the decision with its effects on gate and impact, replays it, or changes nothing |
| FlowDatabase.Database.Offer | src/agentic_mesh_v5/handoffs.py:146-254 | makes the handoff, finds the same one, or changes nothing |
| FlowDatabase.Database.Claim | src/agentic_mesh_v5/handoffs.py:256-304 | claims the handoff, confirms the caller already holds it, or changes nothing |
| FlowDatabase.Database.Accept | src/agentic_mesh_v5/handoffs.py:306-343 | accepts the handoff under its claiming lease, confirms it, or changes nothing |
| ReleaseProtocol.DeployedRegistry | src/agentic_mesh_v5/immutable_releases.py:443-480 | committing a deployment puts the candidate's release in service and retires the one that was, so that at most one is in service and it carries the registered image |
| ReleaseProtocol.PhasesMoveForward | src/agentic_mesh_v5/immutable_releases.py:502-532 | the phases of one operation move strictly forward |
| ReleaseProtocol.RejectedNeverDeploys | src/agentic_mesh_v5/immutable_releases.py:181-201 | a rejected operation never called deploy |
| ReleaseProtocol.RollingBackNeverDeploysCandidate | src/agentic_mesh_v5/immutable_releases.py:397-429 | once an operation rolls back it deploys only the image it replaced, never its candidate |
| ReleaseProtocol.CandidateDeployedOverPrevious | src/agentic_mesh_v5/immutable_releases.py:374-382 | a candidate is deployed only right after the image it replaces was seen running and healthy |
| ReleaseProtocol.OnlyDeployedMovesBoundary | src/agentic_mesh_v5/immutable_releases.py:431-486 | the registered image moves only in the step that ends an operation as deployed, from the replaced image to the candidate just seen running and healthy |
| ReleaseProtocol.DeployedSound | src/agentic_mesh_v5/immutable_releases.py:443-480 | committing a deployment keeps the history sound and one release in service |
| ReleaseProtocol.PrepareSound | src/agentic_mesh_v5/immutable_releases.py:246-348 | preparing a candidate keeps it sound: a stored release is never overwritten and no two share an image |
| ReleaseProtocol.OverlapCanDrift | src/agentic_mesh_v5/immutable_releases.py:374-394 | two overlapping operations under a truthful driver: the second deploys, verifies and registers its image, and the first, resumed, restores the old one and ends rolled back, so that the running image is not the registered one |
| ImmutableReleases.ReleaseCoordinator.Start | src/agentic_mesh_v5/immutable_releases.py:147-179 | inserts the attempt or finds it; another revision under its id is refused |
| ImmutableReleases.ReleaseCoordinator.Prepare | src/agentic_mesh_v5/immutable_releases.py:203-351 | when everything answers, succeeds iff the candidate and the registered image both fit the schema, the registered image is seen running and healthy, the candidate differs from it, and its release can be stored |
| ImmutableReleases.ReleaseCoordinator.Build | src/agentic_mesh_v5/immutable_releases.py:181-201 | ends in deploying or rejected, whatever the builder and driver do; when everything answers, in deploying iff the candidate may replace the image that runs |
| ImmutableReleases.ReleaseCoordinator.Deployed | src/agentic_mesh_v5/immutable_releases.py:431-486 | moves the boundary from the replaced image to the candidate, or changes nothing; never when another image is registered |
| ImmutableReleases.ReleaseCoordinator.Rollback | src/agentic_mesh_v5/immutable_releases.py:397-429 | ends rolled back only when the replaced image was seen running and healthy, and failed otherwise |
| ImmutableReleases.ReleaseCoordinator.Upgrade | src/agentic_mesh_v5/immutable_releases.py:109-132 | returns only terminal statuses, and always returns when everything answers; a new operation is then rejected iff its candidate may not replace the image that runs, and deployed, with the candidate running and registered, if a truthful driver tells of health only; with a truthful driver the running image is the registered one on deployed, and on rolled back iff the registration was not moved meanwhile |
| PackageGraph.SortedExact | src/agentic_mesh_v5/package_resolver.py:241 | the sorted set holds exactly the requested references, in order and once each |
| PackageGraph.SortedUnique | src/agentic_mesh_v5/package_resolver.py:114-115 | there is one way to sort references by kind and text |
| PackageGraph.VisitGuarantees | src/agentic_mesh_v5/package_resolver.py:245-259 | a visit that ends well finishes packages after what they depend on and reaches nothing else; one that fails names a real cycle or a package that does not load |
| PackageGraph.FinishingExact | src/agentic_mesh_v5/package_resolver.py:245-262 | the walk succeeds iff the closure of the roots loads and has no cycle, and then finishes exactly the closure, once each, dependencies first |
| PackageGraph.ByKindExact | src/agentic_mesh_v5/package_resolver.py:264-272 | the final order holds the same packages, kinds in precedence order and finishing order within a kind |
| PackageResolver.TextsInOrder | src/agentic_mesh_v5/package_resolver.py:276-290 | the text sections are the text files, each once, each after exactly as many sections as there are text files before it in the order of the packages and of their content |
| PackageResolver.Resolver.Visit | src/agentic_mesh_v5/package_resolver.py:245-259 | the walk over the mutable lists computes the specified visit, cycle included |
| PackageResolver.Resolver.Resolve | src/agentic_mesh_v5/package_resolver.py:232-308 | the whole resolution computes the specified result |
| PackageResolver.ResolutionExact | src/agentic_mesh_v5/package_resolver.py:241-272 | for every request: refused iff the closure does not load or has a cycle, which it then names; otherwise exactly the closure, kinds in order, dependencies first within a kind |
| PackageResolver.RequestOrderIsIrrelevant | src/agentic_mesh_v5/package_resolver.py:241 | permuting or repeating the requested references changes nothing |
| PackageResolver.SettingsDecidedByLast | src/agentic_mesh_v5/package_resolver.py:273-292 | every key path of the resolved settings holds what the settings file at the last position to touch it holds, last among the resolved packages and then within its package, and nothing if none touches it |
| Fleet.BusyExceedsExactly | src/agentic_mesh_v5/fleet.py:316-319 | the busy count exceeds the running count iff more instances are busy without running than run without being busy |
| Fleet.BusyCanExceedRunning | src/agentic_mesh_v5/fleet.py:567-589 | a pool in which it does, since the running test covers only the first of the three reasons |
| FleetScaler.RoleFleet.TransitionCandidates | src/agentic_mesh_v5/fleet.py:406-482 | takes distinct eligible unlocked instances in order, as many as wanted and available, each under a fresh action id, and changes no other row |
| Fleet.WantedExact | src/agentic_mesh_v5/fleet.py:326-342 | capacity is wanted iff there is room and the warm minimum is not met, or work is ready for an empty role, or more work is ready than instances are free and the oldest has waited long enough; what is wanted is what the minimum lacks, or one |
| FleetScaler.RoleFleet.Plan | src/agentic_mesh_v5/fleet.py:286-388 | answers with what is already in transition, or takes exactly what the policy asks; running plus starting never passes the larger of what it was and the maximum, running never falls below the smaller of what it was and the warm minimum |
| FleetScaler.PlanExact | src/agentic_mesh_v5/fleet.py:291-363 | what a plan does for a role with nothing in transition: how many it wakes of those at rest, or puts to rest of those idle for the whole grace period, longest idle first, or nothing |
| FleetScaler.PendingExact | src/agentic_mesh_v5/fleet.py:365-388 | for a role with something in transition, a plan answers with exactly that, each instance once under its token |
| FleetScaler.HibernatesIdle | src/agentic_mesh_v5/fleet.py:418-424 | only instances that run, are not busy for any of the three reasons, and have been idle for the grace period are put to rest |
| FleetScaler.RoleFleet.Complete | src/agentic_mesh_v5/fleet.py:484-540 | completes an action iff its instance still holds it, each action id at most once, conserving running plus starting |
| FleetScaler.RoleFleet.RecordFailure | src/agentic_mesh_v5/fleet.py:542-565 | records a failure iff the instance still holds the action, and changes no count |
| FleetScaler.RoleFleet.Reconcile | src/agentic_mesh_v5/fleet.py:215-240 | one reconciliation keeps the bounds and finishes no action id twice |
| ConfigActivation.ChangedReads | src/agentic_mesh_v5/config_activation.py:250-275 | a state written after a readable one is readable, keeps every event, and moves to another digest |
| ConfigActivation.ActiveIsTarget | src/agentic_mesh_v5/config_activation.py:385-390 | the active digest is the target of an event |
| ConfigActivation.ActivationStore.ReadState | src/agentic_mesh_v5/config_activation.py:323-391 | the record is returned unchanged iff its events are numbered, link up and lead to the active digest |
| ConfigActivation.ActivationStore.ChangeActive | src/agentic_mesh_v5/config_activation.py:231-275 | which error or which new record, for every call; the history only grows |
| ConfigActivation.ActivationStore.Rollback | src/agentic_mesh_v5/config_activation.py:214-229 | a rollback needs a reason and something active, and it too only adds to the history |
| ConfigPromotions.HistoryOnlyGrows | src/agentic_mesh_v5/config_activation.py:246-275 | in every run the record stays readable, consecutive targets differ, and the history only grows |
| ConfigPromotions.ActivatedIsApproved | src/agentic_mesh_v5/config_promotions.py:241-280 | a draft marked activated is validated and approved, and the release it was promoted under is a target of the history |
| ConfigPromotions.ActivatedAsValidated | src/agentic_mesh_v5/config_promotions.py:241-280 | in every run in which a draft's references resolve to one digest whenever they resolve, an activated draft's validated digest is that one, is what it was promoted as, and is in the history, across crashes, retries and interleavings |
| ConfigPromotions.MarkedAsValidatedExactly | src/agentic_mesh_v5/config_promotions.py:248-262 | a call that marks its draft made its release at an earlier step and activated it at a later one; unless it was there before, the validated digest enters the history there iff the packages still resolved to it when the release was made |
| ConfigPromotions.ChangedContentIsPromoted | src/agentic_mesh_v5/config_promotions.py:248-251 | from any approved draft a change of content between the two resolutions marks it activated without its validated digest ever entering the history |
| ConfigPromotions.ChangedContentArises | src/agentic_mesh_v5/config_promotions.py:248-251 | such a run from nothing |
| ConfigPromotions.RetryAfterCrash | src/agentic_mesh_v5/config_promotions.py:241-280 | a call that crashed between activating and marking is finished by another without a second event |
| PromotionStore.Store.Create | src/agentic_mesh_v5/config_promotions.py:73-114 | creates the draft, finds the same one, or refuses, and which |
| PromotionStore.Store.Validate | src/agentic_mesh_v5/config_promotions.py:120-190 | validates against the unchanged baseline, replays the same validation, or changes nothing |
| PromotionStore.Store.Decide | src/agentic_mesh_v5/config_promotions.py:192-239 | decides a draft that awaits it, replays the same decision, or changes nothing |
| PromotionStore.Store.Mark | src/agentic_mesh_v5/config_promotions.py:260-280 | marks the draft iff it is still the approved draft that was read |
| PromotionStore.Store.Activate | src/agentic_mesh_v5/config_promotions.py:241-280 | an undisturbed promotion of an approved draft succeeds iff its packages still resolve as validated and what is active is that release or the draft's baseline; it leaves the validated digest active and in the history |
| MilestonePublisher.InsertKeeps | src/agentic_mesh_v5/ado_progress.py:245-299 | recording a milestone under these checks keeps at most one pending, that one with the largest sequence, and the released sequences ascending |
| AdoProgress.ClosedNeedsReview | src/agentic_mesh_v5/ado_progress.py:529-545 | exactly which kind of milestone, with which evidence, asks for which state |
| AdoProgress.ChangesClimb | src/agentic_mesh_v5/ado_progress.py:66 | two of the publisher's changes with nothing between them climb one state at a time |
| MilestonePublisher.Publisher.Apply | src/agentic_mesh_v5/ado_adapter.py:399-405 | a patch is carried out iff the item is at the revision it tests for, and then moves it from the predecessor state to the target |
| MilestonePublisher.Publisher.Patch | src/agentic_mesh_v5/ado_adapter.py:392-467 | retries after lost answers never change the item except so |
| MilestonePublisher.Publisher.ApplyUpdate | src/agentic_mesh_v5/ado_adapter.py:326-377 | an update succeeds only with a revision at which the item was in the target state; undisturbed, it moves an item in the expected state, finds one in the target state, and conflicts with any other |
| MilestonePublisher.Publisher.Start | src/agentic_mesh_v5/ado_progress.py:234-305 | the same milestone is found, a stale one suppressed, a new one recorded as pending only when none is |
| MilestonePublisher.Publisher.PublishPending | src/agentic_mesh_v5/ado_progress.py:351-408 | undisturbed, the item is moved iff it is in the predecessor state, and the disposition says which of the four cases it was; over any script, a state is preserved without an attempt only if it was neither target nor predecessor |
| MilestonePublisher.Publisher.Publish | src/agentic_mesh_v5/ado_progress.py:208-224 | over edits, lost answers and crashes, sequences are released in strictly increasing order and every state change is by hand or from predecessor to target at the revision read; undisturbed, a new milestone settles as its target and the item's state say |
| MilestonePublisher.ReleaseOne | src/agentic_mesh_v5/ado_progress.py:410-444 | publishing the pending milestone extends the released sequences in strictly increasing order |
| DocumentTree.SampleStays | src/agentic_mesh_v5/import_discovery.py:390-396 | inserting and dropping keeps the sample the sorted list of the smallest paths seen |
| DocumentTree.TakeTallies | src/agentic_mesh_v5/import_discovery.py:363-396 | one more item keeps every total, the latest time, the path sets and the sample exact |
| ImportDiscovery.TakePage | src/agentic_mesh_v5/import_discovery.py:367-396 | a page is taken in full, or to the limit, or has an item that clashes with an earlier one |
| ImportDiscovery.ListFolder | src/agentic_mesh_v5/import_discovery.py:361-404 | a folder's pages are followed to the end, or to the limit, or something in it clashes or its cursors repeat |
| ImportDiscovery.WalkedAll | src/agentic_mesh_v5/import_discovery.py:358-404 | when the queue is empty the folders listed are exactly those of the tree |
| ImportDiscovery.Inspect | src/agentic_mesh_v5/import_discovery.py:351-421 | a well-formed tree always yields an inventory, complete iff it lists no more items than the limit; totals, latest time and sample are exact, each folder is listed once, and one cut short counts exactly the limit |
| AdvisoryLocks.LockTable.Lock | src/agentic_mesh_v5/git_worktrees.py:606-610 | takes the distinct keys in order, up to the first that another session holds |
| AdvisoryLocks.LockTable.Unlock | src/agentic_mesh_v5/git_worktrees.py:613-617 | releasing them in reverse restores the table, even where keys share a lock number |
| AdvisoryLocks.NoCircularWait | src/agentic_mesh_v5/git_worktrees.py:132-137 | no run of sessions that lock keys of a finite set in sorted order comes to a circular wait, if in that set no source's lock number is shared by a key past a source of another number |
| AdvisoryLocks.SomeSessionGoesOn | src/agentic_mesh_v5/git_worktrees.py:211-217 | then some session is never waiting for another |
| AdvisoryLocks.InjectiveIsUnfolded | src/agentic_mesh_v5/git_worktrees.py:608-610 | a hash without collisions among those keys satisfies that condition |
| AdvisoryLocks.DeadlockFreeExactly | src/agentic_mesh_v5/git_worktrees.py:606-617 | for any hash and any finite set of keys with a workspace's among them, no run over those keys deadlocks iff that condition holds |
| AdvisoryLocks.FoldedKeysDeadlock | src/agentic_mesh_v5/git_worktrees.py:608-610 | two sessions that deadlock over any three keys for which it does not |
| AdvisoryLocks.CleanupKeysCover | src/agentic_mesh_v5/git_worktrees.py:211-217 | a cleanup that holds its keys holds those of every source its workspace has when it reads them again |
| AdvisoryLocks.WorkingSessionsApart | src/agentic_mesh_v5/git_worktrees.py:606-610 | no two sessions that hold all their keys share a workspace or a source |

## Left out

- FlowDatabase.Database.Offer: the source reads the clock for the lease check and again for the offer and queue times; the model reads it once for the first two and once more for the last.
- FlowDatabase.Database.Claim: the source reads the clock for each of its three checks and updates; the model reads it once.
- FlowDatabase.Database.PrepareTransition: is one call with nothing between its transactions; interleaved calls are covered by the theorems about runs.
- FlowDatabase.Database.CompleteRun: likewise.
- FlowDatabase.Database.VerifyArtifact: which of several refusals is raised when more than one applies is not specified, here and for the other governance and handoff calls.
- FlowSteps.SponsorKeeps: opening, timing out and routing of sponsor approvals are not modelled; the decision is one step on the tables shared with the flow.
- FlowSteps.EnvironmentKeeps: the lifecycle, queue, routing, lease and fleet stores are one step that keeps work item roles, finished work items, lease ownership and queue items; that these stores do no more is an assumption.
- ImmutableReleases.ReleaseCoordinator.Upgrade: the project lock is taken to serialise calls within a process's life; two processes that both believe they hold it are not modelled.
- ImmutableReleases.ReleaseCoordinator.Prepare: evidence, error texts, audit records and the recorded schema range of the previous image are left out.
- FlowProgress.CompletionCanFinishExactly: says what some continuation can do; that a retry is made, and that no unresolved failure incident then blocks the kernel, is up to the callers.
- PackageResolver.Resolver.Resolve: provenance entries and the configuration digest of the result are left out; they list the same packages in the same order.
- PackageGraph.FinishingExact: every way a manifest can fail to load is one failure; manifest parsing and path checks are not modelled.
- FleetScaler.RoleFleet.Plan: one role of one project; the policy, the queue counts and the set of rows other sessions have locked are arguments, and seconds are whole numbers.
- FleetScaler.RoleFleet.Reconcile: the other reconcilers' steps come before or after, not between, its own; each of its transactions alone is free to race.
- ConfigActivation.ActivationStore.ReadState: types, field sets and JSON decoding of the file are left out, and only four whitespace characters are stripped.
- PromotionStore.Store.Validate: the resolved configuration, the structural diff and the behavioural guardrails are left out.
- PromotionStore.Store.Activate: is the undisturbed call; interleaved ones are covered by the runs of ConfigPromotions.
- MilestonePublisher.Publisher.PublishPending: the comment is a request without its search for an earlier marker; at most one comment is not claimed.
- MilestonePublisher.Publisher.ApplyUpdate: a service that accepts a patch and then alters the field is not modelled, nor are authentication and decoding errors.
- ImportDiscovery.Inspect: items whose size is not an integer cannot be written down; store failures are missing pages.
- AdvisoryLocks.CleanupKeysCover: worktrees, branches and Git itself are not modelled.
- One project is modelled throughout: every key of the source also carries the project id.
- Event journal entries, audit records, actor columns, timestamps as texts, obligation evidence columns and flow purposes are left out.
- SQL text, connections, isolation levels below one atomic transaction, JSON encoding, identifier patterns and secret filters are left out.
- HTTP routing, the command line, dashboards, document stores, worker providers, database operations, imports' previews and recovery control are left out: they are plumbing, small classifiers, or weaker instances of the patterns here.
