/** What the handoffs and the three-phase calls guarantee over whole runs. */
module FlowSafety {
  import opened Wrappers
  import opened Json
  import opened FlowDefinition
  import opened FlowTables
  import opened FlowInvariants
  import opened FlowPreservation
  import opened FlowSteps
  import opened FlowRuns
  import opened FlowJournal

  // ---- Handoffs ----

  /** A handoff row goes on: the same, or claimed or accepted by this step. */
  ghost predicate HandoffMoves(s: System, step: Step, s': System, h: Id) {
    && h in s'.handoffs
    && ((h in s.handoffs && s'.handoffs[h] == s.handoffs[h])
        || (exists lease, token, at :: step == Handoffs(ClaimHandoff(h, lease, token, at))
              && CanClaim(s, h, lease, token, at) && s' == ClaimMade(s, h, lease, token, at))
        || (exists lease, token, at :: step == Handoffs(AcceptHandoff(h, lease, token, at))
              && CanAccept(s, h, lease, token, at) && s' == AcceptMade(s, h, lease, token, at)))
  }

  lemma NewHandoff(s: System, draft: HandoffOffer, at: nat, later: nat)
    requires CanOffer(s, draft, at, later) && draft.key !in s.handoffs
    ensures HandoffFor(s, draft, at, later).status == Offered
    ensures NewOffer(s, draft, at, later).handoffs == s.handoffs[draft.key := HandoffFor(s, draft, at, later)]
  {
    hide CanOffer, Routed, HandoffDraft, FingerprintOf;
  }

  lemma OfferMoves(s: System, draft: HandoffOffer, at: nat, later: nat, h: Id)
    requires CanOffer(s, draft, at, later)
    ensures h in s.handoffs ==> h in OfferMade(s, draft, at, later).handoffs
                                && OfferMade(s, draft, at, later).handoffs[h] == s.handoffs[h]
    ensures h in OfferMade(s, draft, at, later).handoffs && h !in s.handoffs ==>
              OfferMade(s, draft, at, later).handoffs[h].status == Offered
  {
    hide CanOffer, NewOffer, HandoffFor;
    if draft.key !in s.handoffs {
      NewHandoff(s, draft, at, later);
    }
  }

  lemma EngineHandoffs(s: System, step: EngineStep, s': System, h: Id)
    requires EngineTakes(s, step, s')
    ensures h in s.handoffs ==> h in s'.handoffs && s'.handoffs[h] == s.handoffs[h]
    ensures h in s'.handoffs && h !in s.handoffs ==> s'.handoffs[h].status == Offered
  {
    hide AcceptedFlow, CanStart, CanDispatch, CanOpen, CanResume, CanCommit, CanPickup, CanOpenCompletion,
      CanResumeCompletion, CanRead, CanTry, CanCommitCompletion, CanOffer, TransitionKey, OfferMade;
    if step.OfferTransition? {
      OfferMoves(s, TransitionOffer(s.prepares[step.c]), step.at, step.later, h);
    }
  }

  lemma HandoffStepMoves(s: System, step: HandoffStep, s': System, h: Id)
    requires HandoffTakes(s, step, s')
    ensures h in s.handoffs ==> HandoffMoves(s, Handoffs(step), s', h)
    ensures h in s'.handoffs && h !in s.handoffs ==> s'.handoffs[h].status == Offered
  {
    hide CanOffer, OfferMade, TargetLease;
    if step.OfferHandoff? {
      OfferMoves(s, step.draft, step.at, step.later, h);
    }
  }

  lemma StepHandoff(s: System, step: Step, s': System, h: Id)
    requires Takes(s, step, s')
    ensures h in s.handoffs ==> HandoffMoves(s, step, s', h)
    ensures h in s'.handoffs && h !in s.handoffs ==> s'.handoffs[h].status == Offered
  {
    hide EngineTakes, GovernanceTakes, HandoffTakes, CanClaim, CanAccept;
    match step
    case Engine(e) => EngineHandoffs(s, e, s', h);
    case Governance(g) => GovernanceKeepsRuns(s, g, s');
    case Handoffs(x) => HandoffStepMoves(s, x, s', h);
    case Elsewhere =>
  }

  /** An accepted handoff stays exactly as it is. */
  lemma {:induction false} AcceptedIsAbsorbing(trace: seq<System>, steps: seq<Step>, i: nat, j: nat, h: Id)
    requires IsRun(trace, steps) && i <= j < |trace|
    requires h in trace[i].handoffs && trace[i].handoffs[h].status == Accepted
    ensures h in trace[j].handoffs && trace[j].handoffs[h] == trace[i].handoffs[h]
    decreases j
  {
    hide Takes, TargetLease;
    if i < j {
      AcceptedIsAbsorbing(trace, steps, i, j - 1, h);
      StepHandoff(trace[j - 1], steps[j - 1], trace[j], h);
    }
  }

  lemma ClaimNeedsDeadLease(s: System, h: Id, lease: Id, token: string, at: nat)
    requires CanClaim(s, h, lease, token, at)
    ensures h in s.handoffs && ClaimMade(s, h, lease, token, at).now == at
    ensures s.handoffs[h].status == Claimed && s.handoffs[h].targetLease.Some? ==>
              !LeaseLive(s, s.handoffs[h].targetLease.value, at)
  {
    hide TargetLease, LeaseLive;
  }

  lemma AcceptKeepsLease(s: System, h: Id, lease: Id, token: string, at: nat)
    requires CanAccept(s, h, lease, token, at)
    ensures h in s.handoffs && s.handoffs[h].targetLease == Some(lease)
    ensures AcceptMade(s, h, lease, token, at).handoffs[h].targetLease == Some(lease)
    ensures AcceptMade(s, h, lease, token, at).handoffs[h].status == Accepted
  {
    hide TargetLease;
  }

  /** Another lease takes a claimed handoff over only once the claiming lease is released or has expired. */
  lemma LiveClaimIsNeverDisplaced(s: System, step: Step, s': System, h: Id, lease: Id)
    requires Takes(s, step, s') && h in s.handoffs
    requires s.handoffs[h].status == Claimed && s.handoffs[h].targetLease == Some(lease) && LeaseLive(s, lease, s'.now)
    ensures h in s'.handoffs && s'.handoffs[h].targetLease == Some(lease) && s'.handoffs[h].status in {Claimed, Accepted}
  {
    hide Takes, CanClaim, CanAccept, LeaseLive, ClaimMade, AcceptMade;
    StepHandoff(s, step, s', h);
    if s'.handoffs[h] != s.handoffs[h] {
      match step
      case Handoffs(ClaimHandoff(_, l, token, at)) => ClaimNeedsDeadLease(s, h, l, token, at);
      case Handoffs(AcceptHandoff(_, l, token, at)) => AcceptKeepsLease(s, h, l, token, at);
    }
  }

  /** The times of a handoff are in order: offered, queued, claimed, accepted. */
  lemma HandoffTimesAreOrdered(trace: seq<System>, steps: seq<Step>, n: nat, h: Id)
    requires IsRun(trace, steps) && n < |trace| && h in trace[n].handoffs
    ensures var handoff := trace[n].handoffs[h];
      && handoff.offeredAt <= handoff.queuedAt
      && (handoff.status == Offered <==> handoff.claimedAt.None?)
      && (handoff.status == Accepted <==> handoff.acceptedAt.Some?)
      && (handoff.claimedAt.Some? ==> handoff.queuedAt <= handoff.claimedAt.value)
      && (handoff.acceptedAt.Some? ==> handoff.claimedAt.Some? && handoff.claimedAt.value <= handoff.acceptedAt.value)
  {
    hide IsRun, FlowsOk, RunsOk, PendingOk, ObligationsOk, RecordsOk, PreparesOk, CompletionsOk, WorksOk, RowHandoffsOk;
    AlwaysInv(trace, steps, n);
    assert HandoffOk(trace[n].handoffs[h], trace[n].now);
  }

  /** A running instance of the role accepts the handoff at this time, under a live lease on its queue item. */
  ghost predicate AcceptsFor(s: System, h: Id, lease: Id, at: nat, role: Id) {
    && h in s.handoffs && s.handoffs[h].targetRole == role && s.handoffs[h].targetLease == Some(lease)
    && LeaseLive(s, lease, at) && s.leases[lease].item == s.handoffs[h].item
    && s.leases[lease].owner in s.instances && s.instances[s.leases[lease].owner] == Instance(role, true)
  }

  lemma AcceptanceIsLive(s: System, h: Id, lease: Id, token: string, at: nat)
    requires CanAccept(s, h, lease, token, at)
    ensures h in s.handoffs && AcceptsFor(s, h, lease, at, s.handoffs[h].targetRole)
    ensures AcceptMade(s, h, lease, token, at).handoffs[h].targetRole == s.handoffs[h].targetRole
  {}

  /** Every accepted handoff was accepted by a step that held a live lease. */
  lemma {:induction false} AcceptedEarlier(trace: seq<System>, steps: seq<Step>, n: nat, h: Id)
    returns (j: nat, lease: Id, token: string, at: nat)
    requires IsRun(trace, steps) && n < |trace| && h in trace[n].handoffs && trace[n].handoffs[h].status == Accepted
    ensures j < n && steps[j] == Handoffs(AcceptHandoff(h, lease, token, at))
    ensures AcceptsFor(trace[j], h, lease, at, trace[n].handoffs[h].targetRole)
    ensures trace[n].handoffs[h].acceptedAt == Some(at)
    decreases n
  {
    hide Takes, AcceptsFor, TargetLease, CanAccept, CanClaim;
    assert n > 0;
    var s := trace[n - 1];
    StepHandoff(s, steps[n - 1], trace[n], h);
    if h in s.handoffs && s.handoffs[h] == trace[n].handoffs[h] {
      j, lease, token, at := AcceptedEarlier(trace, steps, n - 1, h);
    } else {
      j := n - 1;
      lease, token, at :| steps[j] == Handoffs(AcceptHandoff(h, lease, token, at))
              && CanAccept(s, h, lease, token, at) && trace[n] == AcceptMade(s, h, lease, token, at);
      AcceptanceIsLive(s, h, lease, token, at);
    }
  }

  // ---- Runs ----

  /** How a step may change an existing run. */
  ghost predicate RunMoves(s: System, step: EngineStep, s': System, w: Id)
    requires w in s.runs
  {
    && w in s'.runs
    && match step
       case OpenTransition(_, call) => call.work == w && s.runs[w].status == Active && s'.runs[w].status == HandoffPreparing
       case OpenCompletion(_, call) => call.work == w && s.runs[w].status == Active && s'.runs[w].status == CompletionPreparing
       case CommitTransition(c) =>
         c in s.prepares && s.prepares[c].work == w && CanCommit(s, c)
         && s'.runs[w].status == HandoffPending && s'.runs[w].version == s.runs[w].version + 1
       case PickupTransition(work, expected, actor, operation) =>
         work == w && CanPickup(s, w, expected, actor, operation) && s'.runs[w].status == Active
         && Some(s'.runs[w].currentState) == s.runs[w].pendingTarget
       case CommitCompletion(c) =>
         c in s.completions && s.completions[c].work == w && CanCommitCompletion(s, c)
         && s'.runs[w].status == Completed && s'.runs[w].version == s.runs[w].version + 1
       case _ => false
  }

  lemma StartMoves(s: System, work: Id, flow: Flow, fields: Fields, actor: Id, operation: Id, w: Id)
    requires CanStart(s, work, flow, fields, actor, operation) && w in s.runs
    ensures var s' := Started(s, work, flow, fields, actor, operation); w in s'.runs && s'.runs[w] == s.runs[w]
  {
    hide ReplayOf, InsertObligations, Append;
  }

  lemma OpenMoves(s: System, c: nat, call: PrepareCall, w: Id)
    requires CanOpen(s, call) && w in s.runs
    ensures var s' := Opened(s, c, call);
      w in s'.runs && (s'.runs[w] == s.runs[w] || RunMoves(s, OpenTransition(c, call), s', w))
  {
    hide ReplayOf, AllDischarged, MergedFields, FlowState.SelectRoute;
  }

  lemma CommitMoves(s: System, c: nat, w: Id)
    requires CanCommit(s, c) && w in s.runs
    ensures var s' := Committed(s, c);
      w in s'.runs && (s'.runs[w] == s.runs[w] || RunMoves(s, CommitTransition(c), s', w))
  {
    hide ReplayOf, Append;
  }

  lemma PickupMoves(s: System, work: Id, expected: nat, actor: Id, operation: Id, w: Id)
    requires CanPickup(s, work, expected, actor, operation) && w in s.runs
    requires forall x | x in s.runs[w].flow.states :: s.runs[w].flow.states[x].stateId == x
    ensures var s' := PickedUp(s, work, expected, actor, operation);
      w in s'.runs && (s'.runs[w] == s.runs[w] || RunMoves(s, PickupTransition(work, expected, actor, operation), s', w))
  {
    hide ReplayOf, InsertObligations, Append;
  }

  lemma OpenCompletionMoves(s: System, c: nat, call: CompleteCall, w: Id)
    requires CanOpenCompletion(s, call) && w in s.runs
    ensures var s' := CompletionOpened(s, c, call);
      w in s'.runs && (s'.runs[w] == s.runs[w] || RunMoves(s, OpenCompletion(c, call), s', w))
  {
    hide ReplayOf, AllDischarged;
  }

  lemma CompletionMoves(s: System, c: nat, w: Id)
    requires CanCommitCompletion(s, c) && w in s.runs
    ensures var s' := CompletionCommitted(s, c);
      w in s'.runs && (s'.runs[w] == s.runs[w] || RunMoves(s, CommitCompletion(c), s', w))
  {
    hide ReplayOf, Append, Finished;
  }

  /** A run changes only by the five moves of its own calls. */
  lemma EngineMoves(s: System, step: EngineStep, s': System, w: Id)
    requires EngineTakes(s, step, s') && ChangesRuns(step) && w in s.runs
    requires forall x | x in s.runs[w].flow.states :: s.runs[w].flow.states[x].stateId == x
    ensures w in s'.runs && (s'.runs[w] == s.runs[w] || RunMoves(s, step, s', w))
  {
    hide AcceptedFlow, Started, Opened, Committed, PickedUp, CompletionOpened, CompletionCommitted, RunMoves,
      CanStart, CanOpen, CanPickup, CanOpenCompletion, CanCommit, CanCommitCompletion, DispatchedTo, Resumed, OfferedFor,
      CompletionResumed, WorkRead, CompletionTried, CanDispatch, CanResume, CanOfferFor, CanRead, CanTry;
    match step
    case StartRun(work, flow, fields, actor, operation) => StartMoves(s, work, flow, fields, actor, operation, w);
    case OpenTransition(c, call) => OpenMoves(s, c, call, w);
    case CommitTransition(c) => CommitMoves(s, c, w);
    case PickupTransition(work, expected, actor, operation) => PickupMoves(s, work, expected, actor, operation, w);
    case OpenCompletion(c, call) => OpenCompletionMoves(s, c, call, w);
    case CommitCompletion(c) => CompletionMoves(s, c, w);
  }

  lemma StepMoves(s: System, step: Step, s': System, w: Id)
    requires Takes(s, step, s') && w in s.runs
    requires forall x | x in s.runs[w].flow.states :: s.runs[w].flow.states[x].stateId == x
    ensures w in s'.runs && (s'.runs[w] == s.runs[w] || (step.Engine? && RunMoves(s, step.engine, s', w)))
  {
    hide Takes, EngineTakes, RunMoves;
    if step.Engine? && ChangesRuns(step.engine) {
      EngineOf(s, step, s');
      EngineMoves(s, step.engine, s', w);
    } else {
      KeepsRuns(s, step, s');
    }
  }

  lemma StatesNamed(s: System, w: Id)
    requires Inv(s) && w in s.runs
    ensures forall x | x in s.runs[w].flow.states :: s.runs[w].flow.states[x].stateId == x
  {
    hide Inv, RunOk, StateAccepted, Reachable;
    RunOf(s, w);
  }

  /** While a transition or completion is being prepared, only the commit of its own operation and request moves the run. */
  lemma OnlyItsOperationAdvances(trace: seq<System>, steps: seq<Step>, n: nat, w: Id)
    requires IsRun(trace, steps) && n < |steps| && w in trace[n].runs
    requires trace[n].runs[w].status in {HandoffPreparing, CompletionPreparing}
    ensures w in trace[n + 1].runs
    ensures trace[n + 1].runs[w] == trace[n].runs[w]
            || (trace[n].runs[w].status == HandoffPreparing && trace[n + 1].runs[w].status == HandoffPending
                && steps[n].Engine? && steps[n].engine.CommitTransition? && steps[n].engine.c in trace[n].prepares
                && var call := trace[n].prepares[steps[n].engine.c];
                   call.work == w && SamePending(trace[n].runs[w], call.operation, call.Digest()))
            || (trace[n].runs[w].status == CompletionPreparing && trace[n + 1].runs[w].status == Completed
                && steps[n].Engine? && steps[n].engine.CommitCompletion? && steps[n].engine.c in trace[n].completions
                && var call := trace[n].completions[steps[n].engine.c];
                   call.work == w && SamePending(trace[n].runs[w], call.operation, call.Digest()))
  {
    hide Inv, Takes, RunOk, CanPickup;
    AlwaysInv(trace, steps, n);
    StatesNamed(trace[n], w);
    RunOf(trace[n], w);
    PendingNames(trace[n].runs[w], w, History(trace[n].journal, w));
    StepMoves(trace[n], steps[n], trace[n + 1], w);
    if trace[n + 1].runs[w] != trace[n].runs[w] {
      NotPickup(trace[n], steps[n].engine, trace[n + 1], w);
    }
  }

  lemma NotPickup(s: System, step: EngineStep, s': System, w: Id)
    requires w in s.runs && s.runs[w].status in {HandoffPreparing, CompletionPreparing} && RunMoves(s, step, s', w)
    ensures || (step.CommitTransition? && step.c in s.prepares && s.prepares[step.c].work == w
                && SamePending(s.runs[w], s.prepares[step.c].operation, s.prepares[step.c].Digest())
                && s'.runs[w].status == HandoffPending)
            || (step.CommitCompletion? && step.c in s.completions && s.completions[step.c].work == w
                && SamePending(s.runs[w], s.completions[step.c].operation, s.completions[step.c].Digest())
                && s'.runs[w].status == Completed)
  {
    hide ReplayOf, Finished;
  }

  lemma CommitIsFresh(s: System, step: EngineStep, s': System, w: Id)
    requires w in s.runs && s.runs[w].status in {HandoffPreparing, CompletionPreparing} && RunMoves(s, step, s', w)
    ensures s.runs[w].pendingOperation.Some?
    ensures forall row | row in s.journal :: Some(row.operation) != s.runs[w].pendingOperation
  {
    hide Finished, FindOperation;
    if step.CommitTransition? {
      FreshOperation(s.journal, s.prepares[step.c].operation, s.prepares[step.c].Digest());
    } else {
      FreshOperation(s.journal, s.completions[step.c].operation, s.completions[step.c].Digest());
    }
  }

  /** An operation id that another call journals first leaves a run that was preparing under it stuck for good:
      no later step of any run moves it, since the replay check refuses its own retries. */
  lemma {:induction false} ReusedOperationBlocks(trace: seq<System>, steps: seq<Step>, i: nat, j: nat, w: Id, row: JournalRow)
    requires IsRun(trace, steps) && i <= j < |trace| && w in trace[i].runs
    requires trace[i].runs[w].status in {HandoffPreparing, CompletionPreparing}
    requires row in trace[i].journal && trace[i].runs[w].pendingOperation == Some(row.operation)
    ensures w in trace[j].runs && trace[j].runs[w] == trace[i].runs[w]
    decreases j
  {
    hide Inv, Takes, RunMoves;
    if i < j {
      ReusedOperationBlocks(trace, steps, i, j - 1, w, row);
      JournalOnlyGrows(trace, steps, i, j - 1);
      assert row in trace[j - 1].journal;
      AlwaysInv(trace, steps, j - 1);
      StatesNamed(trace[j - 1], w);
      StepMoves(trace[j - 1], steps[j - 1], trace[j], w);
      if trace[j].runs[w] != trace[i].runs[w] {
        CommitIsFresh(trace[j - 1], steps[j - 1].engine, trace[j], w);
      }
    }
  }

  // ---- Entering a state ----

  /** A run becomes active in a state only by picking up a handoff that was accepted, at an earlier step, by a
      running instance of that state's owner role under a live lease on the handoff's queue item. */
  lemma EnteredAfterAcceptance(trace: seq<System>, steps: seq<Step>, n: nat, w: Id)
    returns (h: Id, j: nat, lease: Id, token: string, at: nat)
    requires IsRun(trace, steps) && n < |steps| && w in trace[n].runs && trace[n].runs[w].status != Active
    requires w in trace[n + 1].runs && trace[n + 1].runs[w].status == Active
    ensures var run := trace[n + 1].runs[w];
      && run.currentState in run.flow.states
      && j < n && steps[j] == Handoffs(AcceptHandoff(h, lease, token, at))
      && AcceptsFor(trace[j], h, lease, at, run.flow.states[run.currentState].ownerRole)
    ensures trace[n].runs[w].pendingHandoff == Some(h)
  {
    hide Inv, Takes, RunMoves, RunOk, AcceptsFor, RowHandoffsOk;
    AlwaysInv(trace, steps, n);
    var s, s' := trace[n], trace[n + 1];
    StatesNamed(s, w);
    StepMoves(s, steps[n], s', w);
    StepLater(s, steps[n], s');
    h := PickedUpHandoff(s, steps[n].engine, s', w);
    j, lease, token, at := AcceptedEarlier(trace, steps, n, h);
  }

  lemma PickedUpHandoff(s: System, step: EngineStep, s': System, w: Id) returns (h: Id)
    requires Inv(s) && w in s.runs && s.runs[w].status != Active && RunMoves(s, step, s', w)
    requires s'.runs[w].status == Active && s'.runs[w].flow == s.runs[w].flow
    ensures s.runs[w].pendingHandoff == Some(h) && h in s.handoffs && s.handoffs[h].status == Accepted
    ensures s'.runs[w].currentState in s.runs[w].flow.states
    ensures s.handoffs[h].targetRole == s.runs[w].flow.states[s'.runs[w].currentState].ownerRole
  {
    hide Inv, ReplayOf, RunsOk, RowHandoffsOk, TransitionPayload;
    h := s.runs[w].pendingHandoff.value;
    JournalOf(s);
    PendingHandoff(s.runs, s.journal, s.handoffs, w);
  }

  lemma JournalOf(s: System)
    requires Inv(s)
    ensures RunsOk(s.runs, s.journal) && RowHandoffsOk(s.runs, s.journal, s.handoffs)
  {
    hide FlowsOk, RunsOk, PendingOk, ObligationsOk, RecordsOk, PreparesOk, CompletionsOk, WorksOk, RowHandoffsOk, HandoffsOk;
  }


  // ---- Completing ----

  /** A completed run's work item is completed, for the fixed reason and with the evidence the run's last row records. */
  lemma CompletedRunFinishedItsWork(trace: seq<System>, steps: seq<Step>, n: nat, w: Id) returns (row: JournalRow)
    requires IsRun(trace, steps) && n < |trace| && w in trace[n].runs && trace[n].runs[w].status == Completed
    ensures row in trace[n].journal && row.work == w && row.action == Complete && row.sequence == trace[n].runs[w].version
    ensures w in trace[n].works && trace[n].works[w].status == WorkCompleted
    ensures trace[n].works[w].reason == COMPLETION_REASON && trace[n].works[w].evidence == row.evidence
    ensures row.sequence >= 1 && row.request == CompleteRequest(w, row.sequence - 1, row.actor, row.evidence)
  {
    hide IsRun, Inv, RunOk, AcceptedFlow, Finished;
    AlwaysInv(trace, steps, n);
    RunOf(trace[n], w);
    WorkOf(trace[n], w);
    row := CompleteRow(trace[n].runs[w], w, trace[n].journal);
    FinishedWork(trace[n].works[w], row.evidence);
  }

  lemma FinishedWork(work: Work, evidence: Fields)
    requires Finished(work, evidence)
    ensures work.status == WorkCompleted && work.reason == COMPLETION_REASON && work.evidence == evidence
  {}

  lemma CompleteRow(run: Run, w: Id, journal: Journal) returns (row: JournalRow)
    requires RunOk(run, w, History(journal, w)) && run.status == Completed
    ensures row in journal && row.work == w && row.action == Complete && row.sequence == run.version
    ensures History(journal, w) != [] && row == History(journal, w)[|History(journal, w)| - 1]
    ensures row.sequence >= 1 && row.request == CompleteRequest(w, row.sequence - 1, row.actor, row.evidence)
  {
    hide RouteTaken, History;
    var h := History(journal, w);
    row := h[|h| - 1];
    HistoryRows(journal, w);
    assert RowOk(run.flow, w, h, |h| - 1);
  }

  lemma WorkOf(s: System, w: Id)
    requires Inv(s) && w in s.runs
    ensures w in s.works && s.works[w].role == s.runs[w].owner
    ensures s.runs[w].status == Completed && History(s.journal, w) != [] ==>
              Finished(s.works[w], History(s.journal, w)[|History(s.journal, w)| - 1].evidence)
  {
    hide FlowsOk, RunsOk, PendingOk, ObligationsOk, RecordsOk, PreparesOk, CompletionsOk, RowHandoffsOk, HandoffsOk, Finished;
  }

  /** The owner of a run, the owner of its current state, and the role its work item is assigned to are one. */
  lemma OwnersAgree(trace: seq<System>, steps: seq<Step>, n: nat, w: Id)
    requires IsRun(trace, steps) && n < |trace| && w in trace[n].runs
    ensures var run := trace[n].runs[w];
      && run.currentState in run.flow.states && w in trace[n].works
      && run.owner == run.flow.states[run.currentState].ownerRole == trace[n].works[w].role
  {
    hide IsRun, Inv, HistoryOk, StatusOk, StateAfter, AcceptedFlow;
    AlwaysInv(trace, steps, n);
    RunOf(trace[n], w);
    WorkOf(trace[n], w);
  }
}
