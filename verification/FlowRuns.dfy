/** Whole runs of the flow tables: any interleaving of calls, retries and crashes. */
module FlowRuns {
  import opened Wrappers
  import opened Json
  import opened FlowDefinition
  import opened FlowTables
  import opened FlowInvariants
  import opened FlowPreservation
  import opened FlowSteps

  datatype EngineStep =
    | StartRun(work: Id, flow: Flow, fields: Fields, actor: Id, operation: Id)
    | DispatchAction(work: Id, kind: Kind, id: Id, actor: Id)
    | OpenTransition(c: nat, prepare: PrepareCall)
    | ResumeTransition(c: nat, prepare: PrepareCall)
    | OfferTransition(c: nat, at: nat, later: nat)
    | CommitTransition(c: nat)
    | PickupTransition(work: Id, expected: nat, actor: Id, operation: Id)
    | OpenCompletion(c: nat, completion: CompleteCall)
    | ResumeCompletion(c: nat, completion: CompleteCall)
    | ReadWork(c: nat)
    | TryWork(c: nat, blocked: bool)
    | CommitCompletion(c: nat)
    | Crash(c: nat)

  datatype GovernanceStep =
    | VerifyArtifact(work: Id, path: string, metadata: Metadata, actor: Id, recordId: Id)
    | RecordConsultation(work: Id, id: Id, decision: Decision, actor: Id, recordId: Id, reason: string, evidence: Fields)
    | DecideGate(work: Id, id: Id, decision: Decision, actor: Id, recordId: Id, reason: string, evidence: Fields,
                 impact: Option<string>, reviewed: Document)
    | SponsorGate(work: Id, id: Id, decision: Decision, actor: Id, recordId: Id, reason: string, evidence: Fields,
                  reviewed: Document)

  datatype HandoffStep =
    | OfferHandoff(draft: HandoffOffer, at: nat, later: nat)
    | ClaimHandoff(h: Id, lease: Id, token: string, at: nat)
    | AcceptHandoff(h: Id, lease: Id, token: string, at: nat)

  datatype Step = Engine(engine: EngineStep) | Governance(governance: GovernanceStep) | Handoffs(handoff: HandoffStep) | Elsewhere

  ghost predicate EngineTakes(s: System, step: EngineStep, s': System) {
    match step
    case StartRun(work, flow, fields, actor, operation) =>
      && AcceptedFlow(flow) && CanStart(s, work, flow, fields, actor, operation)
      && s' == Started(s, work, flow, fields, actor, operation)
    case DispatchAction(work, kind, id, actor) =>
      CanDispatch(s, work, kind, id, actor) && s' == DispatchedTo(s, work, kind, id, actor)
    case OpenTransition(c, call) => c !in s.prepares && CanOpen(s, call) && s' == Opened(s, c, call)
    case ResumeTransition(c, call) => c !in s.prepares && CanResume(s, call) && s' == Resumed(s, c, call)
    case OfferTransition(c, at, later) => CanOfferFor(s, c, at, later) && s' == OfferedFor(s, c, at, later)
    case CommitTransition(c) => CanCommit(s, c) && s' == Committed(s, c)
    case PickupTransition(work, expected, actor, operation) =>
      CanPickup(s, work, expected, actor, operation) && s' == PickedUp(s, work, expected, actor, operation)
    case OpenCompletion(c, call) => c !in s.completions && CanOpenCompletion(s, call) && s' == CompletionOpened(s, c, call)
    case ResumeCompletion(c, call) =>
      c !in s.completions && CanResumeCompletion(s, call) && s' == CompletionResumed(s, c, call)
    case ReadWork(c) => CanRead(s, c) && s' == WorkRead(s, c)
    case TryWork(c, blocked) => CanTry(s, c) && s' == CompletionTried(s, c, blocked)
    case CommitCompletion(c) => CanCommitCompletion(s, c) && s' == CompletionCommitted(s, c)
    case Crash(c) => s' == s.(prepares := s.prepares - {c}) || s' == s.(completions := s.completions - {c})
  }

  ghost predicate GovernanceTakes(s: System, step: GovernanceStep, s': System) {
    match step
    case VerifyArtifact(work, path, metadata, actor, recordId) =>
      CanVerify(s, work, path, metadata, actor, recordId) && s' == VerifiedArtifact(s, work, path, metadata, actor, recordId)
    case RecordConsultation(work, id, decision, actor, recordId, reason, evidence) =>
      && CanConsult(s, work, id, decision, actor, recordId, reason, evidence)
      && s' == Consulted(s, work, id, decision, actor, recordId, reason, evidence)
    case DecideGate(work, id, decision, actor, recordId, reason, evidence, impact, reviewed) =>
      && CanDecide(s, work, id, decision, actor, recordId, reason, evidence, impact, reviewed)
      && s' == Decided(s, work, id, decision, actor, recordId, reason, evidence, impact, reviewed)
    case SponsorGate(work, id, decision, actor, recordId, reason, evidence, reviewed) =>
      && CanSponsor(s, work, id, decision, actor, recordId, reviewed)
      && s' == Sponsored(s, work, id, decision, actor, recordId, reason, evidence, reviewed)
  }

  ghost predicate HandoffTakes(s: System, step: HandoffStep, s': System) {
    match step
    case OfferHandoff(draft, at, later) => CanOffer(s, draft, at, later) && s' == OfferMade(s, draft, at, later)
    case ClaimHandoff(h, lease, token, at) => CanClaim(s, h, lease, token, at) && s' == ClaimMade(s, h, lease, token, at)
    case AcceptHandoff(h, lease, token, at) => CanAccept(s, h, lease, token, at) && s' == AcceptMade(s, h, lease, token, at)
  }

  ghost predicate Takes(s: System, step: Step, s': System) {
    match step
    case Engine(e) => EngineTakes(s, e, s')
    case Governance(g) => GovernanceTakes(s, g, s')
    case Handoffs(h) => HandoffTakes(s, h, s')
    case Elsewhere => Environment(s, s')
  }

  ghost predicate Initial(s: System) {
    && s.runs == map[] && s.obligations == map[] && s.records == map[] && s.impacts == map[] && s.journal == []
    && s.handoffs == map[] && s.prepares == map[] && s.completions == map[] && s.entryFields == map[]
    && forall i | i in s.items :: s.items[i].createdAt <= s.now
  }

  /** A run: states and the steps between them. */
  ghost predicate IsRun(trace: seq<System>, steps: seq<Step>) {
    && |trace| == |steps| + 1 && Initial(trace[0])
    && forall i | 0 <= i < |steps| :: Takes(trace[i], steps[i], trace[i + 1])
  }

  // ---- The invariant holds throughout ----

  lemma EngineKeeps(s: System, step: EngineStep, s': System)
    requires Inv(s) && EngineTakes(s, step, s')
    ensures Inv(s')
  {
    hide Inv, Started, DispatchedTo, Opened, Resumed, OfferedFor, Committed, PickedUp, CompletionOpened, CompletionResumed,
      WorkRead, CompletionTried, CompletionCommitted, AcceptedFlow, CanStart, CanDispatch, CanOpen, CanResume, CanOfferFor,
      CanCommit, CanPickup, CanOpenCompletion, CanResumeCompletion, CanRead, CanTry, CanCommitCompletion;
    match step
    case StartRun(work, flow, fields, actor, operation) => StartKeeps(s, work, flow, fields, actor, operation);
    case DispatchAction(work, kind, id, actor) => DispatchKeeps(s, work, kind, id, actor);
    case OpenTransition(c, call) => OpenKeeps(s, c, call);
    case ResumeTransition(c, call) => ResumeKeeps(s, c, call);
    case OfferTransition(c, at, later) => OfferForKeeps(s, c, at, later);
    case CommitTransition(c) => CommitKeeps(s, c);
    case PickupTransition(work, expected, actor, operation) => PickupKeeps(s, work, expected, actor, operation);
    case OpenCompletion(c, call) => OpenCompletionKeeps(s, c, call);
    case ResumeCompletion(c, call) => ResumeCompletionKeeps(s, c, call);
    case ReadWork(c) => ReadKeeps(s, c);
    case TryWork(c, blocked) => TryKeeps(s, c, blocked);
    case CommitCompletion(c) => CommitCompletionKeeps(s, c);
    case Crash(c) => CrashKeeps(s, c);
  }

  lemma GovernanceKeeps(s: System, step: GovernanceStep, s': System)
    requires Inv(s) && GovernanceTakes(s, step, s')
    ensures Inv(s')
  {
    hide Inv, VerifiedArtifact, Consulted, Decided, Sponsored, CanVerify, CanConsult, CanDecide, CanSponsor;
    match step
    case VerifyArtifact(work, path, metadata, actor, recordId) => VerifyKeeps(s, work, path, metadata, actor, recordId);
    case RecordConsultation(work, id, decision, actor, recordId, reason, evidence) =>
      ConsultKeeps(s, work, id, decision, actor, recordId, reason, evidence);
    case DecideGate(work, id, decision, actor, recordId, reason, evidence, impact, reviewed) =>
      DecideKeeps(s, work, id, decision, actor, recordId, reason, evidence, impact, reviewed);
    case SponsorGate(work, id, decision, actor, recordId, reason, evidence, reviewed) =>
      SponsorKeeps(s, work, id, decision, actor, recordId, reason, evidence, reviewed);
  }

  lemma HandoffKeeps(s: System, step: HandoffStep, s': System)
    requires Inv(s) && HandoffTakes(s, step, s')
    ensures Inv(s')
  {
    hide Inv, OfferMade, ClaimMade, AcceptMade, CanOffer, CanClaim, CanAccept;
    match step
    case OfferHandoff(draft, at, later) => OfferKeeps(s, draft, at, later);
    case ClaimHandoff(h, lease, token, at) => ClaimKeeps(s, h, lease, token, at);
    case AcceptHandoff(h, lease, token, at) => AcceptKeeps(s, h, lease, token, at);
  }

  /** Every step of the system keeps the invariant. */
  lemma StepKeeps(s: System, step: Step, s': System)
    requires Inv(s) && Takes(s, step, s')
    ensures Inv(s')
  {
    hide Inv, EngineTakes, GovernanceTakes, HandoffTakes, Environment;
    match step
    case Engine(e) => EngineKeeps(s, e, s');
    case Governance(g) => GovernanceKeeps(s, g, s');
    case Handoffs(h) => HandoffKeeps(s, h, s');
    case Elsewhere => EnvironmentKeeps(s, s');
  }

  lemma {:induction false} AlwaysInv(trace: seq<System>, steps: seq<Step>, i: nat)
    requires IsRun(trace, steps) && i < |trace|
    ensures Inv(trace[i])
  {
    hide Takes;
    if i == 0 {
      assert Inv(trace[0]);
    } else {
      AlwaysInv(trace, steps, i - 1);
      StepKeeps(trace[i - 1], steps[i - 1], trace[i]);
    }
  }

  // ---- What a step leaves alone ----

  predicate ChangesRuns(step: EngineStep) {
    || step.StartRun? || step.OpenTransition? || step.CommitTransition? || step.PickupTransition?
    || step.OpenCompletion? || step.CommitCompletion?
  }

  lemma EngineKeepsRuns(s: System, step: EngineStep, s': System)
    requires EngineTakes(s, step, s') && !ChangesRuns(step)
    ensures s'.runs == s.runs && s'.journal == s.journal
  {
    hide AcceptedFlow, CanStart, CanDispatch, CanOpen, CanResume, CanCommit, CanPickup, CanOpenCompletion,
      CanResumeCompletion, CanRead, CanTry, CanCommitCompletion, CanOffer, TransitionKey, OfferMade, Started, Opened,
      Committed, PickedUp, CompletionOpened, CompletionCommitted;
    match step
    case OfferTransition(c, at, later) => OfferKeepsTables(s, TransitionOffer(s.prepares[c]), at, later);
    case _ =>
  }

  lemma GovernanceKeepsRuns(s: System, step: GovernanceStep, s': System)
    requires GovernanceTakes(s, step, s')
    ensures s' == s.(obligations := s'.obligations, records := s'.records, impacts := s'.impacts, works := s'.works)
  {
    hide CanVerify, CanConsult, CanDecide, CanSponsor;
  }

  lemma HandoffKeepsRuns(s: System, step: HandoffStep, s': System)
    requires HandoffTakes(s, step, s')
    ensures s' == s.(now := s'.now, items := s'.items, handoffs := s'.handoffs)
  {
    hide CanOffer, CanClaim, CanAccept, OfferMade;
    if step.OfferHandoff? {
      OfferKeepsTables(s, step.draft, step.at, step.later);
    }
  }

  /** Only the flow engine changes runs or the journal. */
  lemma KeepsRuns(s: System, step: Step, s': System)
    requires Takes(s, step, s') && (step.Engine? ==> !ChangesRuns(step.engine))
    ensures s'.runs == s.runs && s'.journal == s.journal
  {
    hide EngineTakes, GovernanceTakes, HandoffTakes;
    match step
    case Engine(e) => EngineKeepsRuns(s, e, s');
    case Governance(g) => GovernanceKeepsRuns(s, g, s');
    case Handoffs(h) => HandoffKeepsRuns(s, h, s');
    case Elsewhere =>
  }

  /** One run changes; if the journal grows it is by one row of that run, under an operation it did not have,
      and the run's version grows with it. */
  ghost predicate AdvancesOne(s: System, work: Id, s': System) {
    && work in s'.runs && (forall w | w in s.runs && w != work :: w in s'.runs && s'.runs[w] == s.runs[w])
    && (forall w | w in s'.runs && w != work :: w in s.runs)
    && (work in s.runs ==>
          && s'.runs[work].flow == s.runs[work].flow
          && s'.runs[work].version == s.runs[work].version + (if s'.journal == s.journal then 0 else 1))
    && (s'.journal == s.journal || exists row :: Extends(s.journal, row, s'.journal) && row.work == work)
  }

  ghost predicate Extends(journal: Journal, row: JournalRow, journal': Journal) {
    journal' == journal + [row] && forall r | r in journal :: r.operation != row.operation
  }

  lemma AppendExtends(journal: Journal, row: JournalRow)
    requires ReplayOf(journal, row.operation, row.request) == Fresh
    ensures exists r :: Extends(journal, r, Append(journal, row)) && r.work == row.work
    ensures Append(journal, row) != journal
  {
    FreshOperation(journal, row.operation, row.request);
    assert Extends(journal, row.(sequence := MaxSequence(journal, row.work) + 1), Append(journal, row));
    assert |Append(journal, row)| == |journal| + 1;
  }

  lemma StartAdvances(s: System, work: Id, flow: Flow, fields: Fields, actor: Id, operation: Id)
    requires CanStart(s, work, flow, fields, actor, operation)
    ensures AdvancesOne(s, work, Started(s, work, flow, fields, actor, operation))
  {
    hide Append, InsertObligations, ReplayOf, Extends;
    var state := flow.states[flow.entryState];
    AppendExtends(s.journal, JournalRow(
      work, 0, operation, StartRequest(flow, fields, actor), Start, None, state.stateId, None, None, actor,
      map["flow_digest" := Str(flow.digest)]));
  }

  lemma OpenAdvances(s: System, c: nat, call: PrepareCall)
    requires CanOpen(s, call)
    ensures AdvancesOne(s, call.work, Opened(s, c, call))
  {
    hide ReplayOf, AllDischarged, MergedFields, FlowState.SelectRoute, Extends;
  }

  lemma OpenCompletionAdvances(s: System, c: nat, call: CompleteCall)
    requires CanOpenCompletion(s, call)
    ensures AdvancesOne(s, call.work, CompletionOpened(s, c, call))
  {
    hide ReplayOf, AllDischarged, Extends;
  }

  lemma CommitAdvances(s: System, c: nat)
    requires CanCommit(s, c)
    ensures AdvancesOne(s, s.prepares[c].work, Committed(s, c))
  {
    hide Append, ReplayOf, Extends;
    var call := s.prepares[c];
    AppendExtends(s.journal, JournalRow(
      call.work, 0, call.operation, call.Digest(), Prepare, Some(s.runs[call.work].currentState), call.route.targetState,
      Some(call.route.routeId), call.handoff, call.actor, map[]));
  }

  lemma PickupAdvances(s: System, work: Id, expected: nat, actor: Id, operation: Id)
    requires CanPickup(s, work, expected, actor, operation)
    ensures AdvancesOne(s, work, PickedUp(s, work, expected, actor, operation))
  {
    hide Append, InsertObligations, ReplayOf, Extends;
    var run := s.runs[work];
    AppendExtends(s.journal, JournalRow(
      work, 0, operation, PickupRequest(work, expected, actor), Pickup, Some(run.currentState),
      run.flow.states[run.pendingTarget.value].stateId, run.pendingRoute, run.pendingHandoff, actor, map[]));
  }

  lemma CompletionAdvances(s: System, c: nat)
    requires CanCommitCompletion(s, c)
    ensures AdvancesOne(s, s.completions[c].work, CompletionCommitted(s, c))
  {
    hide Append, ReplayOf, Extends;
    var call := s.completions[c];
    AppendExtends(s.journal, JournalRow(
      call.work, 0, call.operation, call.Digest(), Complete, Some(s.runs[call.work].currentState),
      s.runs[call.work].currentState, None, None, call.actor, call.evidence));
  }

  /** Every step that changes runs is one run's advance. */
  lemma ChangesOneRun(s: System, step: EngineStep, s': System) returns (work: Id)
    requires EngineTakes(s, step, s') && ChangesRuns(step)
    ensures AdvancesOne(s, work, s')
  {
    hide AdvancesOne, AcceptedFlow, Started, Opened, Committed, PickedUp, CompletionOpened, CompletionCommitted,
      CanStart, CanOpen, CanPickup, CanOpenCompletion, ReplayOf, SamePending, DispatchedTo, Resumed, OfferedFor,
      CompletionResumed, WorkRead, CompletionTried, CanDispatch, CanResume, CanOfferFor, CanRead, CanTry;
    match step
    case StartRun(w, flow, fields, actor, operation) =>
      work := w;
      StartAdvances(s, w, flow, fields, actor, operation);
    case OpenTransition(c, call) =>
      work := call.work;
      OpenAdvances(s, c, call);
    case CommitTransition(c) =>
      work := s.prepares[c].work;
      CommitAdvances(s, c);
    case PickupTransition(w, expected, actor, operation) =>
      work := w;
      PickupAdvances(s, w, expected, actor, operation);
    case OpenCompletion(c, call) =>
      work := call.work;
      OpenCompletionAdvances(s, c, call);
    case CommitCompletion(c) =>
      work := s.completions[c].work;
      CompletionAdvances(s, c);
  }
}
