/**
 The durable tables a work item's flow lives in, and every transaction on them.

 Each transaction is one atomic step: a guard, true exactly when the transaction commits a change,
 and an effect, the state it leaves. A call that spans several transactions keeps its local
 variables in `prepares` or `completions` between them, so that other calls may run in the gaps.
 */
module FlowTables {
  import opened Wrappers
  import opened Json
  import opened FlowDefinition

  // ---- Rows ----

  /** A request digest stands for the request itself: the hash is taken as injective. */
  datatype Request =
    | StartRequest(flow: Flow, fields: Fields, actor: Id)
    | PrepareRequest(work: Id, outcome: Id, fields: Fields, expected: nat, actor: Id)
    | PickupRequest(work: Id, expected: nat, actor: Id)
    | CompleteRequest(work: Id, expected: nat, actor: Id, evidence: Fields)

  datatype RunStatus = Active | HandoffPreparing | HandoffPending | CompletionPreparing | Completed

  datatype Run = Run(
    flow: Flow,
    currentState: Id,
    owner: Id,
    status: RunStatus,
    fields: Fields,
    version: nat,
    pendingRoute: Option<Id>,
    pendingTarget: Option<Id>,
    pendingRole: Option<Id>,
    pendingHandoff: Option<Id>,
    pendingOperation: Option<Id>,
    pendingRequest: Option<Request>
  ) {
    function State(): FlowState
      requires currentState in flow.states
    {
      flow.states[currentState]
    }
  }

  datatype ObligationKey = ObligationKey(work: Id, state: Id, entry: nat, kind: Kind, id: Id)

  datatype ObligationStatus = Pending | Dispatched | Satisfied

  datatype Obligation = Obligation(role: Id, payload: Fields, status: ObligationStatus)

  datatype Decision = Verified | Responded | Approved | Rejected | Exception

  datatype Document = Document(path: string, etag: string)

  datatype GovernanceRequest =
    | VerifyRequest(work: Id, path: string, actor: Id)
    | ConsultationRequest(work: Id, id: Id, decision: Decision, actor: Id, reason: string, evidence: Fields)
    | GateRequest(work: Id, id: Id, decision: Decision, actor: Id, reason: string, evidence: Fields,
                  impact: Option<string>, reviewed: Document)
    | SponsorRequest(work: Id, id: Id, decision: Decision, actor: Id, reason: string, evidence: Fields)

  datatype Record = Record(
    request: GovernanceRequest,
    key: ObligationKey,
    decision: Decision,
    actor: Id,
    reason: string,
    evidence: Fields,
    document: Option<Document>
  )

  datatype Action = Start | Prepare | Pickup | Complete

  datatype JournalRow = JournalRow(
    work: Id,
    sequence: nat,
    operation: Id,
    request: Request,
    action: Action,
    from: Option<Id>,
    to: Id,
    route: Option<Id>,
    handoff: Option<Id>,
    actor: Id,
    evidence: Fields
  )

  datatype WorkStatus = New | WorkActive | Gated | WorkCompleted | Error

  datatype Work = Work(status: WorkStatus, role: Id, version: nat, reason: string, evidence: Fields)

  datatype HandoffStatus = Offered | Claimed | Accepted

  datatype Fingerprint = Fingerprint(
    item: Id, lease: Id, instance: Id, role: Id, targetRole: Id,
    capability: Option<Id>, summary: string, payload: Json, priority: int
  )

  /** The handoff identifier is an injective digest of the idempotency key, so the key stands for it. */
  datatype Handoff = Handoff(
    work: Id,
    fingerprint: Fingerprint,
    targetRole: Id,
    item: Id,
    status: HandoffStatus,
    targetInstance: Option<Id>,
    targetLease: Option<Id>,
    offeredAt: nat,
    queuedAt: nat,
    claimedAt: Option<nat>,
    acceptedAt: Option<nat>
  )

  datatype Lease = Lease(item: Id, owner: Id, token: string, released: bool, expiresAt: nat)

  datatype ItemStatus = Ready | Leased | Done

  datatype RouteDraft = RouteDraft(work: Id, targetRole: Id, capability: Option<Id>, payload: Json, priority: int)

  /** A queue item, kept under its idempotency key. */
  datatype Item = Item(draft: RouteDraft, status: ItemStatus, createdAt: nat)

  datatype Instance = Instance(role: Id, running: bool)

  /** A transition call that has begun: its arguments, the route it selected, the handoff it offered. */
  datatype PrepareCall = PrepareCall(
    work: Id, outcome: Id, fields: Fields, expected: nat, actor: Id, operation: Id,
    lease: Id, token: string, route: FlowRoute, handoff: Option<Id>
  ) {
    function Digest(): Request {
      PrepareRequest(work, outcome, fields, expected, actor)
    }
  }

  /** Where a completion call stands with the kernel work item. */
  datatype CompleteStage = Began | Read(seen: Work) | Tried | Reread(seen: Work)

  datatype CompleteCall = CompleteCall(
    work: Id, expected: nat, actor: Id, operation: Id, evidence: Fields, stage: CompleteStage
  ) {
    function Digest(): Request {
      CompleteRequest(work, expected, actor, evidence)
    }
  }

  /** All the tables of one project, the calls in flight, and the clock.
      `entryFields` is a proof-only record of the fields a visit was entered with. */
  datatype System = System(
    project: Id,
    works: map<Id, Work>,
    runs: map<Id, Run>,
    obligations: map<ObligationKey, Obligation>,
    records: map<Id, Record>,
    impacts: map<Id, string>,
    journal: seq<JournalRow>,
    handoffs: map<Id, Handoff>,
    leases: map<Id, Lease>,
    items: map<Id, Item>,
    instances: map<Id, Instance>,
    queues: set<(Id, Option<Id>)>,
    now: nat,
    prepares: map<nat, PrepareCall>,
    completions: map<nat, CompleteCall>,
    entryFields: map<(Id, nat), Fields>
  )

  // ---- The journal ----

  /** The journal row that carries an operation, if one does. */
  function FindOperation(journal: seq<JournalRow>, operation: Id): Option<JournalRow> {
    if journal == [] then None
    else
      var last := journal[|journal| - 1];
      if last.operation == operation then Some(last) else FindOperation(journal[..|journal| - 1], operation)
  }

  datatype Replay = Fresh | Recorded(work: Id) | Clash

  function ReplayOf(journal: seq<JournalRow>, operation: Id, request: Request): Replay {
    match FindOperation(journal, operation)
    case None => Fresh
    case Some(row) => if row.request == request then Recorded(row.work) else Clash
  }

  function MaxSequence(journal: seq<JournalRow>, work: Id): nat {
    if journal == [] then 0
    else
      var last, earlier := journal[|journal| - 1], MaxSequence(journal[..|journal| - 1], work);
      if last.work == work && last.sequence > earlier then last.sequence else earlier
  }

  /** Appends a row numbered one past the highest sequence of its work item. */
  function Append(journal: seq<JournalRow>, row: JournalRow): seq<JournalRow> {
    journal + [row.(sequence := MaxSequence(journal, row.work) + 1)]
  }

  // ---- Obligations ----

  function KeyOf(work: Id, state: Id, entry: nat, action: FlowAction): ObligationKey {
    ObligationKey(work, state, entry, action.kind, action.actionId)
  }

  function InsertObligations(
    obligations: map<ObligationKey, Obligation>, work: Id, state: Id, entry: nat, actions: seq<FlowAction>
  ): map<ObligationKey, Obligation>
    decreases |actions|
  {
    if actions == [] then obligations
    else
      var last := actions[|actions| - 1];
      InsertObligations(obligations, work, state, entry, actions[..|actions| - 1])
        [KeyOf(work, state, entry, last) := Obligation(last.roleId, last.payload, Pending)]
  }

  predicate HasRecord(records: map<Id, Record>, key: ObligationKey, decision: Decision) {
    exists id | id in records :: records[id].key == key && records[id].decision == decision
  }

  /** One obligation is settled: what leaving its state asks of it. */
  predicate Discharged(obligations: map<ObligationKey, Obligation>, records: map<Id, Record>, key: ObligationKey) {
    && key in obligations
    && match key.kind
       case Artifact => obligations[key].status == Satisfied && HasRecord(records, key, Verified)
       case Gate =>
         && obligations[key].status == Satisfied
         && (HasRecord(records, key, Approved) || HasRecord(records, key, Exception))
       case Consult =>
         || HasRecord(records, key, Exception)
         || (HasRecord(records, key, Responded) && obligations[key].status == Dispatched)
       case Inform => obligations[key].status == Dispatched
  }

  predicate IsVisit(key: ObligationKey, work: Id, state: Id, entry: nat) {
    key.work == work && key.state == state && key.entry == entry
  }

  /** Every obligation row of the run's current visit is settled. */
  predicate AllDischarged(s: System, work: Id)
    requires work in s.runs
  {
    var run := s.runs[work];
    forall key | key in s.obligations && IsVisit(key, work, run.currentState, run.version) ::
      Discharged(s.obligations, s.records, key)
  }

  // ---- Starting a run ----

  predicate CanStart(s: System, work: Id, flow: Flow, fields: Fields, actor: Id, operation: Id) {
    && ReplayOf(s.journal, operation, StartRequest(flow, fields, actor)) == Fresh
    && work in s.works && work !in s.runs
    && flow.entryState in flow.states
    && s.works[work].status == WorkActive && s.works[work].role == flow.states[flow.entryState].ownerRole
  }

  /** The work item whose run a call that starts one answers with, if it answers. */
  function StartAnswer(s: System, work: Id, flow: Flow, fields: Fields, actor: Id, operation: Id): Option<Id> {
    match ReplayOf(s.journal, operation, StartRequest(flow, fields, actor))
    case Recorded(recorded) => Some(recorded)
    case Clash => None
    case Fresh => if CanStart(s, work, flow, fields, actor, operation) then Some(work) else None
  }

  function Started(s: System, work: Id, flow: Flow, fields: Fields, actor: Id, operation: Id): System
    requires CanStart(s, work, flow, fields, actor, operation)
  {
    var state := flow.states[flow.entryState];
    s.(
      runs := s.runs[work := Run(flow, state.stateId, state.ownerRole, Active, fields, 1, None, None, None, None, None, None)],
      obligations := InsertObligations(s.obligations, work, state.stateId, 1, state.Obligations(fields)),
      journal := Append(s.journal, JournalRow(
        work, 0, operation, StartRequest(flow, fields, actor), Start, None, state.stateId, None, None, actor,
        map["flow_digest" := Str(flow.digest)])),
      entryFields := s.entryFields[(work, 1) := fields]
    )
  }

  // ---- Routing to a role queue ----

  predicate Routable(s: System, key: Id, draft: RouteDraft) {
    if key in s.items then s.items[key].draft == draft
    else draft.work in s.works && (draft.targetRole, draft.capability) in s.queues
  }

  function Routed(items: map<Id, Item>, key: Id, draft: RouteDraft, at: nat): map<Id, Item> {
    if key in items then items else items[key := Item(draft, Ready, at)]
  }

  // ---- Dispatching consults and informs ----

  /** Decimal digits of a version number. */
  function Digits(n: nat): string {
    if n < 10 then [(('0' as int) + n) as char] else Digits(n / 10) + Digits(n % 10)
  }

  function KindName(kind: Kind): string {
    match kind
    case Artifact => "artifact"
    case Consult => "consult"
    case Gate => "gate"
    case Inform => "inform"
  }

  function DispatchKey(kind: Kind, work: Id, version: nat, id: Id): Id {
    "flow-" + KindName(kind) + "-" + work + "-" + Digits(version) + "-" + id
  }

  function CurrentKey(s: System, work: Id, kind: Kind, id: Id): ObligationKey
    requires work in s.runs
  {
    ObligationKey(work, s.runs[work].currentState, s.runs[work].version, kind, id)
  }

  function DispatchDraft(s: System, work: Id, kind: Kind, id: Id, actor: Id): RouteDraft
    requires work in s.runs && CurrentKey(s, work, kind, id) in s.obligations
  {
    var obligation := s.obligations[CurrentKey(s, work, kind, id)];
    RouteDraft(work, obligation.role, None, Obj(map[
      "flow_action" := Obj(obligation.payload),
      "state" := Str(s.runs[work].currentState),
      "requested_by" := Str(actor)]), 0)
  }

  predicate CanDispatch(s: System, work: Id, kind: Kind, id: Id, actor: Id) {
    && kind in {Consult, Inform}
    && work in s.runs && s.runs[work].status == Active
    && CurrentKey(s, work, kind, id) in s.obligations
    && s.obligations[CurrentKey(s, work, kind, id)].status in {Pending, Dispatched}
    && Routable(s, DispatchKey(kind, work, s.runs[work].version, id), DispatchDraft(s, work, kind, id, actor))
  }

  function DispatchedTo(s: System, work: Id, kind: Kind, id: Id, actor: Id): System
    requires CanDispatch(s, work, kind, id, actor)
  {
    var key := CurrentKey(s, work, kind, id);
    s.(
      items := Routed(s.items, DispatchKey(kind, work, s.runs[work].version, id), DispatchDraft(s, work, kind, id, actor), s.now),
      obligations := s.obligations[key := s.obligations[key].(status := Dispatched)]
    )
  }

  // ---- Preparing a transition: three transactions ----

  /** The run's fields under the supplied ones, with the recorded architecture impact; none if they disagree. */
  function MergedFields(s: System, work: Id, fields: Fields): Option<Fields>
    requires work in s.runs
  {
    var merged := s.runs[work].fields + fields;
    if work !in s.impacts then Some(merged)
    else
      var impact := Str(s.impacts[work]);
      if "architecture_impact" in merged && merged["architecture_impact"] != Null && merged["architecture_impact"] != impact
      then None
      else Some(merged["architecture_impact" := impact])
  }

  predicate SamePending(run: Run, operation: Id, request: Request) {
    run.pendingOperation == Some(operation) && run.pendingRequest == Some(request)
  }

  /** The first transaction of a call that opens the transition. */
  predicate CanOpen(s: System, call: PrepareCall) {
    && ReplayOf(s.journal, call.operation, call.Digest()) == Fresh
    && call.work in s.runs
    && var run := s.runs[call.work];
    && run.status == Active && run.version == call.expected
    && MergedFields(s, call.work, call.fields).Some?
    && run.currentState in run.flow.states && !run.State().terminal
    && AllDischarged(s, call.work)
    && run.State().SelectRoute(call.outcome, MergedFields(s, call.work, call.fields).value) == Success(call.route)
    && call.handoff.None?
  }

  function Opened(s: System, c: nat, call: PrepareCall): System
    requires CanOpen(s, call)
  {
    s.(
      runs := s.runs[call.work := s.runs[call.work].(
        status := HandoffPreparing,
        fields := MergedFields(s, call.work, call.fields).value,
        pendingRoute := Some(call.route.routeId),
        pendingTarget := Some(call.route.targetState),
        pendingRole := Some(call.route.targetRole),
        pendingOperation := Some(call.operation),
        pendingRequest := Some(call.Digest()))],
      prepares := s.prepares[c := call]
    )
  }

  /** The first transaction of a call that resumes a transition already open under its operation. */
  predicate CanResume(s: System, call: PrepareCall) {
    && ReplayOf(s.journal, call.operation, call.Digest()) == Fresh
    && call.work in s.runs
    && var run := s.runs[call.work];
    && run.status == HandoffPreparing
    && SamePending(run, call.operation, call.Digest())
    && run.currentState in run.flow.states
    && run.State().SelectRoute(call.outcome, run.fields) == Success(call.route)
    && call.handoff.None?
  }

  function Resumed(s: System, c: nat, call: PrepareCall): System {
    s.(prepares := s.prepares[c := call])
  }

  function TransitionKey(work: Id, expected: nat, route: Id): Id {
    "flow-" + work + "-" + Digits(expected) + "-" + route
  }

  datatype HandoffOffer = HandoffOffer(
    lease: Id, token: string, targetRole: Id, key: Id, summary: string, payload: Json,
    capability: Option<Id>, priority: int
  )

  function TransitionPayload(target: Id, route: Id): Json {
    Obj(map["flow" := Obj(map["target_state" := Str(target), "route_id" := Str(route)])])
  }

  function TransitionOffer(call: PrepareCall): HandoffOffer {
    HandoffOffer(
      call.lease, call.token, call.route.targetRole,
      TransitionKey(call.work, call.expected, call.route.routeId),
      "Flow transition to " + call.route.targetState,
      TransitionPayload(call.route.targetState, call.route.routeId), None, 0)
  }

  /** The second transaction: the handoff is offered, or found. */
  predicate CanOfferFor(s: System, c: nat, at: nat, later: nat) {
    c in s.prepares && s.prepares[c].handoff.None? && CanOffer(s, TransitionOffer(s.prepares[c]), at, later)
  }

  function OfferedFor(s: System, c: nat, at: nat, later: nat): System
    requires CanOfferFor(s, c, at, later)
  {
    var draft := TransitionOffer(s.prepares[c]);
    OfferMade(s, draft, at, later).(prepares := s.prepares[c := s.prepares[c].(handoff := Some(draft.key))])
  }

  /** The third transaction: the transition is recorded and waits for its handoff. */
  predicate CanCommit(s: System, c: nat) {
    && c in s.prepares && s.prepares[c].handoff.Some?
    && var call := s.prepares[c];
    && call.work in s.runs
    && ReplayOf(s.journal, call.operation, call.Digest()) == Fresh
    && SamePending(s.runs[call.work], call.operation, call.Digest())
  }

  function Committed(s: System, c: nat): System
    requires CanCommit(s, c)
  {
    var call := s.prepares[c];
    var run := s.runs[call.work];
    s.(
      runs := s.runs[call.work := run.(status := HandoffPending, pendingHandoff := call.handoff, version := run.version + 1)],
      journal := Append(s.journal, JournalRow(
        call.work, 0, call.operation, call.Digest(), Prepare, Some(run.currentState), call.route.targetState,
        Some(call.route.routeId), call.handoff, call.actor, map[])),
      prepares := s.prepares - {c}
    )
  }

  // ---- Picking a transition up ----

  predicate CanPickup(s: System, work: Id, expected: nat, actor: Id, operation: Id) {
    && ReplayOf(s.journal, operation, PickupRequest(work, expected, actor)) == Fresh
    && work in s.runs
    && var run := s.runs[work];
    && run.status == HandoffPending && run.version == expected
    && run.pendingHandoff.Some? && run.pendingHandoff.value in s.handoffs
    && s.handoffs[run.pendingHandoff.value].status == Accepted
    && run.pendingTarget.Some? && run.pendingRole.Some?
    && run.pendingTarget.value in run.flow.states
    && run.flow.states[run.pendingTarget.value].ownerRole == run.pendingRole.value
    && work in s.works && s.works[work].status == WorkActive
  }

  function PickedUp(s: System, work: Id, expected: nat, actor: Id, operation: Id): System
    requires CanPickup(s, work, expected, actor, operation)
  {
    var run := s.runs[work];
    var target := run.flow.states[run.pendingTarget.value];
    var version := run.version + 1;
    s.(
      runs := s.runs[work := Run(run.flow, target.stateId, target.ownerRole, Active, run.fields, version,
                                 None, None, None, None, None, None)],
      works := s.works[work := s.works[work].(role := target.ownerRole, version := s.works[work].version + 1)],
      obligations := InsertObligations(s.obligations, work, target.stateId, version, target.Obligations(run.fields)),
      journal := Append(s.journal, JournalRow(
        work, 0, operation, PickupRequest(work, expected, actor), Pickup, Some(run.currentState), target.stateId,
        run.pendingRoute, run.pendingHandoff, actor, map[])),
      entryFields := s.entryFields[(work, version) := run.fields]
    )
  }

  // ---- Completing: the flow run, the kernel work item, the flow run again ----

  const COMPLETION_REASON := "external flow completed"

  predicate CanOpenCompletion(s: System, call: CompleteCall) {
    && call.evidence != map[]
    && ReplayOf(s.journal, call.operation, call.Digest()) == Fresh
    && call.work in s.runs
    && var run := s.runs[call.work];
    && run.status == Active && run.version == call.expected
    && run.currentState in run.flow.states && run.State().terminal
    && AllDischarged(s, call.work)
    && call.stage == Began
  }

  function CompletionOpened(s: System, c: nat, call: CompleteCall): System
    requires CanOpenCompletion(s, call)
  {
    s.(
      runs := s.runs[call.work := s.runs[call.work].(
        status := CompletionPreparing,
        pendingOperation := Some(call.operation),
        pendingRequest := Some(call.Digest()))],
      completions := s.completions[c := call]
    )
  }

  predicate CanResumeCompletion(s: System, call: CompleteCall) {
    && call.evidence != map[]
    && ReplayOf(s.journal, call.operation, call.Digest()) == Fresh
    && call.work in s.runs
    && s.runs[call.work].status == CompletionPreparing
    && SamePending(s.runs[call.work], call.operation, call.Digest())
    && call.stage == Began
  }

  function CompletionResumed(s: System, c: nat, call: CompleteCall): System {
    s.(completions := s.completions[c := call])
  }

  /** Reading the work item: before any attempt on it, and again after one. */
  predicate CanRead(s: System, c: nat) {
    c in s.completions && s.completions[c].stage in {Began, Tried} && s.completions[c].work in s.works
  }

  function WorkRead(s: System, c: nat): System
    requires CanRead(s, c)
  {
    var call := s.completions[c];
    var work := s.works[call.work];
    s.(completions := s.completions[c := call.(stage := if call.stage == Began then Read(work) else Reread(work))])
  }

  /** Trying to complete a work item that was read as active. `blocked` is an unresolved failure incident. */
  predicate CanTry(s: System, c: nat) {
    && c in s.completions && s.completions[c].stage.Read?
    && s.completions[c].stage.seen.status == WorkActive && s.completions[c].work in s.works
  }

  /** The kernel completes an active work item that is still at the version it was read at. */
  function AfterAttempt(works: map<Id, Work>, call: CompleteCall, blocked: bool): (after: map<Id, Work>)
    requires call.stage.Read? && call.work in works
    ensures after.Keys == works.Keys
  {
    var work := works[call.work];
    if work.version == call.stage.seen.version && work.status == WorkActive && !blocked
    then works[call.work := work.(
      status := WorkCompleted, version := work.version + 1, reason := COMPLETION_REASON, evidence := call.evidence)]
    else works
  }

  function CompletionTried(s: System, c: nat, blocked: bool): System
    requires CanTry(s, c)
  {
    var call := s.completions[c];
    s.(works := AfterAttempt(s.works, call, blocked), completions := s.completions[c := call.(stage := Tried)])
  }

  predicate Finished(work: Work, evidence: Fields) {
    work.status == WorkCompleted && work.reason == COMPLETION_REASON && work.evidence == evidence
  }

  predicate CanCommitCompletion(s: System, c: nat) {
    && c in s.completions
    && var call := s.completions[c];
    && (call.stage.Reread? || (call.stage.Read? && call.stage.seen.status != WorkActive))
    && Finished(call.stage.seen, call.evidence)
    && call.work in s.runs
    && ReplayOf(s.journal, call.operation, call.Digest()) == Fresh
    && SamePending(s.runs[call.work], call.operation, call.Digest())
  }

  function CompletionCommitted(s: System, c: nat): System
    requires CanCommitCompletion(s, c)
  {
    var call := s.completions[c];
    var run := s.runs[call.work];
    s.(
      runs := s.runs[call.work := run.(
        status := Completed, pendingOperation := None, pendingRequest := None, version := run.version + 1)],
      journal := Append(s.journal, JournalRow(
        call.work, 0, call.operation, call.Digest(), Complete, Some(run.currentState), run.currentState, None, None,
        call.actor, call.evidence)),
      completions := s.completions - {c}
    )
  }

  // ---- Governance evidence ----

  /** The obligation of the current visit, open to evidence only while the run is active. */
  predicate IsCurrent(s: System, work: Id, kind: Kind, id: Id) {
    work in s.runs && s.runs[work].status == Active && CurrentKey(s, work, kind, id) in s.obligations
  }

  function Replace(text: string, old': string, new': string): string
    requires old' != ""
  {
    if |text| < |old'| then text
    else if old' <= text then new' + Replace(text[|old'|..], old', new')
    else [text[0]] + Replace(text[1..], old', new')
  }

  function MaterializePath(template: string, project: Id, work: Id): string {
    Replace(Replace(template, "{project_id}", project), "{work_item_id}", work)
  }

  datatype Metadata = Metadata(path: string, etag: string, size: nat, isFolder: bool)

  predicate CanVerify(s: System, work: Id, path: string, metadata: Metadata, actor: Id, recordId: Id) {
    && !metadata.isFolder
    && recordId !in s.records
    && IsCurrent(s, work, Artifact, "artifact")
    && var obligation := s.obligations[CurrentKey(s, work, Artifact, "artifact")];
    && obligation.role == actor && obligation.status == Pending
    && "path" in obligation.payload && obligation.payload["path"].Str?
    && path == MaterializePath(obligation.payload["path"].s, s.project, work) && metadata.path == path
  }

  function VerifiedArtifact(s: System, work: Id, path: string, metadata: Metadata, actor: Id, recordId: Id): System
    requires CanVerify(s, work, path, metadata, actor, recordId)
  {
    var key := CurrentKey(s, work, Artifact, "artifact");
    s.(
      records := s.records[recordId := Record(
        VerifyRequest(work, path, actor), key, Verified, actor, "",
        map["document" := Obj(map["path" := Str(metadata.path), "etag" := Str(metadata.etag), "size" := Num(metadata.size)])],
        Some(Document(path, metadata.etag)))],
      obligations := s.obligations[key := s.obligations[key].(status := Satisfied)]
    )
  }

  predicate CanConsult(
    s: System, work: Id, id: Id, decision: Decision, actor: Id, recordId: Id, reason: string, evidence: Fields
  ) {
    && decision in {Responded, Exception} && (decision == Exception ==> reason != "")
    && recordId !in s.records
    && IsCurrent(s, work, Consult, id)
    && var obligation := s.obligations[CurrentKey(s, work, Consult, id)];
    && if decision == Responded then obligation.status == Dispatched && obligation.role == actor
       else actor in {s.runs[work].owner, s.runs[work].flow.leaderRole}
  }

  function Consulted(
    s: System, work: Id, id: Id, decision: Decision, actor: Id, recordId: Id, reason: string, evidence: Fields
  ): System
    requires CanConsult(s, work, id, decision, actor, recordId, reason, evidence)
  {
    s.(records := s.records[recordId := Record(
      ConsultationRequest(work, id, decision, actor, reason, evidence),
      CurrentKey(s, work, Consult, id), decision, actor, reason, evidence, None)])
  }

  function ReviewEvidence(reviewed: Document): Fields {
    map["reviewed_document" := Obj(map["path" := Str(reviewed.path), "etag" := Str(reviewed.etag)])]
  }

  /** The visit's artifact is verified as this document. */
  predicate ArtifactVerified(s: System, work: Id, document: Document)
    requires work in s.runs
  {
    var key := CurrentKey(s, work, Artifact, "artifact");
    && key in s.obligations && s.obligations[key].status == Satisfied
    && exists id | id in s.records ::
         s.records[id].key == key && s.records[id].decision == Verified && s.records[id].document == Some(document)
  }

  function GateType(payload: Fields): Json {
    if "type" in payload then payload["type"] else Str("owner_review")
  }

  const SPONSOR_GATES := {Str("human_response"), Str("sponsor_approval")}
  const ARCHITECTURE_GATES := {Str("architecture_impact"), Str("architecture_impact_assessment")}
  const IMPACTS := {"no-material", "material", "uncertain"}

  /** A gate of this type takes this decision: sponsors decide their own, and impact gates are classified. */
  predicate GateTakes(payload: Fields, decision: Decision, impact: Option<string>) {
    && GateType(payload) !in SPONSOR_GATES
    && !("requested_from" in payload && payload["requested_from"] == Str("sponsor"))
    && if GateType(payload) in ARCHITECTURE_GATES then decision != Exception && (decision == Approved ==> impact.Some?)
       else impact.None?
  }

  predicate CanDecide(
    s: System, work: Id, id: Id, decision: Decision, actor: Id, recordId: Id, reason: string, evidence: Fields,
    impact: Option<string>, reviewed: Document
  ) {
    && decision in {Approved, Rejected, Exception} && (decision == Exception ==> reason != "")
    && (impact.Some? ==> impact.value in IMPACTS)
    && recordId !in s.records
    && IsCurrent(s, work, Gate, id)
    && var obligation := s.obligations[CurrentKey(s, work, Gate, id)];
    && GateTakes(obligation.payload, decision, impact)
    && obligation.role == actor
    && ArtifactVerified(s, work, reviewed)
    && (decision != Rejected ==> obligation.status == Pending)
  }

  function Decided(
    s: System, work: Id, id: Id, decision: Decision, actor: Id, recordId: Id, reason: string, evidence: Fields,
    impact: Option<string>, reviewed: Document
  ): System
    requires CanDecide(s, work, id, decision, actor, recordId, reason, evidence, impact, reviewed)
  {
    var key := CurrentKey(s, work, Gate, id);
    s.(
      records := s.records[recordId := Record(
        GateRequest(work, id, decision, actor, reason, evidence, impact, reviewed),
        key, decision, actor, reason, evidence + ReviewEvidence(reviewed), None)],
      obligations :=
        if decision == Rejected then s.obligations else s.obligations[key := s.obligations[key].(status := Satisfied)],
      impacts := if decision == Approved && impact.Some? then s.impacts[work := impact.value] else s.impacts
    )
  }

  /** What the sponsor coordinator does to these tables when a sponsor resolves a gate. */
  predicate CanSponsor(
    s: System, work: Id, id: Id, decision: Decision, sponsor: Id, recordId: Id, document: Document
  ) {
    && decision in {Approved, Rejected}
    && recordId !in s.records
    && work in s.works && s.works[work].status == Gated
    && IsCurrent(s, work, Gate, id)
    && s.obligations[CurrentKey(s, work, Gate, id)].status == Pending
    && ArtifactVerified(s, work, document)
  }

  function Sponsored(
    s: System, work: Id, id: Id, decision: Decision, sponsor: Id, recordId: Id, reason: string, evidence: Fields,
    document: Document
  ): System
    requires CanSponsor(s, work, id, decision, sponsor, recordId, document)
  {
    var key := CurrentKey(s, work, Gate, id);
    s.(
      records := s.records[recordId := Record(
        SponsorRequest(work, id, decision, sponsor, reason, evidence),
        key, decision, sponsor, reason, ReviewEvidence(document) + evidence, Some(document))],
      obligations :=
        if decision == Rejected then s.obligations else s.obligations[key := s.obligations[key].(status := Satisfied)],
      works := s.works[work := s.works[work].(status := WorkActive, version := s.works[work].version + 1)]
    )
  }

  // ---- Handoffs ----

  /** The source lease's row, joined with its queue item and its owner. */
  predicate SourceLease(s: System, draft: HandoffOffer) {
    && draft.lease in s.leases
    && var lease := s.leases[draft.lease];
    && lease.token == draft.token && lease.item in s.items && lease.owner in s.instances
  }

  function FingerprintOf(s: System, draft: HandoffOffer): Fingerprint
    requires SourceLease(s, draft)
  {
    var lease := s.leases[draft.lease];
    Fingerprint(lease.item, draft.lease, lease.owner, s.instances[lease.owner].role, draft.targetRole,
                draft.capability, draft.summary, draft.payload, draft.priority)
  }

  function HandoffPayload(key: Id, role: Id, instance: Id, summary: string, payload: Json): Json {
    Obj(map[
      "handoff" := Obj(map[
        "handoff_id" := Str(key),
        "source_role_id" := Str(role),
        "source_instance_id" := Str(instance),
        "summary" := Str(summary)]),
      "payload" := payload])
  }

  function HandoffDraft(s: System, draft: HandoffOffer): RouteDraft
    requires SourceLease(s, draft)
  {
    var lease := s.leases[draft.lease];
    RouteDraft(s.items[lease.item].draft.work, draft.targetRole, draft.capability,
               HandoffPayload(draft.key, s.instances[lease.owner].role, lease.owner, draft.summary, draft.payload), draft.priority)
  }

  /** An offer succeeds by finding the same handoff, or by making it under a live source lease.
      The clock is read at `at`, and again at `later` when the queue item is made. */
  predicate CanOffer(s: System, draft: HandoffOffer, at: nat, later: nat) {
    && s.now <= at <= later
    && SourceLease(s, draft)
    && if draft.key in s.handoffs then s.handoffs[draft.key].fingerprint == FingerprintOf(s, draft)
       else
         var lease := s.leases[draft.lease];
         && s.items[lease.item].status == Leased && s.instances[lease.owner].running
         && !lease.released && at < lease.expiresAt
         && Routable(s, draft.key, HandoffDraft(s, draft))
         && (draft.key in s.items ==> at <= s.items[draft.key].createdAt)
  }

  function HandoffFor(s: System, draft: HandoffOffer, at: nat, later: nat): Handoff
    requires CanOffer(s, draft, at, later) && draft.key !in s.handoffs
  {
    Handoff(
      s.items[s.leases[draft.lease].item].draft.work, FingerprintOf(s, draft), draft.targetRole, draft.key, Offered,
      None, None, at, if draft.key in s.items then s.items[draft.key].createdAt else later, None, None)
  }

  function NewOffer(s: System, draft: HandoffOffer, at: nat, later: nat): System
    requires CanOffer(s, draft, at, later) && draft.key !in s.handoffs
  {
    s.(
      now := later,
      items := Routed(s.items, draft.key, HandoffDraft(s, draft), later),
      handoffs := s.handoffs[draft.key := HandoffFor(s, draft, at, later)]
    )
  }

  function OfferMade(s: System, draft: HandoffOffer, at: nat, later: nat): System
    requires CanOffer(s, draft, at, later)
  {
    if draft.key in s.handoffs then s.(now := later) else NewOffer(s, draft, at, later)
  }

  predicate LeaseLive(s: System, lease: Id, at: nat) {
    lease in s.leases && !s.leases[lease].released && at < s.leases[lease].expiresAt
  }

  /** A live lease on the handoff's queue item, held by a running instance of the target role. */
  predicate TargetLease(s: System, h: Id, lease: Id, token: string, at: nat)
    requires h in s.handoffs
  {
    && LeaseLive(s, lease, at)
    && s.leases[lease].token == token && s.leases[lease].item == s.handoffs[h].item
    && s.leases[lease].owner in s.instances
    && s.instances[s.leases[lease].owner] == Instance(s.handoffs[h].targetRole, true)
  }

  predicate CanClaim(s: System, h: Id, lease: Id, token: string, at: nat) {
    && s.now <= at
    && h in s.handoffs
    && var handoff := s.handoffs[h];
    && TargetLease(s, h, lease, token, at)
    && (handoff.status == Offered
        || (handoff.status == Claimed && handoff.targetLease != Some(lease)
            && !(handoff.targetLease.Some? && LeaseLive(s, handoff.targetLease.value, at))))
  }

  function ClaimMade(s: System, h: Id, lease: Id, token: string, at: nat): System
    requires CanClaim(s, h, lease, token, at)
  {
    s.(
      now := at,
      handoffs := s.handoffs[h := s.handoffs[h].(
        status := Claimed, targetInstance := Some(s.leases[lease].owner), targetLease := Some(lease),
        claimedAt := Some(at), acceptedAt := None)]
    )
  }

  predicate CanAccept(s: System, h: Id, lease: Id, token: string, at: nat) {
    && s.now <= at
    && h in s.handoffs
    && s.handoffs[h].status == Claimed && s.handoffs[h].targetLease == Some(lease)
    && TargetLease(s, h, lease, token, at)
  }

  function AcceptMade(s: System, h: Id, lease: Id, token: string, at: nat): System
    requires CanAccept(s, h, lease, token, at)
  {
    s.(now := at, handoffs := s.handoffs[h := s.handoffs[h].(status := Accepted, acceptedAt := Some(at))])
  }

  // ---- The rest of the system ----

  /** What the lifecycle store may do to a work item: its role stays, and a finished item stays as it is. */
  predicate LifecycleMove(before: Work, after: Work) {
    || before == after
    || (&& before.role == after.role
        && (|| (before.status == New && after.status == WorkActive)
            || (before.status == WorkActive && after.status in {WorkCompleted, Error, Gated})
            || (before.status == Gated && after.status == WorkActive)))
  }

  /** What the queue, lifecycle, fleet and routing stores may do between two steps. */
  ghost predicate Environment(s: System, s': System) {
    && s' == s.(works := s'.works, leases := s'.leases, items := s'.items, instances := s'.instances,
                queues := s'.queues, now := s'.now)
    && s.now <= s'.now
    && (forall w | w in s.works :: w in s'.works && LifecycleMove(s.works[w], s'.works[w]))
    && (forall w | w in s'.works && w !in s.works :: s'.works[w].status == New)
    && (forall l | l in s.leases :: l in s'.leases
                                    && s'.leases[l].item == s.leases[l].item
                                    && s'.leases[l].owner == s.leases[l].owner
                                    && s'.leases[l].token == s.leases[l].token)
    && (forall i | i in s.items :: i in s'.items && s'.items[i] == s.items[i].(status := s'.items[i].status))
    && (forall i | i in s'.items && i !in s.items :: s'.items[i].createdAt <= s'.now)
    && (forall i | i in s.instances :: i in s'.instances && s'.instances[i].role == s.instances[i].role)
  }
}
