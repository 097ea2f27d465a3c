/** What every step on the flow tables keeps. */
module FlowInvariants {
  import opened Wrappers
  import opened Json
  import opened FlowDefinition
  import opened FlowTables

  // ---- Histories ----

  /** The journal rows of one work item, in order. */
  ghost function History(journal: seq<JournalRow>, work: Id): seq<JournalRow> {
    if journal == [] then []
    else
      var last := journal[|journal| - 1];
      History(journal[..|journal| - 1], work) + (if last.work == work then [last] else [])
  }

  ghost predicate Journalled(journal: seq<JournalRow>, operation: Id, request: Request) {
    exists row | row in journal :: row.operation == operation && row.request == request
  }

  ghost predicate OperationsDistinct(journal: seq<JournalRow>) {
    forall i, j | 0 <= i < j < |journal| :: journal[i].operation != journal[j].operation
  }

  /** A row that enters a visit. */
  predicate IsEntry(row: JournalRow) {
    row.action == Start || row.action == Pickup
  }

  ghost predicate RouteTaken(flow: Flow, row: JournalRow) {
    && row.from.Some? && row.from.value in flow.states && row.route.Some?
    && exists route | route in flow.states[row.from.value].routes :: row.route == Some(route.routeId) && row.to == route.targetState
  }

  /** Row `i` of a history carries on from row `i - 1`. */
  ghost predicate Continues(flow: Flow, work: Id, h: seq<JournalRow>, i: nat)
    requires i < |h| && h[i].to in flow.states
  {
    var row := h[i];
    match row.action
    case Start =>
      i == 0 && row.from == None && row.to == flow.entryState && row.request.StartRequest? && row.request.flow == flow
    case Prepare =>
      && i > 0 && IsEntry(h[i - 1]) && row.from == Some(h[i - 1].to)
      && RouteTaken(flow, row) && row.handoff == Some(TransitionKey(work, i, row.route.value))
      && row.request.PrepareRequest? && row.request.work == work && row.request.expected == i
    case Pickup =>
      && i > 0 && h[i - 1].action == Prepare && row.from == h[i - 1].from && row.to == h[i - 1].to
      && row.route == h[i - 1].route && row.handoff == h[i - 1].handoff
      && row.request == PickupRequest(work, i, row.actor)
    case Complete =>
      && i > 0 && IsEntry(h[i - 1]) && row.from == Some(h[i - 1].to) && row.to == h[i - 1].to
      && flow.states[row.to].terminal
      && row.request == CompleteRequest(work, i, row.actor, row.evidence)
  }

  ghost predicate RowOk(flow: Flow, work: Id, h: seq<JournalRow>, i: nat)
    requires i < |h|
  {
    h[i].work == work && h[i].sequence == i + 1 && h[i].to in flow.states && Continues(flow, work, h, i)
  }

  ghost predicate HistoryOk(flow: Flow, work: Id, h: seq<JournalRow>) {
    h != [] && h[0].action == Start && forall i | 0 <= i < |h| :: RowOk(flow, work, h, i)
  }

  ghost function StateAfter(h: seq<JournalRow>): Id
    requires h != []
  {
    var last := h[|h| - 1];
    if last.action == Prepare && last.from.Some? then last.from.value else last.to
  }

  /** The route an open transition would select again. */
  ghost function OpenRoute(run: Run): Result<FlowRoute, FlowError>
    requires run.currentState in run.flow.states && run.pendingRequest.Some? && run.pendingRequest.value.PrepareRequest?
  {
    run.State().SelectRoute(run.pendingRequest.value.outcome, run.fields)
  }

  /** An open transition's row names the route that its request selects. */
  ghost predicate RouteOpen(run: Run, work: Id, route: FlowRoute) {
    && run.currentState in run.flow.states
    && run.pendingRequest.Some? && run.pendingRequest.value.PrepareRequest?
    && run.pendingRequest.value.work == work && run.pendingRequest.value.expected == run.version
    && OpenRoute(run) == Success(route)
    && run.pendingRoute == Some(route.routeId) && run.pendingTarget == Some(route.targetState)
    && run.pendingRole == Some(route.targetRole) && run.pendingHandoff == None && run.pendingOperation.Some?
  }

  predicate NoTransition(run: Run) {
    run.pendingRoute == None && run.pendingTarget == None && run.pendingRole == None && run.pendingHandoff == None
  }

  ghost predicate StatusOk(run: Run, work: Id, h: seq<JournalRow>)
    requires h != []
  {
    var last := h[|h| - 1];
    match run.status
    case Active =>
      IsEntry(last) && NoTransition(run) && run.pendingOperation == None && run.pendingRequest == None
    case HandoffPreparing =>
      IsEntry(last) && (exists route :: RouteOpen(run, work, route))
    case HandoffPending =>
      && last.action == Prepare
      && run.pendingRoute == last.route && run.pendingTarget == Some(last.to) && run.pendingHandoff == last.handoff
      && last.to in run.flow.states && run.pendingRole == Some(run.flow.states[last.to].ownerRole)
      && SamePending(run, last.operation, last.request)
    case CompletionPreparing =>
      && IsEntry(last) && NoTransition(run) && run.pendingOperation.Some?
      && run.currentState in run.flow.states && run.State().terminal
      && run.pendingRequest.Some? && run.pendingRequest.value.CompleteRequest?
      && run.pendingRequest.value.work == work && run.pendingRequest.value.expected == run.version
      && run.pendingRequest.value.evidence != map[]
    case Completed =>
      last.action == Complete && NoTransition(run) && run.pendingOperation == None && run.pendingRequest == None
  }

  ghost predicate RunOk(run: Run, work: Id, h: seq<JournalRow>) {
    && HistoryOk(run.flow, work, h)
    && run.version == |h|
    && run.currentState == StateAfter(h) && run.currentState in run.flow.states
    && run.owner == run.State().ownerRole
    && StatusOk(run, work, h)
  }

  // ---- The invariant, one predicate for each group of tables ----

  type Runs = map<Id, Run>
  type Journal = seq<JournalRow>
  type Obligations = map<ObligationKey, Obligation>
  type Records = map<Id, Record>
  type Entries = map<(Id, nat), Fields>

  ghost predicate FlowsOk(runs: Runs) {
    forall w | w in runs :: AcceptedFlow(runs[w].flow)
  }

  ghost predicate RunsOk(runs: Runs, journal: Journal) {
    && OperationsDistinct(journal)
    && (forall row | row in journal :: row.work in runs)
    && (forall w | w in runs :: RunOk(runs[w], w, History(journal, w)))
  }

  /** A transition or completion being prepared is not in the journal yet. */
  ghost predicate PendingOk(runs: Runs, journal: Journal) {
    forall w, row | w in runs && row in journal && runs[w].status in {HandoffPreparing, CompletionPreparing} ::
      !SamePending(runs[w], row.operation, row.request)
  }

  ghost predicate CallRecorded(journal: Journal, call: PrepareCall) {
    exists row | row in journal ::
      && row.operation == call.operation && row.request == call.Digest()
      && row.route == Some(call.route.routeId) && row.to == call.route.targetState
  }

  ghost predicate CallOpen(run: Run, call: PrepareCall) {
    run.status == HandoffPreparing && SamePending(run, call.operation, call.Digest()) && RouteOpen(run, call.work, call.route)
  }

  /** A transition call in flight is either recorded, or is the one its run has open. */
  ghost predicate PrepareCallOk(runs: Runs, journal: Journal, call: PrepareCall) {
    call.work in runs && (CallRecorded(journal, call) || CallOpen(runs[call.work], call))
  }

  /** The handoff a call holds is the one made, under that call's key, for its target role and route. */
  ghost predicate CallHandoffOk(handoffs: map<Id, Handoff>, call: PrepareCall) {
    call.handoff.Some? ==>
      && call.handoff.value == TransitionKey(call.work, call.expected, call.route.routeId)
      && call.handoff.value in handoffs
      && handoffs[call.handoff.value].targetRole == call.route.targetRole
      && handoffs[call.handoff.value].fingerprint.payload == TransitionPayload(call.route.targetState, call.route.routeId)
  }

  ghost predicate CompletionOpen(run: Run, call: CompleteCall) {
    run.status == CompletionPreparing && SamePending(run, call.operation, call.Digest())
  }

  ghost predicate CompleteCallOk(runs: Runs, journal: Journal, call: CompleteCall) {
    && call.work in runs
    && (Journalled(journal, call.operation, call.Digest()) || CompletionOpen(runs[call.work], call))
  }

  /** A work item that a call saw completed is still exactly as it was seen. */
  ghost predicate SeenOk(works: map<Id, Work>, call: CompleteCall) {
    (call.stage.Read? || call.stage.Reread?) && call.stage.seen.status == WorkCompleted ==>
      call.work in works && works[call.work] == call.stage.seen
  }

  ghost predicate PreparesOk(runs: Runs, journal: Journal, handoffs: map<Id, Handoff>, prepares: map<nat, PrepareCall>) {
    forall c | c in prepares :: PrepareCallOk(runs, journal, prepares[c]) && CallHandoffOk(handoffs, prepares[c])
  }

  ghost predicate CompletionsOk(runs: Runs, journal: Journal, works: map<Id, Work>, completions: map<nat, CompleteCall>) {
    forall c | c in completions :: CompleteCallOk(runs, journal, completions[c]) && SeenOk(works, completions[c])
  }

  /** The journal, or a pending prepare or complete, has left the visit entered at this version. */
  predicate Left(run: Run, entry: nat) {
    entry < run.version || run.status != Active
  }

  predicate StatusFits(kind: Kind, status: ObligationStatus) {
    && (status == Dispatched ==> kind == Consult || kind == Inform)
    && (status == Satisfied ==> kind == Artifact || kind == Gate)
  }

  ghost predicate Entered(runs: Runs, entries: Entries, row: JournalRow) {
    row.work in runs && row.to in runs[row.work].flow.states && (row.work, row.sequence) in entries
  }

  /** The obligations the pinned flow gives for the visit that a row entered. */
  ghost function VisitActions(runs: Runs, entries: Entries, row: JournalRow): seq<FlowAction>
    requires Entered(runs, entries, row)
  {
    runs[row.work].flow.states[row.to].Obligations(entries[(row.work, row.sequence)])
  }

  ghost function VisitKeys(runs: Runs, entries: Entries, row: JournalRow): set<ObligationKey>
    requires Entered(runs, entries, row)
  {
    ActionKeys(row.work, row.to, row.sequence, VisitActions(runs, entries, row))
  }

  ghost predicate Held(obligations: Obligations, work: Id, state: Id, entry: nat, action: FlowAction) {
    var key := KeyOf(work, state, entry, action);
    key in obligations && obligations[key].role == action.roleId && obligations[key].payload == action.payload
  }

  ghost predicate VisitOk(runs: Runs, obligations: Obligations, entries: Entries, row: JournalRow) {
    && Entered(runs, entries, row)
    && forall action | action in VisitActions(runs, entries, row) :: Held(obligations, row.work, row.to, row.sequence, action)
  }

  /** A row entered the visit a key is of, and the key is one of the visit's obligations. */
  ghost predicate EnteredFor(runs: Runs, entries: Entries, key: ObligationKey, row: JournalRow) {
    IsEntry(row) && Entered(runs, entries, row) && key in VisitKeys(runs, entries, row)
  }

  ghost predicate Belongs(runs: Runs, journal: Journal, entries: Entries, key: ObligationKey) {
    exists row :: row in journal && EnteredFor(runs, entries, key, row)
  }

  ghost predicate VisitsHeld(runs: Runs, journal: Journal, obligations: Obligations, entries: Entries) {
    forall row | row in journal && IsEntry(row) :: VisitOk(runs, obligations, entries, row)
  }

  ghost predicate KeysBelong(runs: Runs, journal: Journal, obligations: Obligations, entries: Entries) {
    forall key | key in obligations ::
      Belongs(runs, journal, entries, key) && StatusFits(key.kind, obligations[key].status)
  }

  /** Whatever has been left is settled. */
  ghost predicate LeftSettled(runs: Runs, obligations: Obligations, records: Records) {
    forall key | key in obligations && key.work in runs && Left(runs[key.work], key.entry) ::
      Discharged(obligations, records, key)
  }

  ghost predicate ObligationsOk(runs: Runs, journal: Journal, obligations: Obligations, records: Records, entries: Entries) {
    && VisitsHeld(runs, journal, obligations, entries)
    && KeysBelong(runs, journal, obligations, entries)
    && LeftSettled(runs, obligations, records)
  }

  ghost predicate IsVerification(records: Records, id: Id) {
    id in records && records[id].decision == Verified
  }

  /** A gate decision reviews the document its visit's artifact was verified as. */
  ghost predicate ReviewOk(records: Records, record: Record)
    requires record.request.GateRequest?
  {
    && record.evidence == record.request.evidence + ReviewEvidence(record.request.reviewed)
    && exists id :: IsVerification(records, id)
                    && records[id].key == record.key.(kind := Artifact, id := "artifact")
                    && records[id].document == Some(record.request.reviewed)
  }

  ghost predicate RecordsOk(obligations: Obligations, records: Records) {
    && (forall id | id in records :: records[id].key in obligations)
    && (forall id | id in records && records[id].request.GateRequest? :: ReviewOk(records, records[id]))
    && (forall id | IsVerification(records, id) ::
          records[id].key.kind == Artifact && records[id].key in obligations
          && obligations[records[id].key].status == Satisfied)
    && (forall i, j | IsVerification(records, i) && IsVerification(records, j) && records[i].key == records[j].key :: i == j)
  }

  ghost predicate WorksOk(runs: Runs, works: map<Id, Work>, journal: Journal) {
    forall w | w in runs ::
      && w in works && works[w].role == runs[w].owner
      && (runs[w].status == Completed ==>
            var h := History(journal, w); h != [] && Finished(works[w], h[|h| - 1].evidence))
  }

  ghost predicate HandoffOk(handoff: Handoff, now: nat) {
    && handoff.fingerprint.targetRole == handoff.targetRole
    && handoff.offeredAt <= handoff.queuedAt <= now
    && match handoff.status
       case Offered => handoff.claimedAt == None && handoff.acceptedAt == None && handoff.targetLease == None
       case Claimed =>
         && handoff.claimedAt.Some? && handoff.acceptedAt == None && handoff.targetLease.Some?
         && handoff.queuedAt <= handoff.claimedAt.value <= now
       case Accepted =>
         && handoff.claimedAt.Some? && handoff.acceptedAt.Some? && handoff.targetLease.Some?
         && handoff.queuedAt <= handoff.claimedAt.value <= handoff.acceptedAt.value <= now
  }

  /** A row that names a handoff names one made for its route, and for the owner of the state it leads to. */
  ghost predicate RowHandoffOk(runs: Runs, handoffs: map<Id, Handoff>, row: JournalRow) {
    row.handoff.Some? ==>
      && row.handoff.value in handoffs
      && row.work in runs && row.to in runs[row.work].flow.states
      && handoffs[row.handoff.value].targetRole == runs[row.work].flow.states[row.to].ownerRole
      && row.route.Some? && handoffs[row.handoff.value].fingerprint.payload == TransitionPayload(row.to, row.route.value)
      && (row.action == Pickup ==> handoffs[row.handoff.value].status == Accepted)
  }

  ghost predicate RowHandoffsOk(runs: Runs, journal: Journal, handoffs: map<Id, Handoff>) {
    forall row | row in journal :: RowHandoffOk(runs, handoffs, row)
  }

  ghost predicate HandoffsOk(handoffs: map<Id, Handoff>, items: map<Id, Item>, now: nat) {
    && (forall h | h in handoffs :: HandoffOk(handoffs[h], now))
    && (forall i | i in items :: items[i].createdAt <= now)
  }

  ghost predicate Inv(s: System) {
    && FlowsOk(s.runs)
    && RunsOk(s.runs, s.journal)
    && PendingOk(s.runs, s.journal)
    && PreparesOk(s.runs, s.journal, s.handoffs, s.prepares)
    && CompletionsOk(s.runs, s.journal, s.works, s.completions)
    && ObligationsOk(s.runs, s.journal, s.obligations, s.records, s.entryFields)
    && RecordsOk(s.obligations, s.records)
    && WorksOk(s.runs, s.works, s.journal)
    && RowHandoffsOk(s.runs, s.journal, s.handoffs)
    && HandoffsOk(s.handoffs, s.items, s.now)
  }

  // ---- Journal lemmas ----

  lemma {:induction false} HistoryRows(journal: seq<JournalRow>, work: Id)
    ensures forall row :: row in History(journal, work) <==> row in journal && row.work == work
  {
    if journal != [] {
      var n := |journal| - 1;
      HistoryRows(journal[..n], work);
      assert journal == journal[..n] + [journal[n]];
    }
  }

  lemma {:induction false} MaxIsLength(journal: seq<JournalRow>, work: Id)
    requires forall i | 0 <= i < |History(journal, work)| :: History(journal, work)[i].sequence == i + 1
    ensures MaxSequence(journal, work) == |History(journal, work)|
  {
    if journal != [] {
      var rest := journal[..|journal| - 1];
      assert forall i | 0 <= i < |History(rest, work)| :: History(rest, work)[i] == History(journal, work)[i];
      MaxIsLength(rest, work);
      if journal[|journal| - 1].work == work {
        assert History(journal, work)[|History(rest, work)|] == journal[|journal| - 1];
      }
    }
  }

  lemma HistoryAppend(journal: seq<JournalRow>, row: JournalRow, work: Id)
    ensures History(Append(journal, row), work)
            == History(journal, work)
               + if row.work == work then [row.(sequence := MaxSequence(journal, work) + 1)] else []
  {
    assert Append(journal, row)[..|journal|] == journal;
  }

  lemma {:induction false} FindExact(journal: seq<JournalRow>, operation: Id)
    ensures FindOperation(journal, operation).Some? ==>
              FindOperation(journal, operation).value in journal && FindOperation(journal, operation).value.operation == operation
    ensures FindOperation(journal, operation).None? ==> forall row | row in journal :: row.operation != operation
  {
    if journal != [] {
      var n := |journal| - 1;
      FindExact(journal[..n], operation);
      assert journal == journal[..n] + [journal[n]];
    }
  }

  // ---- Obligation lemmas ----

  ghost predicate DistinctActions(actions: seq<FlowAction>) {
    forall i, j | 0 <= i < j < |actions| :: actions[i].actionId != actions[j].actionId
  }

  lemma {:induction false} ApplicableDistinct(actions: seq<FlowAction>, fields: Fields)
    requires DistinctActions(actions)
    ensures DistinctActions(Applicable(actions, fields))
  {
    if actions != [] {
      var rest := actions[1..];
      assert DistinctActions(rest) by {
        forall i, j | 0 <= i < j < |rest| ensures rest[i].actionId != rest[j].actionId {
          assert rest[i] == actions[i + 1] && rest[j] == actions[j + 1];
        }
      }
      ApplicableDistinct(rest, fields);
      ApplicableExact(rest, fields);
      forall a | a in Applicable(rest, fields) ensures a.actionId != actions[0].actionId {
        var k :| 0 <= k < |rest| && rest[k] == a;
        assert rest[k] == actions[k + 1];
      }
    }
  }

  lemma ObligationsDistinct(state: FlowState, fields: Fields)
    requires Distinct(Identifiers(state))
    ensures DistinctActions(state.Obligations(fields))
  {
    var actions, ids := state.Actions(), Identifiers(state);
    assert DistinctActions(actions) by {
      forall i, j | 0 <= i < j < |actions| ensures actions[i].actionId != actions[j].actionId {
        assert ids[i + 1] == actions[i].actionId && ids[j + 1] == actions[j].actionId;
      }
    }
    ApplicableDistinct(actions, fields);
    ApplicableExact(actions, fields);
    forall a | a in Applicable(actions, fields) ensures a.actionId != "artifact" {
      var k :| 0 <= k < |actions| && actions[k] == a;
      assert ids[0] == "artifact" && ids[k + 1] == a.actionId;
    }
  }

  ghost function ActionKeys(work: Id, state: Id, entry: nat, actions: seq<FlowAction>): set<ObligationKey> {
    set a | a in actions :: KeyOf(work, state, entry, a)
  }

  /** Inserting a visit's obligations adds exactly their keys and leaves every other row alone. */
  lemma {:induction false} InsertFrame(
    obligations: map<ObligationKey, Obligation>, work: Id, state: Id, entry: nat, actions: seq<FlowAction>
  )
    ensures var after := InsertObligations(obligations, work, state, entry, actions);
      && after.Keys == obligations.Keys + ActionKeys(work, state, entry, actions)
      && forall key | key in obligations && key !in ActionKeys(work, state, entry, actions) :: after[key] == obligations[key]
    decreases |actions|
  {
    if actions != [] {
      var n := |actions| - 1;
      assert actions == actions[..n] + [actions[n]];
      InsertFrame(obligations, work, state, entry, actions[..n]);
      assert ActionKeys(work, state, entry, actions)
          == ActionKeys(work, state, entry, actions[..n]) + {KeyOf(work, state, entry, actions[n])};
    }
  }

  lemma {:induction false} InsertedRow(
    obligations: map<ObligationKey, Obligation>, work: Id, state: Id, entry: nat, actions: seq<FlowAction>, i: nat
  )
    requires DistinctActions(actions) && i < |actions|
    ensures var after, key := InsertObligations(obligations, work, state, entry, actions), KeyOf(work, state, entry, actions[i]);
      key in after && after[key] == Obligation(actions[i].roleId, actions[i].payload, Pending)
    decreases |actions|
  {
    var n := |actions| - 1;
    if i < n {
      InsertedRow(obligations, work, state, entry, actions[..n], i);
      assert actions[i].actionId != actions[n].actionId;
    }
  }
}
