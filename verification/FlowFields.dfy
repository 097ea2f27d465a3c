/** What a run's fields are, step by step, and what they decide: the route taken, and what each visit asks for. */
module FlowFields {
  import opened Wrappers
  import opened Json
  import opened FlowDefinition
  import opened FlowTables
  import opened FlowInvariants
  import opened FlowPreservation
  import opened FlowSteps
  import opened FlowRuns
  import opened FlowJournal
  import opened FlowTheorems

  // ---- Opening a transition ----

  const IMPACT := "architecture_impact"

  function Value(fields: Fields, k: string): Option<Json> {
    if k in fields then Some(fields[k]) else None
  }

  /** What a call proposes for a field: what it supplies, or else what the run has. */
  function Proposed(s: System, work: Id, supplied: Fields, k: string): Option<Json>
    requires work in s.runs
  {
    if k in supplied then Some(supplied[k]) else Value(s.runs[work].fields, k)
  }

  /** What governs: the recorded impact over anything proposed. */
  function Governing(s: System, work: Id, supplied: Fields, k: string): Option<Json>
    requires work in s.runs
  {
    if k == IMPACT && work in s.impacts then Some(Str(s.impacts[work])) else Proposed(s, work, supplied, k)
  }

  /** A proposed impact, other than null, that is not the recorded one. */
  predicate ImpactDisputed(s: System, work: Id, supplied: Fields)
    requires work in s.runs
  {
    && work in s.impacts && Proposed(s, work, supplied, IMPACT).Some?
    && Proposed(s, work, supplied, IMPACT).value != Null && Proposed(s, work, supplied, IMPACT).value != Str(s.impacts[work])
  }

  predicate AppliesUnder(s: System, work: Id, supplied: Fields, condition: Option<Condition>)
    requires work in s.runs
  {
    condition.None?
    || var v := Governing(s, work, supplied, condition.value.field); v.Some? && v.value.Str? && v.value.s in condition.value.values
  }

  /** The route answers the outcome, under the values that govern. */
  predicate Answers(s: System, work: Id, supplied: Fields, outcome: Id, route: FlowRoute)
    requires work in s.runs
  {
    route.outcome == outcome && AppliesUnder(s, work, supplied, route.when)
  }

  lemma MergedGoverns(s: System, work: Id, supplied: Fields)
    requires work in s.runs
    ensures MergedFields(s, work, supplied).None? <==> ImpactDisputed(s, work, supplied)
    ensures MergedFields(s, work, supplied).Some? ==>
              forall k :: Value(MergedFields(s, work, supplied).value, k) == Governing(s, work, supplied, k)
  {}

  lemma AppliesAlike(s: System, work: Id, supplied: Fields, fields: Fields, condition: Option<Condition>)
    requires work in s.runs && forall k :: Value(fields, k) == Governing(s, work, supplied, k)
    ensures Applies(condition, fields) <==> AppliesUnder(s, work, supplied, condition)
  {
    hide Governing;
    if condition.Some? {
      assert Value(fields, condition.value.field) == Governing(s, work, supplied, condition.value.field);
    }
  }

  lemma StateOf(s: System, work: Id)
    requires Inv(s) && work in s.runs
    ensures s.runs[work].currentState in s.runs[work].flow.states && !Ambiguous(s.runs[work].State())
  {
    hide Inv, HistoryOk, StatusOk, StateAfter, Reachable, Ambiguous;
    RunOf(s, work);
    assert StateAccepted(s.runs[work].flow.states, s.runs[work].State());
  }

  /** A transition is opened with the supplied fields over the run's own, and the recorded impact over both; the route it
      opens is the one that answers the outcome under those values. Nothing else about the run changes. */
  lemma OpeningIsGoverned(trace: seq<System>, steps: seq<Step>, n: nat, c: nat, call: PrepareCall)
    requires IsRun(trace, steps) && n < |steps| && steps[n] == Engine(OpenTransition(c, call))
    ensures call.work in trace[n].runs && call.work in trace[n + 1].runs
    ensures !ImpactDisputed(trace[n], call.work, call.fields)
    ensures var run, run' := trace[n].runs[call.work], trace[n + 1].runs[call.work];
      && (forall k :: Value(run'.fields, k) == Governing(trace[n], call.work, call.fields, k))
      && run.currentState in run.flow.states && call.route in run.State().routes
      && (forall route | route in run.State().routes ::
            Answers(trace[n], call.work, call.fields, call.outcome, route) <==> route == call.route)
      && run' == run.(status := HandoffPreparing, fields := run'.fields, pendingRoute := Some(call.route.routeId),
                      pendingTarget := Some(call.route.targetState), pendingRole := Some(call.route.targetRole),
                      pendingOperation := Some(call.operation), pendingRequest := Some(call.Digest()))
  {
    hide IsRun, Inv, ReplayOf, AllDischarged, Ambiguous, MergedFields, FlowState.SelectRoute, Governing, ImpactDisputed;
    StepTaken(trace, steps, n);
    AlwaysInv(trace, steps, n);
    var s, work := trace[n], call.work;
    MergedGoverns(s, work, call.fields);
    StateOf(s, work);
    var merged, state := MergedFields(s, work, call.fields).value, s.runs[work].State();
    SelectRouteExact(state, call.outcome, merged);
    forall route | route in state.routes
      ensures Answers(s, work, call.fields, call.outcome, route) <==> route.Matches(call.outcome, merged)
    {
      AppliesAlike(s, work, call.fields, merged, route.when);
    }
  }

  lemma StepTaken(trace: seq<System>, steps: seq<Step>, n: nat)
    requires IsRun(trace, steps) && n < |steps|
    ensures |trace| == |steps| + 1 && Takes(trace[n], steps[n], trace[n + 1])
  {
    hide Takes;
  }

  /** In every reachable state, a transition can be opened by a call exactly when its operation is unused, the run is active
      at the expected version in a state with everything discharged, the impact is not disputed, and some route of the
      state answers the outcome. */
  lemma OpensExactly(
    trace: seq<System>, steps: seq<Step>, n: nat, work: Id, outcome: Id, fields: Fields, expected: nat, actor: Id,
    operation: Id, lease: Id, token: string
  )
    requires IsRun(trace, steps) && n < |trace|
    ensures (exists route :: CanOpen(trace[n], PrepareCall(work, outcome, fields, expected, actor, operation, lease, token, route, None)))
            <==>
            && (forall row | row in trace[n].journal :: row.operation != operation)
            && work in trace[n].runs && trace[n].runs[work].status == Active && trace[n].runs[work].version == expected
            && AllDischarged(trace[n], work) && !ImpactDisputed(trace[n], work, fields)
            && trace[n].runs[work].currentState in trace[n].runs[work].flow.states
            && exists route | route in trace[n].runs[work].State().routes :: Answers(trace[n], work, fields, outcome, route)
  {
    hide IsRun, Inv, ReplayOf, AllDischarged, Ambiguous, MergedFields, FlowState.SelectRoute, Governing, ImpactDisputed;
    AlwaysInv(trace, steps, n);
    var s := trace[n];
    FreshExact(s.journal, operation, PrepareRequest(work, outcome, fields, expected, actor));
    if work in s.runs {
      MergedGoverns(s, work, fields);
      StateOf(s, work);
      NoRoutesAtTheEnd(s, work);
      if MergedFields(s, work, fields).Some? {
        var merged, state := MergedFields(s, work, fields).value, s.runs[work].State();
        SelectRouteExact(state, outcome, merged);
        forall route | route in state.routes
          ensures Answers(s, work, fields, outcome, route) <==> route.Matches(outcome, merged)
        {
          AppliesAlike(s, work, fields, merged, route.when);
        }
        if exists route | route in state.routes :: Answers(s, work, fields, outcome, route) {
          var route :| route in state.routes && Answers(s, work, fields, outcome, route);
          assert state.SelectRoute(outcome, merged) == Success(route);
          assert PrepareCall(work, outcome, fields, expected, actor, operation, lease, token, route, None).route == route;
        }
      }
    }
  }

  lemma NoRoutesAtTheEnd(s: System, work: Id)
    requires Inv(s) && work in s.runs
    ensures s.runs[work].currentState in s.runs[work].flow.states
    ensures s.runs[work].State().terminal ==> s.runs[work].State().routes == []
  {
    hide Inv, HistoryOk, StatusOk, StateAfter, Reachable, Ambiguous;
    RunOf(s, work);
    assert StateAccepted(s.runs[work].flow.states, s.runs[work].State());
  }

  // ---- Entering a visit ----

  /** This step journals the row and enters its visit with these fields: those requested for a new run, those the run has
      for one that is picked up. Either way they are the run's fields in the visit. */
  ghost predicate EntersWith(s: System, step: Step, s': System, row: JournalRow, fields: Fields) {
    && step.Engine? && s'.journal == s.journal + [row]
    && (match step.engine
        case StartRun(work, _, requested, _, _) => row.work == work && work !in s.runs && fields == requested
        case PickupTransition(work, _, _, _) => row.work == work && work in s.runs && fields == s.runs[work].fields
        case _ => false)
    && row.work in s'.runs && s'.runs[row.work].fields == fields && s'.runs[row.work].status == Active
    && s'.runs[row.work].currentState == row.to && s'.runs[row.work].version == row.sequence
  }

  /** The proof-only record of the fields a visit was entered with says so. */
  ghost predicate Recorded(entries: Entries, row: JournalRow, fields: Fields) {
    (row.work, row.sequence) in entries && entries[(row.work, row.sequence)] == fields
  }

  lemma AppendedRow(runs: Runs, journal: Journal, row: JournalRow)
    requires RunsOk(runs, journal)
    ensures Append(journal, row) == journal + [row.(sequence := if row.work in runs then runs[row.work].version + 1 else 1)]
  {
    hide RunsOk, History, MaxSequence;
    NextNumber(runs, journal, row.work);
  }

  lemma StartEnters(s: System, work: Id, flow: Flow, fields: Fields, actor: Id, operation: Id, s': System)
    requires Inv(s) && AcceptedFlow(flow) && CanStart(s, work, flow, fields, actor, operation)
    requires s' == Started(s, work, flow, fields, actor, operation)
    ensures |s'.journal| > 0
    ensures var row := s'.journal[|s'.journal| - 1];
      EntersWith(s, Engine(StartRun(work, flow, fields, actor, operation)), s', row, fields)
      && s'.entryFields == s.entryFields[(row.work, row.sequence) := fields]
  {
    hide Inv, RunsOk, Append, InsertObligations, ReplayOf, AcceptedFlow, FlowState.Obligations;
    RunsOf(s);
    EntryOwns(flow);
    AppendedRow(s.runs, s.journal, JournalRow(
      work, 0, operation, StartRequest(flow, fields, actor), Start, None, flow.states[flow.entryState].stateId, None, None, actor,
      map["flow_digest" := Str(flow.digest)]));
  }

  lemma PickupEnters(s: System, work: Id, expected: nat, actor: Id, operation: Id, s': System)
    requires Inv(s) && CanPickup(s, work, expected, actor, operation) && s' == PickedUp(s, work, expected, actor, operation)
    ensures |s'.journal| > 0
    ensures var row := s'.journal[|s'.journal| - 1];
      EntersWith(s, Engine(PickupTransition(work, expected, actor, operation)), s', row, s.runs[work].fields)
      && s'.entryFields == s.entryFields[(row.work, row.sequence) := s.runs[work].fields]
  {
    hide Inv, RunsOk, Append, InsertObligations, ReplayOf, FlowState.Obligations;
    RunsOf(s);
    var run := s.runs[work];
    AppendedRow(s.runs, s.journal, JournalRow(
      work, 0, operation, PickupRequest(work, expected, actor), Pickup, Some(run.currentState),
      run.flow.states[run.pendingTarget.value].stateId, run.pendingRoute, run.pendingHandoff, actor, map[]));
  }

  lemma CommitEntersNothing(s: System, c: nat, row: JournalRow)
    requires CanCommit(s, c) && row in Committed(s, c).journal && row !in s.journal
    ensures row.action == Prepare
  {
    hide ReplayOf, MaxSequence;
  }

  lemma CompletionEntersNothing(s: System, c: nat, row: JournalRow)
    requires CanCommitCompletion(s, c) && row in CompletionCommitted(s, c).journal && row !in s.journal
    ensures row.action == Complete
  {
    hide ReplayOf, MaxSequence, Finished;
  }

  /** A row that enters a visit is journalled by the start or the pickup that enters it. */
  lemma EntryJournalled(s: System, step: Step, s': System, entry: JournalRow) returns (fields: Fields)
    requires Inv(s) && Takes(s, step, s') && entry in s'.journal && entry !in s.journal && IsEntry(entry)
    ensures EntersWith(s, step, s', entry, fields) && Recorded(s'.entryFields, entry, fields)
  {
    hide Inv, Takes, EngineTakes, EntersWith;
    if !step.Engine? || !ChangesRuns(step.engine) {
      KeepsRuns(s, step, s');
      assert false;
    }
    EngineOf(s, step, s');
    fields := EntryByEngine(s, step.engine, s', entry);
  }

  lemma EntryByEngine(s: System, step: EngineStep, s': System, entry: JournalRow) returns (fields: Fields)
    requires Inv(s) && EngineTakes(s, step, s') && entry in s'.journal && entry !in s.journal && IsEntry(entry) && ChangesRuns(step)
    ensures EntersWith(s, Engine(step), s', entry, fields) && Recorded(s'.entryFields, entry, fields)
  {
    hide Inv, AcceptedFlow, CanStart, CanOpen, CanCommit, CanPickup, CanOpenCompletion, CanCommitCompletion, Started, Committed,
      PickedUp, CompletionCommitted;
    match step
    case StartRun(work, flow, requested, actor, operation) =>
      fields := requested;
      StartEnters(s, work, flow, requested, actor, operation, s');
    case PickupTransition(work, expected, actor, operation) =>
      PickupEnters(s, work, expected, actor, operation, s');
      fields := s'.runs[work].fields;
    case CommitTransition(c) => CommitEntersNothing(s, c, entry);
    case CommitCompletion(c) => CompletionEntersNothing(s, c, entry);
    case OpenTransition(c, call) =>
    case OpenCompletion(c, call) =>
  }

  lemma EngineKeepsEntries(s: System, step: EngineStep, s': System, w: Id, v: nat)
    requires EngineTakes(s, step, s') && w in s.runs && v <= s.runs[w].version && (w, v) in s.entryFields
    ensures (w, v) in s'.entryFields && s'.entryFields[(w, v)] == s.entryFields[(w, v)]
  {
    hide AcceptedFlow, CanDispatch, CanOpen, CanResume, CanCommit, CanOpenCompletion, CanResumeCompletion, CanRead, CanTry,
      CanCommitCompletion, CanOffer, TransitionKey, OfferMade, InsertObligations, Append, ReplayOf, TransitionPayload, AfterAttempt,
      FlowState.Obligations, DispatchDraft, Routed, MergedFields;
    match step
    case OfferTransition(c, at, later) => OfferKeepsTables(s, TransitionOffer(s.prepares[c]), at, later);
    case StartRun(_, _, _, _, _) =>
    case PickupTransition(_, _, _, _) =>
    case _ =>
  }

  /** What a visit of the past was entered with stays on record. */
  lemma EntriesStay(s: System, step: Step, s': System, w: Id, v: nat)
    requires Takes(s, step, s') && w in s.runs && v <= s.runs[w].version && (w, v) in s.entryFields
    ensures (w, v) in s'.entryFields && s'.entryFields[(w, v)] == s.entryFields[(w, v)]
  {
    hide EngineTakes, GovernanceTakes, HandoffTakes;
    match step
    case Engine(e) => EngineKeepsEntries(s, e, s', w, v);
    case Governance(g) => GovernanceKeepsRuns(s, g, s');
    case Handoffs(h) => HandoffKeepsRuns(s, h, s');
    case Elsewhere =>
  }

  /** Every visit was entered by one step, with the fields the record keeps. */
  lemma {:induction false} EnteredWith(trace: seq<System>, steps: seq<Step>, n: nat, entry: JournalRow) returns (j: nat, fields: Fields)
    requires IsRun(trace, steps) && n < |trace| && entry in trace[n].journal && IsEntry(entry)
    ensures j < n && EntersWith(trace[j], steps[j], trace[j + 1], entry, fields)
    ensures Recorded(trace[n].entryFields, entry, fields)
  {
    hide Takes, Inv, EntersWith, RunsOk;
    assert n > 0;
    AlwaysInv(trace, steps, n - 1);
    if entry in trace[n - 1].journal {
      j, fields := EnteredWith(trace, steps, n - 1, entry);
      RunsOf(trace[n - 1]);
      PastRow(trace[n - 1].runs, trace[n - 1].journal, entry);
      EntriesStay(trace[n - 1], steps[n - 1], trace[n], entry.work, entry.sequence);
    } else {
      j := n - 1;
      fields := EntryJournalled(trace[j], steps[j], trace[n], entry);
    }
  }

  /** What a state asks of a visit with these fields: its artifact, and those of its actions whose condition holds. */
  ghost predicate Asks(state: FlowState, fields: Fields, action: FlowAction) {
    || action == FlowAction("artifact", Artifact, state.ownerRole, map["path" := Str(state.artifact)], None)
    || ((action in state.consults || action in state.gates || action in state.informs) && Applies(action.when, fields))
  }

  lemma AsksExactly(state: FlowState, fields: Fields)
    ensures forall action :: action in state.Obligations(fields) <==> Asks(state, fields, action)
  {
    ApplicableExact(state.Actions(), fields);
  }

  /** In every run, the obligation rows of a visit are exactly what its state asks for under the fields the run had when
      that very visit was entered, each with the role and payload of its action. */
  lemma VisitAsksForItsFields(trace: seq<System>, steps: seq<Step>, n: nat, entry: JournalRow) returns (j: nat, fields: Fields)
    requires IsRun(trace, steps) && n < |trace| && entry in trace[n].journal && IsEntry(entry)
    ensures j < n && EntersWith(trace[j], steps[j], trace[j + 1], entry, fields)
    ensures entry.work in trace[n].runs && entry.to in trace[n].runs[entry.work].flow.states
    ensures var state := trace[n].runs[entry.work].flow.states[entry.to];
      && (forall action | Asks(state, fields, action) ::
            Held(trace[n].obligations, entry.work, entry.to, entry.sequence, action))
      && (forall key | key in trace[n].obligations && IsVisit(key, entry.work, entry.to, entry.sequence) ::
            exists action :: Asks(state, fields, action) && key == KeyOf(entry.work, entry.to, entry.sequence, action))
  {
    hide IsRun, Inv, EntersWith, FlowState.Obligations, Asks, VisitKeys;
    AlwaysInv(trace, steps, n);
    j, fields := EnteredWith(trace, steps, n, entry);
    VisitIsExact(trace, steps, n, entry);
    var s := trace[n];
    AsksExactly(s.runs[entry.work].flow.states[entry.to], fields);
    VisitHeld(s, entry);
    forall key | key in s.obligations && IsVisit(key, entry.work, entry.to, entry.sequence)
      ensures exists action :: action in VisitActions(s.runs, s.entryFields, entry) && key == KeyOf(entry.work, entry.to, entry.sequence, action)
    {
      assert key in VisitKeys(s.runs, s.entryFields, entry);
      KeyOfVisit(s.runs, s.entryFields, entry, key);
    }
  }

  lemma KeyOfVisit(runs: Runs, entries: Entries, entry: JournalRow, key: ObligationKey)
    requires Entered(runs, entries, entry) && key in VisitKeys(runs, entries, entry)
    ensures exists action :: action in VisitActions(runs, entries, entry) && key == KeyOf(entry.work, entry.to, entry.sequence, action)
  {
    hide FlowState.Obligations;
  }

  lemma VisitHeld(s: System, entry: JournalRow)
    requires Inv(s) && entry in s.journal && IsEntry(entry)
    ensures VisitOk(s.runs, s.obligations, s.entryFields, entry)
  {
    hide FlowsOk, RunsOk, PendingOk, RecordsOk, PreparesOk, CompletionsOk, WorksOk, RowHandoffsOk, HandoffsOk, KeysBelong,
      LeftSettled, VisitOk;
  }

  /** And whenever the journal has left a visit, everything so asked of it is discharged. */
  lemma LeftVisitsDidWhatWasAsked(trace: seq<System>, steps: seq<Step>, n: nat, row: JournalRow)
    returns (entry: JournalRow, j: nat, fields: Fields)
    requires IsRun(trace, steps) && n < |trace| && row in trace[n].journal && row.action in {Prepare, Complete}
    ensures entry in trace[n].journal && LeavesVisit(entry, row)
    ensures j < n && EntersWith(trace[j], steps[j], trace[j + 1], entry, fields)
    ensures entry.work in trace[n].runs && entry.to in trace[n].runs[entry.work].flow.states
    ensures forall action | Asks(trace[n].runs[entry.work].flow.states[entry.to], fields, action) ::
              Discharged(trace[n].obligations, trace[n].records, KeyOf(entry.work, entry.to, entry.sequence, action))
  {
    hide IsRun, EntersWith, FlowState.Obligations, Asks, Discharged, Held;
    entry := LeftVisitsSettled(trace, steps, n, row);
    j, fields := EnteredWith(trace, steps, n, entry);
    AsksExactly(trace[n].runs[entry.work].flow.states[entry.to], fields);
  }
}
