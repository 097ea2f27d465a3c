/** Every step keeps the whole invariant. */
module FlowSteps {
  import opened Wrappers
  import opened Json
  import opened FlowDefinition
  import opened FlowTables
  import opened FlowInvariants
  import opened FlowPreservation

  // ---- One run, one call: what the invariant says of it ----

  lemma RunOf(s: System, work: Id)
    requires Inv(s) && work in s.runs
    ensures RunOk(s.runs[work], work, History(s.journal, work)) && AcceptedFlow(s.runs[work].flow)
  {
    hide RunOk, AcceptedFlow, OperationsDistinct, ObligationsOk, RecordsOk, PreparesOk, CompletionsOk, WorksOk, HandoffsOk;
  }

  lemma CallOf(s: System, c: nat)
    requires Inv(s)
    ensures c in s.prepares ==> PrepareCallOk(s.runs, s.journal, s.prepares[c]) && CallHandoffOk(s.handoffs, s.prepares[c])
    ensures c in s.completions ==> CompleteCallOk(s.runs, s.journal, s.completions[c]) && SeenOk(s.works, s.completions[c])
  {
    hide RunsOk, FlowsOk, PendingOk, ObligationsOk, RecordsOk, WorksOk, RowHandoffsOk, HandoffsOk;
    hide PrepareCallOk, CallHandoffOk, CompleteCallOk, SeenOk;
  }

  /** A call whose operation is not in the journal is the one its run has open. */
  lemma FreshCallIsOpen(s: System, c: nat)
    requires Inv(s)
    ensures c in s.prepares && ReplayOf(s.journal, s.prepares[c].operation, s.prepares[c].Digest()) == Fresh ==>
              CallOpen(s.runs[s.prepares[c].work], s.prepares[c])
    ensures c in s.completions && ReplayOf(s.journal, s.completions[c].operation, s.completions[c].Digest()) == Fresh ==>
              CompletionOpen(s.runs[s.completions[c].work], s.completions[c])
  {
    hide Inv, CallHandoffOk, SeenOk, CallOpen;
    CallOf(s, c);
    if c in s.prepares && ReplayOf(s.journal, s.prepares[c].operation, s.prepares[c].Digest()) == Fresh {
      FreshOperation(s.journal, s.prepares[c].operation, s.prepares[c].Digest());
    }
    if c in s.completions && ReplayOf(s.journal, s.completions[c].operation, s.completions[c].Digest()) == Fresh {
      FreshOperation(s.journal, s.completions[c].operation, s.completions[c].Digest());
    }
  }

  // ---- Flow engine ----

  lemma StartKeeps(s: System, work: Id, flow: Flow, fields: Fields, actor: Id, operation: Id)
    requires Inv(s) && AcceptedFlow(flow) && CanStart(s, work, flow, fields, actor, operation)
    ensures Inv(Started(s, work, flow, fields, actor, operation))
  {
    hide AcceptedFlow, RunOk, InsertObligations, History, MaxSequence, RunsOk, PendingOk, PreparesOk, CompletionsOk,
      ObligationsOk, RecordsOk, WorksOk, RowHandoffsOk, HandoffsOk, EntriesPast, KeysBelong, FindOperation;
    var s' := Started(s, work, flow, fields, actor, operation);
    var run := s'.runs[work];
    EntryOwns(flow);
    NextNumber(s.runs, s.journal, work);
    FreshOperation(s.journal, operation, StartRequest(flow, fields, actor));
    var row := s'.journal[|s.journal|];
    StartedRunOk(flow, work, row, run);
    AppendRow(s.runs, s.journal, row, run);
    PendingRecord(s.runs, s.journal, row, run);
    RunsArePast(s.runs, s.journal);
    Enter(s, row, run, fields);
    PreparesGrow(s.runs, s'.runs, s.journal, s'.journal, s.handoffs, s.prepares);
    CompletionsGrow(s.runs, s'.runs, s.journal, s'.journal, s.works, s'.works, s.completions);
    WorksAppend(s.runs, s.works, s'.works, s.journal, row, run);
    RowsGrow(s.runs, s'.runs, s.journal, row, s.handoffs);
  }

  /** Entering a visit, with its evidence. */
  lemma Enter(s: System, row: JournalRow, run: Run, fields: Fields)
    requires EntriesPast(s.runs, s.journal) && Entering(s.runs, row, run) && Distinct(Identifiers(run.flow.states[row.to]))
    requires ObligationsOk(s.runs, s.journal, s.obligations, s.records, s.entryFields) && RecordsOk(s.obligations, s.records)
    ensures var o' := InsertObligations(s.obligations, row.work, row.to, row.sequence, run.flow.states[row.to].Obligations(fields));
      && ObligationsOk(s.runs[row.work := run], s.journal + [row], o', s.records, s.entryFields[(row.work, row.sequence) := fields])
      && RecordsOk(o', s.records)
  {
    hide InsertObligations, Identifiers, VisitsHeld, LeftSettled, RecordsOk, EntriesPast, Held, FlowState.Obligations;
    EnterVisit(s.runs, s.journal, s.obligations, s.records, s.entryFields, row, run, fields);
    EnterRows(s.runs, s.journal, s.obligations, s.entryFields, row, run, fields);
    RecordsCarry(s.obligations,
      InsertObligations(s.obligations, row.work, row.to, row.sequence, run.flow.states[row.to].Obligations(fields)), s.records);
  }

  /** What the proofs below use of an accepted flow. */
  lemma EntryOwns(flow: Flow)
    requires AcceptedFlow(flow)
    ensures flow.entryState in flow.states
    ensures forall s | s in flow.states :: flow.states[s].stateId == s && Distinct(Identifiers(flow.states[s]))
  {
    forall s | s in flow.states ensures Distinct(Identifiers(flow.states[s])) {
      assert StateAccepted(flow.states, flow.states[s]);
    }
  }

  lemma StartedRunOk(flow: Flow, work: Id, row: JournalRow, run: Run)
    requires flow.entryState in flow.states && run.owner == flow.states[flow.entryState].ownerRole
    requires row.work == work && row.sequence == 1 && row.action == Start && row.from == None && row.to == flow.entryState
    requires row.request.StartRequest? && row.request.flow == flow
    requires run == Run(flow, flow.entryState, run.owner, Active, run.fields, 1, None, None, None, None, None, None)
    ensures RunOk(run, work, [] + [row])
  {
    assert RowOk(flow, work, [row], 0);
  }

  /** Records stay sound when obligation rows they speak of are carried over. */
  lemma RecordsCarry(o: Obligations, o': Obligations, r: Records)
    requires RecordsOk(o, r) && forall key | key in o :: key in o' && o'[key] == o[key]
    ensures RecordsOk(o', r)
  {}

  lemma RecordsTouch(o: Obligations, r: Records, key: ObligationKey, status: ObligationStatus)
    requires RecordsOk(o, r) && key in o && key.kind != Artifact
    ensures RecordsOk(o[key := o[key].(status := status)], r)
  {}

  lemma DispatchKeeps(s: System, work: Id, kind: Kind, id: Id, actor: Id)
    requires Inv(s) && CanDispatch(s, work, kind, id, actor)
    ensures Inv(DispatchedTo(s, work, kind, id, actor))
  {
    hide RunsOk, FlowsOk, PendingOk, PreparesOk, CompletionsOk, WorksOk, RowHandoffsOk, ObligationsOk, RecordsOk, HandoffOk,
      Routable, DispatchKey, DispatchDraft;
    var s' := DispatchedTo(s, work, kind, id, actor);
    var key := CurrentKey(s, work, kind, id);
    TouchCurrent(s.runs, s.journal, s.obligations, s'.obligations, s.records, s.records, s.entryFields, key, Dispatched);
    RecordsTouch(s.obligations, s.records, key, Dispatched);
  }

  /** A run that stays in its visit but stops being active: everything but the call that did it. */
  lemma HoldVisit(s: System, work: Id, run: Run)
    requires Inv(s) && work in s.runs && s.runs[work].status == Active && AllDischarged(s, work)
    requires run.flow == s.runs[work].flow && run.owner == s.runs[work].owner && run.version == s.runs[work].version
    requires run.status in {HandoffPreparing, CompletionPreparing} && run.pendingOperation.Some?
    requires forall row | row in s.journal :: row.operation != run.pendingOperation.value
    requires RunOk(run, work, History(s.journal, work))
    ensures Inv(s.(runs := s.runs[work := run]))
  {
    hide AcceptedFlow, RunOk, RunsOk, FlowsOk, PendingOk, ObligationsOk, RecordsOk, PreparesOk, CompletionsOk, WorksOk,
      RowHandoffsOk, EntriesPast, HandoffsOk, Discharged;
    HoldOthers(s.runs, s.works, s.journal, s.handoffs, work, run);
    UpdateRun(s.runs, s.journal, work, run);
    PreparesGrow(s.runs, s.runs[work := run], s.journal, s.journal, s.handoffs, s.prepares);
    CompletionsGrow(s.runs, s.runs[work := run], s.journal, s.journal, s.works, s.works, s.completions);
    RunsArePast(s.runs, s.journal);
    LeaveVisit(s.runs, s.journal, s.journal, s.obligations, s.records, s.entryFields, work, run);
  }

  lemma HoldOthers(runs: Runs, works: map<Id, Work>, journal: Journal, handoffs: map<Id, Handoff>, work: Id, run: Run)
    requires FlowsOk(runs) && PendingOk(runs, journal) && WorksOk(runs, works, journal) && RowHandoffsOk(runs, journal, handoffs)
    requires work in runs && run.flow == runs[work].flow && run.owner == runs[work].owner && run.status != Completed
    requires run.pendingOperation.Some? && forall row | row in journal :: row.operation != run.pendingOperation.value
    ensures var runs' := runs[work := run];
      && FlowsOk(runs') && PendingOk(runs', journal) && WorksOk(runs', works, journal) && RowHandoffsOk(runs', journal, handoffs)
  {
    hide AcceptedFlow, History;
    forall row | row in journal ensures RowHandoffOk(runs[work := run], handoffs, row) {
      assert RowHandoffOk(runs, handoffs, row);
    }
  }

  lemma OpenKeeps(s: System, c: nat, call: PrepareCall)
    requires Inv(s) && c !in s.prepares && CanOpen(s, call)
    ensures Inv(Opened(s, c, call))
  {
    hide AcceptedFlow, HistoryOk, RunsOk, FlowsOk, PendingOk, ObligationsOk, RecordsOk, CompletionsOk, WorksOk, RowHandoffsOk,
      HandoffsOk, AllDischarged, MergedFields, StateAfter;
    var run, run' := s.runs[call.work], Opened(s, c, call).runs[call.work];
    FreshOperation(s.journal, call.operation, call.Digest());
    RunOf(s, call.work);
    assert RouteOpen(run', call.work, call.route);
    HoldVisit(s, call.work, run');
    assert CallOpen(run', call);
    AddPrepare(s.(runs := s.runs[call.work := run']), c, call);
  }

  lemma AddPrepare(s: System, c: nat, call: PrepareCall)
    requires Inv(s) && PrepareCallOk(s.runs, s.journal, call) && CallHandoffOk(s.handoffs, call)
    ensures Inv(s.(prepares := s.prepares[c := call]))
  {
    hide RunsOk, FlowsOk, PendingOk, ObligationsOk, RecordsOk, CompletionsOk, WorksOk, RowHandoffsOk, HandoffsOk;
    hide PrepareCallOk, CallHandoffOk;
  }

  lemma AddCompletion(s: System, c: nat, call: CompleteCall)
    requires Inv(s) && CompleteCallOk(s.runs, s.journal, call) && SeenOk(s.works, call)
    ensures Inv(s.(completions := s.completions[c := call]))
  {
    hide RunsOk, FlowsOk, PendingOk, ObligationsOk, RecordsOk, PreparesOk, WorksOk, RowHandoffsOk, HandoffsOk;
    hide CompleteCallOk, SeenOk;
  }

  lemma ResumeKeeps(s: System, c: nat, call: PrepareCall)
    requires Inv(s) && c !in s.prepares && CanResume(s, call)
    ensures Inv(Resumed(s, c, call))
  {
    hide Inv, AcceptedFlow, HistoryOk, StateAfter;
    var run := s.runs[call.work];
    RunOf(s, call.work);
    var route :| RouteOpen(run, call.work, route);
    assert CallOpen(run, call);
    AddPrepare(s, c, call);
  }

  lemma OfferForKeeps(s: System, c: nat, at: nat, later: nat)
    requires Inv(s) && CanOfferFor(s, c, at, later)
    ensures Inv(OfferedFor(s, c, at, later))
  {
    hide Inv, CanOffer, OfferMade, RouteOpen;
    var draft := TransitionOffer(s.prepares[c]);
    OfferKeeps(s, draft, at, later);
    OfferKeepsTables(s, draft, at, later);
    CallOf(s, c);
    var t := OfferMade(s, draft, at, later);
    var call, call' := s.prepares[c], s.prepares[c].(handoff := Some(draft.key));
    assert call'.Digest() == call.Digest();
    assert CallOpen(t.runs[call.work], call) ==> CallOpen(t.runs[call.work], call');
    assert CallRecorded(t.journal, call) ==> CallRecorded(t.journal, call');
    AddPrepare(t, c, call');
  }

  lemma OfferKeepsTables(s: System, draft: HandoffOffer, at: nat, later: nat)
    requires CanOffer(s, draft, at, later)
    ensures var t := OfferMade(s, draft, at, later);
      t == s.(now := later, items := t.items, handoffs := t.handoffs)
  {
    hide CanOffer, HandoffFor, HandoffDraft, Routed;
    assert draft.key !in s.handoffs ==> NewOffer(s, draft, at, later).runs == s.runs;
  }

  lemma CommitKeeps(s: System, c: nat)
    requires Inv(s) && CanCommit(s, c)
    ensures Inv(Committed(s, c))
  {
    hide AcceptedFlow, RunOk, History, MaxSequence, RunsOk, PendingOk, PreparesOk, CompletionsOk,
      ObligationsOk, RecordsOk, WorksOk, RowHandoffsOk, HandoffsOk, EntriesPast, FindOperation, RouteOpen, CallRecorded,
      TransitionPayload, TransitionKey;
    var s' := Committed(s, c);
    var call := s.prepares[c];
    var run, run', h := s.runs[call.work], s'.runs[call.work], History(s.journal, call.work);
    FreshOperation(s.journal, call.operation, call.Digest());
    NextNumber(s.runs, s.journal, call.work);
    CallOf(s, c);
    FreshCallIsOpen(s, c);
    RunOf(s, call.work);
    var row := s'.journal[|s.journal|];
    OpenRouteLands(run, call.work, call.route);
    OpenCallVersion(run, call);
    CommittedRunOk(run, run', call.work, h, call.route, row);
    AppendRow(s.runs, s.journal, row, run');
    PendingRecord(s.runs, s.journal, row, run');
    CommittedPrepares(s.runs, s'.runs, s.journal, s.handoffs, s.prepares, call.work, row, call.route);
    DropPrepare(s'.runs, s'.journal, s.handoffs, s.prepares, c);
    CompletionsGrow(s.runs, s'.runs, s.journal, s'.journal, s.works, s.works, s.completions);
    RunsArePast(s.runs, s.journal);
    LeaveVisit(s.runs, s.journal, s'.journal, s.obligations, s.records, s.entryFields, call.work, run');
    OwnerWorks(s, call.work);
    WorksAppend(s.runs, s.works, s.works, s.journal, row, run');
    RowsGrow(s.runs, s'.runs, s.journal, row, s.handoffs);
  }

  lemma OwnerWorks(s: System, work: Id)
    requires Inv(s) && work in s.runs
    ensures work in s.works && s.works[work].role == s.runs[work].owner
  {
    hide RunsOk, FlowsOk, PendingOk, ObligationsOk, RecordsOk, PreparesOk, CompletionsOk, RowHandoffsOk, HandoffsOk, History;
  }

  lemma DropPrepare(runs: Runs, journal: Journal, handoffs: map<Id, Handoff>, prepares: map<nat, PrepareCall>, c: nat)
    requires PreparesOk(runs, journal, handoffs, prepares)
    ensures PreparesOk(runs, journal, handoffs, prepares - {c})
  {
    hide PrepareCallOk, CallHandoffOk;
  }

  lemma DropCompletion(runs: Runs, journal: Journal, works: map<Id, Work>, completions: map<nat, CompleteCall>, c: nat)
    requires CompletionsOk(runs, journal, works, completions)
    ensures CompletionsOk(runs, journal, works, completions - {c})
  {
    hide CompleteCallOk, SeenOk;
  }

  lemma OpenCallVersion(run: Run, call: PrepareCall)
    requires CallOpen(run, call)
    ensures call.expected == run.version
  {}

  lemma OpenRouteLands(run: Run, work: Id, route: FlowRoute)
    requires AcceptedFlow(run.flow) && RouteOpen(run, work, route)
    ensures route in run.State().routes && RouteLands(run.flow.states, route)
  {
    SelectedRouteLands(run, run.pendingRequest.value.outcome, run.fields, route);
  }

  lemma CommittedRunOk(run: Run, run': Run, work: Id, h: Journal, route: FlowRoute, row: JournalRow)
    requires RunOk(run, work, h) && run.status == HandoffPreparing && RouteOpen(run, work, route)
    requires route in run.State().routes && RouteLands(run.flow.states, route)
    requires row.handoff == Some(TransitionKey(work, run.version, route.routeId)) && SamePending(run, row.operation, row.request)
    requires row == JournalRow(work, |h| + 1, row.operation, row.request, Prepare, Some(run.currentState), route.targetState,
                               Some(route.routeId), row.handoff, row.actor, row.evidence)
    requires run' == run.(status := HandoffPending, pendingHandoff := row.handoff, version := run.version + 1)
    ensures RunOk(run', work, h + [row])
  {
    assert RouteTaken(run.flow, row);
    assert Continues(run.flow, work, h + [row], |h|);
    AppendedOk(run.flow, work, h, row);
  }

  /** Recording a transition records every call that had it open: they all selected the same route. */
  lemma CommittedPrepares(
    runs: Runs, runs': Runs, journal: Journal, handoffs: map<Id, Handoff>, prepares: map<nat, PrepareCall>, work: Id,
    row: JournalRow, route: FlowRoute
  )
    requires PreparesOk(runs, journal, handoffs, prepares) && work in runs
    requires RouteOpen(runs[work], work, route) && SamePending(runs[work], row.operation, row.request)
    requires row.route == Some(route.routeId) && row.to == route.targetState
    requires runs'.Keys == runs.Keys && forall w | w in runs && w != work :: runs'[w] == runs[w]
    ensures PreparesOk(runs', journal + [row], handoffs, prepares)
  {
    hide CallHandoffOk;
    forall c | c in prepares ensures PrepareCallOk(runs', journal + [row], prepares[c]) {
      var call := prepares[c];
      assert PrepareCallOk(runs, journal, call);
      if CallRecorded(journal, call) {
        assert CallRecorded(journal + [row], call);
      } else if call.work == work {
        assert row in journal + [row];
        assert CallRecorded(journal + [row], call);
      }
    }
  }

  lemma PickupKeeps(s: System, work: Id, expected: nat, actor: Id, operation: Id)
    requires Inv(s) && CanPickup(s, work, expected, actor, operation)
    ensures Inv(PickedUp(s, work, expected, actor, operation))
  {
    hide AcceptedFlow, RunOk, History, MaxSequence, RunsOk, PendingOk, PreparesOk, CompletionsOk, InsertObligations,
      ObligationsOk, RecordsOk, WorksOk, RowHandoffsOk, HandoffsOk, EntriesPast, FindOperation, Identifiers, TransitionPayload;
    var s' := PickedUp(s, work, expected, actor, operation);
    var run, run', h := s.runs[work], s'.runs[work], History(s.journal, work);
    FreshOperation(s.journal, operation, PickupRequest(work, expected, actor));
    NextNumber(s.runs, s.journal, work);
    RunOf(s, work);
    EntryOwns(run.flow);
    var row := s'.journal[|s.journal|];
    PickedUpRunOk(run, run', work, h, row);
    AppendRow(s.runs, s.journal, row, run');
    PendingRecord(s.runs, s.journal, row, run');
    RunsArePast(s.runs, s.journal);
    Enter(s, row, run', run.fields);
    PreparesGrow(s.runs, s'.runs, s.journal, s'.journal, s.handoffs, s.prepares);
    CompletionsGrow(s.runs, s'.runs, s.journal, s'.journal, s.works, s'.works, s.completions);
    WorksAppend(s.runs, s.works, s'.works, s.journal, row, run');
    PendingHandoff(s.runs, s.journal, s.handoffs, work);
    RowsGrow(s.runs, s'.runs, s.journal, row, s.handoffs);
  }

  lemma PickedUpRunOk(run: Run, run': Run, work: Id, h: Journal, row: JournalRow)
    requires RunOk(run, work, h) && run.status == HandoffPending && run.pendingTarget.Some?
    requires run.pendingTarget.value in run.flow.states && row.request == PickupRequest(work, run.version, row.actor)
    requires row == JournalRow(work, |h| + 1, row.operation, row.request, Pickup, Some(run.currentState), run.pendingTarget.value,
                               run.pendingRoute, run.pendingHandoff, row.actor, row.evidence)
    requires run' == Run(run.flow, row.to, run.flow.states[row.to].ownerRole, Active, run.fields, run.version + 1,
                         None, None, None, None, None, None)
    ensures RunOk(run', work, h + [row])
  {
    assert RowOk(run.flow, work, h, |h| - 1);
    assert Continues(run.flow, work, h + [row], |h|);
    AppendedOk(run.flow, work, h, row);
  }

  /** The handoff a run waits for is made for the owner of the state it waits to enter. */
  lemma PendingHandoff(runs: Runs, journal: Journal, handoffs: map<Id, Handoff>, work: Id)
    requires RunsOk(runs, journal) && RowHandoffsOk(runs, journal, handoffs)
    requires work in runs && runs[work].status == HandoffPending
    ensures runs[work].pendingHandoff.Some? && runs[work].pendingTarget.Some?
    ensures runs[work].pendingHandoff.value in handoffs && runs[work].pendingTarget.value in runs[work].flow.states
    ensures handoffs[runs[work].pendingHandoff.value].targetRole
            == runs[work].flow.states[runs[work].pendingTarget.value].ownerRole
    ensures runs[work].pendingRoute.Some?
    ensures handoffs[runs[work].pendingHandoff.value].fingerprint.payload
            == TransitionPayload(runs[work].pendingTarget.value, runs[work].pendingRoute.value)
  {
    hide OperationsDistinct;
    var h := History(journal, work);
    assert RunOk(runs[work], work, h);
    var last := h[|h| - 1];
    assert RowOk(runs[work].flow, work, h, |h| - 1);
    HistoryRows(journal, work);
    assert last in h;
    assert RowHandoffOk(runs, handoffs, last);
  }

  lemma OpenCompletionKeeps(s: System, c: nat, call: CompleteCall)
    requires Inv(s) && c !in s.completions && CanOpenCompletion(s, call)
    ensures Inv(CompletionOpened(s, c, call))
  {
    hide AcceptedFlow, HistoryOk, RunsOk, FlowsOk, PendingOk, ObligationsOk, RecordsOk, PreparesOk, CompletionsOk, WorksOk,
      RowHandoffsOk, HandoffsOk, AllDischarged, StateAfter;
    var run' := CompletionOpened(s, c, call).runs[call.work];
    FreshOperation(s.journal, call.operation, call.Digest());
    RunOf(s, call.work);
    HoldVisit(s, call.work, run');
    assert CompletionOpen(run', call);
    AddCompletion(s.(runs := s.runs[call.work := run']), c, call);
  }

  lemma ResumeCompletionKeeps(s: System, c: nat, call: CompleteCall)
    requires Inv(s) && c !in s.completions && CanResumeCompletion(s, call)
    ensures Inv(CompletionResumed(s, c, call))
  {
    hide Inv;
    assert CompletionOpen(s.runs[call.work], call);
    AddCompletion(s, c, call);
  }

  lemma ReadKeeps(s: System, c: nat)
    requires Inv(s) && CanRead(s, c)
    ensures Inv(WorkRead(s, c))
  {
    hide Inv;
    CallOf(s, c);
    var call' := WorkRead(s, c).completions[c];
    assert call'.Digest() == s.completions[c].Digest();
    assert CompletionOpen(s.runs[call'.work], s.completions[c]) ==> CompletionOpen(s.runs[call'.work], call');
    AddCompletion(s, c, call');
  }

  lemma TryKeeps(s: System, c: nat, blocked: bool)
    requires Inv(s) && CanTry(s, c)
    ensures Inv(CompletionTried(s, c, blocked))
  {
    hide Inv;
    CallOf(s, c);
    var s', call' := CompletionTried(s, c, blocked), CompletionTried(s, c, blocked).completions[c];
    assert call'.Digest() == s.completions[c].Digest();
    assert CompletionOpen(s.runs[call'.work], s.completions[c]) ==> CompletionOpen(s.runs[call'.work], call');
    AddCompletion(s, c, call');
    WorksMove(s.(completions := s'.completions), s'.works);
  }

  /** Work items keep their role, and a completed one stays as it is. */
  lemma WorksMove(s: System, works: map<Id, Work>)
    requires Inv(s)
    requires forall w | w in s.works ::
               w in works && works[w].role == s.works[w].role && (s.works[w].status == WorkCompleted ==> works[w] == s.works[w])
    ensures Inv(s.(works := works))
  {
    hide RunsOk, FlowsOk, PendingOk, PreparesOk, ObligationsOk, RecordsOk, RowHandoffsOk, HandoffsOk, History, CompletionsOk;
    CompletionsGrow(s.runs, s.runs, s.journal, s.journal, s.works, works, s.completions);
  }

  lemma CommitCompletionKeeps(s: System, c: nat)
    requires Inv(s) && CanCommitCompletion(s, c)
    ensures Inv(CompletionCommitted(s, c))
  {
    hide AcceptedFlow, RunOk, History, MaxSequence, RunsOk, PendingOk, PreparesOk, CompletionsOk,
      ObligationsOk, RecordsOk, WorksOk, RowHandoffsOk, HandoffsOk, EntriesPast, FindOperation;
    var s' := CompletionCommitted(s, c);
    var call := s.completions[c];
    var run, run', h := s.runs[call.work], s'.runs[call.work], History(s.journal, call.work);
    FreshOperation(s.journal, call.operation, call.Digest());
    NextNumber(s.runs, s.journal, call.work);
    CallOf(s, c);
    FreshCallIsOpen(s, c);
    RunOf(s, call.work);
    PendingNames(run, call.work, h);
    var row := s'.journal[|s.journal|];
    CompletedRunOk(run, run', call.work, h, row);
    AppendRow(s.runs, s.journal, row, run');
    PendingRecord(s.runs, s.journal, row, run');
    PreparesGrow(s.runs, s'.runs, s.journal, s'.journal, s.handoffs, s.prepares);
    CompletedCalls(s.runs, s'.runs, s.journal, s.works, s.completions, call.work, row);
    DropCompletion(s'.runs, s'.journal, s.works, s.completions, c);
    RunsArePast(s.runs, s.journal);
    LeaveVisit(s.runs, s.journal, s'.journal, s.obligations, s.records, s.entryFields, call.work, run');
    OwnerWorks(s, call.work);
    WorksAppend(s.runs, s.works, s.works, s.journal, row, run');
    RowsGrow(s.runs, s'.runs, s.journal, row, s.handoffs);
  }

  lemma CompletedRunOk(run: Run, run': Run, work: Id, h: Journal, row: JournalRow)
    requires RunOk(run, work, h) && run.status == CompletionPreparing
    requires run.pendingRequest == Some(CompleteRequest(work, run.version, row.actor, row.evidence))
    requires run.pendingRequest == Some(row.request)
    requires row == JournalRow(work, |h| + 1, row.operation, row.request, Complete, Some(run.currentState), run.currentState,
                               None, None, row.actor, row.evidence)
    requires run' == run.(status := Completed, pendingOperation := None, pendingRequest := None, version := run.version + 1)
    ensures RunOk(run', work, h + [row])
  {
    assert RowOk(run.flow, work, h, |h| - 1);
    assert Continues(run.flow, work, h + [row], |h|);
    AppendedOk(run.flow, work, h, row);
  }

  lemma CompletedCalls(
    runs: Runs, runs': Runs, journal: Journal, works: map<Id, Work>, completions: map<nat, CompleteCall>, work: Id, row: JournalRow
  )
    requires CompletionsOk(runs, journal, works, completions) && work in runs
    requires SamePending(runs[work], row.operation, row.request)
    requires runs'.Keys == runs.Keys && forall w | w in runs && w != work :: runs'[w] == runs[w]
    ensures CompletionsOk(runs', journal + [row], works, completions)
  {
    forall c | c in completions ensures CompleteCallOk(runs', journal + [row], completions[c]) {
      var call := completions[c];
      assert CompleteCallOk(runs, journal, call);
      if Journalled(journal, call.operation, call.Digest()) {
        assert Journalled(journal + [row], call.operation, call.Digest());
      } else if call.work == work {
        assert row in journal + [row];
        assert Journalled(journal + [row], call.operation, call.Digest());
      }
    }
  }

  /** A call that stops, at any point, leaves nothing behind but what it has committed. */
  lemma CrashKeeps(s: System, c: nat)
    requires Inv(s)
    ensures Inv(s.(prepares := s.prepares - {c})) && Inv(s.(completions := s.completions - {c}))
  {
    hide RunsOk, FlowsOk, PendingOk, ObligationsOk, RecordsOk, WorksOk, RowHandoffsOk, HandoffsOk;
  }

  // ---- Governance ----

  lemma VerifyKeeps(s: System, work: Id, path: string, metadata: Metadata, actor: Id, recordId: Id)
    requires Inv(s) && CanVerify(s, work, path, metadata, actor, recordId)
    ensures Inv(VerifiedArtifact(s, work, path, metadata, actor, recordId))
  {
    hide RunsOk, FlowsOk, PendingOk, PreparesOk, CompletionsOk, WorksOk, RowHandoffsOk, HandoffsOk, ObligationsOk,
      RecordsOk, MaterializePath, Replace;
    var s' := VerifiedArtifact(s, work, path, metadata, actor, recordId);
    var key := CurrentKey(s, work, Artifact, "artifact");
    TouchCurrent(s.runs, s.journal, s.obligations, s'.obligations, s.records, s'.records, s.entryFields, key, Satisfied);
    VerifiedRecord(s.obligations, s.records, key, recordId, s'.records[recordId]);
  }

  /** A pending artifact has no verification yet, so its first one is its only one. */
  lemma VerifiedRecord(o: Obligations, r: Records, key: ObligationKey, id: Id, record: Record)
    requires RecordsOk(o, r) && key in o && key.kind == Artifact && o[key].status == Pending && id !in r
    requires record.key == key && record.decision == Verified && !record.request.GateRequest?
    ensures RecordsOk(o[key := o[key].(status := Satisfied)], r[id := record])
  {
    var r' := r[id := record];
    forall i | i in r' && r'[i].request.GateRequest? ensures ReviewOk(r', r'[i]) {
      ReviewStays(r, r', r'[i]);
    }
    assert forall i | IsVerification(r', i) && i != id :: IsVerification(r, i);
  }

  lemma RecordOnly(s: System, recordId: Id, record: Record)
    requires ObligationsOk(s.runs, s.journal, s.obligations, s.records, s.entryFields) && recordId !in s.records
    ensures ObligationsOk(s.runs, s.journal, s.obligations, s.records[recordId := record], s.entryFields)
  {
    hide VisitsHeld, KeysBelong, Discharged;
    forall key | key in s.obligations && key.work in s.runs && Left(s.runs[key.work], key.entry)
      ensures Discharged(s.obligations, s.records[recordId := record], key)
    {
      DischargedStays(s.obligations, s.obligations, s.records, s.records[recordId := record], key);
    }
  }

  lemma ConsultKeeps(
    s: System, work: Id, id: Id, decision: Decision, actor: Id, recordId: Id, reason: string, evidence: Fields
  )
    requires Inv(s) && CanConsult(s, work, id, decision, actor, recordId, reason, evidence)
    ensures Inv(Consulted(s, work, id, decision, actor, recordId, reason, evidence))
  {
    hide RunsOk, FlowsOk, PendingOk, PreparesOk, CompletionsOk, WorksOk, RowHandoffsOk, HandoffsOk, ObligationsOk, RecordsOk;
    var record := Consulted(s, work, id, decision, actor, recordId, reason, evidence).records[recordId];
    RecordOnly(s, recordId, record);
    AddRecord(s.obligations, s.obligations, s.records, recordId, record);
  }

  lemma GateRecordKeeps(s: System, o': Obligations, recordId: Id, record: Record)
    requires ObligationsOk(s.runs, s.journal, s.obligations, s.records, s.entryFields) && RecordsOk(s.obligations, s.records)
    requires recordId !in s.records && record.key in s.obligations && record.key.kind == Gate
    requires record.decision in {Approved, Rejected, Exception}
    requires record.key.work in s.runs && !Left(s.runs[record.key.work], record.key.entry)
    requires o' == if record.decision == Rejected then s.obligations
                   else s.obligations[record.key := s.obligations[record.key].(status := Satisfied)]
    requires record.request.GateRequest? ==> ReviewOk(s.records, record)
    ensures ObligationsOk(s.runs, s.journal, o', s.records[recordId := record], s.entryFields)
    ensures RecordsOk(o', s.records[recordId := record])
  {
    hide ObligationsOk, RecordsOk, ReviewOk;
    AddRecord(s.obligations, o', s.records, recordId, record);
    if record.decision == Rejected {
      RecordOnly(s, recordId, record);
    } else {
      TouchCurrent(s.runs, s.journal, s.obligations, o', s.records, s.records[recordId := record], s.entryFields,
                   record.key, Satisfied);
    }
  }

  lemma DecideKeeps(
    s: System, work: Id, id: Id, decision: Decision, actor: Id, recordId: Id, reason: string, evidence: Fields,
    impact: Option<string>, reviewed: Document
  )
    requires Inv(s) && CanDecide(s, work, id, decision, actor, recordId, reason, evidence, impact, reviewed)
    ensures Inv(Decided(s, work, id, decision, actor, recordId, reason, evidence, impact, reviewed))
  {
    hide RunsOk, FlowsOk, PendingOk, PreparesOk, CompletionsOk, WorksOk, RowHandoffsOk, HandoffsOk, ObligationsOk, RecordsOk;
    var s' := Decided(s, work, id, decision, actor, recordId, reason, evidence, impact, reviewed);
    var key := CurrentKey(s, work, Artifact, "artifact");
    var proof :| proof in s.records && s.records[proof].key == key && s.records[proof].decision == Verified
                 && s.records[proof].document == Some(reviewed);
    assert IsVerification(s.records, proof);
    GateRecordKeeps(s, s'.obligations, recordId, s'.records[recordId]);
  }

  lemma SponsorKeeps(
    s: System, work: Id, id: Id, decision: Decision, sponsor: Id, recordId: Id, reason: string, evidence: Fields,
    document: Document
  )
    requires Inv(s) && CanSponsor(s, work, id, decision, sponsor, recordId, document)
    ensures Inv(Sponsored(s, work, id, decision, sponsor, recordId, reason, evidence, document))
  {
    hide RunsOk, FlowsOk, PendingOk, PreparesOk, RowHandoffsOk, HandoffsOk, ObligationsOk, RecordsOk, History, ArtifactVerified;
    var s' := Sponsored(s, work, id, decision, sponsor, recordId, reason, evidence, document);
    GateRecordKeeps(s, s'.obligations, recordId, s'.records[recordId]);
    CompletionsGrow(s.runs, s.runs, s.journal, s.journal, s.works, s'.works, s.completions);
  }

  // ---- Handoffs ----

  lemma OfferKeeps(s: System, draft: HandoffOffer, at: nat, later: nat)
    requires Inv(s) && CanOffer(s, draft, at, later)
    ensures Inv(OfferMade(s, draft, at, later))
    ensures var t := OfferMade(s, draft, at, later);
      && draft.key in t.handoffs && t.handoffs[draft.key].targetRole == draft.targetRole
      && t.handoffs[draft.key].fingerprint.payload == draft.payload
  {
    hide CanOffer, NewOffer, HandoffsOk, RunsOk, FlowsOk, PendingOk, PreparesOk, CompletionsOk, ObligationsOk, RecordsOk,
      WorksOk, RowHandoffsOk;
    OfferedHandoff(s, draft, at, later);
    if draft.key in s.handoffs {
      ClockKeeps(s.handoffs, s.items, s.now, later);
    } else {
      NewOfferKeeps(s, draft, at, later);
    }
  }

  lemma ClockKeeps(handoffs: map<Id, Handoff>, items: map<Id, Item>, now: nat, later: nat)
    requires HandoffsOk(handoffs, items, now) && now <= later
    ensures HandoffsOk(handoffs, items, later)
  {}

  lemma NewOfferKeeps(s: System, draft: HandoffOffer, at: nat, later: nat)
    requires Inv(s) && CanOffer(s, draft, at, later) && draft.key !in s.handoffs
    ensures Inv(NewOffer(s, draft, at, later))
    ensures var t := NewOffer(s, draft, at, later);
      && draft.key in t.handoffs && t.handoffs[draft.key].targetRole == draft.targetRole
      && t.handoffs[draft.key].fingerprint.payload == draft.payload
  {
    hide CanOffer, HandoffFor, HandoffDraft, RunsOk, FlowsOk, PendingOk, PreparesOk, CompletionsOk, ObligationsOk, RecordsOk,
      WorksOk, RowHandoffsOk, HandoffOk;
    OfferedHandoff(s, draft, at, later);
    ClockKeeps(s.handoffs, s.items, s.now, later);
    HandoffsMove(s.runs, s.journal, s.handoffs, s.handoffs[draft.key := HandoffFor(s, draft, at, later)], s.prepares);
  }

  lemma OfferedHandoff(s: System, draft: HandoffOffer, at: nat, later: nat)
    requires HandoffsOk(s.handoffs, s.items, s.now) && CanOffer(s, draft, at, later)
    ensures s.now <= later
    ensures draft.key in s.handoffs ==>
              s.handoffs[draft.key].targetRole == draft.targetRole && s.handoffs[draft.key].fingerprint.payload == draft.payload
    ensures draft.key !in s.handoffs ==>
              && HandoffOk(HandoffFor(s, draft, at, later), later)
              && HandoffFor(s, draft, at, later).targetRole == draft.targetRole
              && HandoffFor(s, draft, at, later).fingerprint.payload == draft.payload
  {
    hide HandoffDraft, Routable;
    if draft.key in s.handoffs {
      assert HandoffOk(s.handoffs[draft.key], s.now);
    }
  }

  /** Handoffs keep their target role, and an accepted one stays accepted. */
  lemma HandoffsMove(
    runs: Runs, journal: Journal, handoffs: map<Id, Handoff>, handoffs': map<Id, Handoff>, prepares: map<nat, PrepareCall>
  )
    requires PreparesOk(runs, journal, handoffs, prepares) && RowHandoffsOk(runs, journal, handoffs)
    requires forall h | h in handoffs ::
               && h in handoffs' && handoffs'[h].targetRole == handoffs[h].targetRole
               && handoffs'[h].fingerprint == handoffs[h].fingerprint
               && (handoffs[h].status == Accepted ==> handoffs'[h].status == Accepted)
    ensures PreparesOk(runs, journal, handoffs', prepares) && RowHandoffsOk(runs, journal, handoffs')
  {
    forall row | row in journal ensures RowHandoffOk(runs, handoffs', row) {
      assert RowHandoffOk(runs, handoffs, row);
    }
    forall c | c in prepares ensures CallHandoffOk(handoffs', prepares[c]) {
      assert CallHandoffOk(handoffs, prepares[c]);
    }
  }

  lemma ClaimKeeps(s: System, h: Id, lease: Id, token: string, at: nat)
    requires Inv(s) && CanClaim(s, h, lease, token, at)
    ensures Inv(ClaimMade(s, h, lease, token, at))
  {
    hide RunsOk, FlowsOk, PendingOk, CompletionsOk, ObligationsOk, RecordsOk, WorksOk;
    HandoffsMove(s.runs, s.journal, s.handoffs, ClaimMade(s, h, lease, token, at).handoffs, s.prepares);
  }

  lemma AcceptKeeps(s: System, h: Id, lease: Id, token: string, at: nat)
    requires Inv(s) && CanAccept(s, h, lease, token, at)
    ensures Inv(AcceptMade(s, h, lease, token, at))
  {
    hide RunsOk, FlowsOk, PendingOk, CompletionsOk, ObligationsOk, RecordsOk, WorksOk;
    HandoffsMove(s.runs, s.journal, s.handoffs, AcceptMade(s, h, lease, token, at).handoffs, s.prepares);
  }

  // ---- Everything else ----

  lemma EnvironmentKeeps(s: System, s': System)
    requires Inv(s) && Environment(s, s')
    ensures Inv(s')
  {
    hide RunsOk, FlowsOk, PendingOk, PreparesOk, ObligationsOk, RecordsOk, RowHandoffsOk, History;
    CompletionsGrow(s.runs, s.runs, s.journal, s.journal, s.works, s'.works, s.completions);
  }
}
