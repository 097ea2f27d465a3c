/** Each step keeps each part of the invariant. */
module FlowPreservation {
  import opened Wrappers
  import opened Json
  import opened FlowDefinition
  import opened FlowTables
  import opened FlowInvariants

  // ---- Journal and runs ----

  lemma RowAt(runs: Runs, journal: Journal, row: JournalRow)
    requires RunsOk(runs, journal) && row in journal
    ensures row.work in runs
    ensures var h := History(journal, row.work);
      && 1 <= row.sequence <= |h| == runs[row.work].version && h[row.sequence - 1] == row
      && RowOk(runs[row.work].flow, row.work, h, row.sequence - 1)
  {
    hide Continues, StatusOk, History, OperationsDistinct;
    var h := History(journal, row.work);
    HistoryRows(journal, row.work);
    assert RunOk(runs[row.work], row.work, h);
    var i :| 0 <= i < |h| && h[i] == row;
    assert RowOk(runs[row.work].flow, row.work, h, i);
  }

  lemma NextNumber(runs: Runs, journal: Journal, work: Id)
    requires RunsOk(runs, journal)
    ensures MaxSequence(journal, work) == |History(journal, work)|
    ensures work in runs ==> |History(journal, work)| == runs[work].version
    ensures work !in runs ==> History(journal, work) == []
  {
    hide Continues, StatusOk, StateAfter, OperationsDistinct;
    var h := History(journal, work);
    HistoryRows(journal, work);
    if work in runs {
      assert RunOk(runs[work], work, h);
      forall i | 0 <= i < |h| ensures h[i].sequence == i + 1 {
        assert RowOk(runs[work].flow, work, h, i);
      }
    } else if h != [] {
      assert h[0] in h;
    }
    MaxIsLength(journal, work);
  }

  /** The row as it is stored. */
  ghost function Numbered(journal: Journal, row: JournalRow): JournalRow {
    row.(sequence := |History(journal, row.work)| + 1)
  }

  lemma AppendRow(runs: Runs, journal: Journal, row: JournalRow, run: Run)
    requires RunsOk(runs, journal)
    requires forall r | r in journal :: r.operation != row.operation
    requires RunOk(run, row.work, History(journal, row.work) + [Numbered(journal, row)])
    ensures RunsOk(runs[row.work := run], Append(journal, row))
    ensures Append(journal, row) == journal + [Numbered(journal, row)]
  {
    hide Continues, StatusOk, HistoryOk, StateAfter;
    var journal' := Append(journal, row);
    NextNumber(runs, journal, row.work);
    assert journal' == journal + [Numbered(journal, row)];
    assert OperationsDistinct(journal') by {
      forall i, j | 0 <= i < j < |journal'| ensures journal'[i].operation != journal'[j].operation {
        assert journal'[i] in journal;
      }
    }
    forall w | w in runs[row.work := run] ensures RunOk(runs[row.work := run][w], w, History(journal', w)) {
      HistoryAppend(journal, row, w);
      if w != row.work {
        assert History(journal', w) == History(journal, w);
      }
    }
  }

  lemma AppendedOk(flow: Flow, work: Id, h: seq<JournalRow>, row: JournalRow)
    requires HistoryOk(flow, work, h)
    requires RowOk(flow, work, h + [row], |h|)
    ensures HistoryOk(flow, work, h + [row])
  {
    forall i | 0 <= i < |h + [row]| ensures RowOk(flow, work, h + [row], i) {
      if i < |h| {
        assert RowOk(flow, work, h, i);
      }
    }
  }

  lemma FreshOperation(journal: Journal, operation: Id, request: Request)
    requires ReplayOf(journal, operation, request) == Fresh
    ensures forall row | row in journal :: row.operation != operation
  {
    FindExact(journal, operation);
  }

  lemma UpdateRun(runs: Runs, journal: Journal, work: Id, run: Run)
    requires RunsOk(runs, journal) && work in runs
    requires RunOk(run, work, History(journal, work))
    ensures RunsOk(runs[work := run], journal)
  {}

  /** A selected route leads to a state of the flow, owned by the route's target role. */
  lemma SelectedRouteLands(run: Run, outcome: Id, fields: Fields, route: FlowRoute)
    requires AcceptedFlow(run.flow) && run.currentState in run.flow.states
    requires run.State().SelectRoute(outcome, fields) == Success(route)
    ensures route in run.State().routes && RouteLands(run.flow.states, route)
  {
    assert StateAccepted(run.flow.states, run.State());
    SelectRouteExact(run.State(), outcome, fields);
  }

  /** An entry row is the visit its run is in, or an earlier one. */
  ghost predicate EntriesPast(runs: Runs, journal: Journal) {
    forall row | row in journal && IsEntry(row) ::
      && row.work in runs && 1 <= row.sequence <= runs[row.work].version
      && (row.sequence == runs[row.work].version ==> row.to == runs[row.work].currentState)
  }

  lemma EntryPast(runs: Runs, journal: Journal, row: JournalRow)
    requires RunsOk(runs, journal) && row in journal && IsEntry(row)
    ensures row.work in runs && 1 <= row.sequence <= runs[row.work].version
    ensures row.sequence == runs[row.work].version ==> row.to == runs[row.work].currentState
  {
    hide RowOk, StatusOk, History, HistoryOk, OperationsDistinct;
    RowAt(runs, journal, row);
    var run, h := runs[row.work], History(journal, row.work);
    assert RunOk(run, row.work, h);
  }

  lemma RunsArePast(runs: Runs, journal: Journal)
    requires RunsOk(runs, journal)
    ensures EntriesPast(runs, journal)
  {
    forall row | row in journal && IsEntry(row)
      ensures row.work in runs && 1 <= row.sequence <= runs[row.work].version
      ensures row.sequence == runs[row.work].version ==> row.to == runs[row.work].currentState
    {
      EntryPast(runs, journal, row);
    }
  }

  // ---- Obligations and evidence ----

  lemma DischargedStays(o: Obligations, o': Obligations, r: Records, r': Records, key: ObligationKey)
    requires Discharged(o, r, key) && key in o' && o'[key] == o[key]
    requires forall id | id in r :: id in r' && r'[id] == r[id]
    ensures Discharged(o', r', key)
  {
    forall d: Decision | HasRecord(r, key, d) ensures HasRecord(r', key, d) {
      var id :| id in r && r[id].key == key && r[id].decision == d;
      assert id in r';
    }
  }

  /** Evidence and a new status on an obligation of the visit an active run is in. */
  lemma TouchCurrent(
    runs: Runs, journal: Journal, o: Obligations, o': Obligations, r: Records, r': Records, entries: Entries,
    key: ObligationKey, status: ObligationStatus
  )
    requires ObligationsOk(runs, journal, o, r, entries)
    requires key in o && key.work in runs && !Left(runs[key.work], key.entry)
    requires o' == o[key := o[key].(status := status)] && StatusFits(key.kind, status)
    requires forall id | id in r :: id in r' && r'[id] == r[id]
    ensures ObligationsOk(runs, journal, o', r', entries)
  {
    hide FlowState.Obligations, FlowDefinition.Applicable, Discharged;
    forall row | row in journal && IsEntry(row) ensures VisitOk(runs, o', entries, row) {
      assert VisitOk(runs, o, entries, row);
      forall action | action in VisitActions(runs, entries, row)
        ensures Held(o', row.work, row.to, row.sequence, action)
      {
        assert Held(o, row.work, row.to, row.sequence, action);
      }
    }
    forall k | k in o' && k.work in runs && Left(runs[k.work], k.entry) ensures Discharged(o', r', k) {
      DischargedStays(o, o', r, r', k);
    }
  }

  /** A run that leaves its visit, or stays left, with the same flow and no new visit. */
  lemma LeaveVisit(
    runs: Runs, journal: Journal, journal': Journal, o: Obligations, r: Records, entries: Entries, work: Id, run: Run
  )
    requires EntriesPast(runs, journal) && ObligationsOk(runs, journal, o, r, entries)
    requires work in runs && run.flow == runs[work].flow && run.version >= runs[work].version && run.status != Active
    requires forall row | row in journal :: row in journal'
    requires forall row | row in journal' && IsEntry(row) :: row in journal
    requires runs[work].status == Active ==>
      forall key | key in o && IsVisit(key, work, runs[work].currentState, runs[work].version) :: Discharged(o, r, key)
    ensures ObligationsOk(runs[work := run], journal', o, r, entries)
  {
    hide FlowState.Obligations, FlowDefinition.Applicable, Discharged;
    var runs' := runs[work := run];
    forall row | row in journal' && IsEntry(row) ensures VisitOk(runs', o, entries, row) {
      assert VisitOk(runs, o, entries, row);
      assert VisitActions(runs', entries, row) == VisitActions(runs, entries, row);
    }
    forall key | key in o ensures Belongs(runs', journal', entries, key) {
      assert Belongs(runs, journal, entries, key);
      var row :| row in journal && EnteredFor(runs, entries, key, row);
      assert VisitActions(runs', entries, row) == VisitActions(runs, entries, row);
      assert EnteredFor(runs', entries, key, row);
    }
    forall key | key in o && key.work in runs' && Left(runs'[key.work], key.entry) ensures Discharged(o, r, key) {
      if key.work == work && !Left(runs[work], key.entry) {
        CurrentVisit(runs, journal, o, r, entries, key);
      }
    }
  }

  lemma KeyEntered(runs: Runs, entries: Entries, key: ObligationKey, row: JournalRow)
    requires EnteredFor(runs, entries, key, row)
    ensures row.work == key.work && row.to == key.state && row.sequence == key.entry
  {}

  /** A key that its active run has not left is one of the run's current visit. */
  lemma CurrentVisit(runs: Runs, journal: Journal, o: Obligations, r: Records, entries: Entries, key: ObligationKey)
    requires EntriesPast(runs, journal) && KeysBelong(runs, journal, o, entries)
    requires key in o && key.work in runs && !Left(runs[key.work], key.entry)
    ensures IsVisit(key, key.work, runs[key.work].currentState, runs[key.work].version)
  {
    assert Belongs(runs, journal, entries, key);
    var row :| row in journal && EnteredFor(runs, entries, key, row);
    KeyEntered(runs, entries, key, row);
  }

  /** What entering a visit starts from: its run had left every earlier one. */
  ghost predicate Entering(runs: Runs, row: JournalRow, run: Run) {
    && IsEntry(row) && run.status == Active && run.version == row.sequence && row.to in run.flow.states
    && (row.work in runs ==>
          run.flow == runs[row.work].flow && row.sequence == runs[row.work].version + 1 && runs[row.work].status != Active)
    && (row.work !in runs ==> row.sequence == 1)
  }

  lemma EarlierKeys(
    runs: Runs, journal: Journal, o: Obligations, entries: Entries, row: JournalRow, run: Run, key: ObligationKey
  )
    requires EntriesPast(runs, journal) && KeysBelong(runs, journal, o, entries) && Entering(runs, row, run) && key in o
    ensures key.work in runs && !(key.work == row.work && key.entry >= row.sequence)
  {
    assert Belongs(runs, journal, entries, key);
    var past :| past in journal && EnteredFor(runs, entries, key, past);
    KeyEntered(runs, entries, key, past);
  }

  lemma EarlierActions(runs: Runs, journal: Journal, entries: Entries, row: JournalRow, run: Run, fields: Fields, past: JournalRow)
    requires EntriesPast(runs, journal) && Entering(runs, row, run)
    requires past in journal && IsEntry(past) && Entered(runs, entries, past)
    ensures var runs', entries' := runs[row.work := run], entries[(row.work, row.sequence) := fields];
      Entered(runs', entries', past) && VisitActions(runs', entries', past) == VisitActions(runs, entries, past)
  {}

  /** Inserting a new visit's obligations adds its rows, all pending, and leaves every earlier row alone. */
  lemma EnterRows(
    runs: Runs, journal: Journal, o: Obligations, entries: Entries, row: JournalRow, run: Run, fields: Fields
  )
    requires EntriesPast(runs, journal) && KeysBelong(runs, journal, o, entries) && Entering(runs, row, run)
    requires Distinct(Identifiers(run.flow.states[row.to]))
    ensures var actions := run.flow.states[row.to].Obligations(fields);
      var o' := InsertObligations(o, row.work, row.to, row.sequence, actions);
      && o'.Keys == o.Keys + ActionKeys(row.work, row.to, row.sequence, actions)
      && (forall key | key in o :: key.work in runs && !(key.work == row.work && key.entry >= row.sequence) && o'[key] == o[key])
      && (forall key | key in o' && key !in o :: o'[key].status == Pending)
      && (forall action | action in actions :: Held(o', row.work, row.to, row.sequence, action))
  {
    hide Identifiers, Discharged;
    var actions := run.flow.states[row.to].Obligations(fields);
    var o' := InsertObligations(o, row.work, row.to, row.sequence, actions);
    ObligationsDistinct(run.flow.states[row.to], fields);
    InsertFrame(o, row.work, row.to, row.sequence, actions);
    forall key | key in o ensures key.work in runs && !(key.work == row.work && key.entry >= row.sequence) && o'[key] == o[key] {
      EarlierKeys(runs, journal, o, entries, row, run, key);
    }
    forall action | action in actions
      ensures Held(o', row.work, row.to, row.sequence, action)
      ensures o'[KeyOf(row.work, row.to, row.sequence, action)].status == Pending
    {
      var i :| 0 <= i < |actions| && actions[i] == action;
      InsertedRow(o, row.work, row.to, row.sequence, actions, i);
    }
  }

  lemma EnterVisit(
    runs: Runs, journal: Journal, o: Obligations, r: Records, entries: Entries, row: JournalRow, run: Run, fields: Fields
  )
    requires EntriesPast(runs, journal) && ObligationsOk(runs, journal, o, r, entries) && Entering(runs, row, run)
    requires Distinct(Identifiers(run.flow.states[row.to]))
    ensures ObligationsOk(
      runs[row.work := run], journal + [row],
      InsertObligations(o, row.work, row.to, row.sequence, run.flow.states[row.to].Obligations(fields)),
      r, entries[(row.work, row.sequence) := fields])
  {
    hide Identifiers, InsertObligations;
    var actions := run.flow.states[row.to].Obligations(fields);
    var o' := InsertObligations(o, row.work, row.to, row.sequence, actions);
    var runs', entries' := runs[row.work := run], entries[(row.work, row.sequence) := fields];
    EnterRows(runs, journal, o, entries, row, run, fields);
    assert Entered(runs', entries', row) && VisitActions(runs', entries', row) == actions;
    EnterHeld(runs, journal, o, o', entries, row, run, fields);
    EnterBelongs(runs, journal, o, o', entries, row, run, fields);
    forall key | key in o' && key.work in runs' && Left(runs'[key.work], key.entry) ensures Discharged(o', r, key) {
      assert key in o;
      DischargedStays(o, o', r, r, key);
    }
  }

  lemma EnterHeld(
    runs: Runs, journal: Journal, o: Obligations, o': Obligations, entries: Entries, row: JournalRow, run: Run, fields: Fields
  )
    requires EntriesPast(runs, journal) && VisitsHeld(runs, journal, o, entries) && Entering(runs, row, run)
    requires forall key | key in o :: key in o' && o'[key] == o[key]
    requires forall a | a in run.flow.states[row.to].Obligations(fields) :: Held(o', row.work, row.to, row.sequence, a)
    ensures VisitsHeld(runs[row.work := run], journal + [row], o', entries[(row.work, row.sequence) := fields])
  {
    hide FlowState.Obligations, FlowDefinition.Applicable;
    var runs', entries' := runs[row.work := run], entries[(row.work, row.sequence) := fields];
    forall past | past in journal + [row] && IsEntry(past) ensures VisitOk(runs', o', entries', past) {
      if past in journal {
        assert VisitOk(runs, o, entries, past);
        EarlierActions(runs, journal, entries, row, run, fields, past);
        forall action | action in VisitActions(runs, entries, past)
          ensures Held(o', past.work, past.to, past.sequence, action)
        {
          assert Held(o, past.work, past.to, past.sequence, action);
        }
      }
    }
  }

  lemma EnterBelongs(
    runs: Runs, journal: Journal, o: Obligations, o': Obligations, entries: Entries, row: JournalRow, run: Run, fields: Fields
  )
    requires EntriesPast(runs, journal) && KeysBelong(runs, journal, o, entries) && Entering(runs, row, run)
    requires o'.Keys == o.Keys + ActionKeys(row.work, row.to, row.sequence, run.flow.states[row.to].Obligations(fields))
    requires forall key | key in o' :: if key in o then o'[key] == o[key] else o'[key].status == Pending
    ensures KeysBelong(runs[row.work := run], journal + [row], o', entries[(row.work, row.sequence) := fields])
  {
    hide FlowState.Obligations, FlowDefinition.Applicable;
    var runs', entries' := runs[row.work := run], entries[(row.work, row.sequence) := fields];
    forall key | key in o' ensures Belongs(runs', journal + [row], entries', key) && StatusFits(key.kind, o'[key].status) {
      if key in o {
        assert Belongs(runs, journal, entries, key);
        var past :| past in journal && EnteredFor(runs, entries, key, past);
        EarlierActions(runs, journal, entries, row, run, fields, past);
        assert past in journal + [row] && EnteredFor(runs', entries', key, past);
      } else {
        assert row in journal + [row] && EnteredFor(runs', entries', key, row);
      }
    }
  }

  /** A record that verifies nothing, with a change to an obligation that is not an artifact. */
  lemma AddRecord(o: Obligations, o': Obligations, r: Records, id: Id, record: Record)
    requires RecordsOk(o, r) && id !in r && record.key in o && record.decision != Verified
    requires o'.Keys == o.Keys && forall key | key in o && key.kind == Artifact :: o'[key] == o[key]
    requires record.request.GateRequest? ==> ReviewOk(r, record)
    ensures RecordsOk(o', r[id := record])
  {
    var r' := r[id := record];
    forall i | i in r' && r'[i].request.GateRequest? ensures ReviewOk(r', r'[i]) {
      ReviewStays(r, r', r'[i]);
    }
  }

  lemma ReviewStays(r: Records, r': Records, record: Record)
    requires record.request.GateRequest? && ReviewOk(r, record)
    requires forall id | id in r :: id in r' && r'[id] == r[id]
    ensures ReviewOk(r', record)
  {
    var id :| IsVerification(r, id) && r[id].key == record.key.(kind := Artifact, id := "artifact")
              && r[id].document == Some(record.request.reviewed);
    assert IsVerification(r', id);
  }

  // ---- Pending operations and calls in flight ----

  /** What a run has open is a request for that run's own work item. */
  lemma PendingNames(run: Run, work: Id, h: Journal)
    requires RunOk(run, work, h) && run.status in {HandoffPreparing, CompletionPreparing}
    ensures run.pendingRequest.Some? && run.pendingOperation.Some?
    ensures run.pendingRequest.value.PrepareRequest? <==> run.status == HandoffPreparing
    ensures run.pendingRequest.value.CompleteRequest? <==> run.status == CompletionPreparing
    ensures run.pendingRequest.value.work == work && run.pendingRequest.value.expected == run.version
  {
    hide HistoryOk, StateAfter;
    if run.status == HandoffPreparing {
      var route :| RouteOpen(run, work, route);
    }
  }

  ghost predicate NamesWork(request: Request, work: Id) {
    && (request.PrepareRequest? ==> request.work == work)
    && (request.CompleteRequest? ==> request.work == work)
  }

  lemma PendingRecord(runs: Runs, journal: Journal, row: JournalRow, run: Run)
    requires RunsOk(runs, journal) && PendingOk(runs, journal)
    requires run.status !in {HandoffPreparing, CompletionPreparing} && NamesWork(row.request, row.work)
    ensures PendingOk(runs[row.work := run], journal + [row])
  {
    hide RunOk, OperationsDistinct, History;
    forall w | w in runs && w != row.work && runs[w].status in {HandoffPreparing, CompletionPreparing}
      ensures !SamePending(runs[w], row.operation, row.request)
    {
      PendingNames(runs[w], w, History(journal, w));
    }
  }

  lemma PreparesGrow(
    runs: Runs, runs': Runs, journal: Journal, journal': Journal, handoffs: map<Id, Handoff>, prepares: map<nat, PrepareCall>
  )
    requires PreparesOk(runs, journal, handoffs, prepares)
    requires forall w | w in runs :: w in runs'
    requires forall row | row in journal :: row in journal'
    requires forall w | w in runs && runs[w].status == HandoffPreparing :: runs'[w] == runs[w]
    ensures PreparesOk(runs', journal', handoffs, prepares)
  {
    hide CallHandoffOk, RouteOpen;
    forall c | c in prepares ensures PrepareCallOk(runs', journal', prepares[c]) {
      assert PrepareCallOk(runs, journal, prepares[c]);
      if CallRecorded(journal, prepares[c]) {
        assert CallRecorded(journal', prepares[c]);
      }
    }
  }

  lemma CompletionsGrow(
    runs: Runs, runs': Runs, journal: Journal, journal': Journal, works: map<Id, Work>, works': map<Id, Work>,
    completions: map<nat, CompleteCall>
  )
    requires CompletionsOk(runs, journal, works, completions)
    requires forall w | w in runs :: w in runs'
    requires forall row | row in journal :: row in journal'
    requires forall w | w in runs && runs[w].status == CompletionPreparing :: runs'[w] == runs[w]
    requires forall w | w in works && works[w].status == WorkCompleted :: w in works' && works'[w] == works[w]
    ensures CompletionsOk(runs', journal', works', completions)
  {
    forall c | c in completions ensures CompleteCallOk(runs', journal', completions[c]) {
      assert CompleteCallOk(runs, journal, completions[c]);
      if Journalled(journal, completions[c].operation, completions[c].Digest()) {
        assert Journalled(journal', completions[c].operation, completions[c].Digest());
      }
    }
  }

  lemma RowsGrow(runs: Runs, runs': Runs, journal: Journal, row: JournalRow, handoffs: map<Id, Handoff>)
    requires RowHandoffsOk(runs, journal, handoffs)
    requires forall w | w in runs :: w in runs' && runs'[w].flow == runs[w].flow
    requires RowHandoffOk(runs', handoffs, row)
    ensures RowHandoffsOk(runs', journal + [row], handoffs)
  {
    forall past | past in journal ensures RowHandoffOk(runs', handoffs, past) {
      assert RowHandoffOk(runs, handoffs, past);
    }
  }

  lemma WorksAppend(runs: Runs, works: map<Id, Work>, works': map<Id, Work>, journal: Journal, row: JournalRow, run: Run)
    requires WorksOk(runs, works, journal)
    requires forall w | w in works && w != row.work :: w in works' && works'[w] == works[w]
    requires row.work in works' && works'[row.work].role == run.owner
    requires run.status == Completed ==> Finished(works'[row.work], row.evidence)
    ensures WorksOk(runs[row.work := run], works', Append(journal, row))
  {
    forall w | w in runs[row.work := run]
      ensures w in works' && works'[w].role == runs[row.work := run][w].owner
      ensures runs[row.work := run][w].status == Completed ==>
                var h := History(Append(journal, row), w); h != [] && Finished(works'[w], h[|h| - 1].evidence)
    {
      HistoryAppend(journal, row, w);
    }
  }
}
