/** What every run of the flow tables guarantees. */
module FlowTheorems {
  import opened Wrappers
  import opened Json
  import opened FlowDefinition
  import opened FlowTables
  import opened FlowInvariants
  import opened FlowPreservation
  import opened FlowSteps
  import opened FlowRuns
  import opened FlowJournal

  // ---- Leaving a state needs every obligation discharged ----

  /** A row that leaves a visit, and the row that entered it. */
  predicate LeavesVisit(entry: JournalRow, row: JournalRow) {
    && IsEntry(entry) && row.action in {Prepare, Complete}
    && entry.work == row.work && entry.sequence + 1 == row.sequence && row.from == Some(entry.to)
  }

  lemma EntryOfLeaving(runs: Runs, journal: Journal, row: JournalRow) returns (entry: JournalRow)
    requires RunsOk(runs, journal) && row in journal && row.action in {Prepare, Complete}
    ensures entry in journal && LeavesVisit(entry, row) && entry.work in runs && Left(runs[entry.work], entry.sequence)
  {
    hide OperationsDistinct, StatusOk, History, RouteTaken;
    RowAt(runs, journal, row);
    var h := History(journal, row.work);
    entry := h[row.sequence - 2];
    HistoryRows(journal, row.work);
    assert entry in h;
    RowAt(runs, journal, entry);
    assert RunOk(runs[row.work], row.work, h);
    Numbering(runs[row.work].flow, row.work, h, row.sequence - 2);
  }

  /** In every reachable state, each visit the journal has left still has every obligation the pinned flow
      gave it, with the accountable role and payload of the flow, and each one is discharged. */
  lemma LeftVisitsSettled(trace: seq<System>, steps: seq<Step>, n: nat, row: JournalRow) returns (entry: JournalRow)
    requires IsRun(trace, steps) && n < |trace|
    requires row in trace[n].journal && row.action in {Prepare, Complete}
    ensures entry in trace[n].journal && LeavesVisit(entry, row) && Entered(trace[n].runs, trace[n].entryFields, entry)
    ensures forall action | action in VisitActions(trace[n].runs, trace[n].entryFields, entry) ::
              && Held(trace[n].obligations, entry.work, entry.to, entry.sequence, action)
              && Discharged(trace[n].obligations, trace[n].records, KeyOf(entry.work, entry.to, entry.sequence, action))
  {
    hide IsRun, RunsOk, Discharged, FlowState.Obligations, RecordsOk, PreparesOk, CompletionsOk, WorksOk, RowHandoffsOk,
      HandoffsOk, PendingOk, FlowsOk, KeysBelong, Left, LeavesVisit;
    AlwaysInv(trace, steps, n);
    entry := EntryOfLeaving(trace[n].runs, trace[n].journal, row);
    EntryEnters(entry, row);
    assert VisitOk(trace[n].runs, trace[n].obligations, trace[n].entryFields, entry);
  }

  lemma EntryEnters(entry: JournalRow, row: JournalRow)
    requires LeavesVisit(entry, row)
    ensures IsEntry(entry)
  {}

  /** The rows of a visit are exactly the obligations of its state for the fields it was entered with. */
  lemma VisitIsExact(trace: seq<System>, steps: seq<Step>, n: nat, entry: JournalRow)
    requires IsRun(trace, steps) && n < |trace| && entry in trace[n].journal && IsEntry(entry)
    ensures Entered(trace[n].runs, trace[n].entryFields, entry)
    ensures (set key | key in trace[n].obligations && IsVisit(key, entry.work, entry.to, entry.sequence))
            == VisitKeys(trace[n].runs, trace[n].entryFields, entry)
  {
    hide IsRun, RunOk, Discharged, FlowState.Obligations, RecordsOk, PreparesOk, CompletionsOk, WorksOk, RowHandoffsOk, HandoffsOk,
      OperationsDistinct, PendingOk, FlowsOk, LeftSettled;
    AlwaysInv(trace, steps, n);
    var s := trace[n];
    assert VisitOk(s.runs, s.obligations, s.entryFields, entry);
    forall key | key in s.obligations && IsVisit(key, entry.work, entry.to, entry.sequence)
      ensures key in VisitKeys(s.runs, s.entryFields, entry)
    {
      assert Belongs(s.runs, s.journal, s.entryFields, key);
      var row :| row in s.journal && EnteredFor(s.runs, s.entryFields, key, row);
      KeyEntered(s.runs, s.entryFields, key, row);
      RowAt(s.runs, s.journal, row);
      RowAt(s.runs, s.journal, entry);
    }
    forall key | key in VisitKeys(s.runs, s.entryFields, entry)
      ensures key in s.obligations && IsVisit(key, entry.work, entry.to, entry.sequence)
    {
      var action :| action in VisitActions(s.runs, s.entryFields, entry) && key == KeyOf(entry.work, entry.to, entry.sequence, action);
      assert Held(s.obligations, entry.work, entry.to, entry.sequence, action);
    }
  }

  /** Every decision of a gate reviews the one document its visit's artifact was verified as. */
  lemma GatesReviewOneDocument(trace: seq<System>, steps: seq<Step>, n: nat, i: Id, j: Id)
    requires IsRun(trace, steps) && n < |trace|
    requires i in trace[n].records && j in trace[n].records
    requires trace[n].records[i].request.GateRequest? && trace[n].records[j].request.GateRequest?
    requires var a, b := trace[n].records[i].key, trace[n].records[j].key;
      a.work == b.work && a.state == b.state && a.entry == b.entry
    ensures trace[n].records[i].request.reviewed == trace[n].records[j].request.reviewed
    ensures exists proof :: IsVerification(trace[n].records, proof)
                            && trace[n].records[proof].key == trace[n].records[i].key.(kind := Artifact, id := "artifact")
                            && trace[n].records[proof].document == Some(trace[n].records[i].request.reviewed)
  {
    hide IsRun, RunsOk, PendingOk, FlowsOk, ObligationsOk, PreparesOk, CompletionsOk, WorksOk, RowHandoffsOk, HandoffsOk;
    AlwaysInv(trace, steps, n);
    var r := trace[n].records;
    assert ReviewOk(r, r[i]) && ReviewOk(r, r[j]);
    var p :| IsVerification(r, p) && r[p].key == r[i].key.(kind := Artifact, id := "artifact")
             && r[p].document == Some(r[i].request.reviewed);
    var q :| IsVerification(r, q) && r[q].key == r[j].key.(kind := Artifact, id := "artifact")
             && r[q].document == Some(r[j].request.reviewed);
    assert p == q;
  }

  /** A rejection is kept as evidence and revokes nothing: no obligation is any less discharged for it, nor more. */
  lemma RejectionRevokesNothing(
    s: System, work: Id, id: Id, actor: Id, recordId: Id, reason: string, evidence: Fields, impact: Option<string>,
    reviewed: Document, key: ObligationKey
  )
    requires CanDecide(s, work, id, Rejected, actor, recordId, reason, evidence, impact, reviewed)
    ensures var t := Decided(s, work, id, Rejected, actor, recordId, reason, evidence, impact, reviewed);
      && (Discharged(t.obligations, t.records, key) <==> Discharged(s.obligations, s.records, key))
      && HasRecord(t.records, CurrentKey(s, work, Gate, id), Rejected)
  {
    hide CanDecide;
    var t := Decided(s, work, id, Rejected, actor, recordId, reason, evidence, impact, reviewed);
    NewRecord(s, work, id, Rejected, actor, recordId, reason, evidence, impact, reviewed);
    assert recordId in t.records;
    forall d: Decision | d != Rejected ensures HasRecord(t.records, key, d) <==> HasRecord(s.records, key, d) {
      SameRecords(s.records, t.records, recordId, key, d);
    }
  }

  lemma SameRecords(r: Records, r': Records, id: Id, key: ObligationKey, decision: Decision)
    requires id !in r && id in r' && r' == r[id := r'[id]] && r'[id].decision != decision
    ensures HasRecord(r', key, decision) <==> HasRecord(r, key, decision)
  {
    if HasRecord(r, key, decision) {
      var x :| x in r && r[x].key == key && r[x].decision == decision;
      assert x in r';
    }
  }

  /** Any gate that can be approved can be rejected right afterwards, and is then on record as both, and discharged. */
  lemma ApprovedGateTakesRejection(
    s: System, work: Id, id: Id, actor: Id, approval: Id, reason: string, evidence: Fields, impact: Option<string>,
    reviewed: Document, rejection: Id, regret: string
  )
    requires CanDecide(s, work, id, Approved, actor, approval, reason, evidence, impact, reviewed)
    requires rejection !in s.records && rejection != approval
    ensures var t := Decided(s, work, id, Approved, actor, approval, reason, evidence, impact, reviewed);
      && CanDecide(t, work, id, Rejected, actor, rejection, regret, evidence, None, reviewed)
      && var u, key := Decided(t, work, id, Rejected, actor, rejection, regret, evidence, None, reviewed), CurrentKey(s, work, Gate, id);
         && HasRecord(u.records, key, Approved) && HasRecord(u.records, key, Rejected)
         && Discharged(t.obligations, t.records, key) && Discharged(u.obligations, u.records, key)
  {
    hide Discharged, HasRecord;
    var t := Decided(s, work, id, Approved, actor, approval, reason, evidence, impact, reviewed);
    var key := CurrentKey(s, work, Gate, id);
    DecisionDischarges(s, work, id, Approved, actor, approval, reason, evidence, impact, reviewed);
    hide CanDecide, Decided;
    ApprovedStaysOpen(s, work, id, actor, approval, reason, evidence, impact, reviewed, rejection, regret);
    RejectionRevokesNothing(t, work, id, actor, rejection, regret, evidence, None, reviewed, key);
    StillApproved(t, work, id, actor, rejection, regret, evidence, reviewed, key);
  }

  /** Approving a gate leaves it open to a rejection. */
  lemma ApprovedStaysOpen(
    s: System, work: Id, id: Id, actor: Id, approval: Id, reason: string, evidence: Fields, impact: Option<string>,
    reviewed: Document, rejection: Id, regret: string
  )
    requires CanDecide(s, work, id, Approved, actor, approval, reason, evidence, impact, reviewed)
    requires rejection !in s.records && rejection != approval
    ensures var t := Decided(s, work, id, Approved, actor, approval, reason, evidence, impact, reviewed);
      CanDecide(t, work, id, Rejected, actor, rejection, regret, evidence, None, reviewed)
      && CurrentKey(t, work, Gate, id) == CurrentKey(s, work, Gate, id)
  {
    var t := Decided(s, work, id, Approved, actor, approval, reason, evidence, impact, reviewed);
    var key := CurrentKey(s, work, Artifact, "artifact");
    var proof :| proof in s.records && s.records[proof].key == key && s.records[proof].decision == Verified
                 && s.records[proof].document == Some(reviewed);
    assert proof in t.records && t.records[proof] == s.records[proof];
  }

  lemma StillApproved(
    s: System, work: Id, id: Id, actor: Id, rejection: Id, regret: string, evidence: Fields, reviewed: Document, key: ObligationKey
  )
    requires CanDecide(s, work, id, Rejected, actor, rejection, regret, evidence, None, reviewed)
    requires HasRecord(s.records, key, Approved)
    ensures HasRecord(Decided(s, work, id, Rejected, actor, rejection, regret, evidence, None, reviewed).records, key, Approved)
  {
    hide HasRecord, GateTakes, ArtifactVerified;
    SameRecords(s.records, Decided(s, work, id, Rejected, actor, rejection, regret, evidence, None, reviewed).records,
                rejection, key, Approved);
  }

  /** A gate that is approved or excepted is discharged. */
  lemma DecisionDischarges(
    s: System, work: Id, id: Id, decision: Decision, actor: Id, recordId: Id, reason: string, evidence: Fields,
    impact: Option<string>, reviewed: Document
  )
    requires CanDecide(s, work, id, decision, actor, recordId, reason, evidence, impact, reviewed) && decision != Rejected
    ensures var t, key := Decided(s, work, id, decision, actor, recordId, reason, evidence, impact, reviewed), CurrentKey(s, work, Gate, id);
      HasRecord(t.records, key, decision) && Discharged(t.obligations, t.records, key)
  {
    hide GateTakes, ArtifactVerified;
    var t := Decided(s, work, id, decision, actor, recordId, reason, evidence, impact, reviewed);
    assert recordId in t.records;
  }

  lemma NewRecord(
    s: System, work: Id, id: Id, decision: Decision, actor: Id, recordId: Id, reason: string, evidence: Fields,
    impact: Option<string>, reviewed: Document
  )
    requires CanDecide(s, work, id, decision, actor, recordId, reason, evidence, impact, reviewed)
    ensures recordId !in s.records
  {}

  // ---- Replays and retries ----

  /** What a row's request says of the row. */
  ghost predicate RequestFits(flow: Flow, row: JournalRow) {
    match row.request
    case StartRequest(started, _, _) => started == flow && row.action == Start
    case PrepareRequest(work, _, _, expected, _) =>
      && work == row.work && expected + 1 == row.sequence && row.action == Prepare
      && row.route.Some? && row.handoff == Some(TransitionKey(work, expected, row.route.value))
    case PickupRequest(work, expected, _) => work == row.work && expected + 1 == row.sequence && row.action == Pickup
    case CompleteRequest(work, expected, _, _) => work == row.work && expected + 1 == row.sequence && row.action == Complete
  }

  lemma RowFits(flow: Flow, work: Id, h: seq<JournalRow>, i: nat)
    requires i < |h| && RowOk(flow, work, h, i)
    ensures RequestFits(flow, h[i])
  {
    hide TransitionKey;
  }

  lemma RowOf(runs: Runs, journal: Journal, row: JournalRow)
    requires RunsOk(runs, journal) && row in journal
    ensures row.work in runs && RequestFits(runs[row.work].flow, row)
  {
    hide RunsOk, RequestFits, RowOk, History;
    RowAt(runs, journal, row);
    RowFits(runs[row.work].flow, row.work, History(journal, row.work), row.sequence - 1);
  }

  /** A replayed call answers with the work item it names; a replayed start names none, and answers with the one
      whose run that operation started, pinned to the requested flow. */
  lemma ReplayNamesItsWork(trace: seq<System>, steps: seq<Step>, n: nat, operation: Id, request: Request, work: Id)
    requires IsRun(trace, steps) && n < |trace|
    requires ReplayOf(trace[n].journal, operation, request) == Recorded(work)
    ensures work in trace[n].runs
    ensures match request
      case StartRequest(flow, _, _) => trace[n].runs[work].flow == flow
      case PrepareRequest(named, _, _, _, _) => named == work
      case PickupRequest(named, _, _) => named == work
      case CompleteRequest(named, _, _, _) => named == work
  {
    hide IsRun, RunsOk, PendingOk, FlowsOk, ObligationsOk, RecordsOk, PreparesOk, CompletionsOk, WorksOk, RowHandoffsOk, HandoffsOk,
      TransitionKey;
    AlwaysInv(trace, steps, n);
    FindExact(trace[n].journal, operation);
    RowOf(trace[n].runs, trace[n].journal, FindOperation(trace[n].journal, operation).value);
  }

  /** A call that starts a run answers, if it answers, with the requested work item exactly when no row carries its
      operation or the row that does is of that work item. */
  lemma StartAnswersExactly(
    trace: seq<System>, steps: seq<Step>, n: nat, work: Id, flow: Flow, fields: Fields, actor: Id, operation: Id
  )
    requires IsRun(trace, steps) && n < |trace|
    ensures var answer := StartAnswer(trace[n], work, flow, fields, actor, operation);
      answer.Some? ==>
        (answer.value == work <==> forall row | row in trace[n].journal && row.operation == operation :: row.work == work)
    ensures forall row | row in trace[n].journal && row.operation == operation && row.request == StartRequest(flow, fields, actor) ::
              StartAnswer(trace[n], work, flow, fields, actor, operation) == Some(row.work)
  {
    hide IsRun, CanStart, FindOperation, PendingOk, FlowsOk, ObligationsOk, RecordsOk, PreparesOk, CompletionsOk, WorksOk,
      RowHandoffsOk, HandoffsOk, RunOk;
    AlwaysInv(trace, steps, n);
    FindExact(trace[n].journal, operation);
    assert OperationsDistinct(trace[n].journal);
  }

  lemma FreshExact(journal: Journal, operation: Id, request: Request)
    ensures ReplayOf(journal, operation, request) == Fresh <==> forall row | row in journal :: row.operation != operation
  {
    FindExact(journal, operation);
  }

  lemma OpenRouteOf(run: Run, work: Id, h: seq<JournalRow>) returns (route: FlowRoute)
    requires RunOk(run, work, h) && run.status == HandoffPreparing
    ensures RouteOpen(run, work, route)
  {
    hide HistoryOk, StateAfter, RouteOpen;
    route :| RouteOpen(run, work, route);
  }

  /** A call that retries an open transition re-selects exactly the route that is pending, and is let through
      unless its operation has been used meanwhile. */
  lemma RetryResumesPendingRoute(trace: seq<System>, steps: seq<Step>, n: nat, work: Id, call: PrepareCall)
    returns (route: FlowRoute)
    requires IsRun(trace, steps) && n < |trace| && work in trace[n].runs && trace[n].runs[work].status == HandoffPreparing
    requires SamePending(trace[n].runs[work], call.operation, call.Digest()) && call.handoff.None?
    ensures call.work == work && RouteOpen(trace[n].runs[work], work, route)
    ensures trace[n].runs[work].State().SelectRoute(call.outcome, trace[n].runs[work].fields) == Success(route)
    ensures CanResume(trace[n], call) <==>
              call.route == route && forall row | row in trace[n].journal :: row.operation != call.operation
  {
    hide IsRun, Inv, AcceptedFlow, RunOk, FlowState.SelectRoute, ReplayOf;
    AlwaysInv(trace, steps, n);
    RunOf(trace[n], work);
    route := OpenRouteOf(trace[n].runs[work], work, History(trace[n].journal, work));
    FreshExact(trace[n].journal, call.operation, call.Digest());
  }

  ghost predicate RecordedAs(call: PrepareCall, row: JournalRow) {
    row.work == call.work && row.sequence == call.expected + 1 && row.route == Some(call.route.routeId)
  }

  lemma CallRoute(s: System, c: nat)
    requires Inv(s) && c in s.prepares
    ensures s.prepares[c].work in s.runs
    ensures || (exists row :: row in s.journal && RecordedAs(s.prepares[c], row))
            || (s.runs[s.prepares[c].work].version == s.prepares[c].expected
                && s.runs[s.prepares[c].work].pendingRoute == Some(s.prepares[c].route.routeId))
  {
    hide FlowsOk, RunsOk, PendingOk, ObligationsOk, RecordsOk, PreparesOk, CompletionsOk, WorksOk, RowHandoffsOk, HandoffsOk,
      TransitionKey;
    CallOf(s, c);
    var call := s.prepares[c];
    if CallRecorded(s.journal, call) {
      var row :| row in s.journal && row.request == call.Digest() && row.route == Some(call.route.routeId);
      RowOf(s.runs, s.journal, row);
      assert RecordedAs(call, row);
    }
  }

  lemma SameRow(runs: Runs, journal: Journal, a: JournalRow, b: JournalRow)
    requires RunsOk(runs, journal) && a in journal && b in journal && a.work == b.work && a.sequence == b.sequence
    ensures a == b
  {
    hide RunsOk, RowOk;
    RowAt(runs, journal, a);
    RowAt(runs, journal, b);
  }

  lemma PastRow(runs: Runs, journal: Journal, row: JournalRow)
    requires RunsOk(runs, journal) && row in journal
    ensures row.work in runs && row.sequence <= runs[row.work].version
  {
    hide RunsOk, RowOk;
    RowAt(runs, journal, row);
  }

  /** Within one work item, every call that transitions from one version finds or makes the same handoff,
      and it is the one the journal records. */
  lemma OneHandoffPerVersion(trace: seq<System>, steps: seq<Step>, n: nat, c: nat)
    requires IsRun(trace, steps) && n < |trace| && c in trace[n].prepares && trace[n].prepares[c].handoff.Some?
    ensures forall d | d in trace[n].prepares && trace[n].prepares[d].handoff.Some?
                       && trace[n].prepares[d].work == trace[n].prepares[c].work
                       && trace[n].prepares[d].expected == trace[n].prepares[c].expected ::
              trace[n].prepares[d].handoff == trace[n].prepares[c].handoff
    ensures forall row | row in trace[n].journal && row.request.PrepareRequest?
                         && row.work == trace[n].prepares[c].work && row.sequence == trace[n].prepares[c].expected + 1 ::
              row.handoff == trace[n].prepares[c].handoff
  {
    hide IsRun, Inv, TransitionKey;
    AlwaysInv(trace, steps, n);
    var s := trace[n];
    CallOf(s, c);
    CallRoute(s, c);
    forall d | d in s.prepares && s.prepares[d].handoff.Some?
               && s.prepares[d].work == s.prepares[c].work && s.prepares[d].expected == s.prepares[c].expected
      ensures s.prepares[d].handoff == s.prepares[c].handoff
    {
      CallOf(s, d);
      SameRoute(s, c, d);
    }
    forall row | row in s.journal && row.request.PrepareRequest?
                 && row.work == s.prepares[c].work && row.sequence == s.prepares[c].expected + 1
      ensures row.handoff == s.prepares[c].handoff
    {
      RouteOfRow(s, c, row);
    }
  }

  lemma RunsOf(s: System)
    requires Inv(s)
    ensures RunsOk(s.runs, s.journal)
  {
    hide FlowsOk, RunsOk, PendingOk, ObligationsOk, RecordsOk, PreparesOk, CompletionsOk, WorksOk, RowHandoffsOk, HandoffsOk;
  }

  lemma RouteOfRow(s: System, c: nat, row: JournalRow)
    requires Inv(s) && c in s.prepares && row in s.journal && row.request.PrepareRequest?
    requires row.work == s.prepares[c].work && row.sequence == s.prepares[c].expected + 1
    ensures row.handoff == Some(TransitionKey(s.prepares[c].work, s.prepares[c].expected, s.prepares[c].route.routeId))
  {
    hide Inv, RunsOk, TransitionKey;
    CallRoute(s, c);
    RunsOf(s);
    RowOf(s.runs, s.journal, row);
    PastRow(s.runs, s.journal, row);
    var mine :| mine in s.journal && RecordedAs(s.prepares[c], mine);
    SameRow(s.runs, s.journal, row, mine);
  }

  lemma SameRoute(s: System, c: nat, d: nat)
    requires Inv(s) && c in s.prepares && d in s.prepares
    requires s.prepares[d].work == s.prepares[c].work && s.prepares[d].expected == s.prepares[c].expected
    ensures s.prepares[d].route.routeId == s.prepares[c].route.routeId
  {
    hide Inv, RunsOk;
    CallRoute(s, c);
    CallRoute(s, d);
    RunsOf(s);
    forall row, other | row in s.journal && RecordedAs(s.prepares[c], row) && other in s.journal && RecordedAs(s.prepares[d], other)
      ensures row == other
    {
      SameRow(s.runs, s.journal, row, other);
    }
    forall row | row in s.journal && (RecordedAs(s.prepares[c], row) || RecordedAs(s.prepares[d], row))
      ensures row.sequence <= s.runs[row.work].version
    {
      PastRow(s.runs, s.journal, row);
    }
  }
}
