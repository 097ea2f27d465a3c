/** Obligations over whole runs: statuses only move forward, and a visit that was left is frozen. */
module FlowObligations {
  import opened Json
  import opened FlowDefinition
  import opened FlowTables
  import opened FlowInvariants
  import opened FlowPreservation
  import opened FlowSteps
  import opened FlowRuns
  import opened FlowJournal

  /** The row is still there, for the same role and payload, and its status is the same or was pending. */
  predicate Forward(before: Obligation, after: Obligation) {
    after.role == before.role && after.payload == before.payload && (after.status == before.status || before.status == Pending)
  }

  ghost predicate RowMoves(runs: Runs, o: Obligations, o': Obligations, key: ObligationKey)
    requires key in o
  {
    && key in o' && Forward(o[key], o'[key])
    && (key.work in runs && Left(runs[key.work], key.entry) ==> o'[key] == o[key])
  }

  ghost predicate RowsMove(runs: Runs, o: Obligations, o': Obligations) {
    forall key | key in o :: RowMoves(runs, o, o', key)
  }

  lemma CurrentMoves(s: System, work: Id, kind: Kind, id: Id, status: ObligationStatus)
    requires IsCurrent(s, work, kind, id)
    requires s.obligations[CurrentKey(s, work, kind, id)].status in {Pending, status}
    ensures var key := CurrentKey(s, work, kind, id);
      RowsMove(s.runs, s.obligations, s.obligations[key := s.obligations[key].(status := status)])
  {}

  lemma GovernanceMoves(s: System, step: GovernanceStep, s': System)
    requires GovernanceTakes(s, step, s')
    ensures RowsMove(s.runs, s.obligations, s'.obligations)
  {
    hide RowsMove, MaterializePath, ArtifactVerified, GateTakes;
    UnmovedRows(s.runs, s.obligations);
    match step
    case VerifyArtifact(work, _, _, _, _) => CurrentMoves(s, work, Artifact, "artifact", Satisfied);
    case RecordConsultation(_, _, _, _, _, _, _) =>
    case DecideGate(work, id, decision, _, _, _, _, _, _) =>
      if decision != Rejected {
        CurrentMoves(s, work, Gate, id, Satisfied);
      }
    case SponsorGate(work, id, decision, _, _, _, _, _) =>
      if decision != Rejected {
        CurrentMoves(s, work, Gate, id, Satisfied);
      }
  }

  lemma UnmovedRows(runs: Runs, o: Obligations)
    ensures RowsMove(runs, o, o)
  {}

  /** Entering a visit adds rows and touches none. */
  lemma EnteringMoves(runs: Runs, journal: Journal, o: Obligations, r: Records, entries: Entries, row: JournalRow, run: Run, fields: Fields)
    requires EntriesPast(runs, journal) && KeysBelong(runs, journal, o, entries) && Entering(runs, row, run)
    requires Distinct(Identifiers(run.flow.states[row.to]))
    ensures RowsMove(runs, o, InsertObligations(o, row.work, row.to, row.sequence, run.flow.states[row.to].Obligations(fields)))
  {
    hide Identifiers, InsertObligations, KeysBelong, EntriesPast, Entering;
    EnterRows(runs, journal, o, entries, row, run, fields);
  }

  lemma PartsOf(s: System)
    requires Inv(s)
    ensures RunsOk(s.runs, s.journal) && ObligationsOk(s.runs, s.journal, s.obligations, s.records, s.entryFields)
    ensures KeysBelong(s.runs, s.journal, s.obligations, s.entryFields)
  {
    hide FlowsOk, RunsOk, PendingOk, PreparesOk, CompletionsOk, RecordsOk, WorksOk, RowHandoffsOk, HandoffsOk;
    hide VisitsHeld, KeysBelong, LeftSettled;
  }

  lemma StartMoves(s: System, work: Id, flow: Flow, fields: Fields, actor: Id, operation: Id)
    requires Inv(s) && AcceptedFlow(flow) && CanStart(s, work, flow, fields, actor, operation)
    ensures RowsMove(s.runs, s.obligations, Started(s, work, flow, fields, actor, operation).obligations)
  {
    hide Inv, AcceptedFlow, InsertObligations, RowsMove, KeysBelong, EntriesPast, MaxSequence, RunsOk, Identifiers, History,
      ReplayOf, ObligationsOk;
    var s' := Started(s, work, flow, fields, actor, operation);
    PartsOf(s);
    EntryOwns(flow);
    NextNumber(s.runs, s.journal, work);
    RunsArePast(s.runs, s.journal);
    EnteringMoves(s.runs, s.journal, s.obligations, s.records, s.entryFields, s'.journal[|s.journal|], s'.runs[work], fields);
  }

  lemma PickupMoves(s: System, work: Id, expected: nat, actor: Id, operation: Id)
    requires Inv(s) && CanPickup(s, work, expected, actor, operation)
    ensures RowsMove(s.runs, s.obligations, PickedUp(s, work, expected, actor, operation).obligations)
  {
    hide Inv, AcceptedFlow, InsertObligations, RowsMove, KeysBelong, EntriesPast, MaxSequence, RunsOk, Identifiers, History,
      ReplayOf, ObligationsOk, RunOk;
    var s' := PickedUp(s, work, expected, actor, operation);
    PartsOf(s);
    RunOf(s, work);
    EntryOwns(s.runs[work].flow);
    NextNumber(s.runs, s.journal, work);
    RunsArePast(s.runs, s.journal);
    EnteringMoves(s.runs, s.journal, s.obligations, s.records, s.entryFields, s'.journal[|s.journal|], s'.runs[work], s.runs[work].fields);
  }

  lemma EngineMovesRows(s: System, step: EngineStep, s': System)
    requires Inv(s) && EngineTakes(s, step, s')
    ensures RowsMove(s.runs, s.obligations, s'.obligations)
  {
    hide Inv, AcceptedFlow, Started, PickedUp, CanStart, CanPickup, CanOpen, CanResume, CanCommit, CanOpenCompletion, CanOffer,
      CanResumeCompletion, CanRead, CanTry, CanCommitCompletion, RowsMove, OfferMade, TransitionKey, TransitionPayload,
      MergedFields, Append, AfterAttempt, Routable, DispatchKey, DispatchDraft;
    UnmovedRows(s.runs, s.obligations);
    match step
    case StartRun(work, flow, fields, actor, operation) => StartMoves(s, work, flow, fields, actor, operation);
    case PickupTransition(work, expected, actor, operation) => PickupMoves(s, work, expected, actor, operation);
    case DispatchAction(work, kind, id, actor) => CurrentMoves(s, work, kind, id, Dispatched);
    case OfferTransition(c, at, later) => OfferKeepsTables(s, TransitionOffer(s.prepares[c]), at, later);
    case _ =>
  }

  lemma StepMovesRows(s: System, step: Step, s': System)
    requires Inv(s) && Takes(s, step, s')
    ensures RowsMove(s.runs, s.obligations, s'.obligations)
  {
    hide Inv, EngineTakes, GovernanceTakes, HandoffTakes, RowsMove;
    UnmovedRows(s.runs, s.obligations);
    match step
    case Engine(e) => EngineMovesRows(s, e, s');
    case Governance(g) => GovernanceMoves(s, g, s');
    case Handoffs(h) => HandoffKeepsRuns(s, h, s');
    case Elsewhere =>
  }

  /** Once left, a visit stays left. */
  lemma LeftStays(s: System, step: Step, s': System, work: Id, entry: nat)
    requires Inv(s) && Inv(s') && Takes(s, step, s') && work in s.runs && Left(s.runs[work], entry) && entry <= s.runs[work].version
    ensures work in s'.runs && Left(s'.runs[work], entry) && entry <= s'.runs[work].version
  {
    hide Inv, Takes, EngineTakes;
    StepLater(s, step, s');
    if step.Engine? && ChangesRuns(step.engine) {
      EngineOf(s, step, s');
      if s'.runs[work].version == s.runs[work].version && s'.runs[work] != s.runs[work] {
        SameVersionLeaves(s, step.engine, s', work);
      }
    } else {
      KeepsRuns(s, step, s');
    }
  }

  /** A run changed without a new version has just begun to prepare or complete. */
  lemma SameVersionLeaves(s: System, step: EngineStep, s': System, work: Id)
    requires EngineTakes(s, step, s') && ChangesRuns(step) && work in s.runs && work in s'.runs
    requires s'.runs[work].version == s.runs[work].version && s'.runs[work] != s.runs[work]
    ensures s'.runs[work].status != Active
  {
    hide AcceptedFlow, InsertObligations, Append, ReplayOf, AllDischarged, MergedFields, FlowState.SelectRoute, SamePending, Finished;
  }

  /** Over any run of the system an obligation keeps its role and payload, its status only ever leaves `Pending`, and once
      its visit is left it never changes again. */
  lemma {:induction false} ObligationsOnlyMoveForward(trace: seq<System>, steps: seq<Step>, i: nat, j: nat, key: ObligationKey)
    requires IsRun(trace, steps) && i <= j < |trace| && key in trace[i].obligations
    ensures key in trace[j].obligations && Forward(trace[i].obligations[key], trace[j].obligations[key])
    ensures key.work in trace[i].runs && key.entry <= trace[i].runs[key.work].version && Left(trace[i].runs[key.work], key.entry) ==>
              && trace[j].obligations[key] == trace[i].obligations[key]
              && key.work in trace[j].runs && key.entry <= trace[j].runs[key.work].version && Left(trace[j].runs[key.work], key.entry)
    decreases j
  {
    hide Inv, Takes, Left;
    if i < j {
      ObligationsOnlyMoveForward(trace, steps, i, j - 1, key);
      AlwaysInv(trace, steps, j - 1);
      AlwaysInv(trace, steps, j);
      StepMovesRows(trace[j - 1], steps[j - 1], trace[j]);
      assert RowMoves(trace[j - 1].runs, trace[j - 1].obligations, trace[j].obligations, key);
      if key.work in trace[i].runs && key.entry <= trace[i].runs[key.work].version && Left(trace[i].runs[key.work], key.entry) {
        LeftStays(trace[j - 1], steps[j - 1], trace[j], key.work, key.entry);
      }
    }
  }
}
