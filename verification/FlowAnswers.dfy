/** What a committed call leaves behind: the row that answers its retries, and a run changed only as that call says. */
module FlowAnswers {
  import opened Wrappers
  import opened Json
  import opened FlowDefinition
  import opened FlowTables
  import opened FlowInvariants
  import opened FlowPreservation
  import opened FlowSteps
  import opened FlowRuns
  import opened FlowJournal
  import opened FlowTheorems

  // ---- Retries of what was committed ----

  /** What a step that journals was asked to do: under which operation, by which request, for which work item. */
  datatype Asked = Asked(operation: Id, request: Request, work: Id)

  ghost function AskedBy(s: System, step: EngineStep): Option<Asked> {
    match step
    case StartRun(work, flow, fields, actor, operation) => Some(Asked(operation, StartRequest(flow, fields, actor), work))
    case PickupTransition(work, expected, actor, operation) => Some(Asked(operation, PickupRequest(work, expected, actor), work))
    case CommitTransition(c) =>
      if c in s.prepares then
        var call := s.prepares[c];
        Some(Asked(call.operation, PrepareRequest(call.work, call.outcome, call.fields, call.expected, call.actor), call.work))
      else None
    case CommitCompletion(c) =>
      if c in s.completions then
        var call := s.completions[c];
        Some(Asked(call.operation, CompleteRequest(call.work, call.expected, call.actor, call.evidence), call.work))
      else None
    case _ => None
  }

  /** The row records what was asked, and who asked. */
  ghost predicate RecordsAsked(row: JournalRow, asked: Asked) {
    && row.operation == asked.operation && row.request == asked.request && row.work == asked.work
    && row.actor == asked.request.actor
    && (asked.request.StartRequest? ==> row.evidence == map["flow_digest" := Str(asked.request.flow.digest)])
    && (asked.request.CompleteRequest? ==> row.evidence == asked.request.evidence)
  }

  lemma StartRecords(s: System, work: Id, flow: Flow, fields: Fields, actor: Id, operation: Id)
    requires CanStart(s, work, flow, fields, actor, operation)
    ensures var journal := Started(s, work, flow, fields, actor, operation).journal;
      |journal| > 0 && RecordsAsked(journal[|journal| - 1], Asked(operation, StartRequest(flow, fields, actor), work))
  {
    hide ReplayOf, InsertObligations, MaxSequence;
  }

  lemma PickupRecords(s: System, work: Id, expected: nat, actor: Id, operation: Id)
    requires CanPickup(s, work, expected, actor, operation)
    ensures var journal := PickedUp(s, work, expected, actor, operation).journal;
      |journal| > 0 && RecordsAsked(journal[|journal| - 1], Asked(operation, PickupRequest(work, expected, actor), work))
  {
    hide ReplayOf, InsertObligations, MaxSequence;
  }

  lemma CommitRecords(s: System, c: nat)
    requires CanCommit(s, c)
    ensures var journal := Committed(s, c).journal;
      |journal| > 0 && RecordsAsked(journal[|journal| - 1], AskedBy(s, CommitTransition(c)).value)
  {
    hide ReplayOf, MaxSequence;
  }

  lemma CompletionRecords(s: System, c: nat)
    requires CanCommitCompletion(s, c)
    ensures var journal := CompletionCommitted(s, c).journal;
      |journal| > 0 && RecordsAsked(journal[|journal| - 1], AskedBy(s, CommitCompletion(c)).value)
  {
    hide ReplayOf, MaxSequence, Finished;
  }

  /** A step that was asked to do something journals it as asked. */
  lemma StepRecords(s: System, step: EngineStep, s': System) returns (row: JournalRow)
    requires EngineTakes(s, step, s') && AskedBy(s, step).Some?
    ensures row in s'.journal && RecordsAsked(row, AskedBy(s, step).value)
  {
    hide RecordsAsked, CanStart, CanPickup, CanCommit, CanCommitCompletion, Started, PickedUp, Committed, CompletionCommitted,
      AcceptedFlow;
    match step {
      case StartRun(work, flow, fields, actor, operation) => StartRecords(s, work, flow, fields, actor, operation);
      case PickupTransition(work, expected, actor, operation) => PickupRecords(s, work, expected, actor, operation);
      case CommitTransition(c) => CommitRecords(s, c);
      case CommitCompletion(c) => CompletionRecords(s, c);
    }
    row := s'.journal[|s'.journal| - 1];
  }

  /** Whatever a step of a run committed, every later retry of that very request under its operation is answered with the
      work item it was for, and the same operation with any other request is refused. */
  lemma CommittedCallsReplay(trace: seq<System>, steps: seq<Step>, n: nat, m: nat, request: Request)
    requires IsRun(trace, steps) && n < m < |trace| && steps[n].Engine? && AskedBy(trace[n], steps[n].engine).Some?
    ensures var asked := AskedBy(trace[n], steps[n].engine).value;
      ReplayOf(trace[m].journal, asked.operation, request) == if request == asked.request then Recorded(asked.work) else Clash
  {
    hide Inv, Takes, EngineTakes, AskedBy;
    TakenByEngine(trace, steps, n);
    var row := StepRecords(trace[n], steps[n].engine, trace[n + 1]);
    JournalOnlyGrows(trace, steps, n + 1, m);
    assert row in trace[m].journal;
    AlwaysInv(trace, steps, m);
    RunsOf(trace[m]);
    OneRow(trace[m].runs, trace[m].journal, row);
  }

  lemma TakenByEngine(trace: seq<System>, steps: seq<Step>, n: nat)
    requires IsRun(trace, steps) && n < |steps| && steps[n].Engine?
    ensures EngineTakes(trace[n], steps[n].engine, trace[n + 1])
  {
    hide Takes;
    EngineOf(trace[n], steps[n], trace[n + 1]);
  }

  lemma OneRow(runs: Runs, journal: Journal, row: JournalRow)
    requires RunsOk(runs, journal) && row in journal
    ensures FindOperation(journal, row.operation) == Some(row)
  {
    hide RunOk, FindOperation;
    FindExact(journal, row.operation);
  }

  // ---- What a step leaves of a run ----

  lemma EngineKeepsFields(s: System, step: EngineStep, s': System, w: Id)
    requires EngineTakes(s, step, s') && ChangesRuns(step) && !step.OpenTransition? && w in s.runs
    ensures w in s'.runs && s'.runs[w].fields == s.runs[w].fields && s'.runs[w].flow == s.runs[w].flow
  {
    hide AcceptedFlow, CanOpenCompletion, CanCommitCompletion, CanCommit, InsertObligations, Append, ReplayOf, AllDischarged,
      FlowState.Obligations, DispatchedTo, Resumed, OfferedFor, CompletionResumed, WorkRead, CompletionTried, Opened, CanOpen;
  }

  /** A run's fields change only as a transition of it is opened. */
  lemma FieldsChangeOnOpening(s: System, step: Step, s': System, w: Id)
    requires Takes(s, step, s') && w in s.runs && !(step.Engine? && step.engine.OpenTransition? && step.engine.prepare.work == w)
    ensures w in s'.runs && s'.runs[w].fields == s.runs[w].fields && s'.runs[w].flow == s.runs[w].flow
  {
    hide Takes, EngineTakes;
    if step.Engine? && ChangesRuns(step.engine) {
      EngineOf(s, step, s');
      if step.engine.OpenTransition? {
        OpensItsOwn(s, step.engine.c, step.engine.prepare, s');
      } else {
        EngineKeepsFields(s, step.engine, s', w);
      }
    } else {
      KeepsRuns(s, step, s');
    }
  }

  lemma OpensItsOwn(s: System, c: nat, call: PrepareCall, s': System)
    requires EngineTakes(s, OpenTransition(c, call), s')
    ensures forall w | w in s.runs && w != call.work :: w in s'.runs && s'.runs[w] == s.runs[w]
  {
    hide ReplayOf, AllDischarged, MergedFields, FlowState.SelectRoute;
  }

  /** The kernel completes a work item exactly if it is still the active one that was read, and nothing stands in the way;
      it then bears the fixed reason and the call's evidence. Otherwise, and for all others, nothing changes. */
  lemma AttemptExact(s: System, c: nat, blocked: bool)
    requires CanTry(s, c)
    ensures var call, after := s.completions[c], CompletionTried(s, c, blocked).works;
      && call.work in after && after.Keys == s.works.Keys
      && (forall w | w in s.works && w != call.work :: after[w] == s.works[w])
      && (if s.works[call.work].status == WorkActive && s.works[call.work].version == call.stage.seen.version && !blocked
          then Finished(after[call.work], call.evidence) && after[call.work].version == s.works[call.work].version + 1
               && after[call.work].role == s.works[call.work].role
          else after[call.work] == s.works[call.work])
  {}

  /** A pickup hands the work item, at a new version, to the role that owns the state entered, and touches no other. */
  lemma PickupHandsOver(trace: seq<System>, steps: seq<Step>, n: nat, w: Id, expected: nat, actor: Id, operation: Id)
    requires IsRun(trace, steps) && n < |steps| && steps[n] == Engine(PickupTransition(w, expected, actor, operation))
    ensures w in trace[n].works && w in trace[n].runs && trace[n].runs[w].pendingTarget.Some?
    ensures trace[n].runs[w].pendingTarget.value in trace[n].runs[w].flow.states
    ensures trace[n + 1].works == trace[n].works[w := trace[n].works[w].(
              role := trace[n].runs[w].flow.states[trace[n].runs[w].pendingTarget.value].ownerRole,
              version := trace[n].works[w].version + 1)]
  {
    TakenByEngine(trace, steps, n);
    hide IsRun, ReplayOf, InsertObligations, Append, FlowState.Obligations;
  }
}
