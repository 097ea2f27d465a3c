/** What a run's journal says: its shape, its path through the flow, and the operations it holds. */
module FlowJournal {
  import opened Json
  import opened FlowDefinition
  import opened FlowTables
  import opened FlowInvariants
  import opened FlowPreservation
  import opened FlowSteps
  import opened FlowRuns

  // ---- One history ----

  function Actions(h: seq<JournalRow>): seq<Action> {
    seq(|h|, i requires 0 <= i < |h| => h[i].action)
  }

  /** Full rounds: a transition prepared, then picked up. */
  function Rounds(k: nat): seq<Action> {
    if k == 0 then [] else Rounds(k - 1) + [Prepare, Pickup]
  }

  /** The states entered, in order. */
  function Visits(h: seq<JournalRow>): seq<Id> {
    if h == [] then []
    else
      var n := |h| - 1;
      Visits(h[..n]) + (if IsEntry(h[n]) then [h[n].to] else [])
  }

  /** A history reads start (prepare pickup)* and then nothing, an open prepare, or a complete. */
  ghost predicate Shaped(h: seq<JournalRow>, rounds: nat, tail: seq<Action>) {
    tail in {[], [Prepare], [Complete]} && Actions(h) == [Start] + Rounds(rounds) + tail
  }

  lemma ActionsGrow(h: seq<JournalRow>, n: nat)
    requires |h| == n + 1
    ensures Actions(h) == Actions(h[..n]) + [h[n].action]
  {}

  lemma PrefixOk(flow: Flow, work: Id, h: seq<JournalRow>, n: nat)
    requires HistoryOk(flow, work, h) && 0 < n <= |h|
    ensures HistoryOk(flow, work, h[..n])
  {
    forall i | 0 <= i < n ensures RowOk(flow, work, h[..n], i) {
      assert RowOk(flow, work, h, i);
    }
  }

  lemma LastAction(h: seq<JournalRow>, rounds: nat, tail: seq<Action>)
    requires h != [] && Shaped(h, rounds, tail)
    ensures tail == [] ==> h[|h| - 1].action == if rounds == 0 then Start else Pickup
    ensures tail != [] ==> h[|h| - 1].action == tail[0]
  {
    assert Actions(h)[|h| - 1] == h[|h| - 1].action;
  }

  lemma {:induction false} HistoryShape(flow: Flow, work: Id, h: seq<JournalRow>) returns (rounds: nat, tail: seq<Action>)
    requires HistoryOk(flow, work, h)
    ensures h != [] && Shaped(h, rounds, tail)
    decreases |h|
  {
    var n := |h| - 1;
    assert RowOk(flow, work, h, n);
    ActionsGrow(h, n);
    if n == 0 {
      rounds, tail := 0, [];
      assert Actions(h) == [Start];
    } else {
      PrefixOk(flow, work, h, n);
      rounds, tail := HistoryShape(flow, work, h[..n]);
      LastAction(h[..n], rounds, tail);
      assert h[n - 1].action == h[..n][n - 1].action;
      if h[n].action == Pickup {
        assert tail == [Prepare];
        assert Actions(h) == [Start] + (Rounds(rounds) + [Prepare, Pickup]) + [];
        rounds, tail := rounds + 1, [];
      } else {
        assert tail == [];
        tail := [h[n].action];
      }
    }
  }

  /** The states entered form a walk along routes from the entry state to where the run is. */
  lemma {:induction false} HistoryWalks(flow: Flow, work: Id, h: seq<JournalRow>)
    requires HistoryOk(flow, work, h)
    ensures Walk(flow.states, Visits(h)) && Visits(h)[0] == flow.entryState
    ensures Visits(h)[|Visits(h)| - 1] == StateAfter(h)
    decreases |h|
  {
    hide RouteTaken, Edge;
    var n := |h| - 1;
    assert RowOk(flow, work, h, n);
    if n > 0 {
      assert RowOk(flow, work, h, n - 1);
      PrefixOk(flow, work, h, n);
      HistoryWalks(flow, work, h[..n]);
      if h[n].action == Pickup {
        RouteIsEdge(flow, h[n - 1]);
        assert Edge(flow.states, h[n - 1].from.value, h[n].to);
        WalkOn(flow.states, Visits(h[..n]), h[n].to);
      }
    }
  }

  lemma RouteIsEdge(flow: Flow, row: JournalRow)
    requires RouteTaken(flow, row)
    ensures Edge(flow.states, row.from.value, row.to)
  {}

  lemma WalkOn(states: map<Id, FlowState>, path: seq<Id>, to: Id)
    requires Walk(states, path) && Edge(states, path[|path| - 1], to)
    ensures Walk(states, path + [to])
  {
    hide Edge;
    forall i | 0 <= i < |path| ensures Edge(states, (path + [to])[i], (path + [to])[i + 1]) {
      if i < |path| - 1 {
        assert Edge(states, path[i], path[i + 1]);
      }
    }
  }

  /** In every reachable state, a run's version is the length of its journal, the rows are numbered from one,
      they have the shape of a flow, and the states they enter are a path from the entry to the current state. */
  lemma JournalTellsTheRun(trace: seq<System>, steps: seq<Step>, n: nat, work: Id) returns (rounds: nat, tail: seq<Action>)
    requires IsRun(trace, steps) && n < |trace| && work in trace[n].runs
    ensures var s := trace[n];
      var run, h := s.runs[work], History(s.journal, work);
      && run.version == |h| && (forall i | 0 <= i < |h| :: h[i].sequence == i + 1)
      && Shaped(h, rounds, tail)
      && (run.status == HandoffPending <==> tail == [Prepare]) && (run.status == Completed <==> tail == [Complete])
      && Walk(run.flow.states, Visits(h)) && Visits(h)[0] == run.flow.entryState
      && Visits(h)[|Visits(h)| - 1] == run.currentState
  {
    hide IsRun, Inv, HistoryOk, Shaped, Walk, StateAfter, RouteOpen, AcceptedFlow;
    AlwaysInv(trace, steps, n);
    RunOf(trace[n], work);
    var run, h := trace[n].runs[work], History(trace[n].journal, work);
    rounds, tail := HistoryShape(run.flow, work, h);
    HistoryWalks(run.flow, work, h);
    ShapeFitsStatus(run, work, h, rounds, tail);
    forall i | 0 <= i < |h| ensures h[i].sequence == i + 1 {
      Numbering(run.flow, work, h, i);
    }
  }

  lemma ShapeFitsStatus(run: Run, work: Id, h: seq<JournalRow>, rounds: nat, tail: seq<Action>)
    requires h != [] && StatusOk(run, work, h) && Shaped(h, rounds, tail)
    ensures run.status == HandoffPending <==> tail == [Prepare]
    ensures run.status == Completed <==> tail == [Complete]
  {
    hide RouteOpen, Shaped;
    LastAction(h, rounds, tail);
    TailCases(h, rounds, tail);
  }

  lemma TailCases(h: seq<JournalRow>, rounds: nat, tail: seq<Action>)
    requires Shaped(h, rounds, tail)
    ensures tail == [] || tail == [Prepare] || tail == [Complete]
  {}

  lemma Numbering(flow: Flow, work: Id, h: seq<JournalRow>, i: nat)
    requires HistoryOk(flow, work, h) && i < |h|
    ensures h[i].sequence == i + 1 && h[i].work == work
  {
    hide Continues;
    assert RowOk(flow, work, h, i);
  }

  // ---- Operations take effect at most once ----

  /** The journal, and each run in it, as time goes on. */
  ghost predicate Later(s: System, t: System) {
    && s.journal <= t.journal
    && forall w | w in s.runs ::
         w in t.runs && t.runs[w].flow == s.runs[w].flow && s.runs[w].version <= t.runs[w].version
  }

  lemma StepLater(s: System, step: Step, s': System)
    requires Takes(s, step, s')
    ensures Later(s, s')
    ensures s'.journal == s.journal || exists row :: Extends(s.journal, row, s'.journal)
  {
    hide Takes, EngineTakes, Extends;
    if step.Engine? && ChangesRuns(step.engine) {
      EngineOf(s, step, s');
      var work := ChangesOneRun(s, step.engine, s');
      if s'.journal != s.journal {
        var row :| Extends(s.journal, row, s'.journal) && row.work == work;
        ExtendsPrefix(s.journal, row, s'.journal);
      }
      assert forall w | w in s.runs :: w in s'.runs && s'.runs[w].flow == s.runs[w].flow;
    } else {
      KeepsRuns(s, step, s');
    }
  }

  lemma EngineOf(s: System, step: Step, s': System)
    requires Takes(s, step, s') && step.Engine?
    ensures EngineTakes(s, step.engine, s')
  {
    hide EngineTakes;
  }

  lemma ExtendsPrefix(journal: Journal, row: JournalRow, journal': Journal)
    requires Extends(journal, row, journal')
    ensures journal <= journal' && |journal'| == |journal| + 1 && journal'[|journal|] == row
  {}

  /** The journal only grows, and runs keep their pinned flow and never go back a version. */
  lemma {:induction false} JournalOnlyGrows(trace: seq<System>, steps: seq<Step>, i: nat, j: nat)
    requires IsRun(trace, steps) && i <= j < |trace|
    ensures Later(trace[i], trace[j])
    decreases j
  {
    hide Takes;
    if i < j {
      JournalOnlyGrows(trace, steps, i, j - 1);
      StepLater(trace[j - 1], steps[j - 1], trace[j]);
    }
  }

  /** The step journals this operation. */
  ghost predicate Effects(s: System, operation: Id, s': System) {
    exists row :: Extends(s.journal, row, s'.journal) && row.operation == operation
  }

  /** However calls are retried, raced or cut short, at most one step of a run journals a given operation. */
  lemma OperationTakesEffectOnce(trace: seq<System>, steps: seq<Step>, i: nat, j: nat, operation: Id)
    requires IsRun(trace, steps) && i < |steps| && j < |steps|
    requires Effects(trace[i], operation, trace[i + 1]) && Effects(trace[j], operation, trace[j + 1])
    ensures i == j
  {
    hide IsRun;
    if i < j {
      EffectsLast(trace, steps, i, j, operation);
    } else if j < i {
      EffectsLast(trace, steps, j, i, operation);
    }
  }

  lemma EffectsLast(trace: seq<System>, steps: seq<Step>, i: nat, j: nat, operation: Id)
    requires IsRun(trace, steps) && i < j < |steps|
    requires Effects(trace[i], operation, trace[i + 1])
    ensures !Effects(trace[j], operation, trace[j + 1])
  {
    hide Takes;
    var first :| Extends(trace[i].journal, first, trace[i + 1].journal) && first.operation == operation;
    ExtendsPrefix(trace[i].journal, first, trace[i + 1].journal);
    JournalOnlyGrows(trace, steps, i + 1, j);
    assert trace[j].journal[|trace[i].journal|] == first;
    assert first in trace[j].journal;
  }

  /** Nothing moves a run to another version without journalling it: one version, one row, one new operation. */
  lemma VersionsAreJournalled(s: System, step: Step, s': System, work: Id) returns (row: JournalRow)
    requires Takes(s, step, s') && work in s.runs && work in s'.runs && s'.runs[work].version != s.runs[work].version
    ensures Extends(s.journal, row, s'.journal) && row.work == work
    ensures s'.runs[work].version == s.runs[work].version + 1
    ensures forall w | w in s.runs && w != work :: w in s'.runs && s'.runs[w] == s.runs[w]
  {
    hide Takes, EngineTakes, Extends;
    if step.Engine? && ChangesRuns(step.engine) {
      EngineOf(s, step, s');
      var moved := ChangesOneRun(s, step.engine, s');
      row :| Extends(s.journal, row, s'.journal) && row.work == moved;
    } else {
      KeepsRuns(s, step, s');
    }
  }
}
