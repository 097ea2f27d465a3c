/** Runs in which the flow engine does what one might not expect, each built step by step from nothing but work items. */
module FlowExamples {
  import opened Wrappers
  import opened Json
  import opened FlowDefinition
  import opened FlowTables
  import opened FlowInvariants
  import opened FlowSteps
  import opened FlowRuns
  import opened FlowTheorems
  import opened FlowSafety
  import opened FlowOffers
  import opened FlowProgress

  // ---- A flow of two states, with one gate ----

  const REVIEW := FlowAction("review", Gate, "reviewer", map[], None)
  const PLAN := FlowAction("artifact", Artifact, "author", map["path" := Str("plan")], None)
  const GO := FlowRoute("go", "done", "end", "owner", None)
  const DRAFT := FlowState("draft", "author", "plan", [], [REVIEW], [], [GO], false)
  const END := FlowState("end", "owner", "report", [], [], [], [], true)
  const EXAMPLE := Flow("flow", "leader", "draft", ["end"], map["draft" := DRAFT, "end" := END], "digest")

  lemma ExampleReachable()
    ensures Reachable(EXAMPLE.states, "draft", "draft") && Reachable(EXAMPLE.states, "draft", "end")
  {
    var states := EXAMPLE.states;
    assert Edge(states, "draft", "end") by {
      assert GO in states["draft"].routes;
    }
    hide Edge;
    var short, long := ["draft"], ["draft", "end"];
    assert Walk(states, short) && Walk(states, long);
    assert short[|short| - 1] == "draft" && long[|long| - 1] == "end";
  }

  lemma DraftAccepted()
    ensures StateAccepted(EXAMPLE.states, DRAFT)
  {
    assert Identifiers(DRAFT) == ["artifact", "review", "go"];
    assert "artifact"[0] == 'a' && "review"[0] == 'r' && "go"[0] == 'g';
    hide Identifiers;
    assert !Ambiguous(DRAFT);
  }

  lemma EndAccepted()
    ensures StateAccepted(EXAMPLE.states, END)
  {
    assert Identifiers(END) == ["artifact"];
    hide Identifiers;
    assert !Ambiguous(END);
  }

  lemma ExampleAccepted()
    ensures AcceptedFlow(EXAMPLE)
  {
    hide Reachable, StateAccepted;
    ExampleReachable();
    DraftAccepted();
    EndAccepted();
  }

  lemma DraftAsks()
    ensures DRAFT.Obligations(map[]) == [PLAN, REVIEW]
    ensures DRAFT.SelectRoute("done", map[]) == Success(GO)
  {
    assert DRAFT.Actions() == [REVIEW];
    assert Applicable([], map[]) == [];
    assert [GO][1..] == [] && Matching([], "done", map[]) == [];
    assert Matching([GO], "done", map[]) == [GO];
  }

  // ---- One work item's way to an open transition ----

  /** An active work item of the author's that no flow knows yet. */
  predicate Untouched(s: System, work: Id) {
    && work in s.works && s.works[work].status == WorkActive && s.works[work].role == "author" && work !in s.runs
    && s.impacts == map[] && forall key | key in s.obligations :: key.work != work
  }

  function ArtifactKey(work: Id): ObligationKey {
    ObligationKey(work, "draft", 1, Artifact, "artifact")
  }

  function GateKey(work: Id): ObligationKey {
    ObligationKey(work, "draft", 1, Gate, "review")
  }

  function Begun(work: Id): Run {
    Run(EXAMPLE, "draft", "author", Active, map[], 1, None, None, None, None, None, None)
  }

  /** The work item's run is in its first state, with only its two obligations. */
  ghost predicate InDraft(s: System, work: Id) {
    && work in s.runs && s.runs[work] == Begun(work) && s.impacts == map[]
    && ArtifactKey(work) in s.obligations && GateKey(work) in s.obligations
    && s.obligations[ArtifactKey(work)].role == "author" && s.obligations[ArtifactKey(work)].payload == PLAN.payload
    && s.obligations[GateKey(work)].role == "reviewer" && s.obligations[GateKey(work)].payload == REVIEW.payload
    && forall key | key in s.obligations && key.work == work :: key in {ArtifactKey(work), GateKey(work)}
  }

  /** Only this work item's rows, and these evidence records, are new. */
  ghost predicate OnlyTouches(s: System, work: Id, ids: set<Id>, s': System) {
    && s'.works == s.works && s'.impacts == s.impacts && s'.handoffs == s.handoffs && s'.items == s.items
    && s'.records.Keys == s.records.Keys + ids
    && work in s'.runs && s'.runs == s.runs[work := s'.runs[work]]
    && forall key | key in s'.obligations :: key in s.obligations || key.work == work
  }

  lemma FreshIn(journal: Journal, operation: Id, request: Request)
    requires forall row | row in journal :: row.operation != operation
    ensures ReplayOf(journal, operation, request) == Fresh
  {
    FreshExact(journal, operation, request);
  }

  lemma CanBegin(s: System, work: Id, operation: Id)
    requires Untouched(s, work) && forall row | row in s.journal :: row.operation != operation
    ensures CanStart(s, work, EXAMPLE, map[], "author", operation)
  {
    hide ReplayOf;
    FreshIn(s.journal, operation, StartRequest(EXAMPLE, map[], "author"));
  }

  lemma Begins(s: System, work: Id, operation: Id) returns (s': System)
    requires Untouched(s, work) && forall row | row in s.journal :: row.operation != operation
    ensures Takes(s, Engine(StartRun(work, EXAMPLE, map[], "author", operation)), s')
    ensures InDraft(s', work) && OnlyTouches(s, work, {}, s') && s'.prepares == s.prepares && s'.records == s.records
    ensures |s'.journal| == |s.journal| + 1 && s'.journal[..|s.journal|] == s.journal
    ensures var row := s'.journal[|s.journal|];
      row.operation == operation && row.work == work && row.request == StartRequest(EXAMPLE, map[], "author")
    ensures s'.obligations[ArtifactKey(work)].status == s'.obligations[GateKey(work)].status == Pending
  {
    hide AcceptedFlow, ReplayOf, MaxSequence, FlowState.Obligations, CanStart;
    CanBegin(s, work, operation);
    ExampleAccepted();
    DraftAsks();
    s' := Started(s, work, EXAMPLE, map[], "author", operation);
    TwoInserted(s.obligations, work);
  }

  lemma TwoInserted(obligations: Obligations, work: Id)
    ensures InsertObligations(obligations, work, "draft", 1, [PLAN, REVIEW])
            == obligations[ArtifactKey(work) := Obligation("author", PLAN.payload, Pending)]
                          [GateKey(work) := Obligation("reviewer", REVIEW.payload, Pending)]
  {
    assert [PLAN, REVIEW][..1] == [PLAN] && [PLAN][..0] == [];
    assert InsertObligations(obligations, work, "draft", 1, []) == obligations;
    assert InsertObligations(obligations, work, "draft", 1, [PLAN])
        == obligations[ArtifactKey(work) := Obligation("author", PLAN.payload, Pending)];
  }

  lemma Verifies(s: System, work: Id, proof: Id) returns (s': System)
    requires InDraft(s, work) && proof !in s.records && s.obligations[ArtifactKey(work)].status == Pending
    ensures Takes(s, Governance(VerifyArtifact(work, "plan", Metadata("plan", "1", 0, false), "author", proof)), s')
    ensures InDraft(s', work) && OnlyTouches(s, work, {proof}, s') && s'.journal == s.journal && s'.prepares == s.prepares
    ensures ArtifactVerified(s', work, Document("plan", "1"))
    ensures s'.obligations == s.obligations[ArtifactKey(work) := s'.obligations[ArtifactKey(work)]]
    ensures Discharged(s'.obligations, s'.records, ArtifactKey(work))
  {
    hide MaterializePath;
    PlanPath(s.project, work);
    s' := VerifiedArtifact(s, work, "plan", Metadata("plan", "1", 0, false), "author", proof);
    assert proof in s'.records;
  }

  lemma PlanPath(project: Id, work: Id)
    ensures MaterializePath("plan", project, work) == "plan"
  {}

  lemma CanApprove(s: System, work: Id, approval: Id)
    requires InDraft(s, work) && approval !in s.records && s.obligations[GateKey(work)].status == Pending
    requires ArtifactVerified(s, work, Document("plan", "1"))
    ensures CanDecide(s, work, "review", Approved, "reviewer", approval, "", map[], None, Document("plan", "1"))
    ensures CurrentKey(s, work, Gate, "review") == GateKey(work)
  {
    hide ArtifactVerified;
  }

  lemma Approves(s: System, work: Id, approval: Id) returns (s': System)
    requires InDraft(s, work) && approval !in s.records && s.obligations[GateKey(work)].status == Pending
    requires ArtifactVerified(s, work, Document("plan", "1")) && Discharged(s.obligations, s.records, ArtifactKey(work))
    ensures CanDecide(s, work, "review", Approved, "reviewer", approval, "", map[], None, Document("plan", "1"))
    ensures s' == Decided(s, work, "review", Approved, "reviewer", approval, "", map[], None, Document("plan", "1"))
    ensures Takes(s, Governance(DecideGate(work, "review", Approved, "reviewer", approval, "", map[], None, Document("plan", "1"))), s')
    ensures InDraft(s', work) && OnlyTouches(s, work, {approval}, s') && s'.journal == s.journal && s'.prepares == s.prepares
    ensures AllDischarged(s', work)
  {
    hide ArtifactVerified, Discharged, CanDecide;
    CanApprove(s, work, approval);
    s' := Decided(s, work, "review", Approved, "reviewer", approval, "", map[], None, Document("plan", "1"));
    DecisionDischarges(s, work, "review", Approved, "reviewer", approval, "", map[], None, Document("plan", "1"));
    DischargedElsewhere(s, s', ArtifactKey(work));
  }

  lemma DischargedElsewhere(s: System, s': System, key: ObligationKey)
    requires Discharged(s.obligations, s.records, key) && key in s'.obligations && s'.obligations[key] == s.obligations[key]
    requires forall id | id in s.records :: id in s'.records && s'.records[id] == s.records[id]
    ensures Discharged(s'.obligations, s'.records, key)
  {
    forall d: Decision | HasRecord(s.records, key, d) ensures HasRecord(s'.records, key, d) {
      var id :| id in s.records && s.records[id].key == key && s.records[id].decision == d;
      assert id in s'.records;
    }
  }

  function ExampleCall(work: Id, operation: Id): PrepareCall {
    PrepareCall(work, "done", map[], 1, "author", operation, "", "", GO, None)
  }

  lemma Opens(s: System, work: Id, c: nat, operation: Id) returns (s': System)
    requires InDraft(s, work) && AllDischarged(s, work) && c !in s.prepares
    requires forall row | row in s.journal :: row.operation != operation
    ensures Takes(s, Engine(OpenTransition(c, ExampleCall(work, operation))), s')
    ensures OnlyTouches(s, work, {}, s') && s'.journal == s.journal && s'.prepares.Keys == s.prepares.Keys + {c}
    ensures s'.runs[work].status == HandoffPreparing && s'.runs[work].pendingOperation == Some(operation)
  {
    hide AllDischarged, FlowState.SelectRoute, ReplayOf;
    DraftAsks();
    FreshIn(s.journal, operation, ExampleCall(work, operation).Digest());
    s' := Opened(s, c, ExampleCall(work, operation));
  }

  /** From an untouched work item to a transition open under this operation, in four steps. */
  lemma Prepares(s: System, work: Id, c: nat, ids: (Id, Id, Id), operation: Id) returns (path: seq<System>, more: seq<Step>)
    requires Untouched(s, work) && c !in s.prepares
    requires ids.1 !in s.records && ids.2 !in s.records && ids.1 != ids.2 && ids.0 != operation
    requires forall row | row in s.journal :: row.operation != ids.0 && row.operation != operation
    ensures Leads(path, more) && |path| == |more| + 1 && path[0] == s
    ensures var last := path[|more|];
      && OnlyTouches(s, work, {ids.1, ids.2}, last) && last.prepares.Keys == s.prepares.Keys + {c}
      && last.runs[work].status == HandoffPreparing && last.runs[work].pendingOperation == Some(operation)
      && |last.journal| == |s.journal| + 1 && last.journal[..|s.journal|] == s.journal && last.journal[|s.journal|].operation == ids.0
  {
    hide Takes, Untouched, InDraft, ArtifactVerified, Discharged, AllDischarged, OnlyTouches, CanDecide, Decided;
    var s1 := Begins(s, work, ids.0);
    assert s.records.Keys == s1.records.Keys;
    var s2 := Verifies(s1, work, ids.1);
    GateStillPending(s1, work, ids.1, s2);
    var s3 := Approves(s2, work, ids.2);
    var s4 := Opens(s3, work, c, operation);
    TouchesAll(s, s1, s2, s3, s4, work, ids);
    path := [s, s1, s2, s3, s4];
    more := [Engine(StartRun(work, EXAMPLE, map[], "author", ids.0)),
             Governance(VerifyArtifact(work, "plan", Metadata("plan", "1", 0, false), "author", ids.1)),
             Governance(DecideGate(work, "review", Approved, "reviewer", ids.2, "", map[], None, Document("plan", "1"))),
             Engine(OpenTransition(c, ExampleCall(work, operation)))];
    FourSteps(path, more);
  }

  lemma GateStillPending(s: System, work: Id, proof: Id, s': System)
    requires InDraft(s, work) && ArtifactKey(work) in s'.obligations && s.obligations[GateKey(work)].status == Pending
    requires s'.obligations == s.obligations[ArtifactKey(work) := s'.obligations[ArtifactKey(work)]]
    requires OnlyTouches(s, work, {proof}, s')
    ensures GateKey(work) in s'.obligations && s'.obligations[GateKey(work)].status == Pending
    ensures s'.records.Keys == s.records.Keys + {proof}
  {}

  lemma TouchesAll(s: System, s1: System, s2: System, s3: System, s4: System, work: Id, ids: (Id, Id, Id))
    requires OnlyTouches(s, work, {}, s1) && OnlyTouches(s1, work, {ids.1}, s2)
    requires OnlyTouches(s2, work, {ids.2}, s3) && OnlyTouches(s3, work, {}, s4)
    ensures OnlyTouches(s, work, {ids.1, ids.2}, s4)
  {
    hide OnlyTouches;
    TouchesThen(s, s1, s2, work, {}, {ids.1});
    TouchesThen(s, s2, s3, work, {} + {ids.1}, {ids.2});
    TouchesThen(s, s3, s4, work, {} + {ids.1} + {ids.2}, {});
    assert {} + {ids.1} + {ids.2} + {} == {ids.1, ids.2};
  }

  lemma TouchesThen(s: System, s1: System, s2: System, work: Id, ids: set<Id>, more: set<Id>)
    requires OnlyTouches(s, work, ids, s1) && OnlyTouches(s1, work, more, s2)
    ensures OnlyTouches(s, work, ids + more, s2)
  {
    assert s2.runs == s.runs[work := s2.runs[work]];
  }

  // ---- The runs ----

  const WORK := Work(WorkActive, "author", 1, "", map[])

  /** Two active work items of the author's, and nothing else. */
  const NOTHING := System("project", map["a" := WORK, "b" := WORK], map[], map[], map[], map[], [], map[], map[], map[], map[], {}, 0,
                          map[], map[], map[])

  lemma NothingIsInitial()
    ensures Initial(NOTHING) && Untouched(NOTHING, "a") && Untouched(NOTHING, "b")
  {}

  lemma RunOf1(s: System, s1: System, a: Step)
    requires Initial(s) && Takes(s, a, s1)
    ensures IsRun([s, s1], [a])
  {
    hide Takes, Initial;
  }

  /** A start that asks for one work item is answered with another, which its operation id started before; under any other
      operation id it would have started. */
  lemma ReplayedStartAnswersAnother() returns (trace: seq<System>, steps: seq<Step>)
    ensures IsRun(trace, steps) && |steps| == 1 && steps[0] == Engine(StartRun("a", EXAMPLE, map[], "author", "op"))
    ensures StartAnswer(trace[1], "b", EXAMPLE, map[], "author", "op") == Some("a")
    ensures forall other | other != "op" :: StartAnswer(trace[1], "b", EXAMPLE, map[], "author", other) == Some("b")
  {
    hide Takes, Initial, CanStart, InDraft;
    NothingIsInitial();
    var s1 := Begins(NOTHING, "a", "op");
    trace, steps := [NOTHING, s1], [Engine(StartRun("a", EXAMPLE, map[], "author", "op"))];
    RunOf1(NOTHING, s1, steps[0]);
    hide IsRun;
    var row := s1.journal[0];
    assert s1.journal == [row];
    StillUntouched(NOTHING, "a", {}, s1, "b");
    forall other | other != "op" ensures StartAnswer(s1, "b", EXAMPLE, map[], "author", other) == Some("b") {
      FreshIn(s1.journal, other, StartRequest(EXAMPLE, map[], "author"));
      CanBegin(s1, "b", other);
    }
    assert FindOperation([row], "op") == Some(row);
  }

  lemma StillUntouched(s: System, work: Id, ids: set<Id>, s': System, other: Id)
    requires Untouched(s, other) && OnlyTouches(s, work, ids, s') && other != work
    ensures Untouched(s', other)
  {}

  /** A gate approved, and then on record as rejected too, without any effect. */
  lemma RejectionAfterApprovalArises() returns (trace: seq<System>, steps: seq<Step>)
    ensures IsRun(trace, steps) && |steps| == 4
    ensures steps[2].Governance? && steps[2].governance.DecideGate? && steps[2].governance.decision == Approved
    ensures steps[3].Governance? && steps[3].governance.DecideGate? && steps[3].governance.decision == Rejected
    ensures HasRecord(trace[4].records, GateKey("a"), Approved) && HasRecord(trace[4].records, GateKey("a"), Rejected)
    ensures Discharged(trace[4].obligations, trace[4].records, GateKey("a"))
  {
    hide Takes, Initial, Untouched, InDraft, ArtifactVerified, Discharged, AllDischarged, OnlyTouches, CanDecide, Decided, HasRecord;
    NothingIsInitial();
    var s1 := Begins(NOTHING, "a", "op");
    var s2 := Verifies(s1, "a", "1");
    GateStillPending(s1, "a", "1", s2);
    assert "2" !in s2.records && "3" !in s2.records;
    CanApprove(s2, "a", "2");
    var s3 := Approves(s2, "a", "2");
    ApprovedGateTakesRejection(s2, "a", "review", "reviewer", "2", "", map[], None, Document("plan", "1"), "3", "");
    var s4 := Rejects(s3, "a", "3");
    trace := [NOTHING, s1, s2, s3, s4];
    steps := [Engine(StartRun("a", EXAMPLE, map[], "author", "op")),
              Governance(VerifyArtifact("a", "plan", Metadata("plan", "1", 0, false), "author", "1")),
              Governance(DecideGate("a", "review", Approved, "reviewer", "2", "", map[], None, Document("plan", "1"))),
              Governance(DecideGate("a", "review", Rejected, "reviewer", "3", "", map[], None, Document("plan", "1")))];
    FourSteps(trace, steps);
    LeadsFromNothing(trace, steps);
  }

  lemma Rejects(s: System, work: Id, rejection: Id) returns (s': System)
    requires CanDecide(s, work, "review", Rejected, "reviewer", rejection, "", map[], None, Document("plan", "1"))
    ensures s' == Decided(s, work, "review", Rejected, "reviewer", rejection, "", map[], None, Document("plan", "1"))
    ensures Takes(s, Governance(DecideGate(work, "review", Rejected, "reviewer", rejection, "", map[], None, Document("plan", "1"))), s')
  {
    hide CanDecide, Decided;
    s' := Decided(s, work, "review", Rejected, "reviewer", rejection, "", map[], None, Document("plan", "1"));
  }

  lemma LeadsFromNothing(trace: seq<System>, steps: seq<Step>)
    requires Leads(trace, steps) && Initial(trace[0])
    ensures IsRun(trace, steps)
  {
    hide Takes, Initial;
  }

  /** Two work items have transitions open under one operation id. */
  ghost predicate BothOpen(s: System) {
    && s.handoffs == map[] && s.items == map[] && "a" in s.works && "a" in s.runs && "b" in s.runs
    && s.runs["a"].status == s.runs["b"].status == HandoffPreparing
    && s.runs["a"].pendingOperation == s.runs["b"].pendingOperation == Some("op") && Unused(s.journal, s.runs["a"])
  }

  lemma BothOpened() returns (trace: seq<System>, steps: seq<Step>)
    ensures IsRun(trace, steps) && |trace| == |steps| + 1 && BothOpen(trace[|steps|])
  {
    hide Takes, Initial, Untouched, OnlyTouches, Leads, IsRun;
    NothingIsInitial();
    var path, more := Prepares(NOTHING, "a", 0, ("1", "2", "3"), "op");
    var s1 := path[|more|];
    FirstDone(s1);
    var path2, more2 := Prepares(s1, "b", 1, ("4", "5", "6"), "op");
    SecondDone(s1, path2[|more2|]);
    trace, steps := Appended(path, more, path2, more2);
    LeadsFromNothing(trace, steps);
  }

  /** One of them is committed, and the other can then never be. */
  lemma ReusedOperationArises() returns (trace: seq<System>, steps: seq<Step>)
    ensures IsRun(trace, steps) && |trace| == |steps| + 1
    ensures var last := trace[|steps|];
      && "a" in last.runs && last.runs["a"].status == HandoffPending
      && "b" in last.runs && last.runs["b"].status == HandoffPreparing && last.runs["b"].pendingOperation == Some("op")
      && !Unused(last.journal, last.runs["b"]) && !CanMove(last, "b")
  {
    hide Takes, Initial, Leads, IsRun, BothOpen, CanMove, Finishes, Unused;
    trace, steps := BothOpened();
    var s := trace[|steps|];
    var path, more := FirstCommits(trace, steps);
    RunLeads(trace, steps);
    trace, steps := Appended(trace, steps, path, more);
    LeadsFromNothing(trace, steps);
    SecondStuck(s, trace, steps);
  }

  lemma RunLeads(trace: seq<System>, steps: seq<Step>)
    requires IsRun(trace, steps)
    ensures Leads(trace, steps) && Initial(trace[0])
  {
    hide Takes, Initial;
  }

  lemma FirstDone(s1: System)
    requires OnlyTouches(NOTHING, "a", {"2", "3"}, s1) && s1.prepares.Keys == {0}
    requires |s1.journal| == 1 && s1.journal[0].operation == "1"
    ensures Untouched(s1, "b") && 1 !in s1.prepares && "5" !in s1.records && "6" !in s1.records
    ensures forall row | row in s1.journal :: row.operation == "1"
  {
    NothingIsInitial();
    StillUntouched(NOTHING, "a", {"2", "3"}, s1, "b");
  }

  lemma SecondDone(s1: System, s2: System)
    requires OnlyTouches(NOTHING, "a", {"2", "3"}, s1) && OnlyTouches(s1, "b", {"5", "6"}, s2)
    requires |s1.journal| == 1 && s1.journal[0].operation == "1"
    requires |s2.journal| == 2 && s2.journal[..1] == s1.journal && s2.journal[1].operation == "4"
    ensures s2.handoffs == map[] && s2.items == map[] && s2.works == NOTHING.works
    ensures "a" in s2.runs && "b" in s2.runs && "a" in s1.runs && s2.runs["a"] == s1.runs["a"]
    ensures forall row | row in s2.journal :: row.operation == "1" || row.operation == "4"
  {
    assert s2.journal[0] == s2.journal[..1][0];
  }

  lemma FirstCommits(trace: seq<System>, steps: seq<Step>) returns (path: seq<System>, more: seq<Step>)
    requires IsRun(trace, steps) && |trace| == |steps| + 1
    requires BothOpen(trace[|steps|])
    ensures Leads(path, more) && path[0] == trace[|steps|] && Finishes(trace[|steps|], "a", path[|more|])
  {
    hide IsRun, Inv, SourcesOk, CallsMatch, RouteOpen, PendingOffer, Leads, Finishes, Unused;
    AlwaysInv(trace, steps, |steps|);
    AlwaysSources(trace, steps, |steps|);
    var s := trace[|steps|];
    var route := TransitionOf(s, "a");
    RouteNames(s.runs["a"], "a", route);
    path, more := TransitionFinishes(s, "a");
  }

  lemma SecondStuck(s: System, trace: seq<System>, steps: seq<Step>)
    requires IsRun(trace, steps) && |trace| == |steps| + 1 && BothOpen(s) && Finishes(s, "a", trace[|steps|])
    ensures var last := trace[|steps|];
      && "a" in last.runs && last.runs["a"].status == HandoffPending
      && "b" in last.runs && last.runs["b"].status == HandoffPreparing && last.runs["b"].pendingOperation == Some("op")
      && !Unused(last.journal, last.runs["b"]) && !CanMove(last, "b")
  {
    hide IsRun, CanMove, PendingOffer, Offerable;
    TransitionCanCommitExactly(trace, steps, |steps|, "b");
  }
}
