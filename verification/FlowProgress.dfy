/** Which open transitions and completions can still be finished, and which are stuck for good. */
module FlowProgress {
  import opened Wrappers
  import opened Json
  import opened FlowDefinition
  import opened FlowTables
  import opened FlowInvariants
  import opened FlowSteps
  import opened FlowRuns
  import opened FlowJournal
  import opened FlowSafety
  import opened FlowTheorems
  import opened FlowOffers

  // ---- Steps on from a state ----

  ghost predicate Leads(path: seq<System>, more: seq<Step>) {
    |path| == |more| + 1 && forall i | 0 <= i < |more| :: Takes(path[i], more[i], path[i + 1])
  }

  ghost predicate LeadsToMove(s: System, w: Id, path: seq<System>, more: seq<Step>)
    requires w in s.runs
  {
    Leads(path, more) && path[0] == s && w in path[|more|].runs && path[|more|].runs[w] != s.runs[w]
  }

  /** Some steps from here change the run. */
  ghost predicate CanMove(s: System, w: Id)
    requires w in s.runs
  {
    exists path, more :: LeadsToMove(s, w, path, more)
  }

  lemma Joined(trace: seq<System>, steps: seq<Step>, n: nat, path: seq<System>, more: seq<Step>)
    requires IsRun(trace, steps) && n < |trace| && Leads(path, more) && path[0] == trace[n]
    ensures IsRun(trace[..n] + path, steps[..n] + more)
  {
    hide Takes, Initial;
    var trace', steps' := trace[..n] + path, steps[..n] + more;
    forall i | 0 <= i < |steps'| ensures Takes(trace'[i], steps'[i], trace'[i + 1]) {
      if i < n {
        assert Takes(trace[i], steps[i], trace[i + 1]);
      } else {
        assert Takes(path[i - n], more[i - n], path[i - n + 1]);
      }
    }
    assert trace'[0] == trace[0];
  }

  lemma Extended(path: seq<System>, more: seq<Step>, step: Step, s': System) returns (path': seq<System>, more': seq<Step>)
    requires Leads(path, more) && Takes(path[|more|], step, s')
    ensures Leads(path', more') && path'[0] == path[0] && path'[|more'|] == s'
    ensures path' == path + [s'] && more' == more + [step]
  {
    hide Takes;
    path', more' := path + [s'], more + [step];
    forall i | 0 <= i < |more'| ensures Takes(path'[i], more'[i], path'[i + 1]) {
      if i < |more| {
        assert Takes(path[i], more[i], path[i + 1]);
      }
    }
  }

  lemma {:induction false} FreshNumber(taken: set<nat>) returns (n: nat)
    ensures forall x | x in taken :: x < n
    decreases taken
  {
    if taken == {} {
      n := 0;
    } else {
      var x :| x in taken;
      assert taken == (taken - {x}) + {x};
      n := FreshNumber(taken - {x});
      n := if x < n then n else x + 1;
    }
  }

  lemma {:induction false} FreshText(taken: set<Id>) returns (text: Id)
    ensures forall x | x in taken :: |x| < |text|
    decreases taken
  {
    if taken == {} {
      text := "";
    } else {
      var x :| x in taken;
      assert taken == (taken - {x}) + {x};
      text := FreshText(taken - {x});
      text := if |x| < |text| then text else x + "-";
    }
  }

  /** No journal row carries the operation the run is pending under. */
  predicate Unused(journal: Journal, run: Run) {
    forall row | row in journal :: Some(row.operation) != run.pendingOperation
  }

  // ---- Completions ----

  /** The kernel work item is, or can still be, completed with this evidence. */
  predicate Completable(work: Work, evidence: Fields) {
    work.status != Error && (work.status == WorkCompleted ==> Finished(work, evidence))
  }

  function PendingEvidence(run: Run): Fields {
    if run.pendingRequest.Some? && run.pendingRequest.value.CompleteRequest? then run.pendingRequest.value.evidence else map[]
  }

  lemma EngineKeepsEnded(s: System, step: EngineStep, s': System, w: Id)
    requires EngineTakes(s, step, s') && w in s.works && s.works[w].status in {Error, WorkCompleted}
    ensures w in s'.works && s'.works[w] == s.works[w]
  {
    hide AcceptedFlow, CanStart, CanDispatch, CanOpen, CanResume, CanCommit, CanOpenCompletion, CanResumeCompletion, CanRead,
      CanCommitCompletion, CanOffer, TransitionKey, OfferMade, InsertObligations, Append, ReplayOf;
    match step
    case OfferTransition(c, at, later) => OfferKeepsTables(s, TransitionOffer(s.prepares[c]), at, later);
    case _ =>
  }

  lemma GovernanceKeepsEnded(s: System, step: GovernanceStep, s': System, w: Id)
    requires GovernanceTakes(s, step, s') && w in s.works && s.works[w].status in {Error, WorkCompleted}
    ensures w in s'.works && s'.works[w] == s.works[w]
  {
    hide CanVerify, CanConsult, CanDecide, ArtifactVerified;
  }

  /** A work item that failed or completed stays as it is. */
  lemma EndedWorkStays(s: System, step: Step, s': System, w: Id)
    requires Takes(s, step, s') && w in s.works && s.works[w].status in {Error, WorkCompleted}
    ensures w in s'.works && s'.works[w] == s.works[w]
  {
    hide EngineTakes, GovernanceTakes, HandoffTakes;
    match step
    case Engine(e) => EngineKeepsEnded(s, e, s', w);
    case Governance(g) => GovernanceKeepsEnded(s, g, s', w);
    case Handoffs(h) => HandoffKeepsRuns(s, h, s');
    case Elsewhere =>
  }

  lemma CompletedWasCompletable(s: System, c: nat)
    requires Inv(s) && CanCommitCompletion(s, c)
    ensures s.completions[c].work in s.works
    ensures Completable(s.works[s.completions[c].work], PendingEvidence(s.runs[s.completions[c].work]))
  {
    hide FlowsOk, RunsOk, PendingOk, ObligationsOk, RecordsOk, PreparesOk, WorksOk, RowHandoffsOk, HandoffsOk, ReplayOf,
      Journalled, CompletionOpen;
    assert SeenOk(s.works, s.completions[c]);
  }

  /** A run whose work item failed, or was completed otherwise, while it was completing never changes again. */
  lemma {:induction false} EndedWorkBlocks(trace: seq<System>, steps: seq<Step>, i: nat, j: nat, w: Id)
    requires IsRun(trace, steps) && i <= j < |trace| && w in trace[i].runs && trace[i].runs[w].status == CompletionPreparing
    requires w in trace[i].works && !Completable(trace[i].works[w], PendingEvidence(trace[i].runs[w]))
    ensures w in trace[j].runs && trace[j].runs[w] == trace[i].runs[w] && w in trace[j].works && trace[j].works[w] == trace[i].works[w]
    decreases j
  {
    hide Inv, Takes, RunMoves, Finished, PendingEvidence, CanCommitCompletion;
    if i < j {
      EndedWorkBlocks(trace, steps, i, j - 1, w);
      AlwaysInv(trace, steps, j - 1);
      StatesNamed(trace[j - 1], w);
      StepMoves(trace[j - 1], steps[j - 1], trace[j], w);
      EndedWorkStays(trace[j - 1], steps[j - 1], trace[j], w);
      if trace[j].runs[w] != trace[i].runs[w] {
        CompletionMoved(trace[j - 1], steps[j - 1].engine, trace[j], w);
        CompletedWasCompletable(trace[j - 1], steps[j - 1].engine.c);
      }
    }
  }

  lemma CompletionMoved(s: System, step: EngineStep, s': System, w: Id)
    requires w in s.runs && s.runs[w].status == CompletionPreparing && RunMoves(s, step, s', w)
    requires Inv(s)
    ensures step.CommitCompletion? && step.c in s.completions && s.completions[step.c].work == w && CanCommitCompletion(s, step.c)
  {
    hide Inv, ReplayOf, Finished, RunOk, CanPickup;
    if step.CommitTransition? {
      RunOf(s, w);
      CompletionNames(s, w);
      assert false;
    }
    if step.PickupTransition? {
      PickupIsPending(s, w, step.expected, step.actor, step.operation);
    }
  }

  lemma PickupIsPending(s: System, w: Id, expected: nat, actor: Id, operation: Id)
    requires CanPickup(s, w, expected, actor, operation)
    ensures s.runs[w].status == HandoffPending
  {}

  lemma CompletionNames(s: System, w: Id)
    requires w in s.runs && RunOk(s.runs[w], w, History(s.journal, w)) && s.runs[w].status == CompletionPreparing
    ensures var run := s.runs[w];
      && run.pendingOperation.Some? && run.pendingRequest.Some? && run.pendingRequest.value.CompleteRequest?
      && run.pendingRequest.value.work == w && run.pendingRequest.value.expected == run.version
      && run.pendingRequest.value.evidence != map[]
  {
    hide HistoryOk, StateAfter, History;
  }

  // The steps that finish a completion.

  lemma TakesResumeCompletion(s: System, c: nat, call: CompleteCall)
    requires c !in s.completions && CanResumeCompletion(s, call)
    ensures Takes(s, Engine(ResumeCompletion(c, call)), CompletionResumed(s, c, call))
  {
    hide CanResumeCompletion;
  }

  lemma TakesRead(s: System, c: nat)
    requires CanRead(s, c)
    ensures Takes(s, Engine(ReadWork(c)), WorkRead(s, c))
  {}

  lemma TakesTry(s: System, c: nat)
    requires CanTry(s, c)
    ensures Takes(s, Engine(TryWork(c, false)), CompletionTried(s, c, false))
  {}

  lemma TakesCommitCompletion(s: System, c: nat)
    requires CanCommitCompletion(s, c)
    ensures Takes(s, Engine(CommitCompletion(c)), CompletionCommitted(s, c))
  {
    hide CanCommitCompletion, CompletionCommitted;
  }

  lemma TakesElsewhere(s: System, s': System)
    requires Environment(s, s')
    ensures Takes(s, Elsewhere, s')
  {}

  /** The lifecycle store makes a new or gated work item active. */
  lemma WorkWoken(s: System, w: Id) returns (s': System)
    requires w in s.works && s.works[w].status != Error
    ensures Takes(s, Elsewhere, s') && s' == s.(works := s'.works) && w in s'.works
    ensures s'.works[w] == if s.works[w].status == WorkCompleted then s.works[w] else s.works[w].(status := WorkActive)
  {
    s' := s.(works := s.works[w := if s.works[w].status == WorkCompleted then s.works[w] else s.works[w].(status := WorkActive)]);
    TakesElsewhere(s, s');
  }

  /** An attempt that finds the work item active, and nothing in the way, completes it. */
  lemma WorkCompletes(s: System, c: nat) returns (s': System, path: seq<System>, more: seq<Step>)
    requires c in s.completions && s.completions[c].stage.Read? && s.completions[c].work in s.works
    requires s.works[s.completions[c].work] == s.completions[c].stage.seen && s.completions[c].stage.seen.status == WorkActive
    ensures Leads(path, more) && path[0] == s && path[|more|] == s'
    ensures c in s'.completions && s'.completions[c].stage.Reread?
    ensures s' == s.(works := s'.works, completions := s.completions[c := s'.completions[c]])
    ensures s'.completions[c] == s.completions[c].(stage := s'.completions[c].stage)
    ensures Finished(s'.completions[c].stage.seen, s.completions[c].evidence)
  {
    TakesTry(s, c);
    var s1 := CompletionTried(s, c, false);
    TakesRead(s1, c);
    s' := WorkRead(s1, c);
    hide Takes, CompletionTried, WorkRead, Finished;
    path, more := Extended([s], [], Engine(TryWork(c, false)), s1);
    path, more := Extended(path, more, Engine(ReadWork(c)), s');
  }

  /** A call that takes an open completion up again, under an operation still unused, finishes it. */
  lemma CompletionFinishes(s: System, w: Id) returns (path: seq<System>, more: seq<Step>)
    requires Inv(s) && w in s.runs && s.runs[w].status == CompletionPreparing && w in s.works
    requires Unused(s.journal, s.runs[w]) && Completable(s.works[w], PendingEvidence(s.runs[w]))
    ensures LeadsToMove(s, w, path, more)
  {
    hide Inv, Takes, RunOk, Finished, CanCommitCompletion, CompletionCommitted, ReplayOf, LeadsToMove, Leads;
    RunOf(s, w);
    CompletionNames(s, w);
    var run := s.runs[w];
    var request := run.pendingRequest.value;
    var c := FreshNumber(s.completions.Keys);
    var call := CompleteCall(w, run.version, request.actor, run.pendingOperation.value, request.evidence, Began);
    FreshExact(s.journal, call.operation, call.Digest());
    var s1 := WorkWoken(s, w);
    LeadsNowhere(s);
    path, more := Extended([s], [], Elsewhere, s1);
    TakesResumeCompletion(s1, c, call);
    var s2 := CompletionResumed(s1, c, call);
    path, more := Extended(path, more, Engine(ResumeCompletion(c, call)), s2);
    TakesRead(s2, c);
    var s3 := WorkRead(s2, c);
    path, more := Extended(path, more, Engine(ReadWork(c)), s3);
    var s4 := s3;
    if s1.works[w].status == WorkActive {
      var rest, others;
      s4, rest, others := WorkCompletes(s3, c);
      path, more := Appended(path, more, rest, others);
    }
    CommitsCompletion(s4, c);
    path, more := Extended(path, more, Engine(CommitCompletion(c)), CompletionCommitted(s4, c));
    MovesRun(s, w, path, more);
  }

  lemma LeadsNowhere(s: System)
    ensures Leads([s], [])
  {}

  lemma MovesRun(s: System, w: Id, path: seq<System>, more: seq<Step>)
    requires w in s.runs && Leads(path, more) && path[0] == s && w in path[|more|].runs && path[|more|].runs[w] != s.runs[w]
    ensures LeadsToMove(s, w, path, more)
  {
    hide Leads;
  }

  lemma Appended(path: seq<System>, more: seq<Step>, rest: seq<System>, others: seq<Step>)
    returns (path': seq<System>, more': seq<Step>)
    requires Leads(path, more) && Leads(rest, others) && path[|more|] == rest[0]
    ensures Leads(path', more') && |path'| == |more'| + 1 && path'[0] == path[0] && path'[|more'|] == rest[|others|]
  {
    hide Takes;
    path', more' := path + rest[1..], more + others;
    forall i | 0 <= i < |more'| ensures Takes(path'[i], more'[i], path'[i + 1]) {
      if i < |more| {
        assert Takes(path[i], more[i], path[i + 1]);
      } else {
        assert Takes(rest[i - |more|], others[i - |more|], rest[i - |more| + 1]);
      }
    }
  }

  lemma CommitsCompletion(s: System, c: nat)
    requires c in s.completions && s.completions[c].work in s.runs
    requires var call := s.completions[c];
      && (call.stage.Reread? || (call.stage.Read? && call.stage.seen.status != WorkActive))
      && Finished(call.stage.seen, call.evidence)
      && ReplayOf(s.journal, call.operation, call.Digest()) == Fresh
      && SamePending(s.runs[call.work], call.operation, call.Digest())
    ensures CanCommitCompletion(s, c) && Takes(s, Engine(CommitCompletion(c)), CompletionCommitted(s, c))
    ensures s.completions[c].work in CompletionCommitted(s, c).runs
    ensures CompletionCommitted(s, c).runs[s.completions[c].work].status == Completed
  {
    TakesCommitCompletion(s, c);
    hide Takes, ReplayOf, Append;
  }

  /** A run that is completing can still be completed exactly when no row carries its operation and its work item has
      neither failed nor been completed otherwise. */
  lemma CompletionCanFinishExactly(trace: seq<System>, steps: seq<Step>, n: nat, w: Id)
    requires IsRun(trace, steps) && n < |trace| && w in trace[n].runs && trace[n].runs[w].status == CompletionPreparing
    ensures w in trace[n].works
    ensures CanMove(trace[n], w) <==>
              Unused(trace[n].journal, trace[n].runs[w]) && Completable(trace[n].works[w], PendingEvidence(trace[n].runs[w]))
  {
    hide IsRun, Inv, Completable, PendingEvidence, LeadsToMove;
    AlwaysInv(trace, steps, n);
    WorkOf(trace[n], w);
    if Unused(trace[n].journal, trace[n].runs[w]) && Completable(trace[n].works[w], PendingEvidence(trace[n].runs[w])) {
      var path, more := CompletionFinishes(trace[n], w);
    }
    forall path, more | LeadsToMove(trace[n], w, path, more)
      ensures Unused(trace[n].journal, trace[n].runs[w]) && Completable(trace[n].works[w], PendingEvidence(trace[n].runs[w]))
    {
      var trace', steps', last := JoinedMove(trace, steps, n, w, path, more);
      if !Unused(trace[n].journal, trace[n].runs[w]) {
        var row :| row in trace[n].journal && Some(row.operation) == trace[n].runs[w].pendingOperation;
        ReusedOperationBlocks(trace', steps', n, last, w, row);
      }
      if !Completable(trace[n].works[w], PendingEvidence(trace[n].runs[w])) {
        EndedWorkBlocks(trace', steps', n, last, w);
      }
    }
  }

  lemma JoinedMove(trace: seq<System>, steps: seq<Step>, n: nat, w: Id, path: seq<System>, more: seq<Step>)
    returns (trace': seq<System>, steps': seq<Step>, last: nat)
    requires IsRun(trace, steps) && n < |trace| && w in trace[n].runs && LeadsToMove(trace[n], w, path, more)
    ensures IsRun(trace', steps') && n <= last < |trace'| && trace'[n] == trace[n]
    ensures w in trace'[last].runs && trace'[last].runs[w] != trace[n].runs[w]
  {
    Joined(trace, steps, n, path, more);
    hide Takes, Initial;
    trace', steps', last := trace[..n] + path, steps[..n] + more, n + |more|;
  }

  // ---- Transitions ----

  /** The offer that any call resuming the run's open transition makes, but for its lease. */
  function PendingOffer(run: Run, w: Id): HandoffOffer
    requires run.pendingRoute.Some? && run.pendingTarget.Some? && run.pendingRole.Some?
  {
    HandoffOffer("", "", run.pendingRole.value, TransitionKey(w, run.version, run.pendingRoute.value),
                 "Flow transition to " + run.pendingTarget.value,
                 TransitionPayload(run.pendingTarget.value, run.pendingRoute.value), None, 0)
  }

  lemma RouteNames(run: Run, w: Id, route: FlowRoute)
    requires RouteOpen(run, w, route)
    ensures run.pendingRoute == Some(route.routeId) && run.pendingTarget == Some(route.targetState)
    ensures run.pendingRole == Some(route.targetRole) && run.pendingOperation.Some?
    ensures run.pendingRequest.Some? && run.pendingRequest.value.PrepareRequest?
    ensures run.pendingRequest.value.work == w && run.pendingRequest.value.expected == run.version
    ensures run.currentState in run.flow.states
    ensures run.State().SelectRoute(run.pendingRequest.value.outcome, run.fields) == Success(route)
  {
    hide FlowState.SelectRoute;
  }

  lemma OfferOfCall(run: Run, w: Id, call: PrepareCall)
    requires RouteOpen(run, w, call.route) && call.work == w && call.expected == run.version
    ensures run.pendingRoute.Some? && run.pendingTarget.Some? && run.pendingRole.Some?
    ensures SameOffer(TransitionOffer(call), PendingOffer(run, w))
  {
    hide RouteOpen, TransitionKey, TransitionPayload;
    RouteNames(run, w, call.route);
  }

  lemma CarriesAlike(f: Fingerprint, d: HandoffOffer, e: HandoffOffer)
    requires SameOffer(d, e)
    ensures Carries(f, d) <==> Carries(f, e)
  {}

  lemma CommittedWasOfferable(s: System, c: nat)
    requires Inv(s) && CallsMatch(s) && CanCommit(s, c)
    ensures var run := s.runs[s.prepares[c].work];
      && run.pendingRoute.Some? && run.pendingTarget.Some? && run.pendingRole.Some?
      && Offerable(s, PendingOffer(run, s.prepares[c].work))
  {
    hide Inv, RouteOpen, TransitionOffer, PendingOffer, ReplayOf, SameOffer, Carries;
    var call := s.prepares[c];
    var run := s.runs[call.work];
    FreshCallIsOpen(s, c);
    RouteNames(run, call.work, call.route);
    OfferOfCall(run, call.work, call);
    assert CallMatches(s, call);
    CarriesAlike(s.handoffs[TransitionOffer(call).key].fingerprint, TransitionOffer(call), PendingOffer(run, call.work));
    SameKey(TransitionOffer(call), PendingOffer(run, call.work));
  }

  lemma SameKey(d: HandoffOffer, e: HandoffOffer)
    requires SameOffer(d, e)
    ensures d.key == e.key
  {}

  lemma TransitionOf(s: System, w: Id) returns (route: FlowRoute)
    requires Inv(s) && w in s.runs && s.runs[w].status == HandoffPreparing
    ensures RouteOpen(s.runs[w], w, route)
  {
    hide Inv, RunOk, RouteOpen;
    RunOf(s, w);
    route := OpenRouteOf(s.runs[w], w, History(s.journal, w));
  }

  lemma HandoffsOf(s: System)
    requires Inv(s)
    ensures HandoffsOk(s.handoffs, s.items, s.now)
  {
    hide FlowsOk, RunsOk, PendingOk, ObligationsOk, RecordsOk, PreparesOk, CompletionsOk, WorksOk, RowHandoffsOk, HandoffsOk;
  }

  lemma TransitionMoved(s: System, step: EngineStep, s': System, w: Id)
    requires Inv(s) && w in s.runs && s.runs[w].status == HandoffPreparing && RunMoves(s, step, s', w)
    ensures step.CommitTransition? && step.c in s.prepares && s.prepares[step.c].work == w && CanCommit(s, step.c)
  {
    hide Inv, ReplayOf, Finished, RouteOpen, CanPickup;
    var route := TransitionOf(s, w);
    RouteNames(s.runs[w], w, route);
    if step.PickupTransition? {
      PickupIsPending(s, w, step.expected, step.actor, step.operation);
    }
  }

  /** A run whose transition's handoff cannot be offered never changes again. */
  lemma {:induction false} UnofferableBlocks(trace: seq<System>, steps: seq<Step>, i: nat, j: nat, w: Id, d: HandoffOffer)
    requires IsRun(trace, steps) && i <= j < |trace| && w in trace[i].runs && trace[i].runs[w].status == HandoffPreparing
    requires var run := trace[i].runs[w];
      && run.pendingRoute.Some? && run.pendingTarget.Some? && run.pendingRole.Some?
      && d == PendingOffer(run, w) && !Offerable(trace[i], d)
    ensures w in trace[j].runs && trace[j].runs[w] == trace[i].runs[w] && !Offerable(trace[j], d)
    decreases j
  {
    hide Inv, Takes, RunMoves, PendingOffer, Offerable, CanCommit, StoresGrow, NewHandoffsMade, SourcesOk, CallsMatch;
    if i < j {
      UnofferableBlocks(trace, steps, i, j - 1, w, d);
      AlwaysInv(trace, steps, j - 1);
      AlwaysSources(trace, steps, j - 1);
      StatesNamed(trace[j - 1], w);
      StepMoves(trace[j - 1], steps[j - 1], trace[j], w);
      StepGrows(trace[j - 1], steps[j - 1], trace[j]);
      HandoffsOf(trace[j - 1]);
      if Offerable(trace[j], d) {
        OfferableBefore(trace[j - 1], trace[j], d);
      }
      if trace[j].runs[w] != trace[i].runs[w] {
        TransitionMoved(trace[j - 1], steps[j - 1].engine, trace[j], w);
        CommittedWasOfferable(trace[j - 1], steps[j - 1].engine.c);
      }
    }
  }

  // The steps that finish a transition.

  /** Some instance comes to hold a live lease from which the offer can be made. */
  lemma SourceMade(s: System, d: HandoffOffer, work: Id, role: Id, instance: Id) returns (s': System, lease: Id)
    requires d.key !in s.handoffs && (instance in s.instances ==> s.instances[instance].role == role)
    requires if d.key in s.items then
               && s.items[d.key].createdAt == s.now
               && s.items[d.key].draft == RouteDraft(work, d.targetRole, d.capability,
                                                     HandoffPayload(d.key, role, instance, d.summary, d.payload), d.priority)
             else work in s.works
    ensures Environment(s, s') && s'.works == s.works && s'.now == s.now
    ensures CanOffer(s', d.(lease := lease, token := ""), s'.now, s'.now)
  {
    hide HandoffPayload;
    lease := FreshText(s.leases.Keys);
    var source := FreshText(s.items.Keys + {d.key});
    var item := Item(RouteDraft(work, role, None, Null, 0), Leased, s.now);
    s' := s.(
      instances := s.instances[instance := Instance(role, true)],
      items := s.items[source := item],
      leases := s.leases[lease := Lease(source, instance, "", false, s.now + 1)],
      queues := s.queues + {(d.targetRole, d.capability)});
    assert lease !in s.leases && source !in s.items && source != d.key;
  }

  lemma SourceReady(s: System, d: HandoffOffer, w: Id) returns (s': System, lease: Id, token: string)
    requires SourcesOk(s) && Offerable(s, d) && w in s.works
    ensures Environment(s, s') && s'.now == s.now
    ensures CanOffer(s', d.(lease := lease, token := token), s'.now, s'.now)
  {
    if d.key in s.handoffs {
      var f := s.handoffs[d.key].fingerprint;
      assert FromLease(s, f);
      s', lease, token := s, f.lease, s.leases[f.lease].token;
    } else {
      hide HandoffPayload, Environment, CanOffer, SourcesOk;
      token := "";
      if d.key in s.items {
        var role, instance :| ItemCarries(s, d, role, instance);
        s', lease := SourceMade(s, d, s.items[d.key].draft.work, role, instance);
      } else {
        var instance := FreshText(s.instances.Keys);
        s', lease := SourceMade(s, d, w, "", instance);
      }
    }
  }

  lemma TakesResume(s: System, c: nat, call: PrepareCall)
    requires c !in s.prepares && CanResume(s, call)
    ensures Takes(s, Engine(ResumeTransition(c, call)), Resumed(s, c, call))
  {
    hide CanResume;
  }

  lemma TakesOffer(s: System, c: nat, at: nat, later: nat) returns (s': System)
    requires c in s.prepares && s.prepares[c].handoff.None? && CanOffer(s, TransitionOffer(s.prepares[c]), at, later)
    ensures Takes(s, Engine(OfferTransition(c, at, later)), s')
    ensures s'.runs == s.runs && s'.journal == s.journal
    ensures s'.prepares == s.prepares[c := s.prepares[c].(handoff := Some(TransitionOffer(s.prepares[c]).key))]
  {
    hide CanOffer, OfferMade, TransitionOffer;
    OfferKeepsTables(s, TransitionOffer(s.prepares[c]), at, later);
    s' := OfferedFor(s, c, at, later);
  }

  lemma TakesCommit(s: System, c: nat) returns (s': System)
    requires CanCommit(s, c)
    ensures Takes(s, Engine(CommitTransition(c)), s') && s' == Committed(s, c)
    ensures s'.runs == s.runs[s.prepares[c].work := s.runs[s.prepares[c].work].(
              status := HandoffPending, pendingHandoff := s.prepares[c].handoff, version := s.runs[s.prepares[c].work].version + 1)]
    ensures |s'.journal| == |s.journal| + 1 && s'.journal[|s.journal|].operation == s.prepares[c].operation
  {
    s' := Committed(s, c);
    hide ReplayOf, MaxSequence;
  }

  /** The call that takes an open transition up again from this lease. */
  lemma ResumingCall(s: System, s': System, w: Id, lease: Id, token: string) returns (call: PrepareCall)
    requires Inv(s) && w in s.runs && s.runs[w].status == HandoffPreparing && Unused(s.journal, s.runs[w])
    requires s'.runs == s.runs && s'.journal == s.journal
    ensures CanResume(s', call) && call.work == w && call.lease == lease && call.token == token
    ensures call.expected == s.runs[w].version && RouteOpen(s.runs[w], w, call.route)
  {
    hide Inv, RouteOpen, ReplayOf, FlowState.SelectRoute;
    var route := TransitionOf(s, w);
    RouteNames(s.runs[w], w, route);
    var request := s.runs[w].pendingRequest.value;
    call := PrepareCall(w, request.outcome, request.fields, request.expected, request.actor, s.runs[w].pendingOperation.value,
                        lease, token, route, None);
    FreshExact(s.journal, call.operation, call.Digest());
  }

  lemma ResumedFits(s: System, c: nat, call: PrepareCall)
    requires CanResume(s, call)
    ensures ReplayOf(s.journal, call.operation, call.Digest()) == Fresh && call.work in s.runs && call.handoff.None?
    ensures SamePending(s.runs[call.work], call.operation, call.Digest())
  {}

  /** What a finished transition leaves: one run moved, and its operation journalled. */
  ghost predicate Finishes(s: System, w: Id, s': System)
    requires w in s.runs
  {
    && w in s'.runs && s'.runs[w] != s.runs[w] && s'.runs[w].status == HandoffPending
    && (forall v | v in s.runs && v != w :: v in s'.runs && s'.runs[v] == s.runs[v])
    && exists row :: row in s'.journal && Some(row.operation) == s.runs[w].pendingOperation
  }

  /** A call that takes an open transition up again, under an operation still unused and a key still free, commits it. */
  lemma TransitionFinishes(s: System, w: Id) returns (path: seq<System>, more: seq<Step>)
    requires Inv(s) && SourcesOk(s) && w in s.runs && s.runs[w].status == HandoffPreparing && w in s.works
    requires var run := s.runs[w];
      && run.pendingRoute.Some? && run.pendingTarget.Some? && run.pendingRole.Some?
      && Unused(s.journal, run) && Offerable(s, PendingOffer(run, w))
    ensures LeadsToMove(s, w, path, more) && Finishes(s, w, path[|more|])
  {
    hide Inv, Takes, CanOffer, PendingOffer, CanResume, LeadsToMove, Leads, SourcesOk, Offerable, RouteOpen, Finishes, Environment,
      TransitionOffer, Unused;
    var s1, lease, token := SourceReady(s, PendingOffer(s.runs[w], w), w);
    EnvironmentKeepsRuns(s, s1);
    TakesElsewhere(s, s1);
    var call := ResumingCall(s, s1, w, lease, token);
    OfferFromCall(s.runs[w], w, call);
    var c := FreshNumber(s1.prepares.Keys);
    var s2, s3, s4 := ResumedCommits(s1, c, call);
    StillFinishes(s, s1, s4, w);
    path := [s, s1, s2, s3, s4];
    more := [Elsewhere, Engine(ResumeTransition(c, call)), Engine(OfferTransition(c, s1.now, s1.now)), Engine(CommitTransition(c))];
    FourSteps(path, more);
    FinishesMoves(s, w, path, more);
  }

  lemma EnvironmentKeepsRuns(s: System, s': System)
    requires Environment(s, s')
    ensures s'.runs == s.runs && s'.journal == s.journal
  {}

  lemma OfferFromCall(run: Run, w: Id, call: PrepareCall)
    requires RouteOpen(run, w, call.route) && call.work == w && call.expected == run.version
    ensures run.pendingRoute.Some? && run.pendingTarget.Some? && run.pendingRole.Some?
    ensures TransitionOffer(call) == PendingOffer(run, w).(lease := call.lease, token := call.token)
  {
    hide RouteOpen, TransitionKey, TransitionPayload;
    RouteNames(run, w, call.route);
  }

  lemma ResumedCommits(s: System, c: nat, call: PrepareCall) returns (s2: System, s3: System, s4: System)
    requires c !in s.prepares && CanResume(s, call) && CanOffer(s, TransitionOffer(call), s.now, s.now)
    ensures Takes(s, Engine(ResumeTransition(c, call)), s2) && Takes(s2, Engine(OfferTransition(c, s.now, s.now)), s3)
    ensures Takes(s3, Engine(CommitTransition(c)), s4)
    ensures call.work in s.runs && Finishes(s, call.work, s4)
  {
    hide Takes, CanOffer, CanResume, CanCommit, ReplayOf, TransitionOffer, Committed;
    TakesResume(s, c, call);
    ResumedFits(s, c, call);
    s2 := Resumed(s, c, call);
    StillOffers(s, s2, TransitionOffer(call));
    s3 := TakesOffer(s2, c, s2.now, s2.now);
    CommitsNow(s3, c);
    s4 := TakesCommit(s3, c);
    assert s4.journal[|s3.journal|] in s4.journal;
  }

  lemma StillFinishes(s: System, s1: System, s': System, w: Id)
    requires s1.runs == s.runs && w in s.runs && Finishes(s1, w, s')
    ensures Finishes(s, w, s')
  {}

  lemma FourSteps(path: seq<System>, more: seq<Step>)
    requires |path| == 5 && |more| == 4
    requires Takes(path[0], more[0], path[1]) && Takes(path[1], more[1], path[2])
    requires Takes(path[2], more[2], path[3]) && Takes(path[3], more[3], path[4])
    ensures Leads(path, more)
  {
    hide Takes;
  }

  lemma FinishesMoves(s: System, w: Id, path: seq<System>, more: seq<Step>)
    requires w in s.runs && Leads(path, more) && path[0] == s && Finishes(s, w, path[|more|])
    ensures LeadsToMove(s, w, path, more)
  {
    hide Takes;
  }

  lemma StillOffers(s: System, s': System, d: HandoffOffer)
    requires CanOffer(s, d, s.now, s.now) && s' == s.(prepares := s'.prepares)
    ensures CanOffer(s', d, s'.now, s'.now)
  {}

  lemma CommitsNow(s: System, c: nat)
    requires c in s.prepares && s.prepares[c].handoff.Some? && s.prepares[c].work in s.runs
    requires var call := s.prepares[c];
      && ReplayOf(s.journal, call.operation, call.Digest()) == Fresh
      && SamePending(s.runs[call.work], call.operation, call.Digest())
    ensures CanCommit(s, c)
  {}

  /** An open transition can still be committed exactly when no row carries its operation and nothing else is kept under
      its handoff's key. */
  lemma TransitionCanCommitExactly(trace: seq<System>, steps: seq<Step>, n: nat, w: Id)
    requires IsRun(trace, steps) && n < |trace| && w in trace[n].runs && trace[n].runs[w].status == HandoffPreparing
    ensures var run := trace[n].runs[w];
      && run.pendingRoute.Some? && run.pendingTarget.Some? && run.pendingRole.Some?
      && (CanMove(trace[n], w) <==> Unused(trace[n].journal, run) && Offerable(trace[n], PendingOffer(run, w)))
  {
    hide IsRun, Inv, LeadsToMove, RouteOpen, Offerable, PendingOffer, SourcesOk, CallsMatch;
    AlwaysInv(trace, steps, n);
    AlwaysSources(trace, steps, n);
    WorkOf(trace[n], w);
    var run := trace[n].runs[w];
    var route := TransitionOf(trace[n], w);
    RouteNames(run, w, route);
    if Unused(trace[n].journal, run) && Offerable(trace[n], PendingOffer(run, w)) {
      var path, more := TransitionFinishes(trace[n], w);
    }
    forall path, more | LeadsToMove(trace[n], w, path, more)
      ensures Unused(trace[n].journal, run) && Offerable(trace[n], PendingOffer(run, w))
    {
      var trace', steps', last := JoinedMove(trace, steps, n, w, path, more);
      if !Unused(trace[n].journal, run) {
        var row :| row in trace[n].journal && Some(row.operation) == run.pendingOperation;
        ReusedOperationBlocks(trace', steps', n, last, w, row);
      }
      if !Offerable(trace[n], PendingOffer(run, w)) {
        UnofferableBlocks(trace', steps', n, last, w, PendingOffer(run, w));
      }
    }
  }

  // ---- Pickups ----

  lemma PendingNames(s: System, w: Id)
    requires Inv(s) && w in s.runs && s.runs[w].status == HandoffPending
    ensures var run := s.runs[w];
      && run.pendingHandoff.Some? && run.pendingHandoff.value in s.handoffs
      && run.pendingTarget.Some? && run.pendingRole.Some? && run.pendingTarget.value in run.flow.states
      && run.flow.states[run.pendingTarget.value].ownerRole == run.pendingRole.value
  {
    hide Inv, RunsOk, RowHandoffsOk, HistoryOk, StateAfter, AcceptedFlow, RunOk;
    RunOf(s, w);
    JournalOf(s);
    PendingHandoff(s.runs, s.journal, s.handoffs, w);
    PendingStatus(s.runs[w], w, History(s.journal, w));
  }

  lemma PendingStatus(run: Run, w: Id, h: Journal)
    requires RunOk(run, w, h) && run.status == HandoffPending
    ensures run.pendingTarget.Some? && run.pendingRole.Some? && run.pendingTarget.value in run.flow.states
    ensures run.flow.states[run.pendingTarget.value].ownerRole == run.pendingRole.value
  {
    hide HistoryOk, StateAfter;
  }

  /** Exactly when a pickup is taken: its operation is unused, and the run waits, at the expected version, for a handoff that
      has been accepted, while its work item is active. */
  lemma PickupExactly(trace: seq<System>, steps: seq<Step>, n: nat, w: Id, expected: nat, actor: Id, operation: Id)
    requires IsRun(trace, steps) && n < |trace|
    ensures CanPickup(trace[n], w, expected, actor, operation) <==>
              && (forall row | row in trace[n].journal :: row.operation != operation)
              && w in trace[n].runs && trace[n].runs[w].status == HandoffPending && trace[n].runs[w].version == expected
              && trace[n].runs[w].pendingHandoff.Some? && trace[n].runs[w].pendingHandoff.value in trace[n].handoffs
              && trace[n].handoffs[trace[n].runs[w].pendingHandoff.value].status == Accepted
              && w in trace[n].works && trace[n].works[w].status == WorkActive
  {
    hide IsRun, Inv, ReplayOf;
    AlwaysInv(trace, steps, n);
    FreshExact(trace[n].journal, operation, PickupRequest(w, expected, actor));
    if w in trace[n].runs && trace[n].runs[w].status == HandoffPending {
      PendingNames(trace[n], w);
    }
  }

  lemma PickupMoved(s: System, step: EngineStep, s': System, w: Id)
    requires Inv(s) && w in s.runs && s.runs[w].status == HandoffPending && RunMoves(s, step, s', w)
    ensures w in s.works && s.works[w].status == WorkActive
  {
    hide Inv, ReplayOf, Finished, RunOk;
    if step.CommitTransition? {
      FreshCallIsOpen(s, step.c);
    }
    if step.CommitCompletion? {
      FreshCallIsOpen(s, step.c);
    }
  }

  /** A run whose work item failed or completed while a handoff was pending never changes again. */
  lemma {:induction false} EndedWorkHolds(trace: seq<System>, steps: seq<Step>, i: nat, j: nat, w: Id)
    requires IsRun(trace, steps) && i <= j < |trace| && w in trace[i].runs && trace[i].runs[w].status == HandoffPending
    requires w in trace[i].works && trace[i].works[w].status in {Error, WorkCompleted}
    ensures w in trace[j].runs && trace[j].runs[w] == trace[i].runs[w] && w in trace[j].works && trace[j].works[w] == trace[i].works[w]
    decreases j
  {
    hide Inv, Takes, RunMoves;
    if i < j {
      EndedWorkHolds(trace, steps, i, j - 1, w);
      AlwaysInv(trace, steps, j - 1);
      StatesNamed(trace[j - 1], w);
      StepMoves(trace[j - 1], steps[j - 1], trace[j], w);
      EndedWorkStays(trace[j - 1], steps[j - 1], trace[j], w);
      if trace[j].runs[w] != trace[i].runs[w] {
        PickupMoved(trace[j - 1], steps[j - 1].engine, trace[j], w);
      }
    }
  }

  /** The queue releases whatever lease claims the handoff, and a new instance of its target role takes a lease on its item. */
  lemma ClaimantMade(s: System, h: Id) returns (s': System, lease: Id)
    requires h in s.handoffs && (s.handoffs[h].status != Offered ==> s.handoffs[h].targetLease.Some?)
    ensures Takes(s, Elsewhere, s') && s' == s.(instances := s'.instances, leases := s'.leases)
    ensures TargetLease(s', h, lease, "", s'.now)
    ensures s.handoffs[h].status == Claimed ==>
              s.handoffs[h].targetLease != Some(lease) && !LeaseLive(s', s.handoffs[h].targetLease.value, s'.now)
  {
    hide Takes, TargetLease, LeaseLive, WithClaimant;
    var claimed := if s.handoffs[h].targetLease.Some? then s.handoffs[h].targetLease.value else "";
    lease := FreshText(s.leases.Keys + {claimed});
    var instance := FreshText(s.instances.Keys);
    s' := WithClaimant(s, h, claimed, lease, instance);
    ClaimantComes(s, h, claimed, lease, instance);
    ClaimantHolds(s, h, claimed, lease, instance);
  }

  lemma ClaimantComes(s: System, h: Id, claimed: Id, lease: Id, instance: Id)
    requires h in s.handoffs && lease !in s.leases && instance !in s.instances
    ensures var s' := WithClaimant(s, h, claimed, lease, instance);
      Takes(s, Elsewhere, s') && s' == s.(instances := s'.instances, leases := s'.leases)
  {
    TakesElsewhere(s, WithClaimant(s, h, claimed, lease, instance));
    hide Takes;
  }

  lemma ClaimantHolds(s: System, h: Id, claimed: Id, lease: Id, instance: Id)
    requires h in s.handoffs && lease != claimed
    ensures var s' := WithClaimant(s, h, claimed, lease, instance);
      TargetLease(s', h, lease, "", s'.now) && !LeaseLive(s', claimed, s'.now)
  {}

  ghost function WithClaimant(s: System, h: Id, claimed: Id, lease: Id, instance: Id): System
    requires h in s.handoffs
  {
    var freed := if claimed in s.leases then s.leases[claimed := s.leases[claimed].(released := true)] else s.leases;
    s.(instances := s.instances[instance := Instance(s.handoffs[h].targetRole, true)],
       leases := freed[lease := Lease(s.handoffs[h].item, instance, "", false, s.now + 1)])
  }

  lemma TakesClaim(s: System, h: Id, lease: Id) returns (s': System)
    requires h in s.handoffs && TargetLease(s, h, lease, "", s.now) && s.handoffs[h].status != Accepted
    requires s.handoffs[h].status == Claimed ==>
               s.handoffs[h].targetLease.Some? && s.handoffs[h].targetLease != Some(lease)
               && !LeaseLive(s, s.handoffs[h].targetLease.value, s.now)
    ensures Takes(s, Handoffs(ClaimHandoff(h, lease, "", s.now)), s')
    ensures s' == s.(handoffs := s'.handoffs) && h in s'.handoffs && s'.handoffs[h].status == Claimed
    ensures s'.handoffs[h].targetLease == Some(lease) && TargetLease(s', h, lease, "", s'.now)
  {
    s' := ClaimMade(s, h, lease, "", s.now);
  }

  lemma TakesAccept(s: System, h: Id, lease: Id) returns (s': System)
    requires h in s.handoffs && TargetLease(s, h, lease, "", s.now)
    requires s.handoffs[h].status == Claimed && s.handoffs[h].targetLease == Some(lease)
    ensures Takes(s, Handoffs(AcceptHandoff(h, lease, "", s.now)), s')
    ensures s' == s.(handoffs := s'.handoffs) && h in s'.handoffs && s'.handoffs[h].status == Accepted
  {
    hide TargetLease;
    s' := AcceptMade(s, h, lease, "", s.now);
  }

  lemma TakesPickup(s: System, w: Id, operation: Id) returns (s': System)
    requires w in s.runs && CanPickup(s, w, s.runs[w].version, "", operation)
    ensures Takes(s, Engine(PickupTransition(w, s.runs[w].version, "", operation)), s')
    ensures w in s'.runs && s'.runs[w].status == Active
  {
    s' := PickedUp(s, w, s.runs[w].version, "", operation);
    hide InsertObligations, Append, ReplayOf, FlowState.Obligations;
  }

  lemma FreshOperationId(journal: Journal) returns (operation: Id)
    ensures forall row | row in journal :: row.operation != operation
  {
    operation := FreshText(set row | row in journal :: row.operation);
    forall row | row in journal ensures row.operation != operation {
      assert row.operation in set r | r in journal :: r.operation;
    }
  }

  /** Any handoff can still come to be accepted. */
  lemma AcceptanceFollows(s: System, h: Id) returns (path: seq<System>, more: seq<Step>)
    requires h in s.handoffs && (s.handoffs[h].status != Offered ==> s.handoffs[h].targetLease.Some?)
    ensures Leads(path, more) && |path| == |more| + 1 && path[0] == s
    ensures var last := path[|more|];
      && last == s.(handoffs := last.handoffs, instances := last.instances, leases := last.leases)
      && h in last.handoffs && last.handoffs[h].status == Accepted
  {
    hide Takes, Leads, TargetLease, LeaseLive;
    LeadsNowhere(s);
    if s.handoffs[h].status == Accepted {
      path, more := [s], [];
    } else {
      var s1, lease := ClaimantMade(s, h);
      var s2 := TakesClaim(s1, h, lease);
      var s3 := TakesAccept(s2, h, lease);
      path, more := Extended([s], [], Elsewhere, s1);
      path, more := Extended(path, more, Handoffs(ClaimHandoff(h, lease, "", s1.now)), s2);
      path, more := Extended(path, more, Handoffs(AcceptHandoff(h, lease, "", s2.now)), s3);
    }
  }

  /** Where nothing stands in the way, the handoff is claimed and accepted and the run picked up. */
  lemma PickupFinishes(s: System, w: Id) returns (path: seq<System>, more: seq<Step>)
    requires Inv(s) && w in s.runs && s.runs[w].status == HandoffPending
    requires w in s.works && s.works[w].status in {New, WorkActive, Gated}
    ensures LeadsToMove(s, w, path, more)
  {
    hide Inv, Takes, LeadsToMove, Leads, CanPickup;
    PendingNames(s, w);
    HandoffShape(s, s.runs[w].pendingHandoff.value);
    var s1 := WorkWoken(s, w);
    LeadsNowhere(s);
    path, more := Extended([s], [], Elsewhere, s1);
    var rest, others := AcceptanceFollows(s1, s.runs[w].pendingHandoff.value);
    var s2 := rest[|others|];
    path, more := Appended(path, more, rest, others);
    var operation := FreshOperationId(s.journal);
    PicksUp(s2, w, operation);
    var s3 := TakesPickup(s2, w, operation);
    path, more := Extended(path, more, Engine(PickupTransition(w, s2.runs[w].version, "", operation)), s3);
    MovesRun(s, w, path, more);
  }

  lemma HandoffShape(s: System, h: Id)
    requires Inv(s) && h in s.handoffs
    ensures s.handoffs[h].status != Offered ==> s.handoffs[h].targetLease.Some?
  {
    hide Inv;
    HandoffsOf(s);
    assert HandoffOk(s.handoffs[h], s.now);
  }

  lemma PicksUp(s: System, w: Id, operation: Id)
    requires w in s.runs && s.runs[w].status == HandoffPending && w in s.works && s.works[w].status == WorkActive
    requires var run := s.runs[w];
      && run.pendingHandoff.Some? && run.pendingHandoff.value in s.handoffs && s.handoffs[run.pendingHandoff.value].status == Accepted
      && run.pendingTarget.Some? && run.pendingRole.Some? && run.pendingTarget.value in run.flow.states
      && run.flow.states[run.pendingTarget.value].ownerRole == run.pendingRole.value
    requires forall row | row in s.journal :: row.operation != operation
    ensures CanPickup(s, w, s.runs[w].version, "", operation)
  {
    hide ReplayOf;
    FreshExact(s.journal, operation, PickupRequest(w, s.runs[w].version, ""));
  }

  /** A run that waits for its handoff can still be picked up exactly when its work item has neither failed nor completed. */
  lemma PickupCanHappenExactly(trace: seq<System>, steps: seq<Step>, n: nat, w: Id)
    requires IsRun(trace, steps) && n < |trace| && w in trace[n].runs && trace[n].runs[w].status == HandoffPending
    ensures w in trace[n].works
    ensures CanMove(trace[n], w) <==> trace[n].works[w].status != Error && trace[n].works[w].status != WorkCompleted
  {
    hide IsRun, Inv, LeadsToMove;
    AlwaysInv(trace, steps, n);
    WorkOf(trace[n], w);
    if trace[n].works[w].status != Error && trace[n].works[w].status != WorkCompleted {
      var path, more := PickupFinishes(trace[n], w);
    }
    forall path, more | LeadsToMove(trace[n], w, path, more)
      ensures trace[n].works[w].status != Error && trace[n].works[w].status != WorkCompleted
    {
      var trace', steps', last := JoinedMove(trace, steps, n, w, path, more);
      if trace[n].works[w].status in {Error, WorkCompleted} {
        EndedWorkHolds(trace', steps', n, last, w);
      }
    }
  }
}
