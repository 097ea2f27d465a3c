/** The flow tables as they are stored, and the transactions that update them in place. */
module FlowDatabase {
  import opened Wrappers
  import opened Json
  import opened FlowDefinition
  import opened FlowTables
  import opened FlowInvariants
  import opened FlowPreservation
  import opened FlowSteps

  /** How a transaction is refused. */
  datatype Fault = NotFound | Conflict | Unauthorized | Definition(error: FlowError)

  class Database {
    const project: Id
    var works: map<Id, Work>
    var runs: map<Id, Run>
    var obligations: map<ObligationKey, Obligation>
    var records: map<Id, Record>
    var impacts: map<Id, string>
    var journal: seq<JournalRow>
    var handoffs: map<Id, Handoff>
    var leases: map<Id, Lease>
    var items: map<Id, Item>
    var instances: map<Id, Instance>
    var queues: set<(Id, Option<Id>)>
    var now: nat
    var prepares: map<nat, PrepareCall>
    var completions: map<nat, CompleteCall>
    ghost var entryFields: map<(Id, nat), Fields>

    ghost function Snapshot(): System
      reads this
    {
      System(project, works, runs, obligations, records, impacts, journal, handoffs, leases, items, instances, queues,
             now, prepares, completions, entryFields)
    }

    ghost predicate Valid()
      reads this
    {
      Inv(Snapshot())
    }

    constructor (project: Id)
      ensures Valid() && this.project == project && runs == map[] && journal == [] && handoffs == map[]
    {
      this.project := project;
      works, runs, obligations, records, impacts := map[], map[], map[], map[], map[];
      journal, handoffs, leases, items, instances, queues := [], map[], map[], map[], map[], {};
      now, prepares, completions, entryFields := 0, map[], map[], map[];
    }

    // ---- Flow engine ----

    /** Inserts one pending row for each obligation of a state that is entered. */
    method AddObligations(work: Id, state: FlowState, fields: Fields, entry: nat)
      modifies `obligations
      ensures obligations == InsertObligations(old(obligations), work, state.stateId, entry, state.Obligations(fields))
    {
      var actions := state.Obligations(fields);
      for i := 0 to |actions|
        invariant obligations == InsertObligations(old(obligations), work, state.stateId, entry, actions[..i])
      {
        var action := actions[i];
        assert actions[..i + 1][..i] == actions[..i];
        obligations := obligations[KeyOf(work, state.stateId, entry, action) := Obligation(action.roleId, action.payload, Pending)];
      }
      assert actions[..|actions|] == actions;
    }

    method InsertRun(work: Id, flow: Flow, fields: Fields, actor: Id, operation: Id)
      requires CanStart(Snapshot(), work, flow, fields, actor, operation)
      modifies this
      ensures work in runs
      ensures Snapshot() == Started(old(Snapshot()), work, flow, fields, actor, operation)
    {
      hide Inv, InsertObligations, ReplayOf, Append, FlowState.Obligations;
      var state := flow.states[flow.entryState];
      runs := runs[work := Run(flow, state.stateId, state.ownerRole, Active, fields, 1, None, None, None, None, None, None)];
      AddObligations(work, state, fields, 1);
      journal := Append(journal, JournalRow(
        work, 0, operation, StartRequest(flow, fields, actor), Action.Start, None, state.stateId, None, None, actor,
        map["flow_digest" := Str(flow.digest)]));
      entryFields := entryFields[(work, 1) := fields];
    }

    method Start(work: Id, flow: Flow, fields: Fields, actor: Id, operation: Id) returns (result: Result<Run, Fault>)
      requires Valid() && AcceptedFlow(flow)
      modifies this
      ensures Valid()
      ensures StartAnswers(old(Snapshot()), work, flow, fields, actor, operation, Snapshot(), result)
    {
      hide Inv, Started, AcceptedFlow, FindOperation;
      ghost var s := Snapshot();
      EntryOwns(flow);
      var replay := ReplayOf(journal, operation, StartRequest(flow, fields, actor));
      if replay.Recorded? {
        ReplayedRun(s, operation, StartRequest(flow, fields, actor), replay.work);
        return Success(runs[replay.work]);
      }
      if replay.Clash? {
        return Failure(Conflict);
      }
      if work !in works {
        return Failure(NotFound);
      }
      var state := flow.states[flow.entryState];
      if works[work].status != WorkActive || works[work].role != state.ownerRole {
        return Failure(Conflict);
      }
      if work in runs {
        return Failure(Conflict);
      }
      StartKeeps(s, work, flow, fields, actor, operation);
      InsertRun(work, flow, fields, actor, operation);
      return Success(runs[work]);
    }

    /** Whether work can go on a role's queue: under a free key to a known queue, or again under its own. */
    method MayRoute(key: Id, draft: RouteDraft) returns (may: bool)
      ensures may == Routable(Snapshot(), key, draft)
    {
      return if key in items then items[key].draft == draft
             else draft.work in works && (draft.targetRole, draft.capability) in queues;
    }

    /** Puts work on a role's queue under an idempotency key, or finds it there. */
    method Route(key: Id, draft: RouteDraft, at: nat) returns (result: Result<Item, Fault>)
      modifies `items
      ensures result.Success? <==> Routable(old(Snapshot()), key, draft)
      ensures result.Success? ==> items == Routed(old(items), key, draft, at) && key in items && result.value == items[key]
      ensures result.Failure? ==> items == old(items)
    {
      var may := MayRoute(key, draft);
      if !may {
        return Failure(Conflict);
      }
      if key !in items {
        items := items[key := Item(draft, Ready, at)];
      }
      return Success(items[key]);
    }

    /** Queues the dispatch of a consult or an inform of the current visit. */
    method Dispatch(work: Id, kind: Kind, id: Id, actor: Id) returns (result: Result<Obligation, Fault>)
      requires Valid()
      modifies `items, `obligations
      ensures Valid()
      ensures var s := old(Snapshot());
        if CanDispatch(s, work, kind, id, actor)
        then Snapshot() == DispatchedTo(s, work, kind, id, actor)
             && result == Success(Snapshot().obligations[CurrentKey(s, work, kind, id)])
        else Snapshot() == s && result.Failure?
    {
      hide Inv, DispatchKey, Routable, Routed;
      ghost var s := Snapshot();
      if kind !in {Consult, Inform} {
        return Failure(Conflict);
      }
      if work !in runs {
        return Failure(NotFound);
      }
      var run := runs[work];
      if run.status != Active {
        return Failure(Conflict);
      }
      var key := ObligationKey(work, run.currentState, run.version, kind, id);
      if key !in obligations || obligations[key].status !in {Pending, Dispatched} {
        return Failure(Conflict);
      }
      var draft := RouteDraft(work, obligations[key].role, None, Obj(map[
        "flow_action" := Obj(obligations[key].payload),
        "state" := Str(run.currentState),
        "requested_by" := Str(actor)]), 0);
      assert draft == DispatchDraft(s, work, kind, id, actor);
      var routed := Route(DispatchKey(kind, work, run.version, id), draft, now);
      if routed.Failure? {
        return Failure(routed.error);
      }
      obligations := obligations[key := obligations[key].(status := Dispatched)];
      DispatchKeeps(s, work, kind, id, actor);
      return Success(obligations[key]);
    }

    // ---- Preparing a transition: three transactions ----

    /** The first transaction: opens the transition, or resumes it, and selects its route. */
    method BeginTransition(
      c: nat, work: Id, outcome: Id, fields: Fields, expected: nat, actor: Id, operation: Id, lease: Id, token: string
    ) returns (result: Result<Option<Run>, Fault>)
      requires Valid() && c !in prepares
      modifies `runs, `prepares
      ensures Valid()
      ensures BeginAnswers(old(Snapshot()), c, work, outcome, fields, expected, actor, operation, lease, token, Snapshot(), result)
    {
      hide Inv, FindOperation, Discharged, FlowState.SelectRoute, AllDischarged;
      ghost var s := Snapshot();
      var request := PrepareRequest(work, outcome, fields, expected, actor);
      var replay := ReplayOf(journal, operation, request);
      if replay.Recorded? {
        ReplayedRun(s, operation, request, replay.work);
        return Success(Some(runs[replay.work]));
      }
      if replay.Clash? {
        return Failure(Conflict);
      }
      if work !in runs {
        return Failure(NotFound);
      }
      var run := runs[work];
      if run.currentState !in run.flow.states {
        return Failure(Conflict);
      }
      if run.status == HandoffPreparing {
        result := ResumeTransition(c, work, outcome, fields, expected, actor, operation, lease, token);
      } else {
        result := OpenTransition(c, work, outcome, fields, expected, actor, operation, lease, token);
      }
    }

    method ResumeTransition(
      c: nat, work: Id, outcome: Id, fields: Fields, expected: nat, actor: Id, operation: Id, lease: Id, token: string
    ) returns (result: Result<Option<Run>, Fault>)
      requires Valid() && c !in prepares
      requires ReplayOf(journal, operation, PrepareRequest(work, outcome, fields, expected, actor)) == Fresh
      requires work in runs && runs[work].currentState in runs[work].flow.states && runs[work].status == HandoffPreparing
      modifies `prepares
      ensures Valid()
      ensures BeginAnswers(old(Snapshot()), c, work, outcome, fields, expected, actor, operation, lease, token, Snapshot(), result)
    {
      hide Inv, ReplayOf, AllDischarged, FlowState.SelectRoute;
      ghost var s := Snapshot();
      var run := runs[work];
      if !SamePending(run, operation, PrepareRequest(work, outcome, fields, expected, actor)) {
        return Failure(Conflict);
      }
      var route := run.State().SelectRoute(outcome, run.fields);
      if route.Failure? {
        return Failure(Definition(route.error));
      }
      var call := PrepareCall(work, outcome, fields, expected, actor, operation, lease, token, route.value, None);
      ResumeKeeps(s, c, call);
      prepares := prepares[c := call];
      assert Snapshot() == Resumed(s, c, call);
      return Success(None);
    }

    /** The run's fields under the supplied ones, with the recorded architecture impact. */
    method MergeImpact(work: Id, fields: Fields) returns (merged: Option<Fields>)
      requires work in runs
      ensures merged == MergedFields(Snapshot(), work, fields)
    {
      var all := runs[work].fields + fields;
      if work in impacts {
        var impact := Str(impacts[work]);
        if "architecture_impact" in all && all["architecture_impact"] != Null && all["architecture_impact"] != impact {
          return None;
        }
        all := all["architecture_impact" := impact];
      }
      return Some(all);
    }

    method OpenRow(c: nat, call: PrepareCall, merged: Fields)
      requires CanOpen(Snapshot(), call) && MergedFields(Snapshot(), call.work, call.fields) == Some(merged)
      modifies `runs, `prepares
      ensures Snapshot() == Opened(old(Snapshot()), c, call) && prepares == old(prepares)[c := call]
    {
      hide Inv, ReplayOf, AllDischarged, MergedFields, FlowState.SelectRoute;
      runs := runs[call.work := runs[call.work].(
        status := HandoffPreparing, fields := merged,
        pendingRoute := Some(call.route.routeId), pendingTarget := Some(call.route.targetState),
        pendingRole := Some(call.route.targetRole), pendingOperation := Some(call.operation),
        pendingRequest := Some(call.Digest()))];
      prepares := prepares[c := call];
    }

    method OpenTransition(
      c: nat, work: Id, outcome: Id, fields: Fields, expected: nat, actor: Id, operation: Id, lease: Id, token: string
    ) returns (result: Result<Option<Run>, Fault>)
      requires Valid() && c !in prepares
      requires ReplayOf(journal, operation, PrepareRequest(work, outcome, fields, expected, actor)) == Fresh
      requires work in runs && runs[work].currentState in runs[work].flow.states && runs[work].status != HandoffPreparing
      modifies `runs, `prepares
      ensures Valid()
      ensures BeginAnswers(old(Snapshot()), c, work, outcome, fields, expected, actor, operation, lease, token, Snapshot(), result)
    {
      hide Inv, ReplayOf, Discharged, FlowState.SelectRoute, MergedFields, Opened;
      ghost var s := Snapshot();
      var run := runs[work];
      if run.status != Active || run.version != expected {
        return Failure(Conflict);
      }
      var merged := MergeImpact(work, fields);
      if merged.None? {
        return Failure(Conflict);
      }
      if run.State().terminal {
        return Failure(Conflict);
      }
      if exists key | key in obligations && IsVisit(key, work, run.currentState, run.version) ::
           !Discharged(obligations, records, key) {
        return Failure(Conflict);
      }
      var route := run.State().SelectRoute(outcome, merged.value);
      if route.Failure? {
        return Failure(Definition(route.error));
      }
      var call := PrepareCall(work, outcome, fields, expected, actor, operation, lease, token, route.value, None);
      OpenKeeps(s, c, call);
      OpenRow(c, call, merged.value);
      return Success(None);
    }

    /** The second transaction: the call's handoff is offered, or found. */
    method OfferTransition(c: nat, at: nat, later: nat) returns (result: Result<Handoff, Fault>)
      requires Valid() && c in prepares && prepares[c].handoff.None? && now <= at <= later
      modifies `now, `items, `handoffs, `prepares
      ensures Valid()
      ensures var s := old(Snapshot());
        if CanOfferFor(s, c, at, later) then Snapshot() == OfferedFor(s, c, at, later) && result.Success?
        else Snapshot() == s && result.Failure?
    {
      hide Inv, CanOffer, OfferMade, TransitionPayload, TransitionKey;
      ghost var s := Snapshot();
      var draft := TransitionOffer(prepares[c]);
      result := Offer(draft, at, later);
      if result.Failure? {
        return;
      }
      OfferForKeeps(s, c, at, later);
      prepares := prepares[c := prepares[c].(handoff := Some(draft.key))];
    }

    /** The third transaction: records the transition, unless another caller has. */
    method CommitTransition(c: nat) returns (result: Result<Run, Fault>)
      requires Valid() && c in prepares && prepares[c].handoff.Some?
      modifies `runs, `journal, `prepares
      ensures Valid()
      ensures CommitAnswers(old(Snapshot()), c, Snapshot(), result)
    {
      hide Inv, FindOperation, Append;
      ghost var s := Snapshot();
      var call := prepares[c];
      if call.work !in runs {
        return Failure(NotFound);
      }
      var replay := ReplayOf(journal, call.operation, call.Digest());
      if replay.Recorded? {
        ReplayedRun(s, call.operation, call.Digest(), replay.work);
        return Success(runs[replay.work]);
      }
      var run := runs[call.work];
      if replay.Clash? || !SamePending(run, call.operation, call.Digest()) {
        return Failure(Conflict);
      }
      CommitKeeps(s, c);
      runs := runs[call.work := run.(status := HandoffPending, pendingHandoff := call.handoff, version := run.version + 1)];
      journal := Append(journal, JournalRow(
        call.work, 0, call.operation, call.Digest(), Prepare, Some(run.currentState), call.route.targetState,
        Some(call.route.routeId), call.handoff, call.actor, map[]));
      prepares := prepares - {c};
      assert Snapshot() == Committed(s, c);
      return Success(runs[call.work]);
    }

    /** The three transactions in turn, when no other call comes between them. Whatever the answer, at most one row is
        journalled; on success the operation is in the journal under this very request. */
    method PrepareTransition(
      c: nat, work: Id, outcome: Id, fields: Fields, expected: nat, actor: Id, operation: Id, lease: Id, token: string,
      at: nat, later: nat
    ) returns (result: Result<Run, Fault>)
      requires Valid() && c !in prepares && now <= at <= later
      modifies `runs, `journal, `prepares, `now, `items, `handoffs
      ensures Valid()
      ensures result.Success? ==>
                ReplayOf(journal, operation, PrepareRequest(work, outcome, fields, expected, actor)).Recorded?
      ensures result.Failure? ==> journal == old(journal)
      ensures old(journal) <= journal && |journal| <= |old(journal)| + 1
      ensures MovesOnly(old(runs), runs, work)
      ensures journal != old(journal) ==> work in runs && result == Success(runs[work]) && runs[work].status == HandoffPending
    {
      hide Inv, CanOpen, CanResume, CanOffer, ReplayOf, AllDischarged, OfferMade, TransitionKey, TransitionPayload;
      var begun := BeginTransition(c, work, outcome, fields, expected, actor, operation, lease, token);
      BeginMoves(old(Snapshot()), c, work, outcome, fields, expected, actor, operation, lease, token, Snapshot(), begun);
      if begun.Failure? {
        return Failure(begun.error);
      }
      if begun.value.Some? {
        return Success(begun.value.value);
      }
      ghost var s := Snapshot();
      var offered := OfferTransition(c, at, later);
      if offered.Failure? {
        return Failure(offered.error);
      }
      OfferKeepsTables(s, TransitionOffer(s.prepares[c]), at, later);
      ghost var t := Snapshot();
      result := CommitTransition(c);
      CommitRecords(t, c, Snapshot(), result);
    }

    // ---- Picking a transition up ----

    method EnterState(work: Id, expected: nat, actor: Id, operation: Id)
      requires CanPickup(Snapshot(), work, expected, actor, operation)
      modifies this
      ensures Snapshot() == PickedUp(old(Snapshot()), work, expected, actor, operation) && work in runs
    {
      hide Inv, InsertObligations, ReplayOf, Append, FlowState.Obligations;
      var run := runs[work];
      var target := run.flow.states[run.pendingTarget.value];
      var version := run.version + 1;
      runs := runs[work := Run(run.flow, target.stateId, target.ownerRole, Active, run.fields, version,
                               None, None, None, None, None, None)];
      works := works[work := works[work].(role := target.ownerRole, version := works[work].version + 1)];
      AddObligations(work, target, run.fields, version);
      journal := Append(journal, JournalRow(
        work, 0, operation, PickupRequest(work, expected, actor), Pickup, Some(run.currentState), target.stateId,
        run.pendingRoute, run.pendingHandoff, actor, map[]));
      entryFields := entryFields[(work, version) := run.fields];
    }

    method PickupTransition(work: Id, expected: nat, actor: Id, operation: Id) returns (result: Result<Run, Fault>)
      requires Valid()
      modifies this
      ensures Valid()
      ensures PickupAnswers(old(Snapshot()), work, expected, actor, operation, Snapshot(), result)
    {
      hide Inv, FindOperation, PickedUp;
      ghost var s := Snapshot();
      var request := PickupRequest(work, expected, actor);
      var replay := ReplayOf(journal, operation, request);
      if replay.Recorded? {
        ReplayedRun(s, operation, request, replay.work);
        return Success(runs[replay.work]);
      }
      if replay.Clash? {
        return Failure(Conflict);
      }
      if work !in runs {
        return Failure(NotFound);
      }
      var run := runs[work];
      if run.status != HandoffPending || run.version != expected || run.pendingHandoff.None? {
        return Failure(Conflict);
      }
      if run.pendingHandoff.value !in handoffs || handoffs[run.pendingHandoff.value].status != Accepted {
        return Failure(Conflict);
      }
      if run.pendingTarget.None? || run.pendingRole.None? || run.pendingTarget.value !in run.flow.states {
        return Failure(Conflict);
      }
      if run.flow.states[run.pendingTarget.value].ownerRole != run.pendingRole.value {
        return Failure(Conflict);
      }
      if work !in works || works[work].status != WorkActive {
        return Failure(Conflict);
      }
      PickupKeeps(s, work, expected, actor, operation);
      EnterState(work, expected, actor, operation);
      return Success(runs[work]);
    }

    // ---- Completing: the flow run, the kernel work item, the flow run again ----

    method HoldRun(c: nat, call: CompleteCall)
      requires CanOpenCompletion(Snapshot(), call)
      modifies `runs, `completions
      ensures Snapshot() == CompletionOpened(old(Snapshot()), c, call)
    {
      hide Inv, ReplayOf, AllDischarged;
      runs := runs[call.work := runs[call.work].(
        status := CompletionPreparing, pendingOperation := Some(call.operation), pendingRequest := Some(call.Digest()))];
      completions := completions[c := call];
    }

    /** The first transaction: holds the run for completion, or finds it held by this very request. */
    method BeginCompletion(c: nat, work: Id, expected: nat, actor: Id, operation: Id, evidence: Fields)
      returns (result: Result<Option<Run>, Fault>)
      requires Valid() && c !in completions && evidence != map[]
      modifies `runs, `completions
      ensures Valid()
      ensures CompletionAnswers(old(Snapshot()), c, CompleteCall(work, expected, actor, operation, evidence, Began), Snapshot(), result)
    {
      hide Inv, FindOperation, Discharged, CompletionOpened;
      ghost var s := Snapshot();
      var request := CompleteRequest(work, expected, actor, evidence);
      var call := CompleteCall(work, expected, actor, operation, evidence, Began);
      var replay := ReplayOf(journal, operation, request);
      if replay.Recorded? {
        ReplayedRun(s, operation, request, replay.work);
        return Success(Some(runs[replay.work]));
      }
      if replay.Clash? {
        return Failure(Conflict);
      }
      if work !in runs {
        return Failure(NotFound);
      }
      var run := runs[work];
      if run.status == CompletionPreparing {
        if !SamePending(run, operation, request) {
          return Failure(Conflict);
        }
        ResumeCompletionKeeps(s, c, call);
        completions := completions[c := call];
        assert Snapshot() == CompletionResumed(s, c, call);
      } else {
        if run.status != Active || run.version != expected || run.currentState !in run.flow.states || !run.State().terminal {
          return Failure(Conflict);
        }
        if exists key | key in obligations && IsVisit(key, work, run.currentState, run.version) ::
             !Discharged(obligations, records, key) {
          return Failure(Conflict);
        }
        OpenCompletionKeeps(s, c, call);
        HoldRun(c, call);
      }
      return Success(None);
    }

    /** The kernel completes a work item it was shown active, unless it has moved on or an incident holds it. */
    method TryWork(c: nat, blocked: bool)
      requires Valid() && CanTry(Snapshot(), c)
      modifies `works, `completions
      ensures Valid() && Snapshot() == CompletionTried(old(Snapshot()), c, blocked)
    {
      hide Inv, AfterAttempt;
      ghost var s := Snapshot();
      TryKeeps(s, c, blocked);
      CompleteWork(completions[c], blocked);
      completions := completions[c := completions[c].(stage := Tried)];
      assert Snapshot() == CompletionTried(s, c, blocked);
    }

    method CompleteWork(call: CompleteCall, blocked: bool)
      requires call.stage.Read? && call.work in works
      modifies `works
      ensures works == AfterAttempt(old(works), call, blocked)
    {
      var work := works[call.work];
      if work.version == call.stage.seen.version && work.status == WorkActive && !blocked {
        works := works[call.work := work.(
          status := WorkCompleted, version := work.version + 1, reason := COMPLETION_REASON, evidence := call.evidence)];
      }
    }

    /** The last transaction: completes the run once its work item is seen completed with the same evidence. */
    method CommitCompletion(c: nat) returns (result: Result<Run, Fault>)
      requires Valid() && c in completions
      requires completions[c].stage.Reread? || (completions[c].stage.Read? && completions[c].stage.seen.status != WorkActive)
      modifies `runs, `journal, `completions
      ensures Valid()
      ensures CommitCompletionAnswers(old(Snapshot()), c, Snapshot(), result)
    {
      hide Inv, FindOperation, Append;
      ghost var s := Snapshot();
      var call := completions[c];
      if !Finished(call.stage.seen, call.evidence) {
        return Failure(Conflict);
      }
      if call.work !in runs {
        return Failure(NotFound);
      }
      var replay := ReplayOf(journal, call.operation, call.Digest());
      if replay.Recorded? {
        ReplayedRun(s, call.operation, call.Digest(), replay.work);
        return Success(runs[replay.work]);
      }
      var run := runs[call.work];
      if replay.Clash? || !SamePending(run, call.operation, call.Digest()) {
        return Failure(Conflict);
      }
      CommitCompletionKeeps(s, c);
      runs := runs[call.work := run.(
        status := Completed, pendingOperation := None, pendingRequest := None, version := run.version + 1)];
      journal := Append(journal, JournalRow(
        call.work, 0, call.operation, call.Digest(), Complete, Some(run.currentState), run.currentState, None, None,
        call.actor, call.evidence));
      completions := completions - {c};
      assert Snapshot() == CompletionCommitted(s, c);
      return Success(runs[call.work]);
    }

    /** The work item as the kernel shows it to the call. */
    method ReadWork(c: nat)
      requires Valid() && CanRead(Snapshot(), c)
      modifies `completions
      ensures Valid() && Snapshot() == WorkRead(old(Snapshot()), c)
    {
      hide Inv;
      ReadKeeps(Snapshot(), c);
      var call := completions[c];
      var work := works[call.work];
      completions := completions[c := call.(stage := if call.stage == Began then Read(work) else Reread(work))];
    }

    /** The kernel's part of a completion: read the work item and, if it is active, try to complete it and read again. */
    method AskKernel(c: nat, blocked: bool)
      requires Valid() && CanRead(Snapshot(), c) && completions[c].stage == Began
      modifies `works, `completions
      ensures Valid() && c in completions && completions[c] == old(completions[c]).(stage := completions[c].stage)
      ensures completions[c].stage.Reread? || (completions[c].stage.Read? && completions[c].stage.seen.status != WorkActive)
    {
      hide Inv, AfterAttempt;
      ReadWork(c);
      if completions[c].stage.seen.status == WorkActive {
        TryWork(c, blocked);
        ReadWork(c);
      }
    }

    /** A completion call that no other call interrupts: on success the operation is in the journal under this very
        request; otherwise nothing is journalled. */
    method CompleteRun(c: nat, work: Id, expected: nat, actor: Id, operation: Id, evidence: Fields, blocked: bool)
      returns (result: Result<Run, Fault>)
      requires Valid() && c !in completions && evidence != map[]
      modifies `runs, `journal, `works, `completions
      ensures Valid()
      ensures result.Success? ==> ReplayOf(journal, operation, CompleteRequest(work, expected, actor, evidence)).Recorded?
      ensures result.Failure? ==> journal == old(journal)
      ensures old(journal) <= journal && |journal| <= |old(journal)| + 1
      ensures MovesOnly(old(runs), runs, work)
      ensures journal != old(journal) ==> work in runs && result == Success(runs[work]) && runs[work].status == Completed
    {
      hide Inv, CanOpenCompletion, CanResumeCompletion, ReplayOf, AllDischarged;
      var begun := BeginCompletion(c, work, expected, actor, operation, evidence);
      CompletionMoves(old(Snapshot()), c, CompleteCall(work, expected, actor, operation, evidence, Began), Snapshot(), begun);
      if begun.Failure? {
        return Failure(begun.error);
      }
      if begun.value.Some? {
        return Success(begun.value.value);
      }
      HeldWork(old(Snapshot()), c, CompleteCall(work, expected, actor, operation, evidence, Began), Snapshot());
      AskKernel(c, blocked);
      ghost var t := Snapshot();
      result := CommitCompletion(c);
      CompletionRecords(t, c, Snapshot(), result);
    }

    // ---- Governance ----

    /** Marks a pending obligation satisfied, exactly once. */
    method Satisfy(key: ObligationKey) returns (result: Result<Obligation, Fault>)
      modifies `obligations
      ensures result.Success? <==> key in old(obligations) && old(obligations)[key].status == Pending
      ensures obligations == if result.Success? then old(obligations)[key := old(obligations)[key].(status := Satisfied)]
                             else old(obligations)
    {
      if key !in obligations || obligations[key].status != Pending {
        return Failure(Conflict);
      }
      obligations := obligations[key := obligations[key].(status := Satisfied)];
      return Success(obligations[key]);
    }

    /** The obligation of the current visit, open to evidence only while its run is active. */
    method Current(work: Id, kind: Kind, id: Id) returns (result: Result<ObligationKey, Fault>)
      ensures result.Success? <==> IsCurrent(Snapshot(), work, kind, id)
      ensures result.Success? ==> work in runs && result.value == CurrentKey(Snapshot(), work, kind, id) && result.value in obligations
    {
      if work !in runs {
        return Failure(NotFound);
      }
      if runs[work].status != Active {
        return Failure(Conflict);
      }
      var key := ObligationKey(work, runs[work].currentState, runs[work].version, kind, id);
      return if key in obligations then Success(key) else Failure(NotFound);
    }

    method VerifyArtifact(work: Id, path: string, metadata: Metadata, actor: Id, recordId: Id)
      returns (result: Result<Record, Fault>)
      requires Valid()
      modifies `obligations, `records
      ensures Valid()
      ensures VerifyAnswers(old(Snapshot()), work, path, metadata, actor, recordId, Snapshot(), result)
    {
      hide Inv, MaterializePath;
      ghost var s := Snapshot();
      var request := VerifyRequest(work, path, actor);
      if recordId in records {
        return if records[recordId].request == request then Success(records[recordId]) else Failure(Conflict);
      }
      if metadata.isFolder {
        return Failure(Conflict);
      }
      var key :- Current(work, Artifact, "artifact");
      var obligation := obligations[key];
      if obligation.role != actor {
        return Failure(Conflict);
      }
      if "path" !in obligation.payload || !obligation.payload["path"].Str? {
        return Failure(Conflict);
      }
      if path != MaterializePath(obligation.payload["path"].s, project, work) || metadata.path != path {
        return Failure(Conflict);
      }
      var satisfied := Satisfy(key);
      if satisfied.Failure? {
        return Failure(Conflict);
      }
      records := records[recordId := Record(
        request, key, Verified, actor, "",
        map["document" := Obj(map["path" := Str(metadata.path), "etag" := Str(metadata.etag), "size" := Num(metadata.size)])],
        Some(Document(path, metadata.etag)))];
      VerifyKeeps(s, work, path, metadata, actor, recordId);
      assert Snapshot() == VerifiedArtifact(s, work, path, metadata, actor, recordId);
      return Success(records[recordId]);
    }

    /** Whether the actor may answer a consult of the current visit, or excuse it. */
    method MayConsult(work: Id, key: ObligationKey, decision: Decision, actor: Id) returns (may: bool)
      requires work in runs && key in obligations && decision in {Responded, Exception}
      ensures may == if decision == Responded then obligations[key].status == Dispatched && obligations[key].role == actor
                     else actor in {runs[work].owner, runs[work].flow.leaderRole}
    {
      if decision == Responded {
        return obligations[key].status == Dispatched && obligations[key].role == actor;
      }
      return actor in {runs[work].owner, runs[work].flow.leaderRole};
    }

    method RecordConsultation(
      work: Id, id: Id, decision: Decision, actor: Id, recordId: Id, reason: string, evidence: Fields
    ) returns (result: Result<Record, Fault>)
      requires Valid()
      modifies `records
      ensures Valid()
      ensures ConsultAnswers(old(Snapshot()), work, id, decision, actor, recordId, reason, evidence, Snapshot(), result)
    {
      hide Inv, IsCurrent;
      var request := ConsultationRequest(work, id, decision, actor, reason, evidence);
      if decision !in {Responded, Exception} || (decision == Exception && reason == "") {
        return Failure(Conflict);
      }
      if recordId in records {
        return if records[recordId].request == request then Success(records[recordId]) else Failure(Conflict);
      }
      result := StoreConsultation(work, id, decision, actor, recordId, reason, evidence);
    }

    method StoreConsultation(
      work: Id, id: Id, decision: Decision, actor: Id, recordId: Id, reason: string, evidence: Fields
    ) returns (result: Result<Record, Fault>)
      requires Valid() && recordId !in records
      requires decision in {Responded, Exception} && (decision == Exception ==> reason != "")
      modifies `records
      ensures Valid()
      ensures ConsultAnswers(old(Snapshot()), work, id, decision, actor, recordId, reason, evidence, Snapshot(), result)
    {
      hide Inv, IsCurrent, Consulted;
      var key :- Current(work, Consult, id);
      var may := MayConsult(work, key, decision, actor);
      if !may {
        return Failure(Conflict);
      }
      InsertConsultation(work, id, decision, actor, recordId, reason, evidence);
      return Success(records[recordId]);
    }

    method InsertConsultation(
      work: Id, id: Id, decision: Decision, actor: Id, recordId: Id, reason: string, evidence: Fields
    )
      requires Valid() && CanConsult(Snapshot(), work, id, decision, actor, recordId, reason, evidence)
      modifies `records
      ensures Valid() && Snapshot() == Consulted(old(Snapshot()), work, id, decision, actor, recordId, reason, evidence)
      ensures recordId in records
    {
      hide Inv;
      ConsultKeeps(Snapshot(), work, id, decision, actor, recordId, reason, evidence);
      records := records[recordId := Record(
        ConsultationRequest(work, id, decision, actor, reason, evidence),
        ObligationKey(work, runs[work].currentState, runs[work].version, Consult, id), decision, actor, reason, evidence, None)];
    }

    /** Stores a gate decision; all but a rejection also satisfy the gate. */
    method StoreDecision(
      work: Id, id: Id, decision: Decision, actor: Id, recordId: Id, reason: string, evidence: Fields,
      impact: Option<string>, reviewed: Document
    )
      requires Valid() && CanDecide(Snapshot(), work, id, decision, actor, recordId, reason, evidence, impact, reviewed)
      modifies `obligations, `records, `impacts
      ensures Valid()
      ensures Snapshot() == Decided(old(Snapshot()), work, id, decision, actor, recordId, reason, evidence, impact, reviewed)
      ensures recordId in records
    {
      hide Inv, CanDecide, Decided;
      DecideKeeps(Snapshot(), work, id, decision, actor, recordId, reason, evidence, impact, reviewed);
      DecidedTables(Snapshot(), work, id, decision, actor, recordId, reason, evidence, impact, reviewed);
      var key := ObligationKey(work, runs[work].currentState, runs[work].version, Gate, id);
      records := records[recordId := Record(
        GateRequest(work, id, decision, actor, reason, evidence, impact, reviewed),
        key, decision, actor, reason, evidence + ReviewEvidence(reviewed), None)];
      if decision != Rejected {
        var satisfied := Satisfy(key);
      }
      if decision == Approved && impact.Some? {
        impacts := impacts[work := impact.value];
      }
    }

    method DecideGate(
      work: Id, id: Id, decision: Decision, actor: Id, recordId: Id, reason: string, evidence: Fields,
      impact: Option<string>, reviewed: Document
    ) returns (result: Result<Record, Fault>)
      requires Valid()
      modifies `obligations, `records, `impacts
      ensures Valid()
      ensures DecideAnswers(old(Snapshot()), work, id, decision, actor, recordId, reason, evidence, impact, reviewed, Snapshot(), result)
    {
      hide Inv, Decided, GateTakes, ArtifactVerified, IsCurrent;
      var request := GateRequest(work, id, decision, actor, reason, evidence, impact, reviewed);
      if decision !in {Approved, Rejected, Exception} || (decision == Exception && reason == "") {
        return Failure(Conflict);
      }
      if impact.Some? && impact.value !in IMPACTS {
        return Failure(Conflict);
      }
      if recordId in records {
        return if records[recordId].request == request then Success(records[recordId]) else Failure(Conflict);
      }
      result := TakeDecision(work, id, decision, actor, recordId, reason, evidence, impact, reviewed);
    }

    method TakeDecision(
      work: Id, id: Id, decision: Decision, actor: Id, recordId: Id, reason: string, evidence: Fields,
      impact: Option<string>, reviewed: Document
    ) returns (result: Result<Record, Fault>)
      requires Valid() && recordId !in records && (impact.Some? ==> impact.value in IMPACTS)
      requires decision in {Approved, Rejected, Exception} && (decision == Exception ==> reason != "")
      modifies `obligations, `records, `impacts
      ensures Valid()
      ensures DecideAnswers(old(Snapshot()), work, id, decision, actor, recordId, reason, evidence, impact, reviewed, Snapshot(), result)
    {
      hide Inv, Decided, GateTakes, ArtifactVerified, IsCurrent;
      var key :- Current(work, Gate, id);
      var obligation := obligations[key];
      if obligation.role != actor {
        return Failure(Conflict);
      }
      var verified := IsVerified(work, reviewed);
      if !verified {
        return Failure(Conflict);
      }
      if !GateTakes(obligation.payload, decision, impact) {
        return Failure(Conflict);
      }
      if decision != Rejected && obligation.status != Pending {
        return Failure(Conflict);
      }
      StoreDecision(work, id, decision, actor, recordId, reason, evidence, impact, reviewed);
      return Success(records[recordId]);
    }

    /** Whether the current visit's artifact is verified as this document. */
    method IsVerified(work: Id, document: Document) returns (verified: bool)
      requires work in runs
      ensures verified == ArtifactVerified(Snapshot(), work, document)
    {
      var key := ObligationKey(work, runs[work].currentState, runs[work].version, Artifact, "artifact");
      return key in obligations && obligations[key].status == Satisfied
        && exists id | id in records ::
             records[id].key == key && records[id].decision == Verified && records[id].document == Some(document);
    }

    // ---- Handoffs ----

    /** Makes a handoff, or finds the same one. */
    method Offer(draft: HandoffOffer, at: nat, later: nat) returns (result: Result<Handoff, Fault>)
      requires Valid() && now <= at <= later
      modifies `now, `items, `handoffs
      ensures Valid()
      ensures OfferAnswers(old(Snapshot()), draft, at, later, Snapshot(), result)
    {
      hide Inv, HandoffDraft, Routed, NewOffer, HandoffFor;
      ghost var s := Snapshot();
      if draft.lease !in leases {
        return Failure(Unauthorized);
      }
      var lease := leases[draft.lease];
      if lease.token != draft.token || lease.item !in items || lease.owner !in instances {
        return Failure(Unauthorized);
      }
      if draft.key in handoffs {
        if handoffs[draft.key].fingerprint != Fingerprint(
             lease.item, draft.lease, lease.owner, instances[lease.owner].role, draft.targetRole, draft.capability,
             draft.summary, draft.payload, draft.priority) {
          return Failure(Conflict);
        }
        OfferKeeps(s, draft, at, later);
        now := later;
        return Success(handoffs[draft.key]);
      }
      if items[lease.item].status != Leased || !instances[lease.owner].running || lease.released || lease.expiresAt <= at {
        return Failure(Unauthorized);
      }
      result := MakeOffer(draft, at, later);
    }

    /** Routes a new handoff to its target's queue, unless the key already names other work. */
    method MakeOffer(draft: HandoffOffer, at: nat, later: nat) returns (result: Result<Handoff, Fault>)
      requires Valid() && now <= at <= later && SourceLease(Snapshot(), draft) && draft.key !in handoffs
      requires items[leases[draft.lease].item].status == Leased && instances[leases[draft.lease].owner].running
      requires !leases[draft.lease].released && at < leases[draft.lease].expiresAt
      modifies `now, `items, `handoffs
      ensures Valid()
      ensures OfferAnswers(old(Snapshot()), draft, at, later, Snapshot(), result)
    {
      hide Inv, NewOffer, HandoffDraft, Routable;
      if draft.key in items && items[draft.key].createdAt < at {
        return Failure(Conflict);
      }
      var routeDraft := DraftFor(draft);
      var routable := MayRoute(draft.key, routeDraft);
      if !routable {
        return Failure(Conflict);
      }
      InsertHandoff(draft, routeDraft, at, later);
      return Success(handoffs[draft.key]);
    }

    method DraftFor(draft: HandoffOffer) returns (routeDraft: RouteDraft)
      requires SourceLease(Snapshot(), draft)
      ensures routeDraft == HandoffDraft(Snapshot(), draft)
    {
      var lease := leases[draft.lease];
      return RouteDraft(items[lease.item].draft.work, draft.targetRole, draft.capability, Obj(map[
        "handoff" := Obj(map[
          "handoff_id" := Str(draft.key),
          "source_role_id" := Str(instances[lease.owner].role),
          "source_instance_id" := Str(lease.owner),
          "summary" := Str(draft.summary)]),
        "payload" := draft.payload]), draft.priority);
    }

    method InsertHandoff(draft: HandoffOffer, routeDraft: RouteDraft, at: nat, later: nat)
      requires Valid() && CanOffer(Snapshot(), draft, at, later) && draft.key !in handoffs
      requires routeDraft == HandoffDraft(Snapshot(), draft)
      modifies `now, `items, `handoffs
      ensures Valid() && Snapshot() == NewOffer(old(Snapshot()), draft, at, later) && draft.key in handoffs
    {
      hide Inv, CanOffer, HandoffDraft, Routable, NewOffer;
      ghost var s := Snapshot();
      OfferOfNew(s, draft, at, later);
      OfferKeeps(s, draft, at, later);
      OfferRoutable(s, draft, at, later);
      var routed := Route(draft.key, routeDraft, later);
      StoreHandoff(s, draft, at, later, routed.value.createdAt);
    }

    method StoreHandoff(ghost s: System, draft: HandoffOffer, at: nat, later: nat, queuedAt: nat)
      requires CanOffer(s, draft, at, later) && draft.key !in s.handoffs && SourceLease(s, draft)
      requires Snapshot() == s.(items := Routed(s.items, draft.key, HandoffDraft(s, draft), later))
      requires draft.key in items && queuedAt == items[draft.key].createdAt
      modifies `now, `handoffs
      ensures Snapshot() == NewOffer(s, draft, at, later) && draft.key in handoffs
    {
      hide Inv, CanOffer, HandoffDraft;
      QueuedAt(s, draft, at, later);
      var lease := leases[draft.lease];
      handoffs := handoffs[draft.key := Handoff(
        items[lease.item].draft.work,
        Fingerprint(lease.item, draft.lease, lease.owner, instances[lease.owner].role, draft.targetRole, draft.capability,
                    draft.summary, draft.payload, draft.priority),
        draft.targetRole, draft.key, Offered, None, None, at, queuedAt, None, None)];
      now := later;
    }

    method Claim(h: Id, lease: Id, token: string, at: nat) returns (result: Result<Handoff, Fault>)
      requires Valid() && now <= at
      modifies `now, `handoffs
      ensures Valid()
      ensures ClaimAnswers(old(Snapshot()), h, lease, token, at, Snapshot(), result)
    {
      hide Inv, ClaimMade;
      if h !in handoffs {
        return Failure(NotFound);
      }
      var handoff := handoffs[h];
      if handoff.status == Accepted {
        if handoff.targetLease != Some(lease) || lease !in leases || leases[lease].token != token
           || leases[lease].item != handoff.item {
          return Failure(Unauthorized);
        }
        return Success(handoff);
      }
      var active := IsTargetLease(h, lease, token, at);
      if !active {
        return Failure(Unauthorized);
      }
      if handoff.status == Claimed && handoff.targetLease != Some(lease) {
        if handoff.targetLease.Some? && handoff.targetLease.value in leases
           && !leases[handoff.targetLease.value].released && at < leases[handoff.targetLease.value].expiresAt {
          return Failure(Conflict);
        }
      }
      if handoff.status == Offered || handoff.targetLease != Some(lease) {
        StoreClaim(h, lease, token, at);
      }
      return Success(handoffs[h]);
    }

    method StoreClaim(h: Id, lease: Id, token: string, at: nat)
      requires Valid() && CanClaim(Snapshot(), h, lease, token, at)
      modifies `now, `handoffs
      ensures Valid() && Snapshot() == ClaimMade(old(Snapshot()), h, lease, token, at) && h in handoffs
    {
      hide Inv;
      ClaimKeeps(Snapshot(), h, lease, token, at);
      now, handoffs := at, handoffs[h := handoffs[h].(
        status := Claimed, targetInstance := Some(leases[lease].owner), targetLease := Some(lease),
        claimedAt := Some(at), acceptedAt := None)];
    }

    method IsTargetLease(h: Id, lease: Id, token: string, at: nat) returns (active: bool)
      requires h in handoffs
      ensures active == TargetLease(Snapshot(), h, lease, token, at)
    {
      return lease in leases && !leases[lease].released && at < leases[lease].expiresAt
        && leases[lease].token == token && leases[lease].item == handoffs[h].item
        && leases[lease].owner in instances && instances[leases[lease].owner] == Instance(handoffs[h].targetRole, true);
    }

    method Accept(h: Id, lease: Id, token: string, at: nat) returns (result: Result<Handoff, Fault>)
      requires Valid() && now <= at
      modifies `now, `handoffs
      ensures Valid()
      ensures AcceptAnswers(old(Snapshot()), h, lease, token, at, Snapshot(), result)
    {
      hide Inv, TargetLease;
      ghost var s := Snapshot();
      if h !in handoffs {
        return Failure(NotFound);
      }
      var handoff := handoffs[h];
      if handoff.status == Offered {
        return Failure(Conflict);
      }
      if handoff.targetLease != Some(lease) {
        return Failure(Unauthorized);
      }
      if handoff.status == Accepted {
        if lease !in leases || leases[lease].token != token || leases[lease].item != handoff.item {
          return Failure(Unauthorized);
        }
        return Success(handoff);
      }
      var active := IsTargetLease(h, lease, token, at);
      if !active {
        return Failure(Unauthorized);
      }
      AcceptKeeps(s, h, lease, token, at);
      now, handoffs := at, handoffs[h := handoff.(status := Accepted, acceptedAt := Some(at))];
      assert Snapshot() == AcceptMade(s, h, lease, token, at);
      return Success(handoffs[h]);
    }
  }

  /** The run a replayed operation answers with exists. */
  lemma ReplayedRun(s: System, operation: Id, request: Request, work: Id)
    requires Inv(s) && ReplayOf(s.journal, operation, request) == Recorded(work)
    ensures work in s.runs
  {
    hide RunOk, FlowsOk, PendingOk, ObligationsOk, RecordsOk, PreparesOk, CompletionsOk, WorksOk, RowHandoffsOk, HandoffsOk;
    FindExact(s.journal, operation);
  }

  ghost predicate StartAnswers(
    s: System, work: Id, flow: Flow, fields: Fields, actor: Id, operation: Id, s': System, result: Result<Run, Fault>
  ) {
    var replay := ReplayOf(s.journal, operation, StartRequest(flow, fields, actor));
    match StartAnswer(s, work, flow, fields, actor, operation)
    case Some(answered) =>
      && s' == (if replay.Fresh? then Started(s, work, flow, fields, actor, operation) else s)
      && answered in s'.runs && result == Success(s'.runs[answered])
    case None => s' == s && result == Failure(if replay.Clash? || work in s.works then Conflict else NotFound)
  }

  ghost predicate BeginAnswers(
    s: System, c: nat, work: Id, outcome: Id, fields: Fields, expected: nat, actor: Id, operation: Id, lease: Id,
    token: string, s': System, result: Result<Option<Run>, Fault>
  ) {
    match ReplayOf(s.journal, operation, PrepareRequest(work, outcome, fields, expected, actor))
    case Recorded(recorded) => s' == s && recorded in s.runs && result == Success(Some(s.runs[recorded]))
    case Clash => s' == s && result == Failure(Conflict)
    case Fresh =>
      if result.Success? then
        && result.value.None? && c in s'.prepares
        && var call := s'.prepares[c];
        && call == PrepareCall(work, outcome, fields, expected, actor, operation, lease, token, call.route, None)
        && ((CanOpen(s, call) && s' == Opened(s, c, call)) || (CanResume(s, call) && s' == Resumed(s, c, call)))
      else
        && s' == s
        && forall route ::
             var call := PrepareCall(work, outcome, fields, expected, actor, operation, lease, token, route, None);
             !CanOpen(s, call) && !CanResume(s, call)
  }

  ghost predicate CommitAnswers(s: System, c: nat, s': System, result: Result<Run, Fault>)
    requires c in s.prepares
  {
    if CanCommit(s, c) then s' == Committed(s, c) && result == Success(s'.runs[s.prepares[c].work])
    else
      && s' == s
      && match ReplayOf(s.journal, s.prepares[c].operation, s.prepares[c].Digest())
         case Recorded(work) => s.prepares[c].work in s.runs ==> work in s.runs && result == Success(s.runs[work])
         case _ => result.Failure?
  }

  /** No other run changes. */
  ghost predicate MovesOnly(runs: Runs, runs': Runs, work: Id) {
    forall w | w in runs && w != work :: w in runs' && runs'[w] == runs[w]
  }

  lemma BeginMoves(
    s: System, c: nat, work: Id, outcome: Id, fields: Fields, expected: nat, actor: Id, operation: Id, lease: Id,
    token: string, s': System, result: Result<Option<Run>, Fault>
  )
    requires BeginAnswers(s, c, work, outcome, fields, expected, actor, operation, lease, token, s', result)
    ensures MovesOnly(s.runs, s'.runs, work) && s'.journal == s.journal
  {
    hide ReplayOf, CanOpen, CanResume, Opened, Resumed, MovesOnly;
    StandsStill(s.runs, work);
    if ReplayOf(s.journal, operation, PrepareRequest(work, outcome, fields, expected, actor)).Fresh? && result.Success? {
      OpenMoves(s, c, s'.prepares[c]);
    }
  }

  lemma StandsStill(runs: Runs, work: Id)
    ensures MovesOnly(runs, runs, work)
  {}

  lemma OpenMoves(s: System, c: nat, call: PrepareCall)
    ensures CanOpen(s, call) ==> MovesOnly(s.runs, Opened(s, c, call).runs, call.work) && Opened(s, c, call).journal == s.journal
    ensures Resumed(s, c, call).runs == s.runs && Resumed(s, c, call).journal == s.journal
  {
    hide ReplayOf, FlowState.SelectRoute, AllDischarged, MergedFields;
  }

  lemma OpenCompletionMoves(s: System, c: nat, call: CompleteCall)
    ensures CanOpenCompletion(s, call) ==>
              MovesOnly(s.runs, CompletionOpened(s, c, call).runs, call.work) && CompletionOpened(s, c, call).journal == s.journal
    ensures CompletionResumed(s, c, call).runs == s.runs && CompletionResumed(s, c, call).journal == s.journal
  {
    hide ReplayOf, AllDischarged;
  }

  lemma CompletionMoves(s: System, c: nat, call: CompleteCall, s': System, result: Result<Option<Run>, Fault>)
    requires CompletionAnswers(s, c, call, s', result)
    ensures MovesOnly(s.runs, s'.runs, call.work) && s'.journal == s.journal
  {
    hide ReplayOf, CanOpenCompletion, CanResumeCompletion, CompletionOpened, CompletionResumed, MovesOnly;
    StandsStill(s.runs, call.work);
    OpenCompletionMoves(s, c, call);
  }

  lemma CommitRecords(s: System, c: nat, s': System, result: Result<Run, Fault>)
    requires c in s.prepares && CommitAnswers(s, c, s', result)
    ensures s.journal <= s'.journal && |s'.journal| <= |s.journal| + 1
    ensures result.Failure? ==> s'.journal == s.journal
    ensures result.Success? && s.prepares[c].work in s.runs ==>
              ReplayOf(s'.journal, s.prepares[c].operation, s.prepares[c].Digest()).Recorded?
    ensures MovesOnly(s.runs, s'.runs, s.prepares[c].work)
    ensures s'.journal != s.journal ==>
              var work := s.prepares[c].work;
              work in s'.runs && result == Success(s'.runs[work]) && s'.runs[work].status == HandoffPending
  {
    hide MaxSequence;
    if CanCommit(s, c) {
      assert s'.journal[..|s.journal|] == s.journal;
    }
  }

  ghost predicate PickupAnswers(
    s: System, work: Id, expected: nat, actor: Id, operation: Id, s': System, result: Result<Run, Fault>
  ) {
    match ReplayOf(s.journal, operation, PickupRequest(work, expected, actor))
    case Recorded(recorded) => s' == s && recorded in s.runs && result == Success(s.runs[recorded])
    case Clash => s' == s && result == Failure(Conflict)
    case Fresh =>
      if CanPickup(s, work, expected, actor, operation)
      then s' == PickedUp(s, work, expected, actor, operation) && result == Success(s'.runs[work])
      else s' == s && result == Failure(if work in s.runs then Conflict else NotFound)
  }

  ghost predicate CompletionAnswers(s: System, c: nat, call: CompleteCall, s': System, result: Result<Option<Run>, Fault>) {
    match ReplayOf(s.journal, call.operation, call.Digest())
    case Recorded(recorded) => s' == s && recorded in s.runs && result == Success(Some(s.runs[recorded]))
    case Clash => s' == s && result == Failure(Conflict)
    case Fresh =>
      if CanOpenCompletion(s, call) then s' == CompletionOpened(s, c, call) && result == Success(None)
      else if CanResumeCompletion(s, call) then s' == CompletionResumed(s, c, call) && result == Success(None)
      else s' == s && result == Failure(if call.work in s.runs then Conflict else NotFound)
  }

  ghost predicate CommitCompletionAnswers(s: System, c: nat, s': System, result: Result<Run, Fault>)
    requires c in s.completions
  {
    if CanCommitCompletion(s, c) then s' == CompletionCommitted(s, c) && result == Success(s'.runs[s.completions[c].work])
    else
      && s' == s
      && (result.Success? ==> exists work :: ReplayOf(s.journal, s.completions[c].operation, s.completions[c].Digest()) == Recorded(work)
                                             && work in s.runs && result.value == s.runs[work])
  }

  lemma CompletionRecords(s: System, c: nat, s': System, result: Result<Run, Fault>)
    requires c in s.completions && CommitCompletionAnswers(s, c, s', result)
    ensures s.journal <= s'.journal && |s'.journal| <= |s.journal| + 1
    ensures result.Failure? ==> s'.journal == s.journal
    ensures result.Success? ==> ReplayOf(s'.journal, s.completions[c].operation, s.completions[c].Digest()).Recorded?
    ensures MovesOnly(s.runs, s'.runs, s.completions[c].work)
    ensures s'.journal != s.journal ==>
              var work := s.completions[c].work;
              work in s'.runs && result == Success(s'.runs[work]) && s'.runs[work].status == Completed
  {
    hide MaxSequence;
    if CanCommitCompletion(s, c) {
      assert s'.journal[..|s.journal|] == s.journal;
    }
  }

  /** A run held for completion has a work item to complete. */
  lemma HeldWork(s: System, c: nat, call: CompleteCall, s': System)
    requires Inv(s)
    requires (CanOpenCompletion(s, call) && s' == CompletionOpened(s, c, call))
             || (CanResumeCompletion(s, call) && s' == CompletionResumed(s, c, call))
    ensures call.work in s'.works && s'.completions == s.completions[c := call] && s'.journal == s.journal
  {
    hide Inv, ReplayOf, AllDischarged;
    OwnerWorks(s, call.work);
  }

  /** A record already stored under the id answers for the same request and refuses another. */
  ghost predicate Replays(s: System, recordId: Id, request: GovernanceRequest, s': System, result: Result<Record, Fault>) {
    recordId in s.records && s' == s
    && result == if s.records[recordId].request == request then Success(s.records[recordId]) else Failure(Conflict)
  }

  ghost predicate VerifyAnswers(
    s: System, work: Id, path: string, metadata: Metadata, actor: Id, recordId: Id, s': System, result: Result<Record, Fault>
  ) {
    if CanVerify(s, work, path, metadata, actor, recordId)
    then s' == VerifiedArtifact(s, work, path, metadata, actor, recordId) && result == Success(s'.records[recordId])
    else if recordId in s.records then Replays(s, recordId, VerifyRequest(work, path, actor), s', result)
    else s' == s && result.Failure?
  }

  ghost predicate ConsultAnswers(
    s: System, work: Id, id: Id, decision: Decision, actor: Id, recordId: Id, reason: string, evidence: Fields,
    s': System, result: Result<Record, Fault>
  ) {
    if CanConsult(s, work, id, decision, actor, recordId, reason, evidence)
    then s' == Consulted(s, work, id, decision, actor, recordId, reason, evidence) && result == Success(s'.records[recordId])
    else if recordId in s.records && decision in {Responded, Exception} && (decision == Exception ==> reason != "")
    then Replays(s, recordId, ConsultationRequest(work, id, decision, actor, reason, evidence), s', result)
    else s' == s && result.Failure?
  }

  lemma DecidedTables(
    s: System, work: Id, id: Id, decision: Decision, actor: Id, recordId: Id, reason: string, evidence: Fields,
    impact: Option<string>, reviewed: Document
  )
    requires CanDecide(s, work, id, decision, actor, recordId, reason, evidence, impact, reviewed)
    ensures work in s.runs && CurrentKey(s, work, Gate, id) in s.obligations
    ensures decision != Rejected ==> s.obligations[CurrentKey(s, work, Gate, id)].status == Pending
    ensures var key := CurrentKey(s, work, Gate, id);
      Decided(s, work, id, decision, actor, recordId, reason, evidence, impact, reviewed) == s.(
        records := s.records[recordId := Record(
          GateRequest(work, id, decision, actor, reason, evidence, impact, reviewed),
          key, decision, actor, reason, evidence + ReviewEvidence(reviewed), None)],
        obligations :=
          if decision == Rejected then s.obligations else s.obligations[key := s.obligations[key].(status := Satisfied)],
        impacts := if decision == Approved && impact.Some? then s.impacts[work := impact.value] else s.impacts)
  {
    hide ArtifactVerified, GateTakes, ReviewEvidence;
  }

  ghost predicate DecideAnswers(
    s: System, work: Id, id: Id, decision: Decision, actor: Id, recordId: Id, reason: string, evidence: Fields,
    impact: Option<string>, reviewed: Document, s': System, result: Result<Record, Fault>
  ) {
    if CanDecide(s, work, id, decision, actor, recordId, reason, evidence, impact, reviewed)
    then
      && s' == Decided(s, work, id, decision, actor, recordId, reason, evidence, impact, reviewed)
      && recordId in s'.records && result == Success(s'.records[recordId])
    else
      && s' == s
      && (result.Success? ==>
            Replays(s, recordId, GateRequest(work, id, decision, actor, reason, evidence, impact, reviewed), s', result))
  }

  ghost predicate OfferAnswers(s: System, draft: HandoffOffer, at: nat, later: nat, s': System, result: Result<Handoff, Fault>) {
    if CanOffer(s, draft, at, later)
    then s' == OfferMade(s, draft, at, later) && draft.key in s'.handoffs && result == Success(s'.handoffs[draft.key])
    else s' == s && result.Failure?
  }

  /** A claim is made, or the caller already holds the handoff, or it is refused. */
  ghost predicate ClaimAnswers(s: System, h: Id, lease: Id, token: string, at: nat, s': System, result: Result<Handoff, Fault>) {
    if CanClaim(s, h, lease, token, at) then s' == ClaimMade(s, h, lease, token, at) && result == Success(s'.handoffs[h])
    else
      && s' == s
      && (result.Success? <==> h in s.handoffs && s.handoffs[h].targetLease == Some(lease) && HoldsLease(s, h, lease, token, at))
      && (result.Success? ==> result.value == s.handoffs[h])
  }

  ghost predicate AcceptAnswers(s: System, h: Id, lease: Id, token: string, at: nat, s': System, result: Result<Handoff, Fault>) {
    if CanAccept(s, h, lease, token, at) then s' == AcceptMade(s, h, lease, token, at) && result == Success(s'.handoffs[h])
    else
      && s' == s
      && (result.Success? <==>
            && h in s.handoffs && s.handoffs[h].status == Accepted && s.handoffs[h].targetLease == Some(lease)
            && HoldsLease(s, h, lease, token, at))
      && (result.Success? ==> result.value == s.handoffs[h])
  }

  /** The lease the handoff was claimed under: live while it is claimed, of record once it is accepted. */
  ghost predicate HoldsLease(s: System, h: Id, lease: Id, token: string, at: nat)
    requires h in s.handoffs
  {
    match s.handoffs[h].status
    case Offered => false
    case Claimed => TargetLease(s, h, lease, token, at)
    case Accepted => lease in s.leases && s.leases[lease].token == token && s.leases[lease].item == s.handoffs[h].item
  }

  lemma QueuedAt(s: System, draft: HandoffOffer, at: nat, later: nat)
    requires CanOffer(s, draft, at, later) && draft.key !in s.handoffs
    ensures draft.key in Routed(s.items, draft.key, HandoffDraft(s, draft), later)
    ensures Routed(s.items, draft.key, HandoffDraft(s, draft), later)[draft.key].createdAt
            == HandoffFor(s, draft, at, later).queuedAt
  {
    hide CanOffer, HandoffDraft, FingerprintOf;
  }

  lemma OfferRoutable(s: System, draft: HandoffOffer, at: nat, later: nat)
    requires CanOffer(s, draft, at, later) && draft.key !in s.handoffs
    ensures SourceLease(s, draft) && Routable(s, draft.key, HandoffDraft(s, draft))
  {
    hide HandoffDraft;
  }

  lemma OfferOfNew(s: System, draft: HandoffOffer, at: nat, later: nat)
    requires CanOffer(s, draft, at, later) && draft.key !in s.handoffs
    ensures OfferMade(s, draft, at, later) == NewOffer(s, draft, at, later)
  {
    hide CanOffer, NewOffer;
  }
}
