/** What a dispatch or a handoff puts on a role's queue, and whose hands it is in. */
module FlowQueues {
  import opened Wrappers
  import opened Json
  import opened FlowDefinition
  import opened FlowTables
  import opened FlowInvariants
  import opened FlowSteps
  import opened FlowRuns
  import opened FlowJournal
  import opened FlowObligations
  import opened FlowSafety
  import opened FlowOffers
  import opened HandoffKeys

  // ---- Dispatched obligations ----

  predicate Carries(payload: Json, name: string, value: Json) {
    payload.Obj? && name in payload.fields && payload.fields[name] == value
  }

  /** A queue item of the accountable role's that carries the obligation's payload. */
  predicate QueuedFor(items: map<Id, Item>, key: ObligationKey, obligation: Obligation) {
    var at := DispatchKey(key.kind, key.work, key.entry, key.id);
    && at in items && items[at].draft.work == key.work && items[at].draft.targetRole == obligation.role
    && Carries(items[at].draft.payload, "flow_action", Obj(obligation.payload))
    && Carries(items[at].draft.payload, "state", Str(key.state))
  }

  ghost predicate DispatchedOk(items: map<Id, Item>, obligations: Obligations) {
    forall key | key in obligations && obligations[key].status == Dispatched :: QueuedFor(items, key, obligations[key])
  }

  // ---- Handoffs ----

  /** The handoff's queue item is of its own work, for its target role, and carries its payload; who has claimed it holds
      the claiming lease on that item. */
  ghost predicate HandoffQueued(s: System, h: Id)
    requires h in s.handoffs
  {
    var handoff := s.handoffs[h];
    && handoff.item in s.items && s.items[handoff.item].draft.work == handoff.work
    && s.items[handoff.item].draft.targetRole == handoff.targetRole
    && Carries(s.items[handoff.item].draft.payload, "payload", handoff.fingerprint.payload)
    && (handoff.status != Offered ==>
          && handoff.targetLease.Some? && handoff.targetLease.value in s.leases
          && s.leases[handoff.targetLease.value].item == handoff.item
          && handoff.targetInstance == Some(s.leases[handoff.targetLease.value].owner)
          && s.leases[handoff.targetLease.value].owner in s.instances
          && s.instances[s.leases[handoff.targetLease.value].owner].role == handoff.targetRole)
  }

  ghost predicate HandoffsQueued(s: System) {
    forall h | h in s.handoffs :: HandoffQueued(s, h)
  }

  // ---- Each step keeps both ----

  lemma DispatchQueues(s: System, work: Id, kind: Kind, id: Id, actor: Id)
    requires CanDispatch(s, work, kind, id, actor) && DispatchedOk(s.items, s.obligations)
    ensures var s' := DispatchedTo(s, work, kind, id, actor); DispatchedOk(s'.items, s'.obligations)
  {
    hide DispatchKey;
    var s' := DispatchedTo(s, work, kind, id, actor);
    var key := CurrentKey(s, work, kind, id);
    assert QueuedFor(s'.items, key, s'.obligations[key]);
    forall k | k in s'.obligations && k != key && s'.obligations[k].status == Dispatched ensures QueuedFor(s'.items, k, s'.obligations[k]) {
      assert QueuedFor(s.items, k, s.obligations[k]);
    }
  }

  ghost predicate NewlyDispatched(o: Obligations, o': Obligations) {
    exists key :: key in o' && o'[key].status == Dispatched && (key !in o || o[key].status != Dispatched)
  }

  lemma {:induction false} InsertedPending(o: Obligations, work: Id, state: Id, entry: nat, actions: seq<FlowAction>)
    ensures forall key | key in InsertObligations(o, work, state, entry, actions) ::
              (key in o && InsertObligations(o, work, state, entry, actions)[key] == o[key])
              || InsertObligations(o, work, state, entry, actions)[key].status == Pending
    decreases |actions|
  {
    if actions != [] {
      InsertedPending(o, work, state, entry, actions[..|actions| - 1]);
    }
  }

  lemma EngineDispatches(s: System, step: EngineStep, s': System)
    requires EngineTakes(s, step, s') && !step.DispatchAction?
    ensures !NewlyDispatched(s.obligations, s'.obligations)
  {
    hide AcceptedFlow, CanStart, CanDispatch, CanOpen, CanResume, CanCommit, CanPickup, CanOpenCompletion, CanResumeCompletion,
      CanRead, CanTry, CanCommitCompletion, CanOffer, TransitionKey, OfferMade, InsertObligations, Append, ReplayOf,
      TransitionPayload, AfterAttempt, FlowState.Obligations, DispatchDraft, Routed, MergedFields, Started, PickedUp;
    match step
    case OfferTransition(c, at, later) => OfferKeepsTables(s, TransitionOffer(s.prepares[c]), at, later);
    case StartRun(work, flow, fields, actor, operation) => StartDispatches(s, work, flow, fields, actor, operation);
    case PickupTransition(work, expected, actor, operation) => PickupDispatches(s, work, expected, actor, operation);
    case _ =>
  }

  lemma StartDispatches(s: System, work: Id, flow: Flow, fields: Fields, actor: Id, operation: Id)
    requires CanStart(s, work, flow, fields, actor, operation)
    ensures !NewlyDispatched(s.obligations, Started(s, work, flow, fields, actor, operation).obligations)
  {
    hide InsertObligations, Append, ReplayOf, FlowState.Obligations;
    var state := flow.states[flow.entryState];
    InsertedPending(s.obligations, work, state.stateId, 1, state.Obligations(fields));
  }

  lemma PickupDispatches(s: System, work: Id, expected: nat, actor: Id, operation: Id)
    requires CanPickup(s, work, expected, actor, operation)
    ensures !NewlyDispatched(s.obligations, PickedUp(s, work, expected, actor, operation).obligations)
  {
    hide InsertObligations, Append, ReplayOf, FlowState.Obligations;
    var run := s.runs[work];
    var target := run.flow.states[run.pendingTarget.value];
    InsertedPending(s.obligations, work, target.stateId, run.version + 1, target.Obligations(run.fields));
  }

  lemma GovernanceDispatches(s: System, step: GovernanceStep, s': System)
    requires GovernanceTakes(s, step, s')
    ensures !NewlyDispatched(s.obligations, s'.obligations)
  {
    hide CanVerify, CanConsult, CanDecide, CanSponsor, GateTakes, ArtifactVerified, MaterializePath;
  }

  /** Only a dispatch marks an obligation dispatched. */
  lemma OnlyDispatchDispatches(s: System, step: Step, s': System)
    requires Takes(s, step, s') && !(step.Engine? && step.engine.DispatchAction?)
    ensures !NewlyDispatched(s.obligations, s'.obligations)
  {
    hide EngineTakes, GovernanceTakes, HandoffTakes;
    match step
    case Engine(e) => EngineDispatches(s, e, s');
    case Governance(g) => GovernanceDispatches(s, g, s');
    case Handoffs(h) => HandoffKeepsRuns(s, h, s');
    case Elsewhere =>
  }

  lemma DispatchedStays(s: System, s': System)
    requires DispatchedOk(s.items, s.obligations) && StoresGrow(s, s') && RowsMove(s.runs, s.obligations, s'.obligations)
    requires !NewlyDispatched(s.obligations, s'.obligations)
    ensures DispatchedOk(s'.items, s'.obligations)
  {
    hide DispatchKey, Left;
    forall key | key in s'.obligations && s'.obligations[key].status == Dispatched
      ensures QueuedFor(s'.items, key, s'.obligations[key])
    {
      assert QueuedFor(s.items, key, s.obligations[key]);
      assert RowMoves(s.runs, s.obligations, s'.obligations, key);
    }
  }

  lemma StepDispatches(s: System, step: Step, s': System)
    requires Inv(s) && Takes(s, step, s') && DispatchedOk(s.items, s.obligations)
    ensures DispatchedOk(s'.items, s'.obligations)
  {
    hide Inv, Takes, EngineTakes, DispatchedOk, NewlyDispatched, StoresGrow, RowsMove, DispatchedTo, CanDispatch;
    if step.Engine? && step.engine.DispatchAction? {
      EngineOf(s, step, s');
      DispatchStep(s, step.engine, s');
      DispatchQueues(s, step.engine.work, step.engine.kind, step.engine.id, step.engine.actor);
    } else {
      OnlyDispatchDispatches(s, step, s');
      StepGrows(s, step, s');
      StepMovesRows(s, step, s');
      DispatchedStays(s, s');
    }
  }

  lemma DispatchStep(s: System, step: EngineStep, s': System)
    requires EngineTakes(s, step, s') && step.DispatchAction?
    ensures CanDispatch(s, step.work, step.kind, step.id, step.actor)
    ensures s' == DispatchedTo(s, step.work, step.kind, step.id, step.actor)
  {
    hide CanDispatch, DispatchedTo;
  }

  /** A row that stays, moves from one lease to the next, or is new. */
  lemma HandoffStays(s: System, s': System, h: Id)
    requires h in s.handoffs && HandoffQueued(s, h) && StoresGrow(s, s') && h in s'.handoffs && s'.handoffs[h] == s.handoffs[h]
    ensures HandoffQueued(s', h)
  {}

  lemma ClaimQueued(s: System, h: Id, lease: Id, token: string, at: nat)
    requires CanClaim(s, h, lease, token, at) && HandoffQueued(s, h)
    ensures HandoffQueued(ClaimMade(s, h, lease, token, at), h)
  {}

  lemma AcceptQueued(s: System, h: Id, lease: Id, token: string, at: nat)
    requires CanAccept(s, h, lease, token, at) && HandoffQueued(s, h)
    ensures HandoffQueued(AcceptMade(s, h, lease, token, at), h)
  {}

  lemma NewQueued(s: System, draft: HandoffOffer, at: nat, later: nat, s': System)
    requires CanOffer(s, draft, at, later) && draft.key !in s.handoffs
    requires s'.items == OfferMade(s, draft, at, later).items && s'.handoffs == OfferMade(s, draft, at, later).handoffs
    ensures draft.key in s'.handoffs && HandoffQueued(s', draft.key)
  {
    hide FingerprintOf;
    assert Carries(HandoffDraft(s, draft).payload, "payload", draft.payload);
    OfferPayload(s, draft);
  }

  lemma OfferPayload(s: System, draft: HandoffOffer)
    requires SourceLease(s, draft)
    ensures FingerprintOf(s, draft).payload == draft.payload
  {}

  /** A new handoff is one made by the offer of this step. */
  lemma NewOnesQueued(s: System, step: Step, s': System, h: Id)
    requires Takes(s, step, s') && h in s'.handoffs && h !in s.handoffs
    ensures HandoffQueued(s', h)
  {
    hide Takes, EngineTakes, HandoffTakes, HandoffQueued, CanOffer, OfferMade;
    match step
    case Engine(e) =>
      EngineOf(s, step, s');
      NewByEngine(s, e, s', h);
    case Handoffs(x) =>
      HandoffOf(s, step, s');
      NewByHandoff(s, x, s', h);
    case Governance(g) => GovernanceMakesNone(s, step, s', h);
    case Elsewhere => GovernanceMakesNone(s, step, s', h);
  }

  lemma HandoffOf(s: System, step: Step, s': System)
    requires Takes(s, step, s') && step.Handoffs?
    ensures HandoffTakes(s, step.handoff, s')
  {
    hide HandoffTakes;
  }

  lemma GovernanceMakesNone(s: System, step: Step, s': System, h: Id)
    requires Takes(s, step, s') && (step.Governance? || step.Elsewhere?)
    ensures s'.handoffs == s.handoffs
  {
    hide GovernanceTakes;
    if step.Governance? {
      GovernanceKeepsRuns(s, step.governance, s');
    }
  }

  lemma NewByOffer(s: System, d: HandoffOffer, at: nat, later: nat, s': System, h: Id)
    requires CanOffer(s, d, at, later) && h in s'.handoffs && h !in s.handoffs
    requires s'.items == OfferMade(s, d, at, later).items && s'.handoffs == OfferMade(s, d, at, later).handoffs
    ensures HandoffQueued(s', h)
  {
    hide HandoffQueued, CanOffer, OfferMade, HandoffFor, HandoffDraft, FingerprintOf;
    OfferTables(s, d, at, later);
    if d.key !in s.handoffs {
      NewQueued(s, d, at, later, s');
    }
  }

  lemma NewByEngine(s: System, step: EngineStep, s': System, h: Id)
    requires EngineTakes(s, step, s') && h in s'.handoffs && h !in s.handoffs
    ensures HandoffQueued(s', h)
  {
    hide HandoffQueued, EngineTakes, CanOffer, OfferMade, SameStores, CanDispatch, DispatchedTo, TransitionOffer;
    if step.OfferTransition? {
      OfferStep(s, step, s');
      NewByOffer(s, TransitionOffer(s.prepares[step.c]), step.at, step.later, s', h);
    } else if step.DispatchAction? {
      DispatchStep(s, step, s');
      DispatchMakesNone(s, step.work, step.kind, step.id, step.actor);
    } else {
      StoresOf(s, step, s');
    }
  }

  lemma DispatchMakesNone(s: System, work: Id, kind: Kind, id: Id, actor: Id)
    requires CanDispatch(s, work, kind, id, actor)
    ensures DispatchedTo(s, work, kind, id, actor).handoffs == s.handoffs
  {
    hide CanDispatch;
  }

  lemma StoresOf(s: System, step: EngineStep, s': System)
    requires EngineTakes(s, step, s') && !step.OfferTransition? && !step.DispatchAction?
    ensures s'.handoffs == s.handoffs
  {
    hide EngineTakes;
    if ChangesRuns(step) {
      RunStepKeepsStores(s, step, s');
    } else {
      CallStepKeepsStores(s, step, s');
    }
  }

  lemma NewByHandoff(s: System, step: HandoffStep, s': System, h: Id)
    requires HandoffTakes(s, step, s') && h in s'.handoffs && h !in s.handoffs
    ensures HandoffQueued(s', h)
  {
    hide HandoffQueued, CanOffer, OfferMade, TargetLease, LeaseLive;
    if step.OfferHandoff? {
      NewByOffer(s, step.draft, step.at, step.later, s', h);
    }
  }

  lemma StepQueues(s: System, step: Step, s': System)
    requires Takes(s, step, s') && HandoffsQueued(s)
    ensures HandoffsQueued(s')
  {
    hide Takes, HandoffQueued, StoresGrow, NewHandoffsMade, CanClaim, CanAccept, ClaimMade, AcceptMade;
    StepGrows(s, step, s');
    forall h | h in s'.handoffs ensures HandoffQueued(s', h) {
      if h !in s.handoffs {
        NewOnesQueued(s, step, s', h);
      } else {
        StepHandoff(s, step, s', h);
        if s'.handoffs[h] == s.handoffs[h] {
          HandoffStays(s, s', h);
        } else if step.handoff.ClaimHandoff? {
          ClaimQueued(s, h, step.handoff.lease, step.handoff.token, step.handoff.at);
        } else {
          AcceptQueued(s, h, step.handoff.lease, step.handoff.token, step.handoff.at);
        }
      }
    }
  }

  /** In every reachable state, what is dispatched is on its role's queue with its payload, and so is what is handed off;
      and whoever claims a handoff does so by a lease on that very item, as an instance of that very role. */
  lemma {:induction false} WorkIsQueued(trace: seq<System>, steps: seq<Step>, n: nat)
    requires IsRun(trace, steps) && n < |trace|
    ensures DispatchedOk(trace[n].items, trace[n].obligations) && HandoffsQueued(trace[n])
  {
    hide Takes, Inv, QueuedFor, HandoffQueued;
    if n > 0 {
      WorkIsQueued(trace, steps, n - 1);
      AlwaysInv(trace, steps, n - 1);
      hide DispatchedOk, HandoffsQueued;
      StepDispatches(trace[n - 1], steps[n - 1], trace[n]);
      StepQueues(trace[n - 1], steps[n - 1], trace[n]);
    }
  }

  /** No two dispatched obligations of one work item share a queue item. */
  lemma QueuedApart(trace: seq<System>, steps: seq<Step>, n: nat, a: ObligationKey, b: ObligationKey)
    requires IsRun(trace, steps) && n < |trace| && a in trace[n].obligations && b in trace[n].obligations && a != b
    requires trace[n].obligations[a].status == Dispatched && trace[n].obligations[b].status == Dispatched && a.work == b.work
    ensures DispatchKey(a.kind, a.work, a.entry, a.id) != DispatchKey(b.kind, b.work, b.entry, b.id)
  {
    hide IsRun, DispatchKey;
    WorkIsQueued(trace, steps, n);
    assert QueuedFor(trace[n].items, a, trace[n].obligations[a]) && QueuedFor(trace[n].items, b, trace[n].obligations[b]);
    if DispatchKey(a.kind, a.work, a.entry, a.id) == DispatchKey(b.kind, b.work, b.entry, b.id) {
      DispatchKeyReadsBack(a.kind, a.work, a.entry, a.id, b.kind, b.entry, b.id);
    }
  }

  /** What a prepared transition puts on the next owner's queue names the state it leads to and the route it takes. */
  lemma TransitionIsAnnounced(trace: seq<System>, steps: seq<Step>, n: nat, row: JournalRow) returns (flow: Json)
    requires IsRun(trace, steps) && n < |trace| && row in trace[n].journal && row.handoff.Some?
    ensures row.handoff.value in trace[n].handoffs && trace[n].handoffs[row.handoff.value].item in trace[n].items && row.route.Some?
    ensures row.work in trace[n].runs && row.to in trace[n].runs[row.work].flow.states
    ensures var item := trace[n].items[trace[n].handoffs[row.handoff.value].item];
      && item.draft.targetRole == trace[n].runs[row.work].flow.states[row.to].ownerRole
      && Carries(item.draft.payload, "payload", Obj(map["flow" := flow]))
      && Carries(flow, "target_state", Str(row.to)) && Carries(flow, "route_id", Str(row.route.value))
  {
    hide IsRun, Inv, RunsOk;
    AlwaysInv(trace, steps, n);
    WorkIsQueued(trace, steps, n);
    JournalOf(trace[n]);
    assert RowHandoffOk(trace[n].runs, trace[n].handoffs, row);
    assert HandoffQueued(trace[n], row.handoff.value);
    flow := Obj(map["target_state" := Str(row.to), "route_id" := Str(row.route.value)]);
  }
}
