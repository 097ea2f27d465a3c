/** Which transitions' handoffs can be offered: what a later offer under a key makes of the rows already there. */
module FlowOffers {
  import opened Wrappers
  import opened Json
  import opened FlowDefinition
  import opened FlowTables
  import opened FlowInvariants
  import opened FlowSteps
  import opened FlowRuns
  import opened FlowSafety

  // ---- Rows that later steps find as they were ----

  /** Leases, queue items, instances and handoffs keep what an offer compares. */
  ghost predicate StoresGrow(s: System, s': System) {
    && s.now <= s'.now
    && (forall l | l in s.leases :: l in s'.leases && s'.leases[l].item == s.leases[l].item && s'.leases[l].owner == s.leases[l].owner)
    && (forall i | i in s.items :: i in s'.items && s'.items[i].draft == s.items[i].draft && s'.items[i].createdAt == s.items[i].createdAt)
    && (forall i | i in s.instances :: i in s'.instances && s'.instances[i].role == s.instances[i].role)
    && (forall h | h in s.handoffs :: h in s'.handoffs && s'.handoffs[h].fingerprint == s.handoffs[h].fingerprint)
  }

  /** This step made the handoff, by an offer that could be made. */
  ghost predicate MadeBy(s: System, s': System, draft: HandoffOffer, at: nat, later: nat) {
    CanOffer(s, draft, at, later) && draft.key in s'.handoffs && s'.handoffs[draft.key].fingerprint == FingerprintOf(s, draft)
  }

  ghost predicate NewHandoffsMade(s: System, s': System) {
    forall h | h in s'.handoffs && h !in s.handoffs :: exists draft: HandoffOffer, at, later :: draft.key == h && MadeBy(s, s', draft, at, later)
  }

  lemma OfferTables(s: System, draft: HandoffOffer, at: nat, later: nat)
    requires CanOffer(s, draft, at, later)
    ensures s.now <= later && SourceLease(s, draft) && OfferMade(s, draft, at, later).now == later
    ensures draft.key in s.handoffs ==>
              s.handoffs[draft.key].fingerprint == FingerprintOf(s, draft) && OfferMade(s, draft, at, later) == s.(now := later)
    ensures draft.key !in s.handoffs ==>
              && HandoffFor(s, draft, at, later).fingerprint == FingerprintOf(s, draft)
              && OfferMade(s, draft, at, later) == s.(
                   now := later,
                   items := Routed(s.items, draft.key, HandoffDraft(s, draft), later),
                   handoffs := s.handoffs[draft.key := HandoffFor(s, draft, at, later)])
  {
    hide HandoffDraft, Routable, FingerprintOf, Routed;
  }

  lemma OfferGrows(s: System, draft: HandoffOffer, at: nat, later: nat, s': System)
    requires CanOffer(s, draft, at, later)
    requires var t := OfferMade(s, draft, at, later);
      && s'.now == t.now && s'.items == t.items && s'.handoffs == t.handoffs
      && s'.leases == s.leases && s'.instances == s.instances
    ensures StoresGrow(s, s') && NewHandoffsMade(s, s') && MadeBy(s, s', draft, at, later)
  {
    hide HandoffDraft, FingerprintOf, CanOffer, OfferMade, HandoffFor, SourceLease, NewHandoffsMade, StoresGrow, Routed, MadeBy;
    OfferTables(s, draft, at, later);
    OfferMakes(s, draft, at, later, s');
    if draft.key in s.handoffs {
      ClockGrows(s, s');
    } else {
      AddedGrows(s, s', draft.key, HandoffDraft(s, draft), HandoffFor(s, draft, at, later), later);
    }
    OnlyOneMade(s, s', draft, at, later);
  }

  lemma OfferMakes(s: System, draft: HandoffOffer, at: nat, later: nat, s': System)
    requires CanOffer(s, draft, at, later) && s'.handoffs == OfferMade(s, draft, at, later).handoffs
    ensures MadeBy(s, s', draft, at, later)
  {
    hide HandoffDraft, FingerprintOf, CanOffer, OfferMade, HandoffFor, SourceLease, Routed;
    OfferTables(s, draft, at, later);
  }

  lemma ClockGrows(s: System, s': System)
    requires s.now <= s'.now && SameStores(s.(now := s'.now), s')
    ensures StoresGrow(s, s')
  {}

  lemma AddedGrows(s: System, s': System, key: Id, draft: RouteDraft, handoff: Handoff, later: nat)
    requires s.now <= s'.now && key !in s.handoffs
    requires SameStores(s.(now := s'.now, items := Routed(s.items, key, draft, later), handoffs := s.handoffs[key := handoff]), s')
    ensures StoresGrow(s, s')
  {}

  lemma OnlyOneMade(s: System, s': System, draft: HandoffOffer, at: nat, later: nat)
    requires MadeBy(s, s', draft, at, later) && forall h | h in s'.handoffs && h !in s.handoffs :: h == draft.key
    ensures NewHandoffsMade(s, s')
  {
    hide MadeBy;
  }

  ghost predicate SameStores(s: System, s': System) {
    s'.now == s.now && s'.items == s.items && s'.handoffs == s.handoffs && s'.leases == s.leases && s'.instances == s.instances
  }

  lemma SameGrow(s: System, s': System)
    requires SameStores(s, s')
    ensures StoresGrow(s, s') && NewHandoffsMade(s, s')
  {}

  lemma DispatchGrows(s: System, work: Id, kind: Kind, id: Id, actor: Id)
    requires CanDispatch(s, work, kind, id, actor)
    ensures var s' := DispatchedTo(s, work, kind, id, actor);
      StoresGrow(s, s') && NewHandoffsMade(s, s') && s'.prepares == s.prepares
  {
    hide CanDispatch, DispatchDraft, DispatchKey, MadeBy;
  }

  /** A call in flight is as it was, or has no handoff. */
  ghost predicate CallsKept(s: System, s': System) {
    forall c | c in s'.prepares :: s'.prepares[c].handoff.None? || (c in s.prepares && s'.prepares[c] == s.prepares[c])
  }

  lemma RunStepKeepsStores(s: System, step: EngineStep, s': System)
    requires EngineTakes(s, step, s') && ChangesRuns(step)
    ensures SameStores(s, s') && CallsKept(s, s')
  {
    hide AcceptedFlow, CanStart, CanCommit, CanPickup, CanOpenCompletion, CanCommitCompletion, InsertObligations, Append, ReplayOf,
      AllDischarged, MergedFields, FlowState.SelectRoute, DispatchedTo, Resumed, OfferedFor, CompletionResumed, WorkRead,
      CompletionTried, CanDispatch, CanResume, CanOfferFor, CanResumeCompletion, CanRead, CanTry;
  }

  lemma CallStepKeepsStores(s: System, step: EngineStep, s': System)
    requires EngineTakes(s, step, s') && !ChangesRuns(step) && !step.OfferTransition? && !step.DispatchAction?
    ensures SameStores(s, s') && CallsKept(s, s')
  {
    hide CanResume, CanResumeCompletion, CanRead, CanTry, WorkRead, CompletionTried, SameStores, CallsKept, AcceptedFlow, CanStart,
      CanDispatch, CanOpen, CanOfferFor, CanCommit, CanPickup, CanOpenCompletion, CanCommitCompletion, Started, DispatchedTo, Opened,
      OfferedFor, Committed, PickedUp, CompletionOpened, CompletionCommitted;
    match step
    case ResumeTransition(c, call) => ResumeKeepsStores(s, c, call);
    case ResumeCompletion(c, call) => CallsUntouched(s, s');
    case ReadWork(c) => ReadKeepsStores(s, c);
    case TryWork(c, blocked) => TryKeepsStores(s, c, blocked);
    case Crash(c) =>
      if s' == s.(prepares := s.prepares - {c}) {
        CallDropped(s, c);
      } else {
        CallsUntouched(s, s');
      }
  }

  lemma CallsUntouched(s: System, s': System)
    requires s' == s.(completions := s'.completions)
    ensures SameStores(s, s') && CallsKept(s, s')
  {}

  lemma CallDropped(s: System, c: nat)
    ensures SameStores(s, s.(prepares := s.prepares - {c})) && CallsKept(s, s.(prepares := s.prepares - {c}))
  {}

  lemma ResumeKeepsStores(s: System, c: nat, call: PrepareCall)
    requires CanResume(s, call)
    ensures SameStores(s, Resumed(s, c, call)) && CallsKept(s, Resumed(s, c, call))
  {
    hide ReplayOf, SamePending, FlowState.SelectRoute;
  }

  lemma ReadKeepsStores(s: System, c: nat)
    requires CanRead(s, c)
    ensures SameStores(s, WorkRead(s, c)) && CallsKept(s, WorkRead(s, c))
  {}

  lemma TryKeepsStores(s: System, c: nat, blocked: bool)
    requires CanTry(s, c)
    ensures SameStores(s, CompletionTried(s, c, blocked)) && CallsKept(s, CompletionTried(s, c, blocked))
  {
    hide AfterAttempt;
  }

  lemma EngineGrows(s: System, step: EngineStep, s': System)
    requires EngineTakes(s, step, s')
    ensures StoresGrow(s, s') && NewHandoffsMade(s, s') && (!step.OfferTransition? ==> CallsKept(s, s'))
  {
    hide SameStores, NewHandoffsMade, StoresGrow;
    if step.OfferTransition? {
      OfferStep(s, step, s');
      OfferGrows(s, TransitionOffer(s.prepares[step.c]), step.at, step.later, s');
    } else if step.DispatchAction? {
      DispatchGrows(s, step.work, step.kind, step.id, step.actor);
    } else {
      hide EngineTakes;
      if ChangesRuns(step) {
        RunStepKeepsStores(s, step, s');
      } else {
        CallStepKeepsStores(s, step, s');
      }
      SameGrow(s, s');
    }
  }

  lemma OfferStep(s: System, step: EngineStep, s': System)
    requires EngineTakes(s, step, s') && step.OfferTransition?
    ensures step.c in s.prepares && s.prepares[step.c].handoff.None?
    ensures var d := TransitionOffer(s.prepares[step.c]); var t := OfferMade(s, d, step.at, step.later);
      && CanOffer(s, d, step.at, step.later)
      && s'.now == t.now && s'.items == t.items && s'.handoffs == t.handoffs
      && s'.leases == s.leases && s'.instances == s.instances
      && s'.prepares == s.prepares[step.c := s.prepares[step.c].(handoff := Some(d.key))]
  {
    hide CanOffer, TransitionKey, OfferMade, TransitionPayload;
    OfferKeepsTables(s, TransitionOffer(s.prepares[step.c]), step.at, step.later);
  }

  lemma HandoffGrows(s: System, step: HandoffStep, s': System)
    requires HandoffTakes(s, step, s')
    ensures StoresGrow(s, s') && NewHandoffsMade(s, s')
  {
    hide CanOffer, OfferMade, TargetLease, MadeBy;
    if step.OfferHandoff? {
      OfferKeepsTables(s, step.draft, step.at, step.later);
      OfferGrows(s, step.draft, step.at, step.later, s');
    }
  }

  lemma GovernanceGrows(s: System, step: GovernanceStep, s': System)
    requires GovernanceTakes(s, step, s')
    ensures StoresGrow(s, s') && NewHandoffsMade(s, s')
  {
    hide CanVerify, CanConsult, CanDecide, CanSponsor, MadeBy;
  }

  lemma StepGrows(s: System, step: Step, s': System)
    requires Takes(s, step, s')
    ensures StoresGrow(s, s') && NewHandoffsMade(s, s')
  {
    hide EngineTakes, GovernanceTakes, HandoffTakes, MadeBy;
    match step
    case Engine(e) => EngineGrows(s, e, s');
    case Governance(g) => GovernanceGrows(s, g, s');
    case Handoffs(h) => HandoffGrows(s, h, s');
    case Elsewhere =>
  }

  // ---- Handoffs come from leases, and calls hold their own ----

  /** The lease, item, instance and role that a fingerprint names are still there, and still belong together. */
  ghost predicate FromLease(s: System, f: Fingerprint) {
    && f.lease in s.leases && s.leases[f.lease].item == f.item && s.leases[f.lease].owner == f.instance
    && f.item in s.items && f.instance in s.instances && s.instances[f.instance].role == f.role
  }

  ghost predicate SourcesOk(s: System) {
    forall h | h in s.handoffs :: FromLease(s, s.handoffs[h].fingerprint)
  }

  /** A handoff so marked is the one this offer would make, from whatever lease. */
  predicate Carries(f: Fingerprint, d: HandoffOffer) {
    && f.targetRole == d.targetRole && f.capability == d.capability && f.summary == d.summary
    && f.payload == d.payload && f.priority == d.priority
  }

  ghost predicate CallMatches(s: System, call: PrepareCall) {
    call.handoff.Some? ==>
      var d := TransitionOffer(call); d.key in s.handoffs && Carries(s.handoffs[d.key].fingerprint, d)
  }

  ghost predicate CallsMatch(s: System) {
    forall c | c in s.prepares :: CallMatches(s, s.prepares[c])
  }

  lemma SourcesStay(s: System, s': System)
    requires SourcesOk(s) && StoresGrow(s, s') && NewHandoffsMade(s, s')
    ensures SourcesOk(s')
  {
    hide Routable;
    forall h | h in s'.handoffs ensures FromLease(s', s'.handoffs[h].fingerprint) {
      if h in s.handoffs {
        assert FromLease(s, s.handoffs[h].fingerprint);
      } else {
        var draft: HandoffOffer, at, later :| draft.key == h && MadeBy(s, s', draft, at, later);
        assert FromLease(s, FingerprintOf(s, draft));
      }
    }
  }

  /** A call in flight is as it was, or new without a handoff, or has just got one by its own offer. */
  ghost predicate CallMoves(s: System, s': System, c: nat)
    requires c in s'.prepares
  {
    || s'.prepares[c].handoff.None?
    || (c in s.prepares && s'.prepares[c] == s.prepares[c])
    || (c in s.prepares && exists at, later :: MadeBy(s, s', TransitionOffer(s.prepares[c]), at, later)
                                               && TransitionOffer(s'.prepares[c]) == TransitionOffer(s.prepares[c]))
  }

  lemma EngineMovesCalls(s: System, step: EngineStep, s': System)
    requires EngineTakes(s, step, s')
    ensures forall c | c in s'.prepares :: CallMoves(s, s', c)
  {
    hide MadeBy, EngineTakes;
    if step.OfferTransition? {
      OfferStep(s, step, s');
      OfferGrows(s, TransitionOffer(s.prepares[step.c]), step.at, step.later, s');
      hide TransitionKey, TransitionPayload, OfferMade, CanOffer, StoresGrow, NewHandoffsMade;
    } else {
      EngineGrows(s, step, s');
    }
  }

  lemma StepMovesCalls(s: System, step: Step, s': System)
    requires Takes(s, step, s')
    ensures forall c | c in s'.prepares :: CallMoves(s, s', c)
  {
    hide EngineTakes, GovernanceTakes, HandoffTakes, MadeBy;
    match step
    case Engine(e) => EngineMovesCalls(s, e, s');
    case Governance(g) => GovernanceKeepsRuns(s, g, s');
    case Handoffs(h) => HandoffKeepsRuns(s, h, s');
    case Elsewhere =>
  }

  lemma CallStays(s: System, s': System, c: nat)
    requires CallsMatch(s) && StoresGrow(s, s') && c in s'.prepares && CallMoves(s, s', c)
    ensures CallMatches(s', s'.prepares[c])
  {
    hide TransitionKey, Routable, TransitionPayload;
    if s'.prepares[c].handoff.Some? {
      assert CallMatches(s, s.prepares[c]);
    }
  }

  lemma {:induction false} AlwaysSources(trace: seq<System>, steps: seq<Step>, i: nat)
    requires IsRun(trace, steps) && i < |trace|
    ensures SourcesOk(trace[i]) && CallsMatch(trace[i])
  {
    hide Takes, StoresGrow, NewHandoffsMade, CallMoves, CallMatches, FromLease;
    if i > 0 {
      AlwaysSources(trace, steps, i - 1);
      StepGrows(trace[i - 1], steps[i - 1], trace[i]);
      SourcesStay(trace[i - 1], trace[i]);
      StepMovesCalls(trace[i - 1], steps[i - 1], trace[i]);
      forall c | c in trace[i].prepares ensures CallMatches(trace[i], trace[i].prepares[c]) {
        CallStays(trace[i - 1], trace[i], c);
      }
    }
  }

  // ---- Offers that can be made ----

  /** A queue item under the offer's key that was routed at this very moment, as the offer would route it. */
  ghost predicate ItemCarries(s: System, d: HandoffOffer, role: Id, instance: Id)
    requires d.key in s.items
  {
    && s.items[d.key].createdAt == s.now && (instance in s.instances ==> s.instances[instance].role == role)
    && s.items[d.key].draft == RouteDraft(s.items[d.key].draft.work, d.targetRole, d.capability,
                                          HandoffPayload(d.key, role, instance, d.summary, d.payload), d.priority)
  }

  /** Nothing under the offer's key stands in its way: no other handoff, and no other queue item. */
  ghost predicate Offerable(s: System, d: HandoffOffer) {
    if d.key in s.handoffs then Carries(s.handoffs[d.key].fingerprint, d)
    else d.key in s.items ==> exists role, instance :: ItemCarries(s, d, role, instance)
  }

  predicate SameOffer(d: HandoffOffer, e: HandoffOffer) {
    d == e.(lease := d.lease, token := d.token)
  }

  lemma OfferedWasOfferable(s: System, d: HandoffOffer, e: HandoffOffer, at: nat, later: nat)
    requires HandoffsOk(s.handoffs, s.items, s.now) && CanOffer(s, d, at, later) && SameOffer(d, e)
    ensures Offerable(s, e)
  {
    hide HandoffOk, HandoffPayload;
    if e.key !in s.handoffs && e.key in s.items {
      var owner := s.leases[d.lease].owner;
      assert ItemCarries(s, e, s.instances[owner].role, owner);
    }
  }

  lemma MadeWasOfferable(s: System, s': System, draft: HandoffOffer, at: nat, later: nat, d: HandoffOffer)
    requires HandoffsOk(s.handoffs, s.items, s.now) && MadeBy(s, s', draft, at, later) && draft.key == d.key
    requires Carries(s'.handoffs[d.key].fingerprint, d)
    ensures Offerable(s, d)
  {
    hide HandoffsOk, Routable, HandoffDraft;
    assert SameOffer(draft, d);
    OfferedWasOfferable(s, draft, d, at, later);
  }

  /** What cannot be offered now could not be offered later either. */
  lemma OfferableBefore(s: System, s': System, d: HandoffOffer)
    requires HandoffsOk(s.handoffs, s.items, s.now) && StoresGrow(s, s') && NewHandoffsMade(s, s') && Offerable(s', d)
    ensures Offerable(s, d)
  {
    hide HandoffOk, HandoffPayload, MadeBy;
    if d.key in s'.handoffs && d.key !in s.handoffs {
      var draft: HandoffOffer, at, later :| draft.key == d.key && MadeBy(s, s', draft, at, later);
      MadeWasOfferable(s, s', draft, at, later, d);
    } else if d.key !in s.handoffs && d.key in s.items {
      var role, instance :| ItemCarries(s', d, role, instance);
      assert ItemCarries(s, d, role, instance);
    }
  }
}
