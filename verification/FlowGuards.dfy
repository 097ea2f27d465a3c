/** Exactly when each call is taken, in any reachable state, and that evidence discharges what it is for. */
module FlowGuards {
  import opened Wrappers
  import opened Json
  import opened FlowDefinition
  import opened FlowTables
  import opened FlowInvariants
  import opened FlowPreservation
  import opened FlowSteps
  import opened FlowRuns
  import opened FlowJournal
  import opened FlowTheorems

  // ---- The engine's calls ----

  /** A run is started for an active work item of the entry state's owner that has none, under an unused operation. */
  lemma StartsExactly(s: System, work: Id, flow: Flow, fields: Fields, actor: Id, operation: Id)
    requires AcceptedFlow(flow)
    ensures CanStart(s, work, flow, fields, actor, operation) <==>
              && (forall row | row in s.journal :: row.operation != operation)
              && work in s.works && work !in s.runs && s.works[work].status == WorkActive
              && s.works[work].role == flow.states[flow.entryState].ownerRole
  {
    hide ReplayOf, StateAccepted, Reachable;
    FreshExact(s.journal, operation, StartRequest(flow, fields, actor));
  }

  /** What a dispatch queues. */
  predicate QueuesAs(draft: RouteDraft, work: Id, state: Id, obligation: Obligation, actor: Id) {
    && draft.work == work && draft.targetRole == obligation.role && draft.capability == None && draft.priority == 0
    && draft.payload == Obj(map["flow_action" := Obj(obligation.payload), "state" := Str(state), "requested_by" := Str(actor)])
  }

  /** In every reachable state, a dispatch is taken of any consult or inform of the visit an active run is in, unless its
      role has no queue, or something else is queued under its key. */
  lemma DispatchesExactly(trace: seq<System>, steps: seq<Step>, n: nat, work: Id, kind: Kind, id: Id, actor: Id)
    requires IsRun(trace, steps) && n < |trace|
    ensures CanDispatch(trace[n], work, kind, id, actor) <==>
              && (kind == Consult || kind == Inform) && work in trace[n].runs && trace[n].runs[work].status == Active
              && var run, s := trace[n].runs[work], trace[n];
                 var key, at := ObligationKey(work, run.currentState, run.version, kind, id), DispatchKey(kind, work, run.version, id);
              && key in s.obligations
              && if at in s.items then QueuesAs(s.items[at].draft, work, run.currentState, s.obligations[key], actor)
                 else (s.obligations[key].role, None) in s.queues
  {
    hide IsRun, Inv, DispatchKey;
    AlwaysInv(trace, steps, n);
    if work in trace[n].runs && CurrentKey(trace[n], work, kind, id) in trace[n].obligations {
      StatusOf(trace[n], CurrentKey(trace[n], work, kind, id));
      OwnerWorks(trace[n], work);
    }
  }

  lemma StatusOf(s: System, key: ObligationKey)
    requires Inv(s) && key in s.obligations
    ensures StatusFits(key.kind, s.obligations[key].status)
  {
    hide FlowsOk, RunsOk, PendingOk, RecordsOk, PreparesOk, CompletionsOk, WorksOk, RowHandoffsOk, HandoffsOk, VisitsHeld,
      LeftSettled, Belongs, StatusFits;
  }

  /** A run is held for completion from a terminal state with everything discharged, at the expected version. */
  lemma CompletionOpensExactly(s: System, work: Id, expected: nat, actor: Id, operation: Id, evidence: Fields)
    ensures CanOpenCompletion(s, CompleteCall(work, expected, actor, operation, evidence, Began)) <==>
              && evidence != map[] && (forall row | row in s.journal :: row.operation != operation)
              && work in s.runs && s.runs[work].status == Active && s.runs[work].version == expected
              && s.runs[work].currentState in s.runs[work].flow.states
              && s.runs[work].flow.states[s.runs[work].currentState].terminal && AllDischarged(s, work)
  {
    hide ReplayOf, AllDischarged;
    FreshExact(s.journal, operation, CompleteRequest(work, expected, actor, evidence));
  }

  // ---- Evidence ----

  /** An artifact is verified once, by its role, as a document found at its own path. */
  lemma VerifiesExactly(s: System, work: Id, path: string, metadata: Metadata, actor: Id, recordId: Id)
    ensures CanVerify(s, work, path, metadata, actor, recordId) <==>
              && !metadata.isFolder && metadata.path == path && recordId !in s.records
              && work in s.runs && s.runs[work].status == Active
              && var key := ObligationKey(work, s.runs[work].currentState, s.runs[work].version, Artifact, "artifact");
              && key in s.obligations && s.obligations[key] == Obligation(actor, s.obligations[key].payload, Pending)
              && "path" in s.obligations[key].payload && s.obligations[key].payload["path"].Str?
              && path == MaterializePath(s.obligations[key].payload["path"].s, s.project, work)
  {
    hide MaterializePath;
  }

  /** A consultation is answered, once dispatched, by the role consulted; or excepted, with a reason, by owner or leader. */
  lemma ConsultsExactly(
    s: System, work: Id, id: Id, decision: Decision, actor: Id, recordId: Id, reason: string, evidence: Fields
  )
    ensures CanConsult(s, work, id, decision, actor, recordId, reason, evidence) <==>
              && recordId !in s.records && work in s.runs && s.runs[work].status == Active
              && var key := ObligationKey(work, s.runs[work].currentState, s.runs[work].version, Consult, id);
              && key in s.obligations
              && (|| (decision == Responded && s.obligations[key].status == Dispatched && s.obligations[key].role == actor)
                  || (decision == Exception && reason != ""
                      && (actor == s.runs[work].owner || actor == s.runs[work].flow.leaderRole)))
  {}

  lemma Recorded(records: Records, id: Id, key: ObligationKey, decision: Decision)
    requires id in records && records[id].key == key && records[id].decision == decision
    ensures HasRecord(records, key, decision)
  {}

  /** A verified artifact is discharged. */
  lemma VerificationDischarges(s: System, work: Id, path: string, metadata: Metadata, actor: Id, recordId: Id)
    requires CanVerify(s, work, path, metadata, actor, recordId)
    ensures var t := VerifiedArtifact(s, work, path, metadata, actor, recordId);
      Discharged(t.obligations, t.records, CurrentKey(s, work, Artifact, "artifact"))
  {
    hide MaterializePath;
    var t := VerifiedArtifact(s, work, path, metadata, actor, recordId);
    Recorded(t.records, recordId, CurrentKey(s, work, Artifact, "artifact"), Verified);
  }

  /** So is a consultation that is answered or excepted. */
  lemma ConsultationDischarges(
    s: System, work: Id, id: Id, decision: Decision, actor: Id, recordId: Id, reason: string, evidence: Fields
  )
    requires CanConsult(s, work, id, decision, actor, recordId, reason, evidence)
    ensures var t := Consulted(s, work, id, decision, actor, recordId, reason, evidence);
      Discharged(t.obligations, t.records, CurrentKey(s, work, Consult, id))
  {
    var t := Consulted(s, work, id, decision, actor, recordId, reason, evidence);
    Recorded(t.records, recordId, CurrentKey(s, work, Consult, id), decision);
  }

  /** And a gate that a sponsor approves, whose work item goes on. */
  lemma SponsorDischarges(
    s: System, work: Id, id: Id, sponsor: Id, recordId: Id, reason: string, evidence: Fields, document: Document
  )
    requires CanSponsor(s, work, id, Approved, sponsor, recordId, document)
    ensures var t := Sponsored(s, work, id, Approved, sponsor, recordId, reason, evidence, document);
      && Discharged(t.obligations, t.records, CurrentKey(s, work, Gate, id)) && work in t.works && t.works[work].status == WorkActive
  {
    hide ArtifactVerified;
    var t := Sponsored(s, work, id, Approved, sponsor, recordId, reason, evidence, document);
    Recorded(t.records, recordId, CurrentKey(s, work, Gate, id), Approved);
  }

  /** And an inform that is dispatched. */
  lemma DispatchDischarges(s: System, work: Id, id: Id, actor: Id)
    requires CanDispatch(s, work, Inform, id, actor)
    ensures var t := DispatchedTo(s, work, Inform, id, actor); Discharged(t.obligations, t.records, CurrentKey(s, work, Inform, id))
  {
    hide DispatchKey, Routable;
  }

  // ---- Handoffs ----

  /** A running instance holds the queue item of this lease, which bears the token. */
  predicate LeasedBy(s: System, lease: Id, token: string) {
    && lease in s.leases && s.leases[lease].token == token
    && s.leases[lease].item in s.items && s.leases[lease].owner in s.instances
  }

  /** A new handoff is offered only from a queue item that is leased, live, by a running instance, and only where the target
      role has a queue. */
  lemma NewOffersExactly(trace: seq<System>, steps: seq<Step>, n: nat, d: HandoffOffer, at: nat, later: nat)
    requires IsRun(trace, steps) && n < |trace| && d.key !in trace[n].handoffs && d.key !in trace[n].items
    ensures CanOffer(trace[n], d, at, later) <==>
              && trace[n].now <= at <= later && LeasedBy(trace[n], d.lease, d.token)
              && var s, lease := trace[n], trace[n].leases[d.lease];
              && s.items[lease.item].status == Leased && s.instances[lease.owner].running && !lease.released && at < lease.expiresAt
              && s.items[lease.item].draft.work in s.works && (d.targetRole, d.capability) in s.queues
  {
    hide IsRun, HandoffPayload;
  }

  predicate Live(s: System, lease: Id, at: nat) {
    lease in s.leases && !s.leases[lease].released && at < s.leases[lease].expiresAt
  }

  /** Who may act on a handoff: a running instance of its target role, by a live lease on its very item. */
  predicate MayAct(s: System, h: Id, lease: Id, token: string, at: nat)
    requires h in s.handoffs
  {
    && Live(s, lease, at) && s.leases[lease].token == token && s.leases[lease].item == s.handoffs[h].item
    && s.leases[lease].owner in s.instances
    && s.instances[s.leases[lease].owner].running && s.instances[s.leases[lease].owner].role == s.handoffs[h].targetRole
  }

  /** It may claim an offered handoff, or one whose claimant's lease has died. */
  lemma ClaimsExactly(trace: seq<System>, steps: seq<Step>, n: nat, h: Id, lease: Id, token: string, at: nat)
    requires IsRun(trace, steps) && n < |trace|
    ensures CanClaim(trace[n], h, lease, token, at) <==>
              && trace[n].now <= at && h in trace[n].handoffs && MayAct(trace[n], h, lease, token, at)
              && (|| trace[n].handoffs[h].status == Offered
                  || (trace[n].handoffs[h].status == Claimed && trace[n].handoffs[h].targetLease.Some?
                      && !Live(trace[n], trace[n].handoffs[h].targetLease.value, at)))
  {
    hide IsRun, FlowsOk, RunsOk, PendingOk, ObligationsOk, RecordsOk, PreparesOk, CompletionsOk, WorksOk, RowHandoffsOk;
    AlwaysInv(trace, steps, n);
    if h in trace[n].handoffs {
      assert HandoffOk(trace[n].handoffs[h], trace[n].now);
    }
  }

  /** It may accept a handoff that it has itself claimed by that lease. */
  lemma AcceptsExactly(s: System, h: Id, lease: Id, token: string, at: nat)
    ensures CanAccept(s, h, lease, token, at) <==>
              && s.now <= at && h in s.handoffs && MayAct(s, h, lease, token, at)
              && s.handoffs[h].status == Claimed && s.handoffs[h].targetLease == Some(lease)
  {}
}
