/** Who may put what on record: every governance record, in every run, is one its actor was entitled to make. */
module FlowEvidence {
  import opened Wrappers
  import opened Json
  import opened FlowDefinition
  import opened FlowTables
  import opened FlowInvariants
  import opened FlowSteps
  import opened FlowRuns
  import opened FlowJournal
  import opened FlowObligations

  // ---- Paths ----

  predicate Free(text: string) {
    '{' !in text
  }

  lemma {:induction false} FreeStays(text: string, old': string, new': string)
    requires Free(text) && old' != "" && old'[0] == '{'
    ensures Replace(text, old', new') == text
  {
    if |text| >= |old'| {
      assert text[0] in text;
      assert forall c | c in text[1..] :: c in text;
      FreeStays(text[1..], old', new');
    }
  }

  /** Another placeholder is passed over. */
  lemma {:induction false} OtherPassed(other: string, old': string, new': string, rest: string)
    requires other != "" && other[0] == '{' && '{' !in other[1..] && old' != "" && old'[0] == '{' && |other| > 1 && |old'| > 1 && other[1] != old'[1]
    ensures Replace(other + rest, old', new') == other + Replace(rest, old', new')
  {
    hide Replace;
    var whole := other + rest;
    assert whole[1] == other[1];
    assert whole[1..] == other[1..] + rest;
    if |whole| >= |old'| {
      FirstPassed(whole, old', new');
      TextPassed(other[1..], old', new', rest);
      assert other == [other[0]] + other[1..];
    } else {
      ShortStays(whole, old', new');
      ShortStays(rest, old', new');
    }
  }

  lemma FirstPassed(text: string, old': string, new': string)
    requires 1 < |old'| <= |text| && text[1] != old'[1]
    ensures Replace(text, old', new') == [text[0]] + Replace(text[1..], old', new')
  {
    assert text[..|old'|][1] != old'[1];
  }

  lemma ShortStays(text: string, old': string, new': string)
    requires old' != "" && |text| < |old'|
    ensures Replace(text, old', new') == text
  {}

  lemma {:induction false} TextPassed(text: string, old': string, new': string, rest: string)
    requires Free(text) && old' != "" && old'[0] == '{'
    ensures Replace(text + rest, old', new') == text + Replace(rest, old', new')
  {
    if text == "" {
      assert text + rest == rest;
    } else if |text + rest| < |old'| {
      ShortStays(text + rest, old', new');
      ShortStays(rest, old', new');
    } else {
      assert (text + rest)[0] == text[0] && text[0] in text;
      assert (text + rest)[1..] == text[1..] + rest;
      assert forall c | c in text[1..] :: c in text;
      TextPassed(text[1..], old', new', rest);
    }
  }

  /** A placeholder after text that has none becomes what it stands for. */
  lemma PlaceholderReplaced(text: string, old': string, new': string, rest: string)
    requires Free(text) && old' != "" && old'[0] == '{'
    ensures Replace(text + old' + rest, old', new') == text + new' + Replace(rest, old', new')
  {
    TextPassed(text, old', new', old' + rest);
    assert text + old' + rest == text + (old' + rest);
    assert old' <= old' + rest && (old' + rest)[|old'|..] == rest;
  }

  /** An artifact path names the project and the work item where its placeholders stand, and is otherwise as written. */
  lemma PathNamesBoth(a: string, b: string, c: string, project: Id, work: Id)
    requires Free(a) && Free(b) && Free(c) && Free(project) && Free(work)
    ensures MaterializePath(a + "{project_id}" + b + "{work_item_id}" + c, project, work) == a + project + b + work + c
    ensures MaterializePath(a + "{work_item_id}" + b + "{project_id}" + c, project, work) == a + work + b + project + c
    ensures MaterializePath(a, project, work) == a
  {
    hide Replace;
    var p, w := "{project_id}", "{work_item_id}";
    assert p[1] == 'p' && w[1] == 'w';
    BracesOnce();
    // The project first, then the work item.
    var tail := b + w + c;
    assert a + p + b + w + c == a + p + tail;
    PlaceholderReplaced(a, p, project, tail);
    KeepsOther(b, w, c, p, project);
    var named := a + project + b;
    assert a + project + tail == named + w + c;
    PlaceholderReplaced(named, w, work, c);
    FreeStays(c, w, work);
    assert named + work + c == a + project + b + work + c;
    // The other way round.
    var later := a + w + b;
    assert a + w + b + p + c == a + (w + (b + p + c));
    TextPassed(a, p, project, w + (b + p + c));
    OtherPassed(w, p, project, b + p + c);
    PlaceholderReplaced(b, p, project, c);
    FreeStays(c, p, project);
    assert a + (w + (b + project + c)) == a + w + (b + project + c);
    PlaceholderReplaced(a, w, work, b + project + c);
    FreeStays(b + project + c, w, work);
    assert a + work + (b + project + c) == a + work + b + project + c;
    FreeStays(a, p, project);
    FreeStays(a, w, work);
  }

  lemma BracesOnce()
    ensures '{' !in "{project_id}"[1..] && '{' !in "{work_item_id}"[1..]
  {}

  lemma KeepsOther(b: string, other: string, c: string, old': string, new': string)
    requires Free(b) && Free(c) && other != "" && other[0] == '{' && '{' !in other[1..]
    requires old' != "" && old'[0] == '{' && |other| > 1 && |old'| > 1 && other[1] != old'[1]
    ensures Replace(b + other + c, old', new') == b + other + c
  {
    hide Replace;
    assert b + other + c == b + (other + c);
    TextPassed(b, old', new', other + c);
    OtherPassed(other, old', new', c);
    FreeStays(c, old', new');
  }

  // ---- Who is entitled to what ----

  /** The type of a gate; one that says none is an owner's review. */
  predicate GateIs(payload: Fields, name: string) {
    if "type" in payload then payload["type"] == Str(name) else name == "owner_review"
  }

  predicate SponsorsOwn(payload: Fields) {
    || GateIs(payload, "human_response") || GateIs(payload, "sponsor_approval")
    || ("requested_from" in payload && payload["requested_from"] == Str("sponsor"))
  }

  predicate Architectural(payload: Fields) {
    GateIs(payload, "architecture_impact") || GateIs(payload, "architecture_impact_assessment")
  }

  predicate Names(fields: Fields, document: Document) {
    && "path" in fields && fields["path"] == Str(document.path)
    && "etag" in fields && fields["etag"] == Str(document.etag)
  }

  /** An artifact is verified by its owner at its own path; a consultation answered by the role consulted, or excepted,
      with a reason, by the state's owner or the leader; a gate decided by its role, never a sponsor's gate, one about the
      architecture with its impact classified and never by exception, any other by exception only with a reason. */
  ghost predicate Entitled(project: Id, runs: Runs, obligations: Obligations, r: Record) {
    && r.key in obligations && r.key.work in runs && r.key.state in runs[r.key.work].flow.states
    && var role, payload, run := obligations[r.key].role, obligations[r.key].payload, runs[r.key.work];
    match r.request
    case VerifyRequest(work, path, actor) =>
      && r.key.work == work && r.key.kind == Artifact && r.decision == Verified && r.actor == actor == role
      && "path" in payload && payload["path"].Str? && path == MaterializePath(payload["path"].s, project, work)
      && r.document.Some? && r.document.value.path == path && "document" in r.evidence && r.evidence["document"].Obj?
      && Names(r.evidence["document"].fields, r.document.value)
    case ConsultationRequest(work, id, decision, actor, reason, evidence) =>
      && r.key.work == work && r.key.kind == Consult && r.key.id == id && r.decision == decision && r.actor == actor
      && r.reason == reason && r.evidence == evidence
      && ((decision == Responded && actor == role)
          || (decision == Exception && reason != ""
              && (actor == run.flow.states[r.key.state].ownerRole || actor == run.flow.leaderRole)))
    case GateRequest(work, id, decision, actor, reason, evidence, impact, reviewed) =>
      && r.key.work == work && r.key.kind == Gate && r.key.id == id && r.decision == decision && r.actor == actor == role
      && r.reason == reason && "reviewed_document" in r.evidence && r.evidence["reviewed_document"].Obj?
      && Names(r.evidence["reviewed_document"].fields, reviewed)
      && !SponsorsOwn(payload)
      && (|| decision == Rejected || decision == Approved || (decision == Exception && reason != "" && !Architectural(payload)))
      && (impact.Some? ==> Architectural(payload) && impact.value in {"no-material", "material", "uncertain"})
      && (decision == Approved && Architectural(payload) ==> impact.Some?)
    case SponsorRequest(work, id, decision, actor, reason, evidence) =>
      && r.key.work == work && r.key.kind == Gate && r.key.id == id && r.decision == decision && r.actor == actor
      && (decision == Approved || decision == Rejected) && r.document.Some?
  }

  ghost predicate AllEntitled(s: System) {
    forall id | id in s.records :: Entitled(s.project, s.runs, s.obligations, s.records[id])
  }

  /** Some approval of a gate of the work item classified its impact so. */
  ghost predicate Classified(records: Records, work: Id, impact: string) {
    exists id :: id in records && records[id].request.GateRequest? && records[id].key.work == work
                 && records[id].decision == Approved && records[id].request.impact == Some(impact)
  }

  ghost predicate ImpactsClassified(s: System) {
    forall w | w in s.impacts :: Classified(s.records, w, s.impacts[w])
  }

  /** Exactly which decisions of a gate are taken. */
  lemma DecidesExactly(
    s: System, work: Id, id: Id, decision: Decision, actor: Id, recordId: Id, reason: string, evidence: Fields,
    impact: Option<string>, reviewed: Document
  )
    ensures CanDecide(s, work, id, decision, actor, recordId, reason, evidence, impact, reviewed) <==>
              && recordId !in s.records && work in s.runs && s.runs[work].status == Active
              && var key := ObligationKey(work, s.runs[work].currentState, s.runs[work].version, Gate, id);
              && key in s.obligations && s.obligations[key].role == actor && !SponsorsOwn(s.obligations[key].payload)
              && ArtifactVerified(s, work, reviewed)
              && (|| decision == Rejected
                  || (s.obligations[key].status == Pending
                      && (decision == Approved
                          || (decision == Exception && reason != "" && !Architectural(s.obligations[key].payload)))))
              && (impact.Some? ==> Architectural(s.obligations[key].payload) && impact.value in {"no-material", "material", "uncertain"})
              && (decision == Approved && Architectural(s.obligations[key].payload) ==> impact.Some?)
  {
    hide ArtifactVerified;
  }

  // ---- Each step keeps it ----

  ghost predicate SameEvidence(s: System, s': System) {
    s'.project == s.project && s'.records == s.records && s'.impacts == s.impacts
  }

  lemma EngineKeepsEvidence(s: System, step: EngineStep, s': System)
    requires EngineTakes(s, step, s')
    ensures SameEvidence(s, s')
  {
    hide AcceptedFlow, CanStart, CanDispatch, CanOpen, CanResume, CanCommit, CanPickup, CanOpenCompletion, CanResumeCompletion,
      CanRead, CanTry, CanCommitCompletion, CanOffer, TransitionKey, OfferMade, InsertObligations, Append, ReplayOf,
      TransitionPayload, AfterAttempt, FlowState.Obligations, DispatchDraft, Routed, MergedFields;
    match step
    case OfferTransition(c, at, later) => OfferKeepsTables(s, TransitionOffer(s.prepares[c]), at, later);
    case _ =>
  }

  /** Nothing else changes evidence, or takes an obligation or a run away. */
  lemma StepKeepsEvidence(s: System, step: Step, s': System)
    requires Takes(s, step, s') && !step.Governance?
    ensures SameEvidence(s, s')
  {
    hide EngineTakes, HandoffTakes;
    match step
    case Engine(e) => EngineKeepsEvidence(s, e, s');
    case Handoffs(h) => HandoffKeepsRuns(s, h, s');
    case Elsewhere =>
  }

  lemma EntitledStays(project: Id, runs: Runs, runs': Runs, o: Obligations, o': Obligations, r: Record)
    requires Entitled(project, runs, o, r)
    requires forall w | w in runs :: w in runs' && runs'[w].flow == runs[w].flow
    requires RowsMove(runs, o, o')
    ensures Entitled(project, runs', o', r)
  {
    hide MaterializePath, SponsorsOwn, Architectural;
    assert RowMoves(runs, o, o', r.key);
  }

  lemma CurrentState(s: System, work: Id)
    requires Inv(s) && work in s.runs
    ensures var run := s.runs[work];
      run.currentState in run.flow.states && run.owner == run.flow.states[run.currentState].ownerRole
  {
    hide Inv, HistoryOk, StatusOk, StateAfter, AcceptedFlow;
    RunOf(s, work);
  }

  lemma VerifyEntitled(s: System, work: Id, path: string, metadata: Metadata, actor: Id, recordId: Id)
    requires Inv(s) && CanVerify(s, work, path, metadata, actor, recordId)
    ensures Entitled(s.project, s.runs, s.obligations, VerifiedArtifact(s, work, path, metadata, actor, recordId).records[recordId])
  {
    hide Inv, MaterializePath;
    CurrentState(s, work);
  }

  lemma ConsultEntitled(
    s: System, work: Id, id: Id, decision: Decision, actor: Id, recordId: Id, reason: string, evidence: Fields
  )
    requires Inv(s) && CanConsult(s, work, id, decision, actor, recordId, reason, evidence)
    ensures Entitled(s.project, s.runs, s.obligations,
                     Consulted(s, work, id, decision, actor, recordId, reason, evidence).records[recordId])
  {
    hide Inv;
    CurrentState(s, work);
  }

  lemma DecideEntitled(
    s: System, work: Id, id: Id, decision: Decision, actor: Id, recordId: Id, reason: string, evidence: Fields,
    impact: Option<string>, reviewed: Document
  )
    requires Inv(s) && CanDecide(s, work, id, decision, actor, recordId, reason, evidence, impact, reviewed)
    ensures Entitled(s.project, s.runs, s.obligations,
                     Decided(s, work, id, decision, actor, recordId, reason, evidence, impact, reviewed).records[recordId])
  {
    hide Inv, ArtifactVerified, ReviewEvidence, CanDecide, Architectural, SponsorsOwn, Names;
    DecidesExactly(s, work, id, decision, actor, recordId, reason, evidence, impact, reviewed);
    CurrentState(s, work);
    ReviewNamed(evidence, reviewed);
  }

  lemma ReviewNamed(evidence: Fields, reviewed: Document)
    ensures var all := evidence + ReviewEvidence(reviewed);
      && "reviewed_document" in all && all["reviewed_document"].Obj? && Names(all["reviewed_document"].fields, reviewed)
  {}

  lemma SponsorEntitled(
    s: System, work: Id, id: Id, decision: Decision, sponsor: Id, recordId: Id, reason: string, evidence: Fields, document: Document
  )
    requires Inv(s) && CanSponsor(s, work, id, decision, sponsor, recordId, document)
    ensures Entitled(s.project, s.runs, s.obligations,
                     Sponsored(s, work, id, decision, sponsor, recordId, reason, evidence, document).records[recordId])
  {
    hide Inv, ArtifactVerified;
    CurrentState(s, work);
  }

  /** A governance step adds one record, made by an actor entitled to it. */
  lemma NewRecord(s: System, step: GovernanceStep, s': System) returns (id: Id)
    requires Inv(s) && GovernanceTakes(s, step, s')
    ensures id !in s.records && id in s'.records && s'.records == s.records[id := s'.records[id]]
    ensures Entitled(s.project, s.runs, s.obligations, s'.records[id])
    ensures s'.impacts == if s'.records[id].request.GateRequest? && s'.records[id].decision == Approved && s'.records[id].request.impact.Some?
                          then s.impacts[s'.records[id].key.work := s'.records[id].request.impact.value] else s.impacts
    ensures s'.project == s.project && s'.runs == s.runs
  {
    hide Inv, MaterializePath, ArtifactVerified, Entitled, GateTakes, IsCurrent;
    id := step.recordId;
    match step
    case VerifyArtifact(work, path, metadata, actor, recordId) => VerifyEntitled(s, work, path, metadata, actor, recordId);
    case RecordConsultation(work, x, decision, actor, recordId, reason, evidence) =>
      ConsultEntitled(s, work, x, decision, actor, recordId, reason, evidence);
    case DecideGate(work, x, decision, actor, recordId, reason, evidence, impact, reviewed) =>
      DecideEntitled(s, work, x, decision, actor, recordId, reason, evidence, impact, reviewed);
    case SponsorGate(work, x, decision, actor, recordId, reason, evidence, reviewed) =>
      SponsorEntitled(s, work, x, decision, actor, recordId, reason, evidence, reviewed);
  }

  lemma StepKeepsEntitled(s: System, step: Step, s': System)
    requires Inv(s) && Takes(s, step, s') && AllEntitled(s) && ImpactsClassified(s)
    ensures AllEntitled(s') && ImpactsClassified(s')
  {
    hide Inv, EngineTakes, GovernanceTakes, HandoffTakes, Environment, Entitled, RowsMove;
    StepMovesRows(s, step, s');
    StepLater(s, step, s');
    if step.Governance? {
      var id := NewRecord(s, step.governance, s');
      forall x | x in s'.records ensures Entitled(s'.project, s'.runs, s'.obligations, s'.records[x]) {
        EntitledStays(s.project, s.runs, s'.runs, s.obligations, s'.obligations, s'.records[x]);
      }
      ClassifiedStays(s, s', id);
    } else {
      StepKeepsEvidence(s, step, s');
      forall x | x in s'.records ensures Entitled(s'.project, s'.runs, s'.obligations, s'.records[x]) {
        EntitledStays(s.project, s.runs, s'.runs, s.obligations, s'.obligations, s'.records[x]);
      }
    }
  }

  lemma ClassifiedStays(s: System, s': System, id: Id)
    requires ImpactsClassified(s) && id !in s.records && id in s'.records && s'.records == s.records[id := s'.records[id]]
    requires s'.impacts == if s'.records[id].request.GateRequest? && s'.records[id].decision == Approved && s'.records[id].request.impact.Some?
                           then s.impacts[s'.records[id].key.work := s'.records[id].request.impact.value] else s.impacts
    ensures ImpactsClassified(s')
  {
    forall w | w in s'.impacts ensures Classified(s'.records, w, s'.impacts[w]) {
      if w in s.impacts && s'.impacts[w] == s.impacts[w] {
        assert Classified(s.records, w, s.impacts[w]);
        var x :| x in s.records && s.records[x].request.GateRequest? && s.records[x].key.work == w
                 && s.records[x].decision == Approved && s.records[x].request.impact == Some(s.impacts[w]);
        assert x in s'.records && s'.records[x] == s.records[x];
      }
    }
  }

  /** In every reachable state, every record is one its actor was entitled to make for that obligation, and every recorded
      impact is one that some approval of a gate of that work item classified. */
  lemma {:induction false} RecordsAreEntitled(trace: seq<System>, steps: seq<Step>, n: nat)
    requires IsRun(trace, steps) && n < |trace|
    ensures AllEntitled(trace[n]) && ImpactsClassified(trace[n])
  {
    hide Takes, Inv, Entitled, Classified;
    if n > 0 {
      RecordsAreEntitled(trace, steps, n - 1);
      AlwaysInv(trace, steps, n - 1);
      StepKeepsEntitled(trace[n - 1], steps[n - 1], trace[n]);
    }
  }
}
