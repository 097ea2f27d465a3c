/** Configuration drafts: validated, decided, and promoted to the active release by a call of several locked steps that
    other calls may come between. */
module ConfigPromotions {
  import opened Wrappers
  import Log = ConfigActivation

  type Id = string
  type Digest = Log.Digest

  datatype Status = Drafted | PendingApproval | Approved | Rejected | Activated

  datatype Validation = Validation(digest: Digest, active: Option<Digest>, actor: string, at: string)

  datatype Decision = Decision(approved: bool, actor: string, rationale: string, at: string, implied: bool)

  datatype DraftEvent = DraftEvent(action: Status, actor: string, at: string)

  datatype Draft = Draft(
    references: seq<Id>,
    expected: Option<Digest>,
    createdBy: string,
    createdAt: string,
    status: Status,
    validation: Option<Validation>,
    decision: Option<Decision>,
    events: seq<DraftEvent>
  )

  predicate Filled(text: string) {
    !Log.Blank(text)
  }

  predicate Distinct(s: seq<Id>) {
    forall i, j | 0 <= i < j < |s| :: s[i] != s[j]
  }

  // ---- What a stored draft must be to be read ----

  predicate ValidationReads(draft: Draft) {
    if draft.validation.None? then draft.status == Drafted
    else
      var v := draft.validation.value;
      Log.IsDigest(v.digest) && v.active == draft.expected && Filled(v.actor) && Filled(v.at)
  }

  predicate DecisionReads(draft: Draft) {
    if draft.decision.None? then draft.status in {Drafted, PendingApproval}
    else
      var d := draft.decision.value;
      && draft.status in {Approved, Rejected, Activated} && d.approved == (draft.status != Rejected)
      && Filled(d.actor) && Filled(d.rationale) && Filled(d.at)
  }

  predicate EventsRead(events: seq<DraftEvent>) {
    forall e | e in events :: e.action in {PendingApproval, Approved, Rejected, Activated} && Filled(e.actor) && Filled(e.at)
  }

  predicate DraftReads(draft: Draft) {
    && draft.references != [] && Distinct(draft.references)
    && (draft.expected.Some? ==> Log.IsDigest(draft.expected.value))
    && Filled(draft.createdBy) && Filled(draft.createdAt)
    && (draft.status == Drafted <==> draft.validation.None?)
    && (draft.status in {Approved, Rejected, Activated} <==> draft.decision.Some?)
    && ValidationReads(draft) && DecisionReads(draft) && EventsRead(draft.events)
  }

  // ---- Whole promotions ----

  /** Where an activating call stands: it has read an approved draft; found the packages to resolve as validated; made a
      release of what they then resolved to; and found or made that release active. */
  datatype Stage = Read | Checked | Released(digest: Digest) | Active(digest: Digest)

  datatype Call = Call(id: Id, draft: Draft, stage: Stage)

  /** `packages` is what references resolve to now; it may change at any time. `promoted` is a proof-only record of the
      release under which each draft was marked activated. */
  datatype System = System(
    record: Log.State,
    releases: set<Digest>,
    drafts: map<Id, Draft>,
    packages: map<seq<Id>, Digest>,
    calls: map<nat, Call>,
    promoted: map<Id, Digest>
  )

  datatype Step =
    | CreateDraft(id: Id, references: seq<Id>, expected: Option<Digest>, actor: string, at: string)
    | ValidateDraft(id: Id, actor: string, sponsored: bool, at: string)
    | DecideDraft(id: Id, sponsor: string, approve: bool, rationale: string, at: string)
    | BeginCall(c: nat, id: Id)
    | CheckPackages(c: nat)
    | MakeRelease(c: nat)
    | FindActive(c: nat)
    | MakeActive(c: nat, actor: string, reason: string, at: string)
    | MarkActivated(c: nat, actor: string, at: string)
    | Crash(c: nat)
    | Rollback(digest: Digest, actor: string, reason: string, at: string)
    | ChangePackages

  function Validated(draft: Draft, digest: Digest, active: Option<Digest>, actor: string, sponsored: bool, at: string): Draft {
    draft.(
      status := if sponsored then Approved else PendingApproval,
      validation := Some(Validation(digest, active, actor, at)),
      decision := if sponsored then Some(Decision(true, draft.createdBy, "Sponsor-authored validated draft", at, true)) else None,
      events := draft.events + [DraftEvent(PendingApproval, actor, at)]
                + (if sponsored then [DraftEvent(Approved, draft.createdBy, at)] else []))
  }

  function Decided(draft: Draft, sponsor: string, approve: bool, rationale: string, at: string): Draft {
    var status := if approve then Approved else Rejected;
    draft.(status := status, decision := Some(Decision(approve, sponsor, rationale, at, false)),
           events := draft.events + [DraftEvent(status, sponsor, at)])
  }

  function Marked(draft: Draft, actor: string, at: string): Draft {
    draft.(status := Activated, events := draft.events + [DraftEvent(Activated, actor, at)])
  }

  predicate CanCreate(s: System, id: Id, references: seq<Id>, expected: Option<Digest>, actor: string, at: string) {
    && id !in s.drafts && references != [] && Distinct(references) && Filled(actor) && Filled(at)
    && (expected.Some? ==> Log.IsDigest(expected.value)) && s.record.active == expected
  }

  predicate CanValidate(s: System, id: Id, actor: string, at: string) {
    && id in s.drafts && s.drafts[id].status == Drafted && Filled(actor) && Filled(at)
    && s.record.active == s.drafts[id].expected
    && s.drafts[id].references in s.packages && Log.IsDigest(s.packages[s.drafts[id].references])
  }

  predicate CanDecide(s: System, id: Id, sponsor: string, rationale: string, at: string) {
    id in s.drafts && s.drafts[id].status == PendingApproval && Filled(sponsor) && Filled(rationale) && Filled(at)
  }

  predicate CanBegin(s: System, c: nat, id: Id) {
    c !in s.calls && id in s.drafts && s.drafts[id].status == Approved && s.drafts[id].validation.Some?
  }

  predicate CanCheck(s: System, c: nat) {
    && c in s.calls && s.calls[c].stage == Read && s.calls[c].draft.validation.Some?
    && s.calls[c].draft.references in s.packages
    && s.packages[s.calls[c].draft.references] == s.calls[c].draft.validation.value.digest
  }

  /** The packages are resolved a second time for the release, and not compared again. */
  predicate CanRelease(s: System, c: nat) {
    && c in s.calls && s.calls[c].stage == Checked && s.calls[c].draft.references in s.packages
    && Log.IsDigest(s.packages[s.calls[c].draft.references])
  }

  predicate CanFind(s: System, c: nat) {
    c in s.calls && s.calls[c].stage.Released? && s.record.active == Some(s.calls[c].stage.digest)
  }

  /** The record is changed only against the baseline the draft was made from. */
  predicate CanMakeActive(s: System, c: nat, actor: string, at: string) {
    && c in s.calls && s.calls[c].stage.Released? && Log.IsDigest(s.calls[c].stage.digest)
    && s.record.active == s.calls[c].draft.expected && s.record.active != Some(s.calls[c].stage.digest)
    && Filled(actor) && Filled(at)
  }

  predicate CanMark(s: System, c: nat, actor: string, at: string) {
    && c in s.calls && s.calls[c].stage.Active? && s.calls[c].id in s.drafts && Filled(actor) && Filled(at)
    && s.drafts[s.calls[c].id].status == Approved && s.drafts[s.calls[c].id].validation == s.calls[c].draft.validation
  }

  predicate CanRollback(s: System, digest: Digest, actor: string, reason: string, at: string) {
    && digest in s.releases && Log.IsDigest(digest) && s.record.active.Some? && s.record.active != Some(digest)
    && Filled(actor) && Filled(reason) && Filled(at)
  }

  function Staged(s: System, c: nat, stage: Stage): System
    requires c in s.calls
  {
    s.(calls := s.calls[c := s.calls[c].(stage := stage)])
  }

  ghost predicate Takes(s: System, step: Step, s': System) {
    match step
    case CreateDraft(id, references, expected, actor, at) =>
      && CanCreate(s, id, references, expected, actor, at)
      && s' == s.(drafts := s.drafts[id := Draft(references, expected, actor, at, Drafted, None, None, [])])
    case ValidateDraft(id, actor, sponsored, at) =>
      && CanValidate(s, id, actor, at)
      && s' == s.(drafts := s.drafts[id :=
           Validated(s.drafts[id], s.packages[s.drafts[id].references], s.record.active, actor, sponsored, at)])
    case DecideDraft(id, sponsor, approve, rationale, at) =>
      && CanDecide(s, id, sponsor, rationale, at)
      && s' == s.(drafts := s.drafts[id := Decided(s.drafts[id], sponsor, approve, rationale, at)])
    case BeginCall(c, id) => CanBegin(s, c, id) && s' == s.(calls := s.calls[c := Call(id, s.drafts[id], Read)])
    case CheckPackages(c) => CanCheck(s, c) && s' == Staged(s, c, Checked)
    case MakeRelease(c) =>
      && CanRelease(s, c)
      && var digest := s.packages[s.calls[c].draft.references];
         s' == Staged(s, c, Released(digest)).(releases := s.releases + {digest})
    case FindActive(c) => CanFind(s, c) && s' == Staged(s, c, Active(s.calls[c].stage.digest))
    case MakeActive(c, actor, reason, at) =>
      && CanMakeActive(s, c, actor, at)
      && s' == Staged(s, c, Active(s.calls[c].stage.digest)).(
           record := Log.Changed(s.record, s.calls[c].stage.digest, actor, reason, Log.ACTIVATE, at))
    case MarkActivated(c, actor, at) =>
      && CanMark(s, c, actor, at)
      && s' == s.(drafts := s.drafts[s.calls[c].id := Marked(s.drafts[s.calls[c].id], actor, at)],
                  promoted := s.promoted[s.calls[c].id := s.calls[c].stage.digest],
                  calls := s.calls - {c})
    case Crash(c) => s' == s.(calls := s.calls - {c})
    case Rollback(digest, actor, reason, at) =>
      && CanRollback(s, digest, actor, reason, at)
      && s' == s.(record := Log.Changed(s.record, digest, actor, reason, Log.ROLLBACK, at))
    case ChangePackages => s' == s.(packages := s'.packages)
  }

  ghost predicate Initial(s: System) {
    s.record == Log.EMPTY && s.releases == {} && s.drafts == map[] && s.calls == map[] && s.promoted == map[]
  }

  ghost predicate Chain(trace: seq<System>, steps: seq<Step>) {
    |trace| == |steps| + 1 && forall i | 0 <= i < |steps| :: Takes(trace[i], steps[i], trace[i + 1])
  }

  ghost predicate IsRun(trace: seq<System>, steps: seq<Step>) {
    Chain(trace, steps) && Initial(trace[0])
  }

  lemma ChainOn(trace: seq<System>, steps: seq<Step>, step: Step, s': System)
    requires Chain(trace, steps) && Takes(trace[|steps|], step, s')
    ensures Chain(trace + [s'], steps + [step])
  {
    hide Takes;
    var trace', steps' := trace + [s'], steps + [step];
    forall i | 0 <= i < |steps'| ensures Takes(trace'[i], steps'[i], trace'[i + 1]) {
      if i < |steps| {
        assert Takes(trace[i], steps[i], trace[i + 1]);
      }
    }
  }

  // ---- The invariant ----

  ghost predicate RecordOk(record: Log.State) {
    Log.Readable(record) && Log.Differ(record.history)
  }

  ghost predicate DraftsOk(drafts: map<Id, Draft>) {
    forall id | id in drafts :: DraftReads(drafts[id])
  }

  /** A call holds an approved draft that has since at most been marked activated. */
  ghost predicate CallOk(record: Log.State, drafts: map<Id, Draft>, call: Call) {
    && call.id in drafts && call.draft.validation.Some? && drafts[call.id].status in {Approved, Activated}
    && drafts[call.id].validation == call.draft.validation && drafts[call.id].references == call.draft.references
    && (call.stage.Active? ==> call.stage.digest in Log.Targets(record))
  }

  ghost predicate CallsOk(record: Log.State, drafts: map<Id, Draft>, calls: map<nat, Call>) {
    forall c | c in calls :: CallOk(record, drafts, calls[c])
  }

  ghost predicate PromotedOk(record: Log.State, drafts: map<Id, Draft>, promoted: map<Id, Digest>) {
    && (forall id | id in drafts :: drafts[id].status == Activated <==> id in promoted)
    && (forall id | id in promoted :: id in drafts && promoted[id] in Log.Targets(record))
  }

  ghost predicate Inv(s: System) {
    && RecordOk(s.record) && DraftsOk(s.drafts)
    && CallsOk(s.record, s.drafts, s.calls) && PromotedOk(s.record, s.drafts, s.promoted)
  }

  lemma RecordMoves(s: System, record: Log.State)
    requires Inv(s) && RecordOk(record) && Log.Targets(s.record) <= Log.Targets(record)
    ensures CallsOk(record, s.drafts, s.calls) && PromotedOk(record, s.drafts, s.promoted)
  {
    hide RecordOk, DraftsOk;
    forall c | c in s.calls ensures CallOk(record, s.drafts, s.calls[c]) {
      assert CallOk(s.record, s.drafts, s.calls[c]);
    }
  }

  /** A draft moves on: not one in a call's hands, unless to mark it activated. */
  lemma DraftMoves(s: System, id: Id, draft: Draft)
    requires Inv(s) && DraftReads(draft) && draft.status != Activated
    requires id in s.drafts ==> s.drafts[id].status in {Drafted, PendingApproval}
    ensures Inv(s.(drafts := s.drafts[id := draft]))
  {
    hide RecordOk, DraftReads, Log.Targets;
    forall c | c in s.calls ensures CallOk(s.record, s.drafts[id := draft], s.calls[c]) {
      assert CallOk(s.record, s.drafts, s.calls[c]);
    }
  }

  lemma DraftKeeps(s: System, step: Step, s': System)
    requires Inv(s) && Takes(s, step, s') && (step.CreateDraft? || step.ValidateDraft? || step.DecideDraft?)
    ensures Inv(s')
  {
    hide Inv, Log.IsDigest, Filled;
    match step
    case CreateDraft(id, references, expected, actor, at) =>
      DraftMoves(s, id, s'.drafts[id]);
    case ValidateDraft(id, actor, sponsored, at) =>
      DraftOf(s, id);
      ValidatedReads(s.drafts[id], s.packages[s.drafts[id].references], s.record.active, actor, sponsored, at);
      DraftMoves(s, id, s'.drafts[id]);
    case DecideDraft(id, sponsor, approve, rationale, at) =>
      DraftOf(s, id);
      DecidedReads(s.drafts[id], sponsor, approve, rationale, at);
      DraftMoves(s, id, s'.drafts[id]);
  }

  lemma DraftOf(s: System, id: Id)
    requires Inv(s) && id in s.drafts
    ensures DraftReads(s.drafts[id])
  {}

  lemma ValidatedReads(draft: Draft, digest: Digest, active: Option<Digest>, actor: string, sponsored: bool, at: string)
    requires DraftReads(draft) && draft.status == Drafted && Log.IsDigest(digest) && active == draft.expected
    requires Filled(actor) && Filled(at)
    ensures DraftReads(Validated(draft, digest, active, actor, sponsored, at))
  {
    hide Log.IsDigest;
    assert Filled("Sponsor-authored validated draft") by {
      assert 'S' in "Sponsor-authored validated draft" by {
        assert "Sponsor-authored validated draft"[0] == 'S';
      }
    }
    hide Filled;
  }

  lemma DecidedReads(draft: Draft, sponsor: string, approve: bool, rationale: string, at: string)
    requires DraftReads(draft) && draft.status == PendingApproval && Filled(sponsor) && Filled(rationale) && Filled(at)
    ensures DraftReads(Decided(draft, sponsor, approve, rationale, at))
  {
    hide Log.IsDigest, Filled;
  }

  lemma CallKeeps(s: System, step: Step, s': System)
    requires Inv(s) && Takes(s, step, s')
    requires step.BeginCall? || step.CheckPackages? || step.MakeRelease? || step.FindActive? || step.Crash? || step.ChangePackages?
    ensures Inv(s')
  {
    hide DraftReads, Log.IsDigest, PromotedOk, Log.Differ;
    match step
    case FindActive(c) => Log.ActiveIsTarget(s.record);
    case _ =>
  }

  lemma ActiveKeeps(s: System, c: nat, actor: string, reason: string, at: string, s': System)
    requires Inv(s) && Takes(s, MakeActive(c, actor, reason, at), s')
    ensures Inv(s')
  {
    hide Log.IsDigest, Log.Changed, Log.Targets, DraftsOk, PromotedOk;
    var digest := s.calls[c].stage.digest;
    Log.ChangedReads(s.record, digest, actor, reason, Log.ACTIVATE, at);
    RecordMoves(s, s'.record);
    assert CallOk(s'.record, s.drafts, s.calls[c]);
  }

  lemma RollbackKeeps(s: System, digest: Digest, actor: string, reason: string, at: string, s': System)
    requires Inv(s) && Takes(s, Rollback(digest, actor, reason, at), s')
    ensures Inv(s')
  {
    hide Log.IsDigest, Log.Changed, Log.Targets, DraftsOk, PromotedOk, CallsOk;
    Log.ChangedReads(s.record, digest, actor, reason, Log.ROLLBACK, at);
    RecordMoves(s, s'.record);
  }

  lemma MarkedReads(draft: Draft, actor: string, at: string)
    requires DraftReads(draft) && draft.status == Approved && Filled(actor) && Filled(at)
    ensures DraftReads(Marked(draft, actor, at))
  {
    hide Log.IsDigest, Filled;
  }

  lemma MarkKeeps(s: System, c: nat, actor: string, at: string, s': System)
    requires Inv(s) && Takes(s, MarkActivated(c, actor, at), s')
    ensures Inv(s')
  {
    hide Log.Targets, RecordOk, Filled, DraftReads, Marked;
    var id := s.calls[c].id;
    assert CallOk(s.record, s.drafts, s.calls[c]);
    MarkedReads(s.drafts[id], actor, at);
    MarkedStands(s.drafts[id], actor, at);
    forall k | k in s'.calls ensures CallOk(s'.record, s'.drafts, s'.calls[k]) {
      assert CallOk(s.record, s.drafts, s.calls[k]);
    }
  }

  /** What was asked for, by whom and when, stays, and so do the events. */
  predicate SameRequest(after: Draft, before: Draft) {
    && after.references == before.references && after.expected == before.expected
    && after.createdBy == before.createdBy && after.createdAt == before.createdAt && before.events <= after.events
  }

  lemma ValidatedParts(draft: Draft, digest: Digest, active: Option<Digest>, actor: string, sponsored: bool, at: string)
    ensures var validated := Validated(draft, digest, active, actor, sponsored, at);
      && validated.status == (if sponsored then Approved else PendingApproval) && validated.decision.Some? == sponsored
      && validated.validation == Some(Validation(digest, active, actor, at)) && SameRequest(validated, draft)
  {}

  lemma DecidedParts(draft: Draft, sponsor: string, approve: bool, rationale: string, at: string)
    ensures var decided := Decided(draft, sponsor, approve, rationale, at);
      && decided.status == (if approve then Approved else Rejected) && decided.validation == draft.validation
      && decided.decision == Some(Decision(approve, sponsor, rationale, at, false)) && SameRequest(decided, draft)
  {}

  lemma MarkedStands(draft: Draft, actor: string, at: string)
    ensures var marked := Marked(draft, actor, at);
      marked.status == Activated && marked.validation == draft.validation && marked.decision == draft.decision && SameRequest(marked, draft)
  {}

  lemma StepKeeps(s: System, step: Step, s': System)
    requires Inv(s) && Takes(s, step, s')
    ensures Inv(s')
  {
    hide Inv, Takes;
    match step
    case MakeActive(c, actor, reason, at) => ActiveKeeps(s, c, actor, reason, at, s');
    case Rollback(digest, actor, reason, at) => RollbackKeeps(s, digest, actor, reason, at, s');
    case MarkActivated(c, actor, at) => MarkKeeps(s, c, actor, at, s');
    case CreateDraft(_, _, _, _, _) => DraftKeeps(s, step, s');
    case ValidateDraft(_, _, _, _) => DraftKeeps(s, step, s');
    case DecideDraft(_, _, _, _, _) => DraftKeeps(s, step, s');
    case _ => CallKeeps(s, step, s');
  }

  lemma {:induction false} AlwaysInv(trace: seq<System>, steps: seq<Step>, i: nat)
    requires IsRun(trace, steps) && i < |trace|
    ensures Inv(trace[i])
  {
    hide Takes;
    if i > 0 {
      AlwaysInv(trace, steps, i - 1);
      StepKeeps(trace[i - 1], steps[i - 1], trace[i]);
    }
  }

  // ---- What every run guarantees ----

  /** The activation record stays readable, and its history only grows. */
  lemma {:induction false} HistoryOnlyGrows(trace: seq<System>, steps: seq<Step>, i: nat, j: nat)
    requires IsRun(trace, steps) && i <= j < |trace|
    ensures Log.Readable(trace[j].record) && Log.Differ(trace[j].record.history)
    ensures trace[i].record.history <= trace[j].record.history
    decreases j
  {
    hide Takes, Log.Readable, Log.Differ, DraftsOk, CallsOk, PromotedOk;
    AlwaysInv(trace, steps, j);
    if i < j {
      HistoryOnlyGrows(trace, steps, i, j - 1);
      RecordGrows(trace[j - 1], steps[j - 1], trace[j]);
    }
  }

  lemma RecordGrows(s: System, step: Step, s': System)
    requires Takes(s, step, s')
    ensures s.record.history <= s'.record.history
  {
    hide Log.IsDigest, Filled;
  }

  /** A draft marked activated is validated and approved, whatever was retried or cut short, and the release it was
      promoted under is a target of the history. */
  lemma ActivatedIsApproved(trace: seq<System>, steps: seq<Step>, n: nat, id: Id)
    requires IsRun(trace, steps) && n < |trace| && id in trace[n].drafts && trace[n].drafts[id].status == Activated
    ensures var draft := trace[n].drafts[id];
      && draft.validation.Some? && draft.decision.Some? && draft.decision.value.approved
    ensures id in trace[n].promoted && trace[n].promoted[id] in Log.Targets(trace[n].record)
  {
    hide IsRun, Log.IsDigest, Log.Targets, Log.Readable, CallsOk;
    AlwaysInv(trace, steps, n);
    assert DraftReads(trace[n].drafts[id]);
  }

  // ---- Packages that resolve alike throughout ----

  /** Whenever the references resolve, it is to this digest. */
  predicate ResolvesTo(packages: map<seq<Id>, Digest>, references: seq<Id>, digest: Digest) {
    references in packages ==> packages[references] == digest
  }

  predicate DraftAgrees(draft: Draft, references: seq<Id>, digest: Digest) {
    draft.references == references && draft.validation.Some? ==> draft.validation.value.digest == digest
  }

  predicate CallAgrees(call: Call, references: seq<Id>, digest: Digest) {
    call.draft.references == references && (call.stage.Released? || call.stage.Active?) ==> call.stage.digest == digest
  }

  /** Whatever was validated, released or promoted for these references is this digest. */
  ghost predicate Agrees(s: System, references: seq<Id>, digest: Digest) {
    && (forall id | id in s.drafts :: DraftAgrees(s.drafts[id], references, digest))
    && (forall c | c in s.calls :: CallAgrees(s.calls[c], references, digest))
    && (forall id | id in s.promoted && id in s.drafts && s.drafts[id].references == references :: s.promoted[id] == digest)
  }

  lemma StepAgrees(s: System, step: Step, s': System, references: seq<Id>, digest: Digest)
    requires Takes(s, step, s') && CallsOk(s.record, s.drafts, s.calls) && PromotedOk(s.record, s.drafts, s.promoted)
    requires Agrees(s, references, digest) && ResolvesTo(s.packages, references, digest)
    ensures Agrees(s', references, digest)
  {
    hide Log.IsDigest, Log.Targets, Log.Changed, Filled;
    if step.MarkActivated? {
      assert CallOk(s.record, s.drafts, s.calls[step.c]);
    }
  }

  lemma {:induction false} AlwaysAgrees(trace: seq<System>, steps: seq<Step>, i: nat, references: seq<Id>, digest: Digest)
    requires IsRun(trace, steps) && i < |trace| && forall k | 0 <= k < i :: ResolvesTo(trace[k].packages, references, digest)
    ensures Agrees(trace[i], references, digest)
  {
    hide Takes, Agrees, ResolvesTo, RecordOk, DraftsOk, CallsOk, PromotedOk;
    if i == 0 {
      NothingYet(trace[0], references, digest);
    } else {
      AlwaysAgrees(trace, steps, i - 1, references, digest);
      AlwaysInv(trace, steps, i - 1);
      StepAgrees(trace[i - 1], steps[i - 1], trace[i], references, digest);
    }
  }

  lemma NothingYet(s: System, references: seq<Id>, digest: Digest)
    requires Initial(s)
    ensures Agrees(s, references, digest)
  {}

  /** While a draft's references resolve alike whenever they resolve, it is marked activated only with its validated
      digest in the history, whatever is retried, cut short or interleaved. */
  lemma ActivatedAsValidated(trace: seq<System>, steps: seq<Step>, n: nat, id: Id, digest: Digest)
    requires IsRun(trace, steps) && n < |trace| && id in trace[n].drafts && trace[n].drafts[id].status == Activated
    requires forall k | 0 <= k < n :: ResolvesTo(trace[k].packages, trace[n].drafts[id].references, digest)
    ensures trace[n].drafts[id].validation.Some? && trace[n].drafts[id].validation.value.digest == digest
    ensures id in trace[n].promoted && trace[n].promoted[id] == digest && digest in Log.Targets(trace[n].record)
  {
    hide IsRun, DraftReads, Log.Targets, ResolvesTo;
    ActivatedIsApproved(trace, steps, n, id);
    AlwaysAgrees(trace, steps, n, trace[n].drafts[id].references, digest);
    assert DraftAgrees(trace[n].drafts[id], trace[n].drafts[id].references, digest);
  }

  // ---- When they do not ----

  /** The call goes on holding what it read, at this stage. */
  predicate Stands(s: System, c: nat, draft: Draft, stage: Stage) {
    c in s.calls && s.calls[c].draft == draft && s.calls[c].stage == stage
  }

  lemma StageChanges(s: System, step: Step, s': System, c: nat)
    requires Takes(s, step, s') && c in s'.calls && s'.calls[c].stage != Read
    ensures c in s.calls && s.calls[c].draft == s'.calls[c].draft && s.calls[c].id == s'.calls[c].id
    ensures s.calls[c].stage == s'.calls[c].stage
            || (s'.calls[c].stage == Checked && step == CheckPackages(c))
            || (s'.calls[c].stage.Released? && step == MakeRelease(c) && s.calls[c].draft.references in s.packages
                && s'.calls[c].stage.digest == s.packages[s.calls[c].draft.references])
            || (s'.calls[c].stage.Active? && s.calls[c].stage == Released(s'.calls[c].stage.digest)
                && (step == FindActive(c) || (step.MakeActive? && step.c == c)))
  {
    hide Log.IsDigest, Log.Changed, Filled;
  }

  /** A call that has made its release made it of what the references then resolved to. */
  lemma {:induction false} ReleasedAt(trace: seq<System>, steps: seq<Step>, n: nat, c: nat) returns (k: nat)
    requires IsRun(trace, steps) && n < |trace| && c in trace[n].calls && trace[n].calls[c].stage.Released?
    ensures k < n && steps[k] == MakeRelease(c) && trace[n].calls[c].draft.references in trace[k].packages
    ensures trace[n].calls[c].stage.digest == trace[k].packages[trace[n].calls[c].draft.references]
    ensures forall j | k < j <= n :: Stands(trace[j], c, trace[n].calls[c].draft, trace[n].calls[c].stage)
  {
    hide Takes;
    assert Takes(trace[n - 1], steps[n - 1], trace[n]);
    StageChanges(trace[n - 1], steps[n - 1], trace[n], c);
    if trace[n - 1].calls[c].stage == trace[n].calls[c].stage {
      k := ReleasedAt(trace, steps, n - 1, c);
    } else {
      k := n - 1;
    }
  }

  /** A call whose release is active found it so, or made it so, at a step after it made the release. */
  lemma {:induction false} ActivatedAt(trace: seq<System>, steps: seq<Step>, n: nat, c: nat) returns (k: nat, m: nat)
    requires IsRun(trace, steps) && n < |trace| && c in trace[n].calls && trace[n].calls[c].stage.Active?
    ensures k < m < n && steps[k] == MakeRelease(c) && trace[n].calls[c].draft.references in trace[k].packages
    ensures trace[n].calls[c].stage.digest == trace[k].packages[trace[n].calls[c].draft.references]
    ensures steps[m] == FindActive(c) || (steps[m].MakeActive? && steps[m].c == c)
    ensures forall j | k < j <= m :: Stands(trace[j], c, trace[n].calls[c].draft, Released(trace[n].calls[c].stage.digest))
  {
    hide Takes;
    assert Takes(trace[n - 1], steps[n - 1], trace[n]);
    StageChanges(trace[n - 1], steps[n - 1], trace[n], c);
    if trace[n - 1].calls[c].stage == trace[n].calls[c].stage {
      k, m := ActivatedAt(trace, steps, n - 1, c);
    } else {
      m := n - 1;
      k := ReleasedAt(trace, steps, m, c);
    }
  }

  lemma ActivationAdds(s: System, step: Step, s': System, c: nat)
    requires Inv(s) && Takes(s, step, s') && c in s.calls && s.calls[c].stage.Released?
    requires step == FindActive(c) || (step.MakeActive? && step.c == c)
    ensures Log.Targets(s'.record) == Log.Targets(s.record) + {s.calls[c].stage.digest}
  {
    hide Log.IsDigest, Log.Changed, Log.Targets, DraftsOk, PromotedOk, CallsOk;
    if step.MakeActive? {
      Log.ChangedReads(s.record, s.calls[c].stage.digest, step.actor, step.reason, Log.ACTIVATE, step.at);
    } else {
      Log.ActiveIsTarget(s.record);
    }
  }

  /** A call that marks its draft activated had made its release at step `k` and activated it at step `m`. The release
      is of what the references resolved to at `k`, not of what was validated: the validated digest enters the history
      at `m` exactly when the packages at `k` still resolved to it. */
  lemma MarkedAsValidatedExactly(trace: seq<System>, steps: seq<Step>, n: nat, c: nat, actor: string, at: string)
    returns (k: nat, m: nat)
    requires IsRun(trace, steps) && n < |steps| && steps[n] == MarkActivated(c, actor, at)
    ensures c in trace[n].calls && trace[n].calls[c].id in trace[n + 1].drafts
    ensures var id, call := trace[n].calls[c].id, trace[n].calls[c];
      && trace[n + 1].drafts[id].status == Activated && call.draft.validation.Some?
      && trace[n + 1].drafts[id].validation == call.draft.validation
      && id in trace[n + 1].promoted && trace[n + 1].promoted[id] == call.stage.digest
    ensures k < m < n && steps[k] == MakeRelease(c) && (steps[m] == FindActive(c) || (steps[m].MakeActive? && steps[m].c == c))
    ensures var call := trace[n].calls[c]; var references, validated := call.draft.references, call.draft.validation.value.digest;
      && references in trace[k].packages && call.stage.digest == trace[k].packages[references]
      && Log.Targets(trace[m + 1].record) == Log.Targets(trace[m].record) + {trace[k].packages[references]}
      && (validated !in Log.Targets(trace[m].record) ==>
            (validated in Log.Targets(trace[m + 1].record) <==> trace[k].packages[references] == validated))
  {
    hide Log.IsDigest, Log.Targets, Filled, Log.Readable, Log.Differ, DraftReads, Stands;
    AlwaysInv(trace, steps, n);
    assert Takes(trace[n], steps[n], trace[n + 1]);
    assert CallOk(trace[n].record, trace[n].drafts, trace[n].calls[c]);
    hide Takes, Inv, CallOk;
    k, m := ActivatedAt(trace, steps, n, c);
    AlwaysInv(trace, steps, m);
    StandsAt(trace[m], c, trace[n].calls[c].draft, Released(trace[n].calls[c].stage.digest));
    assert Takes(trace[m], steps[m], trace[m + 1]);
    ActivationAdds(trace[m], steps[m], trace[m + 1], c);
  }

  lemma StandsAt(s: System, c: nat, draft: Draft, stage: Stage)
    requires Stands(s, c, draft, stage)
    ensures c in s.calls && s.calls[c].stage == stage
  {}

  // ---- Runs of one call ----

  lemma CheckedCall(s: System, c: nat, id: Id) returns (trace: seq<System>, steps: seq<Step>)
    requires CanBegin(s, c, id)
    requires s.drafts[id].references in s.packages && s.packages[s.drafts[id].references] == s.drafts[id].validation.value.digest
    ensures Chain(trace, steps) && trace[0] == s
    ensures trace[|steps|] == s.(calls := s.calls[c := Call(id, s.drafts[id], Checked)])
  {
    var t1 := s.(calls := s.calls[c := Call(id, s.drafts[id], Read)]);
    var t2 := Staged(t1, c, Checked);
    assert Takes(s, BeginCall(c, id), t1);
    assert Takes(t1, CheckPackages(c), t2);
    trace, steps := [s, t1, t2], [BeginCall(c, id), CheckPackages(c)];
  }

  lemma ReleasedCall(s: System, c: nat)
    requires CanRelease(s, c)
    ensures var digest := s.packages[s.calls[c].draft.references];
      Takes(s, MakeRelease(c), Staged(s, c, Released(digest)).(releases := s.releases + {digest}))
  {}

  lemma FoundCall(s: System, c: nat)
    requires CanFind(s, c)
    ensures Takes(s, FindActive(c), Staged(s, c, Active(s.calls[c].stage.digest)))
  {}

  lemma MarkedCall(s: System, c: nat, actor: string, at: string)
    requires CanMark(s, c, actor, at)
    ensures Takes(s, MarkActivated(c, actor, at),
                  s.(drafts := s.drafts[s.calls[c].id := Marked(s.drafts[s.calls[c].id], actor, at)],
                     promoted := s.promoted[s.calls[c].id := s.calls[c].stage.digest],
                     calls := s.calls - {c}))
  {}

  /** A call that crashed after making its release active is finished by another, without a second event. */
  lemma RetryAfterCrash(s: System, c: nat, id: Id, actor: string, at: string) returns (trace: seq<System>, steps: seq<Step>)
    requires Inv(s) && CanBegin(s, c, id) && Filled(actor) && Filled(at)
    requires s.drafts[id].references in s.packages && s.packages[s.drafts[id].references] == s.drafts[id].validation.value.digest
    requires s.record.active == Some(s.drafts[id].validation.value.digest)
    ensures Chain(trace, steps) && trace[0] == s
    ensures var last := trace[|steps|];
      last.record == s.record && id in last.drafts && last.drafts[id].status == Activated
  {
    hide Inv, Takes, Log.IsDigest, Filled, Chain;
    DraftOf(s, id);
    DigestOf(s.drafts[id]);
    hide DraftReads;
    var draft := s.drafts[id];
    var digest := draft.validation.value.digest;
    trace, steps := CheckedCall(s, c, id);
    ChainEnds(trace, steps);
    var t2 := trace[|steps|];
    ReleasedCall(t2, c);
    var t3 := Staged(t2, c, Released(digest)).(releases := s.releases + {digest});
    FoundCall(t3, c);
    var t4 := Staged(t3, c, Active(digest));
    MarkedCall(t4, c, actor, at);
    var t5 := t4.(drafts := t4.drafts[id := Marked(draft, actor, at)], promoted := t4.promoted[id := digest], calls := t4.calls - {c});
    trace, steps := Append3(trace, steps, MakeRelease(c), t3, FindActive(c), t4, MarkActivated(c, actor, at), t5);
  }

  lemma ChainEnds(trace: seq<System>, steps: seq<Step>)
    requires Chain(trace, steps)
    ensures |trace| == |steps| + 1
  {
    hide Takes;
  }

  lemma Append3(trace: seq<System>, steps: seq<Step>, a: Step, s1: System, b: Step, s2: System, c: Step, s3: System)
    returns (trace': seq<System>, steps': seq<Step>)
    requires Chain(trace, steps) && Takes(trace[|steps|], a, s1) && Takes(s1, b, s2) && Takes(s2, c, s3)
    ensures Chain(trace', steps') && trace'[0] == trace[0] && |steps'| == |steps| + 3 && trace'[|steps'|] == s3
  {
    hide Takes;
    ChainOn(trace, steps, a, s1);
    ChainOn(trace + [s1], steps + [a], b, s2);
    ChainOn(trace + [s1] + [s2], steps + [a] + [b], c, s3);
    trace', steps' := trace + [s1] + [s2] + [s3], steps + [a] + [b] + [c];
  }

  lemma DigestOf(draft: Draft)
    requires DraftReads(draft) && draft.validation.Some?
    ensures Log.IsDigest(draft.validation.value.digest)
  {
    hide Log.IsDigest, Filled;
  }

  lemma ActivatedCall(s: System, c: nat, actor: string, reason: string, at: string)
    requires CanMakeActive(s, c, actor, at)
    ensures Takes(s, MakeActive(c, actor, reason, at),
                  Staged(s, c, Active(s.calls[c].stage.digest)).(
                    record := Log.Changed(s.record, s.calls[c].stage.digest, actor, reason, Log.ACTIVATE, at)))
  {}

  lemma Append2(trace: seq<System>, steps: seq<Step>, a: Step, s1: System, b: Step, s2: System)
    returns (trace': seq<System>, steps': seq<Step>)
    requires Chain(trace, steps) && Takes(trace[|steps|], a, s1) && Takes(s1, b, s2)
    ensures Chain(trace', steps') && trace'[0] == trace[0] && |steps'| == |steps| + 2 && trace'[|steps'|] == s2
  {
    hide Takes;
    ChainOn(trace, steps, a, s1);
    ChainOn(trace + [s1], steps + [a], b, s2);
    trace', steps' := trace + [s1] + [s2], steps + [a] + [b];
  }

  /** Because the second resolution is not compared, a change of content between the two promotes another release: the
      draft is marked activated although its validated digest never enters the history. */
  lemma ChangedContentIsPromoted(s: System, c: nat, id: Id, other: Digest, actor: string, reason: string, at: string)
    returns (trace: seq<System>, steps: seq<Step>)
    requires Inv(s) && CanBegin(s, c, id) && Filled(actor) && Filled(at) && Log.IsDigest(other)
    requires s.drafts[id].references in s.packages && s.packages[s.drafts[id].references] == s.drafts[id].validation.value.digest
    requires s.record.active == s.drafts[id].expected && s.record.active != Some(other)
    requires s.drafts[id].validation.value.digest !in Log.Targets(s.record) + {other}
    ensures Chain(trace, steps) && trace[0] == s
    ensures var last := trace[|steps|];
      && id in last.drafts && last.drafts[id].status == Activated && last.drafts[id].validation == s.drafts[id].validation
      && s.drafts[id].validation.value.digest !in Log.Targets(last.record)
  {
    hide Inv, Takes, Log.IsDigest, Log.Blank, Chain, Log.Changed, Log.Targets;
    var draft := s.drafts[id];
    trace, steps := CheckedCall(s, c, id);
    ChainEnds(trace, steps);
    var t2 := trace[|steps|];
    var t3 := t2.(packages := t2.packages[draft.references := other]);
    Repackaged(t2, t3);
    ReleasedCall(t3, c);
    var t4 := Staged(t3, c, Released(other)).(releases := s.releases + {other});
    trace, steps := Append2(trace, steps, ChangePackages, t3, MakeRelease(c), t4);
    ActivatedCall(t4, c, actor, reason, at);
    var t5 := Staged(t4, c, Active(other)).(record := Log.Changed(s.record, other, actor, reason, Log.ACTIVATE, at));
    MarkedCall(t5, c, actor, at);
    var t6 := t5.(drafts := t5.drafts[id := Marked(draft, actor, at)], promoted := t5.promoted[id := other], calls := t5.calls - {c});
    trace, steps := Append2(trace, steps, MakeActive(c, actor, reason, at), t5, MarkActivated(c, actor, at), t6);
    RecordOf(s);
    Log.ChangedReads(s.record, other, actor, reason, Log.ACTIVATE, at);
  }

  lemma Repackaged(s: System, s': System)
    requires s' == s.(packages := s'.packages)
    ensures Takes(s, ChangePackages, s')
  {}

  lemma RecordOf(s: System)
    requires Inv(s)
    ensures Log.Readable(s.record) && Log.Differ(s.record.history)
  {
    hide Log.Readable, Log.Differ, DraftsOk, CallsOk, PromotedOk;
  }

  const PACKED: Digest := seq(64, _ => 'a')
  const CHANGED: Digest := seq(64, _ => 'b')

  lemma DigestsDiffer()
    ensures Log.IsDigest(PACKED) && Log.IsDigest(CHANGED) && PACKED != CHANGED && Filled("x")
  {
    assert PACKED[0] != CHANGED[0];
    assert "x"[0] in "x";
  }

  /** A draft created, and validated on a sponsor's word. */
  lemma DraftApproved() returns (s: System, trace: seq<System>, steps: seq<Step>)
    ensures IsRun(trace, steps) && |steps| == 2 && trace[2] == s
    ensures s.record == Log.EMPTY && s.calls == map[] && s.packages == map[["p"] := PACKED]
    ensures "d" in s.drafts && s.drafts["d"].status == Approved && s.drafts["d"].references == ["p"] && s.drafts["d"].expected == None
    ensures s.drafts["d"].validation == Some(Validation(PACKED, None, "x", "x"))
  {
    DigestsDiffer();
    hide Log.IsDigest, Filled, Inv;
    var start := System(Log.EMPTY, {}, map[], map[["p"] := PACKED], map[], map[]);
    var created := start.(drafts := map["d" := Draft(["p"], None, "x", "x", Drafted, None, None, [])]);
    s := created.(drafts := map["d" := Validated(created.drafts["d"], PACKED, None, "x", true, "x")]);
    assert Takes(start, CreateDraft("d", ["p"], None, "x", "x"), created);
    assert Takes(created, ValidateDraft("d", "x", true, "x"), s);
    trace, steps := [start, created, s], [CreateDraft("d", ["p"], None, "x", "x"), ValidateDraft("d", "x", true, "x")];
  }

  lemma NoTargets()
    ensures Log.Targets(Log.EMPTY) == {}
  {}

  /** Such a state is reached from nothing. */
  lemma ChangedContentArises() returns (s: System, trace: seq<System>, steps: seq<Step>)
    ensures IsRun(trace, steps)
    ensures var last := trace[|steps|];
      && "d" in last.drafts && last.drafts["d"].status == Activated && last.drafts["d"].validation.Some?
      && last.drafts["d"].validation.value.digest !in Log.Targets(last.record)
  {
    DigestsDiffer();
    NoTargets();
    hide Inv, Takes, Log.IsDigest, Filled, Log.Targets;
    s, trace, steps := DraftApproved();
    AlwaysInv(trace, steps, 2);
    var more, later := ChangedContentIsPromoted(s, 0, "d", CHANGED, "x", "", "x");
    ChainJoin(trace, steps, more, later);
    trace, steps := trace + more[1..], steps + later;
  }

  lemma ChainJoin(trace: seq<System>, steps: seq<Step>, more: seq<System>, later: seq<Step>)
    requires Chain(trace, steps) && Chain(more, later) && more[0] == trace[|steps|]
    ensures Chain(trace + more[1..], steps + later)
  {
    hide Takes;
    var trace', steps' := trace + more[1..], steps + later;
    forall i | 0 <= i < |steps'| ensures Takes(trace'[i], steps'[i], trace'[i + 1]) {
      if i < |steps| {
        assert Takes(trace[i], steps[i], trace[i + 1]);
      } else {
        assert Takes(more[i - |steps|], later[i - |steps|], more[i - |steps| + 1]);
      }
    }
  }
}
