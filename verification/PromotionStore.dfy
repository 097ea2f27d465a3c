/** The draft files of one project, rewritten under the activation store's lock. */
module PromotionStore {
  import opened Wrappers
  import opened ConfigPromotions
  import Log = ConfigActivation

  datatype Fault = NotFound | Conflict | Invalid

  class Store {
    const activation: Log.ActivationStore
    var drafts: map<Id, Draft>
    var packages: map<seq<Id>, Digest>

    /** Every stored draft can be read back. */
    ghost predicate Valid()
      reads this, activation
    {
      activation.Valid() && DraftsOk(drafts)
    }

    constructor (activation: Log.ActivationStore, packages: map<seq<Id>, Digest>)
      requires activation.Valid()
      ensures Valid() && this.activation == activation && drafts == map[]
    {
      this.activation, this.drafts, this.packages := activation, map[], packages;
    }

    /** Reads a draft, refusing any record that no store would have written. */
    method ReadDraft(id: Id) returns (result: Result<Draft, Fault>)
      ensures result == if id !in drafts then Failure(NotFound)
                        else if DraftReads(drafts[id]) then Success(drafts[id]) else Failure(Invalid)
    {
      if id !in drafts {
        return Failure(NotFound);
      }
      return if DraftReads(drafts[id]) then Success(drafts[id]) else Failure(Invalid);
    }

    method ReadActive() returns (active: Option<Digest>)
      requires activation.Valid()
      ensures active == activation.Current().active
    {
      hide Log.Readable;
      var state := activation.ReadState();
      ReadableNow();
      return state.value.active;
    }

    lemma ReadableNow()
      requires activation.Valid()
      ensures Log.Readable(activation.Current())
    {
      hide Log.Readable;
    }

    method Create(id: Id, references: seq<Id>, expected: Option<Digest>, actor: string, at: string)
      returns (result: Result<Draft, Fault>)
      requires Valid() && Filled(at)
      modifies `drafts
      ensures Valid()
      ensures var well := references != [] && Distinct(references) && Filled(actor) && (expected.Some? ==> Log.IsDigest(expected.value));
        if !well then result == Failure(Invalid) && drafts == old(drafts)
        else if id in old(drafts) then
          && drafts == old(drafts)
          && result == if old(drafts)[id].references == references && old(drafts)[id].expected == expected
                          && old(drafts)[id].createdBy == actor
                       then Success(old(drafts)[id]) else Failure(Conflict)
        else if activation.Current().active != expected then result == Failure(Conflict) && drafts == old(drafts)
        else result == Success(Draft(references, expected, actor, at, Drafted, None, None, []))
             && drafts == old(drafts)[id := result.value]
    {
      hide Log.IsDigest, Filled, Log.Readable, Log.Differ, Log.Targets;
      if references == [] || !Distinct(references) || !Filled(actor) || (expected.Some? && !Log.IsDigest(expected.value)) {
        return Failure(Invalid);
      }
      if id in drafts {
        var read := ReadDraft(id);
        var existing := read.value;
        return if existing.references == references && existing.expected == expected && existing.createdBy == actor
               then Success(existing) else Failure(Conflict);
      }
      var active := ReadActive();
      if active != expected {
        return Failure(Conflict);
      }
      var draft := Draft(references, expected, actor, at, Drafted, None, None, []);
      drafts := drafts[id := draft];
      return Success(draft);
    }

    /** Validates a draft against what its references resolve to now; a sponsor's own draft is approved with it. */
    method Validate(id: Id, actor: string, sponsored: bool, at: string) returns (result: Result<Draft, Fault>)
      requires Valid() && Filled(at)
      modifies `drafts
      ensures Valid() && (id !in old(drafts) ==> result.Failure?)
      ensures result.Failure? ==> drafts == old(drafts)
      ensures result.Success? && old(drafts)[id].status == Drafted ==>
                && activation.Current().active == old(drafts)[id].expected && old(drafts)[id].references in packages
                && result.value == Validated(old(drafts)[id], packages[old(drafts)[id].references],
                                             activation.Current().active, actor, sponsored, at)
                && drafts == old(drafts)[id := result.value]
                && result.value.status == (if sponsored then Approved else PendingApproval)
                && result.value.validation == Some(Validation(packages[old(drafts)[id].references], old(drafts)[id].expected, actor, at))
                && result.value.decision.Some? == sponsored && SameRequest(result.value, old(drafts)[id])
      ensures Filled(actor) && id in old(drafts) && old(drafts)[id].status == Drafted ==>
                (result.Success? <==> activation.Current().active == old(drafts)[id].expected && old(drafts)[id].references in packages
                                      && Log.IsDigest(packages[old(drafts)[id].references]))
      ensures result.Success? && old(drafts)[id].status != Drafted ==>
                && drafts == old(drafts) && result.value == drafts[id] && drafts[id].references in packages
                && drafts[id].validation.value.digest == packages[drafts[id].references]
    {
      hide Log.IsDigest, Filled, Log.Readable, Log.Differ, Log.Targets, Validated;
      if !Filled(actor) {
        return Failure(Invalid);
      }
      var draft :- ReadDraft(id);
      var active := ReadActive();
      if active != draft.expected {
        return Failure(Conflict);
      }
      if draft.references !in packages || !Log.IsDigest(packages[draft.references]) {
        return Failure(Conflict);
      }
      var digest := packages[draft.references];
      if draft.status != Drafted {
        return if draft.validation.value.digest == digest && draft.validation.value.active == active
               then Success(draft) else Failure(Conflict);
      }
      ValidatedParts(draft, digest, active, actor, sponsored, at);
      ValidatedReads(draft, digest, active, actor, sponsored, at);
      drafts := drafts[id := Validated(draft, digest, active, actor, sponsored, at)];
      return Success(drafts[id]);
    }

    /** Decides a draft that awaits a decision; deciding it the same way again answers with the draft. */
    method Decide(id: Id, sponsor: string, approve: bool, rationale: string, at: string) returns (result: Result<Draft, Fault>)
      requires Valid() && Filled(at)
      modifies `drafts
      ensures Valid() && (id !in old(drafts) ==> result.Failure?)
      ensures result.Failure? ==> drafts == old(drafts)
      ensures id in old(drafts) && old(drafts)[id].status == PendingApproval && Filled(sponsor) && Filled(rationale) ==>
                result == Success(Decided(old(drafts)[id], sponsor, approve, rationale, at))
                && drafts == old(drafts)[id := result.value]
                && result.value.status == (if approve then Approved else Rejected)
                && result.value.decision == Some(Decision(approve, sponsor, rationale, at, false))
                && result.value.validation == old(drafts)[id].validation && SameRequest(result.value, old(drafts)[id])
      ensures result.Success? && old(drafts)[id].status != PendingApproval ==>
                drafts == old(drafts) && result.value == drafts[id] && drafts[id].decision.Some?
                && drafts[id].decision.value.approved == approve && drafts[id].decision.value.actor == sponsor
    {
      hide Log.IsDigest, Filled, Log.Readable, Log.Differ, Log.Targets, Decided;
      if !Filled(sponsor) || !Filled(rationale) {
        return Failure(Invalid);
      }
      var draft :- ReadDraft(id);
      if draft.status != PendingApproval {
        var target := if approve then Approved else Rejected;
        return if draft.status == target && draft.decision.Some? && draft.decision.value.approved == approve
                  && draft.decision.value.actor == sponsor && draft.decision.value.rationale == rationale
                  && !draft.decision.value.implied
               then Success(draft) else Failure(Conflict);
      }
      DecidedParts(draft, sponsor, approve, rationale, at);
      DecidedReads(draft, sponsor, approve, rationale, at);
      drafts := drafts[id := Decided(draft, sponsor, approve, rationale, at)];
      return Success(drafts[id]);
    }

    /** Marks a draft activated, if it is still the approved draft the caller read. */
    method Mark(id: Id, read: Draft, actor: string, at: string) returns (result: Result<Draft, Fault>)
      requires Valid() && Filled(at) && Filled(actor)
      modifies `drafts
      ensures Valid()
      ensures if id in old(drafts) && old(drafts)[id].status == Approved && old(drafts)[id].validation == read.validation
              then drafts == old(drafts)[id := Marked(old(drafts)[id], actor, at)] && result == Success(drafts[id])
              else drafts == old(drafts)
                   && (result.Success? <==> id in drafts && drafts[id].status == Activated)
                   && (result.Success? ==> result.value == drafts[id])
    {
      hide Log.IsDigest, Filled, Log.Readable, Log.Differ, Log.Targets, Marked;
      var latest :- ReadDraft(id);
      if latest.status == Activated {
        return Success(latest);
      }
      if latest.status != Approved || latest.validation != read.validation {
        return Failure(Conflict);
      }
      MarkedReads(latest, actor, at);
      drafts := drafts[id := Marked(latest, actor, at)];
      return Success(drafts[id]);
    }

    /** The whole promotion, when no other call comes between its steps: the packages then resolve alike both times, so
        the draft's validated digest is active and in the history when it is marked activated. */
    method Activate(id: Id, actor: string, reason: string, at: string) returns (result: Result<Draft, Fault>)
      requires Valid() && Filled(at)
      modifies `drafts, activation
      ensures Valid() && old(activation.Current()).history <= activation.Current().history
      ensures id !in old(drafts) ==> result.Failure?
      ensures result.Success? ==> result.value.status == Activated && id in drafts && drafts[id] == result.value
      ensures result.Success? && old(drafts)[id].status == Approved ==>
                && result.value.validation.Some?
                && activation.Current().active == Some(result.value.validation.value.digest)
                && result.value.validation.value.digest in Log.Targets(activation.Current())
      ensures result.Success? && old(drafts)[id].status == Activated ==> drafts == old(drafts)
      ensures id in old(drafts) && Filled(actor) ==>
                var draft, active := old(drafts)[id], old(activation.Current()).active;
                (result.Success? <==>
                   || draft.status == Activated
                   || (draft.status == Approved && draft.references in packages
                       && packages[draft.references] == draft.validation.value.digest
                       && (active == Some(draft.validation.value.digest) || active == draft.expected)))
      ensures result.Success? && old(drafts)[id].status == Approved ==>
                SameRequest(result.value, old(drafts)[id]) && result.value.decision == old(drafts)[id].decision
    {
      hide Log.IsDigest, Log.Blank, Log.Readable, Log.Differ, Log.Targets, Marked;
      if !Filled(actor) {
        return Failure(Invalid);
      }
      var draft :- ReadDraft(id);
      if draft.status == Activated {
        return Success(draft);
      }
      if draft.status != Approved || draft.validation.None? {
        return Failure(Conflict);
      }
      if draft.references !in packages || packages[draft.references] != draft.validation.value.digest {
        return Failure(Conflict);
      }
      var release := packages[draft.references];
      activation.CreateRelease(release);
      var active := ReadActive();
      if active != Some(release) {
        var changed := activation.Activate(release, actor, reason, Some(draft.expected), at);
        if changed.Failure? {
          return Failure(Conflict);
        }
      }
      ReadableNow();
      Log.ActiveIsTarget(activation.Current());
      result := Mark(id, draft, actor, at);
      MarkedStands(draft, actor, at);
    }
  }
}
