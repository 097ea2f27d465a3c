/** The activation record of a configuration repository: a file rewritten under a lock, and read back with suspicion. */
module ConfigActivation {
  import opened Wrappers

  type Digest = string

  predicate IsDigest(text: string) {
    |text| == 64 && forall c | c in text :: '0' <= c <= '9' || 'a' <= c <= 'f'
  }

  predicate Space(c: char) {
    c in {' ', '\t', '\n', '\r'}
  }

  predicate Blank(text: string) {
    forall c | c in text :: Space(c)
  }

  function StripLeft(text: string): string {
    if text != "" && Space(text[0]) then StripLeft(text[1..]) else text
  }

  function StripRight(text: string): string {
    if text != "" && Space(text[|text| - 1]) then StripRight(text[..|text| - 1]) else text
  }

  function Strip(text: string): string {
    StripRight(StripLeft(text))
  }

  lemma {:induction false} StripLeftKeeps(text: string)
    ensures Blank(StripLeft(text)) <==> Blank(text)
    ensures Blank(text) ==> StripLeft(text) == ""
  {
    if text != "" && Space(text[0]) {
      StripLeftKeeps(text[1..]);
      assert text == [text[0]] + text[1..];
    }
  }

  lemma {:induction false} StripRightKeeps(text: string)
    ensures Blank(StripRight(text)) <==> Blank(text)
    ensures Blank(text) ==> StripRight(text) == ""
  {
    var n := |text| - 1;
    if text != "" && Space(text[n]) {
      StripRightKeeps(text[..n]);
      assert text == text[..n] + [text[n]];
    }
  }

  /** Stripping empties exactly the blank texts, and leaves no other one blank. */
  lemma StripExact(text: string)
    ensures Strip(text) == "" <==> Blank(text)
    ensures Blank(Strip(text)) <==> Blank(text)
  {
    StripLeftKeeps(text);
    StripRightKeeps(StripLeft(text));
  }

  // ---- The record ----

  const ACTIVATE := "activate"
  const ROLLBACK := "rollback"

  datatype Event = Event(
    revision: int, action: string, actor: string, reason: string, previous: Option<Digest>, target: Digest, timestamp: string
  )

  datatype State = State(revision: int, active: Option<Digest>, history: seq<Event>)

  const EMPTY := State(0, None, [])

  datatype ActivationError = InvalidState | InvalidInput | ReleaseMissing | ActiveChanged | NothingActive

  /** The digest that the first events of a history leave active. */
  function ActiveAfter(history: seq<Event>): Option<Digest> {
    if history == [] then None else Some(history[|history| - 1].target)
  }

  predicate EventReads(event: Event, revision: int, previous: Option<Digest>) {
    && event.revision == revision && event.action in {ACTIVATE, ROLLBACK}
    && !Blank(event.actor) && event.previous == previous && IsDigest(event.target) && !Blank(event.timestamp)
    && (event.action == ROLLBACK ==> previous.Some? && !Blank(event.reason))
  }

  /** What a record must be to be read: its events are numbered, link up, and lead to the active digest. */
  ghost predicate Readable(state: State) {
    && state.revision == |state.history|
    && (forall i | 0 <= i < |state.history| :: EventReads(state.history[i], i + 1, ActiveAfter(state.history[..i])))
    && state.active == ActiveAfter(state.history)
  }

  /** No activation is recorded of what was already active. */
  ghost predicate Differ(history: seq<Event>) {
    forall i | 0 < i < |history| :: history[i].target != history[i - 1].target
  }

  ghost function Targets(state: State): set<Digest> {
    set e | e in state.history :: e.target
  }

  /** The record after one more activation. */
  function Changed(state: State, digest: Digest, actor: string, reason: string, action: string, timestamp: string): State {
    State(state.revision + 1, Some(digest),
          state.history + [Event(state.revision + 1, action, actor, Strip(reason), state.active, digest, timestamp)])
  }

  /** A record written after a readable one is readable itself, keeps every earlier event, and moves to another digest. */
  lemma ChangedReads(state: State, digest: Digest, actor: string, reason: string, action: string, timestamp: string)
    requires Readable(state) && Differ(state.history)
    requires IsDigest(digest) && state.active != Some(digest) && !Blank(actor) && !Blank(timestamp)
    requires action == ACTIVATE || (action == ROLLBACK && state.active.Some? && !Blank(reason))
    ensures var changed := Changed(state, digest, actor, reason, action, timestamp);
      && Readable(changed) && Differ(changed.history) && state.history <= changed.history
      && Targets(changed) == Targets(state) + {digest}
  {
    hide IsDigest, Blank, Strip, EventReads, ActiveAfter, Targets;
    NewEventReads(state, digest, actor, reason, action, timestamp);
    var event := Event(state.revision + 1, action, actor, Strip(reason), state.active, digest, timestamp);
    EventsRead(state.history, event);
    LastActive(state.history, event);
    TargetsGrow(state, event);
    StaysDifferent(state.history, event);
  }

  lemma EventsRead(history: seq<Event>, event: Event)
    requires forall i | 0 <= i < |history| :: EventReads(history[i], i + 1, ActiveAfter(history[..i]))
    requires EventReads(event, |history| + 1, ActiveAfter(history))
    ensures forall i | 0 <= i < |history + [event]| ::
              EventReads((history + [event])[i], i + 1, ActiveAfter((history + [event])[..i]))
  {
    hide EventReads, ActiveAfter;
    forall i | 0 <= i < |history + [event]|
      ensures EventReads((history + [event])[i], i + 1, ActiveAfter((history + [event])[..i]))
    {
      assert (history + [event])[..i] == history[..i];
      assert history[..|history|] == history;
    }
  }

  lemma LastActive(history: seq<Event>, event: Event)
    ensures ActiveAfter(history + [event]) == Some(event.target)
    ensures history != [] ==> ActiveAfter(history) == Some(history[|history| - 1].target)
  {}

  lemma StaysDifferent(history: seq<Event>, event: Event)
    requires Differ(history) && ActiveAfter(history) != Some(event.target)
    ensures Differ(history + [event])
  {}

  lemma NewEventReads(state: State, digest: Digest, actor: string, reason: string, action: string, timestamp: string)
    requires IsDigest(digest) && !Blank(actor) && !Blank(timestamp)
    requires action == ACTIVATE || (action == ROLLBACK && state.active.Some? && !Blank(reason))
    ensures EventReads(Event(state.revision + 1, action, actor, Strip(reason), state.active, digest, timestamp),
                       state.revision + 1, state.active)
  {
    hide IsDigest, Blank, Strip;
    StripExact(reason);
  }

  lemma HistoryKept(state: State, digest: Digest, actor: string, reason: string, action: string, timestamp: string)
    ensures state.history <= Changed(state, digest, actor, reason, action, timestamp).history
  {}

  lemma TargetsGrow(state: State, event: Event)
    ensures Targets(State(state.revision + 1, Some(event.target), state.history + [event])) == Targets(state) + {event.target}
  {
    var after := State(state.revision + 1, Some(event.target), state.history + [event]);
    forall t ensures t in Targets(after) <==> t in Targets(state) + {event.target} {
      if t in Targets(state) + {event.target} {
        if t == event.target {
          assert event in after.history;
        } else {
          var e :| e in state.history && e.target == t;
          assert e in after.history;
        }
      }
    }
  }

  /** What is active was the target of some event. */
  lemma ActiveIsTarget(state: State)
    requires Readable(state) && state.active.Some?
    ensures state.active.value in Targets(state)
  {
    assert state.history[|state.history| - 1] in state.history;
  }

  lemma EmptyReads()
    ensures Readable(EMPTY)
  {}

  lemma NoneActiveYet()
    ensures ActiveAfter([]) == None
  {}

  lemma NotCounted(state: State)
    requires state.revision != |state.history|
    ensures !Readable(state)
  {}

  lemma EventFails(state: State, i: nat)
    requires i < |state.history| && !EventReads(state.history[i], i + 1, ActiveAfter(state.history[..i]))
    ensures !Readable(state)
  {
    hide EventReads;
  }

  lemma ActiveNext(history: seq<Event>, i: nat)
    requires i < |history|
    ensures ActiveAfter(history[..i + 1]) == Some(history[i].target)
  {}

  /** When every event passes, what is left to check is that they lead to the active digest. */
  lemma EventsPass(state: State)
    requires state.revision == |state.history|
    requires forall k | 0 <= k < |state.history| :: EventReads(state.history[k], k + 1, ActiveAfter(state.history[..k]))
    ensures Readable(state) <==>
            !((state.revision == 0 && state.active.Some?) || (state.revision > 0 && ActiveAfter(state.history) != state.active))
  {
    hide EventReads;
  }

  // ---- The store ----

  class ActivationStore {
    var file: Option<State>
    var releases: set<Digest>

    /** Whatever was written can be read back; the active release exists. */
    ghost predicate Valid()
      reads this
    {
      && Readable(Current()) && Differ(Current().history) && Targets(Current()) <= releases
    }

    ghost function Current(): State
      reads this
    {
      if file.None? then EMPTY else file.value
    }

    constructor ()
      ensures Valid() && file == None && releases == {}
    {
      file, releases := None, {};
    }

    /** Reads the record, whoever wrote it: it is returned unchanged exactly when every check passes. */
    method ReadState() returns (result: Result<State, ActivationError>)
      ensures result == if Readable(Current()) then Success(Current()) else Failure(InvalidState)
    {
      hide Readable, EventReads, ActiveAfter;
      if file.None? {
        EmptyReads();
        return Success(EMPTY);
      }
      var state := file.value;
      if state.revision < 0 || |state.history| != state.revision {
        NotCounted(state);
        return Failure(InvalidState);
      }
      var previous: Option<Digest> := None;
      NoneActiveYet();
      for i := 0 to |state.history|
        invariant previous == ActiveAfter(state.history[..i])
        invariant forall k | 0 <= k < i :: EventReads(state.history[k], k + 1, ActiveAfter(state.history[..k]))
      {
        if !EventReads(state.history[i], i + 1, previous) {
          EventFails(state, i);
          return Failure(InvalidState);
        }
        ActiveNext(state.history, i);
        previous := Some(state.history[i].target);
      }
      assert state.history[..|state.history|] == state.history;
      EventsPass(state);
      if (state.revision == 0 && state.active.Some?) || (state.revision > 0 && previous != state.active) {
        return Failure(InvalidState);
      }
      return Success(state);
    }

    /** Releases are immutable: one that exists is found, one that does not is stored. */
    method CreateRelease(digest: Digest)
      requires Valid()
      modifies `releases
      ensures Valid() && releases == old(releases) + {digest}
    {
      releases := releases + {digest};
    }

    /** Moves the active digest. `expected` is the caller's view of what is active, if it has one. */
    method ChangeActive(
      digest: Digest, actor: string, reason: string, expected: Option<Option<Digest>>, action: string, timestamp: string
    ) returns (result: Result<State, ActivationError>)
      requires action in {ACTIVATE, ROLLBACK} && !Blank(timestamp)
      requires action == ROLLBACK ==> !Blank(reason)
      modifies `file
      ensures old(Valid()) ==> Valid()
      ensures old(Current()).history <= Current().history
      ensures var s := old(Current());
        if !IsDigest(digest) || Blank(actor) then result == Failure(InvalidInput) && Current() == s
        else if digest !in releases then result == Failure(ReleaseMissing) && Current() == s
        else if !Readable(s) then result == Failure(InvalidState) && Current() == s
        else if expected.Some? && s.active != expected.value then result == Failure(ActiveChanged) && Current() == s
        else if s.active == Some(digest) then result == Success(s) && Current() == s
        else if action == ROLLBACK && s.active.None? then result == Failure(NothingActive) && Current() == s
        else result == Success(Current()) && Current() == Changed(s, digest, Strip(actor), reason, action, timestamp)
    {
      hide IsDigest, Blank, Strip, Readable, Changed;
      if !IsDigest(digest) || Blank(actor) {
        return Failure(InvalidInput);
      }
      if digest !in releases {
        return Failure(ReleaseMissing);
      }
      var state :- ReadState();
      if expected.Some? && state.active != expected.value {
        return Failure(ActiveChanged);
      }
      if state.active == Some(digest) {
        return Success(state);
      }
      if action == ROLLBACK && state.active.None? {
        return Failure(NothingActive);
      }
      StripExact(actor);
      HistoryKept(state, digest, Strip(actor), reason, action, timestamp);
      if Differ(state.history) {
        ChangedReads(state, digest, Strip(actor), reason, action, timestamp);
      }
      file := Some(Changed(state, digest, Strip(actor), reason, action, timestamp));
      return Success(file.value);
    }

    method Activate(digest: Digest, actor: string, reason: string, expected: Option<Option<Digest>>, timestamp: string)
      returns (result: Result<State, ActivationError>)
      requires !Blank(timestamp)
      modifies `file
      ensures old(Valid()) ==> Valid()
      ensures old(Current()).history <= Current().history
      ensures result.Success? ==> result.value == Current() && Current().active == Some(digest)
      ensures result.Success? && expected.Some? ==> old(Current()).active == expected.value
      ensures old(Valid()) ==>
                (result.Success? <==> IsDigest(digest) && !Blank(actor) && digest in releases
                                      && (expected.Some? ==> old(Current()).active == expected.value))
      ensures result.Success? && old(Current()).active != Some(digest) ==>
                && |Current().history| == |old(Current()).history| + 1
                && var event := Current().history[|old(Current()).history|];
                   event.action == ACTIVATE && event.target == digest && event.previous == old(Current()).active
                   && event.actor == Strip(actor) && event.reason == Strip(reason) && event.timestamp == timestamp
      ensures result.Failure? ==> Current() == old(Current())
    {
      hide IsDigest, Blank, Strip, Readable, Differ;
      result := ChangeActive(digest, actor, reason, expected, ACTIVATE, timestamp);
    }

    /** A rollback needs a reason and something to roll back from; it too only adds to the history. */
    method Rollback(digest: Digest, actor: string, reason: string, timestamp: string) returns (result: Result<State, ActivationError>)
      requires !Blank(timestamp)
      modifies `file
      ensures old(Valid()) ==> Valid()
      ensures old(Current()).history <= Current().history
      ensures result.Success? ==> result.value == Current() && Current().active == Some(digest) && old(Current()).active.Some?
      ensures result.Failure? ==> Current() == old(Current())
      ensures Blank(reason) ==> result.Failure?
      ensures old(Valid()) ==>
                (result.Success? <==> !Blank(reason) && IsDigest(digest) && !Blank(actor) && digest in releases
                                      && old(Current()).active.Some?)
      ensures result.Success? && old(Current()).active != Some(digest) ==>
                && |Current().history| == |old(Current()).history| + 1
                && var event := Current().history[|old(Current()).history|];
                   event.action == ROLLBACK && event.target == digest && event.previous == old(Current()).active
                   && event.actor == Strip(actor) && event.reason == Strip(reason) && event.timestamp == timestamp
    {
      hide IsDigest, Strip, Readable, Differ;
      if Blank(reason) {
        return Failure(InvalidInput);
      }
      result := ChangeActive(digest, actor, reason, None, ROLLBACK, timestamp);
    }
  }
}
