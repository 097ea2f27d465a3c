/** The publisher and the adapter behind it, request by request and transaction by transaction. */
module MilestonePublisher {
  import opened Wrappers
  import opened AdoProgress

  /** The next requests are all answered, and nobody edits the item meanwhile. */
  predicate Calm(script: seq<Signal>, n: nat) {
    n <= |script| && forall i | 0 <= i < n :: script[i] == Signal([], Answered)
  }

  /** What publishing undisturbed comes to: nothing is asked of the item, or it is there already, or it is moved from the
      predecessor state to the target, or else it is where someone put it by hand and stays there. */
  ghost predicate Settles(
    target: Option<string>, state: string, revision: nat, changes: seq<Change>, status: MilestoneStatus, state': string,
    changes': seq<Change>
  ) {
    if target.Some? && target.value in PREDECESSOR && state == PREDECESSOR[target.value] && state != target.value then
      && status == Published(Updated, revision + 1, target.value)
      && state' == target.value && changes' == changes + [Change(target.value, revision)]
    else
      && state' == state && changes' == changes
      && status == Published(if target.None? then NotRequested else if state == target.value then AlreadyCurrent else PreservedManual,
                             revision, state)
  }

  class Publisher {
    const maxAttempts: nat
    var milestones: map<Id, Milestone>
    var operations: map<Payload, Operation>
    var state: string
    var revision: nat
    var script: seq<Signal>
    ghost var states: seq<string>
    ghost var changes: seq<Change>
    ghost var byHand: seq<bool>
    ghost var released: seq<nat>

    /** The item's present state is the last of all it has had, one for each revision. */
    ghost predicate Item()
      reads this
    {
      |states| == revision + 1 && states[revision] == state
    }

    ghost predicate Valid()
      reads this
    {
      && Item() && ChangesOk(states, changes) && Accounted(states, changes, byHand) && OperationsOk(states, operations, milestones)
      && MilestonesOk(states, milestones) && ReleasedOk(milestones, released)
    }

    constructor (maxAttempts: nat, state: string, script: seq<Signal>)
      ensures Valid() && this.state == state && milestones == map[] && changes == []
    {
      this.maxAttempts, this.state, this.revision, this.script := maxAttempts, state, 0, script;
      milestones, operations, states, changes, byHand, released := map[], map[], [state], [], [false], [];
    }

    /** So many answers are used up, and the item is as it was. */
    ghost predicate Still(answers: seq<Signal>, was: string, at: nat, all: seq<string>, n: nat)
      reads this
    {
      n <= |answers| && script == answers[n..] && state == was && revision == at && states == all
    }

    // ---- The service and the network ----

    /** People edit the item, and then the next request meets its fate. */
    method Exchange() returns (delivery: Delivery)
      requires Valid()
      modifies `script, `state, `revision, `states, `byHand
      ensures Valid() && old(states) <= states
      ensures Calm(old(script), 1) ==> delivery == Answered && Still(old(script), old(state), old(revision), old(states), 1)
    {
      if script == [] {
        return Dies;
      }
      var signal := script[0];
      script := script[1..];
      HistoryKeeps(states, signal.edits, changes, operations, milestones);
      if signal.edits != [] {
        EditsAccounted(states, signal.edits, changes, byHand);
        byHand := byHand + seq(|signal.edits|, _ => true);
        states := states + signal.edits;
        state, revision := signal.edits[|signal.edits| - 1], revision + |signal.edits|;
      }
      return signal.delivery;
    }

    /** Reads the item, trying again while the service does not answer. */
    method Fetch() returns (outcome: Outcome<(string, nat)>)
      requires Valid()
      modifies `script, `state, `revision, `states, `byHand
      ensures Valid() && old(states) <= states && !outcome.Stale?
      ensures outcome.Returned? ==> Was(states, outcome.value.1, outcome.value.0)
      ensures Calm(old(script), 1) && maxAttempts > 0 ==>
                outcome == Returned((state, revision)) && Still(old(script), old(state), old(revision), old(states), 1)
    {
      for attempt := 0 to maxAttempts
        invariant Valid() && old(states) <= states
        invariant attempt == 0 ==> script == old(script) && state == old(state) && revision == old(revision) && states == old(states)
        invariant attempt > 0 ==> !Calm(old(script), 1)
      {
        var delivery := Exchange();
        match delivery
        case Dies => return Crashed;
        case Answered => return Returned((state, revision));
        case _ =>
      }
      return Refused;
    }

    /** The milestone's comment. Whether the service counts it as a revision does not matter: it may, as any edit. */
    method CommentOnce() returns (outcome: Outcome<()>)
      requires Valid()
      modifies `script, `state, `revision, `states, `byHand
      ensures Valid() && old(states) <= states && !outcome.Stale?
      ensures Calm(old(script), 1) && maxAttempts > 0 ==>
                outcome.Returned? && Still(old(script), old(state), old(revision), old(states), 1)
    {
      var answer := Fetch();
      return if answer.Returned? then Returned(()) else if answer.Crashed? then Crashed else Refused;
    }

    /** The service carries a patch out only at the revision it tests for (JSON Patch `test`, section 4.6 of RFC 6902). */
    method Apply(read: nat, target: string) returns (applied: bool)
      requires Valid() && target in PREDECESSOR && Was(states, read, PREDECESSOR[target])
      modifies `state, `revision, `states, `byHand, `changes
      ensures Valid() && old(states) <= states && applied == (old(revision) == read)
      ensures applied ==>
                && Was(states, revision, target) && changes == old(changes) + [Change(target, read)]
                && states == old(states) + [target] && byHand == old(byHand) + [false]
      ensures !applied ==> changes == old(changes) && states == old(states)
    {
      if revision != read {
        return false;
      }
      HistoryKeeps(states, [target], changes, operations, milestones);
      ChangeAccounted(states, Change(target, read), changes, byHand);
      byHand := byHand + [false];
      states := states + [target];
      state, revision := target, revision + 1;
      changes := changes + [Change(target, read)];
      return true;
    }

    /** Patches the item, trying again while no answer comes: an attempt that was carried out but not answered makes the
        next one stale. */
    method Patch(read: nat, target: string) returns (outcome: Outcome<nat>)
      requires Valid() && target in PREDECESSOR && Was(states, read, PREDECESSOR[target])
      modifies `script, `state, `revision, `states, `byHand, `changes
      ensures Valid() && old(states) <= states
      ensures outcome.Returned? ==> Was(states, outcome.value, target)
      ensures Calm(old(script), 1) && maxAttempts > 0 && read == old(revision) ==>
                && outcome == Returned(revision) && revision == read + 1 && state == target && script == old(script)[1..]
                && changes == old(changes) + [Change(target, read)]
    {
      for attempt := 0 to maxAttempts
        invariant Valid() && old(states) <= states && Was(states, read, PREDECESSOR[target])
        invariant attempt == 0 ==> script == old(script) && revision == old(revision) && changes == old(changes)
        invariant attempt > 0 ==> !Calm(old(script), 1)
      {
        var delivery := Exchange();
        match delivery
        case Unavailable =>
        case Dies =>
          var carried := Apply(read, target);
          return Crashed;
        case Lost =>
          var carried := Apply(read, target);
        case Answered =>
          var carried := Apply(read, target);
          return if carried then Returned(revision) else Stale;
      }
      return Refused;
    }

    // ---- The adapter's operation ----

    /** An undisturbed first update of an item that is where it is expected. */
    ghost predicate Ready(p: Payload, expected: string, n: nat)
      reads this
    {
      p !in operations && state == expected && Calm(script, n) && maxAttempts > 0
    }

    method Conclude(p: Payload, status: OperationStatus)
      requires Valid() && p in operations
      requires status.Succeeded? ==> Was(states, status.revision, operations[p].requested)
      modifies `operations
      ensures Valid() && operations == old(operations)[p := old(operations)[p].(status := status)]
    {
      hide MilestonesOk, ReleasedOk, ChangesOk, Accounted;
      var operation := operations[p].(status := status);
      OperationMoves(states, operations, milestones, p, operation);
      operations := operations[p := operation];
    }

    /** Moves the item from its expected state to a target, at most once to the operation's knowledge. It succeeds with a
        revision at which the item was in the target state. */
    method Update(p: Payload, expected: string, target: string) returns (outcome: Outcome<nat>)
      requires Valid() && target in PREDECESSOR && expected == PREDECESSOR[target]
      requires p.milestone in milestones && milestones[p.milestone] == Milestone(p, Some(target), Pending)
      modifies `script, `state, `revision, `states, `byHand, `changes, `operations
      ensures Valid() && old(states) <= states
      ensures outcome.Returned? ==> Was(states, outcome.value, target)
      ensures outcome.Returned? || outcome.Stale? ==> p in operations
      ensures old(Ready(p, expected, 3)) ==>
                && outcome == Returned(revision) && revision == old(revision) + 1 && state == target && script == old(script)[3..]
                && changes == old(changes) + [Change(target, old(revision))]
    {
      hide MilestonesOk, ReleasedOk, ChangesOk, Accounted;
      var delivery := Exchange();
      if delivery.Dies? {
        return Crashed;
      }
      if p !in operations {
        var operation := Operation(target, expected, Open);
        OperationMoves(states, operations, milestones, p, operation);
        operations := operations[p := operation];
      }
      OperationIs(states, operations, milestones, p);
      match operations[p].status
      case Succeeded(at) => return Returned(at);
      case Conflicted(_) => return Stale;
      case Open => outcome := ApplyUpdate(p);
    }

    method ApplyUpdate(p: Payload) returns (outcome: Outcome<nat>)
      requires Valid() && p in operations && operations[p].status.Open?
      modifies `script, `state, `revision, `states, `byHand, `changes, `operations
      ensures Valid() && old(states) <= states
      ensures outcome.Returned? ==> Was(states, outcome.value, old(operations)[p].requested)
      ensures p in operations
      ensures Calm(old(script), 2) && maxAttempts > 0 && old(state) == old(operations)[p].expected
              && old(state) != old(operations)[p].requested ==>
                && outcome == Returned(revision) && revision == old(revision) + 1 && state == old(operations)[p].requested
                && script == old(script)[2..]
                && changes == old(changes) + [Change(old(operations)[p].requested, old(revision))]
      ensures Calm(old(script), 1) && maxAttempts > 0 && old(state) == old(operations)[p].requested ==>
                && outcome == Returned(revision) && Still(old(script), old(state), old(revision), old(states), 1)
                && changes == old(changes) && operations[p].status == Succeeded(revision)
      ensures Calm(old(script), 1) && maxAttempts > 0
              && old(state) != old(operations)[p].requested && old(state) != old(operations)[p].expected ==>
                && outcome == Stale && Still(old(script), old(state), old(revision), old(states), 1)
                && changes == old(changes) && operations[p].status == Conflicted(revision)
    {
      hide MilestonesOk, ReleasedOk, ChangesOk, Accounted;
      OperationIs(states, operations, milestones, p);
      var target, expected := operations[p].requested, operations[p].expected;
      var remote := Fetch();
      if !remote.Returned? {
        return if remote.Crashed? then Crashed else Refused;
      }
      var seen, read := remote.value.0, remote.value.1;
      if seen == target {
        Conclude(p, Succeeded(read));
        return Returned(read);
      }
      if seen != expected {
        Conclude(p, Conflicted(read));
        return Stale;
      }
      var patched := Patch(read, target);
      match patched
      case Returned(at) =>
        Conclude(p, Succeeded(at));
        return Returned(at);
      case Stale =>
        Conclude(p, Conflicted(read));
        return Stale;
      case Refused => return Refused;
      case Crashed => return Crashed;
    }

    // ---- Milestones ----

    /** Records a milestone: the same one again is found, a stale one is suppressed, and a new one waits while an earlier
        one is pending. */
    method Start(p: Payload, target: Option<string>) returns (outcome: Outcome<Milestone>)
      requires Valid() && (target.Some? ==> target.value in PREDECESSOR)
      modifies `script, `state, `revision, `states, `byHand, `milestones
      ensures Valid() && old(states) <= states
      ensures outcome.Returned? ==> p.milestone in milestones && outcome.value == milestones[p.milestone] && outcome.value.payload == p
      ensures !outcome.Returned? ==> milestones == old(milestones)
      ensures outcome.Returned? && p.milestone in old(milestones) ==> milestones == old(milestones)
      ensures outcome.Returned? && p.milestone !in old(milestones) ==>
                && (forall m | m in old(milestones) :: old(milestones)[m].payload.sequence != p.sequence)
                && milestones == old(milestones)[p.milestone := Milestone(p, target,
                     if exists m | m in old(milestones) :: p.sequence < old(milestones)[m].payload.sequence then Suppressed else Pending)]
                && (outcome.value.status.Pending? ==> forall m | m in old(milestones) :: !old(milestones)[m].status.Pending?)
      ensures Calm(old(script), 1) ==>
                && Still(old(script), old(state), old(revision), old(states), 1)
                && (p.milestone !in old(milestones) && Next(p, old(milestones)) ==> outcome.Returned? && outcome.value.status.Pending?)
    {
      hide OperationsOk, ReleasedOk, ChangesOk, MilestoneOk, Accounted;
      var delivery := Exchange();
      if delivery.Dies? {
        return Crashed;
      }
      if p.milestone in milestones {
        return if milestones[p.milestone].payload == p then Returned(milestones[p.milestone]) else Refused;
      }
      if exists m | m in milestones :: milestones[m].payload.sequence == p.sequence {
        return Refused;
      }
      if exists m | m in milestones :: p.sequence < milestones[m].payload.sequence {
        Insert(Milestone(p, target, Suppressed));
        return Returned(milestones[p.milestone]);
      }
      if exists m | m in milestones :: milestones[m].status.Pending? {
        return Refused;
      }
      Insert(Milestone(p, target, Pending));
      return Returned(milestones[p.milestone]);
    }

    method Insert(milestone: Milestone)
      requires Valid() && milestone.payload.milestone !in milestones && !milestone.status.Published?
      requires milestone.target.Some? ==> milestone.target.value in PREDECESSOR
      requires forall m | m in milestones :: milestones[m].payload.sequence != milestone.payload.sequence
      requires milestone.status.Suppressed? ==> exists m :: m in milestones && milestone.payload.sequence < milestones[m].payload.sequence
      requires milestone.status.Pending? ==> forall m | m in milestones ::
                 !milestones[m].status.Pending? && milestones[m].payload.sequence < milestone.payload.sequence
      modifies `milestones
      ensures Valid() && milestones == old(milestones)[milestone.payload.milestone := milestone]
    {
      hide ChangesOk;
      InsertKeeps(states, operations, milestones, released, milestone);
      milestones := milestones[milestone.payload.milestone := milestone];
    }

    /** Publishes a pending milestone: its comment, its state change if the item is where the milestone expects it, and
        then the record of both. A state that someone set by hand is left alone. */
    method PublishPending(p: Payload) returns (outcome: Outcome<Milestone>)
      requires Valid() && p.milestone in milestones && milestones[p.milestone].payload == p && milestones[p.milestone].status.Pending?
      modifies `script, `state, `revision, `states, `byHand, `changes, `operations, `milestones, `released
      ensures Valid() && old(states) <= states && old(released) <= released
      ensures outcome.Returned? ==>
                && p.milestone in milestones && outcome.value == milestones[p.milestone] && outcome.value.status.Published?
                && outcome.value.payload == p && released == old(released) + [p.sequence]
      ensures !outcome.Returned? ==> milestones == old(milestones) && released == old(released)
      ensures Calm(old(script), 6) && maxAttempts > 0 && p !in old(operations) ==>
                && outcome.Returned?
                && Settles(old(milestones)[p.milestone].target, old(state), old(revision), old(changes),
                           outcome.value.status, state, changes)
      ensures outcome.Returned? && outcome.value.status.disposition == PreservedManual && p !in operations ==>
                && outcome.value.target.Some? && outcome.value.target.value in PREDECESSOR
                && outcome.value.status.state != outcome.value.target.value
                && outcome.value.status.state != PREDECESSOR[outcome.value.target.value]
    {
      hide OperationsOk, ReleasedOk, ChangesOk, MilestonesOk, Accounted;
      var remote := Fetch();
      if !remote.Returned? {
        return if remote.Crashed? then Crashed else Refused;
      }
      var current, read := remote.value.0, remote.value.1;
      var comment := CommentOnce();
      if !comment.Returned? {
        return if comment.Crashed? then Crashed else Refused;
      }
      MilestoneIs(states, milestones, p.milestone);
      var target := milestones[p.milestone].target;
      if target.None? {
        outcome := Finish(p, NotRequested, read, current);
      } else if current == target.value {
        outcome := Finish(p, AlreadyCurrent, read, current);
      } else if current != PREDECESSOR[target.value] {
        outcome := Finish(p, PreservedManual, read, current);
      } else {
        outcome := MoveState(p, target.value);
      }
    }

    method MoveState(p: Payload, target: string) returns (outcome: Outcome<Milestone>)
      requires Valid() && target in PREDECESSOR
      requires p.milestone in milestones && milestones[p.milestone] == Milestone(p, Some(target), Pending)
      modifies `script, `state, `revision, `states, `byHand, `changes, `operations, `milestones, `released
      ensures Valid() && old(states) <= states
      ensures outcome.Returned? ==>
                && p.milestone in milestones && outcome.value == milestones[p.milestone] && outcome.value.status.Published?
                && outcome.value.payload == p && released == old(released) + [p.sequence]
      ensures !outcome.Returned? ==> milestones == old(milestones) && released == old(released)
      ensures outcome.Returned? ==> p in operations
      ensures old(Ready(p, PREDECESSOR[target], 4)) ==>
                && outcome.Returned? && outcome.value.status == Published(Updated, old(revision) + 1, target) && state == target
                && changes == old(changes) + [Change(target, old(revision))]
    {
      hide OperationsOk, ReleasedOk, ChangesOk, MilestonesOk, Accounted;
      var updated := Update(p, PREDECESSOR[target], target);
      match updated
      case Returned(at) => outcome := Finish(p, Updated, at, target);
      case Refused => return Refused;
      case Crashed => return Crashed;
      case Stale =>
        var latest := Fetch();
        if !latest.Returned? {
          return if latest.Crashed? then Crashed else Refused;
        }
        outcome := Finish(p, if latest.value.0 == target then AlreadyCurrent else PreservedManual, latest.value.1, latest.value.0);
    }

    method Finish(p: Payload, disposition: Disposition, at: nat, final: string) returns (outcome: Outcome<Milestone>)
      requires Valid() && p.milestone in milestones && milestones[p.milestone].payload == p && milestones[p.milestone].status.Pending?
      requires MilestoneOk(states, milestones[p.milestone].(status := Published(disposition, at, final)))
      modifies `script, `state, `revision, `states, `byHand, `milestones, `released
      ensures Valid() && old(states) <= states
      ensures outcome.Returned? ==>
                && milestones == old(milestones)[p.milestone := outcome.value] && released == old(released) + [p.sequence]
                && outcome.value == old(milestones)[p.milestone].(status := Published(disposition, at, final))
      ensures !outcome.Returned? ==> outcome.Crashed? && milestones == old(milestones) && released == old(released)
      ensures Calm(old(script), 1) ==> outcome.Returned? && Still(old(script), old(state), old(revision), old(states), 1)
    {
      hide OperationsOk, ReleasedOk, ChangesOk, MilestonesOk, Accounted;
      var delivery := Exchange();
      if delivery.Dies? {
        return Crashed;
      }
      var milestone := milestones[p.milestone].(status := Published(disposition, at, final));
      FinishKeeps(states, operations, milestones, released, milestone);
      milestones := milestones[p.milestone := milestone];
      released := released + [p.sequence];
      return Returned(milestone);
    }

    /** Publishes a milestone, or picks up one an earlier call left pending. Sequences are released in strictly increasing
        order, and the publisher's state changes are only ever the ones `Valid` describes. */
    method Publish(p: Payload) returns (outcome: Outcome<Milestone>)
      requires Valid()
      modifies `script, `state, `revision, `states, `byHand, `changes, `operations, `milestones, `released
      ensures Valid() && old(states) <= states && old(released) <= released
      ensures outcome.Returned? ==>
                && p.milestone in milestones && outcome.value == milestones[p.milestone]
                && outcome.value.payload == p && !outcome.value.status.Pending?
      ensures TargetState(p.kind, p.evidence).None? ==> outcome.Refused? && milestones == old(milestones)
      ensures Calm(old(script), 7) && maxAttempts > 0 && TargetState(p.kind, p.evidence).Some?
              && p.milestone !in old(milestones) && Next(p, old(milestones)) ==>
                && outcome.Returned?
                && Settles(TargetState(p.kind, p.evidence).value, old(state), old(revision), old(changes),
                           outcome.value.status, state, changes)
    {
      hide OperationsOk, ReleasedOk, ChangesOk, MilestonesOk, Accounted;
      var target := TargetState(p.kind, p.evidence);
      if target.None? {
        return Refused;
      }
      ClosedNeedsReview(p.kind, p.evidence);
      NoEarlierUpdate(states, operations, milestones, p);
      var started := Start(p, target.value);
      if !started.Returned? {
        return started;
      }
      if !started.value.status.Pending? {
        return started;
      }
      outcome := PublishPending(p);
      if outcome.Returned? {
        MilestoneIs(states, milestones, p.milestone);
      }
    }
  }

  /** A milestone with the largest sequence yet, while none is pending. */
  predicate Next(p: Payload, milestones: map<Id, Milestone>) {
    forall m | m in milestones :: milestones[m].payload.sequence < p.sequence && !milestones[m].status.Pending?
  }

  lemma NoEarlierUpdate(states: seq<string>, operations: map<Payload, Operation>, milestones: map<Id, Milestone>, p: Payload)
    requires OperationsOk(states, operations, milestones)
    ensures p.milestone !in milestones ==> p !in operations
  {}

  lemma OperationMoves(
    states: seq<string>, operations: map<Payload, Operation>, milestones: map<Id, Milestone>, p: Payload, operation: Operation
  )
    requires OperationsOk(states, operations, milestones) && OperationOk(states, operation)
    requires p.milestone in milestones && milestones[p.milestone].payload == p
    requires milestones[p.milestone].target == Some(operation.requested)
    ensures OperationsOk(states, operations[p := operation], milestones)
  {
    hide OperationOk;
  }

  lemma OperationIs(states: seq<string>, operations: map<Payload, Operation>, milestones: map<Id, Milestone>, p: Payload)
    requires OperationsOk(states, operations, milestones) && p in operations
    ensures OperationOk(states, operations[p])
    ensures p.milestone in milestones && milestones[p.milestone].payload == p
    ensures milestones[p.milestone].target == Some(operations[p].requested)
  {}

  lemma MilestoneIs(states: seq<string>, milestones: map<Id, Milestone>, m: Id)
    requires MilestonesOk(states, milestones) && m in milestones
    ensures MilestoneOk(states, milestones[m]) && milestones[m].payload.milestone == m
  {}

  lemma InsertKeeps(
    states: seq<string>, operations: map<Payload, Operation>, milestones: map<Id, Milestone>, released: seq<nat>,
    milestone: Milestone
  )
    requires MilestonesOk(states, milestones) && OperationsOk(states, operations, milestones) && ReleasedOk(milestones, released)
    requires milestone.payload.milestone !in milestones && !milestone.status.Published?
    requires milestone.target.Some? ==> milestone.target.value in PREDECESSOR
    requires forall m | m in milestones :: milestones[m].payload.sequence != milestone.payload.sequence
    requires milestone.status.Suppressed? ==> exists m :: m in milestones && milestone.payload.sequence < milestones[m].payload.sequence
    requires milestone.status.Pending? ==> forall m | m in milestones ::
               !milestones[m].status.Pending? && milestones[m].payload.sequence < milestone.payload.sequence
    ensures var after := milestones[milestone.payload.milestone := milestone];
      MilestonesOk(states, after) && OperationsOk(states, operations, after) && ReleasedOk(after, released)
  {
    hide OperationOk;
    var after := milestones[milestone.payload.milestone := milestone];
    forall q | q in released
      ensures exists m :: m in after && after[m].payload.sequence == q && after[m].status.Published?
    {
      var m :| m in milestones && milestones[m].payload.sequence == q && milestones[m].status.Published?;
      assert after[m] == milestones[m];
    }
  }

  lemma FinishKeeps(
    states: seq<string>, operations: map<Payload, Operation>, milestones: map<Id, Milestone>, released: seq<nat>,
    milestone: Milestone
  )
    requires MilestonesOk(states, milestones) && OperationsOk(states, operations, milestones) && ReleasedOk(milestones, released)
    requires milestone.payload.milestone in milestones && milestones[milestone.payload.milestone].status.Pending?
    requires milestone == milestones[milestone.payload.milestone].(status := milestone.status)
    requires milestone.status.Published? && MilestoneOk(states, milestone)
    ensures var after := milestones[milestone.payload.milestone := milestone];
      && MilestonesOk(states, after) && OperationsOk(states, operations, after)
      && ReleasedOk(after, released + [milestone.payload.sequence])
  {
    hide OperationOk, MilestoneOk, ReleasedOk;
    ReleaseOne(states, milestones, released, milestone);
  }

  /** A pending milestone is released after all released before it, for it has the largest sequence. */
  lemma ReleaseOne(states: seq<string>, milestones: map<Id, Milestone>, released: seq<nat>, milestone: Milestone)
    requires MilestonesOk(states, milestones) && ReleasedOk(milestones, released)
    requires milestone.payload.milestone in milestones && milestones[milestone.payload.milestone].status.Pending?
    requires milestone == milestones[milestone.payload.milestone].(status := milestone.status) && milestone.status.Published?
    ensures ReleasedOk(milestones[milestone.payload.milestone := milestone], released + [milestone.payload.sequence])
  {
    hide MilestoneOk;
    var after, all := milestones[milestone.payload.milestone := milestone], released + [milestone.payload.sequence];
    forall q | q in released
      ensures q < milestone.payload.sequence
      ensures exists m :: m in after && after[m].payload.sequence == q && after[m].status.Published?
    {
      var m :| m in milestones && milestones[m].payload.sequence == q && milestones[m].status.Published?;
      assert after[m] == milestones[m];
    }
    forall i, j | 0 <= i < j < |all| ensures all[i] < all[j] {
      assert all[i] in released;
    }
    forall m | m in after && after[m].status.Published? ensures after[m].payload.sequence in all {
      if m == milestone.payload.milestone {
        assert all[|released|] == milestone.payload.sequence;
      } else {
        assert milestones[m].payload.sequence in released;
      }
    }
    assert after[milestone.payload.milestone].payload.sequence == milestone.payload.sequence;
  }
}
