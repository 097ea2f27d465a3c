/** The release coordinator: it drives one attempt at a time through a deployment driver that can fail, lie or take the
    process down at any call, and keeps what it decided in the registry. */
module ImmutableReleases {
  import opened Wrappers
  import opened ReleaseProtocol

  /** What the outside world does at the next transaction or driver call: the process dies there, the call raises
      (leaving some image running), or it answers. */
  datatype Signal =
    | Dies(running: Option<Image>)
    | Raises(running: Option<Image>)
    | Answers(built: VerifiedImage, seen: Observation)

  datatype Outcome<+T> = Returned(value: T) | Raised | Crashed {
    predicate IsFailure() {
      !Returned?
    }

    function PropagateFailure<U>(): Outcome<U>
      requires IsFailure()
    {
      if Raised? then Raised else Crashed
    }

    function Extract(): T
      requires !IsFailure()
    {
      value
    }
  }

  /** The next transactions and driver calls all answer. */
  predicate Answered(script: seq<Signal>, n: nat) {
    n <= |script| && forall i | 0 <= i < n :: script[i].Answers?
  }

  class ReleaseCoordinator {
    /** A truthful driver reports the image that runs, and runs the image it says it deployed. */
    const truthful: bool
    var attempts: map<Id, Attempt>
    var releases: map<Id, Release>
    var boundary: Option<Image>
    var schema: nat
    var running: Option<Image>
    var script: seq<Signal>
    ghost const initial: Option<Image>
    ghost var log: seq<Event>

    ghost function View(): Registry
      reads this
    {
      Registry(attempts, releases, boundary)
    }

    ghost predicate Valid()
      reads this
    {
      Sound(View(), log, initial)
    }

    constructor (truthful: bool, registered: Option<Image>, schema: nat, running: Option<Image>, script: seq<Signal>)
      ensures Valid() && boundary == registered && attempts == map[] && log == []
    {
      this.truthful, this.boundary, this.initial := truthful, registered, registered;
      this.schema, this.running, this.script := schema, running, script;
      attempts, releases, log := map[], map[], [];
    }

    ghost predicate Open(op: Id)
      reads this
    {
      op in attempts && !Terminal(attempts[op].status)
    }

    /** What an observation sees when it is answered so. */
    function Seen(signal: Signal): Observation
      requires signal.Answers?
      reads `running
    {
      if truthful then signal.seen.(image := running) else signal.seen
    }

    /** Whether a candidate may replace the image that runs: it is fit for the schema and so is the registered image, to
        which it may have to fall back; that one runs and is healthy; and its release can be stored. */
    ghost predicate Fit(revision: Id, built: VerifiedImage, seen: Observation)
      reads `schema, `boundary, `releases
    {
      && built.minimum <= schema <= built.maximum
      && boundary.Some? && seen == Observation(boundary, true) && Some(built.image) != boundary
      && (forall x | x in releases && Some(releases[x].built.image) == boundary ::
            releases[x].built.minimum <= schema <= releases[x].built.maximum)
      && (if revision in releases then releases[revision].built == built
          else forall x | x in releases :: releases[x].built.image != built.image)
    }

    /** What the next answers build, and then see running, is a candidate for this operation. */
    ghost predicate Buildable(op: Id, answers: seq<Signal>)
      requires op in attempts && Answered(answers, 4)
      reads this
    {
      && 0 < answers[1].built.minimum <= answers[1].built.maximum
      && Fit(attempts[op].revision, answers[1].built, Seen(answers[3]))
    }

    /** A prepared operation meets nothing but answers and health, and a driver that tells the truth. */
    ghost predicate Smooth(op: Id, answers: seq<Signal>)
      reads this
    {
      && op in attempts && attempts[op].status == Deploying && boundary == View().Previous(op) == running && truthful
      && Answered(answers, 7) && answers[1].seen.healthy && answers[5].seen.healthy
    }

    /** A truthful driver that showed the registered image as running runs it. */
    lemma BuildableRuns(op: Id)
      requires op in attempts
      ensures Answered(script, 4) && Buildable(op, script) && truthful ==> running == boundary
    {}

    // ---- The outside world ----

    method Next() returns (signal: Signal)
      modifies `script
      ensures if old(script) == [] then signal == Dies(running) && script == []
              else signal == old(script)[0] && script == old(script)[1..]
    {
      if script == [] {
        return Dies(running);
      }
      signal, script := script[0], script[1..];
    }

    /** A transaction commits, rolls back and raises, or is lost with the process. */
    method Transact() returns (outcome: Outcome<()>)
      modifies `script
      ensures Answered(old(script), 1) ==> outcome.Returned? && script == old(script)[1..]
    {
      var signal := Next();
      match signal
      case Dies(_) => return Crashed;
      case Raises(_) => return Raised;
      case Answers(_, _) => return Returned(());
    }

    method Observe(op: Id) returns (outcome: Outcome<Observation>)
      requires Valid() && Open(op)
      modifies `script, `log
      ensures Valid()
      ensures outcome.Returned? ==>
                && log == old(log) + [Observed(op, attempts[op].status, Some(outcome.value))]
                && (truthful ==> outcome.value.image == running)
      ensures outcome.Raised? ==> log == old(log) + [Observed(op, attempts[op].status, None)]
      ensures Answered(old(script), 1) ==> outcome == Returned(Seen(old(script)[0])) && script == old(script)[1..]
    {
      hide Sound;
      var signal := Next();
      match signal
      case Dies(_) => return Crashed;
      case Raises(_) =>
        ObserveSound(View(), log, initial, op, None);
        log := log + [Observed(op, attempts[op].status, None)];
        return Raised;
      case Answers(_, seen) =>
        var observed := if truthful then seen.(image := running) else seen;
        ObserveSound(View(), log, initial, op, Some(observed));
        log := log + [Observed(op, attempts[op].status, Some(observed))];
        return Returned(observed);
    }

    /** An observation that swallows what the driver raises. */
    method SafeObserve(op: Id) returns (outcome: Outcome<Option<Observation>>)
      requires Valid() && Open(op)
      modifies `script, `log
      ensures Valid() && !outcome.Raised?
      ensures outcome.Returned? ==>
                && log == old(log) + [Observed(op, attempts[op].status, outcome.value)]
                && (truthful && outcome.value.Some? ==> outcome.value.value.image == running)
      ensures Answered(old(script), 1) ==> outcome == Returned(Some(Seen(old(script)[0]))) && script == old(script)[1..]
    {
      var observed := Observe(op);
      match observed
      case Returned(seen) => return Returned(Some(seen));
      case Raised => return Returned(None);
      case Crashed => return Crashed;
    }

    method Deploy(op: Id, image: Image) returns (outcome: Outcome<()>)
      requires Valid() && Open(op)
      requires forall ok :: Justified(View(), log + [Deploys(op, attempts[op].status, image, ok)], |log|)
      modifies `script, `log, `running
      ensures Valid()
      ensures log == old(log) + [Deploys(op, attempts[op].status, image, outcome.Returned?)]
      ensures outcome.Returned? && truthful ==> running == Some(image)
      ensures Answered(old(script), 1) ==> outcome.Returned? && script == old(script)[1..]
    {
      hide Sound, Justified;
      var signal := Next();
      DeploySound(View(), log, initial, op, image, signal.Answers?);
      log := log + [Deploys(op, attempts[op].status, image, signal.Answers?)];
      match signal
      case Dies(left) =>
        running := left;
        return Crashed;
      case Raises(left) =>
        running := left;
        return Raised;
      case Answers(_, seen) =>
        running := if truthful then Some(image) else seen.image;
        return Returned(());
    }

    // ---- The registry ----

    method Start(op: Id, revision: Id) returns (outcome: Outcome<Attempt>)
      requires Valid()
      modifies `script, `attempts
      ensures Valid()
      ensures outcome.Returned? ==>
                && op in attempts && outcome.value == attempts[op] && attempts[op].revision == revision
                && attempts == if op in old(attempts) then old(attempts)
                               else old(attempts)[op := Attempt(revision, None, None, Building, 1)]
      ensures !outcome.Returned? ==> attempts == old(attempts)
      ensures op in old(attempts) && old(attempts)[op].revision != revision ==> !outcome.Returned?
      ensures Answered(old(script), 1) ==>
                script == old(script)[1..] && (op !in old(attempts) || old(attempts)[op].revision == revision ==> outcome.Returned?)
    {
      hide Sound;
      var committed :- Transact();
      if op in attempts {
        return if attempts[op].revision == revision then Returned(attempts[op]) else Raised;
      }
      StartSound(View(), log, initial, op, revision);
      attempts := attempts[op := Attempt(revision, None, None, Building, 1)];
      return Returned(attempts[op]);
    }

    /** Stores the next phase, and reads the attempt back: either may raise, so a call that raised may have stored it. */
    method Phase(op: Id, to: Status) returns (outcome: Outcome<Attempt>)
      requires Valid() && Open(op) && to in {Verifying, RollingBack} && Rank(attempts[op].status) < Rank(to)
      requires attempts[op].status != Building
      requires Justified(View(), log + [Entered(op, attempts[op].status, to)], |log|)
      modifies `script, `log, `attempts
      ensures Valid()
      ensures attempts == old(attempts) || attempts == old(attempts)[op := Advanced(old(attempts)[op], to)]
      ensures outcome.Returned? ==>
                && attempts == old(attempts)[op := Advanced(old(attempts)[op], to)] && outcome.value == attempts[op]
                && log == old(log) + [Entered(op, old(attempts)[op].status, to)]
      ensures outcome.Raised? ==>
                if attempts == old(attempts) then log == old(log) + [Interrupted(op, attempts[op].status)]
                else log == old(log) + [Entered(op, old(attempts)[op].status, to), Interrupted(op, to)]
      ensures Answered(old(script), 2) ==> outcome.Returned? && script == old(script)[2..]
    {
      hide Sound, Justified;
      var committed := Transact();
      if committed.Raised? {
        InterruptedSound(View(), log, initial, op);
        log := log + [Interrupted(op, attempts[op].status)];
        return Raised;
      }
      if committed.Crashed? {
        return Crashed;
      }
      ghost var before := View();
      log := log + [Entered(op, attempts[op].status, to)];
      attempts := attempts[op := Advanced(attempts[op], to)];
      PhaseSound(before, View(), old(log), initial, op, to);
      var read := Transact();
      if read.Raised? {
        InterruptedSound(View(), log, initial, op);
        log := log + [Interrupted(op, to)];
        return Raised;
      }
      return if read.Crashed? then Crashed else Returned(attempts[op]);
    }

    method Finish(op: Id, status: Status) returns (outcome: Outcome<Attempt>)
      requires Valid() && Open(op) && status in {Rejected, RolledBack, Failed}
      requires status == Rejected <==> attempts[op].status == Building
      requires Justified(View(), log + [Entered(op, attempts[op].status, status)], |log|)
      modifies `script, `log, `attempts, `releases
      ensures Valid()
      ensures outcome.Returned? ==>
                && attempts == old(attempts)[op := Advanced(old(attempts)[op], status)] && outcome.value == attempts[op]
                && releases == GivenUp(old(releases), attempts[op].candidate)
                && (attempts[op].candidate.Some? && attempts[op].candidate.value in releases ==>
                      releases[attempts[op].candidate.value].status
                      == if old(releases)[attempts[op].candidate.value].status == Verified then Refused
                         else old(releases)[attempts[op].candidate.value].status)
                && log == old(log) + [Entered(op, old(attempts)[op].status, status)]
      ensures !outcome.Returned? ==> attempts == old(attempts) && releases == old(releases) && log == old(log)
      ensures Answered(old(script), 1) ==> outcome.Returned? && script == old(script)[1..]
    {
      hide Sound, Justified;
      var committed :- Transact();
      ghost var before := View();
      log := log + [Entered(op, attempts[op].status, status)];
      attempts := attempts[op := Advanced(attempts[op], status)];
      var candidate := attempts[op].candidate;
      if candidate.Some? && candidate.value in releases && releases[candidate.value].status == Verified {
        releases := releases[candidate.value := releases[candidate.value].(status := Refused)];
      }
      PhaseSound(before, View(), old(log), initial, op, status);
      return Returned(attempts[op]);
    }

    /** The schema range of the image that runs: what its release recorded, or just the present schema. */
    method RangeOf(image: Image) returns (minimum: nat, maximum: nat)
      ensures || (exists x :: x in releases && releases[x].built.image == image
                              && minimum == releases[x].built.minimum && maximum == releases[x].built.maximum)
              || ((forall x | x in releases :: releases[x].built.image != image) && minimum == maximum == schema)
    {
      if x :| x in releases && releases[x].built.image == image {
        return releases[x].built.minimum, releases[x].built.maximum;
      }
      return schema, schema;
    }

    /** Stores the candidate's release, unless the identifier or the image is already another release's. */
    method StoreRelease(id: Id, built: VerifiedImage) returns (stored: bool)
      modifies `releases
      ensures stored <==> if id in old(releases) then old(releases)[id].built == built
                          else forall x | x in old(releases) :: old(releases)[x].built.image != built.image
      ensures releases == if stored && id !in old(releases) then old(releases)[id := Release(built, Verified)] else old(releases)
    {
      if id in releases {
        return releases[id].built == built;
      }
      if exists x | x in releases :: releases[x].built.image == built.image {
        return false;
      }
      releases := releases[id := Release(built, Verified)];
      return true;
    }

    method Prepare(op: Id, built: VerifiedImage) returns (outcome: Outcome<Attempt>)
      requires Valid() && Open(op) && attempts[op].status == Building
      modifies `script, `log, `attempts, `releases
      ensures Valid()
      ensures outcome.Returned? ==>
                && attempts.Keys == old(attempts).Keys && (forall o | o in attempts && o != op :: attempts[o] == old(attempts)[o])
                && outcome.value == attempts[op] && attempts[op].status == Deploying
                && View().Candidate(op) == Some(built.image) && View().Previous(op) == boundary
                && built.minimum <= schema <= built.maximum
      ensures !outcome.Returned? ==> attempts == old(attempts) && releases == old(releases)
      ensures Answered(old(script), 4) ==>
                && !outcome.Crashed? && UsedUp(old(script), script, 4)
                && (outcome.Returned? <==> old(Fit(attempts[op].revision, built, Seen(script[1]))))
                && (outcome.Returned? ==> script == old(script)[4..])
    {
      hide Sound;
      if !(built.minimum <= schema <= built.maximum) {
        return Raised;
      }
      var read :- Transact();
      if boundary.None? {
        return Raised;
      }
      var registered := boundary.value;
      var observed :- Observe(op);
      if observed.image != Some(registered) || !observed.healthy || built.image == registered {
        return Raised;
      }
      read :- Transact();
      var minimum, maximum := RangeOf(registered);
      ImagesApart(View(), log, initial);
      if !(minimum <= schema <= maximum) {
        return Raised;
      }
      outcome := Record(op, built, registered);
    }

    method Record(op: Id, built: VerifiedImage, registered: Image) returns (outcome: Outcome<Attempt>)
      requires Valid() && Open(op) && attempts[op].status == Building && boundary == Some(registered) && built.image != registered
      requires Follows(log, |log|, Observed(op, Building, Some(Observation(Some(registered), true))))
      modifies `script, `log, `attempts, `releases
      ensures Valid()
      ensures outcome.Returned? ==>
                && attempts.Keys == old(attempts).Keys && (forall o | o in attempts && o != op :: attempts[o] == old(attempts)[o])
                && outcome.value == attempts[op] && attempts[op].status == Deploying
                && View().Candidate(op) == Some(built.image) && View().Previous(op) == boundary
      ensures !outcome.Returned? ==> attempts == old(attempts) && releases == old(releases)
      ensures Answered(old(script), 1) ==>
                && !outcome.Crashed? && script == old(script)[1..]
                && (outcome.Returned? <==>
                      if old(attempts)[op].revision in old(releases) then old(releases)[old(attempts)[op].revision].built == built
                      else forall x | x in old(releases) :: old(releases)[x].built.image != built.image)
    {
      hide Sound;
      var committed :- Transact();
      ghost var before := View();
      var id := attempts[op].revision;
      var stored := StoreRelease(id, built);
      if !stored {
        return Raised;
      }
      attempts := attempts[op := Advanced(attempts[op], Deploying).(candidate := Some(id), previous := Some(registered))];
      log := log + [Entered(op, Building, Deploying)];
      PrepareSound(before, View(), old(log), initial, op, id, registered);
      return Returned(attempts[op]);
    }

    /** Builds and prepares the candidate; whatever goes wrong before any deployment rejects the attempt. */
    method Build(op: Id) returns (outcome: Outcome<Attempt>)
      requires Valid() && Open(op) && attempts[op].status == Building
      modifies `script, `log, `attempts, `releases
      ensures Valid()
      ensures op in attempts && attempts.Keys == old(attempts).Keys && forall o | o in attempts && o != op :: attempts[o] == old(attempts)[o]
      ensures outcome.Returned? ==>
                && outcome.value == attempts[op] && attempts[op].status in {Deploying, Rejected}
                && (attempts[op].status == Deploying ==> View().Previous(op) == boundary)
      ensures !outcome.Returned? ==> attempts[op].status == Building
      ensures Answered(old(script), 7) ==>
                && outcome.Returned? && UsedUp(old(script), script, 7)
                && (attempts[op].status == Deploying <==> old(Buildable(op, script)))
                && (attempts[op].status == Deploying ==>
                      script == old(script)[6..] && View().Candidate(op) == Some(old(script)[1].built.image))
    {
      hide Sound;
      var validated := Transact();
      if validated.Crashed? {
        return Crashed;
      }
      var prepared: Outcome<Attempt> := Raised;
      if validated.Returned? {
        var signal := Next();
        if signal.Dies? {
          return Crashed;
        }
        if signal.Answers? && 0 < signal.built.minimum <= signal.built.maximum {
          prepared := Prepare(op, signal.built);
        }
      }
      if !prepared.Raised? {
        return prepared;
      }
      outcome := Finish(op, Rejected);
    }

    // ---- Deploying, verifying, rolling back ----

    /** Commits a candidate that was just seen running and healthy: boundary, releases and attempt in one step. */
    method Deployed(op: Id) returns (outcome: Outcome<Attempt>)
      requires Valid() && Open(op) && attempts[op].status in {Deploying, Verifying}
      requires View().Candidate(op).Some? && View().Previous(op).Some?
      requires Follows(log, |log|, Observed(op, attempts[op].status, Some(Observation(View().Candidate(op), true))))
      modifies `script, `log, `attempts, `releases, `boundary
      ensures Valid()
      ensures old(boundary) != old(View()).Previous(op) ==> !outcome.Returned?
      ensures outcome.Returned? ==>
                && attempts == old(attempts)[op := Advanced(old(attempts)[op], Status.Deployed)] && outcome.value == attempts[op]
                && boundary == old(View()).Candidate(op) == View().Candidate(op)
                && attempts[op].candidate.Some? && Replaced(old(releases), releases, attempts[op].candidate.value)
      ensures !outcome.Returned? ==> attempts == old(attempts) && releases == old(releases) && boundary == old(boundary)
      ensures Answered(old(script), 1) ==>
                script == old(script)[1..] && (outcome.Returned? <==> old(boundary) == old(View()).Previous(op))
    {
      hide Sound;
      var committed :- Transact();
      if boundary != attempts[op].previous {
        return Raised;
      }
      ghost var before := View();
      var candidate := releases[attempts[op].candidate.value].built.image;
      log := log + [Moves(op, attempts[op].status, boundary.value, candidate), Entered(op, attempts[op].status, Status.Deployed)];
      releases := Serving(releases, boundary.value, attempts[op].candidate.value);
      boundary := Some(candidate);
      attempts := attempts[op := Advanced(attempts[op], Status.Deployed)];
      DeployedSound(before, View(), old(log), initial, op, candidate);
      return Returned(attempts[op]);
    }

    /** Restores the previous image, and ends as rolled back only when it is seen running and healthy. */
    method Rollback(op: Id) returns (outcome: Outcome<Attempt>)
      requires Valid() && Open(op) && attempts[op].status == RollingBack
      modifies `script, `log, `attempts, `releases, `running
      ensures Valid() && SameButStatus(old(attempts), attempts, op)
      ensures outcome.Returned? ==> outcome.value == attempts[op] && attempts[op].status in {RolledBack, Failed}
      ensures outcome.Returned? && truthful && attempts[op].status == RolledBack ==> running == attempts[op].previous
      ensures Answered(old(script), 4) ==>
                && outcome.Returned?
                && (old(Seen(script[0]) == Observation(View().Previous(op), true)) ==> attempts[op].status == RolledBack)
                && (truthful && old(script)[2].seen.healthy ==> attempts[op].status == RolledBack)
    {
      hide Sound;
      PlanOf(View(), log, initial, op);
      var previous := attempts[op].previous.value;
      var observed :- SafeObserve(op);
      if observed == Some(Observation(Some(previous), true)) {
        outcome := Finish(op, RolledBack);
        return;
      }
      outcome := Restore(op, previous);
    }

    method Restore(op: Id, previous: Image) returns (outcome: Outcome<Attempt>)
      requires Valid() && Open(op) && attempts[op].status == RollingBack && View().Previous(op) == Some(previous)
      requires FollowsObservation(log, |log|, op, RollingBack) && !Healthy(log[|log| - 1].seen, Some(previous))
      modifies `script, `log, `attempts, `releases, `running
      ensures Valid() && SameButStatus(old(attempts), attempts, op)
      ensures outcome.Returned? ==> outcome.value == attempts[op] && attempts[op].status in {RolledBack, Failed}
      ensures outcome.Returned? && truthful && attempts[op].status == RolledBack ==> running == attempts[op].previous
      ensures Answered(old(script), 3) ==>
                outcome.Returned? && (truthful ==> (attempts[op].status == RolledBack <==> old(script)[1].seen.healthy))
    {
      hide Sound;
      var deployed := Deploy(op, previous);
      if deployed.Crashed? {
        return Crashed;
      }
      var observed :- SafeObserve(op);
      if observed == Some(Observation(Some(previous), true)) {
        outcome := Finish(op, RolledBack);
      } else {
        outcome := Finish(op, Failed);
      }
    }

    /** The deploying phase: resumes a candidate that already runs, deploys it over its healthy predecessor, or turns back. */
    method Advance(op: Id) returns (outcome: Outcome<Attempt>)
      requires Valid() && Open(op) && attempts[op].status == Deploying
      modifies `script, `log, `attempts, `releases, `boundary, `running
      ensures Valid() && SameButStatus(old(attempts), attempts, op)
      ensures outcome.Returned? ==>
                && outcome.value == attempts[op] && attempts[op].status in {Status.Deployed, Verifying, RollingBack}
                && (attempts[op].status == Status.Deployed ==>
                      boundary == View().Candidate(op) && (truthful ==> running == boundary))
      ensures !outcome.Returned? || attempts[op].status != Status.Deployed ==> boundary == old(boundary)
      ensures outcome.Returned? ==> View().Candidate(op) == old(View()).Candidate(op)
      ensures Answered(old(script), 4) && old(boundary == View().Previous(op)) ==> outcome.Returned? && UsedUp(old(script), script, 4)
      ensures Answered(old(script), 4) && old(Seen(script[0]) == Observation(View().Previous(op), true)) ==>
                && outcome.Returned? && attempts[op].status == Verifying && script == old(script)[4..]
                && (truthful ==> running == View().Candidate(op))
    {
      hide Sound;
      PlanOf(View(), log, initial, op);
      var candidate, previous := releases[attempts[op].candidate.value].built.image, attempts[op].previous.value;
      var observed :- SafeObserve(op);
      if observed.Some? && observed.value.image == Some(candidate) {
        if observed.value.healthy {
          outcome := Deployed(op);
        } else {
          outcome := Phase(op, RollingBack);
        }
      } else if observed == Some(Observation(Some(previous), true)) {
        outcome := TryCandidate(op, candidate);
      } else {
        outcome := Phase(op, RollingBack);
      }
    }

    /** Deploys the candidate and records it for verification; a failure of either turns the attempt back. */
    method TryCandidate(op: Id, candidate: Image) returns (outcome: Outcome<Attempt>)
      requires Valid() && Open(op) && attempts[op].status == Deploying && View().Candidate(op) == Some(candidate)
      requires FollowsObservation(log, |log|, op, Deploying) && Healthy(log[|log| - 1].seen, View().Previous(op))
      modifies `script, `log, `attempts, `running
      ensures Valid() && SameButStatus(old(attempts), attempts, op)
      ensures outcome.Returned? ==> outcome.value == attempts[op] && attempts[op].status in {Verifying, RollingBack}
      ensures Answered(old(script), 3) ==>
                && outcome.Returned? && attempts[op].status == Verifying && script == old(script)[3..]
                && (truthful ==> running == Some(candidate))
    {
      hide Sound;
      var deployed := Deploy(op, candidate);
      if deployed.Crashed? {
        return Crashed;
      }
      var recorded: Outcome<Attempt> := Raised;
      if deployed.Returned? {
        recorded := Phase(op, Verifying);
      }
      if !recorded.Raised? {
        return recorded;
      }
      outcome := Phase(op, RollingBack);
    }

    method Verify(op: Id) returns (outcome: Outcome<Attempt>)
      requires Valid() && Open(op) && attempts[op].status == Verifying
      modifies `script, `log, `attempts, `releases, `boundary
      ensures Valid() && SameButStatus(old(attempts), attempts, op)
      ensures outcome.Returned? ==>
                && outcome.value == attempts[op] && attempts[op].status in {Status.Deployed, RollingBack}
                && (attempts[op].status == Status.Deployed ==>
                      boundary == View().Candidate(op) && (truthful ==> running == boundary))
      ensures !outcome.Returned? || attempts[op].status != Status.Deployed ==> boundary == old(boundary)
      ensures outcome.Returned? ==> View().Candidate(op) == old(View()).Candidate(op)
      ensures Answered(old(script), 3) && old(boundary == View().Previous(op)) ==> outcome.Returned? && UsedUp(old(script), script, 3)
      ensures Answered(old(script), 2) && old(Seen(script[0]) == Observation(View().Candidate(op), true))
              && old(boundary == View().Previous(op)) ==>
                outcome.Returned? && attempts[op].status == Status.Deployed && script == old(script)[2..]
    {
      hide Sound;
      PlanOf(View(), log, initial, op);
      var candidate := releases[attempts[op].candidate.value].built.image;
      var observed :- SafeObserve(op);
      if observed == Some(Observation(Some(candidate), true)) {
        outcome := Deployed(op);
      } else {
        outcome := Phase(op, RollingBack);
      }
    }

    /** Takes a prepared attempt, wherever an earlier call left it, to its end. */
    method Continue(op: Id) returns (outcome: Outcome<Attempt>)
      requires Valid() && Open(op) && attempts[op].status != Building
      modifies `script, `log, `attempts, `releases, `boundary, `running
      ensures Valid() && SameButStatus(old(attempts), attempts, op)
      ensures outcome.Returned? ==> outcome.value == attempts[op] && Finished(op)
      ensures !outcome.Returned? || attempts[op].status != Status.Deployed ==> boundary == old(boundary)
      ensures outcome.Returned? && attempts[op].status == Status.Deployed ==> boundary == old(View()).Candidate(op)
      ensures Answered(old(script), 12) && old(boundary == View().Previous(op)) ==> outcome.Returned?
      ensures old(Smooth(op, script)) ==> outcome.Returned? && attempts[op].status == Status.Deployed && script == old(script)[7..]
    {
      hide Sound;
      var read :- Transact();
      var attempt := attempts[op];
      if attempt.status == Deploying {
        attempt :- Advance(op);
        if attempt.status == Status.Deployed {
          return Returned(attempt);
        }
      }
      if attempt.status == Verifying {
        attempt :- Verify(op);
        if attempt.status == Status.Deployed {
          return Returned(attempt);
        }
      }
      outcome := Rollback(op);
    }

    /** An attempt that has just ended: what its end says of the image that runs. */
    ghost predicate Finished(op: Id)
      reads this
    {
      && op in attempts && attempts[op].status in {Status.Deployed, RolledBack, Failed}
      && (attempts[op].status == Status.Deployed ==> boundary == View().Candidate(op) && (truthful ==> running == boundary))
      && (attempts[op].status == RolledBack && truthful ==> running == View().Previous(op))
    }

    /** Builds the candidate and, unless that rejects it, takes it to its end. When everything answers, it is rejected
        exactly if it is not buildable, and deployed if the driver also tells of health only. */
    method BuildAndContinue(op: Id) returns (outcome: Outcome<Attempt>)
      requires Valid() && Open(op) && attempts[op].status == Building
      modifies `script, `log, `attempts, `releases, `boundary, `running
      ensures Valid() && op in attempts && attempts.Keys == old(attempts).Keys
      ensures forall o | o in attempts && o != op :: attempts[o] == old(attempts)[o]
      ensures outcome.Returned? ==> outcome.value == attempts[op] && (attempts[op].status == Rejected || Finished(op))
      ensures !outcome.Returned? || attempts[op].status != Status.Deployed ==> boundary == old(boundary)
      ensures outcome.Returned? && attempts[op].status == Status.Deployed ==> View().Previous(op) == old(boundary)
      ensures attempts[op].status !in {Building, Rejected} ==> View().Previous(op) == old(boundary)
      ensures Answered(old(script), 19) ==> outcome.Returned?
      ensures Answered(old(script), 7) && !old(Buildable(op, script)) ==>
                outcome.Returned? && attempts[op].status == Rejected && boundary == old(boundary)
      ensures Answered(old(script), 13) && old(Buildable(op, script)) && truthful
              && old(script)[7].seen.healthy && old(script)[11].seen.healthy ==>
                && outcome.Returned? && attempts[op].status == Status.Deployed && script == old(script)[13..]
                && boundary == running == Some(old(script)[1].built.image)
    {
      hide Sound, Fit;
      BuildableRuns(op);
      var attempt :- Build(op);
      if Terminal(attempt.status) {
        return Returned(attempt);
      }
      outcome := Continue(op);
    }

    /** Runs, or resumes, one operation under the project's lock. It ends only in a terminal status; with a truthful
        driver the image that runs is then the candidate, now registered, or the image it replaced; and that is the
        registered one again exactly when nothing else has moved the registration meanwhile. A new operation that is
        answered throughout is rejected exactly if its candidate may not replace the image that runs. */
    method Upgrade(op: Id, revision: Id) returns (outcome: Outcome<Attempt>)
      requires Valid()
      modifies `script, `log, `attempts, `releases, `boundary, `running
      ensures Valid()
      ensures outcome.Returned? ==> op in attempts && outcome.value == attempts[op] && Terminal(attempts[op].status)
      ensures Settled(old(attempts), op) ==> attempts == old(attempts) && boundary == old(boundary)
      ensures outcome.Returned? && !Settled(old(attempts), op) ==> attempts[op].status == Rejected || Finished(op)
      ensures outcome.Returned? && !Settled(old(attempts), op) && truthful && attempts[op].status == RolledBack ==>
                (running == boundary <==> boundary == View().Previous(op))
      ensures op !in old(attempts) && Answered(old(script), 20) ==> outcome.Returned?
      ensures op !in old(attempts) && Answered(old(script), 8) ==>
                var built := old(script)[2].built;
                if 0 < built.minimum <= built.maximum && old(Fit(revision, script[2].built, Seen(script[4])))
                then
                  truthful && Answered(old(script), 14) && old(script)[8].seen.healthy && old(script)[12].seen.healthy ==>
                    && outcome.Returned? && attempts[op].status == Status.Deployed && script == old(script)[14..]
                    && boundary == running == Some(built.image)
                else outcome.Returned? && attempts[op].status == Rejected && boundary == old(boundary)
      ensures Undisturbed(old(View())) && Alone(old(View()), op) ==>
                && Undisturbed(View())
                && (outcome.Returned? && truthful && !Settled(old(attempts), op) ==>
                      attempts[op].status in {Status.Deployed, RolledBack} ==> running == boundary)
    {
      hide Sound, Fit;
      var attempt :- Start(op, revision);
      if Terminal(attempt.status) {
        return Returned(attempt);
      }
      if attempt.status == Building {
        outcome := BuildAndContinue(op);
      } else {
        outcome := Continue(op);
      }
    }
  }

  /** At most so many of the answers are used up, from the front. */
  ghost predicate UsedUp(before: seq<Signal>, after: seq<Signal>, n: nat) {
    |after| <= |before| <= |after| + n && after == before[|before| - |after|..]
  }

  /** The operation had already ended. */
  predicate Settled(attempts: map<Id, Attempt>, op: Id) {
    op in attempts && Terminal(attempts[op].status)
  }

  /** Only this operation's status has changed. */
  ghost predicate SameButStatus(before: map<Id, Attempt>, after: map<Id, Attempt>, op: Id) {
    && op in before && op in after && before.Keys == after.Keys
    && after[op].(status := before[op].status, version := before[op].version) == before[op]
    && Prepared(after[op].status)
    && forall o | o in before && o != op :: after[o] == before[o]
  }
}
