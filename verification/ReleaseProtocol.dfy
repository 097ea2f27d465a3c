/** Immutable releases: the registry tables, the protocol that a whole history of release operations follows, and what
    that protocol guarantees. */
module ReleaseProtocol {
  import opened Wrappers

  type Id = string
  type Image = string

  // ---- Tables ----

  datatype Status = Building | Deploying | Verifying | RollingBack | Deployed | Rejected | RolledBack | Failed

  predicate Terminal(status: Status) {
    status in {Deployed, Rejected, RolledBack, Failed}
  }

  predicate Prepared(status: Status) {
    status !in {Building, Rejected}
  }

  function Rank(status: Status): nat {
    match status
    case Building => 0
    case Deploying => 1
    case Verifying => 2
    case RollingBack => 3
    case _ => 4
  }

  datatype Attempt = Attempt(revision: Id, candidate: Option<Id>, previous: Option<Image>, status: Status, version: nat)

  datatype ReleaseStatus = Verified | InService | Retired | Refused

  /** What a builder vouches for. */
  datatype VerifiedImage = VerifiedImage(image: Image, minimum: nat, maximum: nat, build: string, test: string)

  /** A release, kept under its identifier: an injective digest of the source revision, so the revision stands for it. */
  datatype Release = Release(built: VerifiedImage, status: ReleaseStatus)

  datatype Registry = Registry(attempts: map<Id, Attempt>, releases: map<Id, Release>, boundary: Option<Image>) {
    /** The image an attempt is to deploy, once prepared. */
    function Candidate(op: Id): Option<Image> {
      if op in attempts && attempts[op].candidate.Some? && attempts[op].candidate.value in releases
      then Some(releases[attempts[op].candidate.value].built.image)
      else None
    }

    /** The image it replaces. */
    function Previous(op: Id): Option<Image> {
      if op in attempts then attempts[op].previous else None
    }
  }

  // ---- The history of all operations ----

  datatype Observation = Observation(image: Option<Image>, healthy: bool)

  predicate Healthy(seen: Option<Observation>, image: Option<Image>) {
    image.Some? && seen == Some(Observation(image, true))
  }

  /** What an operation did, and in which phase it was when it did it. `Interrupted` is recording a next
      phase that raised, before the phase was stored or after; `phase` is where that left the operation. */
  datatype Event =
    | Observed(op: Id, phase: Status, seen: Option<Observation>)
    | Deploys(op: Id, phase: Status, image: Image, succeeded: bool)
    | Moves(op: Id, phase: Status, old': Image, new': Image)
    | Interrupted(op: Id, phase: Status)
    | Entered(op: Id, phase: Status, to: Status)

  function After(e: Event): Status {
    if e.Entered? then e.to else e.phase
  }

  ghost predicate Follows(log: seq<Event>, i: int, e: Event) {
    0 < i <= |log| && log[i - 1] == e
  }

  ghost predicate FollowsObservation(log: seq<Event>, i: nat, op: Id, phase: Status) {
    0 < i <= |log| && log[i - 1].Observed? && log[i - 1].op == op && log[i - 1].phase == phase
  }

  /** Each event of a history is justified by what its operation did and saw just before. */
  ghost predicate Justified(r: Registry, log: seq<Event>, i: nat)
    requires i < |log|
  {
    var e := log[i];
    var candidate, previous := r.Candidate(e.op), r.Previous(e.op);
    match e
    case Observed(_, _, _) => true
    case Deploys(op, phase, image, _) =>
      && FollowsObservation(log, i, op, phase)
      && (|| (phase == Deploying && Some(image) == candidate && Healthy(log[i - 1].seen, previous))
          || (phase == RollingBack && Some(image) == previous && !Healthy(log[i - 1].seen, previous)))
    case Moves(op, phase, old', new') =>
      && phase in {Deploying, Verifying} && Some(old') == previous && Some(new') == candidate
      && Follows(log, i, Observed(op, phase, Some(Observation(candidate, true))))
    case Interrupted(_, phase) => Prepared(phase)
    case Entered(op, phase, to) =>
      match to
      case Building => false
      case Deploying => phase == Building && Follows(log, i, Observed(op, Building, Some(Observation(previous, true))))
      case Verifying => phase == Deploying && candidate.Some? && Follows(log, i, Deploys(op, Deploying, candidate.value, true))
      case RollingBack =>
        || (phase == Deploying && candidate.Some? && Follows(log, i, Deploys(op, Deploying, candidate.value, false)))
        || (phase == Deploying && candidate.Some? && Follows(log, i, Interrupted(op, Deploying))
            && Follows(log, i - 1, Deploys(op, Deploying, candidate.value, true)))
        || (phase == Verifying && Follows(log, i, Interrupted(op, Verifying)) && Follows(log, i - 1, Entered(op, Deploying, Verifying)))
        || (phase in {Deploying, Verifying} && FollowsObservation(log, i, op, phase)
            && !Healthy(log[i - 1].seen, candidate) && (phase == Deploying ==> !Healthy(log[i - 1].seen, previous)))
      case Deployed =>
        && phase in {Deploying, Verifying} && candidate.Some? && previous.Some?
        && Follows(log, i, Moves(op, phase, previous.value, candidate.value))
      case Rejected => phase == Building
      case RolledBack => phase == RollingBack && Follows(log, i, Observed(op, RollingBack, Some(Observation(previous, true))))
      case Failed =>
        && phase == RollingBack && FollowsObservation(log, i, op, RollingBack) && !Healthy(log[i - 1].seen, previous)
        && 1 < i && log[i - 2].Deploys? && log[i - 2].op == op && Some(log[i - 2].image) == previous
  }

  ghost predicate Lawful(r: Registry, log: seq<Event>) {
    forall i | 0 <= i < |log| :: Justified(r, log, i)
  }

  /** Of one operation's events, each happens in a phase no earlier than the events before it reached. */
  ghost predicate Ordered(r: Registry, log: seq<Event>) {
    && (forall e | e in log :: e.op in r.attempts && Rank(After(e)) <= Rank(r.attempts[e.op].status))
    && (forall e | e in log && Terminal(After(e)) :: r.attempts[e.op].status == After(e))
    && (forall i, j | 0 <= i < j < |log| && log[i].op == log[j].op ::
          Rank(After(log[i])) <= Rank(log[j].phase) && !Terminal(log[j].phase))
  }

  /** The registered image is where the moves of the history leave it. */
  ghost function Registered(log: seq<Event>, initial: Option<Image>): Option<Image> {
    if log == [] then initial
    else
      var last := log[|log| - 1];
      if last.Moves? then Some(last.new') else Registered(log[..|log| - 1], initial)
  }

  /** No two releases share an image, and one in service carries the registered image. */
  ghost predicate ReleasesOk(releases: map<Id, Release>, boundary: Option<Image>) {
    && (forall x, y | x in releases && y in releases && x != y :: releases[x].built.image != releases[y].built.image)
    && (forall x | x in releases && releases[x].status == InService :: boundary == Some(releases[x].built.image))
  }

  ghost predicate RegistryOk(r: Registry) {
    && (forall op | op in r.attempts && Prepared(r.attempts[op].status) ::
          r.Candidate(op).Some? && r.Previous(op).Some? && r.Candidate(op) != r.Previous(op) && r.boundary.Some?)
    && (forall op | op in r.attempts && !Prepared(r.attempts[op].status) ::
          r.attempts[op].candidate.None? && r.attempts[op].previous.None?)
    && ReleasesOk(r.releases, r.boundary)
  }

  /** While operations never overlapped, an unfinished one still has the registered image as its previous one. */
  ghost predicate Alone(r: Registry, op: Id) {
    forall o | o in r.attempts && o != op :: Terminal(r.attempts[o].status)
  }

  ghost predicate Undisturbed(r: Registry) {
    forall op | op in r.attempts && !Terminal(r.attempts[op].status) ::
      Alone(r, op) && (Prepared(r.attempts[op].status) ==> r.boundary == r.Previous(op))
  }

  /** A move of the registered image and the end of its operation are one step. */
  ghost predicate MovesCommit(log: seq<Event>) {
    forall i | 0 <= i < |log| && log[i].Moves? :: i + 1 < |log| && log[i + 1] == Entered(log[i].op, log[i].phase, Deployed)
  }

  ghost predicate Sound(r: Registry, log: seq<Event>, initial: Option<Image>) {
    RegistryOk(r) && Lawful(r, log) && Ordered(r, log) && MovesCommit(log) && r.boundary == Registered(log, initial)
  }

  // ---- What a sound history guarantees ----

  /** Every release in service carries the registered image, so there is at most one. */
  lemma OneReleaseInService(r: Registry, log: seq<Event>, initial: Option<Image>, x: Id, y: Id)
    requires Sound(r, log, initial) && x in r.releases && y in r.releases
    requires r.releases[x].status == InService && r.releases[y].status == InService
    ensures x == y && r.boundary == Some(r.releases[x].built.image)
  {}

  /** Phases of one operation move strictly forward. */
  lemma PhasesMoveForward(r: Registry, log: seq<Event>, initial: Option<Image>, i: nat, j: nat)
    requires Sound(r, log, initial) && i < j < |log|
    requires log[i].Entered? && log[j].Entered? && log[i].op == log[j].op
    ensures Rank(log[i].phase) < Rank(log[i].to) <= Rank(log[j].phase) < Rank(log[j].to)
  {
    assert Justified(r, log, i) && Justified(r, log, j);
  }

  /** A rejected operation never called deploy. */
  lemma RejectedNeverDeploys(r: Registry, log: seq<Event>, initial: Option<Image>, op: Id)
    requires Sound(r, log, initial) && op in r.attempts && r.attempts[op].status == Rejected
    ensures forall e | e in log && e.op == op :: !e.Deploys?
  {
    forall e | e in log && e.op == op ensures !e.Deploys? {
      var i :| 0 <= i < |log| && log[i] == e;
      assert Justified(r, log, i);
    }
  }

  /** Once an operation rolls back, whatever it deploys is the image it replaced, never its candidate. */
  lemma RollingBackNeverDeploysCandidate(r: Registry, log: seq<Event>, initial: Option<Image>, i: nat, j: nat)
    requires Sound(r, log, initial) && i < j < |log|
    requires log[i].Entered? && log[i].to == RollingBack && log[j].Deploys? && log[j].op == log[i].op
    ensures Some(log[j].image) == r.Previous(log[j].op) && Some(log[j].image) != r.Candidate(log[j].op)
  {
    assert Justified(r, log, j);
    assert log[j] in log;
  }

  /** A candidate is only ever deployed over the image it replaces, just seen running and healthy. */
  lemma CandidateDeployedOverPrevious(r: Registry, log: seq<Event>, initial: Option<Image>, i: nat)
    requires Sound(r, log, initial) && i < |log| && log[i].Deploys? && Some(log[i].image) == r.Candidate(log[i].op)
    ensures i > 0 && log[i - 1] == Observed(log[i].op, Deploying, Some(Observation(r.Previous(log[i].op), true)))
  {
    assert Justified(r, log, i);
    assert log[i] in log;
  }

  /** The registered image moves only in the very step that finishes an operation as deployed, from the image that
      operation replaced to its candidate, which was just observed running and healthy. */
  lemma OnlyDeployedMovesBoundary(r: Registry, log: seq<Event>, initial: Option<Image>, i: nat)
    requires Sound(r, log, initial) && i < |log|
    ensures Registered(log[..i + 1], initial) != Registered(log[..i], initial) ==>
              && log[i].Moves? && i + 1 < |log| && log[i + 1] == Entered(log[i].op, log[i].phase, Deployed)
              && Some(log[i].old') == r.Previous(log[i].op) && Some(log[i].new') == r.Candidate(log[i].op)
              && Follows(log, i, Observed(log[i].op, log[i].phase, Some(Observation(r.Candidate(log[i].op), true))))
    ensures log[i].Entered? && log[i].to == Deployed ==> Registered(log[..i + 1], initial) == r.Candidate(log[i].op)
  {
    hide Ordered, RegistryOk;
    assert Justified(r, log, i);
    assert log[..i + 1][..i] == log[..i];
    if log[i].Entered? && log[i].to == Deployed {
      assert Justified(r, log, i - 1);
      assert log[..i][i - 1] == log[i - 1];
    }
  }

  // ---- Each step keeps a history sound ----

  /** What a prepared attempt goes by. */
  lemma PlanOf(r: Registry, log: seq<Event>, initial: Option<Image>, op: Id)
    requires Sound(r, log, initial) && op in r.attempts && Prepared(r.attempts[op].status)
    ensures r.Candidate(op).Some? && r.Previous(op).Some? && r.Candidate(op) != r.Previous(op)
  {}

  lemma ImagesApart(r: Registry, log: seq<Event>, initial: Option<Image>)
    requires Sound(r, log, initial)
    ensures forall x, y | x in r.releases && y in r.releases && x != y :: r.releases[x].built.image != r.releases[y].built.image
  {
    hide Lawful, Ordered, MovesCommit, Registered;
  }

  ghost predicate SamePlans(r: Registry, r': Registry, log: seq<Event>) {
    forall e | e in log && !e.Observed? :: r'.Candidate(e.op) == r.Candidate(e.op) && r'.Previous(e.op) == r.Previous(e.op)
  }

  lemma LawfulAppend(r: Registry, r': Registry, log: seq<Event>, e: Event)
    requires Lawful(r, log) && SamePlans(r, r', log) && Justified(r', log + [e], |log|)
    ensures Lawful(r', log + [e])
  {
    forall i | 0 <= i < |log + [e]| ensures Justified(r', log + [e], i) {
      if i < |log| {
        assert Justified(r, log, i);
        assert log[i] in log;
      }
    }
  }

  /** One operation acts in its present phase. */
  ghost predicate Acts(r: Registry, r': Registry, e: Event) {
    && e.op in r.attempts && e.op in r'.attempts
    && e.phase == r.attempts[e.op].status && !Terminal(e.phase) && r'.attempts[e.op].status == After(e)
    && Rank(e.phase) <= Rank(After(e))
    && forall o | o in r.attempts && o != e.op :: o in r'.attempts && r'.attempts[o].status == r.attempts[o].status
  }

  lemma OrderedAppend(r: Registry, r': Registry, log: seq<Event>, e: Event)
    requires Ordered(r, log) && Acts(r, r', e)
    ensures Ordered(r', log + [e])
  {
    var log' := log + [e];
    forall i, j | 0 <= i < j < |log'| && log'[i].op == log'[j].op
      ensures Rank(After(log'[i])) <= Rank(log'[j].phase) && !Terminal(log'[j].phase)
    {
      assert log'[i] in log;
    }
  }

  lemma RegisteredAppend(log: seq<Event>, e: Event, initial: Option<Image>)
    ensures Registered(log + [e], initial) == if e.Moves? then Some(e.new') else Registered(log, initial)
  {
    assert (log + [e])[..|log|] == log;
  }

  /** Appending an event that moves nothing. */
  lemma SoundAppend(r: Registry, r': Registry, log: seq<Event>, e: Event, initial: Option<Image>)
    requires Sound(r, log, initial) && RegistryOk(r') && SamePlans(r, r', log) && Acts(r, r', e)
    requires Justified(r', log + [e], |log|) && !e.Moves? && r'.boundary == r.boundary
    ensures Sound(r', log + [e], initial)
  {
    hide RegistryOk, Justified, Lawful, Ordered;
    LawfulAppend(r, r', log, e);
    OrderedAppend(r, r', log, e);
    RegisteredAppend(log, e, initial);
  }

  lemma StartSound(r: Registry, log: seq<Event>, initial: Option<Image>, op: Id, revision: Id)
    requires Sound(r, log, initial) && op !in r.attempts
    ensures Sound(r.(attempts := r.attempts[op := Attempt(revision, None, None, Building, 1)]), log, initial)
  {
    var r' := r.(attempts := r.attempts[op := Attempt(revision, None, None, Building, 1)]);
    forall i | 0 <= i < |log| ensures Justified(r', log, i) {
      assert Justified(r, log, i);
      assert log[i] in log;
    }
    assert Ordered(r', log);
  }

  lemma ObserveSound(r: Registry, log: seq<Event>, initial: Option<Image>, op: Id, seen: Option<Observation>)
    requires Sound(r, log, initial) && op in r.attempts && !Terminal(r.attempts[op].status)
    ensures Sound(r, log + [Observed(op, r.attempts[op].status, seen)], initial)
  {
    hide RegistryOk, Lawful, Ordered, MovesCommit;
    SoundAppend(r, r, log, Observed(op, r.attempts[op].status, seen), initial);
  }

  lemma InterruptedSound(r: Registry, log: seq<Event>, initial: Option<Image>, op: Id)
    requires Sound(r, log, initial) && op in r.attempts && !Terminal(r.attempts[op].status) && r.attempts[op].status != Building
    ensures Sound(r, log + [Interrupted(op, r.attempts[op].status)], initial)
  {
    hide RegistryOk, Lawful, Ordered, MovesCommit;
    SoundAppend(r, r, log, Interrupted(op, r.attempts[op].status), initial);
  }

  lemma DeploySound(r: Registry, log: seq<Event>, initial: Option<Image>, op: Id, image: Image, succeeded: bool)
    requires Sound(r, log, initial) && op in r.attempts && !Terminal(r.attempts[op].status)
    requires Justified(r, log + [Deploys(op, r.attempts[op].status, image, succeeded)], |log|)
    ensures Sound(r, log + [Deploys(op, r.attempts[op].status, image, succeeded)], initial)
  {
    hide RegistryOk, Lawful, Ordered, MovesCommit;
    SoundAppend(r, r, log, Deploys(op, r.attempts[op].status, image, succeeded), initial);
  }

  /** An attempt's row as it enters its next phase. */
  function Advanced(attempt: Attempt, to: Status): Attempt {
    attempt.(status := to, version := attempt.version + 1)
  }

  /** An attempt that ends without deploying gives its candidate up. */
  function GivenUp(releases: map<Id, Release>, candidate: Option<Id>): map<Id, Release> {
    if candidate.Some? && candidate.value in releases && releases[candidate.value].status == Verified
    then releases[candidate.value := releases[candidate.value].(status := Refused)]
    else releases
  }

  lemma GivenUpImages(releases: map<Id, Release>, candidate: Option<Id>)
    ensures GivenUp(releases, candidate).Keys == releases.Keys
    ensures forall x | x in releases :: GivenUp(releases, candidate)[x].built == releases[x].built
    ensures forall boundary | ReleasesOk(releases, boundary) :: ReleasesOk(GivenUp(releases, candidate), boundary)
  {}

  lemma PhaseRegistry(r: Registry, r': Registry, op: Id, to: Status)
    requires RegistryOk(r) && op in r.attempts && !Terminal(r.attempts[op].status)
    requires to !in {Building, Deploying, Deployed} && (to == Rejected <==> r.attempts[op].status == Building)
    requires r'.attempts == r.attempts[op := Advanced(r.attempts[op], to)] && r'.boundary == r.boundary
    requires r'.releases == r.releases || r'.releases == GivenUp(r.releases, r.attempts[op].candidate)
    ensures RegistryOk(r') && forall o :: r'.Candidate(o) == r.Candidate(o) && r'.Previous(o) == r.Previous(o)
  {
    hide GivenUp, ReleasesOk;
    GivenUpImages(r.releases, r.attempts[op].candidate);
    forall o ensures r'.Candidate(o) == r.Candidate(o) && r'.Previous(o) == r.Previous(o) {}
  }

  /** Entering a phase, or ending without deploying. */
  lemma PhaseSound(r: Registry, r': Registry, log: seq<Event>, initial: Option<Image>, op: Id, to: Status)
    requires Sound(r, log, initial) && op in r.attempts && !Terminal(r.attempts[op].status)
    requires to !in {Building, Deploying, Deployed} && (to == Rejected <==> r.attempts[op].status == Building)
    requires Rank(r.attempts[op].status) < Rank(to)
    requires r'.attempts == r.attempts[op := Advanced(r.attempts[op], to)] && r'.boundary == r.boundary
    requires r'.releases == r.releases || r'.releases == GivenUp(r.releases, r.attempts[op].candidate)
    requires Justified(r, log + [Entered(op, r.attempts[op].status, to)], |log|)
    ensures Sound(r', log + [Entered(op, r.attempts[op].status, to)], initial)
  {
    hide RegistryOk, Lawful, Ordered, MovesCommit, GivenUp;
    PhaseRegistry(r, r', op, to);
    assert SamePlans(r, r', log);
    SoundAppend(r, r', log, Entered(op, r.attempts[op].status, to), initial);
  }

  /** The candidate's release is stored, or found as it is, and no other release has its image. */
  ghost predicate StoresRelease(releases: map<Id, Release>, releases': map<Id, Release>, id: Id) {
    && id in releases'
    && (|| releases' == releases
        || (id !in releases && releases' == releases[id := releases'[id]] && releases'[id].status == Verified
            && forall x | x in releases :: releases[x].built.image != releases'[id].built.image))
  }

  lemma StoredReleases(releases: map<Id, Release>, releases': map<Id, Release>, id: Id, boundary: Option<Image>)
    requires StoresRelease(releases, releases', id) && ReleasesOk(releases, boundary)
    ensures ReleasesOk(releases', boundary) && id in releases'
    ensures forall x | x in releases :: x in releases' && releases'[x] == releases[x]
  {}

  lemma PrepareRegistry(r: Registry, r': Registry, op: Id, id: Id, previous: Image)
    requires RegistryOk(r) && op in r.attempts && r.attempts[op].status == Building
    requires r.boundary == Some(previous) && r'.boundary == r.boundary
    requires StoresRelease(r.releases, r'.releases, id) && r'.releases[id].built.image != previous
    requires r'.attempts == r.attempts[op := Advanced(r.attempts[op], Deploying).(candidate := Some(id), previous := Some(previous))]
    ensures RegistryOk(r')
    ensures forall o | o != op :: r'.Candidate(o) == r.Candidate(o) && r'.Previous(o) == r.Previous(o)
  {
    hide StoresRelease, ReleasesOk;
    StoredReleases(r.releases, r'.releases, id, r.boundary);
    forall o | o != op ensures r'.Candidate(o) == r.Candidate(o) && r'.Previous(o) == r.Previous(o) {}
  }

  /** Preparing: the candidate's release is stored and the attempt starts deploying. */
  lemma PrepareSound(r: Registry, r': Registry, log: seq<Event>, initial: Option<Image>, op: Id, id: Id, previous: Image)
    requires Sound(r, log, initial) && op in r.attempts && r.attempts[op].status == Building
    requires r.boundary == Some(previous) && r'.boundary == r.boundary
    requires StoresRelease(r.releases, r'.releases, id) && r'.releases[id].built.image != previous
    requires r'.attempts == r.attempts[op := Advanced(r.attempts[op], Deploying).(candidate := Some(id), previous := Some(previous))]
    requires Follows(log, |log|, Observed(op, Building, Some(Observation(Some(previous), true))))
    ensures Sound(r', log + [Entered(op, Building, Deploying)], initial)
  {
    hide RegistryOk, Lawful, Ordered, MovesCommit, StoresRelease;
    OnlyObservedWhileBuilding(r, log, initial, op);
    PrepareRegistry(r, r', op, id, previous);
    SoundAppend(r, r', log, Entered(op, Building, Deploying), initial);
  }

  lemma OnlyObservedWhileBuilding(r: Registry, log: seq<Event>, initial: Option<Image>, op: Id)
    requires Sound(r, log, initial) && op in r.attempts && r.attempts[op].status == Building
    ensures forall e | e in log && e.op == op :: e.Observed?
  {
    forall e | e in log && e.op == op ensures e.Observed? {
      var i :| 0 <= i < |log| && log[i] == e;
      assert Justified(r, log, i);
    }
  }

  /** The releases after a deployment: the replaced one retired, the candidate in service. */
  function Serving(releases: map<Id, Release>, previous: Image, candidate: Id): map<Id, Release> {
    map x | x in releases ::
      if x == candidate then releases[x].(status := InService)
      else if releases[x].built.image == previous && releases[x].status == InService then releases[x].(status := Retired)
      else releases[x]
  }

  /** The candidate's release is the one in service, and whichever was before it is retired. */
  ghost predicate Replaced(before: map<Id, Release>, after: map<Id, Release>, candidate: Id) {
    && after.Keys == before.Keys && candidate in before && after[candidate] == before[candidate].(status := InService)
    && forall x | x in before && x != candidate ::
         after[x] == if before[x].status == InService then before[x].(status := Retired) else before[x]
  }

  /** Deploying: the boundary, the releases and the attempt change in one step. */
  lemma DeployedRegistry(r: Registry, op: Id, candidate: Image) returns (r': Registry)
    requires RegistryOk(r) && op in r.attempts && r.attempts[op].status in {Deploying, Verifying}
    requires r.boundary == r.Previous(op) && r.Candidate(op) == Some(candidate)
    ensures r' == Registry(r.attempts[op := Advanced(r.attempts[op], Deployed)],
                           Serving(r.releases, r.boundary.value, r.attempts[op].candidate.value), Some(candidate))
    ensures RegistryOk(r') && forall o :: r'.Candidate(o) == r.Candidate(o) && r'.Previous(o) == r.Previous(o)
    ensures Replaced(r.releases, r'.releases, r.attempts[op].candidate.value)
  {
    r' := Registry(r.attempts[op := Advanced(r.attempts[op], Deployed)],
                   Serving(r.releases, r.boundary.value, r.attempts[op].candidate.value), Some(candidate));
    forall o ensures r'.Candidate(o) == r.Candidate(o) && r'.Previous(o) == r.Previous(o) {}
    forall x | x in r'.releases && r'.releases[x].status == InService ensures x == r.attempts[op].candidate.value {
      assert x in r.releases;
    }
  }

  lemma DeployedSound(r: Registry, r': Registry, log: seq<Event>, initial: Option<Image>, op: Id, candidate: Image)
    requires Sound(r, log, initial) && op in r.attempts && r.attempts[op].status in {Deploying, Verifying}
    requires r.boundary.Some? && r.boundary == r.Previous(op) && r.Candidate(op) == Some(candidate)
    requires r' == Registry(r.attempts[op := Advanced(r.attempts[op], Deployed)],
                            Serving(r.releases, r.boundary.value, r.attempts[op].candidate.value), Some(candidate))
    requires Follows(log, |log|, Observed(op, r.attempts[op].status, Some(Observation(Some(candidate), true))))
    ensures var phase := r.attempts[op].status;
      Sound(r', log + [Moves(op, phase, r.boundary.value, candidate), Entered(op, phase, Deployed)], initial)
    ensures r.attempts[op].candidate.Some? && Replaced(r.releases, r'.releases, r.attempts[op].candidate.value)
  {
    hide RegistryOk, Lawful, Ordered, MovesCommit, Serving, Replaced;
    var phase := r.attempts[op].status;
    var move, end := Moves(op, phase, r.boundary.value, candidate), Entered(op, phase, Deployed);
    assert log + [move, end] == log + [move] + [end];
    var same := DeployedRegistry(r, op, candidate);
    LawfulAppend(r, r, log, move);
    LawfulAppend(r, r', log + [move], end);
    OrderedAppend(r, r, log, move);
    OrderedAppend(r, r', log + [move], end);
    RegisteredAppend(log, move, initial);
    RegisteredAppend(log + [move], end, initial);
    MoveCommits(log, op, phase, r.boundary.value, candidate);
  }

  lemma MoveCommits(log: seq<Event>, op: Id, phase: Status, old': Image, new': Image)
    requires MovesCommit(log)
    ensures MovesCommit(log + [Moves(op, phase, old', new')] + [Entered(op, phase, Deployed)])
  {}

  // ---- Overlapping operations ----

  /** The image that a driver runs which does what it is told: the last one deployed with success. */
  ghost function Running(log: seq<Event>, initial: Option<Image>): Option<Image> {
    if log == [] then initial
    else
      var last := log[|log| - 1];
      if last.Deploys? && last.succeeded then Some(last.image) else Running(log[..|log| - 1], initial)
  }

  /** Every observation saw the image that ran. */
  ghost predicate Truthful(log: seq<Event>, initial: Option<Image>) {
    forall i | 0 <= i < |log| && log[i].Observed? && log[i].seen.Some? :: log[i].seen.value.image == Running(log[..i], initial)
  }

  /** A sound history of a truthful driver that now runs this image. */
  ghost predicate Story(r: Registry, log: seq<Event>, running: Image) {
    Sound(r, log, Some("old")) && Truthful(log, Some("old")) && Running(log, Some("old")) == Some(running)
  }

  lemma RunningAppend(log: seq<Event>, e: Event, initial: Option<Image>)
    ensures Running(log + [e], initial) == if e.Deploys? && e.succeeded then Some(e.image) else Running(log, initial)
    ensures Truthful(log, initial) && (e.Observed? && e.seen.Some? ==> e.seen.value.image == Running(log, initial)) ==>
              Truthful(log + [e], initial)
  {
    assert (log + [e])[..|log|] == log;
    assert forall i | 0 <= i < |log| :: (log + [e])[..i] == log[..i];
  }

  lemma StoryGoesOn(r': Registry, log: seq<Event>, e: Event, running: Image)
    requires Truthful(log, Some("old")) && Running(log, Some("old")) == Some(running) && !e.Deploys? && !e.Observed?
    requires Sound(r', log + [e], Some("old"))
    ensures Story(r', log + [e], running)
  {
    hide Sound, Running, Truthful;
    RunningAppend(log, e, Some("old"));
  }

  lemma StoryObserves(r: Registry, log: seq<Event>, running: Image, op: Id) returns (log': seq<Event>)
    requires Story(r, log, running) && op in r.attempts && !Terminal(r.attempts[op].status)
    ensures Story(r, log', running) && log' == log + [Observed(op, r.attempts[op].status, Some(Observation(Some(running), true)))]
  {
    hide Sound, Running, Truthful;
    var seen := Some(Observation(Some(running), true));
    ObserveSound(r, log, Some("old"), op, seen);
    log' := log + [Observed(op, r.attempts[op].status, seen)];
    RunningAppend(log, Observed(op, r.attempts[op].status, seen), Some("old"));
  }

  lemma StoryDeploys(r: Registry, log: seq<Event>, running: Image, op: Id, image: Image) returns (log': seq<Event>)
    requires Story(r, log, running) && op in r.attempts && !Terminal(r.attempts[op].status)
    requires Justified(r, log + [Deploys(op, r.attempts[op].status, image, true)], |log|)
    ensures Story(r, log', image) && log' == log + [Deploys(op, r.attempts[op].status, image, true)]
  {
    hide Sound, Running, Truthful, Justified;
    DeploySound(r, log, Some("old"), op, image, true);
    log' := log + [Deploys(op, r.attempts[op].status, image, true)];
    RunningAppend(log, Deploys(op, r.attempts[op].status, image, true), Some("old"));
  }

  lemma StoryEnters(r: Registry, log: seq<Event>, running: Image, op: Id, to: Status) returns (r': Registry, log': seq<Event>)
    requires Story(r, log, running) && op in r.attempts && r.attempts[op].status in {Deploying, Verifying, RollingBack}
    requires to in {Verifying, RollingBack, RolledBack} && Rank(r.attempts[op].status) < Rank(to)
    requires Justified(r, log + [Entered(op, r.attempts[op].status, to)], |log|)
    ensures r' == r.(attempts := r.attempts[op := Advanced(r.attempts[op], to)])
    ensures Story(r', log', running) && log' == log + [Entered(op, r.attempts[op].status, to)]
    ensures forall o :: r'.Candidate(o) == r.Candidate(o) && r'.Previous(o) == r.Previous(o)
  {
    hide Sound, Running, Truthful, Justified;
    r' := r.(attempts := r.attempts[op := Advanced(r.attempts[op], to)]);
    log' := log + [Entered(op, r.attempts[op].status, to)];
    PhaseKeepsPlans(r, r', log, op, to);
    StoryGoesOn(r', log, Entered(op, r.attempts[op].status, to), running);
  }

  lemma PhaseKeepsPlans(r: Registry, r': Registry, log: seq<Event>, op: Id, to: Status)
    requires Sound(r, log, Some("old")) && op in r.attempts && r.attempts[op].status in {Deploying, Verifying, RollingBack}
    requires to in {Verifying, RollingBack, RolledBack} && Rank(r.attempts[op].status) < Rank(to)
    requires r' == r.(attempts := r.attempts[op := Advanced(r.attempts[op], to)])
    requires Justified(r, log + [Entered(op, r.attempts[op].status, to)], |log|)
    ensures Sound(r', log + [Entered(op, r.attempts[op].status, to)], Some("old"))
    ensures forall o :: r'.Candidate(o) == r.Candidate(o) && r'.Previous(o) == r.Previous(o)
  {
    hide Lawful, Ordered, MovesCommit;
    PhaseRegistry(r, r', op, to);
    hide RegistryOk, Justified;
    PhaseSound(r, r', log, Some("old"), op, to);
  }

  const A := VerifiedImage("a", 1, 1, "build", "test")
  const B := VerifiedImage("b", 1, 1, "build", "test")

  /** An operation starts, sees the old image run, and is prepared. */
  lemma StoryPrepares(r: Registry, log: seq<Event>, op: Id, built: VerifiedImage) returns (r': Registry, log': seq<Event>)
    requires Story(r, log, "old") && r.boundary == Some("old") && op !in r.attempts && op !in r.releases && built.image != "old"
    requires forall x | x in r.releases :: r.releases[x].built.image != built.image
    ensures r' == Registry(r.attempts[op := Attempt(op, Some(op), Some("old"), Deploying, 2)],
                           r.releases[op := Release(built, Verified)], Some("old"))
    ensures Story(r', log', "old")
  {
    hide Sound, Running, Truthful;
    StartSound(r, log, Some("old"), op, op);
    var started := r.(attempts := r.attempts[op := Attempt(op, None, None, Building, 1)]);
    log' := StoryObserves(started, log, "old", op);
    var seen := log';
    r' := Registry(r.attempts[op := Attempt(op, Some(op), Some("old"), Deploying, 2)],
                   r.releases[op := Release(built, Verified)], Some("old"));
    PrepareSound(started, r', seen, Some("old"), op, op, "old");
    log' := seen + [Entered(op, Building, Deploying)];
    StoryGoesOn(r', seen, Entered(op, Building, Deploying), "old");
  }

  lemma EmptyStory()
    ensures Story(Registry(map[], map[], Some("old")), [], "old")
  {}

  /** The first operation is prepared and its process dies; the second deploys, verifies and registers its image. */
  lemma SecondOvertakes() returns (r: Registry, log: seq<Event>)
    ensures Story(r, log, "b") && r.boundary == Some("b")
    ensures "1" in r.attempts && r.attempts["1"].status == Deploying
    ensures "2" in r.attempts && r.attempts["2"].status == Deployed
    ensures r.Previous("1") == Some("old") && r.Candidate("1") == Some("a")
  {
    hide Story;
    EmptyStory();
    r, log := StoryPrepares(Registry(map[], map[], Some("old")), [], "1", A);
    r, log := StoryPrepares(r, log, "2", B);
    log := StoryObserves(r, log, "old", "2");
    log := StoryDeploys(r, log, "old", "2", "b");
    r, log := StoryEnters(r, log, "b", "2", Verifying);
    log := StoryObserves(r, log, "b", "2");
    r, log := StoryRegisters(r, log, "2", "b");
  }

  lemma StoryRegisters(r: Registry, log: seq<Event>, op: Id, candidate: Image) returns (r': Registry, log': seq<Event>)
    requires Story(r, log, candidate) && op in r.attempts && r.attempts[op].status == Verifying
    requires r.boundary.Some? && r.boundary == r.Previous(op) && r.Candidate(op) == Some(candidate)
    requires Follows(log, |log|, Observed(op, Verifying, Some(Observation(Some(candidate), true))))
    ensures r' == Registry(r.attempts[op := Advanced(r.attempts[op], Deployed)],
                           Serving(r.releases, r.boundary.value, r.attempts[op].candidate.value), Some(candidate))
    ensures Story(r', log', candidate)
  {
    hide Sound, Running, Truthful, Serving;
    r' := Registry(r.attempts[op := Advanced(r.attempts[op], Deployed)],
                   Serving(r.releases, r.boundary.value, r.attempts[op].candidate.value), Some(candidate));
    var move, end := Moves(op, Verifying, r.boundary.value, candidate), Entered(op, Verifying, Deployed);
    DeployedSound(r, r', log, Some("old"), op, candidate);
    RunningAppend(log, move, Some("old"));
    log' := log + [move] + [end];
    assert log' == log + [move, end];
    StoryGoesOn(r', log + [move], end, candidate);
  }

  /** Resuming the first operation then takes the second one's image for drift and puts its own old image back. With a
      driver that always tells the truth it ends rolled back and running the old image, while another is registered. */
  lemma OverlapCanDrift() returns (r: Registry, log: seq<Event>)
    ensures Sound(r, log, Some("old")) && Truthful(log, Some("old"))
    ensures "1" in r.attempts && r.attempts["1"].status == RolledBack
    ensures "2" in r.attempts && r.attempts["2"].status == Deployed
    ensures Running(log, Some("old")) == Some("old") && r.boundary == Some("b")
  {
    hide Story;
    r, log := SecondOvertakes();
    log := StoryObserves(r, log, "b", "1");
    r, log := StoryEnters(r, log, "b", "1", RollingBack);
    log := StoryObserves(r, log, "b", "1");
    log := StoryDeploys(r, log, "b", "1", "old");
    log := StoryObserves(r, log, "old", "1");
    r, log := StoryEnters(r, log, "old", "1", RolledBack);
    StoryTells(r, log, "old");
  }

  lemma StoryTells(r: Registry, log: seq<Event>, running: Image)
    requires Story(r, log, running)
    ensures Sound(r, log, Some("old")) && Truthful(log, Some("old")) && Running(log, Some("old")) == Some(running)
  {
    hide Sound, Running, Truthful;
  }
}
