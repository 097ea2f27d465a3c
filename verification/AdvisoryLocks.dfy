/** Sessions that take advisory locks in sorted key order, each key standing for a lock number by its hash. */
module AdvisoryLocks {
  import opened Wrappers
  import opened TextOrder

  type Id = string
  type Hash = string -> int

  // ---- One session's locking and unlocking ----

  /** A lock is held by one session, as many times as that session took it. */
  datatype Hold = Hold(session: nat, count: nat)

  type Table = map<int, Hold>

  predicate Free(t: Table, session: nat, id: int) {
    id in t ==> t[id].session == session
  }

  function Acquired(t: Table, session: nat, id: int): Table {
    t[id := Hold(session, if id in t then t[id].count + 1 else 1)]
  }

  function Released(t: Table, id: int): Table
    requires id in t
  {
    if t[id].count > 1 then t[id := t[id].(count := t[id].count - 1)] else t - {id}
  }

  /** The table after a session has taken the first keys of a list. */
  ghost function Taken(t: Table, session: nat, hash: Hash, keys: seq<string>): Table {
    if keys == [] then t
    else
      var n := |keys| - 1;
      Acquired(Taken(t, session, hash, keys[..n]), session, hash(keys[n]))
  }

  ghost predicate Counted(t: Table) {
    forall id | id in t :: t[id].count > 0
  }

  lemma ReleaseUndoes(t: Table, session: nat, id: int)
    requires Counted(t) && Free(t, session, id)
    ensures id in Acquired(t, session, id) && Released(Acquired(t, session, id), id) == t
  {}

  lemma {:induction false} TakenStays(t: Table, session: nat, hash: Hash, keys: seq<string>)
    requires Counted(t) && forall k | k in keys :: Free(t, session, hash(k))
    ensures Counted(Taken(t, session, hash, keys))
    ensures forall id | Free(t, session, id) :: Free(Taken(t, session, hash, keys), session, id)
    ensures forall id | !Free(t, session, id) :: !Free(Taken(t, session, hash, keys), session, id)
  {
    if keys != [] {
      var n := |keys| - 1;
      assert forall k | k in keys[..n] :: k in keys;
      TakenStays(t, session, hash, keys[..n]);
    }
  }

  class LockTable {
    var table: Table
    const hash: Hash

    constructor (hash: Hash)
      ensures this.hash == hash && table == map[]
    {
      this.hash, table := hash, map[];
    }

    /** Takes the distinct keys in sorted order, up to the first one another session holds: there the session waits. */
    method Lock(session: nat, keys: set<string>) returns (taken: nat)
      requires Counted(table)
      modifies this
      ensures Counted(table) && taken <= |Sorted(keys)|
      ensures table == Taken(old(table), session, hash, Sorted(keys)[..taken])
      ensures taken < |Sorted(keys)| ==> !Free(old(table), session, hash(Sorted(keys)[taken]))
      ensures forall i | 0 <= i < taken :: Free(old(table), session, hash(Sorted(keys)[i]))
    {
      hide Sorted;
      var order := Sorted(keys);
      for i := 0 to |order|
        invariant table == Taken(old(table), session, hash, order[..i]) && Counted(table)
        invariant forall k | k in order[..i] :: Free(old(table), session, hash(k))
      {
        TakenStays(old(table), session, hash, order[..i]);
        if !Free(table, session, hash(order[i])) {
          return i;
        }
        assert order[..i + 1][..i] == order[..i];
        table := Acquired(table, session, hash(order[i]));
      }
      return |order|;
    }

    /** Releasing the same keys in reverse order leaves the table as it was, even where keys share a lock number. */
    method Unlock(session: nat, keys: set<string>, ghost before: Table)
      requires Counted(before) && forall k | k in keys :: Free(before, session, hash(k))
      requires table == Taken(before, session, hash, Sorted(keys))
      modifies this
      ensures table == before
    {
      hide Sorted;
      var order := Sorted(keys);
      SortedExact(keys);
      var i := |order|;
      assert order[..i] == order;
      while i > 0
        invariant 0 <= i <= |order| && table == Taken(before, session, hash, order[..i])
      {
        i := i - 1;
        assert order[..i + 1][..i] == order[..i];
        assert forall k | k in order[..i] :: k in order;
        TakenStays(before, session, hash, order[..i]);
        ReleaseUndoes(Taken(before, session, hash, order[..i]), session, hash(order[i]));
        table := Released(table, hash(order[i]));
      }
    }
  }

  // ---- Many sessions ----

  /** What a session is for, and how far it has come: the first `held` of its keys are locked. */
  datatype Purpose = Prepare(work: Id) | Cleanup(work: Id)

  datatype Session = Session(purpose: Purpose, keys: seq<string>, held: nat, unlocking: bool)

  /** `workspaces` gives the source paths of each workspace's repositories. */
  datatype System = System(sessions: map<nat, Session>, workspaces: map<Id, set<string>>)

  function WorkspaceKey(work: Id): string {
    "workspace:" + work
  }

  function SourceKey(path: string): string {
    "git-source:" + path
  }

  function Keys(work: Id, sources: set<string>): set<string> {
    {WorkspaceKey(work)} + set path | path in sources :: SourceKey(path)
  }

  predicate IsSource(key: string) {
    SourceKey("") <= key
  }

  predicate IsWorkspace(key: string) {
    WorkspaceKey("") <= key
  }

  predicate Waiting(s: Session) {
    !s.unlocking && s.held < |s.keys|
  }

  function Wanted(s: Session): string
    requires Waiting(s)
  {
    s.keys[s.held]
  }

  ghost predicate Holds(hash: Hash, s: Session, id: int) {
    exists i :: 0 <= i < s.held && i < |s.keys| && hash(s.keys[i]) == id
  }

  /** `a` waits for a lock that `b` holds. */
  ghost predicate WaitsFor(hash: Hash, sys: System, a: nat, b: nat) {
    && a in sys.sessions && b in sys.sessions && a != b && Waiting(sys.sessions[a])
    && Holds(hash, sys.sessions[b], hash(Wanted(sys.sessions[a])))
  }

  ghost predicate Blocked(hash: Hash, sys: System, a: nat) {
    exists b :: WaitsFor(hash, sys, a, b)
  }

  datatype Step =
    | Arrive(session: nat, purpose: Purpose, sources: set<string>)
    | Acquire(session: nat)
    | StartUnlocking(session: nat)
    | Release(session: nat)
    | Leave(session: nat)
    | Insert(session: nat, sources: set<string>)

  ghost predicate Takes(hash: Hash, s: System, step: Step, s': System) {
    match step
    case Arrive(a, purpose, sources) =>
      && a !in s.sessions
      && (purpose.Cleanup? ==> purpose.work in s.workspaces && sources == s.workspaces[purpose.work])
      && s' == s.(sessions := s.sessions[a := Session(purpose, Sorted(Keys(purpose.work, sources)), 0, false)])
    case Acquire(a) =>
      && a in s.sessions && Waiting(s.sessions[a]) && !Blocked(hash, s, a)
      && s' == s.(sessions := s.sessions[a := s.sessions[a].(held := s.sessions[a].held + 1)])
    case StartUnlocking(a) =>
      && a in s.sessions && !s.sessions[a].unlocking && s.sessions[a].held == |s.sessions[a].keys|
      && s' == s.(sessions := s.sessions[a := s.sessions[a].(unlocking := true)])
    case Release(a) =>
      && a in s.sessions && s.sessions[a].unlocking && s.sessions[a].held > 0
      && s' == s.(sessions := s.sessions[a := s.sessions[a].(held := s.sessions[a].held - 1)])
    case Leave(a) => a in s.sessions && s' == s.(sessions := s.sessions - {a})
    case Insert(a, sources) =>
      && a in s.sessions && s.sessions[a].purpose.Prepare? && !s.sessions[a].unlocking
      && s.sessions[a].held == |s.sessions[a].keys| && s.sessions[a].purpose.work !in s.workspaces
      && s.sessions[a].keys == Sorted(Keys(s.sessions[a].purpose.work, sources))
      && s' == s.(workspaces := s.workspaces[s.sessions[a].purpose.work := sources])
  }

  ghost predicate IsRun(hash: Hash, trace: seq<System>, steps: seq<Step>) {
    && |trace| == |steps| + 1 && trace[0] == System(map[], map[])
    && forall i | 0 <= i < |steps| :: Takes(hash, trace[i], steps[i], trace[i + 1])
  }

  // ---- The invariant ----

  ghost predicate SessionOk(workspaces: map<Id, set<string>>, s: Session) {
    && (forall k | k in s.keys :: IsSource(k) || k == WorkspaceKey(s.purpose.work)) && WorkspaceKey(s.purpose.work) in s.keys
    && Ascending(s.keys) && s.held <= |s.keys|
    && (s.purpose.Cleanup? ==>
          s.purpose.work in workspaces && s.keys == Sorted(Keys(s.purpose.work, workspaces[s.purpose.work])))
  }

  /** No lock is held by two sessions. */
  ghost predicate Exclusive(hash: Hash, sessions: map<nat, Session>) {
    forall a, b, i, j | a in sessions && b in sessions && a != b
                        && 0 <= i < sessions[a].held && i < |sessions[a].keys|
                        && 0 <= j < sessions[b].held && j < |sessions[b].keys| ::
      hash(sessions[a].keys[i]) != hash(sessions[b].keys[j])
  }

  ghost predicate Inv(hash: Hash, s: System) {
    Exclusive(hash, s.sessions) && forall a | a in s.sessions :: SessionOk(s.workspaces, s.sessions[a])
  }

  lemma StepKeeps(hash: Hash, s: System, step: Step, s': System)
    requires Inv(hash, s) && Takes(hash, s, step, s')
    ensures Inv(hash, s')
  {
    hide Sorted, IsSource, Ascending, Keys, Blocked, WorkspaceKey;
    match step
    case Arrive(a, purpose, sources) => KeysOk(purpose.work, sources);
    case Acquire(a) => AcquireKeeps(hash, s, a, s');
    case _ =>
  }

  lemma KeysOk(work: Id, sources: set<string>)
    ensures var keys := Sorted(Keys(work, sources));
      (forall k | k in keys :: IsSource(k) || k == WorkspaceKey(work)) && WorkspaceKey(work) in keys && Ascending(keys)
  {
    hide Sorted, Ascending;
    SortedExact(Keys(work, sources));
  }

  lemma AcquireKeeps(hash: Hash, s: System, a: nat, s': System)
    requires Inv(hash, s) && Takes(hash, s, Acquire(a), s')
    ensures Inv(hash, s')
  {
    hide Sorted, IsSource, Ascending, Keys, Exclusive, Blocked;
    assert SessionOk(s.workspaces, s.sessions[a]);
    OneMoreHeld(hash, s, a);
  }

  /** Nobody holds the number of the key that an unblocked session takes. */
  lemma OneMoreHeld(hash: Hash, s: System, a: nat)
    requires Exclusive(hash, s.sessions) && a in s.sessions && Waiting(s.sessions[a]) && !Blocked(hash, s, a)
    ensures Exclusive(hash, s.sessions[a := s.sessions[a].(held := s.sessions[a].held + 1)])
  {
    var wanted := Wanted(s.sessions[a]);
    forall b, j | b in s.sessions && b != a && 0 <= j < s.sessions[b].held && j < |s.sessions[b].keys|
      ensures hash(s.sessions[b].keys[j]) != hash(wanted)
    {
      assert !WaitsFor(hash, s, a, b);
    }
  }

  lemma {:induction false} AlwaysInv(hash: Hash, trace: seq<System>, steps: seq<Step>, i: nat)
    requires IsRun(hash, trace, steps) && i < |trace|
    ensures Inv(hash, trace[i])
  {
    hide Takes;
    if i > 0 {
      AlwaysInv(hash, trace, steps, i - 1);
      StepKeeps(hash, trace[i - 1], steps[i - 1], trace[i]);
    }
  }

  // ---- No circular wait ----

  /** No source's lock number is shared by a key past another source of another number. This speaks of finitely many keys:
      those that the sessions of a run lock. */
  predicate Unfolded(hash: Hash, keys: set<string>) {
    forall a, b, c | a in keys && b in keys && c in keys ::
      Folds(a, b, c) && hash(a) == hash(c) ==> hash(b) == hash(a)
  }

  predicate Folds(a: string, b: string, c: string) {
    && IsSource(a) && IsSource(b) && (IsSource(c) || IsWorkspace(c))
    && TextBefore(a, b) && TextBefore(b, c)
  }

  predicate Injective(hash: Hash, keys: set<string>) {
    forall a, b | a in keys && b in keys :: hash(a) == hash(b) ==> a == b
  }

  lemma InjectiveIsUnfolded(hash: Hash, keys: set<string>)
    requires Injective(hash, keys)
    ensures Unfolded(hash, keys)
  {
    forall a, b, c | a in keys && b in keys && c in keys && Folds(a, b, c) && hash(a) == hash(c) ensures hash(b) == hash(a) {
      TextOrderTotal(a, b);
    }
  }

  ghost predicate Within(sys: System, keys: set<string>) {
    forall a, k | a in sys.sessions && k in sys.sessions[a].keys :: k in keys
  }

  /** Only keys of this set are ever locked. */
  ghost predicate Locks(trace: seq<System>, keys: set<string>) {
    forall i | 0 <= i < |trace| :: Within(trace[i], keys)
  }

  lemma SourcesFirst(work: Id, source: string)
    requires IsSource(source)
    ensures TextBefore(source, WorkspaceKey(work)) && !TextBefore(WorkspaceKey(work), source)
  {
    assert source[0] == SourceKey("")[0] == 'g' && WorkspaceKey(work)[0] == 'w';
  }

  /** What a session holds while it waits is a source, and comes before what it waits for. */
  lemma HeldIsSource(workspaces: map<Id, set<string>>, s: Session, i: nat)
    requires SessionOk(workspaces, s) && Waiting(s) && i < s.held
    ensures IsSource(s.keys[i]) && TextBefore(s.keys[i], Wanted(s)) && (IsSource(Wanted(s)) || IsWorkspace(Wanted(s)))
  {
    hide TextBefore, IsSource, Sorted;
    assert s.keys[i] in s.keys && Wanted(s) in s.keys;
    if !IsSource(s.keys[i]) {
      SourcesFirst(s.purpose.work, Wanted(s));
    }
  }

  /** `k` is a key that `b` holds and `a` waits for the number of. */
  ghost predicate WaitsOn(hash: Hash, sys: System, a: nat, b: nat, k: string) {
    && WaitsFor(hash, sys, a, b)
    && hash(k) == hash(Wanted(sys.sessions[a]))
    && exists i :: 0 <= i < sys.sessions[b].held && i < |sys.sessions[b].keys| && sys.sessions[b].keys[i] == k
  }

  /** Of the keys that waiting sessions hold, one waits only for a later one. */
  lemma HeldClimbs(hash: Hash, keys: set<string>, sys: System, a: nat, b: nat, k: string, c: nat, l: string)
    requires Unfolded(hash, keys) && Inv(hash, sys) && Within(sys, keys)
    requires WaitsOn(hash, sys, a, b, k) && WaitsOn(hash, sys, b, c, l) && Waiting(sys.sessions[c])
    ensures TextBefore(k, l) && k != l
  {
    hide TextBefore, IsSource, IsWorkspace, Unfolded;
    var sb, sc := sys.sessions[b], sys.sessions[c];
    var i :| 0 <= i < sb.held && i < |sb.keys| && sb.keys[i] == k;
    var j :| 0 <= j < sc.held && j < |sc.keys| && sc.keys[j] == l;
    assert hash(sb.keys[i]) != hash(sc.keys[j]);
    HeldIsSource(sys.workspaces, sb, i);
    HeldIsSource(sys.workspaces, sc, j);
    assert k in sb.keys && l in sc.keys && Wanted(sb) in sb.keys;
    TextOrderTotal(k, l);
    if TextBefore(l, k) {
      assert Folds(l, k, Wanted(sb));
      UnfoldedAt(hash, keys, l, k, Wanted(sb));
    }
  }

  lemma UnfoldedAt(hash: Hash, keys: set<string>, a: string, b: string, c: string)
    requires Unfolded(hash, keys) && a in keys && b in keys && c in keys && Folds(a, b, c) && hash(a) == hash(c)
    ensures hash(b) == hash(a)
  {
    hide Folds;
  }

  ghost predicate WaitsAmong(hash: Hash, sys: System, among: set<nat>, a: nat) {
    exists b :: b in among && WaitsFor(hash, sys, a, b)
  }

  /** Each of these sessions waits for another of them. */
  ghost predicate Knotted(hash: Hash, sys: System, among: set<nat>) {
    among != {} && forall a | a in among :: WaitsAmong(hash, sys, among, a)
  }

  ghost predicate Demanded(hash: Hash, sys: System, among: set<nat>, k: string) {
    exists a, b :: a in among && b in among && WaitsOn(hash, sys, a, b, k)
  }

  lemma Follower(hash: Hash, sys: System, among: set<nat>, a: nat) returns (b: nat)
    requires Knotted(hash, sys, among) && a in among
    ensures b in among && WaitsFor(hash, sys, a, b)
  {
    hide WaitsFor;
    assert WaitsAmong(hash, sys, among, a);
    b :| b in among && WaitsFor(hash, sys, a, b);
  }

  lemma NextDemanded(hash: Hash, sys: System, among: set<nat>, a: nat) returns (b: nat, k: string)
    requires Knotted(hash, sys, among) && a in among
    ensures b in among && b in sys.sessions && Waiting(sys.sessions[b]) && k in sys.sessions[b].keys
    ensures WaitsOn(hash, sys, a, b, k) && Demanded(hash, sys, among, k)
  {
    hide Knotted;
    b := Follower(hash, sys, among, a);
    var i :| 0 <= i < sys.sessions[b].held && i < |sys.sessions[b].keys|
             && hash(sys.sessions[b].keys[i]) == hash(Wanted(sys.sessions[a]));
    k := sys.sessions[b].keys[i];
    var c := Follower(hash, sys, among, b);
  }

  /** The last of the keys they wait on cannot be held by one of them. */
  lemma NoKnot(hash: Hash, keys: set<string>, sys: System, among: set<nat>)
    requires Unfolded(hash, keys) && Inv(hash, sys) && Within(sys, keys)
    ensures !Knotted(hash, sys, among)
  {
    hide Unfolded, Inv, Knotted, WaitsOn, WaitsFor, Waiting, Sorted, TextBefore, Holds;
    if Knotted(hash, sys, among) {
      var demanded := set k | k in keys && Demanded(hash, sys, among, k);
      var some := SomeDemanded(hash, sys, among);
      var k := Last(demanded, some);
      var a, b :| a in among && b in among && WaitsOn(hash, sys, a, b, k);
      var c, l := NextDemanded(hash, sys, among, b);
      assert l in demanded;
      HeldClimbs(hash, keys, sys, a, b, k, c, l);
      TextOrderTotal(k, l);
      assert false;
    }
  }

  lemma SomeDemanded(hash: Hash, sys: System, among: set<nat>) returns (k: string)
    requires Knotted(hash, sys, among)
    ensures Demanded(hash, sys, among, k) && exists b :: b in sys.sessions && k in sys.sessions[b].keys
  {
    hide WaitsFor, WaitsOn;
    var a :| a in among;
    hide Knotted;
    var b;
    b, k := NextDemanded(hash, sys, among, a);
  }

  lemma Last(texts: set<string>, some: string) returns (last: string)
    requires some in texts
    ensures last in texts && forall k | k in texts :: TextBefore(k, last)
  {
    hide TextBefore, Sorted;
    SortedExact(texts);
    var order := Sorted(texts);
    last := order[|order| - 1];
    forall k | k in texts ensures TextBefore(k, last) {
      var i :| 0 <= i < |order| && order[i] == k;
      TextOrderTotal(k, k);
    }
  }

  ghost predicate WaitPath(hash: Hash, sys: System, path: seq<nat>) {
    |path| > 1 && forall i | 0 <= i < |path| - 1 :: WaitsFor(hash, sys, path[i], path[i + 1])
  }

  ghost predicate CircularWait(hash: Hash, sys: System) {
    exists path :: WaitPath(hash, sys, path) && path[0] == path[|path| - 1]
  }

  lemma CircleIsKnot(hash: Hash, sys: System, path: seq<nat>) returns (among: set<nat>)
    requires WaitPath(hash, sys, path) && path[0] == path[|path| - 1]
    ensures Knotted(hash, sys, among)
  {
    hide WaitsFor;
    among := set a | a in path;
    assert path[0] in among;
    forall a | a in among ensures WaitsAmong(hash, sys, among, a) {
      var i :| 0 <= i < |path| && path[i] == a;
      var j := if i == |path| - 1 then 0 else i;
      assert WaitsFor(hash, sys, path[j], path[j + 1]) && path[j + 1] in among;
    }
  }

  /** Sessions that take their keys in sorted order never come to wait in a circle, if their keys do not fold. */
  lemma NoCircularWait(hash: Hash, keys: set<string>, trace: seq<System>, steps: seq<Step>, n: nat)
    requires Unfolded(hash, keys) && IsRun(hash, trace, steps) && Locks(trace, keys) && n < |trace|
    ensures !CircularWait(hash, trace[n])
  {
    hide Unfolded, Inv, IsRun, Knotted, WaitsFor;
    AlwaysInv(hash, trace, steps, n);
    if path: seq<nat> :| WaitPath(hash, trace[n], path) && path[0] == path[|path| - 1] {
      var among := CircleIsKnot(hash, trace[n], path);
      NoKnot(hash, keys, trace[n], among);
    }
  }

  ghost predicate Stuck(hash: Hash, sys: System, a: nat)
    requires a in sys.sessions
  {
    Waiting(sys.sessions[a]) && Blocked(hash, sys, a)
  }

  /** Whatever sessions there are, one of them is not waiting for another. */
  lemma SomeSessionGoesOn(hash: Hash, keys: set<string>, trace: seq<System>, steps: seq<Step>, n: nat)
    requires Unfolded(hash, keys) && IsRun(hash, trace, steps) && Locks(trace, keys)
    requires n < |trace| && trace[n].sessions != map[]
    ensures exists a :: a in trace[n].sessions && !Stuck(hash, trace[n], a)
  {
    hide Unfolded, Inv, IsRun, Knotted, Blocked, Waiting;
    AlwaysInv(hash, trace, steps, n);
    NoKnot(hash, keys, trace[n], trace[n].sessions.Keys);
    if forall a | a in trace[n].sessions :: Stuck(hash, trace[n], a) {
      AllStuck(hash, trace[n]);
    }
  }

  lemma AllStuck(hash: Hash, sys: System)
    requires sys.sessions != map[] && forall a | a in sys.sessions :: Stuck(hash, sys, a)
    ensures Knotted(hash, sys, sys.sessions.Keys)
  {
    hide WaitsFor, Waiting, Blocked, WaitsAmong;
    var some :| some in sys.sessions;
    forall a | a in sys.sessions.Keys ensures WaitsAmong(hash, sys, sys.sessions.Keys, a) {
      assert Stuck(hash, sys, a);
      BlockedAmong(hash, sys, a);
    }
  }

  lemma BlockedAmong(hash: Hash, sys: System, a: nat)
    requires Blocked(hash, sys, a)
    ensures WaitsAmong(hash, sys, sys.sessions.Keys, a)
  {}

  // ---- When the keys fold ----

  /** Two sessions over three folding keys come to wait for each other. */
  lemma FoldedKeysDeadlock(hash: Hash, keys: set<string>, work: Id, a: string, b: string, c: string)
    returns (trace: seq<System>, steps: seq<Step>)
    requires {WorkspaceKey(work), a, b, c} <= keys && Folds(a, b, c) && hash(a) == hash(c) != hash(b)
    ensures IsRun(hash, trace, steps) && Locks(trace, keys) && CircularWait(hash, trace[|steps|])
  {
    var p, q := Path(a), Path(b);
    TwoSources(work, p, q);
    if IsSource(c) {
      TwoSources(work, q, Path(c));
      hide Sorted, TextBefore, Keys, IsRun, Locks, CircularWait;
      trace, steps := TwoFold(hash, keys, work, work, {p, q}, {q, Path(c)});
    } else {
      var other := c[|WorkspaceKey("")|..];
      assert c == WorkspaceKey(other);
      OneSource(other, q);
      hide Sorted, TextBefore, Keys, IsRun, Locks, CircularWait;
      trace, steps := TwoFold(hash, keys, work, other, {p, q}, {q});
    }
  }

  /** The path that a source key is of. */
  function Path(key: string): (path: string)
    requires IsSource(key)
    ensures SourceKey(path) == key
  {
    key[|SourceKey("")|..]
  }

  lemma TwoFold(hash: Hash, keys: set<string>, first: Id, second: Id, some: set<string>, others: set<string>)
    returns (trace: seq<System>, steps: seq<Step>)
    requires var one, two := Sorted(Keys(first, some)), Sorted(Keys(second, others));
      && |one| > 1 && |two| > 1 && hash(one[0]) == hash(two[1]) != hash(two[0]) == hash(one[1])
      && (forall k | k in one :: k in keys) && (forall k | k in two :: k in keys)
    ensures IsRun(hash, trace, steps) && Locks(trace, keys) && CircularWait(hash, trace[|steps|])
  {
    hide Sorted, Keys, Takes, CircularWait, IsRun;
    var one := Session(Prepare(first), Sorted(Keys(first, some)), 0, false);
    var two := Session(Prepare(second), Sorted(Keys(second, others)), 0, false);
    var s0 := System(map[], map[]);
    var s1 := System(map[1 := one], map[]);
    var s2 := System(map[1 := one.(held := 1)], map[]);
    var s3 := System(map[1 := one.(held := 1), 2 := two], map[]);
    var s4 := System(map[1 := one.(held := 1), 2 := two.(held := 1)], map[]);
    Arrives(hash, s0, 1, first, some, s1);
    FirstAcquires(hash, s1, s2, one);
    Arrives(hash, s2, 2, second, others, s3);
    SecondAcquires(hash, s3, s4, one.(held := 1), two);
    trace := [s0, s1, s2, s3, s4];
    steps := [Arrive(1, Prepare(first), some), Acquire(1), Arrive(2, Prepare(second), others), Acquire(2)];
    FourSteps(hash, trace, steps);
    FacingEachOther(hash, s4);
  }

  lemma FourSteps(hash: Hash, trace: seq<System>, steps: seq<Step>)
    requires |trace| == 5 && |steps| == 4 && trace[0] == System(map[], map[])
    requires Takes(hash, trace[0], steps[0], trace[1]) && Takes(hash, trace[1], steps[1], trace[2])
    requires Takes(hash, trace[2], steps[2], trace[3]) && Takes(hash, trace[3], steps[3], trace[4])
    ensures IsRun(hash, trace, steps)
  {
    hide Takes;
  }

  lemma Arrives(hash: Hash, s: System, a: nat, work: Id, sources: set<string>, s': System)
    requires a !in s.sessions
    requires s' == s.(sessions := s.sessions[a := Session(Prepare(work), Sorted(Keys(work, sources)), 0, false)])
    ensures Takes(hash, s, Arrive(a, Prepare(work), sources), s')
  {
    hide Sorted, Keys;
  }

  lemma FirstAcquires(hash: Hash, s: System, s': System, one: Session)
    requires s == System(map[1 := one], map[]) && one.held == 0 && |one.keys| > 1 && !one.unlocking
    requires s' == System(map[1 := one.(held := 1)], map[])
    ensures Takes(hash, s, Acquire(1), s')
  {
    hide Sorted;
    assert forall b :: !WaitsFor(hash, s, 1, b);
    assert s.sessions[1 := one.(held := 1)] == map[1 := one.(held := 1)];
  }

  lemma SecondAcquires(hash: Hash, s: System, s': System, one: Session, two: Session)
    requires s.sessions == map[1 := one, 2 := two] && one.held == 1 && two.held == 0 && |one.keys| > 1 && |two.keys| > 1
    requires !two.unlocking && hash(one.keys[0]) != hash(two.keys[0])
    requires s' == s.(sessions := map[1 := one, 2 := two.(held := 1)])
    ensures Takes(hash, s, Acquire(2), s')
  {
    hide Sorted;
    assert forall b :: !WaitsFor(hash, s, 2, b);
    assert s.sessions[2 := two.(held := 1)] == map[1 := one, 2 := two.(held := 1)];
  }

  lemma FacingEachOther(hash: Hash, s: System)
    requires 1 in s.sessions && 2 in s.sessions
    requires var one, two := s.sessions[1], s.sessions[2];
      && |one.keys| > 1 && |two.keys| > 1 && one.held == two.held == 1 && !one.unlocking && !two.unlocking
      && hash(one.keys[1]) == hash(two.keys[0]) && hash(two.keys[1]) == hash(one.keys[0])
    ensures CircularWait(hash, s)
  {
    assert WaitsFor(hash, s, 1, 2) && WaitsFor(hash, s, 2, 1);
    assert WaitPath(hash, s, [1, 2, 1]);
  }

  lemma TwoSources(work: Id, p: string, q: string)
    requires TextBefore(SourceKey(p), SourceKey(q)) && SourceKey(p) != SourceKey(q)
    ensures Sorted(Keys(work, {p, q})) == [SourceKey(p), SourceKey(q), WorkspaceKey(work)]
  {
    var keys := [SourceKey(p), SourceKey(q), WorkspaceKey(work)];
    SourcesFirst(work, SourceKey(p));
    SourcesFirst(work, SourceKey(q));
    hide TextBefore, Sorted;
    SortedUnique(keys);
    assert Elements(keys) == Keys(work, {p, q});
  }

  lemma OneSource(work: Id, q: string)
    ensures Sorted(Keys(work, {q})) == [SourceKey(q), WorkspaceKey(work)]
  {
    var keys := [SourceKey(q), WorkspaceKey(work)];
    SourcesFirst(work, SourceKey(q));
    hide TextBefore, Sorted;
    SortedUnique(keys);
    assert Elements(keys) == Keys(work, {q});
  }

  /** So, for any finite set of keys with some workspace's among them, sorted locking is free of deadlock exactly when
      the hash does not fold them. */
  lemma DeadlockFreeExactly(hash: Hash, keys: set<string>, work: Id)
    requires WorkspaceKey(work) in keys
    ensures Unfolded(hash, keys) <==>
            forall trace, steps, n: nat | IsRun(hash, trace, steps) && Locks(trace, keys) && n < |trace| :: !CircularWait(hash, trace[n])
  {
    hide TextBefore, IsRun, CircularWait, Folds, Locks;
    if Unfolded(hash, keys) {
      forall trace, steps, n: nat | IsRun(hash, trace, steps) && Locks(trace, keys) && n < |trace|
        ensures !CircularWait(hash, trace[n])
      {
        NoCircularWait(hash, keys, trace, steps, n);
      }
    } else {
      var a, b, c :| a in keys && b in keys && c in keys && Folds(a, b, c) && hash(a) == hash(c) && hash(b) != hash(a);
      var trace, steps := FoldedKeysDeadlock(hash, keys, work, a, b, c);
      RunLength(hash, trace, steps);
    }
  }

  lemma RunLength(hash: Hash, trace: seq<System>, steps: seq<Step>)
    requires IsRun(hash, trace, steps)
    ensures |steps| < |trace|
  {
    hide Takes;
  }

  // ---- What the locks protect ----

  /** A cleanup that holds its keys holds those of every source its workspace has now, although it read them before. */
  lemma CleanupKeysCover(hash: Hash, trace: seq<System>, steps: seq<Step>, n: nat, a: nat)
    requires IsRun(hash, trace, steps) && n < |trace| && a in trace[n].sessions && trace[n].sessions[a].purpose.Cleanup?
    requires trace[n].sessions[a].held == |trace[n].sessions[a].keys|
    ensures var work := trace[n].sessions[a].purpose.work;
      && work in trace[n].workspaces
      && forall path | path in trace[n].workspaces[work] :: Holds(hash, trace[n].sessions[a], hash(SourceKey(path)))
  {
    hide IsRun, Sorted;
    AlwaysInv(hash, trace, steps, n);
    var s := trace[n].sessions[a];
    assert SessionOk(trace[n].workspaces, s);
    var work := s.purpose.work;
    SortedExact(Keys(work, trace[n].workspaces[work]));
    forall path | path in trace[n].workspaces[work] ensures Holds(hash, s, hash(SourceKey(path))) {
      assert SourceKey(path) in Keys(work, trace[n].workspaces[work]);
      var i :| 0 <= i < |s.keys| && s.keys[i] == SourceKey(path);
    }
  }

  /** No two sessions that hold all their keys work on the same workspace or the same source. */
  lemma WorkingSessionsApart(hash: Hash, trace: seq<System>, steps: seq<Step>, n: nat, a: nat, b: nat)
    requires IsRun(hash, trace, steps) && n < |trace| && a in trace[n].sessions && b in trace[n].sessions && a != b
    requires trace[n].sessions[a].held == |trace[n].sessions[a].keys| && trace[n].sessions[b].held == |trace[n].sessions[b].keys|
    ensures trace[n].sessions[a].purpose.work != trace[n].sessions[b].purpose.work
    ensures forall k | k in trace[n].sessions[a].keys :: k !in trace[n].sessions[b].keys
  {
    hide IsRun, Sorted, Ascending, IsSource;
    AlwaysInv(hash, trace, steps, n);
    var sa, sb := trace[n].sessions[a], trace[n].sessions[b];
    assert SessionOk(trace[n].workspaces, sa) && SessionOk(trace[n].workspaces, sb);
    forall k | k in sa.keys ensures k !in sb.keys {
      var i :| 0 <= i < |sa.keys| && sa.keys[i] == k;
      forall j | 0 <= j < |sb.keys| ensures sb.keys[j] != k {
        assert hash(sa.keys[i]) != hash(sb.keys[j]);
      }
    }
  }
}
