/** Package references, their dependency graph, and the depth-first order that resolution puts them in. */
module PackageGraph {
  import opened Wrappers
  import opened Json
  import Texts = TextOrder

  const KINDS := ["system", "policy", "fragment", "role", "flow", "tool-profile", "project-override"]

  /** A reference: the precedence of its kind, and its whole text. */
  datatype ReferenceData = Reference(kind: nat, text: string)
  type Reference = r: ReferenceData | r.kind < |KINDS| witness ReferenceData.Reference(0, "")

  datatype Content = Text(path: string, text: string) | Settings(path: string, fields: Fields)

  datatype Package = Package(dependencies: seq<Reference>, content: seq<Content>)

  /** The packages that load; a reference without one fails to. */
  type Repository = map<Reference, Package>

  datatype ResolveError = NoReferences | NotLoaded(reference: Reference) | Cycle(path: seq<Reference>)

  // ---- The order of references ----

  predicate Before(a: Reference, b: Reference) {
    a.kind < b.kind || (a.kind == b.kind && Texts.TextBefore(a.text, b.text))
  }

  /** Kind and text in one text, which sorts as the reference does. */
  function Key(r: Reference): (key: string)
    ensures ReferenceOf(key) == r
  {
    [(('0' as int) + r.kind) as char] + r.text
  }

  function ReferenceOf(key: string): Reference {
    if key != "" && '0' <= key[0] && key[0] as int - '0' as int < |KINDS|
    then ReferenceData.Reference(key[0] as int - '0' as int, key[1..])
    else ReferenceData.Reference(0, "")
  }

  lemma KeyOrder(a: Reference, b: Reference)
    ensures Texts.TextBefore(Key(a), Key(b)) <==> Before(a, b)
  {
    assert Key(a)[1..] == a.text && Key(b)[1..] == b.text;
  }

  function KeysOf(s: set<Reference>): set<string> {
    set r | r in s :: Key(r)
  }

  function ReferencesOf(keys: seq<string>): seq<Reference> {
    seq(|keys|, i requires 0 <= i < |keys| => ReferenceOf(keys[i]))
  }

  /** A set of references in order. */
  function Sorted(s: set<Reference>): seq<Reference> {
    ReferencesOf(Texts.Sorted(KeysOf(s)))
  }

  ghost predicate Ascending(s: seq<Reference>) {
    forall i, j | 0 <= i < j < |s| :: Before(s[i], s[j]) && s[i] != s[j]
  }

  lemma SortedExact(s: set<Reference>)
    ensures forall x :: x in Sorted(s) <==> x in s
    ensures Ascending(Sorted(s))
  {
    hide Texts.Sorted, Texts.TextBefore, Before, Key, ReferenceOf;
    var keys := Texts.Sorted(KeysOf(s));
    Texts.SortedExact(KeysOf(s));
    forall i | 0 <= i < |keys| ensures Sorted(s)[i] in s && Key(Sorted(s)[i]) == keys[i] {
      assert keys[i] in KeysOf(s);
    }
    forall x | x in s ensures x in Sorted(s) {
      assert Key(x) in keys;
      var i :| 0 <= i < |keys| && keys[i] == Key(x);
      assert Sorted(s)[i] == x;
    }
    forall i, j | 0 <= i < j < |keys| ensures Before(Sorted(s)[i], Sorted(s)[j]) && Sorted(s)[i] != Sorted(s)[j] {
      KeyOrder(Sorted(s)[i], Sorted(s)[j]);
    }
  }

  /** A sequence in order, without repeats, is the sorted form of its elements. */
  lemma SortedUnique(s: seq<Reference>)
    requires Ascending(s)
    ensures s == Sorted(Elements(s))
  {
    hide Texts.Sorted, Texts.TextBefore, Before, Key, ReferenceOf;
    var keys := seq(|s|, i requires 0 <= i < |s| => Key(s[i]));
    forall i, j | 0 <= i < j < |keys| ensures Texts.TextBefore(keys[i], keys[j]) && keys[i] != keys[j] {
      KeyOrder(s[i], s[j]);
      assert ReferenceOf(keys[i]) != ReferenceOf(keys[j]);
    }
    assert Elements(keys) == KeysOf(Elements(s)) by {
      forall k | k in KeysOf(Elements(s)) ensures k in keys {
        var r :| r in Elements(s) && Key(r) == k;
        var i :| 0 <= i < |s| && s[i] == r;
        assert keys[i] == k;
      }
    }
    Texts.SortedUnique(keys);
  }

  // ---- The dependency graph ----

  ghost predicate DependsOn(repository: Repository, a: Reference, b: Reference) {
    a in repository && b in repository[a].dependencies
  }

  ghost predicate Path(repository: Repository, path: seq<Reference>) {
    path != [] && forall i | 0 <= i < |path| - 1 :: DependsOn(repository, path[i], path[i + 1])
  }

  ghost predicate Reaches(repository: Repository, a: Reference, b: Reference) {
    exists path: seq<Reference> :: Path(repository, path) && path[0] == a && path[|path| - 1] == b
  }

  /** The dependency closure of some roots. */
  ghost predicate InClosure(repository: Repository, roots: set<Reference>, r: Reference) {
    exists root :: root in roots && Reaches(repository, root, r)
  }

  ghost predicate IsCycle(repository: Repository, path: seq<Reference>) {
    |path| > 1 && Path(repository, path) && path[0] == path[|path| - 1]
  }

  lemma ReachesSelf(repository: Repository, a: Reference)
    ensures Reaches(repository, a, a)
  {
    assert Path(repository, [a]);
  }

  /** What is closed under dependencies holds all that its members reach. */
  lemma {:induction false} ClosedUnderPaths(repository: Repository, closed: set<Reference>, path: seq<Reference>)
    requires forall a | a in closed :: a in repository && forall b | b in repository[a].dependencies :: b in closed
    requires Path(repository, path) && path[0] in closed
    ensures path[|path| - 1] in closed
  {
    if |path| > 1 {
      assert DependsOn(repository, path[0], path[1]);
      var rest := path[1..];
      forall i | 0 <= i < |rest| - 1 ensures DependsOn(repository, rest[i], rest[i + 1]) {
        assert DependsOn(repository, path[i + 1], path[i + 2]);
      }
      ClosedUnderPaths(repository, closed, rest);
    }
  }

  // ---- Depth-first order ----

  function IndexOf(s: seq<Reference>, r: Reference): (i: nat)
    requires r in s
    ensures i < |s| && s[i] == r
  {
    if s[0] == r then 0 else 1 + IndexOf(s[1..], r)
  }

  ghost predicate Trail(repository: Repository, visiting: seq<Reference>) {
    && (forall i, j | 0 <= i < j < |visiting| :: visiting[i] != visiting[j])
    && (forall r | r in visiting :: r in repository)
  }

  ghost function Unvisited(repository: Repository, visiting: seq<Reference>): set<Reference> {
    repository.Keys - Elements(visiting)
  }

  /** The packages finished after visiting a reference, in the order they finish. */
  ghost function Visit(repository: Repository, finished: seq<Reference>, visiting: seq<Reference>, r: Reference)
    : Result<seq<Reference>, ResolveError>
    requires Trail(repository, visiting)
    decreases |Unvisited(repository, visiting)|, 0
  {
    if r in finished then Success(finished)
    else if r in visiting then Failure(Cycle(visiting[IndexOf(visiting, r)..] + [r]))
    else if r !in repository then Failure(NotLoaded(r))
    else
      VisitsShrink(repository, visiting, r);
      match VisitEach(repository, finished, visiting + [r], Sorted(Elements(repository[r].dependencies)))
      case Failure(e) => Failure(e)
      case Success(after) => Success(after + [r])
  }

  ghost function VisitEach(repository: Repository, finished: seq<Reference>, visiting: seq<Reference>, each: seq<Reference>)
    : Result<seq<Reference>, ResolveError>
    requires Trail(repository, visiting)
    decreases |Unvisited(repository, visiting)|, 1, |each|
  {
    if each == [] then Success(finished)
    else
      var n := |each| - 1;
      match VisitEach(repository, finished, visiting, each[..n])
      case Failure(e) => Failure(e)
      case Success(after) => Visit(repository, after, visiting, each[n])
  }

  lemma VisitsShrink(repository: Repository, visiting: seq<Reference>, r: Reference)
    requires Trail(repository, visiting) && r in repository && r !in visiting
    ensures Trail(repository, visiting + [r])
    ensures |Unvisited(repository, visiting + [r])| < |Unvisited(repository, visiting)|
  {
    assert Unvisited(repository, visiting) == Unvisited(repository, visiting + [r]) + {r};
  }

  /** The order in which the whole request finishes. */
  ghost function Finishing(repository: Repository, roots: set<Reference>): Result<seq<Reference>, ResolveError> {
    VisitEach(repository, [], [], Sorted(roots))
  }

  // ---- What a visit guarantees ----

  /** Finished packages load, finish once, and after everything they depend on. */
  ghost predicate Settled(repository: Repository, finished: seq<Reference>) {
    && (forall i, j | 0 <= i < j < |finished| :: finished[i] != finished[j])
    && forall i | 0 <= i < |finished| ::
         finished[i] in repository && forall d | d in repository[finished[i]].dependencies :: d in finished[..i]
  }

  ghost predicate Linked(repository: Repository, visiting: seq<Reference>, r: Reference) {
    Path(repository, visiting + [r])
  }

  ghost predicate Apart(finished: seq<Reference>, visiting: seq<Reference>) {
    forall r | r in visiting :: r !in finished
  }

  /** What follows from a visit that ends well: more is finished, all of it reachable from what was visited. */
  ghost predicate Extends(
    repository: Repository, finished: seq<Reference>, visiting: seq<Reference>, roots: set<Reference>, after: seq<Reference>
  ) {
    && finished <= after && Settled(repository, after) && Apart(after, visiting)
    && (forall root | root in roots :: root in after)
    && (forall r | r in after && r !in finished :: InClosure(repository, roots, r))
  }

  ghost predicate FailsRightly(repository: Repository, roots: set<Reference>, error: ResolveError) {
    match error
    case NoReferences => false
    case NotLoaded(r) => r !in repository && InClosure(repository, roots, r)
    case Cycle(path) => IsCycle(repository, path) && InClosure(repository, roots, path[|path| - 1])
  }

  lemma FailureLifts(repository: Repository, roots: set<Reference>, more: set<Reference>, error: ResolveError)
    requires FailsRightly(repository, roots, error)
    requires forall r | InClosure(repository, roots, r) :: InClosure(repository, more, r)
    ensures FailsRightly(repository, more, error)
  {
    hide InClosure;
  }

  lemma SelfInClosure(repository: Repository, r: Reference)
    ensures InClosure(repository, {r}, r)
  {
    ReachesSelf(repository, r);
  }

  lemma {:induction false} VisitGuarantees(
    repository: Repository, finished: seq<Reference>, visiting: seq<Reference>, r: Reference
  )
    requires Trail(repository, visiting) && Settled(repository, finished) && Apart(finished, visiting)
    requires Linked(repository, visiting, r)
    ensures match Visit(repository, finished, visiting, r)
      case Success(after) => Extends(repository, finished, visiting, {r}, after)
      case Failure(e) => FailsRightly(repository, {r}, e)
    decreases |Unvisited(repository, visiting)|, 0
  {
    hide Settled, InClosure, IsCycle, Path, Sorted, Unvisited;
    SelfInClosure(repository, r);
    if r in finished {
    } else if r in visiting {
      CycleFound(repository, visiting, r);
    } else if r in repository {
      VisitsShrink(repository, visiting, r);
      var dependencies := Elements(repository[r].dependencies);
      var each := Sorted(dependencies);
      SortedExact(dependencies);
      assert Elements(each) == dependencies;
      DependenciesLinked(repository, visiting, r);
      VisitEachGuarantees(repository, finished, visiting + [r], each);
      ThroughDependencies(repository, r, dependencies);
      match VisitEach(repository, finished, visiting + [r], each)
      case Failure(e) => FailureLifts(repository, dependencies, {r}, e);
      case Success(after) => FinishOne(repository, finished, visiting, r, after);
    }
  }

  lemma DependenciesLinked(repository: Repository, visiting: seq<Reference>, r: Reference)
    requires r in repository && Linked(repository, visiting, r)
    ensures forall d | d in repository[r].dependencies :: Linked(repository, visiting + [r], d)
  {
    forall d | d in repository[r].dependencies ensures Linked(repository, visiting + [r], d) {
      var before, after := visiting + [r], visiting + [r] + [d];
      forall i | 0 <= i < |after| - 1 ensures DependsOn(repository, after[i], after[i + 1]) {
        if i < |before| - 1 {
          assert DependsOn(repository, before[i], before[i + 1]);
        }
      }
    }
  }

  lemma CycleFound(repository: Repository, visiting: seq<Reference>, r: Reference)
    requires r in visiting && Linked(repository, visiting, r)
    ensures IsCycle(repository, visiting[IndexOf(visiting, r)..] + [r])
  {
    var k := IndexOf(visiting, r);
    var cycle, whole := visiting[k..] + [r], visiting + [r];
    forall i | 0 <= i < |cycle| - 1 ensures DependsOn(repository, cycle[i], cycle[i + 1]) {
      assert DependsOn(repository, whole[k + i], whole[k + i + 1]);
    }
  }

  lemma ThroughDependencies(repository: Repository, r: Reference, dependencies: set<Reference>)
    requires r in repository && dependencies == Elements(repository[r].dependencies)
    ensures forall x | InClosure(repository, dependencies, x) :: InClosure(repository, {r}, x)
  {
    forall x | InClosure(repository, dependencies, x) ensures InClosure(repository, {r}, x) {
      var d :| d in dependencies && Reaches(repository, d, x);
      var path :| Path(repository, path) && path[0] == d && path[|path| - 1] == x;
      var longer := [r] + path;
      forall i | 0 <= i < |longer| - 1 ensures DependsOn(repository, longer[i], longer[i + 1]) {
        if i > 0 {
          assert DependsOn(repository, path[i - 1], path[i]);
        }
      }
      assert Path(repository, longer);
      assert Reaches(repository, r, x);
    }
  }

  lemma FinishOne(
    repository: Repository, finished: seq<Reference>, visiting: seq<Reference>, r: Reference, after: seq<Reference>
  )
    requires r in repository && r !in finished && r !in visiting
    requires Extends(repository, finished, visiting + [r], Elements(repository[r].dependencies), after)
    requires forall x | InClosure(repository, Elements(repository[r].dependencies), x) :: InClosure(repository, {r}, x)
    requires InClosure(repository, {r}, r)
    ensures Extends(repository, finished, visiting, {r}, after + [r])
  {
    var all := after + [r];
    assert r in visiting + [r];
    assert all[..|after|] == after;
    forall i | 0 <= i < |all|
      ensures all[i] in repository && forall d | d in repository[all[i]].dependencies :: d in all[..i]
    {
      if i < |after| {
        assert all[..i] == after[..i];
      } else {
        forall d | d in repository[r].dependencies ensures d in all[..i] {
          assert d in after;
        }
      }
    }
    forall x | x in visiting ensures x !in all {
      assert x in visiting + [r];
    }
  }

  lemma {:induction false} VisitEachGuarantees(
    repository: Repository, finished: seq<Reference>, visiting: seq<Reference>, each: seq<Reference>
  )
    requires Trail(repository, visiting) && Settled(repository, finished) && Apart(finished, visiting)
    requires forall r | r in each :: Linked(repository, visiting, r)
    ensures match VisitEach(repository, finished, visiting, each)
      case Success(after) => Extends(repository, finished, visiting, Elements(each), after)
      case Failure(e) => FailsRightly(repository, Elements(each), e)
    decreases |Unvisited(repository, visiting)|, 1, |each|
  {
    hide Settled, InClosure, IsCycle, Linked, Unvisited, Apart, Visit;
    if each != [] {
      var n := |each| - 1;
      var some, last := each[..n], each[n];
      assert each == some + [last];
      assert Elements(each) == Elements(some) + {last};
      VisitEachGuarantees(repository, finished, visiting, some);
      ClosureGrows(repository, Elements(some), Elements(each));
      ClosureGrows(repository, {last}, Elements(each));
      match VisitEach(repository, finished, visiting, some)
      case Failure(e) => FailureLifts(repository, Elements(some), Elements(each), e);
      case Success(after) =>
        VisitGuarantees(repository, after, visiting, last);
        match Visit(repository, after, visiting, last)
        case Failure(e) => FailureLifts(repository, {last}, Elements(each), e);
        case Success(_) =>
    }
  }

  lemma ClosureGrows(repository: Repository, roots: set<Reference>, more: set<Reference>)
    requires roots <= more
    ensures forall r | InClosure(repository, roots, r) :: InClosure(repository, more, r)
  {
    forall r | InClosure(repository, roots, r) ensures InClosure(repository, more, r) {
      var root :| root in roots && Reaches(repository, root, r);
    }
  }

  // ---- The whole request ----

  ghost predicate AllLoad(repository: Repository, roots: set<Reference>) {
    forall r | InClosure(repository, roots, r) :: r in repository
  }

  ghost predicate HasCycle(repository: Repository, roots: set<Reference>) {
    exists path :: IsCycle(repository, path) && InClosure(repository, roots, path[0])
  }

  /** Depth-first resolution succeeds iff the closure of the roots loads and has no cycle; it then finishes exactly the
      closure, each package once and after all it depends on. */
  lemma FinishingExact(repository: Repository, roots: set<Reference>)
    ensures var result := Finishing(repository, roots);
      && (result.Success? <==> AllLoad(repository, roots) && !HasCycle(repository, roots))
      && (result.Failure? ==> FailsRightly(repository, roots, result.error))
      && (result.Success? ==> Settled(repository, result.value)
                              && forall r :: r in result.value <==> InClosure(repository, roots, r))
  {
    hide InClosure, IsCycle, Settled;
    SortedExact(roots);
    assert Elements(Sorted(roots)) == roots;
    forall r | r in Sorted(roots) ensures Linked(repository, [], r) {
      assert [] + [r] == [r];
    }
    NothingSettled(repository);
    VisitEachGuarantees(repository, [], [], Sorted(roots));
    match Finishing(repository, roots)
    case Failure(e) => FailureShows(repository, roots, e);
    case Success(finished) =>
      SettledClosed(repository, roots, finished);
      SettledAcyclic(repository, roots, finished);
  }

  lemma NothingSettled(repository: Repository)
    ensures Settled(repository, [])
  {}

  lemma FailureShows(repository: Repository, roots: set<Reference>, error: ResolveError)
    requires FailsRightly(repository, roots, error)
    ensures !AllLoad(repository, roots) || HasCycle(repository, roots)
  {
    hide InClosure;
  }

  lemma SettledClosed(repository: Repository, roots: set<Reference>, finished: seq<Reference>)
    requires Extends(repository, [], [], roots, finished)
    ensures forall r :: r in finished <==> InClosure(repository, roots, r)
    ensures AllLoad(repository, roots)
  {
    forall r | InClosure(repository, roots, r) ensures r in finished && r in repository {
      var root :| root in roots && Reaches(repository, root, r);
      var path :| Path(repository, path) && path[0] == root && path[|path| - 1] == r;
      forall a | a in Elements(finished)
        ensures a in repository && forall b | b in repository[a].dependencies :: b in Elements(finished)
      {
        var i :| 0 <= i < |finished| && finished[i] == a;
      }
      ClosedUnderPaths(repository, Elements(finished), path);
      var i :| 0 <= i < |finished| && finished[i] == r;
    }
  }

  /** Along a path, packages finished ever earlier. */
  lemma {:induction false} PathDescends(repository: Repository, finished: seq<Reference>, path: seq<Reference>)
    requires Settled(repository, finished) && Path(repository, path) && path[0] in finished
    ensures path[|path| - 1] in finished
    ensures IndexOf(finished, path[|path| - 1]) <= IndexOf(finished, path[0])
    ensures |path| > 1 ==> IndexOf(finished, path[|path| - 1]) < IndexOf(finished, path[0])
  {
    if |path| > 1 {
      var rest := path[1..];
      assert DependsOn(repository, path[0], path[1]);
      var i := IndexOf(finished, path[0]);
      assert path[1] in finished[..i];
      var k :| 0 <= k < i && finished[k] == path[1];
      assert IndexOf(finished, path[1]) == k;
      forall j | 0 <= j < |rest| - 1 ensures DependsOn(repository, rest[j], rest[j + 1]) {
        assert DependsOn(repository, path[j + 1], path[j + 2]);
      }
      PathDescends(repository, finished, rest);
    }
  }

  lemma SettledAcyclic(repository: Repository, roots: set<Reference>, finished: seq<Reference>)
    requires Extends(repository, [], [], roots, finished)
    ensures !HasCycle(repository, roots)
  {
    SettledClosed(repository, roots, finished);
    forall path | IsCycle(repository, path) ensures !InClosure(repository, roots, path[0]) {
      if InClosure(repository, roots, path[0]) {
        PathDescends(repository, finished, path);
      }
    }
  }

  // ---- The final order ----

  function OfKind(finished: seq<Reference>, kind: nat): seq<Reference> {
    if finished == [] then []
    else
      var n := |finished| - 1;
      OfKind(finished[..n], kind) + (if finished[n].kind == kind then [finished[n]] else [])
  }

  /** The finished packages sorted by the precedence of their kind and then by when they finished. */
  function ByKind(finished: seq<Reference>, from: nat): seq<Reference>
    decreases |KINDS| - from
  {
    if from >= |KINDS| then [] else OfKind(finished, from) + ByKind(finished, from + 1)
  }

  ghost predicate FinishedBefore(finished: seq<Reference>, a: Reference, b: Reference) {
    exists i, j :: 0 <= i < j < |finished| && finished[i] == a && finished[j] == b
  }

  ghost predicate Precedes(finished: seq<Reference>, a: Reference, b: Reference) {
    a.kind < b.kind || (a.kind == b.kind && FinishedBefore(finished, a, b))
  }

  lemma {:induction false} OfKindExact(finished: seq<Reference>, kind: nat)
    ensures forall r :: r in OfKind(finished, kind) <==> r in finished && r.kind == kind
    ensures forall i, j | 0 <= i < j < |OfKind(finished, kind)| ::
              FinishedBefore(finished, OfKind(finished, kind)[i], OfKind(finished, kind)[j])
  {
    if finished != [] {
      var n := |finished| - 1;
      var rest, last := finished[..n], finished[n];
      OfKindExact(rest, kind);
      assert finished == rest + [last];
      var some, all := OfKind(rest, kind), OfKind(finished, kind);
      forall i, j | 0 <= i < j < |all| ensures FinishedBefore(finished, all[i], all[j]) {
        assert all[i] == some[i];
        if j < |some| {
          assert FinishedBefore(rest, some[i], some[j]);
          var x, y :| 0 <= x < y < |rest| && rest[x] == some[i] && rest[y] == some[j];
          assert finished[x] == some[i] && finished[y] == some[j];
        } else {
          assert some[i] in rest;
          var x :| 0 <= x < |rest| && rest[x] == some[i];
          assert finished[x] == some[i] && finished[n] == all[j];
        }
      }
    }
  }

  lemma {:induction false} ByKindExact(finished: seq<Reference>, from: nat)
    ensures forall r :: r in ByKind(finished, from) <==> r in finished && r.kind >= from
    ensures forall i, j | 0 <= i < j < |ByKind(finished, from)| ::
              Precedes(finished, ByKind(finished, from)[i], ByKind(finished, from)[j])
    decreases |KINDS| - from
  {
    hide FinishedBefore, OfKind;
    if from < |KINDS| {
      OfKindExact(finished, from);
      ByKindExact(finished, from + 1);
      var first, rest := OfKind(finished, from), ByKind(finished, from + 1);
      forall i, j | 0 <= i < j < |first + rest| ensures Precedes(finished, (first + rest)[i], (first + rest)[j]) {
        if i < |first| {
          assert first[i] in first;
          if j >= |first| {
            assert rest[j - |first|] in rest;
          }
        }
      }
    }
  }
}
