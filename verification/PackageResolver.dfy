/** Package resolution: a depth-first walk that mutates what it has finished and is visiting, the final order, and the
    fold of the packages' settings. */
module PackageResolver {
  import opened Wrappers
  import opened Json
  import opened PackageGraph

  datatype Resolved = Resolved(packages: seq<Reference>, settings: Fields, texts: seq<(Reference, string, string)>)

  // ---- The fold over content ----

  /** The settings objects of some content, in order. */
  function Overlays(content: seq<Content>): seq<Fields> {
    if content == [] then []
    else
      var n := |content| - 1;
      Overlays(content[..n]) + (if content[n].Settings? then [content[n].fields] else [])
  }

  function Texts(package: Reference, content: seq<Content>): seq<(Reference, string, string)> {
    if content == [] then []
    else
      var n := |content| - 1;
      Texts(package, content[..n]) + (if content[n].Text? then [(package, content[n].path, content[n].text)] else [])
  }

  ghost predicate Loaded(repository: Repository, packages: seq<Reference>) {
    forall r | r in packages :: r in repository
  }

  ghost function AllOverlays(repository: Repository, packages: seq<Reference>): seq<Fields>
    requires Loaded(repository, packages)
  {
    if packages == [] then []
    else
      var n := |packages| - 1;
      AllOverlays(repository, packages[..n]) + Overlays(repository[packages[n]].content)
  }

  ghost function AllTexts(repository: Repository, packages: seq<Reference>): seq<(Reference, string, string)>
    requires Loaded(repository, packages)
  {
    if packages == [] then []
    else
      var n := |packages| - 1;
      AllTexts(repository, packages[..n]) + Texts(packages[n], repository[packages[n]].content)
  }

  lemma {:induction false} MergeAllAppend(base: Fields, some: seq<Fields>, more: seq<Fields>)
    ensures MergeAll(base, some + more) == MergeAll(MergeAll(base, some), more)
    decreases |more|
  {
    if more == [] {
      assert some + more == some;
    } else {
      var n := |more| - 1;
      MergeAllAppend(base, some, more[..n]);
      assert (some + more)[..|some + more| - 1] == some + more[..n];
    }
  }

  lemma ContentStep(package: Reference, content: seq<Content>, j: nat)
    requires j < |content|
    ensures Overlays(content[..j + 1])
            == if content[j].Settings? then Overlays(content[..j]) + [content[j].fields] else Overlays(content[..j])
    ensures Texts(package, content[..j + 1])
            == if content[j].Text? then Texts(package, content[..j]) + [(package, content[j].path, content[j].text)]
               else Texts(package, content[..j])
  {
    assert content[..j + 1][..j] == content[..j];
  }

  lemma MergeStep(base: Fields, overlays: seq<Fields>, overlay: Fields)
    ensures MergeAll(base, overlays + [overlay]) == Merge(MergeAll(base, overlays), overlay)
  {
    assert (overlays + [overlay])[..|overlays|] == overlays;
  }

  method FoldContent(package: Reference, content: seq<Content>, settings: Fields)
    returns (merged: Fields, texts: seq<(Reference, string, string)>)
    ensures merged == MergeAll(settings, Overlays(content)) && texts == Texts(package, content)
  {
    hide Merge;
    merged, texts := settings, [];
    for j := 0 to |content|
      invariant merged == MergeAll(settings, Overlays(content[..j]))
      invariant texts == Texts(package, content[..j])
    {
      hide MergeAll, Overlays, Texts;
      ContentStep(package, content, j);
      if content[j].Settings? {
        MergeStep(settings, Overlays(content[..j]), content[j].fields);
        merged := Merge(merged, content[j].fields);
      } else {
        texts := texts + [(package, content[j].path, content[j].text)];
      }
    }
    assert content[..|content|] == content;
  }

  method Fold(repository: Repository, ordered: seq<Reference>) returns (settings: Fields, texts: seq<(Reference, string, string)>)
    requires Loaded(repository, ordered)
    ensures settings == MergeAll(map[], AllOverlays(repository, ordered)) && texts == AllTexts(repository, ordered)
  {
    hide Merge, MergeAll, Overlays, Texts;
    settings, texts := map[], [];
    EmptyFold();
    for i := 0 to |ordered|
      invariant settings == MergeAll(map[], AllOverlays(repository, ordered[..i]))
      invariant texts == AllTexts(repository, ordered[..i])
    {
      var content := repository[ordered[i]].content;
      var merged, written := FoldContent(ordered[i], content, settings);
      assert ordered[..i + 1][..i] == ordered[..i];
      MergeAllAppend(map[], AllOverlays(repository, ordered[..i]), Overlays(content));
      settings, texts := merged, texts + written;
    }
    assert ordered[..|ordered|] == ordered;
  }

  lemma EmptyFold()
    ensures MergeAll(map[], []) == map[]
  {}

  // ---- The walk ----

  class Resolver {
    const repository: Repository
    var packages: seq<Reference>
    var visiting: seq<Reference>

    constructor (repository: Repository)
      ensures this.repository == repository && packages == [] && visiting == []
    {
      this.repository, packages, visiting := repository, [], [];
    }

    method Visit(r: Reference) returns (error: Option<ResolveError>)
      requires Trail(repository, visiting)
      modifies this
      ensures match PackageGraph.Visit(repository, old(packages), old(visiting), r)
              case Success(after) => error.None? && packages == after && visiting == old(visiting)
              case Failure(e) => error == Some(e)
      decreases |Unvisited(repository, visiting)|, 0
    {
      hide Sorted, Unvisited;
      if r in packages {
        return None;
      }
      if r in visiting {
        return Some(Cycle(visiting[IndexOf(visiting, r)..] + [r]));
      }
      if r !in repository {
        return Some(NotLoaded(r));
      }
      VisitsShrink(repository, visiting, r);
      visiting := visiting + [r];
      error := VisitEach(Sorted(Elements(repository[r].dependencies)));
      if error.Some? {
        return error;
      }
      visiting := visiting[..|visiting| - 1];
      packages := packages + [r];
    }

    method VisitEach(each: seq<Reference>) returns (error: Option<ResolveError>)
      requires Trail(repository, visiting)
      modifies this
      ensures match PackageGraph.VisitEach(repository, old(packages), old(visiting), each)
              case Success(after) => error.None? && packages == after && visiting == old(visiting)
              case Failure(e) => error == Some(e)
      decreases |Unvisited(repository, visiting)|, 1
    {
      hide PackageGraph.Visit, Unvisited;
      for i := 0 to |each|
        invariant visiting == old(visiting)
        invariant PackageGraph.VisitEach(repository, old(packages), visiting, each[..i]) == Success(packages)
      {
        assert each[..i + 1][..i] == each[..i];
        error := Visit(each[i]);
        if error.Some? {
          EachFails(repository, old(packages), old(visiting), each, i + 1, error.value);
          return error;
        }
      }
      assert each[..|each|] == each;
      return None;
    }

    method Resolve(references: seq<Reference>) returns (result: Result<Resolved, ResolveError>)
      requires packages == [] && visiting == []
      modifies this
      ensures result == Resolution(repository, references)
    {
      hide Sorted, PackageGraph.VisitEach, ByKind, MergeAll;
      if references == [] {
        return Failure(NoReferences);
      }
      var error := VisitEach(Sorted(Elements(references)));
      if error.Some? {
        return Failure(error.value);
      }
      var ordered := ByKind(packages, 0);
      AllLoaded(repository, Elements(references), packages);
      var settings, texts := Fold(repository, ordered);
      return Success(Resolved(ordered, settings, texts));
    }
  }

  /** The first failure in a list of visits is the failure of the list. */
  lemma {:induction false} EachFails(
    repository: Repository, finished: seq<Reference>, visiting: seq<Reference>, each: seq<Reference>, n: nat, error: ResolveError
  )
    requires Trail(repository, visiting) && n <= |each|
    requires PackageGraph.VisitEach(repository, finished, visiting, each[..n]) == Failure(error)
    ensures PackageGraph.VisitEach(repository, finished, visiting, each) == Failure(error)
    decreases |each| - n
  {
    if n == |each| {
      assert each[..n] == each;
    } else {
      assert each[..n + 1][..n] == each[..n];
      EachFails(repository, finished, visiting, each, n + 1, error);
    }
  }

  lemma AllLoaded(repository: Repository, roots: set<Reference>, finished: seq<Reference>)
    requires Finishing(repository, roots) == Success(finished)
    ensures Loaded(repository, ByKind(finished, 0))
  {
    hide ByKind, PackageGraph.VisitEach, InClosure;
    FinishingExact(repository, roots);
    ByKindExact(finished, 0);
  }

  // ---- What resolution gives ----

  /** What a request resolves to. */
  ghost function Resolution(repository: Repository, references: seq<Reference>): Result<Resolved, ResolveError> {
    if references == [] then Failure(NoReferences)
    else
      match Finishing(repository, Elements(references))
      case Failure(e) => Failure(e)
      case Success(finished) =>
        AllLoaded(repository, Elements(references), finished);
        var ordered := ByKind(finished, 0);
        Success(Resolved(ordered, MergeAll(map[], AllOverlays(repository, ordered)), AllTexts(repository, ordered)))
  }

  /** Kinds come in precedence order, no package twice, and within a kind each package after its dependencies. */
  ghost predicate WellOrdered(repository: Repository, packages: seq<Reference>) {
    forall i, j | 0 <= i < j < |packages| ::
      && packages[i].kind <= packages[j].kind && packages[i] != packages[j]
      && (packages[i].kind == packages[j].kind ==> !DependsOn(repository, packages[i], packages[j]))
  }

  /** A request that loads is refused iff its closure has a cycle, and then names one; otherwise it resolves to exactly
      the closure, in order. A request that does not load is refused. */
  lemma ResolutionExact(repository: Repository, references: seq<Reference>)
    requires references != []
    ensures var result, roots := Resolution(repository, references), Elements(references);
      && (result.Success? <==> AllLoad(repository, roots) && !HasCycle(repository, roots))
      && (result.Success? ==> WellOrdered(repository, result.value.packages)
                              && forall r :: r in result.value.packages <==> InClosure(repository, roots, r))
      && (result.Failure? ==> FailsRightly(repository, roots, result.error))
      && (result.Failure? && AllLoad(repository, roots) ==> result.error.Cycle? && IsCycle(repository, result.error.path))
  {
    hide InClosure, IsCycle, PackageGraph.VisitEach, ByKind, Settled, HasCycle, WellOrdered, Sorted;
    var roots := Elements(references);
    FinishingExact(repository, roots);
    match Finishing(repository, roots)
    case Failure(e) =>
    case Success(finished) =>
      ByKindExact(finished, 0);
      OrderIsWell(repository, finished);
  }

  lemma OrderIsWell(repository: Repository, finished: seq<Reference>)
    requires Settled(repository, finished)
    ensures WellOrdered(repository, ByKind(finished, 0))
  {
    hide ByKind;
    ByKindExact(finished, 0);
    var packages := ByKind(finished, 0);
    forall i, j | 0 <= i < j < |packages|
      ensures packages[i].kind <= packages[j].kind && packages[i] != packages[j]
      ensures packages[i].kind == packages[j].kind ==> !DependsOn(repository, packages[i], packages[j])
    {
      assert Precedes(finished, packages[i], packages[j]);
      if packages[i].kind == packages[j].kind {
        var x, y :| 0 <= x < y < |finished| && finished[x] == packages[i] && finished[y] == packages[j];
        assert finished[y] !in finished[..x];
      }
    }
  }

  /** Repeating or permuting the requested references changes nothing. */
  lemma RequestOrderIsIrrelevant(repository: Repository, references: seq<Reference>, others: seq<Reference>)
    requires forall r :: r in references <==> r in others
    ensures Resolution(repository, references) == Resolution(repository, others)
  {
    hide Finishing, ByKind;
    assert Elements(references) == Elements(others);
    assert references == [] <==> others == [] by {
      if references != [] {
        assert references[0] in others;
      }
      if others != [] {
        assert others[0] in references;
      }
    }
  }

  // ---- What the fold gives, position by position ----

  /** Content `j` of package `i` is a settings file that touches the path. */
  ghost predicate TouchedAt(repository: Repository, packages: seq<Reference>, path: seq<string>, i: int, j: int)
    requires path != [] && Loaded(repository, packages)
  {
    && 0 <= i < |packages| && 0 <= j < |repository[packages[i]].content|
    && repository[packages[i]].content[j].Settings? && Touches(repository[packages[i]].content[j].fields, path)
  }

  /** It does, and none at a later position does: in a later package, or further on in the same one. */
  ghost predicate LastTouchedAt(repository: Repository, packages: seq<Reference>, path: seq<string>, i: int, j: int)
    requires path != [] && Loaded(repository, packages)
  {
    && TouchedAt(repository, packages, path, i, j)
    && forall i', j' | TouchedAt(repository, packages, path, i', j') :: i' < i || (i' == i && j' <= j)
  }

  ghost predicate NoneTouched(repository: Repository, packages: seq<Reference>, path: seq<string>)
    requires path != [] && Loaded(repository, packages)
  {
    forall i, j :: !TouchedAt(repository, packages, path, i, j)
  }

  ghost predicate NoneIn(content: seq<Content>, path: seq<string>)
    requires path != []
  {
    forall k | 0 <= k < |content| && content[k].Settings? :: !Touches(content[k].fields, path)
  }

  ghost predicate LastIn(content: seq<Content>, path: seq<string>, j: int)
    requires path != []
  {
    0 <= j < |content| && content[j].Settings? && Touches(content[j].fields, path) && NoneIn(content[j + 1..], path)
  }

  lemma {:induction false} ContentIgnores(base: Fields, content: seq<Content>, path: seq<string>)
    requires path != [] && NoneIn(content, path)
    ensures At(MergeAll(base, Overlays(content)), path) == At(base, path)
    decreases |content|
  {
    hide At, Touches, Merge, MergeAll;
    NothingMerged(base);
    if content != [] {
      var n := |content| - 1;
      ContentIgnores(base, content[..n], path);
      if content[n].Settings? {
        MergeStep(base, Overlays(content[..n]), content[n].fields);
        MergeAt(MergeAll(base, Overlays(content[..n])), content[n].fields, path);
      } else {
        assert Overlays(content) == Overlays(content[..n]);
      }
    }
  }

  lemma {:induction false} ContentDecides(base: Fields, content: seq<Content>, path: seq<string>, j: int)
    requires path != [] && LastIn(content, path, j)
    ensures At(MergeAll(base, Overlays(content)), path) == At(content[j].fields, path)
    decreases |content|
  {
    hide At, Touches, Merge, MergeAll;
    var n := |content| - 1;
    if j == n {
      MergeStep(base, Overlays(content[..n]), content[n].fields);
      MergeAt(MergeAll(base, Overlays(content[..n])), content[n].fields, path);
    } else {
      var after := content[j + 1..];
      assert NoneIn(content[..n][j + 1..], path) by {
        assert content[..n][j + 1..] == after[..n - j - 1];
      }
      ContentDecides(base, content[..n], path, j);
      assert after[n - j - 1] == content[n];
      if content[n].Settings? {
        MergeStep(base, Overlays(content[..n]), content[n].fields);
        MergeAt(MergeAll(base, Overlays(content[..n])), content[n].fields, path);
      } else {
        assert Overlays(content) == Overlays(content[..n]);
      }
    }
  }

  lemma NothingMerged(base: Fields)
    ensures MergeAll(base, []) == base
  {}

  /** What the last package's content does to the path, and what is left to the packages before it. */
  lemma LastPackage(repository: Repository, packages: seq<Reference>, path: seq<string>, i: int, j: int)
    requires path != [] && Loaded(repository, packages) && packages != [] && LastTouchedAt(repository, packages, path, i, j)
    ensures i == |packages| - 1 ==> LastIn(repository[packages[i]].content, path, j)
    ensures i < |packages| - 1 ==>
              && NoneIn(repository[packages[|packages| - 1]].content, path)
              && LastTouchedAt(repository, packages[..|packages| - 1], path, i, j)
  {
    hide Touches;
    var n := |packages| - 1;
    var content := repository[packages[n]].content;
    forall k | 0 <= k < |content| && content[k].Settings? && Touches(content[k].fields, path) ensures i == n && k <= j {
      assert TouchedAt(repository, packages, path, n, k);
    }
    forall i', j' | TouchedAt(repository, packages[..n], path, i', j') ensures i' < i || (i' == i && j' <= j) {
      assert TouchedAt(repository, packages, path, i', j');
    }
  }

  lemma NonePackage(repository: Repository, packages: seq<Reference>, path: seq<string>)
    requires path != [] && Loaded(repository, packages) && packages != [] && NoneTouched(repository, packages, path)
    ensures NoneIn(repository[packages[|packages| - 1]].content, path)
    ensures NoneTouched(repository, packages[..|packages| - 1], path)
  {
    hide Touches;
    var n := |packages| - 1;
    var content := repository[packages[n]].content;
    forall k | 0 <= k < |content| && content[k].Settings? ensures !Touches(content[k].fields, path) {
      assert !TouchedAt(repository, packages, path, n, k);
    }
    forall i, j ensures !TouchedAt(repository, packages[..n], path, i, j) {
      assert !TouchedAt(repository, packages, path, i, j);
    }
  }

  lemma {:induction false} PackagesDecide(repository: Repository, packages: seq<Reference>, path: seq<string>, i: int, j: int)
    requires path != [] && Loaded(repository, packages) && LastTouchedAt(repository, packages, path, i, j)
    ensures At(MergeAll(map[], AllOverlays(repository, packages)), path) == At(repository[packages[i]].content[j].fields, path)
    decreases |packages|
  {
    hide At, Touches, Merge, MergeAll, Overlays, LastIn, NoneIn;
    var n := |packages| - 1;
    var rest, content := packages[..n], repository[packages[n]].content;
    LastPackage(repository, packages, path, i, j);
    MergeAllAppend(map[], AllOverlays(repository, rest), Overlays(content));
    if i == n {
      ContentDecides(MergeAll(map[], AllOverlays(repository, rest)), content, path, j);
    } else {
      PackagesDecide(repository, rest, path, i, j);
      ContentIgnores(MergeAll(map[], AllOverlays(repository, rest)), content, path);
    }
  }

  lemma {:induction false} PackagesIgnore(repository: Repository, packages: seq<Reference>, path: seq<string>)
    requires path != [] && Loaded(repository, packages) && NoneTouched(repository, packages, path)
    ensures At(MergeAll(map[], AllOverlays(repository, packages)), path) == Absent
    decreases |packages|
  {
    hide Touches, Merge, MergeAll, Overlays, NoneIn, NoneTouched;
    NothingMerged(map[]);
    if packages != [] {
      var n := |packages| - 1;
      var rest, content := packages[..n], repository[packages[n]].content;
      NonePackage(repository, packages, path);
      PackagesIgnore(repository, rest, path);
      MergeAllAppend(map[], AllOverlays(repository, rest), Overlays(content));
      ContentIgnores(MergeAll(map[], AllOverlays(repository, rest)), content, path);
    }
  }

  /** At every key path the resolved settings hold what the last settings file to touch that path holds there: the last in
      the order of the resolved packages, and within a package in the order of its content. */
  lemma SettingsDecidedByLast(repository: Repository, references: seq<Reference>, path: seq<string>)
    requires path != [] && Resolution(repository, references).Success?
    ensures var packages, settings := Resolution(repository, references).value.packages, Resolution(repository, references).value.settings;
      && Loaded(repository, packages)
      && (forall i, j | LastTouchedAt(repository, packages, path, i, j) ::
            At(settings, path) == At(repository[packages[i]].content[j].fields, path))
      && (NoneTouched(repository, packages, path) ==> At(settings, path) == Absent)
  {
    hide Finishing, ByKind, LastTouchedAt, NoneTouched, MergeAll;
    var finished := Finishing(repository, Elements(references)).value;
    AllLoaded(repository, Elements(references), finished);
    var packages := ByKind(finished, 0);
    forall i, j | LastTouchedAt(repository, packages, path, i, j)
      ensures TouchedAt(repository, packages, path, i, j)
      ensures At(MergeAll(map[], AllOverlays(repository, packages)), path) == At(repository[packages[i]].content[j].fields, path)
    {
      LastIsTouched(repository, packages, path, i, j);
      PackagesDecide(repository, packages, path, i, j);
    }
    if NoneTouched(repository, packages, path) {
      PackagesIgnore(repository, packages, path);
    }
  }

  lemma LastIsTouched(repository: Repository, packages: seq<Reference>, path: seq<string>, i: int, j: int)
    requires path != [] && Loaded(repository, packages) && LastTouchedAt(repository, packages, path, i, j)
    ensures TouchedAt(repository, packages, path, i, j)
  {
    hide TouchedAt;
  }

  function TextCount(content: seq<Content>): nat {
    if content == [] then 0 else TextCount(content[..|content| - 1]) + if content[|content| - 1].Text? then 1 else 0
  }

  /** How many text files there are in these packages. */
  ghost function TextsIn(repository: Repository, packages: seq<Reference>): nat
    requires Loaded(repository, packages)
  {
    if packages == [] then 0
    else TextsIn(repository, packages[..|packages| - 1]) + TextCount(repository[packages[|packages| - 1]].content)
  }

  lemma {:induction false} TextsOfContent(package: Reference, content: seq<Content>)
    ensures |Texts(package, content)| == TextCount(content)
    ensures forall j | 0 <= j < |content| && content[j].Text? ::
              TextCount(content[..j]) < TextCount(content)
              && Texts(package, content)[TextCount(content[..j])] == (package, content[j].path, content[j].text)
    decreases |content|
  {
    if content != [] {
      var n := |content| - 1;
      TextsOfContent(package, content[..n]);
      forall j | 0 <= j < n && content[j].Text?
        ensures TextCount(content[..j]) < TextCount(content)
        ensures Texts(package, content)[TextCount(content[..j])] == (package, content[j].path, content[j].text)
      {
        assert content[..n][..j] == content[..j];
      }
    }
  }

  lemma {:induction false} TextsOfPackages(repository: Repository, packages: seq<Reference>)
    requires Loaded(repository, packages)
    ensures |AllTexts(repository, packages)| == TextsIn(repository, packages)
    ensures forall i, j | 0 <= i < |packages| && 0 <= j < |repository[packages[i]].content| && repository[packages[i]].content[j].Text? ::
              var at, content := TextsIn(repository, packages[..i]) + TextCount(repository[packages[i]].content[..j]), repository[packages[i]].content;
              at < |AllTexts(repository, packages)|
              && AllTexts(repository, packages)[at] == (packages[i], content[j].path, content[j].text)
    decreases |packages|
  {
    hide Texts, TextCount;
    if packages != [] {
      var n := |packages| - 1;
      TextsOfPackages(repository, packages[..n]);
      TextsOfContent(packages[n], repository[packages[n]].content);
      forall i, j | 0 <= i < n && 0 <= j < |repository[packages[i]].content| && repository[packages[i]].content[j].Text?
        ensures var at, content := TextsIn(repository, packages[..i]) + TextCount(repository[packages[i]].content[..j]), repository[packages[i]].content;
          at < |AllTexts(repository, packages)|
          && AllTexts(repository, packages)[at] == (packages[i], content[j].path, content[j].text)
      {
        assert packages[..n][..i] == packages[..i] && packages[..n][i] == packages[i];
      }
    }
  }

  /** The text sections are the text files in order, each once: a file comes after exactly as many sections as there are
      text files before it, in earlier packages and earlier in its own. */
  lemma TextsInOrder(repository: Repository, references: seq<Reference>)
    requires Resolution(repository, references).Success?
    ensures var packages, texts := Resolution(repository, references).value.packages, Resolution(repository, references).value.texts;
      && Loaded(repository, packages) && |texts| == TextsIn(repository, packages)
      && forall i, j | 0 <= i < |packages| && 0 <= j < |repository[packages[i]].content| && repository[packages[i]].content[j].Text? ::
           var at, content := TextsIn(repository, packages[..i]) + TextCount(repository[packages[i]].content[..j]), repository[packages[i]].content;
           at < |texts| && texts[at] == (packages[i], content[j].path, content[j].text)
  {
    hide Finishing, ByKind, TextsIn, TextCount, AllTexts;
    var finished := Finishing(repository, Elements(references)).value;
    AllLoaded(repository, Elements(references), finished);
    TextsOfPackages(repository, ByKind(finished, 0));
  }
}
