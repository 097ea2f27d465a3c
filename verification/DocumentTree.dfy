/** A document store's tree of folders, each listed page by page, and what an inventory of it counts. */
module DocumentTree {
  import opened Wrappers
  import opened TextOrder

  datatype Item = Item(path: string, isFolder: bool, size: int, modified: Option<string>)

  datatype Page = Page(items: seq<Item>, next: Option<string>)

  /** The pages a store answers with; it fails on any other folder and cursor. */
  type Store = map<(string, Option<string>), Page>

  // ---- Listing one folder ----

  ghost function Cursors(store: Store): set<string> {
    set key | key in store && store[key].next.Some? :: store[key].next.value
  }

  /** The pages from a cursor on, unless one is missing or a cursor comes again. */
  ghost function Pages(store: Store, folder: string, cursor: Option<string>, seen: set<string>): Option<seq<Page>>
    decreases |Cursors(store) - seen|
  {
    if (folder, cursor) !in store then None
    else
      var page := store[(folder, cursor)];
      if page.next.None? then Some([page])
      else if page.next.value in seen then None
      else
        CursorsShrink(store, (folder, cursor), seen);
        match Pages(store, folder, page.next, seen + {page.next.value})
        case None => None
        case Some(rest) => Some([page] + rest)
  }

  lemma CursorsShrink(store: Store, key: (string, Option<string>), seen: set<string>)
    requires key in store && store[key].next.Some? && store[key].next.value !in seen
    ensures |Cursors(store) - (seen + {store[key].next.value})| < |Cursors(store) - seen|
  {
    var next := store[key].next.value;
    assert next in Cursors(store) - seen;
    assert Cursors(store) - seen == (Cursors(store) - (seen + {next})) + {next};
  }

  function ItemsOf(pages: seq<Page>): seq<Item> {
    if pages == [] then [] else pages[0].items + ItemsOf(pages[1..])
  }

  ghost predicate Listable(store: Store, folder: string) {
    Pages(store, folder, None, {}).Some?
  }

  ghost function PagesIn(store: Store, folder: string): seq<Page>
    requires Listable(store, folder)
  {
    Pages(store, folder, None, {}).value
  }

  ghost function Listing(store: Store, folder: string): seq<Item>
    requires Listable(store, folder)
  {
    ItemsOf(PagesIn(store, folder))
  }

  // ---- The whole tree ----

  ghost predicate Contains(store: Store, folder: string, path: string) {
    Listable(store, folder) && exists item :: item in Listing(store, folder) && item.isFolder && item.path == path
  }

  ghost predicate Chain(store: Store, chain: seq<string>) {
    chain != [] && chain[0] == "" && forall i | 0 <= i < |chain| - 1 :: Contains(store, chain[i], chain[i + 1])
  }

  /** A folder reached from the root through listed folders. */
  ghost predicate InTree(store: Store, folder: string) {
    exists chain :: Chain(store, chain) && chain[|chain| - 1] == folder
  }

  lemma RootInTree(store: Store)
    ensures InTree(store, "")
  {
    assert Chain(store, [""]);
  }

  lemma ChildInTree(store: Store, folder: string, path: string)
    requires InTree(store, folder) && Contains(store, folder, path)
    ensures InTree(store, path)
  {
    var chain :| Chain(store, chain) && chain[|chain| - 1] == folder;
    var longer := chain + [path];
    forall i | 0 <= i < |longer| - 1 ensures Contains(store, longer[i], longer[i + 1]) {
      if i < |chain| - 1 {
        assert Contains(store, chain[i], chain[i + 1]);
      }
    }
    assert Chain(store, longer);
  }

  /** An item that some folder of the tree lists. */
  ghost predicate Listed(store: Store, item: Item) {
    exists folder :: InTree(store, folder) && Listable(store, folder) && item in Listing(store, folder)
  }

  /** Every folder lists completely, sizes are not negative, and no path is listed twice or leads back to the root. */
  ghost predicate WellFormed(store: Store) {
    && (forall f | InTree(store, f) :: Listable(store, f))
    && (forall f, i | InTree(store, f) && 0 <= i < |Listing(store, f)| ::
          Listing(store, f)[i].size >= 0 && (Listing(store, f)[i].isFolder ==> Listing(store, f)[i].path != ""))
    && (forall f, g, i, j | InTree(store, f) && InTree(store, g) && 0 <= i < |Listing(store, f)| && 0 <= j < |Listing(store, g)|
                            && Listing(store, f)[i].path == Listing(store, g)[j].path :: f == g && i == j)
  }

  // ---- What is counted ----

  function FolderPaths(items: seq<Item>): seq<string> {
    if items == [] then []
    else
      var n := |items| - 1;
      FolderPaths(items[..n]) + (if items[n].isFolder then [items[n].path] else [])
  }

  function Files(items: seq<Item>): nat {
    if items == [] then 0
    else
      var n := |items| - 1;
      Files(items[..n]) + (if items[n].isFolder then 0 else 1)
  }

  function Bytes(items: seq<Item>): int {
    if items == [] then 0
    else
      var n := |items| - 1;
      Bytes(items[..n]) + (if items[n].isFolder then 0 else items[n].size)
  }

  ghost function Paths(items: seq<Item>): set<string> {
    set item | item in items :: item.path
  }

  ghost predicate DistinctPaths(items: seq<Item>) {
    forall i, j | 0 <= i < j < |items| :: items[i].path != items[j].path
  }

  ghost predicate IsLatest(items: seq<Item>, latest: Option<string>) {
    && (forall item | item in items && item.modified.Some? :: latest.Some? && TextBefore(item.modified.value, latest.value))
    && (latest.Some? ==> exists item :: item in items && item.modified == latest)
  }

  function Smallest(texts: seq<string>, k: nat): seq<string> {
    if |texts| <= k then texts else texts[..k]
  }

  // ---- Taking one item ----

  datatype Tally = Tally(
    scheduled: set<string>, observed: set<string>, files: nat, folders: nat, bytes: nat, latest: Option<string>,
    samples: seq<string>
  )

  const EMPTY := Tally({""}, {}, 0, 0, 0, None, [])

  /** The sample after one more path: inserted in order, and the last dropped when there are too many. */
  function Sampled(samples: seq<string>, path: string, k: nat): seq<string> {
    var p := Position(samples, path);
    if |samples| < k then samples[..p] + [path] + samples[p..]
    else if p < k then (samples[..p] + [path] + samples[p..])[..|samples|]
    else samples
  }

  function Later(latest: Option<string>, modified: Option<string>): Option<string> {
    if modified.Some? && (latest.None? || !TextBefore(modified.value, latest.value)) then modified else latest
  }

  predicate Taken(t: Tally, item: Item) {
    item.path !in t.observed && item.size >= 0 && (item.isFolder ==> item.path !in t.scheduled)
  }

  function Take(t: Tally, item: Item, k: nat): Tally
    requires item.size >= 0
  {
    Tally(
      if item.isFolder then t.scheduled + {item.path} else t.scheduled,
      t.observed + {item.path},
      if item.isFolder then t.files else t.files + 1,
      if item.isFolder then t.folders + 1 else t.folders,
      if item.isFolder then t.bytes else t.bytes + item.size,
      Later(t.latest, item.modified),
      Sampled(t.samples, item.path, k))
  }

  /** What a tally says of the items taken so far. */
  ghost predicate Tallies(t: Tally, items: seq<Item>, k: nat) {
    && t.files == Files(items) && t.folders == |FolderPaths(items)| && t.bytes == Bytes(items)
    && IsLatest(items, t.latest) && t.observed == Paths(items) && DistinctPaths(items)
    && t.scheduled == {""} + Elements(FolderPaths(items)) && "" !in FolderPaths(items)
    && t.samples == Smallest(Sorted(t.observed), k)
  }

  lemma NothingTaken(k: nat)
    ensures Tallies(EMPTY, [], k)
  {}

  /** The sample stays the sorted list of the smallest paths seen. */
  lemma SampleStays(observed: set<string>, path: string, k: nat)
    requires path !in observed
    ensures Sampled(Smallest(Sorted(observed), k), path, k) == Smallest(Sorted(observed + {path}), k)
  {
    hide Sorted, Position;
    var all := Sorted(observed);
    var p := Position(all, path);
    InsertSorted(observed, path);
    SortedExact(observed);
    assert path !in all;
    PositionOfPrefix(all, path, Smallest(all, k));
    if |all| >= k {
      var short := all[..k];
      if p < k {
        assert (short[..p] + [path] + short[p..])[..k] == (all[..p] + [path] + all[p..])[..k];
      } else {
        assert all[..k] == (all[..p] + [path] + all[p..])[..k];
      }
    }
  }

  lemma {:induction false} PositionOfPrefix(all: seq<string>, x: string, some: seq<string>)
    requires some <= all
    ensures Position(some, x) == if Position(all, x) < |some| then Position(all, x) else |some|
  {
    if some != [] && TextBefore(all[0], x) {
      PositionOfPrefix(all[1..], x, some[1..]);
    }
  }

  lemma LatestStays(items: seq<Item>, latest: Option<string>, item: Item)
    requires IsLatest(items, latest)
    ensures IsLatest(items + [item], Later(latest, item.modified))
  {
    var all, later := items + [item], Later(latest, item.modified);
    assert all[|items|] == item;
    forall x | x in all && x.modified.Some? ensures later.Some? && TextBefore(x.modified.value, later.value) {
      if latest.Some? && item.modified.Some? {
        TextOrderTotal(item.modified.value, latest.value);
        if x in items && later == item.modified {
          TextOrderTransitive(x.modified.value, latest.value, item.modified.value);
        }
      }
      if x == item {
        TextOrderTotal(x.modified.value, x.modified.value);
      }
    }
    if later.Some? && later != item.modified {
      var x :| x in items && x.modified == latest;
      assert x in all;
    }
  }

  lemma TakeTallies(t: Tally, items: seq<Item>, k: nat, item: Item)
    requires Tallies(t, items, k) && Taken(t, item)
    ensures Tallies(Take(t, item, k), items + [item], k)
    ensures FolderPaths(items + [item]) == FolderPaths(items) + if item.isFolder then [item.path] else []
  {
    hide Sorted, IsLatest, Sampled, Smallest, Later;
    assert (items + [item])[..|items|] == items;
    LatestStays(items, t.latest, item);
    SampleStays(t.observed, item.path, k);
    PathsGrow(items, item);
  }

  lemma PathsGrow(items: seq<Item>, item: Item)
    ensures Paths(items + [item]) == Paths(items) + {item.path}
    ensures DistinctPaths(items) && item.path !in Paths(items) ==> DistinctPaths(items + [item])
  {
    var all := items + [item];
    assert all[|items|] == item;
    forall p ensures p in Paths(all) <==> p in Paths(items) + {item.path} {
      if p in Paths(items) {
        var x :| x in items && x.path == p;
        assert x in all;
      }
    }
    if DistinctPaths(items) && item.path !in Paths(items) {
      forall i, j | 0 <= i < j < |all| ensures all[i].path != all[j].path {
        assert all[i] in items;
      }
    }
  }

  /** An item that cannot be taken after some others. */
  predicate Clashes(before: seq<Item>, item: Item) {
    item.size < 0 || (exists other | other in before :: other.path == item.path) || (item.isFolder && item.path == "")
  }

  lemma NotTaken(t: Tally, items: seq<Item>, k: nat, item: Item)
    requires Tallies(t, items, k) && !Taken(t, item)
    ensures Clashes(items, item)
  {
    FoldersObserved(items);
  }

  lemma {:induction false} FoldersObserved(items: seq<Item>)
    ensures forall p | p in FolderPaths(items) :: exists item :: item in items && item.isFolder && item.path == p
    ensures forall item | item in items && item.isFolder :: item.path in FolderPaths(items)
  {
    if items != [] {
      var n := |items| - 1;
      FoldersObserved(items[..n]);
      assert items == items[..n] + [items[n]];
      forall p | p in FolderPaths(items) ensures exists item :: item in items && item.isFolder && item.path == p {
        if p in FolderPaths(items[..n]) {
          var item :| item in items[..n] && item.isFolder && item.path == p;
          assert item in items;
        } else {
          assert items[n] in items;
        }
      }
    }
  }

  lemma {:induction false} CountsAdd(items: seq<Item>)
    ensures Files(items) + |FolderPaths(items)| == |items|
  {
    if items != [] {
      CountsAdd(items[..|items| - 1]);
    }
  }
}
