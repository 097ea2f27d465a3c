/** The inventory of a document tree: a queue of folders, a loop over their pages, and a loop over each page's items. */
module ImportDiscovery {
  import opened Wrappers
  import opened TextOrder
  import opened DocumentTree

  datatype Inventory = Inventory(
    files: nat, folders: nat, bytes: nat, pages: nat, latest: Option<string>, samples: seq<string>, complete: bool
  )

  /** What the loops carry along. */
  datatype Walk = Walk(tally: Tally, pending: seq<string>, pages: nat, complete: bool)

  // ---- One page ----

  lemma FolderPathsAdd(some: seq<Item>, item: Item)
    ensures FolderPaths(some + [item]) == FolderPaths(some) + if item.isFolder then [item.path] else []
  {
    assert (some + [item])[..|some|] == some;
  }

  method TakePage(page: Page, w: Walk, maximum: nat, k: nat, ghost items: seq<Item>)
    returns (r: Option<Walk>, ghost taken: seq<Item>)
    requires Tallies(w.tally, items, k) && |items| <= maximum && w.complete
    ensures r.Some? ==>
              && taken <= page.items && Tallies(r.value.tally, items + taken, k) && |items + taken| <= maximum
              && r.value.pending == w.pending + FolderPaths(taken) && r.value.pages == w.pages
              && (r.value.complete <==> taken == page.items)
              && (!r.value.complete ==> |items + taken| == maximum && |taken| < |page.items|)
    ensures r.None? ==> exists j :: 0 <= j < |page.items| && Clashes(items + page.items[..j], page.items[j])
  {
    hide Tallies, Take, Taken, FolderPaths, Files;
    var tally, pending := w.tally, w.pending;
    taken := [];
    assert items + taken == items && page.items[..0] == [];
    NoFolders();
    for j := 0 to |page.items|
      invariant taken == page.items[..j] && Tallies(tally, items + taken, k) && |items| + j <= maximum
      invariant pending == w.pending + FolderPaths(taken)
    {
      var item := page.items[j];
      TallySize(tally, items + taken, k);
      if tally.files + tally.folders >= maximum {
        return Some(Walk(tally, pending, w.pages, false)), taken;
      }
      if !Taken(tally, item) {
        NotTaken(tally, items + taken, k, item);
        return None, taken;
      }
      TakeTallies(tally, items + taken, k, item);
      FolderPathsAdd(taken, item);
      NonNegative(tally, item);
      tally := Take(tally, item, k);
      if item.isFolder {
        pending := pending + [item.path];
      }
      assert items + taken + [item] == items + (taken + [item]);
      taken := taken + [item];
    }
    return Some(Walk(tally, pending, w.pages, true)), taken;
  }

  lemma NoFolders()
    ensures FolderPaths([]) == []
  {}

  lemma NonNegative(t: Tally, item: Item)
    requires Taken(t, item)
    ensures item.size >= 0
  {}

  lemma TallySize(t: Tally, items: seq<Item>, k: nat)
    requires Tallies(t, items, k)
    ensures t.files + t.folders == |items|
  {
    hide Files, FolderPaths, Sorted;
    CountsAdd(items);
  }

  // ---- One folder ----

  ghost function Prepend(done: seq<Page>, rest: Option<seq<Page>>): Option<seq<Page>> {
    if rest.None? then None else Some(done + rest.value)
  }

  lemma Associative(a: seq<Item>, b: seq<Item>, c: seq<Item>)
    ensures a + (b + c) == (a + b) + c
  {}

  lemma FirstPage(a: seq<Page>, b: seq<Page>)
    requires a != []
    ensures (a + b)[0] == a[0] && (a + b)[1..] == a[1..] + b
  {}

  lemma {:induction false} ItemsOfJoin(a: seq<Page>, b: seq<Page>)
    ensures ItemsOf(a + b) == ItemsOf(a) + ItemsOf(b)
  {
    if a == [] {
      assert a + b == b;
    } else {
      ItemsOfJoin(a[1..], b);
      FirstPage(a, b);
      Associative(a[0].items, ItemsOf(a[1..]), ItemsOf(b));
    }
  }

  /** The folder's pages are those done and those still to come. */
  ghost predicate PagesLeft(store: Store, folder: string, done: seq<Page>, cursor: Option<string>, seen: set<string>) {
    Pages(store, folder, None, {}) == Prepend(done, Pages(store, folder, cursor, seen))
  }

  lemma OnePage(store: Store, folder: string, done: seq<Page>, cursor: Option<string>, seen: set<string>)
    requires PagesLeft(store, folder, done, cursor, seen) && (folder, cursor) in store
    ensures var page := store[(folder, cursor)];
      && (page.next.None? ==> Listable(store, folder) && PagesIn(store, folder) == done + [page])
      && (page.next.Some? && page.next.value in seen ==> !Listable(store, folder))
      && (page.next.Some? && page.next.value !in seen ==>
            && PagesLeft(store, folder, done + [page], page.next, seen + {page.next.value})
            && |Cursors(store) - (seen + {page.next.value})| < |Cursors(store) - seen|)
      && (Listable(store, folder) ==> ItemsOf(done) + page.items <= Listing(store, folder))
  {
    var page := store[(folder, cursor)];
    if page.next.Some? && page.next.value !in seen {
      CursorsShrink(store, (folder, cursor), seen);
      var rest := Pages(store, folder, page.next, seen + {page.next.value});
      if rest.Some? {
        assert done + ([page] + rest.value) == done + [page] + rest.value;
      }
    }
    if Listable(store, folder) {
      var left := Pages(store, folder, cursor, seen).value;
      assert left == [page] + left[1..];
      ItemsOfJoin(done, left);
    }
  }

  lemma PagesSoFar(done: seq<Page>, page: Page)
    ensures ItemsOf(done + [page]) == ItemsOf(done) + page.items
  {
    ItemsOfJoin(done, [page]);
    assert [page][1..] == [];
    assert page.items + [] == page.items;
  }

  /** Something in the folder's listing cannot be taken after what came before it. */
  ghost predicate FolderClashes(store: Store, folder: string, items: seq<Item>) {
    Listable(store, folder) ==>
      exists j :: 0 <= j < |Listing(store, folder)| && Clashes(items + Listing(store, folder)[..j], Listing(store, folder)[j])
  }

  /** The folder is listed in full, or the limit cuts it short. */
  ghost predicate ListsFolder(store: Store, folder: string, w: Walk, after: Walk, items: seq<Item>, taken: seq<Item>, maximum: nat) {
    if after.complete then
      && Listable(store, folder) && taken == Listing(store, folder) && (folder, None) in store
      && after.pages == w.pages + |PagesIn(store, folder)|
    else
      |items + taken| == maximum && (Listable(store, folder) ==> |taken| < |Listing(store, folder)| && taken <= Listing(store, folder))
  }

  method ListFolder(store: Store, folder: string, w: Walk, maximum: nat, k: nat, ghost items: seq<Item>)
    returns (r: Option<Walk>, ghost taken: seq<Item>)
    requires Tallies(w.tally, items, k) && |items| <= maximum && w.complete
    ensures r.Some? ==>
              && Tallies(r.value.tally, items + taken, k) && |items + taken| <= maximum
              && r.value.pending == w.pending + FolderPaths(taken)
              && ListsFolder(store, folder, w, r.value, items, taken, maximum)
    ensures r.None? ==> FolderClashes(store, folder, items)
  {
    hide Tallies, FolderPaths, Pages, ItemsOf, PagesLeft, Listing, PagesIn, Listable;
    var walk, cursor: Option<string>, seen := w, None, {};
    ghost var done: seq<Page> := [];
    taken := [];
    assert items + taken == items;
    NoFolders();
    NothingDone(store, folder);
    while true
      invariant PagesLeft(store, folder, done, cursor, seen) && taken == ItemsOf(done)
      invariant Tallies(walk.tally, items + taken, k) && |items + taken| <= maximum && walk.complete
      invariant walk.pending == w.pending + FolderPaths(taken) && walk.pages == w.pages + |done|
      invariant cursor.Some? ==> (folder, None) in store
      invariant cursor.None? ==> done == []
      decreases |Cursors(store) - seen|
    {
      if (folder, cursor) !in store {
        NoPage(store, folder, done, cursor, seen);
        return None, taken;
      }
      var page := store[(folder, cursor)];
      OnePage(store, folder, done, cursor, seen);
      var listed: Option<Walk>;
      ghost var more: seq<Item>;
      listed, more := TakePage(page, walk.(pages := walk.pages + 1), maximum, k, items + taken);
      if listed.None? {
        ClashInFolder(store, folder, items, taken, page.items);
        return None, taken;
      }
      walk := listed.value;
      FolderPathsJoin(taken, more);
      assert items + taken + more == items + (taken + more);
      if !walk.complete {
        CutShort(store, folder, taken, page.items, more);
        taken := taken + more;
        return Some(walk), taken;
      }
      PagesSoFar(done, page);
      taken, done := taken + more, done + [page];
      if page.next.None? {
        AllListed(store, folder, done);
        return Some(walk), taken;
      }
      if page.next.value in seen {
        Unlistable(store, folder, items);
        return None, taken;
      }
      cursor, seen := page.next, seen + {page.next.value};
    }
  }

  lemma NothingDone(store: Store, folder: string)
    ensures PagesLeft(store, folder, [], None, {}) && ItemsOf([]) == []
  {
    var all := Pages(store, folder, None, {});
    if all.Some? {
      assert [] + all.value == all.value;
    }
  }

  lemma NoPage(store: Store, folder: string, done: seq<Page>, cursor: Option<string>, seen: set<string>)
    requires PagesLeft(store, folder, done, cursor, seen) && (folder, cursor) !in store
    ensures FolderClashes(store, folder, [])
    ensures forall items :: FolderClashes(store, folder, items)
  {}

  lemma Unlistable(store: Store, folder: string, items: seq<Item>)
    requires !Listable(store, folder)
    ensures FolderClashes(store, folder, items)
  {}

  lemma AllListed(store: Store, folder: string, done: seq<Page>)
    requires Listable(store, folder) && PagesIn(store, folder) == done
    ensures ItemsOf(done) == Listing(store, folder)
  {}

  lemma ClashInFolder(store: Store, folder: string, items: seq<Item>, taken: seq<Item>, more: seq<Item>)
    requires Listable(store, folder) ==> taken + more <= Listing(store, folder)
    requires exists j :: 0 <= j < |more| && Clashes(items + taken + more[..j], more[j])
    ensures FolderClashes(store, folder, items)
  {
    hide Clashes, Pages, ItemsOf;
    if Listable(store, folder) {
      var all := Listing(store, folder);
      var j :| 0 <= j < |more| && Clashes(items + taken + more[..j], more[j]);
      var at := |taken| + j;
      assert all[at] == (taken + more)[at] == more[j];
      assert all[..at] == taken + more[..j];
      assert items + taken + more[..j] == items + all[..at];
    }
  }

  lemma CutShort(store: Store, folder: string, taken: seq<Item>, items: seq<Item>, more: seq<Item>)
    requires Listable(store, folder) ==> taken + items <= Listing(store, folder)
    requires more <= items && |more| < |items|
    ensures Listable(store, folder) ==> |taken + more| < |Listing(store, folder)| && taken + more <= Listing(store, folder)
  {
    hide Pages, ItemsOf;
  }

  lemma {:induction false} FolderPathsJoin(a: seq<Item>, b: seq<Item>)
    ensures FolderPaths(a + b) == FolderPaths(a) + FolderPaths(b)
  {
    if b == [] {
      assert a + b == a;
    } else {
      var n := |b| - 1;
      FolderPathsJoin(a, b[..n]);
      assert (a + b)[..|a + b| - 1] == a + b[..n];
    }
  }

  // ---- The whole tree ----

  ghost predicate AllListable(store: Store, order: seq<string>) {
    forall f | f in order :: Listable(store, f)
  }

  /** The items of some folders, one listing after the other. */
  ghost function AllItems(store: Store, order: seq<string>): seq<Item>
    requires AllListable(store, order)
  {
    if order == [] then []
    else
      var n := |order| - 1;
      AllItems(store, order[..n]) + Listing(store, order[n])
  }

  ghost function PageCount(store: Store, order: seq<string>): nat
    requires AllListable(store, order)
  {
    if order == [] then 0
    else
      var n := |order| - 1;
      PageCount(store, order[..n]) + |PagesIn(store, order[n])|
  }

  /** Every item the tree lists. */
  ghost function Tree(store: Store): set<Item> {
    set key, item | key in store && item in store[key].items && Listed(store, item) :: item
  }

  lemma {:induction false} AllItemsFrom(store: Store, order: seq<string>)
    requires AllListable(store, order)
    ensures forall item :: item in AllItems(store, order) <==> exists f :: f in order && item in Listing(store, f)
  {
    hide Listing, Listable;
    if order != [] {
      var n := |order| - 1;
      AllItemsFrom(store, order[..n]);
      assert order == order[..n] + [order[n]];
      forall item ensures item in AllItems(store, order) <==> exists f :: f in order && item in Listing(store, f) {
        if item in Listing(store, order[n]) {
          assert order[n] in order;
        }
        if exists f :: f in order[..n] && item in Listing(store, f) {
          var f :| f in order[..n] && item in Listing(store, f);
          assert f in order;
        }
      }
    }
  }

  /** Folders waiting and folders done are together the root and every folder seen, each once. */
  ghost predicate Queued(store: Store, order: seq<string>, pending: seq<string>, items: seq<Item>) {
    && order + pending == [""] + FolderPaths(items)
    && (forall i, j | 0 <= i < j < |order + pending| :: (order + pending)[i] != (order + pending)[j])
    && AllListable(store, order) && items == AllItems(store, order)
    && (forall f | f in order + pending :: InTree(store, f))
    && (forall f | f in order :: (f, None) in store)
  }

  lemma StartQueue(store: Store)
    ensures Queued(store, [], [""], [])
  {
    RootInTree(store);
    assert [] + [""] == [""] + [];
  }

  lemma {:induction false} FoldersDistinct(items: seq<Item>)
    requires DistinctPaths(items)
    ensures forall i, j | 0 <= i < j < |FolderPaths(items)| :: FolderPaths(items)[i] != FolderPaths(items)[j]
  {
    if items != [] {
      var n := |items| - 1;
      FoldersDistinct(items[..n]);
      FoldersObserved(items[..n]);
      forall p | p in FolderPaths(items[..n]) ensures p != items[n].path {
        var item :| item in items[..n] && item.isFolder && item.path == p;
        var i :| 0 <= i < n && items[..n][i] == item;
        assert items[i] == item;
      }
      var some, all := FolderPaths(items[..n]), FolderPaths(items);
      forall i, j | 0 <= i < j < |all| ensures all[i] != all[j] {
        assert all[i] == some[i];
        assert some[i] in some;
        if j < |some| {
          assert all[j] == some[j];
        }
      }
    }
  }

  /** Listing the folder at the head of the queue moves it to the done ones and queues its folders. */
  lemma QueueMoves(store: Store, order: seq<string>, pending: seq<string>, items: seq<Item>, taken: seq<Item>, t: Tally, k: nat)
    requires Queued(store, order, pending, items) && pending != [] && Listable(store, pending[0])
    requires taken == Listing(store, pending[0]) && (pending[0], None) in store && Tallies(t, items + taken, k)
    ensures Queued(store, order + [pending[0]], pending[1..] + FolderPaths(taken), items + taken)
  {
    hide Listing, Listable, InTree, Tallies, FolderPaths;
    var folder, order', pending', items' := pending[0], order + [pending[0]], pending[1..] + FolderPaths(taken), items + taken;
    QueueJoins(order, pending, items, taken);
    QueueDistinct(t, items', k);
    assert order'[..|order|] == order;
    assert folder in order + pending by {
      assert (order + pending)[|order|] == folder;
    }
    forall f | f in order' + pending' ensures InTree(store, f) {
      if f !in order + pending {
        assert order' + pending[1..] == order + pending;
        assert f in FolderPaths(taken);
        FoldersObserved(taken);
        SubfolderInTree(store, folder, f);
      }
    }
  }

  lemma QueueJoins(order: seq<string>, pending: seq<string>, items: seq<Item>, taken: seq<Item>)
    requires pending != [] && order + pending == [""] + FolderPaths(items)
    ensures (order + [pending[0]]) + (pending[1..] + FolderPaths(taken)) == [""] + FolderPaths(items + taken)
  {
    hide FolderPaths;
    FolderPathsJoin(items, taken);
    assert pending == [pending[0]] + pending[1..];
    assert (order + [pending[0]]) + (pending[1..] + FolderPaths(taken)) == (order + pending) + FolderPaths(taken);
  }

  lemma QueueDistinct(t: Tally, items: seq<Item>, k: nat)
    requires Tallies(t, items, k)
    ensures var all := [""] + FolderPaths(items); forall i, j | 0 <= i < j < |all| :: all[i] != all[j]
  {
    hide FolderPaths, Files, Bytes, IsLatest, Sorted;
    FoldersDistinct(items);
    var all, folders := [""] + FolderPaths(items), FolderPaths(items);
    forall i, j | 0 <= i < j < |all| ensures all[i] != all[j] {
      assert all[j] == folders[j - 1] && folders[j - 1] in folders;
      if i > 0 {
        assert all[i] == folders[i - 1];
      }
    }
  }

  lemma SubfolderInTree(store: Store, folder: string, path: string)
    requires InTree(store, folder) && Listable(store, folder)
    requires exists item :: item in Listing(store, folder) && item.isFolder && item.path == path
    ensures InTree(store, path)
  {
    assert Contains(store, folder, path);
    ChildInTree(store, folder, path);
  }

  /** When nothing waits any more, the folders done are exactly the folders of the tree. */
  lemma WalkedAll(store: Store, order: seq<string>, items: seq<Item>)
    requires Queued(store, order, [], items)
    ensures forall f :: f in order <==> InTree(store, f)
    ensures forall item :: item in items <==> Listed(store, item)
  {
    hide Pages, ItemsOf, FolderPaths;
    assert order + [] == order;
    assert "" in order;
    AllItemsFrom(store, order);
    forall f | InTree(store, f) ensures f in order {
      var chain :| Chain(store, chain) && chain[|chain| - 1] == f;
      ChainWalked(store, order, items, chain);
    }
  }

  lemma {:induction false} ChainWalked(store: Store, order: seq<string>, items: seq<Item>, chain: seq<string>)
    requires AllListable(store, order) && items == AllItems(store, order) && order == [""] + FolderPaths(items)
    requires Chain(store, chain)
    ensures chain[|chain| - 1] in order
  {
    hide Pages, ItemsOf, FolderPaths;
    var n := |chain| - 1;
    if n == 0 {
      assert order[0] == "";
    } else {
      assert Chain(store, chain[..n]);
      ChainWalked(store, order, items, chain[..n]);
      assert Contains(store, chain[n - 1], chain[n]);
      var item :| item in Listing(store, chain[n - 1]) && item.isFolder && item.path == chain[n];
      AllItemsFrom(store, order);
      assert item in items;
      FoldersObserved(items);
      var i :| 0 <= i < |FolderPaths(items)| && FolderPaths(items)[i] == chain[n];
      assert order[i + 1] == chain[n];
    }
  }

  /** In a well-formed tree nothing clashes. */
  lemma NothingClashes(store: Store, order: seq<string>, pending: seq<string>, items: seq<Item>)
    requires WellFormed(store) && Queued(store, order, pending, items) && pending != []
    ensures !FolderClashes(store, pending[0], items)
  {
    hide Pages, ItemsOf, FolderPaths, InTree;
    var folder := pending[0];
    assert (order + pending)[|order|] == folder && folder in order + pending;
    assert folder !in order by {
      forall i | 0 <= i < |order| ensures order[i] != folder {
        assert (order + pending)[i] == order[i];
      }
    }
    AllItemsFrom(store, order);
    var all := Listing(store, folder);
    forall j | 0 <= j < |all| ensures !Clashes(items + all[..j], all[j]) {
      forall other | other in items + all[..j] ensures other.path != all[j].path {
        if other in items {
          var f :| f in order && other in Listing(store, f);
          assert f in order + pending;
          var i :| 0 <= i < |Listing(store, f)| && Listing(store, f)[i] == other;
        } else {
          var i :| 0 <= i < j && all[..j][i] == other;
          assert all[i] == other;
        }
      }
    }
  }

  /** The limit cuts an inventory short only when the tree lists more. */
  lemma CutShortMeansMore(store: Store, order: seq<string>, pending: seq<string>, items: seq<Item>, taken: seq<Item>)
    requires WellFormed(store) && Queued(store, order, pending, items) && pending != []
    requires Listable(store, pending[0]) && taken <= Listing(store, pending[0]) && |taken| < |Listing(store, pending[0])|
    ensures exists item :: Listed(store, item) && item !in items + taken
    ensures forall item | item in items + taken :: Listed(store, item)
  {
    hide Pages, ItemsOf, FolderPaths, InTree, WellFormed;
    NothingClashes(store, order, pending, items);
    var folder := pending[0];
    assert (order + pending)[|order|] == folder && folder in order + pending;
    var all := Listing(store, folder);
    var next := all[|taken|];
    assert all[..|taken|] == taken;
    assert !Clashes(items + taken, next);
    assert next in all && Listed(store, next);
    AllItemsFrom(store, order);
    forall item | item in items + taken ensures Listed(store, item) {
      if item in items {
        var f :| f in order && item in Listing(store, f);
        assert f in order + pending;
      } else {
        assert item in all;
      }
    }
  }

  lemma {:induction false} ItemsInPages(pages: seq<Page>, item: Item)
    requires item in ItemsOf(pages)
    ensures exists page :: page in pages && item in page.items
  {
    if item !in pages[0].items {
      ItemsInPages(pages[1..], item);
      var page :| page in pages[1..] && item in page.items;
      assert page in pages;
    }
  }

  lemma {:induction false} PagesInStore(store: Store, folder: string, cursor: Option<string>, seen: set<string>)
    requires Pages(store, folder, cursor, seen).Some?
    ensures forall page | page in Pages(store, folder, cursor, seen).value :: exists key :: key in store && store[key] == page
    decreases |Cursors(store) - seen|
  {
    var page := store[(folder, cursor)];
    if page.next.Some? {
      CursorsShrink(store, (folder, cursor), seen);
      PagesInStore(store, folder, page.next, seen + {page.next.value});
    }
  }

  lemma TreeExact(store: Store)
    ensures forall item :: item in Tree(store) <==> Listed(store, item)
  {
    hide ItemsOf, Pages, InTree;
    forall item | Listed(store, item) ensures item in Tree(store) {
      var folder :| InTree(store, folder) && Listable(store, folder) && item in Listing(store, folder);
      ItemsInPages(PagesIn(store, folder), item);
      var page :| page in PagesIn(store, folder) && item in page.items;
      PagesInStore(store, folder, None, {});
      var key :| key in store && store[key] == page;
      assert item in store[key].items;
    }
  }

  lemma {:induction false} DistinctSize(items: seq<Item>)
    requires DistinctPaths(items)
    ensures |set item | item in items| == |items|
  {
    if items != [] {
      var n := |items| - 1;
      DistinctSize(items[..n]);
      assert items == items[..n] + [items[n]];
      assert (set item | item in items) == (set item | item in items[..n]) + {items[n]};
      assert items[n] !in items[..n] by {
        forall i | 0 <= i < n ensures items[..n][i] != items[n] {
          assert items[i].path != items[n].path;
        }
      }
    }
  }

  /** How many items the tree lists, against those taken. */
  lemma TreeSize(store: Store, items: seq<Item>, complete: bool)
    requires DistinctPaths(items) && forall item | item in items :: Listed(store, item)
    requires complete <==> forall item | Listed(store, item) :: item in items
    ensures complete ==> |Tree(store)| == |items|
    ensures !complete ==> |Tree(store)| > |items|
  {
    hide Listed;
    TreeExact(store);
    DistinctSize(items);
    var some := set item | item in items;
    assert some <= Tree(store);
    if complete {
      assert some == Tree(store);
    } else {
      var item :| Listed(store, item) && item !in items;
      assert item in Tree(store) - some;
      assert Tree(store) == some + (Tree(store) - some);
    }
  }

  /** What an inventory reports of the items it took. */
  ghost predicate Reports(inventory: Inventory, items: seq<Item>, k: nat) {
    && inventory.files == Files(items) && inventory.folders == |FolderPaths(items)| && inventory.bytes == Bytes(items)
    && IsLatest(items, inventory.latest) && inventory.samples == Smallest(Sorted(Paths(items)), k)
  }

  /** Takes the inventory. A well-formed tree always yields one; it is complete exactly when the tree lists no more than
      the limit, and then reports on every listed item, each counted once, having visited each folder once. One cut short
      counts exactly the limit. */
  method Inspect(store: Store, maximum: nat, k: nat)
    returns (result: Option<Inventory>, ghost order: seq<string>, ghost items: seq<Item>)
    requires maximum >= 1
    ensures WellFormed(store) ==> result.Some? && (result.value.complete <==> |Tree(store)| <= maximum)
    ensures result.Some? ==> Reports(result.value, items, k) && DistinctPaths(items) && |items| <= maximum
    ensures result.Some? && !result.value.complete ==> result.value.files + result.value.folders == maximum
    ensures result.Some? && result.value.complete ==>
              && (forall i, j | 0 <= i < j < |order| :: order[i] != order[j]) && (forall f :: f in order <==> InTree(store, f))
              && AllListable(store, order) && items == AllItems(store, order) && result.value.pages == PageCount(store, order)
              && (forall item :: item in items <==> Listed(store, item))
  {
    hide Tallies, Queued, WellFormed, Listed, Tree, InTree, Listing, PagesIn, Listable, FolderPaths, Files, Bytes, IsLatest,
      Smallest, Sorted, DistinctPaths, ListsFolder, FolderClashes;
    var walk := Walk(EMPTY, [""], 0, true);
    order, items := [], [];
    NothingTaken(k);
    StartQueue(store);
    while walk.pending != []
      invariant walk.complete && Queued(store, order, walk.pending, items) && Tallies(walk.tally, items, k)
      invariant |items| <= maximum && AllListable(store, order) && walk.pages == PageCount(store, order)
      decreases |store.Keys - Done(order)|
    {
      var folder := walk.pending[0];
      var listed: Option<Walk>;
      ghost var taken: seq<Item>;
      listed, taken := ListFolder(store, folder, walk.(pending := walk.pending[1..]), maximum, k, items);
      if listed.None? {
        if WellFormed(store) {
          NothingClashes(store, order, walk.pending, items);
        }
        return None, order, items;
      }
      if !listed.value.complete {
        CutInventory(store, order, walk, listed.value, items, taken, maximum, k);
        var t := listed.value.tally;
        return Some(Inventory(t.files, t.folders, t.bytes, listed.value.pages, t.latest, t.samples, false)), order, items + taken;
      }
      MoveOn(store, order, walk, listed.value, items, taken, maximum, k);
      order, items := order + [folder], items + taken;
      walk := listed.value;
    }
    FullInventory(store, order, walk, items, k);
    var t := walk.tally;
    return Some(Inventory(t.files, t.folders, t.bytes, walk.pages, t.latest, t.samples, true)), order, items;
  }

  ghost function Done(order: seq<string>): set<(string, Option<string>)> {
    set f | f in order :: (f, None)
  }

  lemma MoveOn(
    store: Store, order: seq<string>, walk: Walk, after: Walk, items: seq<Item>, taken: seq<Item>, maximum: nat, k: nat
  )
    requires Queued(store, order, walk.pending, items) && walk.pending != []
    requires AllListable(store, order) && walk.pages == PageCount(store, order)
    requires after.complete && Tallies(after.tally, items + taken, k)
    requires after.pending == walk.pending[1..] + FolderPaths(taken)
    requires ListsFolder(store, walk.pending[0], walk.(pending := walk.pending[1..]), after, items, taken, maximum)
    ensures var order' := order + [walk.pending[0]];
      && Queued(store, order', after.pending, items + taken)
      && AllListable(store, order') && after.pages == PageCount(store, order')
      && |store.Keys - Done(order')| < |store.Keys - Done(order)|
  {
    hide Tallies, Listing, Listable, PagesIn, InTree, FolderPaths;
    var folder := walk.pending[0];
    QueueMoves(store, order, walk.pending, items, taken, after.tally, k);
    assert (order + [folder])[..|order|] == order;
    assert folder !in order by {
      forall i | 0 <= i < |order| ensures order[i] != folder {
        assert (order + walk.pending)[i] == order[i] && (order + walk.pending)[|order|] == folder;
      }
    }
    DoneGrows(store, order, folder);
  }

  lemma DoneGrows(store: Store, order: seq<string>, folder: string)
    requires folder !in order && (folder, None) in store
    ensures |store.Keys - Done(order + [folder])| < |store.Keys - Done(order)|
  {
    assert Done(order + [folder]) == Done(order) + {(folder, None)};
    assert (folder, None) !in Done(order);
    assert store.Keys - Done(order) == (store.Keys - Done(order + [folder])) + {(folder, None)};
  }

  lemma CutInventory(
    store: Store, order: seq<string>, walk: Walk, after: Walk, items: seq<Item>, taken: seq<Item>, maximum: nat, k: nat
  )
    requires Queued(store, order, walk.pending, items) && walk.pending != []
    requires !after.complete && Tallies(after.tally, items + taken, k)
    requires ListsFolder(store, walk.pending[0], walk.(pending := walk.pending[1..]), after, items, taken, maximum)
    ensures var t := after.tally;
      && Reports(Inventory(t.files, t.folders, t.bytes, after.pages, t.latest, t.samples, false), items + taken, k)
      && DistinctPaths(items + taken) && |items + taken| == maximum && t.files + t.folders == maximum
    ensures WellFormed(store) ==> |Tree(store)| > maximum
  {
    hide Queued, Listed, Tree, Listing, FolderPaths, Files, Bytes, IsLatest, Sorted, InTree, WellFormed, Listable;
    TallySize(after.tally, items + taken, k);
    if WellFormed(store) {
      HeadListable(store, order, walk.pending, items);
      CutShortMeansMore(store, order, walk.pending, items, taken);
      TreeSize(store, items + taken, false);
    }
  }

  lemma HeadListable(store: Store, order: seq<string>, pending: seq<string>, items: seq<Item>)
    requires WellFormed(store) && Queued(store, order, pending, items) && pending != []
    ensures Listable(store, pending[0])
  {
    hide Listing, InTree, Listable, FolderPaths;
    assert (order + pending)[|order|] == pending[0] && pending[0] in order + pending;
  }

  lemma FullInventory(store: Store, order: seq<string>, walk: Walk, items: seq<Item>, k: nat)
    requires Queued(store, order, [], items) && Tallies(walk.tally, items, k)
    ensures var t := walk.tally;
      Reports(Inventory(t.files, t.folders, t.bytes, walk.pages, t.latest, t.samples, true), items, k) && DistinctPaths(items)
    ensures (forall i, j | 0 <= i < j < |order| :: order[i] != order[j]) && (forall f :: f in order <==> InTree(store, f))
    ensures AllListable(store, order) && items == AllItems(store, order)
    ensures (forall item :: item in items <==> Listed(store, item)) && |Tree(store)| == |items|
  {
    hide Listed, Tree, Listing, FolderPaths, Files, Bytes, IsLatest, Sorted, InTree, Listable;
    WalkedAll(store, order, items);
    TreeSize(store, items, true);
    assert order + [] == order;
  }
}
