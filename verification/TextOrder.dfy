/** The order of texts by their characters, as database keys, paths and references are sorted. */
module TextOrder {
  import opened Wrappers

  predicate TextBefore(a: string, b: string) {
    if a == "" then true
    else if b == "" then false
    else a[0] < b[0] || (a[0] == b[0] && TextBefore(a[1..], b[1..]))
  }

  lemma {:induction false} TextOrderTotal(a: string, b: string)
    ensures TextBefore(a, b) || TextBefore(b, a)
    ensures TextBefore(a, b) && TextBefore(b, a) ==> a == b
  {
    if a != "" && b != "" {
      TextOrderTotal(a[1..], b[1..]);
      assert a == [a[0]] + a[1..] && b == [b[0]] + b[1..];
    }
  }

  lemma {:induction false} TextOrderTransitive(a: string, b: string, c: string)
    requires TextBefore(a, b) && TextBefore(b, c)
    ensures TextBefore(a, c)
  {
    if a != "" && a[0] == b[0] == c[0] {
      TextOrderTransitive(a[1..], b[1..], c[1..]);
    }
  }

  predicate LeastText(s: set<string>, m: string) {
    m in s && forall x | x in s :: TextBefore(m, x)
  }

  lemma {:induction false} LeastTextExists(s: set<string>)
    requires s != {}
    ensures exists m :: m in s && LeastText(s, m)
  {
    var x :| x in s;
    TextOrderTotal(x, x);
    if s == {x} {
      assert LeastText(s, x);
    } else {
      var rest := s - {x};
      assert s == rest + {x};
      LeastTextExists(rest);
      var m :| m in rest && LeastText(rest, m);
      TextOrderTotal(x, m);
      if TextBefore(x, m) {
        forall y | y in s ensures TextBefore(x, y) {
          if y != x {
            TextOrderTransitive(x, m, y);
          }
        }
        assert LeastText(s, x);
      } else {
        assert LeastText(s, m);
      }
    }
  }

  function Least(s: set<string>): (m: string)
    requires s != {}
    ensures LeastText(s, m)
  {
    LeastTextExists(s);
    assert forall a, b | LeastText(s, a) && LeastText(s, b) :: a == b by {
      forall a, b | LeastText(s, a) && LeastText(s, b) ensures a == b {
        TextOrderTotal(a, b);
      }
    }
    var m :| m in s && LeastText(s, m);
    m
  }

  /** A set of texts in order. */
  function Sorted(s: set<string>): seq<string> {
    if s == {} then [] else [Least(s)] + Sorted(s - {Least(s)})
  }

  ghost predicate Ascending(s: seq<string>) {
    forall i, j | 0 <= i < j < |s| :: TextBefore(s[i], s[j]) && s[i] != s[j]
  }

  lemma {:induction false} SortedExact(s: set<string>)
    ensures forall x :: x in Sorted(s) <==> x in s
    ensures Ascending(Sorted(s))
  {
    hide TextBefore;
    if s != {} {
      var m, rest := Least(s), Sorted(s - {Least(s)});
      SortedExact(s - {m});
      assert Sorted(s) == [m] + rest;
      forall x | x in rest ensures TextBefore(m, x) && x != m {
        assert x in s;
      }
    }
  }

  lemma {:induction false} SortedSize(s: set<string>)
    ensures |Sorted(s)| == |s|
  {
    if s != {} {
      SortedSize(s - {Least(s)});
      assert s == (s - {Least(s)}) + {Least(s)};
    }
  }

  lemma FirstIsLeast(s: seq<string>)
    requires Ascending(s) && s != []
    ensures Elements(s) != {} && Least(Elements(s)) == s[0]
    ensures Elements(s[1..]) == Elements(s) - {s[0]} && Ascending(s[1..])
  {
    hide TextBefore;
    assert s[0] in Elements(s);
    var m := Least(Elements(s));
    var k :| 0 <= k < |s| && s[k] == m;
    TextOrderTotal(s[0], m);
    assert s == [s[0]] + s[1..];
    forall i | 0 <= i < |s[1..]| ensures s[1..][i] != s[0] {
      assert s[1..][i] == s[i + 1];
    }
  }

  /** A sequence in order, without repeats, is the sorted form of its elements. */
  lemma {:induction false} SortedUnique(s: seq<string>)
    requires Ascending(s)
    ensures s == Sorted(Elements(s))
  {
    hide TextBefore, Ascending;
    if s != [] {
      FirstIsLeast(s);
      SortedUnique(s[1..]);
      assert s == [s[0]] + s[1..];
    }
  }

  /** How many texts of an ascending sequence come before a text that is not among them. */
  function Position(s: seq<string>, x: string): (p: nat)
    ensures p <= |s|
  {
    if s == [] || !TextBefore(s[0], x) then 0 else 1 + Position(s[1..], x)
  }

  lemma {:induction false} PositionExact(s: seq<string>, x: string)
    requires Ascending(s) && x !in s
    ensures forall i | 0 <= i < Position(s, x) :: TextBefore(s[i], x)
    ensures forall i | Position(s, x) <= i < |s| :: TextBefore(x, s[i])
  {
    hide TextBefore;
    if s != [] {
      TextOrderTotal(s[0], x);
      if TextBefore(s[0], x) {
        assert Ascending(s[1..]);
        PositionExact(s[1..], x);
        forall i | 0 <= i < Position(s, x) ensures TextBefore(s[i], x) {
          if i > 0 {
            assert s[i] == s[1..][i - 1];
          }
        }
        forall i | Position(s, x) <= i < |s| ensures TextBefore(x, s[i]) {
          assert s[i] == s[1..][i - 1];
        }
      } else {
        forall i | 0 <= i < |s| ensures TextBefore(x, s[i]) {
          if i > 0 {
            TextOrderTransitive(x, s[0], s[i]);
          }
        }
      }
    }
  }

  lemma AscendingInsert(all: seq<string>, x: string, p: nat)
    requires Ascending(all) && p <= |all| && x !in all
    requires forall i | 0 <= i < p :: TextBefore(all[i], x)
    requires forall i | p <= i < |all| :: TextBefore(x, all[i])
    ensures Ascending(all[..p] + [x] + all[p..])
  {
    hide TextBefore;
    var more := all[..p] + [x] + all[p..];
    forall i, j | 0 <= i < j < |more| ensures TextBefore(more[i], more[j]) && more[i] != more[j] {
      var a, b := if i < p then i else i - 1, if j < p then j else j - 1;
      assert i != p ==> more[i] == all[a];
      assert j != p ==> more[j] == all[b];
    }
  }

  lemma InsertedElements(all: seq<string>, x: string, p: nat)
    requires p <= |all|
    ensures Elements(all[..p] + [x] + all[p..]) == Elements(all) + {x}
  {
    assert all == all[..p] + all[p..];
  }

  /** Inserting a new text at its position keeps a sequence the sorted form of its elements. */
  lemma InsertSorted(s: set<string>, x: string)
    requires x !in s
    ensures var all, p := Sorted(s), Position(Sorted(s), x);
      Sorted(s + {x}) == all[..p] + [x] + all[p..]
  {
    hide TextBefore, Sorted, Position, Ascending;
    SortedExact(s);
    var all, p := Sorted(s), Position(Sorted(s), x);
    PositionExact(all, x);
    AscendingInsert(all, x, p);
    SortedUnique(all[..p] + [x] + all[p..]);
    InsertedElements(all, x, p);
    assert Elements(all) == s;
  }
}
