/** JSON values, and the deep merge that folds package settings together. */
module Json {

  datatype Json =
    | Null
    | Bool(b: bool)
    | Num(n: int)
    | Str(s: string)
    | Arr(items: seq<Json>)
    | Obj(fields: Fields)

  type Fields = map<string, Json>

  /** Merges one settings object over another: objects merge key by key, anything else replaces. */
  function Merge(base: Fields, overlay: Fields): (merged: Fields)
    decreases Obj(overlay)
  {
    map k | k in base.Keys + overlay.Keys ::
      if k !in overlay then base[k]
      else if k in base && base[k].Obj? && overlay[k].Obj? then Obj(Merge(base[k].fields, overlay[k].fields))
      else overlay[k]
  }

  /** What an object holds at a key path: nothing, a nested object, or a leaf. */
  datatype Slot = Absent | Object | Leaf(value: Json)

  function At(o: Fields, path: seq<string>): Slot
    requires path != []
    decreases |path|
  {
    if path[0] !in o then Absent
    else if |path| > 1 then (if o[path[0]].Obj? then At(o[path[0]].fields, path[1..]) else Absent)
    else if o[path[0]].Obj? then Object
    else Leaf(o[path[0]])
  }

  /** An object touches a path when it defines it, or puts a leaf on the way to it. */
  ghost predicate Touches(o: Fields, path: seq<string>)
    requires path != []
  {
    || At(o, path) != Absent
    || exists n :: 0 < n < |path| && At(o, path[..n]).Leaf?
  }

  lemma TouchesByHead(o: Fields, path: seq<string>)
    requires path != []
    ensures Touches(o, path) <==>
            path[0] in o && (|path| == 1 || !o[path[0]].Obj? || Touches(o[path[0]].fields, path[1..]))
  {
    if |path| > 1 && path[0] in o {
      if o[path[0]].Obj? {
        var inner, rest := o[path[0]].fields, path[1..];
        forall n | 0 < n < |rest| ensures At(o, path[..n + 1]) == At(inner, rest[..n]) {
          assert path[..n + 1][1..] == rest[..n];
        }
        if At(o, path) == Absent && Touches(o, path) {
          var n :| 0 < n < |path| && At(o, path[..n]).Leaf?;
          if n > 1 {
            assert At(inner, rest[..n - 1]).Leaf?;
          }
        }
        if At(inner, rest) == Absent && Touches(inner, rest) {
          var n :| 0 < n < |rest| && At(inner, rest[..n]).Leaf?;
          assert At(o, path[..n + 1]).Leaf?;
        }
      } else {
        assert At(o, path[..1]).Leaf?;
      }
    }
  }

  /** The merge at every path: the overlay decides wherever it touches the path, the base elsewhere. */
  lemma {:induction false} MergeAt(base: Fields, overlay: Fields, path: seq<string>)
    requires path != []
    ensures At(Merge(base, overlay), path) == if Touches(overlay, path) then At(overlay, path) else At(base, path)
    decreases |path|
  {
    TouchesByHead(overlay, path);
    var k := path[0];
    if k in base && k in overlay && base[k].Obj? && overlay[k].Obj? && |path| > 1 {
      MergeAt(base[k].fields, overlay[k].fields, path[1..]);
    }
  }

  /** The settings after merging a list of objects over a base, in order. */
  function MergeAll(base: Fields, overlays: seq<Fields>): Fields {
    if overlays == [] then base
    else Merge(MergeAll(base, overlays[..|overlays| - 1]), overlays[|overlays| - 1])
  }

  /** The object, among those merged, that decides a path: the last one to touch it. */
  ghost predicate LastToTouch(overlays: seq<Fields>, path: seq<string>, i: nat)
    requires path != []
  {
    i < |overlays| && Touches(overlays[i], path) && forall j | i < j < |overlays| :: !Touches(overlays[j], path)
  }

  lemma {:induction false} MergeAllAt(base: Fields, overlays: seq<Fields>, path: seq<string>)
    requires path != []
    ensures forall i: nat | LastToTouch(overlays, path, i) :: At(MergeAll(base, overlays), path) == At(overlays[i], path)
    ensures (forall i | 0 <= i < |overlays| :: !Touches(overlays[i], path)) ==>
              At(MergeAll(base, overlays), path) == At(base, path)
    decreases |overlays|
  {
    hide At, Touches, Merge;
    if overlays != [] {
      var rest, last := overlays[..|overlays| - 1], overlays[|overlays| - 1];
      MergeAllAt(base, rest, path);
      MergeAt(MergeAll(base, rest), last, path);
      forall i: nat | LastToTouch(overlays, path, i)
        ensures At(MergeAll(base, overlays), path) == At(overlays[i], path)
      {
        if i < |rest| {
          assert LastToTouch(rest, path, i);
        }
      }
    }
  }

  /** Slots determine an object, so the two lemmas above leave nothing about a merge open. */
  lemma {:induction false} SlotsDetermine(a: Fields, b: Fields)
    requires forall path: seq<string> | path != [] :: At(a, path) == At(b, path)
    ensures a == b
    decreases Obj(a)
  {
    forall k ensures k in a <==> k in b {
      assert At(a, [k]) == At(b, [k]);
    }
    forall k | k in a ensures a[k] == b[k] {
      assert At(a, [k]) == At(b, [k]);
      if a[k].Obj? {
        forall path: seq<string> | path != [] ensures At(a[k].fields, path) == At(b[k].fields, path) {
          assert ([k] + path)[1..] == path;
          assert At(a, [k] + path) == At(b, [k] + path);
        }
        SlotsDetermine(a[k].fields, b[k].fields);
      }
    }
  }
}
