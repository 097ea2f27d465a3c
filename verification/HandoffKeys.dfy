/** The key a transition offers its handoff under: when two transitions share one, and why no handoff is shared. */
module HandoffKeys {
  import opened Wrappers
  import opened Json
  import opened FlowDefinition
  import opened FlowTables
  import opened FlowInvariants
  import opened FlowPreservation
  import opened FlowSteps
  import opened FlowRuns
  import opened FlowJournal
  import opened FlowTheorems
  import opened FlowSafety

  // ---- Digits ----

  predicate IsDigit(c: char) {
    '0' <= c <= '9'
  }

  lemma {:induction false} DigitsOnly(n: nat)
    ensures Digits(n) != [] && forall c | c in Digits(n) :: IsDigit(c)
  {
    if n >= 10 {
      DigitsOnly(n / 10);
    }
  }

  lemma {:induction false} DigitsInjective(m: nat, n: nat)
    requires Digits(m) == Digits(n)
    ensures m == n
  {
    var a, b := Digits(m), Digits(n);
    if m >= 10 {
      DigitsOnly(m / 10);
    }
    if n >= 10 {
      DigitsOnly(n / 10);
    }
    assert a[|a| - 1] == b[|b| - 1];
    assert a[..|a| - 1] == b[..|b| - 1];
    if m >= 10 && n >= 10 {
      assert a[..|a| - 1] == Digits(m / 10) && b[..|b| - 1] == Digits(n / 10);
      DigitsInjective(m / 10, n / 10);
    }
  }

  /** The first dash after a number is the one that ends it. */
  lemma FirstDash(n: nat, x: string)
    ensures var s := Digits(n) + "-" + x;
      s[|Digits(n)|] == '-' && forall i | 0 <= i < |Digits(n)| :: s[i] != '-'
  {
    DigitsOnly(n);
    forall i | 0 <= i < |Digits(n)| ensures (Digits(n) + "-" + x)[i] != '-' {
      assert Digits(n)[i] in Digits(n);
    }
  }

  /** A number and what follows its dash can be read back. */
  lemma NumberReadsBack(m: nat, x: string, n: nat, y: string)
    requires Digits(m) + "-" + x == Digits(n) + "-" + y
    ensures m == n && x == y
  {
    var a, b := Digits(m), Digits(n);
    var left, right := a + "-" + x, b + "-" + y;
    FirstDash(m, x);
    FirstDash(n, y);
    assert |a| == |b|;
    assert a == left[..|a|] == right[..|b|] == b;
    assert x == left[|a| + 1..] == right[|b| + 1..] == y;
    DigitsInjective(m, n);
  }

  // ---- Keys ----

  /** Within one work item, the key tells the version and the route. */
  lemma KeyReadsBack(work: Id, expected: nat, route: Id, expected': nat, route': Id)
    requires TransitionKey(work, expected, route) == TransitionKey(work, expected', route')
    ensures expected == expected' && route == route'
  {
    var prefix := "flow-" + work + "-";
    var x, y := Digits(expected) + "-" + route, Digits(expected') + "-" + route';
    assert TransitionKey(work, expected, route) == prefix + x;
    assert TransitionKey(work, expected', route') == prefix + y;
    assert x == (prefix + x)[|prefix|..] && y == (prefix + y)[|prefix|..];
    NumberReadsBack(expected, route, expected', route');
  }

  /** So does the key that a consult or an inform is queued under tell its kind, version and identifier. */
  lemma DispatchKeyReadsBack(kind: Kind, work: Id, version: nat, id: Id, kind': Kind, version': nat, id': Id)
    requires DispatchKey(kind, work, version, id) == DispatchKey(kind', work, version', id')
    ensures kind == kind' && version == version' && id == id'
  {
    hide DispatchKey, Digits;
    KindReadsBack(kind, work, version, id);
    KindReadsBack(kind', work, version', id');
    var prefix := "flow-" + KindName(kind) + "-" + work + "-";
    var x, y := Digits(version) + "-" + id, Digits(version') + "-" + id';
    DispatchKeyParts(kind, work, version, id);
    DispatchKeyParts(kind', work, version', id');
    assert x == (prefix + x)[|prefix|..] && y == (prefix + y)[|prefix|..];
    NumberReadsBack(version, id, version', id');
  }

  lemma DispatchKeyParts(kind: Kind, work: Id, version: nat, id: Id)
    ensures DispatchKey(kind, work, version, id) == ("flow-" + KindName(kind) + "-" + work + "-") + (Digits(version) + "-" + id)
  {
    hide Digits, KindName;
  }

  lemma KindReadsBack(kind: Kind, work: Id, version: nat, id: Id)
    ensures |DispatchKey(kind, work, version, id)| > 5
    ensures DispatchKey(kind, work, version, id)[5] == match kind case Artifact => 'a' case Consult => 'c' case Gate => 'g' case Inform => 'i'
  {
    hide Digits, KindName;
    KindLetter(kind);
    var rest := "-" + work + "-" + Digits(version) + "-" + id;
    assert DispatchKey(kind, work, version, id) == "flow-" + (KindName(kind) + rest);
  }

  lemma KindLetter(kind: Kind)
    ensures KindName(kind) != ""
    ensures KindName(kind)[0] == match kind case Artifact => 'a' case Consult => 'c' case Gate => 'g' case Inform => 'i'
  {}

  /** Across work items keys do collide: exactly when the longer work id carries on with the version and the start
      of the route of the shorter one. */
  ghost predicate Absorbs(work: Id, expected: nat, route: Id, work': Id, expected': nat, route': Id, middle: string) {
    work' == work + "-" + Digits(expected) + middle && "-" + route == middle + "-" + Digits(expected') + "-" + route'
  }

  lemma AbsorbedKeysCollide(work: Id, expected: nat, route: Id, work': Id, expected': nat, route': Id, middle: string)
    requires Absorbs(work, expected, route, work', expected', route', middle)
    ensures TransitionKey(work, expected, route) == TransitionKey(work', expected', route')
  {
    var head := "flow-" + work + "-" + Digits(expected);
    assert TransitionKey(work, expected, route) == head + ("-" + route);
    assert TransitionKey(work', expected', route') == head + (middle + "-" + Digits(expected') + "-" + route');
  }

  lemma LongerCarriesOn(work: Id, x: string, work': Id, y: string) returns (rest: string)
    requires |work| < |work'| && work + "-" + x == work' + "-" + y
    ensures work' == work + "-" + rest && x == rest + "-" + y
  {
    var n, left, right := |work|, work + "-" + x, work' + "-" + y;
    assert work == left[..n] == right[..n] == work'[..n];
    assert work'[n] == right[n] == left[n] == '-';
    rest := work'[n + 1..];
    assert x == left[n + 1..] == right[n + 1..] == rest + "-" + y;
  }

  lemma NumberCarriesOn(n: nat, x: string, rest: string, y: string) returns (middle: string)
    requires Digits(n) + "-" + x == rest + "-" + y
    ensures rest == Digits(n) + middle && "-" + x == middle + "-" + y
  {
    var d, left, right := |Digits(n)|, Digits(n) + "-" + x, rest + "-" + y;
    FirstDash(n, x);
    assert right[|rest|] == '-';
    assert d <= |rest|;
    middle := rest[d..];
    assert Digits(n) == left[..d] == right[..d] == rest[..d];
    assert "-" + x == left[d..] == right[d..] == middle + "-" + y;
  }

  lemma CollidingKeysAbsorb(work: Id, expected: nat, route: Id, work': Id, expected': nat, route': Id) returns (middle: string)
    requires |work| < |work'| && TransitionKey(work, expected, route) == TransitionKey(work', expected', route')
    ensures Absorbs(work, expected, route, work', expected', route', middle)
  {
    hide Digits;
    var x, y := Digits(expected) + "-" + route, Digits(expected') + "-" + route';
    KeyParts(work, expected, route);
    KeyParts(work', expected', route');
    var rest := LongerCarriesOn(work, x, work', y);
    middle := NumberCarriesOn(expected, route, rest, y);
    assert work + "-" + (Digits(expected) + middle) == work + "-" + Digits(expected) + middle;
    assert middle + "-" + (Digits(expected') + "-" + route') == middle + "-" + Digits(expected') + "-" + route';
  }

  lemma EqualLengths(work: Id, expected: nat, route: Id, work': Id, expected': nat, route': Id)
    requires |work| == |work'| && TransitionKey(work, expected, route) == TransitionKey(work', expected', route')
    ensures work == work'
  {
    hide Digits;
    KeyParts(work, expected, route);
    KeyParts(work', expected', route');
    var key := TransitionKey(work, expected, route)[5..];
    assert work == key[..|work|] == work';
  }

  lemma KeyParts(work: Id, expected: nat, route: Id)
    ensures TransitionKey(work, expected, route)[5..] == work + "-" + (Digits(expected) + "-" + route)
  {
    hide Digits;
    assert TransitionKey(work, expected, route) == "flow-" + (work + "-" + (Digits(expected) + "-" + route));
  }

  /** Two different work items' keys collide iff one absorbs the other; then the routes differ. */
  lemma KeysCollideExactly(work: Id, expected: nat, route: Id, work': Id, expected': nat, route': Id)
    requires work != work'
    ensures TransitionKey(work, expected, route) == TransitionKey(work', expected', route') <==>
            exists middle :: Absorbs(work, expected, route, work', expected', route', middle)
                             || Absorbs(work', expected', route', work, expected, route, middle)
    ensures TransitionKey(work, expected, route) == TransitionKey(work', expected', route') ==> route != route'
  {
    if TransitionKey(work, expected, route) == TransitionKey(work', expected', route') {
      if |work| < |work'| {
        var middle := CollidingKeysAbsorb(work, expected, route, work', expected', route');
      } else if |work'| < |work| {
        var middle := CollidingKeysAbsorb(work', expected', route', work, expected, route);
      } else {
        EqualLengths(work, expected, route, work', expected', route');
      }
    }
    forall middle | Absorbs(work, expected, route, work', expected', route', middle)
                    || Absorbs(work', expected', route', work, expected, route, middle)
      ensures TransitionKey(work, expected, route) == TransitionKey(work', expected', route') && route != route'
    {
      if Absorbs(work, expected, route, work', expected', route', middle) {
        AbsorbedKeysCollide(work, expected, route, work', expected', route', middle);
        assert |route| > |route'|;
      } else {
        AbsorbedKeysCollide(work', expected', route', work, expected, route, middle);
        assert |route'| > |route|;
      }
    }
  }

  /** Such a pair: the second work id starts with the first one's id and version. */
  lemma KeysDoCollide()
    ensures TransitionKey("a", 1, "b-2-c") == TransitionKey("a-1-b", 2, "c")
  {
    assert Absorbs("a", 1, "b-2-c", "a-1-b", 2, "c", "-b");
    AbsorbedKeysCollide("a", 1, "b-2-c", "a-1-b", 2, "c", "-b");
  }

  // ---- No handoff is shared ----

  lemma PayloadTellsRoute(target: Id, route: Id, target': Id, route': Id)
    requires TransitionPayload(target, route) == TransitionPayload(target', route')
    ensures route == route'
  {
    assert TransitionPayload(target, route).fields["flow"].fields["route_id"] == Str(route);
    assert TransitionPayload(target', route').fields["flow"].fields["route_id"] == Str(route');
  }

  lemma RowPayload(s: System, row: JournalRow)
    requires Inv(s) && row in s.journal && row.action == Prepare
    ensures row.handoff.Some? && row.route.Some? && row.handoff.value in s.handoffs && row.sequence >= 1
    ensures row.handoff.value == TransitionKey(row.work, row.sequence - 1, row.route.value)
    ensures s.handoffs[row.handoff.value].fingerprint.payload == TransitionPayload(row.to, row.route.value)
  {
    hide Inv, RunsOk, TransitionKey, TransitionPayload;
    JournalOf(s);
    RowOf(s.runs, s.journal, row);
    assert RowHandoffOk(s.runs, s.handoffs, row);
  }

  /** No two transitions ever share a handoff, of one work item or of two: although keys of different work items can
      collide, the second offer under such a key meets another fingerprint and is refused. */
  lemma HandoffsAreNeverShared(trace: seq<System>, steps: seq<Step>, n: nat, a: JournalRow, b: JournalRow)
    requires IsRun(trace, steps) && n < |trace| && a in trace[n].journal && b in trace[n].journal
    requires a.action == Prepare && b.action == Prepare && a.handoff == b.handoff
    ensures a == b
  {
    hide IsRun, Inv, TransitionKey, TransitionPayload, RunsOk, RowHandoffsOk;
    AlwaysInv(trace, steps, n);
    RowPayload(trace[n], a);
    RowPayload(trace[n], b);
    PayloadTellsRoute(a.to, a.route.value, b.to, b.route.value);
    if a.work != b.work {
      KeysCollideExactly(a.work, a.sequence - 1, a.route.value, b.work, b.sequence - 1, b.route.value);
    } else {
      KeyReadsBack(a.work, a.sequence - 1, a.route.value, b.sequence - 1, b.route.value);
      RunsOf(trace[n]);
      SameRow(trace[n].runs, trace[n].journal, a, b);
    }
  }
}
