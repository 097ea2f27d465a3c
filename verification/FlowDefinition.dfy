/** Flow graphs: their validation, and the choice of a route out of a state. */
module FlowDefinition {
  import opened Wrappers
  import opened Json

  type Id = string

  /** A condition names one field and a non-empty list of the strings it may hold. */
  datatype ConditionData = Condition(field: Id, values: seq<string>) {
    predicate Matches(fields: Fields) {
      field in fields && fields[field].Str? && fields[field].s in values
    }
  }

  type Condition = c: ConditionData | c.values != [] witness ConditionData.Condition("field", ["value"])

  /** An absent condition always applies. */
  predicate Applies(condition: Option<Condition>, fields: Fields) {
    condition.None? || condition.value.Matches(fields)
  }

  datatype Kind = Artifact | Consult | Gate | Inform

  datatype FlowAction = FlowAction(actionId: Id, kind: Kind, roleId: Id, payload: Fields, when: Option<Condition>)

  datatype FlowRoute = FlowRoute(routeId: Id, outcome: Id, targetState: Id, targetRole: Id, when: Option<Condition>) {
    predicate Matches(requested: Id, fields: Fields) {
      outcome == requested && Applies(when, fields)
    }
  }

  datatype FlowState = FlowState(
    stateId: Id,
    ownerRole: Id,
    artifact: string,
    consults: seq<FlowAction>,
    gates: seq<FlowAction>,
    informs: seq<FlowAction>,
    routes: seq<FlowRoute>,
    terminal: bool
  ) {
    function Actions(): seq<FlowAction> {
      consults + gates + informs
    }

    /** What must be discharged before the state may be left: its artifact, then every action that applies. */
    function Obligations(fields: Fields): seq<FlowAction> {
      [FlowAction("artifact", Artifact, ownerRole, map["path" := Str(artifact)], None)] + Applicable(Actions(), fields)
    }

    function SelectRoute(outcome: Id, fields: Fields): Result<FlowRoute, FlowError> {
      var matches := Matching(routes, outcome, fields);
      if |matches| != 1 then Failure(NoSingleRoute(stateId, outcome)) else Success(matches[0])
    }
  }

  function Applicable(actions: seq<FlowAction>, fields: Fields): seq<FlowAction> {
    if actions == [] then []
    else (if Applies(actions[0].when, fields) then [actions[0]] else []) + Applicable(actions[1..], fields)
  }

  function Matching(routes: seq<FlowRoute>, outcome: Id, fields: Fields): seq<FlowRoute> {
    if routes == [] then []
    else (if routes[0].Matches(outcome, fields) then [routes[0]] else []) + Matching(routes[1..], outcome, fields)
  }

  datatype FlowError =
    | UnknownEntry
    | TerminalMismatch
    | TerminalHasRoutes(state: Id)
    | DeadEnd(state: Id)
    | DuplicateIds(state: Id)
    | UnknownTarget(route: Id)
    | TargetOwnerDisagrees(route: Id)
    | OverlappingRoutes(left: Id, right: Id)
    | UnreachableStates
    | NoSingleRoute(state: Id, outcome: Id)

  datatype Flow = Flow(
    flowId: Id,
    leaderRole: Id,
    entryState: Id,
    terminalStates: seq<Id>,
    states: map<Id, FlowState>,
    digest: Id
  )

  // ---- What an accepted flow is ----

  /** Some outcome and some fields would match two of the state's routes. */
  ghost predicate Ambiguous(state: FlowState) {
    exists i, j, outcome, fields :: 0 <= i < j < |state.routes| && BothMatch(state.routes[i], state.routes[j], outcome, fields)
  }

  ghost predicate BothMatch(left: FlowRoute, right: FlowRoute, outcome: Id, fields: Fields) {
    left.Matches(outcome, fields) && right.Matches(outcome, fields)
  }

  function Identifiers(state: FlowState): seq<Id> {
    ["artifact"]
    + seq(|state.Actions()|, i requires 0 <= i < |state.Actions()| => state.Actions()[i].actionId)
    + seq(|state.routes|, i requires 0 <= i < |state.routes| => state.routes[i].routeId)
  }

  predicate Distinct<T(==)>(s: seq<T>) {
    forall i, j | 0 <= i < j < |s| :: s[i] != s[j]
  }

  ghost predicate RouteLands(states: map<Id, FlowState>, route: FlowRoute) {
    route.targetState in states && states[route.targetState].ownerRole == route.targetRole
  }

  ghost predicate StateAccepted(states: map<Id, FlowState>, state: FlowState) {
    && Distinct(Identifiers(state))
    && (state.terminal <==> state.routes == [])
    && (forall route | route in state.routes :: RouteLands(states, route))
    && !Ambiguous(state)
  }

  ghost predicate Edge(states: map<Id, FlowState>, from: Id, to: Id) {
    from in states && exists route | route in states[from].routes :: route.targetState == to
  }

  /** A walk along routes. */
  ghost predicate Walk(states: map<Id, FlowState>, path: seq<Id>) {
    path != [] && forall i | 0 <= i < |path| - 1 :: Edge(states, path[i], path[i + 1])
  }

  ghost predicate Reachable(states: map<Id, FlowState>, from: Id, to: Id) {
    exists path: seq<Id> :: Walk(states, path) && path[0] == from && path[|path| - 1] == to
  }

  ghost predicate AcceptedFlow(flow: Flow) {
    && flow.entryState in flow.states
    && flow.terminalStates != []
    && (forall s :: s in flow.terminalStates <==> s in flow.states && flow.states[s].terminal)
    && (forall s | s in flow.states :: flow.states[s].stateId == s && StateAccepted(flow.states, flow.states[s]))
    && (forall s | s in flow.states :: Reachable(flow.states, flow.entryState, s))
  }

  // ---- The overlap check ----

  predicate ConditionsOverlap(left: Option<Condition>, right: Option<Condition>) {
    if left.None? || right.None? then true
    else if left.value.field != right.value.field then true
    else exists v | v in left.value.values :: v in right.value.values
  }

  /** The pairwise test is exact: it finds an overlap iff some fields satisfy both conditions. */
  lemma OverlapIsExact(left: Option<Condition>, right: Option<Condition>)
    ensures ConditionsOverlap(left, right) <==> exists fields :: Applies(left, fields) && Applies(right, fields)
  {
    if ConditionsOverlap(left, right) {
      var fields: Fields :=
        if left.None? && right.None? then map[]
        else if left.None? then map[right.value.field := Str(right.value.values[0])]
        else if right.None? then map[left.value.field := Str(left.value.values[0])]
        else if left.value.field != right.value.field
        then map[left.value.field := Str(left.value.values[0]), right.value.field := Str(right.value.values[0])]
        else var v :| v in left.value.values && v in right.value.values; map[left.value.field := Str(v)];
      assert Applies(left, fields) && Applies(right, fields);
    }
  }

  lemma OverlapMeansBothMatch(left: FlowRoute, right: FlowRoute)
    ensures (left.outcome == right.outcome && ConditionsOverlap(left.when, right.when)) <==>
            exists outcome, fields :: BothMatch(left, right, outcome, fields)
  {
    OverlapIsExact(left.when, right.when);
    if left.outcome == right.outcome && ConditionsOverlap(left.when, right.when) {
      var fields :| Applies(left.when, fields) && Applies(right.when, fields);
      assert BothMatch(left, right, left.outcome, fields);
    }
    forall outcome, fields | BothMatch(left, right, outcome, fields)
      ensures left.outcome == right.outcome && ConditionsOverlap(left.when, right.when)
    {
      assert Applies(left.when, fields) && Applies(right.when, fields);
    }
  }

  method RejectOverlappingRoutes(state: FlowState) returns (error: Option<FlowError>)
    ensures error.Some? <==> Ambiguous(state)
    ensures error.Some? ==> error.value.OverlappingRoutes?
  {
    for i := 0 to |state.routes|
      invariant forall k, l, outcome, fields | 0 <= k < i && k < l < |state.routes| ::
                  !BothMatch(state.routes[k], state.routes[l], outcome, fields)
    {
      var route := state.routes[i];
      for j := i + 1 to |state.routes|
        invariant forall l, outcome, fields | i < l < j :: !BothMatch(route, state.routes[l], outcome, fields)
      {
        var other := state.routes[j];
        OverlapMeansBothMatch(route, other);
        if route.outcome == other.outcome && ConditionsOverlap(route.when, other.when) {
          return Some(OverlappingRoutes(route.routeId, other.routeId));
        }
      }
    }
    return None;
  }

  // ---- Validation ----

  /** Checks one state against the others. */
  method CheckState(states: map<Id, FlowState>, state: FlowState) returns (error: Option<FlowError>)
    ensures error.None? <==> StateAccepted(states, state)
  {
    if !Distinct(Identifiers(state)) {
      return Some(DuplicateIds(state.stateId));
    }
    if state.terminal && state.routes != [] {
      return Some(TerminalHasRoutes(state.stateId));
    }
    if !state.terminal && state.routes == [] {
      return Some(DeadEnd(state.stateId));
    }
    for i := 0 to |state.routes|
      invariant forall k | 0 <= k < i :: RouteLands(states, state.routes[k])
    {
      var route := state.routes[i];
      assert StateAccepted(states, state) ==> route in state.routes && RouteLands(states, route);
      if route.targetState !in states {
        return Some(UnknownTarget(route.routeId));
      }
      if states[route.targetState].ownerRole != route.targetRole {
        return Some(TargetOwnerDisagrees(route.routeId));
      }
    }
    error := RejectOverlappingRoutes(state);
  }

  /** The worklist: exactly the states reachable from the entry. */
  method ReachableStates(states: map<Id, FlowState>, entry: Id) returns (reachable: set<Id>)
    requires entry in states
    requires forall s | s in states :: forall route | route in states[s].routes :: route.targetState in states
    ensures forall s :: s in reachable <==> Reachable(states, entry, s)
  {
    reachable := {entry};
    var pending := [entry];
    assert Walk(states, [entry]);
    while pending != []
      invariant entry in reachable && reachable <= states.Keys
      invariant forall s | s in pending :: s in reachable
      invariant forall s | s in reachable :: Reachable(states, entry, s)
      invariant forall s | s in reachable && s !in pending :: forall route | route in states[s].routes :: route.targetState in reachable
      decreases states.Keys - reachable, |pending|
    {
      var state := pending[|pending| - 1];
      ghost var before, known := pending, reachable;
      pending := pending[..|pending| - 1];
      assert before == pending + [state];
      var routes := states[state].routes;
      for i := 0 to |routes|
        invariant known <= reachable <= states.Keys
        invariant forall s | s in pending :: s in reachable
        invariant forall s | s in before :: s == state || s in pending
        invariant forall s | s in reachable - known :: s in pending
        invariant forall s | s in reachable :: Reachable(states, entry, s)
        invariant forall k | 0 <= k < i :: routes[k].targetState in reachable
        invariant reachable == known ==> |pending| < |before|
      {
        var target := routes[i].targetState;
        if target !in reachable {
          ExtendReachable(states, entry, state, target);
          reachable := reachable + {target};
          pending := pending + [target];
        }
      }
      assert known < reachable ==> states.Keys - reachable < states.Keys - known;
    }
    forall s | Reachable(states, entry, s) ensures s in reachable {
      var path :| Walk(states, path) && path[0] == entry && path[|path| - 1] == s;
      ClosedUnderWalks(states, reachable, path);
    }
  }

  lemma ExtendReachable(states: map<Id, FlowState>, entry: Id, from: Id, to: Id)
    requires Reachable(states, entry, from) && Edge(states, from, to)
    ensures Reachable(states, entry, to)
  {
    var path :| Walk(states, path) && path[0] == entry && path[|path| - 1] == from;
    var longer := path + [to];
    forall i | 0 <= i < |longer| - 1 ensures Edge(states, longer[i], longer[i + 1]) {
      if i < |path| - 1 {
        assert Edge(states, path[i], path[i + 1]);
      }
    }
    assert Walk(states, longer);
  }

  lemma {:induction false} ClosedUnderWalks(states: map<Id, FlowState>, closed: set<Id>, path: seq<Id>)
    requires forall s | s in closed && s in states :: forall route | route in states[s].routes :: route.targetState in closed
    requires Walk(states, path) && path[0] in closed
    ensures path[|path| - 1] in closed
  {
    if |path| > 1 {
      assert Edge(states, path[0], path[1]);
      var rest := path[1..];
      forall i | 0 <= i < |rest| - 1 ensures Edge(states, rest[i], rest[i + 1]) {
        assert Edge(states, path[i + 1], path[i + 2]);
      }
      ClosedUnderWalks(states, closed, rest);
    }
  }

  method ValidateFlow(flow: Flow) returns (result: Result<Flow, FlowError>)
    requires forall s | s in flow.states :: flow.states[s].stateId == s
    ensures result.Success? <==> AcceptedFlow(flow)
    ensures result.Success? ==> result.value == flow
  {
    if flow.entryState !in flow.states {
      return Failure(UnknownEntry);
    }
    var declared := set s | s in flow.terminalStates;
    var flagged := set s | s in flow.states && flow.states[s].terminal;
    if flow.terminalStates == [] || declared != flagged {
      assert AcceptedFlow(flow) ==> forall s :: s in declared <==> s in flagged;
      return Failure(TerminalMismatch);
    }
    var unchecked := flow.states.Keys;
    while unchecked != {}
      invariant unchecked <= flow.states.Keys
      invariant forall s | s in flow.states && s !in unchecked :: StateAccepted(flow.states, flow.states[s])
      decreases unchecked
    {
      var s :| s in unchecked;
      var error := CheckState(flow.states, flow.states[s]);
      if error.Some? {
        return Failure(error.value);
      }
      unchecked := unchecked - {s};
    }
    forall s, route | s in flow.states && route in flow.states[s].routes ensures route.targetState in flow.states {
      assert StateAccepted(flow.states, flow.states[s]);
      assert RouteLands(flow.states, route);
    }
    var reachable := ReachableStates(flow.states, flow.entryState);
    if reachable != flow.states.Keys {
      if forall s | s in flow.states :: Reachable(flow.states, flow.entryState, s) {
        ReachableAreStates(flow, reachable);
      }
      return Failure(UnreachableStates);
    }
    forall s ensures s in flow.terminalStates <==> s in flow.states && flow.states[s].terminal {
      assert s in declared <==> s in flagged;
    }
    return Success(flow);
  }

  lemma ReachableAreStates(flow: Flow, reachable: set<Id>)
    requires flow.entryState in flow.states
    requires forall s | s in flow.states :: forall route | route in flow.states[s].routes :: route.targetState in flow.states
    requires forall s :: s in reachable <==> Reachable(flow.states, flow.entryState, s)
    requires forall s | s in flow.states :: Reachable(flow.states, flow.entryState, s)
    ensures reachable == flow.states.Keys
  {
    forall s | s in reachable ensures s in flow.states {
      var path :| Walk(flow.states, path) && path[0] == flow.entryState && path[|path| - 1] == s;
      ClosedUnderWalks(flow.states, flow.states.Keys, path);
    }
  }

  // ---- What acceptance gives ----

  /** In an accepted flow a terminal state can be reached from the entry. */
  lemma TerminalReachable(flow: Flow) returns (terminal: Id)
    requires AcceptedFlow(flow)
    ensures terminal in flow.states && flow.states[terminal].terminal
    ensures Reachable(flow.states, flow.entryState, terminal)
  {
    terminal := flow.terminalStates[0];
    assert terminal in flow.terminalStates;
  }

  lemma {:induction false} MatchingExact(routes: seq<FlowRoute>, outcome: Id, fields: Fields)
    ensures forall route :: route in Matching(routes, outcome, fields) <==> route in routes && route.Matches(outcome, fields)
  {
    if routes != [] {
      MatchingExact(routes[1..], outcome, fields);
      assert routes == [routes[0]] + routes[1..];
    }
  }

  lemma {:induction false} MatchingNone(routes: seq<FlowRoute>, outcome: Id, fields: Fields)
    requires forall i | 0 <= i < |routes| :: !routes[i].Matches(outcome, fields)
    ensures Matching(routes, outcome, fields) == []
  {
    if routes != [] {
      MatchingNone(routes[1..], outcome, fields);
    }
  }

  lemma {:induction false} MatchingAtMostOne(routes: seq<FlowRoute>, outcome: Id, fields: Fields)
    requires forall i, j | 0 <= i < j < |routes| :: !BothMatch(routes[i], routes[j], outcome, fields)
    ensures |Matching(routes, outcome, fields)| <= 1
  {
    if routes != [] {
      var rest := routes[1..];
      forall i, j | 0 <= i < j < |rest| ensures !BothMatch(rest[i], rest[j], outcome, fields) {
        assert rest[i] == routes[i + 1] && rest[j] == routes[j + 1];
      }
      MatchingAtMostOne(rest, outcome, fields);
      if routes[0].Matches(outcome, fields) {
        forall k | 0 <= k < |rest| ensures !rest[k].Matches(outcome, fields) {
          assert !BothMatch(routes[0], routes[k + 1], outcome, fields);
        }
        MatchingNone(rest, outcome, fields);
      }
    }
  }

  /** In an unambiguous state a route is selected iff it matches, so selection fails only when none does. */
  lemma SelectRouteExact(state: FlowState, outcome: Id, fields: Fields)
    requires !Ambiguous(state)
    ensures forall route :: state.SelectRoute(outcome, fields) == Success(route) <==>
                              route in state.routes && route.Matches(outcome, fields)
  {
    var matches := Matching(state.routes, outcome, fields);
    MatchingExact(state.routes, outcome, fields);
    MatchingAtMostOne(state.routes, outcome, fields);
    if matches != [] {
      assert matches == [matches[0]];
    }
  }

  /** Without that check selection can fail although a route matches: the check is what rules it out. */
  lemma AmbiguityBlocksSelection(state: FlowState)
    requires Ambiguous(state)
    ensures exists outcome, fields, route :: route in state.routes && route.Matches(outcome, fields)
                                             && state.SelectRoute(outcome, fields).Failure?
  {
    var i, j, outcome, fields :| 0 <= i < j < |state.routes| && BothMatch(state.routes[i], state.routes[j], outcome, fields);
    MatchingTwo(state.routes, i, j, outcome, fields);
    assert state.routes[i] in state.routes;
  }

  lemma {:induction false} MatchingTwo(routes: seq<FlowRoute>, i: nat, j: nat, outcome: Id, fields: Fields)
    requires i < j < |routes| && BothMatch(routes[i], routes[j], outcome, fields)
    ensures |Matching(routes, outcome, fields)| >= 2
  {
    if i > 0 {
      MatchingTwo(routes[1..], i - 1, j - 1, outcome, fields);
    } else {
      MatchingExact(routes[1..], outcome, fields);
      assert routes[1..][j - 1] in routes[1..];
      assert routes[j] in Matching(routes[1..], outcome, fields);
    }
  }

  /** The obligations of a state are its artifact and exactly its applicable actions. */
  lemma {:induction false} ApplicableExact(actions: seq<FlowAction>, fields: Fields)
    ensures forall a :: a in Applicable(actions, fields) <==> a in actions && Applies(a.when, fields)
  {
    if actions != [] {
      ApplicableExact(actions[1..], fields);
      assert actions == [actions[0]] + actions[1..];
    }
  }
}
