/** The reconciler's transactions on one role's instances: planning, completing and recording a failure. */
module FleetScaler {
  import opened Wrappers
  import opened TextOrder
  import opened Fleet

  // ---- Plans ----

  predicate InTransition(instance: Instance) {
    instance.status in {Starting, Hibernating}
  }

  function KindOf(status: Status): Kind {
    if status == Starting then Wake else Hibernate
  }

  function Target(kind: Kind): Status {
    if kind == Wake then Starting else Hibernating
  }

  function Done(kind: Kind): Status {
    if kind == Wake then Running else Hibernated
  }

  function Sources(kind: Kind): set<Status> {
    if kind == Wake then {Hibernated, Stopped, Configured} else {Running}
  }

  /** A waking plan takes any instance at rest; a hibernating one only those idle for the whole grace period. */
  predicate Eligible(instance: Instance, kind: Kind, grace: nat, now: nat) {
    && instance.status in Sources(kind)
    && (kind == Hibernate ==> instance.idleSince.Some? && instance.idleSince.value + grace <= now && !Busy(instance))
  }

  function Candidates(pool: Pool, kind: Kind, grace: nat, now: nat, locked: set<Id>): set<Id> {
    set i | i in pool && i !in locked && Eligible(pool[i], kind, grace, now)
  }

  /** An instance in the hands of an action. */
  function Claimed(instance: Instance, action: Action): Instance {
    instance.(status := Target(action.kind), action := Some(action.token), reason := action.reason, failed := false)
  }

  function Refreshed(instance: Instance, now: nat): Instance {
    if instance.status != Running then instance
    else if Busy(instance) then instance.(idleSince := None)
    else if instance.idleSince.Some? then instance
    else instance.(idleSince := Some(now))
  }

  function Refresh(pool: Pool, now: nat): Pool {
    map i | i in pool :: Refreshed(pool[i], now)
  }

  ghost function Chosen(actions: seq<Action>): set<Id> {
    set a | a in actions :: a.instance
  }

  /** An instance's row after an action on it. */
  predicate Marks(pool: Pool, pool': Pool, action: Action) {
    action.instance in pool && action.instance in pool' && pool'[action.instance] == Claimed(pool[action.instance], action)
  }

  ghost predicate InOrder(pool: Pool, actions: seq<Action>) {
    forall j, k | 0 <= j < k < |actions| ::
      actions[j].instance != actions[k].instance && Earlier(pool, actions[j].instance, actions[k].instance)
  }

  /** The actions take distinct candidates, in order, each under its own fresh token, and change nothing else. */
  ghost predicate Claims(pool: Pool, pool': Pool, actions: seq<Action>, kind: Kind, tokens: nat) {
    && pool'.Keys == pool.Keys && InOrder(pool, actions)
    && (forall k | 0 <= k < |actions| :: actions[k].token == tokens + k && actions[k].kind == kind && Marks(pool, pool', actions[k]))
    && (forall i | i in pool && i !in Chosen(actions) :: pool'[i] == pool[i])
  }

  /** It takes as many as it wants and can get, and no candidate is passed over for a later one. */
  ghost predicate TakesFirst(pool: Pool, actions: seq<Action>, candidates: set<Id>, limit: nat) {
    && candidates <= pool.Keys && Chosen(actions) <= candidates
    && |actions| == (if limit < |candidates| then limit else |candidates|)
    && forall a, i | a in actions && i in candidates - Chosen(actions) :: Earlier(pool, a.instance, i)
  }

  class RoleFleet {
    var pool: Pool
    var tokens: nat
    ghost var finished: set<nat>
    ghost var highest: nat
    ghost var lowest: nat

    /** Tokens are held by instances in transition only, each by one; those finished are held by none. `highest` and
        `lowest` bound the capacity by what it began with and by every policy used since. */
    ghost predicate Valid()
      reads this
    {
      && (forall i | i in pool :: pool[i].action.Some? <==> InTransition(pool[i]))
      && (forall i | i in pool && pool[i].action.Some? :: pool[i].action.value < tokens && pool[i].action.value !in finished)
      && (forall i, j | i in pool && j in pool && i != j && pool[i].action.Some? :: pool[i].action != pool[j].action)
      && (forall t | t in finished :: t < tokens)
      && Effective(pool) <= highest && lowest <= Count(pool, Running)
    }

    constructor (pool: Pool)
      requires forall i | i in pool :: pool[i].action.None? && !InTransition(pool[i])
      ensures Valid() && this.pool == pool && finished == {}
      ensures highest == Effective(pool) && lowest == Count(pool, Running)
    {
      this.pool, tokens, finished := pool, 0, {};
      highest, lowest := Effective(pool), Count(pool, Running);
    }

    // ---- Planning ----

    /** Marks candidates one by one, in order, skipping those another session has locked. */
    method TransitionCandidates(kind: Kind, reason: string, limit: nat, grace: nat, now: nat, locked: set<Id>)
      returns (actions: seq<Action>)
      modifies `pool, `tokens
      ensures Claims(old(pool), pool, actions, kind, old(tokens)) && tokens == old(tokens) + |actions|
      ensures TakesFirst(old(pool), actions, Candidates(old(pool), kind, grace, now, locked), limit)
    {
      hide Claims, Candidates, Earlier, Claimed, Chosen, Divides, First, TakesFirst;
      ghost var before := pool;
      NothingChosen(pool, kind, tokens);
      var remaining := Candidates(pool, kind, grace, now, locked);
      ghost var all := remaining;
      NoneDivided(pool, kind, grace, now, locked);
      var rows := pool;
      actions := [];
      while |actions| < limit && remaining != {}
        invariant Claims(before, pool, actions, kind, old(tokens)) && tokens == old(tokens) + |actions|
        invariant rows == before && all <= before.Keys && |actions| <= limit && remaining <= all
        invariant Divides(before, actions, remaining, all)
        decreases remaining
      {
        FirstExists(rows, remaining);
        var i :| i in remaining && First(rows, remaining, i);
        var action := Action(tokens, i, kind, reason);
        DivideOne(before, actions, remaining, all, action);
        ClaimOne(before, pool, actions, kind, old(tokens), action);
        pool := pool[i := Claimed(pool[i], action)];
        tokens := tokens + 1;
        remaining := remaining - {i};
        actions := actions + [action];
      }
      DividedAll(before, actions, remaining, all, limit);
    }

    /** A planned transition: tokens stay fresh and each with one instance, and capacity stays within the policy. */
    method Transition(kind: Kind, reason: string, limit: nat, policy: Policy, now: nat, locked: set<Id>)
      returns (actions: seq<Action>)
      requires Valid() && forall i | i in pool :: !InTransition(pool[i])
      requires kind == Wake ==> Effective(pool) + limit <= policy.maximum <= highest
      requires kind == Hibernate ==> lowest <= policy.minWarm && limit <= Count(pool, Running) - policy.minWarm
      modifies `pool, `tokens
      ensures Valid()
      ensures Claims(old(pool), pool, actions, kind, old(tokens))
      ensures TakesFirst(old(pool), actions, Candidates(old(pool), kind, policy.idleGrace, now, locked), limit)
      ensures kind == Wake ==> Effective(pool) <= policy.maximum && Count(pool, Running) == Count(old(pool), Running)
      ensures kind == Hibernate ==> Effective(pool) <= Effective(old(pool)) && Count(pool, Running) >= policy.minWarm
    {
      hide Claims, TakesFirst, Count, Candidates;
      actions := TransitionCandidates(kind, reason, limit, policy.idleGrace, now, locked);
      TakenAreSources(old(pool), actions, kind, policy.idleGrace, now, locked, limit);
      ClaimCounts(old(pool), pool, actions, kind, old(tokens));
      TokensHeld(old(pool), pool, actions, kind, old(tokens));
    }

    /** Plans for the role: whatever is already in transition, or else what the policy asks for. */
    method Plan(policy: Policy, queue: Queue, now: nat, locked: set<Id>) returns (actions: seq<Action>)
      requires Valid() && policy.Valid()
      modifies this
      ensures Valid() && finished == old(finished)
      ensures PlanAnswers(old(pool), old(tokens), policy, queue, now, locked, pool, actions)
      ensures Effective(pool) <= Max(Effective(old(pool)), policy.maximum)
      ensures Count(pool, Running) >= Min(Count(old(pool), Running), policy.minWarm)
      ensures highest == Max(old(highest), policy.maximum) && lowest == Min(old(lowest), policy.minWarm)
    {
      hide Claims, TakesFirst, Candidates, Count, BusyCount, Refresh, PendingActions, Wanted;
      highest, lowest := Max(highest, policy.maximum), Min(lowest, policy.minWarm);
      if exists i | i in pool :: InTransition(pool[i]) {
        return PendingActions(pool);
      }
      actions := PlanFresh(policy, queue, now, locked);
    }

    method PlanFresh(policy: Policy, queue: Queue, now: nat, locked: set<Id>) returns (actions: seq<Action>)
      requires Valid() && policy.Valid() && policy.maximum <= highest && lowest <= policy.minWarm
      requires forall i | i in pool :: !InTransition(pool[i])
      modifies `pool, `tokens
      ensures Valid()
      ensures PlanAnswers(old(pool), old(tokens), policy, queue, now, locked, pool, actions)
      ensures Effective(pool) <= Max(Effective(old(pool)), policy.maximum)
      ensures Count(pool, Running) >= Min(Count(old(pool), Running), policy.minWarm)
    {
      hide Claims, TakesFirst, Candidates, Count, BusyCount, Refresh;
      RefreshCounts(pool, now);
      pool := Refresh(pool, now);
      var running, starting := Count(pool, Running), Count(pool, Starting);
      var wake := Wanted(policy, queue, running, starting, BusyCount(pool));
      if wake > 0 {
        actions := Transition(Wake, "wake", wake, policy, now, locked);
        return;
      }
      if !policy.hibernates || queue.ready > 0 {
        return [];
      }
      var surplus := Max(0, running - policy.minWarm);
      if surplus == 0 {
        return [];
      }
      actions := Transition(Hibernate, "idle grace period elapsed", surplus, policy, now, locked);
    }

    // ---- Finishing actions ----

    /** Completes an action whose instance is still in its hands; any other is superseded and changes nothing.
        A completed action's token was never completed before. */
    method Complete(action: Action, now: nat) returns (completed: bool)
      requires Valid()
      modifies `pool, `finished
      ensures Valid()
      ensures completed <==> Holds(old(pool), action) && old(pool)[action.instance].status == Target(action.kind)
      ensures completed ==>
                && action.instance in pool
                && pool[action.instance].status == (if action.kind == Wake then Running else Hibernated)
                && pool[action.instance].action.None? && !pool[action.instance].failed
                && pool[action.instance].idleSince == if action.kind == Wake then Some(now) else None
      ensures if completed
              then pool == old(pool)[action.instance := Completed(old(pool)[action.instance], action.kind, now)]
                   && action.token !in old(finished) && finished == old(finished) + {action.token}
              else pool == old(pool) && finished == old(finished)
      ensures Effective(pool) == Effective(old(pool)) && Count(pool, Running) >= Count(old(pool), Running)
    {
      hide Count;
      if !Holds(pool, action) || pool[action.instance].status != Target(action.kind) {
        return false;
      }
      ghost var before := pool;
      var instance := Completed(pool[action.instance], action.kind, now);
      Moved(pool, action.instance, instance, Running);
      Moved(pool, action.instance, instance, Starting);
      pool := pool[action.instance := instance];
      finished := finished + {action.token};
      return true;
    }

    method RecordFailure(action: Action) returns (recorded: bool)
      requires Valid()
      modifies `pool
      ensures Valid() && recorded == Holds(old(pool), action)
      ensures pool == if recorded then old(pool)[action.instance := old(pool)[action.instance].(failed := true)] else old(pool)
      ensures Effective(pool) == Effective(old(pool)) && Count(pool, Running) == Count(old(pool), Running)
    {
      hide Count;
      if !Holds(pool, action) {
        return false;
      }
      var instance := pool[action.instance].(failed := true);
      Moved(pool, action.instance, instance, Running);
      Moved(pool, action.instance, instance, Starting);
      pool := pool[action.instance := instance];
      return true;
    }

    // ---- What the other stores do ----

    /** A role pack adds an instance to the pool. */
    method Register(i: Id)
      requires Valid()
      modifies `pool
      ensures Valid() && pool == if i in old(pool) then old(pool)
                                 else old(pool)[i := Instance(Configured, None, "", None, false, false, false, false)]
    {
      hide Count;
      if i !in pool {
        var instance := Instance(Configured, None, "", None, false, false, false, false);
        Added(pool, i, instance, Running);
        Added(pool, i, instance, Starting);
        pool := pool[i := instance];
      }
    }

    /** Leases, affinities and undelivered events come and go. */
    method Occupy(i: Id, leased: bool, affine: bool, pending: bool)
      requires Valid() && i in pool
      modifies `pool
      ensures Valid() && pool == old(pool)[i := old(pool)[i].(leased := leased, affine := affine, pending := pending)]
    {
      hide Count;
      var instance := pool[i].(leased := leased, affine := affine, pending := pending);
      Moved(pool, i, instance, Running);
      Moved(pool, i, instance, Starting);
      pool := pool[i := instance];
    }

    /** One reconciliation: plans, and then finishes each action the supervisor could apply. No action of it completes
        a token twice, and capacity never passes the larger of what it was and what the policy allows. */
    method Reconcile(policy: Policy, queue: Queue, now: nat, locked: set<Id>, applied: set<Id>) returns (results: seq<Outcome>)
      requires Valid() && policy.Valid()
      modifies this
      ensures Valid() && old(finished) <= finished
      ensures Effective(pool) <= Max(Effective(old(pool)), policy.maximum)
      ensures Count(pool, Running) >= Min(Count(old(pool), Running), policy.minWarm)
      ensures forall r | r in results :: r.status == Finished ==> r.action.token in finished && r.action.token !in old(finished)
      ensures forall r | r in results :: r.status == Failed <==> r.action.instance !in applied
    {
      hide Count, PlanAnswers;
      var actions := Plan(policy, queue, now, locked);
      ghost var planned := Effective(pool);
      results := [];
      for k := 0 to |actions|
        invariant Valid() && old(finished) <= finished && |results| == k
        invariant Effective(pool) == planned && Count(pool, Running) >= Min(Count(old(pool), Running), policy.minWarm)
        invariant forall r | r in results :: r.status == Finished ==> r.action.token in finished && r.action.token !in old(finished)
        invariant forall r | r in results :: r.status == Failed <==> r.action.instance !in applied
      {
        if actions[k].instance !in applied {
          var recorded := RecordFailure(actions[k]);
          results := results + [Outcome(actions[k], Failed)];
        } else {
          var completed := Complete(actions[k], now);
          results := results + [Outcome(actions[k], if completed then Finished else Superseded)];
        }
      }
    }
  }

  datatype OutcomeStatus = Finished | Superseded | Failed

  datatype Outcome = Outcome(action: Action, status: OutcomeStatus)

  /** The action's instance is still marked with the action's token. */
  predicate Holds(pool: Pool, action: Action) {
    action.instance in pool && pool[action.instance].action == Some(action.token)
  }

  function Completed(instance: Instance, kind: Kind, now: nat): Instance {
    instance.(status := Done(kind), action := None, failed := false, idleSince := if kind == Wake then Some(now) else None)
  }

  /** The candidates are those chosen, once each, and those remaining, none of which should have gone before. */
  ghost predicate Divides(pool: Pool, actions: seq<Action>, remaining: set<Id>, all: set<Id>) {
    && Chosen(actions) + remaining == all && Chosen(actions) !! remaining && |Chosen(actions)| == |actions|
    && forall a, i | a in actions && i in remaining :: Earlier(pool, a.instance, i)
  }

  lemma NoneDivided(pool: Pool, kind: Kind, grace: nat, now: nat, locked: set<Id>)
    ensures var all := Candidates(pool, kind, grace, now, locked); all <= pool.Keys && Divides(pool, [], all, all)
  {}

  lemma DivideOne(pool: Pool, actions: seq<Action>, remaining: set<Id>, all: set<Id>, action: Action)
    requires Divides(pool, actions, remaining, all) && First(pool, remaining, action.instance)
    ensures Divides(pool, actions + [action], remaining - {action.instance}, all)
    ensures action.instance in pool && action.instance !in Chosen(actions)
    ensures forall a | a in actions :: Earlier(pool, a.instance, action.instance)
  {
    hide Earlier;
    ChosenGrows(actions, action);
  }

  lemma DividedAll(pool: Pool, actions: seq<Action>, remaining: set<Id>, all: set<Id>, limit: nat)
    requires Divides(pool, actions, remaining, all) && all <= pool.Keys && |actions| <= limit
    requires remaining == {} || |actions| == limit
    ensures TakesFirst(pool, actions, all, limit)
  {
    hide Earlier;
    assert all - Chosen(actions) == remaining;
    assert |all| == |Chosen(actions)| + |remaining|;
  }

  lemma NothingChosen(pool: Pool, kind: Kind, tokens: nat)
    ensures Chosen([]) == {} && Claims(pool, pool, [], kind, tokens)
  {}

  lemma ClaimOne(before: Pool, pool: Pool, actions: seq<Action>, kind: Kind, tokens: nat, action: Action)
    requires Claims(before, pool, actions, kind, tokens) && action.instance in before && action.instance !in Chosen(actions)
    requires action.kind == kind && action.token == tokens + |actions|
    requires forall a | a in actions :: Earlier(before, a.instance, action.instance)
    ensures action.instance in pool
    ensures Claims(before, pool[action.instance := Claimed(pool[action.instance], action)], actions + [action], kind, tokens)
  {
    hide Earlier, Claimed, InOrder;
    ChosenGrows(actions, action);
    OrderGrows(before, actions, action);
    var pool' := pool[action.instance := Claimed(pool[action.instance], action)];
    forall k | 0 <= k < |actions| ensures Marks(before, pool', actions[k]) {
      assert actions[k] in actions;
      assert actions[k].instance in Chosen(actions);
      assert Marks(before, pool, actions[k]);
    }
  }

  lemma OrderGrows(pool: Pool, actions: seq<Action>, action: Action)
    requires InOrder(pool, actions) && action.instance !in Chosen(actions)
    requires forall a | a in actions :: Earlier(pool, a.instance, action.instance)
    ensures InOrder(pool, actions + [action])
  {
    hide Earlier;
    forall k | 0 <= k < |actions| ensures actions[k].instance != action.instance {
      assert actions[k] in actions;
    }
  }

  lemma ChosenGrows(actions: seq<Action>, action: Action)
    ensures Chosen(actions + [action]) == Chosen(actions) + {action.instance}
  {
    forall i | i in Chosen(actions) + {action.instance} ensures i in Chosen(actions + [action]) {
      if i == action.instance {
        assert action in actions + [action];
      } else {
        var a :| a in actions && a.instance == i;
        assert a in actions + [action];
      }
    }
  }

  lemma TakenAreSources(
    pool: Pool, actions: seq<Action>, kind: Kind, grace: nat, now: nat, locked: set<Id>, limit: nat
  )
    requires TakesFirst(pool, actions, Candidates(pool, kind, grace, now, locked), limit)
    ensures |actions| <= limit && forall i | i in Chosen(actions) :: i in pool && pool[i].status in Sources(kind)
  {}

  /** After claiming, only the chosen are in transition, each under its own action's token. */
  lemma TokensHeld(pool: Pool, pool': Pool, actions: seq<Action>, kind: Kind, tokens: nat)
    requires Claims(pool, pool', actions, kind, tokens)
    requires forall i | i in pool :: !InTransition(pool[i]) && pool[i].action.None?
    ensures forall i | i in pool' :: pool'[i].action.Some? <==> InTransition(pool'[i])
    ensures forall i | i in pool' && pool'[i].action.Some? :: tokens <= pool'[i].action.value < tokens + |actions|
    ensures forall i, j | i in pool' && j in pool' && i != j && pool'[i].action.Some? :: pool'[i].action != pool'[j].action
  {
    hide InOrder;
    forall i | i in pool'
      ensures pool'[i].action.Some? <==> InTransition(pool'[i])
      ensures pool'[i].action.Some? ==>
                exists k :: 0 <= k < |actions| && actions[k].instance == i && pool'[i].action == Some(tokens + k)
    {
      if i in Chosen(actions) {
        var a :| a in actions && a.instance == i;
        var k :| 0 <= k < |actions| && actions[k] == a;
        assert Marks(pool, pool', actions[k]);
      }
    }
  }

  // ---- What a plan answers ----

  ghost predicate ActionsHeld(pool: Pool) {
    forall i | i in pool && InTransition(pool[i]) :: pool[i].action.Some?
  }

  /** The actions of every instance in transition, by identifier. */
  function PendingActions(pool: Pool): seq<Action>
    requires ActionsHeld(pool)
  {
    var ids := Sorted(set i | i in pool && InTransition(pool[i]));
    SortedExact(set i | i in pool && InTransition(pool[i]));
    seq(|ids|, k requires 0 <= k < |ids| =>
      assert ids[k] in ids;
      Action(pool[ids[k]].action.value, ids[k], KindOf(pool[ids[k]].status), pool[ids[k]].reason))
  }

  ghost predicate PlanAnswers(
    pool: Pool, tokens: nat, policy: Policy, queue: Queue, now: nat, locked: set<Id>, pool': Pool, actions: seq<Action>
  ) {
    var rows := Refresh(pool, now);
    var wanted := Wanted(policy, queue, Count(rows, Running), Count(rows, Starting), BusyCount(rows));
    var surplus := Max(0, Count(rows, Running) - policy.minWarm);
    if exists i | i in pool :: InTransition(pool[i]) then
      pool' == pool && ActionsHeld(pool) && actions == PendingActions(pool)
    else if wanted > 0 then
      && Claims(rows, pool', actions, Wake, tokens)
      && TakesFirst(rows, actions, Candidates(rows, Wake, policy.idleGrace, now, locked), wanted)
    else if policy.hibernates && queue.ready == 0 && surplus > 0 then
      && Claims(rows, pool', actions, Hibernate, tokens)
      && TakesFirst(rows, actions, Candidates(rows, Hibernate, policy.idleGrace, now, locked), surplus)
    else
      pool' == rows && actions == []
  }

  /** Hibernation takes exactly the unlocked instances that run, have none of the three reasons to be busy, and have been
      idle for the whole grace period. */
  lemma HibernatesIdle(pool: Pool, grace: nat, now: nat, locked: set<Id>, i: Id)
    ensures i in Candidates(Refresh(pool, now), Hibernate, grace, now, locked) <==>
              && i in pool && i !in locked && pool[i].status == Running
              && !pool[i].leased && !pool[i].affine && !pool[i].pending
              && (if pool[i].idleSince.Some? then pool[i].idleSince.value + grace <= now else grace == 0)
  {}

  /** Waking takes exactly the unlocked instances at rest. */
  lemma WakesResting(pool: Pool, grace: nat, now: nat, locked: set<Id>, i: Id)
    ensures i in Candidates(Refresh(pool, now), Wake, grace, now, locked) <==>
              i in pool && i !in locked && (pool[i].status == Hibernated || pool[i].status == Stopped || pool[i].status == Configured)
  {}

  /** The unlocked instances at rest. */
  function Resting(pool: Pool, locked: set<Id>): set<Id> {
    set i | i in pool && i !in locked && (pool[i].status == Hibernated || pool[i].status == Stopped || pool[i].status == Configured)
  }

  /** The unlocked instances that run, are not busy, and have been idle for the whole grace period. */
  function LongIdle(pool: Pool, grace: nat, now: nat, locked: set<Id>): set<Id> {
    set i | i in pool && i !in locked && pool[i].status == Running && !pool[i].leased && !pool[i].affine && !pool[i].pending
            && (if pool[i].idleSince.Some? then pool[i].idleSince.value + grace <= now else grace == 0)
  }

  /** Whether more capacity is wanted, of a role with so many running and none in transition. */
  predicate Short(policy: Policy, queue: Queue, running: nat, busy: nat) {
    && running < policy.maximum
    && (|| running < policy.minWarm
        || (queue.ready > 0 && running == 0)
        || (queue.ready > Max(0, running - busy) && queue.oldest.Some? && queue.oldest.value >= policy.scaleAfter))
  }

  /** These many of a set, of one kind, and those idle for longer before the others. */
  ghost predicate Takes(rows: Pool, actions: seq<Action>, kind: Kind, from: set<Id>, limit: nat) {
    && |actions| == Min(limit, |from|)
    && (forall a | a in actions :: a.kind == kind && a.instance in from)
    && forall a, i | a in actions && i in from && i in rows && a.instance in rows && i !in Chosen(actions) && rows[i].idleSince.Some? ::
         rows[a.instance].idleSince.Some? && rows[a.instance].idleSince.value <= rows[i].idleSince.value
  }

  lemma TakenFirst(rows: Pool, pool': Pool, actions: seq<Action>, kind: Kind, tokens: nat, from: set<Id>, limit: nat)
    requires Claims(rows, pool', actions, kind, tokens) && TakesFirst(rows, actions, from, limit)
    ensures Takes(rows, actions, kind, from, limit)
  {
    hide InOrder;
    forall a | a in actions ensures a.kind == kind && a.instance in from {
      var k :| 0 <= k < |actions| && actions[k] == a;
      assert a.instance in Chosen(actions);
    }
    forall a, i | a in actions && i in from && i in rows && a.instance in rows && i !in Chosen(actions) && rows[i].idleSince.Some?
      ensures rows[a.instance].idleSince.Some? && rows[a.instance].idleSince.value <= rows[i].idleSince.value
    {
      assert i in from - Chosen(actions);
      assert Earlier(rows, a.instance, i);
    }
  }

  /** What a plan does for a role with nothing in transition: where capacity is short it wakes what the warm minimum lacks,
      or else one; where it is not, and no work is ready, it puts all beyond the warm minimum to rest that have been idle
      for long enough; and otherwise it does nothing. */
  lemma PlanExact(
    pool: Pool, tokens: nat, policy: Policy, queue: Queue, now: nat, locked: set<Id>, pool': Pool, actions: seq<Action>
  )
    requires policy.Valid() && PlanAnswers(pool, tokens, policy, queue, now, locked, pool', actions)
    requires forall i | i in pool :: !InTransition(pool[i])
    ensures var running := Count(pool, Running);
      if Short(policy, queue, running, BusyCount(pool)) then
        Takes(Refresh(pool, now), actions, Wake, Resting(pool, locked),
              if running < policy.minWarm then policy.minWarm - running else 1)
      else if policy.hibernates && queue.ready == 0 && running > policy.minWarm then
        Takes(Refresh(pool, now), actions, Hibernate, LongIdle(pool, policy.idleGrace, now, locked), running - policy.minWarm)
      else actions == []
  {
    hide Claims, TakesFirst, Candidates, Resting, LongIdle, Takes, Refresh, Count, BusyCount, Wanted;
    var rows := Refresh(pool, now);
    RefreshCounts(pool, now);
    NoneStarting(pool);
    SameBusy(pool, now);
    WantedExact(policy, queue, Count(rows, Running), Count(rows, Starting), BusyCount(rows));
    CandidatesAre(pool, policy.idleGrace, now, locked);
    var wanted := Wanted(policy, queue, Count(rows, Running), Count(rows, Starting), BusyCount(rows));
    if wanted > 0 {
      TakenFirst(rows, pool', actions, Wake, tokens, Resting(pool, locked), wanted);
    } else if policy.hibernates && queue.ready == 0 && Count(pool, Running) > policy.minWarm {
      TakenFirst(rows, pool', actions, Hibernate, tokens, LongIdle(pool, policy.idleGrace, now, locked),
                 Count(pool, Running) - policy.minWarm);
    }
  }

  lemma NoneStarting(pool: Pool)
    requires forall i | i in pool :: !InTransition(pool[i])
    ensures Count(pool, Starting) == 0
  {
    assert With(pool, Starting) == {};
  }

  lemma SameBusy(pool: Pool, now: nat)
    ensures BusyCount(Refresh(pool, now)) == BusyCount(pool)
  {
    assert BusySet(Refresh(pool, now)) == BusySet(pool);
  }

  lemma CandidatesAre(pool: Pool, grace: nat, now: nat, locked: set<Id>)
    ensures Candidates(Refresh(pool, now), Wake, grace, now, locked) == Resting(pool, locked)
    ensures Candidates(Refresh(pool, now), Hibernate, grace, now, locked) == LongIdle(pool, grace, now, locked)
  {
    forall i
      ensures i in Candidates(Refresh(pool, now), Wake, grace, now, locked) <==> i in Resting(pool, locked)
      ensures i in Candidates(Refresh(pool, now), Hibernate, grace, now, locked) <==> i in LongIdle(pool, grace, now, locked)
    {
      WakesResting(pool, grace, now, locked, i);
      HibernatesIdle(pool, grace, now, locked, i);
    }
  }

  /** For a role with something in transition a plan answers with just that: each such instance once, under its token. */
  lemma PendingExact(
    pool: Pool, tokens: nat, policy: Policy, queue: Queue, now: nat, locked: set<Id>, pool': Pool, actions: seq<Action>
  )
    requires PlanAnswers(pool, tokens, policy, queue, now, locked, pool', actions) && exists i | i in pool :: InTransition(pool[i])
    ensures pool' == pool
    ensures Chosen(actions) == set i | i in pool && InTransition(pool[i])
    ensures |actions| == |Chosen(actions)|
    ensures forall a | a in actions && a.instance in pool ::
              pool[a.instance].action == Some(a.token) && (a.kind == Wake <==> pool[a.instance].status == Starting)
  {
    hide Sorted;
    var ids := set i | i in pool && InTransition(pool[i]);
    SortedExact(ids);
    var order := Sorted(ids);
    SortedSize(ids);
    forall i | i in ids ensures i in Chosen(actions) {
      var k :| 0 <= k < |order| && order[k] == i;
      assert actions[k] in actions && actions[k].instance == i;
    }
    forall a | a in actions ensures a.instance in ids {
      var k :| 0 <= k < |actions| && actions[k] == a;
      assert order[k] in order;
    }
  }

  /** An instance found idle by two plans counts as idle since the first; one found busy in between starts over. */
  lemma IdleSinceFirstSeen(pool: Pool, between: Pool, first: nat, second: nat, i: Id)
    requires i in pool && pool[i].status == Running && pool[i].idleSince.None? && !Busy(pool[i])
    requires i in between && between[i] == Refresh(pool, first)[i].(leased := between[i].leased)
    ensures Refresh(between, second)[i].idleSince == if between[i].leased then None else Some(first)
  {}

  lemma RefreshCounts(pool: Pool, now: nat)
    ensures forall status :: Count(Refresh(pool, now), status) == Count(pool, status)
    ensures Refresh(pool, now).Keys == pool.Keys
    ensures forall i | i in pool :: Refresh(pool, now)[i].status == pool[i].status && Refresh(pool, now)[i].action == pool[i].action
  {
    SameCounts(pool, Refresh(pool, now));
  }

  /** Claiming moves exactly as many instances as there are actions. */
  lemma ClaimCounts(pool: Pool, pool': Pool, actions: seq<Action>, kind: Kind, tokens: nat)
    requires Claims(pool, pool', actions, kind, tokens)
    requires forall i | i in Chosen(actions) :: i in pool && pool[i].status in Sources(kind)
    ensures kind == Wake ==> Count(pool', Starting) == Count(pool, Starting) + |actions| && Count(pool', Running) == Count(pool, Running)
    ensures kind == Hibernate ==> Count(pool', Starting) == Count(pool, Starting) && Count(pool', Running) == Count(pool, Running) - |actions|
  {
    hide Claims, Chosen;
    ChosenOf(pool, pool', actions, kind, tokens);
    ChosenMarked(pool, pool', actions, kind, tokens);
    if kind == Wake {
      WokenCounts(pool, pool', Chosen(actions));
    } else {
      HibernatedCounts(pool, pool', Chosen(actions));
    }
  }

  lemma ChosenOf(pool: Pool, pool': Pool, actions: seq<Action>, kind: Kind, tokens: nat)
    requires Claims(pool, pool', actions, kind, tokens)
    ensures |Chosen(actions)| == |actions|
  {
    ChosenSize(pool, actions);
  }

  lemma WokenCounts(pool: Pool, pool': Pool, chosen: set<Id>)
    requires pool'.Keys == pool.Keys && chosen <= pool.Keys
    requires forall i | i in pool :: pool'[i].status == if i in chosen then Starting else pool[i].status
    requires forall i | i in chosen :: pool[i].status in Sources(Wake)
    ensures Count(pool', Starting) == Count(pool, Starting) + |chosen| && Count(pool', Running) == Count(pool, Running)
  {
    assert With(pool', Starting) == With(pool, Starting) + chosen;
    assert With(pool, Starting) !! chosen;
    assert With(pool', Running) == With(pool, Running);
  }

  lemma HibernatedCounts(pool: Pool, pool': Pool, chosen: set<Id>)
    requires pool'.Keys == pool.Keys && chosen <= pool.Keys
    requires forall i | i in pool :: pool'[i].status == if i in chosen then Hibernating else pool[i].status
    requires forall i | i in chosen :: pool[i].status in Sources(Hibernate)
    ensures Count(pool', Starting) == Count(pool, Starting) && Count(pool', Running) == Count(pool, Running) - |chosen|
  {
    assert With(pool', Starting) == With(pool, Starting);
    assert With(pool', Running) == With(pool, Running) - chosen;
    assert chosen <= With(pool, Running);
  }

  lemma ChosenMarked(pool: Pool, pool': Pool, actions: seq<Action>, kind: Kind, tokens: nat)
    requires Claims(pool, pool', actions, kind, tokens)
    ensures pool'.Keys == pool.Keys
    ensures forall i | i in pool :: pool'[i].status == if i in Chosen(actions) then Target(kind) else pool[i].status
  {
    forall i | i in Chosen(actions) && i in pool ensures pool'[i].status == Target(kind) {
      var a :| a in actions && a.instance == i;
      var k :| 0 <= k < |actions| && actions[k] == a;
      assert Marks(pool, pool', actions[k]);
    }
  }

  lemma {:induction false} ChosenSize(pool: Pool, actions: seq<Action>)
    requires InOrder(pool, actions)
    ensures |Chosen(actions)| == |actions|
  {
    hide Earlier;
    if actions != [] {
      var n := |actions| - 1;
      ChosenSize(pool, actions[..n]);
      assert actions == actions[..n] + [actions[n]];
      LastIsNew(pool, actions);
      hide Chosen, InOrder;
      ChosenGrows(actions[..n], actions[n]);
    }
  }

  lemma LastIsNew(pool: Pool, actions: seq<Action>)
    requires InOrder(pool, actions) && actions != []
    ensures actions[|actions| - 1].instance !in Chosen(actions[..|actions| - 1])
  {
    hide Earlier;
    var n := |actions| - 1;
    forall a | a in actions[..n] ensures a.instance != actions[n].instance {
      var k :| 0 <= k < n && actions[k] == a;
    }
  }
}
