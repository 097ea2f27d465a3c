/** The instances of one role, scaled by reconcilers that race on action tokens. */
module Fleet {
  import opened Wrappers
  import opened TextOrder

  type Id = string

  datatype Status = Configured | Starting | Running | Hibernating | Hibernated | Stopped

  /** `leased`, `affine` and `pending` are the three reasons an instance is busy. */
  datatype Instance = Instance(
    status: Status,
    action: Option<nat>,
    reason: string,
    idleSince: Option<nat>,
    failed: bool,
    leased: bool,
    affine: bool,
    pending: bool
  )

  type Pool = map<Id, Instance>

  datatype Policy = Policy(minWarm: nat, maximum: nat, scaleAfter: nat, idleGrace: nat, hibernates: bool) {
    predicate Valid() {
      minWarm <= maximum && 0 < maximum
    }
  }

  datatype Kind = Wake | Hibernate

  datatype Action = Action(token: nat, instance: Id, kind: Kind, reason: string)

  datatype Queue = Queue(ready: nat, oldest: Option<nat>)

  // ---- Counts ----

  function With(pool: Pool, status: Status): set<Id> {
    set i | i in pool && pool[i].status == status
  }

  function Count(pool: Pool, status: Status): nat {
    |With(pool, status)|
  }

  /** The capacity a plan counts on. */
  function Effective(pool: Pool): nat {
    Count(pool, Running) + Count(pool, Starting)
  }

  predicate Busy(instance: Instance) {
    instance.leased || instance.affine || instance.pending
  }

  /** The busy instances as the query takes them: its running test covers only the first of the three reasons. */
  function BusySet(pool: Pool): set<Id> {
    set i | i in pool && ((pool[i].status == Running && pool[i].leased) || pool[i].affine || pool[i].pending)
  }

  function BusyCount(pool: Pool): nat {
    |BusySet(pool)|
  }

  /** So more instances can count as busy than run. */
  lemma BusyCanExceedRunning() returns (pool: Pool)
    ensures BusyCount(pool) > Count(pool, Running)
  {
    pool := map["a" := Instance(Hibernated, None, "", None, false, false, true, false)];
    assert BusySet(pool) == {"a"};
    assert With(pool, Running) == {};
  }

  /** Busy although not running, running and busy, running and free. */
  function BusyElsewhere(pool: Pool): set<Id> {
    set i | i in pool && pool[i].status != Running && (pool[i].affine || pool[i].pending)
  }

  function Working(pool: Pool): set<Id> {
    set i | i in pool && pool[i].status == Running && Busy(pool[i])
  }

  function Idle(pool: Pool): set<Id> {
    set i | i in pool && pool[i].status == Running && !Busy(pool[i])
  }

  lemma BusyParts(pool: Pool)
    ensures BusySet(pool) == Working(pool) + BusyElsewhere(pool) && Working(pool) !! BusyElsewhere(pool)
  {}

  lemma RunningParts(pool: Pool)
    ensures With(pool, Running) == Working(pool) + Idle(pool) && Working(pool) !! Idle(pool)
  {}

  /** That happens exactly when more instances are busy without running than run without being busy. */
  lemma BusyExceedsExactly(pool: Pool)
    ensures BusyCount(pool) > Count(pool, Running) <==> |BusyElsewhere(pool)| > |Idle(pool)|
  {
    hide Working, BusyElsewhere, Idle, BusySet, With;
    BusyParts(pool);
    TwoParts(Working(pool), BusyElsewhere(pool));
    RunningParts(pool);
    TwoParts(Working(pool), Idle(pool));
  }

  lemma TwoParts(a: set<Id>, b: set<Id>)
    requires a !! b
    ensures |a + b| == |a| + |b|
  {}

  /** One instance changes status. */
  lemma Moved(pool: Pool, i: Id, instance: Instance, status: Status)
    requires i in pool
    ensures Count(pool[i := instance], status)
            == Count(pool, status) - (if pool[i].status == status then 1 else 0) + (if instance.status == status then 1 else 0)
  {
    var before, after := With(pool, status), With(pool[i := instance], status);
    WithoutOne(before, i);
    WithoutOne(after, i);
    assert before - {i} == after - {i};
  }

  lemma WithoutOne(s: set<Id>, i: Id)
    ensures |s - {i}| == |s| - if i in s then 1 else 0
  {
    if i in s {
      assert s == (s - {i}) + {i};
    } else {
      assert s - {i} == s;
    }
  }

  lemma Added(pool: Pool, i: Id, instance: Instance, status: Status)
    requires i !in pool && instance.status != status
    ensures Count(pool[i := instance], status) == Count(pool, status)
  {
    assert With(pool[i := instance], status) == With(pool, status);
  }

  lemma SameCounts(pool: Pool, pool': Pool)
    requires pool.Keys == pool'.Keys && forall i | i in pool :: pool'[i].status == pool[i].status
    ensures forall status :: Count(pool', status) == Count(pool, status)
  {
    forall status ensures Count(pool', status) == Count(pool, status) {
      assert With(pool', status) == With(pool, status);
    }
  }

  // ---- Candidates ----

  /** Longest idle first, never idle last, then by identifier. */
  predicate Earlier(pool: Pool, a: Id, b: Id) {
    a in pool && b in pool
    && match (pool[a].idleSince, pool[b].idleSince)
       case (Some(x), Some(y)) => x < y || (x == y && TextBefore(a, b))
       case (Some(_), None) => true
       case (None, Some(_)) => false
       case (None, None) => TextBefore(a, b)
  }

  predicate First(pool: Pool, s: set<Id>, m: Id) {
    m in s && s <= pool.Keys && forall x | x in s :: Earlier(pool, m, x)
  }

  lemma EarlierOrder(pool: Pool, a: Id, b: Id)
    requires a in pool && b in pool
    ensures Earlier(pool, a, b) || Earlier(pool, b, a)
  {
    TextOrderTotal(a, b);
  }

  lemma EarlierTransitive(pool: Pool, a: Id, b: Id, c: Id)
    requires a in pool && b in pool && c in pool && Earlier(pool, a, b) && Earlier(pool, b, c)
    ensures Earlier(pool, a, c)
  {
    if TextBefore(a, b) && TextBefore(b, c) {
      TextOrderTransitive(a, b, c);
    }
  }

  lemma {:induction false} FirstExists(pool: Pool, s: set<Id>)
    requires s != {} && s <= pool.Keys
    ensures exists m :: m in s && First(pool, s, m)
  {
    var x :| x in s;
    EarlierOrder(pool, x, x);
    if s == {x} {
      assert First(pool, s, x);
    } else {
      var rest := s - {x};
      assert s == rest + {x};
      FirstExists(pool, rest);
      var m :| m in rest && First(pool, rest, m);
      EarlierOrder(pool, x, m);
      if Earlier(pool, x, m) {
        forall y | y in s ensures Earlier(pool, x, y) {
          if y != x {
            EarlierTransitive(pool, x, m, y);
          }
        }
        assert First(pool, s, x);
      } else {
        assert First(pool, s, m);
      }
    }
  }

  // ---- How many to wake ----

  function Max(a: int, b: int): int {
    if a < b then b else a
  }

  function Min(a: int, b: int): int {
    if a < b then a else b
  }

  /** How many instances a plan wants to wake; none when this is not positive. */
  function Wanted(policy: Policy, queue: Queue, running: nat, starting: nat, busy: nat): int {
    var effective := running + starting;
    var warm := Max(0, policy.minWarm - effective);
    var wake :=
      if queue.ready > 0 && effective == 0 then Max(warm, 1)
      else if queue.ready > Max(0, running - busy) && queue.oldest.Some? && queue.oldest.value >= policy.scaleAfter
              && effective < policy.maximum then Max(warm, 1)
      else warm;
    Min(wake, policy.maximum - effective)
  }

  /** A plan wants instances exactly when there is room, and either the warm minimum is not met, or work is ready and
      nothing is there to take it up, or more work is ready than instances are free and the oldest has waited long enough.
      It then wants what the warm minimum lacks, or else one; so never more than the policy allows. */
  lemma WantedExact(policy: Policy, queue: Queue, running: nat, starting: nat, busy: nat)
    requires policy.Valid()
    ensures var wanted, effective, free := Wanted(policy, queue, running, starting, busy), running + starting, Max(0, running - busy);
      && (wanted > 0 <==>
            && effective < policy.maximum
            && (|| effective < policy.minWarm
                || (queue.ready > 0 && effective == 0)
                || (queue.ready > free && queue.oldest.Some? && queue.oldest.value >= policy.scaleAfter)))
      && (wanted > 0 ==> wanted == if effective < policy.minWarm then policy.minWarm - effective else 1)
      && (wanted > 0 ==> effective + wanted <= policy.maximum)
  {}
}
