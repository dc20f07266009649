/**
  Repeated ticks with a constant backlog and machines of one size: the first tick
  reaches the target, later ticks only finish the drain, and once every deadline has
  passed they do nothing.
 */
module Convergence {
  import opened Prelude
  import opened Machines
  import opened Capacity
  import opened Selection
  import opened Fleet

  /** What one tick sees from outside: the listing, the busy set, the clock, and what a create delivers. */
  datatype Env = Env(machines: seq<Machine>, busy: set<string>, now: int, created: Machinery)

  function EnvPlan(c: Settings, desired: int, env: Env): Plan
    requires Valid(c)
  {
    PlanOf(c, env.machines, desired, Some(env.busy), env.now)
  }

  ghost predicate TickOf(c: Settings, desired: int, f: Machinery, env: Env, f': Machinery)
    requires Valid(c)
  {
    && Listing(f, env.machines) && Delivered(c, f, EnvPlan(c, desired, env), env.created)
    && f' == After(c, f, EnvPlan(c, desired, env), env.now, env.created)
  }

  ghost predicate Ticks(c: Settings, desired: int, fleets: seq<Machinery>, envs: seq<Env>)
    requires Valid(c)
  {
    && |fleets| == |envs| + 1 && FleetOk(fleets[0])
    && forall i :: 0 <= i < |envs| ==> TickOf(c, desired, fleets[i], envs[i], fleets[i + 1])
  }

  predicate Uniform(c: Settings, f: Machinery, size: nat)
    requires Valid(c)
  {
    forall i :: i in f ==> Vcpus(c, f[i]) == size
  }

  // ---- exact covers ----

  /** The capacity of n machines of one size, n * size. */
  function Units(n: nat, size: nat): nat {
    if n == 0 then 0 else size + Units(n - 1, size)
  }

  lemma {:induction false} UnitsIsProduct(n: nat, size: nat)
    ensures Units(n, size) == n * size
  {
    if n > 0 {
      UnitsIsProduct(n - 1, size);
      assert n * size == (n - 1) * size + size;
    }
  }

  lemma {:induction false} UnitsAdd(m: nat, n: nat, size: nat)
    ensures Units(m + n, size) == Units(m, size) + Units(n, size)
  {
    if m > 0 {
      UnitsAdd(m - 1, n, size);
    }
  }

  lemma {:induction false} UnitsGrow(m: nat, n: nat, size: nat)
    requires m <= n
    ensures Units(m, size) <= Units(n, size)
  {
    if m > 0 {
      UnitsGrow(m - 1, n - 1, size);
    }
  }

  /** With machines of one size, a need of n of them takes exactly n, or all there are. */
  lemma {:induction false} CoverExact(c: Settings, order: seq<Machine>, size: nat, n: nat)
    requires Valid(c) && size >= 1 && forall m :: m in order ==> Vcpus(c, m) == size
    ensures var k := Cover(c, order, Units(n, size));
      k == Min(n, |order|) && Sum(c, order[..k]) == Units(k, size)
  {
    if n > 0 && order != [] {
      assert order[0] in order;
      CoverExact(c, order[1..], size, n - 1);
      var k := Cover(c, order, Units(n, size));
      assert order[..k][1..] == order[1..][..k - 1];
    }
  }

  lemma {:induction false} UniformSum(c: Settings, s: seq<Machine>, size: nat)
    requires Valid(c) && forall m :: m in s ==> Vcpus(c, m) == size
    ensures Sum(c, s) == Units(|s|, size)
  {
    if s != [] {
      assert s[0] in s;
      UniformSum(c, s[1..], size);
    }
  }

  lemma ActiveIsMultiple(c: Settings, f: Machinery, machines: seq<Machine>, size: nat)
    requires Valid(c) && FleetOk(f) && Listing(f, machines) && Uniform(c, f, size)
    ensures Sum(c, Keep(IsActive, machines)) == Units(|Keep(IsActive, machines)|, size)
  {
    forall m | m in Keep(IsActive, machines) ensures Vcpus(c, m) == size {
      KeepMembers(IsActive, machines, m);
    }
    UniformSum(c, Keep(IsActive, machines), size);
  }

  lemma CoverAtMost(c: Settings, order: seq<Machine>, size: nat, n: nat)
    requires Valid(c) && size >= 1 && forall m :: m in order ==> Vcpus(c, m) == size
    ensures Cover(c, order, Units(n, size)) <= |order|
    ensures 0 <= Sum(c, order[..Cover(c, order, Units(n, size))]) <= Units(n, size)
  {
    CoverExact(c, order, size, n);
    UnitsGrow(Min(n, |order|), n, size);
  }

  /** Reclaiming never overshoots a deficit of whole machines. */
  lemma ReclaimExact(c: Settings, f: Machinery, machines: seq<Machine>, desired: int, size: nat, n: nat)
    requires Valid(c) && FleetOk(f) && Listing(f, machines) && Uniform(c, f, size) && size >= 1
    requires desired - Sum(c, Keep(IsActive, machines)) == Units(n, size)
    ensures 0 <= Sum(c, Reclaimed(c, machines, desired)) <= Units(n, size)
  {
    var order := SweepOrder(Keep(IsDraining, machines));
    OrderIsListed(f, machines, IsDraining, {}, |order|);
    assert order[..|order|] == order;
    CoverAtMost(c, order, size, n);
  }

  /** Cordoning meets a surplus of whole machines exactly. */
  lemma CordonExact(c: Settings, f: Machinery, machines: seq<Machine>, desired: int, busy: set<string>, size: nat, n: nat)
    requires Valid(c) && FleetOk(f) && Listing(f, machines) && Uniform(c, f, size) && size >= 1
    requires Sum(c, Keep(IsActive, machines)) - desired == Units(n, size)
    requires n <= |VictimOrder(Keep(IsActive, machines), busy)|
    ensures Sum(c, Victims(c, machines, desired, busy)) == Units(n, size)
  {
    var order := VictimOrder(Keep(IsActive, machines), busy);
    OrderIsListed(f, machines, IsActive, busy, |order|);
    assert order[..|order|] == order;
    CoverExact(c, order, size, n);
  }

  lemma AllActiveAreCandidates(f: Machinery, machines: seq<Machine>, busy: set<string>)
    requires FleetOk(f) && Listing(f, machines)
    ensures |VictimOrder(Keep(IsActive, machines), busy)| == |Keep(IsActive, machines)|
  {
    var active := Keep(IsActive, machines);
    SortedIsOrdered(busy, active);
    forall m | m in Sorted(busy, active) ensures Identified(m) {
      assert m in multiset(Sorted(busy, active));
      KeepMembers(IsActive, machines, m);
    }
    KeepAll(Identified, Sorted(busy, active));
    assert |Sorted(busy, active)| == |multiset(Sorted(busy, active))| == |multiset(active)| == |active|;
  }

  /** What is active, less the cordoned, plus the reclaimed and the created, is the target. */
  ghost predicate LandsExactly(c: Settings, machines: seq<Machine>, desired: int, busy: set<string>, now: int)
    requires Valid(c)
  {
    Sum(c, Keep(IsActive, machines)) - Sum(c, Victims(c, machines, desired, busy)) + Sum(c, Reclaimed(c, machines, desired))
    + PlanOf(c, machines, desired, Some(busy), now).create == desired
  }

  lemma DeficitIsMet(c: Settings, f: Machinery, machines: seq<Machine>, desired: int, busy: set<string>, now: int, size: nat, n: nat)
    requires Valid(c) && FleetOk(f) && Listing(f, machines) && Uniform(c, f, size) && size >= 1
    requires desired - Sum(c, Keep(IsActive, machines)) == Units(n, size)
    ensures LandsExactly(c, machines, desired, busy, now)
  {
    LeftAfterReclaim(c, machines, desired, busy, now);
    ReclaimExact(c, f, machines, desired, size, n);
    NoSurplus(c, machines, desired, busy);
  }

  lemma SurplusIsTaken(c: Settings, f: Machinery, machines: seq<Machine>, desired: int, busy: set<string>, now: int, size: nat, n: nat)
    requires Valid(c) && FleetOk(f) && Listing(f, machines) && Uniform(c, f, size) && size >= 1
    requires Sum(c, Keep(IsActive, machines)) - desired == Units(n, size) && n <= |Keep(IsActive, machines)|
    ensures LandsExactly(c, machines, desired, busy, now)
  {
    LeftAfterReclaim(c, machines, desired, busy, now);
    AllActiveAreCandidates(f, machines, busy);
    CordonExact(c, f, machines, desired, busy, size, n);
    NoDeficit(c, machines, desired);
  }

  /** Cordons and reclaims of whole machines leave, with the create, exactly the target. */
  lemma PlanIsExact(c: Settings, f: Machinery, machines: seq<Machine>, desired: int, busy: set<string>, now: int, size: nat, target: nat)
    requires Valid(c) && FleetOk(f) && Listing(f, machines) && Uniform(c, f, size) && size >= 1
    requires desired == Units(target, size)
    ensures LandsExactly(c, machines, desired, busy, now)
  {
    var n := |Keep(IsActive, machines)|;
    ActiveIsMultiple(c, f, machines, size);
    if n <= target {
      UnitsAdd(n, target - n, size);
      DeficitIsMet(c, f, machines, desired, busy, now, size, target - n);
    } else {
      UnitsAdd(target, n - target, size);
      SurplusIsTaken(c, f, machines, desired, busy, now, size, n - target);
    }
  }

  /** One tick reaches the target exactly. */
  lemma OneTickReachesTarget(c: Settings, desired: int, f: Machinery, env: Env, f': Machinery, size: nat, target: nat)
    requires Valid(c) && FleetOk(f) && Uniform(c, f, size) && size >= 1 && desired == target * size
    requires TickOf(c, desired, f, env, f')
    ensures FleetOk(f') && ActiveSum(c, f') == desired
  {
    var machines := env.machines;
    var plan := EnvPlan(c, desired, env);
    var reclaimed, victims := Reclaimed(c, machines, desired), Victims(c, machines, desired, env.busy);
    UnitsIsProduct(target, size);
    PlanIsSets(c, f, machines, desired, env.busy, env.now);
    ActiveIdsAfter(c, f, plan, env.now, env.created, reclaimed, victims);
    ActiveSumAfter(c, f, plan, env.now, env.created, reclaimed, victims);
    CurrentIsActiveSum(c, f, machines, env.busy);
    PlanIsExact(c, f, machines, desired, env.busy, env.now, size, target);
  }

  // ---- at the target ----

  /** At the target a tick creates nothing, reclaims nothing and cordons nothing; the draining set only loses the terminated. */
  lemma TickAtTarget(c: Settings, desired: int, f: Machinery, env: Env, f': Machinery)
    requires Valid(c) && FleetOk(f) && ActiveSum(c, f) == desired && TickOf(c, desired, f, env, f')
    ensures var plan := EnvPlan(c, desired, env);
      && plan.create == 0 && plan.sweep.uncordon == [] && plan.cordon == []
      && FleetOk(f') && ActiveIds(f') == ActiveIds(f) && ActiveSum(c, f') == desired
      && DrainingIds(f') == DrainingIds(f) - Elements(plan.sweep.terminate)
      && (forall i :: i in f' ==> i in f && f'[i] == f[i])
  {
    var machines := env.machines;
    var plan := EnvPlan(c, desired, env);
    PlanAtTarget(c, desired, f, env);
    ActiveSumAfter(c, f, plan, env.now, env.created, [], []);
    ActiveIdsAfter(c, f, plan, env.now, env.created, [], []);
    NothingDelivered(c, env.created);
    assert IdSet([]) == {} && env.created.Keys == {};
    NothingRetagged(c, f, plan, env.now);
  }

  lemma PlanAtTarget(c: Settings, desired: int, f: Machinery, env: Env)
    requires Valid(c) && FleetOk(f) && ActiveSum(c, f) == desired && Listing(f, env.machines)
    ensures var plan := EnvPlan(c, desired, env);
      plan.create == 0 && plan.sweep.uncordon == [] && plan.cordon == [] && PlanSets(c, f, plan, [], [])
  {
    CurrentIsActiveSum(c, f, env.machines, env.busy);
    PlanIsSets(c, f, env.machines, desired, env.busy, env.now);
    NothingAtTarget(c, desired, env);
  }

  lemma NothingRetagged(c: Settings, f: Machinery, plan: Plan, now: int)
    requires plan.sweep.uncordon == [] && plan.cordon == []
    ensures forall i :: i in After(c, f, plan, now, map[]) ==> i in f && After(c, f, plan, now, map[])[i] == f[i]
  {
  }

  lemma NothingAtTarget(c: Settings, desired: int, env: Env)
    requires Valid(c) && Sum(c, Keep(IsActive, env.machines)) == desired
    ensures var plan := EnvPlan(c, desired, env);
      plan.create == 0 && plan.sweep.uncordon == [] && plan.cordon == []
    ensures Reclaimed(c, env.machines, desired) == [] && Victims(c, env.machines, desired, env.busy) == []
  {
  }

  /** A draining machine whose deadline has passed is terminated by a tick at the target. */
  lemma ExpiredIsTerminated(c: Settings, desired: int, f: Machinery, env: Env, id: string)
    requires Valid(c) && FleetOk(f) && Listing(f, env.machines) && Sum(c, Keep(IsActive, env.machines)) == desired
    requires id in DrainingIds(f) && f[id].deadline.Num? && env.now >= f[id].deadline.n
    ensures id in EnvPlan(c, desired, env).sweep.terminate
  {
    var draining := Keep(IsDraining, env.machines);
    assert id in IdSet(env.machines);
    KeepMembers(IsDraining, env.machines, f[id]);
    KeepDistinct(IsDraining, env.machines);
    CoverIsShortest(c, SweepOrder(draining), 0);
    SweepVerdict(c, draining, 0, Some(env.busy), env.now, f[id]);
    NothingAtTarget(c, desired, env);
  }

  lemma NothingToSweep(c: Settings, desired: int, env: Env)
    requires Valid(c) && Keep(IsDraining, env.machines) == []
    ensures var sweep := EnvPlan(c, desired, env).sweep;
      sweep.uncordon == [] && sweep.terminate == [] && sweep.resend == [] && sweep.left == desired - Sum(c, Keep(IsActive, env.machines))
  {
  }

  lemma SameFleet(f: Machinery, f': Machinery)
    requires ActiveIds(f') == ActiveIds(f) && DrainingIds(f) == {}
    requires forall i :: i in f' ==> i in f && f'[i] == f[i]
    ensures f' == f
  {
    forall i | i in f ensures i in f' {
      assert i !in DrainingIds(f);
      assert i in ActiveIds(f);
    }
  }

  /** With nothing draining and the target met, a tick does nothing at all. */
  lemma IdleTick(c: Settings, desired: int, f: Machinery, env: Env, f': Machinery)
    requires Valid(c) && FleetOk(f) && ActiveSum(c, f) == desired && DrainingIds(f) == {}
    requires TickOf(c, desired, f, env, f')
    ensures EnvPlan(c, desired, env) == Plan(Sweep([], [], [], 0), 0, []) && f' == f
  {
    TickAtTarget(c, desired, f, env, f');
    CurrentIsActiveSum(c, f, env.machines, env.busy);
    forall m | m in env.machines ensures !m.draining {
      assert f[m.id] == m && m.id !in DrainingIds(f);
    }
    KeepNone(IsDraining, env.machines);
    NothingToSweep(c, desired, env);
    SameFleet(f, f');
  }

  // ---- main result ----

  /** Every readable deadline of a draining machine is at most `horizon`. */
  predicate DrainsBy(f: Machinery, horizon: int) {
    forall i :: i in f && f[i].draining ==> f[i].deadline.Num? && f[i].deadline.n <= horizon
  }

  lemma {:induction false} StaysAtTarget(c: Settings, desired: int, fleets: seq<Machinery>, envs: seq<Env>, i: nat)
    requires Valid(c) && Ticks(c, desired, fleets, envs) && 1 <= i < |fleets|
    requires FleetOk(fleets[1]) && ActiveSum(c, fleets[1]) == desired
    ensures FleetOk(fleets[i]) && ActiveSum(c, fleets[i]) == desired && ActiveIds(fleets[i]) == ActiveIds(fleets[1])
    ensures forall m :: m in fleets[i] ==> m in fleets[1] && fleets[i][m] == fleets[1][m]
  {
    if i > 1 {
      StaysAtTarget(c, desired, fleets, envs, i - 1);
      TickAtTarget(c, desired, fleets[i - 1], envs[i - 1], fleets[i]);
    }
  }

  /**
    Convergence: from the second tick on nothing is created, cordoned or reclaimed,
    the active machines never change again and the draining set only shrinks; a tick
    whose clock has passed every deadline empties it, and every tick after that is a
    no-op.
   */
  lemma Converges(c: Settings, desired: int, fleets: seq<Machinery>, envs: seq<Env>, size: nat, target: nat, horizon: int, i: nat)
    requires Valid(c) && Ticks(c, desired, fleets, envs) && 1 <= i < |envs|
    requires size >= 1 && Uniform(c, fleets[0], size) && desired == target * size
    requires DrainsBy(fleets[1], horizon)
    ensures ActiveSum(c, fleets[i]) == desired
    ensures var plan := EnvPlan(c, desired, envs[i]); plan.create == 0 && plan.sweep.uncordon == [] && plan.cordon == []
    ensures ActiveIds(fleets[i + 1]) == ActiveIds(fleets[i]) && DrainingIds(fleets[i + 1]) <= DrainingIds(fleets[i])
    ensures envs[i].now >= horizon ==> DrainingIds(fleets[i + 1]) == {}
    ensures DrainingIds(fleets[i]) == {} ==> fleets[i + 1] == fleets[i] && EnvPlan(c, desired, envs[i]) == Plan(Sweep([], [], [], 0), 0, [])
  {
    OneTickReachesTarget(c, desired, fleets[0], envs[0], fleets[1], size, target);
    StaysAtTarget(c, desired, fleets, envs, i);
    TickAtTarget(c, desired, fleets[i], envs[i], fleets[i + 1]);
    CurrentIsActiveSum(c, fleets[i], envs[i].machines, envs[i].busy);
    if envs[i].now >= horizon {
      forall id | id in DrainingIds(fleets[i]) ensures id in EnvPlan(c, desired, envs[i]).sweep.terminate {
        ExpiredIsTerminated(c, desired, fleets[i], envs[i], id);
      }
    }
    if DrainingIds(fleets[i]) == {} {
      IdleTick(c, desired, fleets[i], envs[i], fleets[i + 1]);
    }
  }
}
