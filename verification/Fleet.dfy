/**
  The fleet across ticks: how near the target one tick lands from any fleet, and
  that repeated ticks converge.  Every machine has an id, the busy set is known, and
  what a create asks for is delivered before the next tick.
 */
module Fleet {
  import opened Prelude
  import opened Machines
  import opened Capacity
  import opened Selection

  type Machinery = map<string, Machine>

  predicate FleetOk(f: Machinery) {
    forall i :: i in f ==> f[i].id == i && i != ""
  }

  function IdSet(s: seq<Machine>): set<string> {
    set m | m in s :: m.id
  }

  /** `machines` is the fleet, listed once each in some order. */
  ghost predicate Listing(f: Machinery, machines: seq<Machine>) {
    && DistinctIds(machines) && IdSet(machines) == f.Keys
    && forall m :: m in machines ==> m.id in f && f[m.id] == m
  }

  function ActiveIds(f: Machinery): set<string> {
    set i | i in f && !f[i].draining
  }

  function DrainingIds(f: Machinery): set<string> {
    set i | i in f && f[i].draining
  }

  ghost function SumIds(c: Settings, f: Machinery, ids: set<string>): int
    requires Valid(c) && ids <= f.Keys
  {
    if ids == {} then 0 else
    var i :| i in ids;
    Vcpus(c, f[i]) + SumIds(c, f, ids - {i})
  }

  ghost function ActiveSum(c: Settings, f: Machinery): int
    requires Valid(c)
  {
    SumIds(c, f, ActiveIds(f))
  }

  // ---- sums over sets of ids ----

  lemma {:induction false} SumIdsRemove(c: Settings, f: Machinery, ids: set<string>, x: string)
    requires Valid(c) && ids <= f.Keys && x in ids
    ensures SumIds(c, f, ids) == Vcpus(c, f[x]) + SumIds(c, f, ids - {x})
  {
    var i :| i in ids && SumIds(c, f, ids) == Vcpus(c, f[i]) + SumIds(c, f, ids - {i});
    if i != x {
      SumIdsRemove(c, f, ids - {i}, x);
      SumIdsRemove(c, f, ids - {x}, i);
      assert ids - {i} - {x} == ids - {x} - {i};
    }
  }

  lemma {:induction false} SumIdsUnion(c: Settings, f: Machinery, a: set<string>, b: set<string>)
    requires Valid(c) && a <= f.Keys && b <= f.Keys && a !! b
    ensures SumIds(c, f, a + b) == SumIds(c, f, a) + SumIds(c, f, b)
  {
    if a == {} {
      assert a + b == b;
    } else {
      var x :| x in a;
      SumIdsUnion(c, f, a - {x}, b);
      SumIdsRemove(c, f, a, x);
      SumIdsRemove(c, f, a + b, x);
      assert (a + b) - {x} == (a - {x}) + b;
    }
  }

  lemma {:induction false} SumIdsSame(c: Settings, f: Machinery, g: Machinery, ids: set<string>)
    requires Valid(c) && ids <= f.Keys && ids <= g.Keys
    requires forall i :: i in ids ==> Vcpus(c, f[i]) == Vcpus(c, g[i])
    ensures SumIds(c, f, ids) == SumIds(c, g, ids)
  {
    if ids != {} {
      var x :| x in ids;
      SumIdsRemove(c, f, ids, x);
      SumIdsRemove(c, g, ids, x);
      SumIdsSame(c, f, g, ids - {x});
    }
  }

  lemma {:induction false} SumOfListed(c: Settings, f: Machinery, s: seq<Machine>)
    requires Valid(c) && DistinctIds(s) && forall m :: m in s ==> m.id in f && f[m.id] == m
    ensures IdSet(s) <= f.Keys && Sum(c, s) == SumIds(c, f, IdSet(s))
  {
    if s != [] {
      SumOfListed(c, f, s[1..]);
      assert forall m :: m in s[1..] ==> m.id != s[0].id by {
        assert forall i :: 1 <= i < |s| ==> s[i].id != s[0].id;
      }
      assert IdSet(s) - {s[0].id} == IdSet(s[1..]);
      SumIdsRemove(c, f, IdSet(s), s[0].id);
    }
  }

  // ---- what a tick does to the fleet ----

  /** Machines delivered for a create: new ids, active, adding up to what was asked. */
  ghost predicate Delivered(c: Settings, f: Machinery, plan: Plan, created: Machinery)
    requires Valid(c)
  {
    && created.Keys !! f.Keys && FleetOk(created)
    && (forall i :: i in created ==> !created[i].draining)
    && SumIds(c, created, created.Keys) == plan.create
  }

  function Retag(c: Settings, m: Machine, plan: Plan, now: int): Machine {
    if m.id in plan.sweep.uncordon then m.(draining := false, deadline := Absent)
    else if m.id in plan.cordon then m.(draining := true, deadline := Num(now + c.drainSeconds))
    else m
  }

  function After(c: Settings, f: Machinery, plan: Plan, now: int, created: Machinery): Machinery {
    map i | i in f.Keys + created.Keys && i !in plan.sweep.terminate :: if i in created then created[i] else Retag(c, f[i], plan, now)
  }

  /** What the handler decided, as sets of ids of the fleet. */
  ghost predicate PlanSets(c: Settings, f: Machinery, plan: Plan, reclaimed: seq<Machine>, victims: seq<Machine>)
    requires Valid(c)
  {
    && IdSet(reclaimed) <= DrainingIds(f) && IdSet(victims) <= ActiveIds(f)
    && Elements(plan.sweep.uncordon) == IdSet(reclaimed) && Elements(plan.cordon) == IdSet(victims)
    && Elements(plan.sweep.terminate) <= DrainingIds(f) && Elements(plan.sweep.terminate) !! IdSet(reclaimed)
    && Sum(c, reclaimed) == SumIds(c, f, IdSet(reclaimed)) && Sum(c, victims) == SumIds(c, f, IdSet(victims))
  }

  lemma FleetOkAfter(c: Settings, f: Machinery, plan: Plan, now: int, created: Machinery)
    requires Valid(c) && FleetOk(f) && Delivered(c, f, plan, created)
    ensures FleetOk(After(c, f, plan, now, created))
  {
  }

  /** A machine of the old fleet that stays is active afterwards if it was active and not a victim, or was reclaimed. */
  lemma StayerAfter(c: Settings, f: Machinery, plan: Plan, now: int, created: Machinery, reclaimed: seq<Machine>, victims: seq<Machine>, i: string)
    requires Valid(c) && FleetOk(f) && PlanSets(c, f, plan, reclaimed, victims) && Delivered(c, f, plan, created) && i in f
    ensures i in After(c, f, plan, now, created) <==> i !in Elements(plan.sweep.terminate)
    ensures i in After(c, f, plan, now, created) ==>
      (After(c, f, plan, now, created)[i].draining <==>
       i in IdSet(victims) || (i in DrainingIds(f) && i !in IdSet(reclaimed)))
  {
  }

  lemma NewcomersAfter(c: Settings, f: Machinery, plan: Plan, now: int, created: Machinery, reclaimed: seq<Machine>, victims: seq<Machine>, i: string)
    requires Valid(c) && PlanSets(c, f, plan, reclaimed, victims) && Delivered(c, f, plan, created) && i in created
    ensures i in After(c, f, plan, now, created) && !After(c, f, plan, now, created)[i].draining
  {
    assert i !in f && i !in Elements(plan.sweep.terminate);
  }

  lemma ActiveAfter(c: Settings, f: Machinery, plan: Plan, now: int, created: Machinery, reclaimed: seq<Machine>, victims: seq<Machine>)
    requires Valid(c) && FleetOk(f) && PlanSets(c, f, plan, reclaimed, victims) && Delivered(c, f, plan, created)
    ensures ActiveIds(After(c, f, plan, now, created)) == (ActiveIds(f) - IdSet(victims)) + IdSet(reclaimed) + created.Keys
  {
    var reclaimedIds, victimIds := IdSet(reclaimed), IdSet(victims);
    forall i ensures i in ActiveIds(After(c, f, plan, now, created)) <==> i in (ActiveIds(f) - victimIds) + reclaimedIds + created.Keys {
      if i in created {
        NewcomersAfter(c, f, plan, now, created, reclaimed, victims, i);
      } else if i in f {
        StayerAfter(c, f, plan, now, created, reclaimed, victims, i);
      }
    }
  }

  lemma DrainingAfter(c: Settings, f: Machinery, plan: Plan, now: int, created: Machinery, reclaimed: seq<Machine>, victims: seq<Machine>)
    requires Valid(c) && FleetOk(f) && PlanSets(c, f, plan, reclaimed, victims) && Delivered(c, f, plan, created)
    ensures DrainingIds(After(c, f, plan, now, created)) ==
            DrainingIds(f) - IdSet(reclaimed) - Elements(plan.sweep.terminate) + IdSet(victims)
  {
    var reclaimedIds, victimIds, gone := IdSet(reclaimed), IdSet(victims), Elements(plan.sweep.terminate);
    forall i ensures i in DrainingIds(After(c, f, plan, now, created)) <==> i in DrainingIds(f) - reclaimedIds - gone + victimIds {
      if i in created {
        NewcomersAfter(c, f, plan, now, created, reclaimed, victims, i);
      } else if i in f {
        StayerAfter(c, f, plan, now, created, reclaimed, victims, i);
      }
    }
  }

  lemma ActiveIdsAfter(c: Settings, f: Machinery, plan: Plan, now: int, created: Machinery, reclaimed: seq<Machine>, victims: seq<Machine>)
    requires Valid(c) && FleetOk(f) && PlanSets(c, f, plan, reclaimed, victims) && Delivered(c, f, plan, created)
    ensures ActiveIds(After(c, f, plan, now, created)) == (ActiveIds(f) - IdSet(victims)) + IdSet(reclaimed) + created.Keys
    ensures DrainingIds(After(c, f, plan, now, created)) ==
            DrainingIds(f) - IdSet(reclaimed) - Elements(plan.sweep.terminate) + IdSet(victims)
    ensures FleetOk(After(c, f, plan, now, created))
  {
    FleetOkAfter(c, f, plan, now, created);
    ActiveAfter(c, f, plan, now, created, reclaimed, victims);
    DrainingAfter(c, f, plan, now, created, reclaimed, victims);
  }

  lemma ActiveSumAfter(c: Settings, f: Machinery, plan: Plan, now: int, created: Machinery, reclaimed: seq<Machine>, victims: seq<Machine>)
    requires Valid(c) && FleetOk(f) && PlanSets(c, f, plan, reclaimed, victims) && Delivered(c, f, plan, created)
    ensures ActiveSum(c, After(c, f, plan, now, created)) == ActiveSum(c, f) - Sum(c, victims) + Sum(c, reclaimed) + plan.create
  {
    var after := After(c, f, plan, now, created);
    ActiveIdsAfter(c, f, plan, now, created, reclaimed, victims);
    var stay := ActiveIds(f) - IdSet(victims);
    SumIdsUnion(c, after, stay + IdSet(reclaimed), created.Keys);
    SumIdsUnion(c, after, stay, IdSet(reclaimed));
    SumIdsUnion(c, f, stay, IdSet(victims));
    assert stay + IdSet(victims) == ActiveIds(f);
    SumIdsSame(c, f, after, stay);
    SumIdsSame(c, f, after, IdSet(reclaimed));
    SumIdsSame(c, created, after, created.Keys);
  }

  // ---- the handler's decision on a listed fleet ----

  /** The machines it takes to cover a need. */
  function Taken(c: Settings, order: seq<Machine>, need: int): (s: seq<Machine>)
    requires Valid(c)
  {
    CoverIsShortest(c, order, need);
    order[..Cover(c, order, need)]
  }

  lemma NothingTaken(c: Settings, order: seq<Machine>, need: int)
    requires Valid(c) && need <= 0
    ensures Taken(c, order, need) == []
  {
  }

  function Reclaimed(c: Settings, machines: seq<Machine>, desired: int): seq<Machine>
    requires Valid(c)
  {
    Taken(c, SweepOrder(Keep(IsDraining, machines)), desired - Sum(c, Keep(IsActive, machines)))
  }

  function Victims(c: Settings, machines: seq<Machine>, desired: int, busy: set<string>): seq<Machine>
    requires Valid(c)
  {
    Taken(c, VictimOrder(Keep(IsActive, machines), busy), Sum(c, Keep(IsActive, machines)) - desired)
  }

  lemma OrderIsListed(f: Machinery, machines: seq<Machine>, p: Machine -> bool, busy: set<string>, k: nat)
    requires FleetOk(f) && Listing(f, machines) && k <= |VictimOrder(Keep(p, machines), busy)|
    ensures var s := VictimOrder(Keep(p, machines), busy)[..k];
      DistinctIds(s) && forall m :: m in s ==> m in machines && p(m) && m.id in f && f[m.id] == m
  {
    var kept := Keep(p, machines);
    var order := VictimOrder(kept, busy);
    KeepDistinct(p, machines);
    SortedDistinct(busy, kept);
    KeepDistinct(Identified, Sorted(busy, kept));
    forall m | m in order[..k] ensures m in machines && p(m) {
      VictimOrderMembers(kept, busy, m);
      KeepMembers(p, machines, m);
    }
  }

  lemma ElementsOfIds(s: seq<Machine>)
    ensures Elements(Ids(s)) == IdSet(s)
  {
    forall id ensures id in Elements(Ids(s)) <==> id in IdSet(s) {
      InIds(s, id);
    }
  }

  lemma TerminatedIsDraining(c: Settings, f: Machinery, machines: seq<Machine>, desired: int, busy: set<string>, now: int, id: string)
    requires Valid(c) && FleetOk(f) && Listing(f, machines) && id in PlanOf(c, machines, desired, Some(busy), now).sweep.terminate
    ensures id in DrainingIds(f) && id !in PlanOf(c, machines, desired, Some(busy), now).sweep.uncordon
  {
    var draining := Keep(IsDraining, machines);
    var deficit := desired - Sum(c, Keep(IsActive, machines));
    CoverIsShortest(c, SweepOrder(draining), deficit);
    KeepDistinct(IsDraining, machines);
    var m := TerminatedIsSafe(c, draining, deficit, Some(busy), now, id);
    KeepMembers(IsDraining, machines, m);
    SweepVerdict(c, draining, deficit, Some(busy), now, m);
  }

  lemma TerminatedAreDraining(c: Settings, f: Machinery, machines: seq<Machine>, desired: int, busy: set<string>, now: int)
    requires Valid(c) && FleetOk(f) && Listing(f, machines)
    ensures var sweep := PlanOf(c, machines, desired, Some(busy), now).sweep;
      Elements(sweep.terminate) <= DrainingIds(f) && Elements(sweep.terminate) !! Elements(sweep.uncordon)
  {
    forall id | id in PlanOf(c, machines, desired, Some(busy), now).sweep.terminate
      ensures id in DrainingIds(f) && id !in PlanOf(c, machines, desired, Some(busy), now).sweep.uncordon
    {
      TerminatedIsDraining(c, f, machines, desired, busy, now, id);
    }
  }

  /** Listed machines as a set of ids of the fleet, with its sum. */
  ghost predicate Listed(c: Settings, f: Machinery, s: seq<Machine>)
    requires Valid(c)
  {
    && (forall m :: m in s ==> m.id in f && f[m.id] == m)
    && IdSet(s) <= f.Keys && Sum(c, s) == SumIds(c, f, IdSet(s))
  }

  lemma TakenIsListed(c: Settings, f: Machinery, machines: seq<Machine>, p: Machine -> bool, busy: set<string>, need: int)
    requires Valid(c) && FleetOk(f) && Listing(f, machines)
    ensures var s := Taken(c, VictimOrder(Keep(p, machines), busy), need); Listed(c, f, s) && forall m :: m in s ==> p(m)
  {
    var order := VictimOrder(Keep(p, machines), busy);
    CoverIsShortest(c, order, need);
    OrderIsListed(f, machines, p, busy, Cover(c, order, need));
    SumOfListed(c, f, Taken(c, order, need));
  }

  lemma ListedDraining(c: Settings, f: Machinery, s: seq<Machine>)
    requires Valid(c) && Listed(c, f, s) && forall m :: m in s ==> m.draining
    ensures IdSet(s) <= DrainingIds(f)
  {
  }

  lemma ListedActive(c: Settings, f: Machinery, s: seq<Machine>)
    requires Valid(c) && Listed(c, f, s) && forall m :: m in s ==> !m.draining
    ensures IdSet(s) <= ActiveIds(f)
  {
  }

  lemma ReclaimedIsListed(c: Settings, f: Machinery, machines: seq<Machine>, desired: int)
    requires Valid(c) && FleetOk(f) && Listing(f, machines)
    ensures Listed(c, f, Reclaimed(c, machines, desired)) && IdSet(Reclaimed(c, machines, desired)) <= DrainingIds(f)
  {
    TakenIsListed(c, f, machines, IsDraining, {}, desired - Sum(c, Keep(IsActive, machines)));
    ListedDraining(c, f, Reclaimed(c, machines, desired));
  }

  lemma VictimsAreListed(c: Settings, f: Machinery, machines: seq<Machine>, desired: int, busy: set<string>)
    requires Valid(c) && FleetOk(f) && Listing(f, machines)
    ensures Listed(c, f, Victims(c, machines, desired, busy)) && IdSet(Victims(c, machines, desired, busy)) <= ActiveIds(f)
  {
    TakenIsListed(c, f, machines, IsActive, busy, Sum(c, Keep(IsActive, machines)) - desired);
    ListedActive(c, f, Victims(c, machines, desired, busy));
  }

  lemma PlanNames(c: Settings, machines: seq<Machine>, desired: int, busy: set<string>, now: int)
    requires Valid(c)
    ensures var plan := PlanOf(c, machines, desired, Some(busy), now);
      && plan.sweep.uncordon == Ids(Reclaimed(c, machines, desired))
      && plan.cordon == Ids(Victims(c, machines, desired, busy))
  {
  }

  lemma PlanIsSets(c: Settings, f: Machinery, machines: seq<Machine>, desired: int, busy: set<string>, now: int)
    requires Valid(c) && FleetOk(f) && Listing(f, machines)
    ensures PlanSets(c, f, PlanOf(c, machines, desired, Some(busy), now), Reclaimed(c, machines, desired), Victims(c, machines, desired, busy))
  {
    var reclaimed, victims := Reclaimed(c, machines, desired), Victims(c, machines, desired, busy);
    PlanNames(c, machines, desired, busy, now);
    ReclaimedIsListed(c, f, machines, desired);
    VictimsAreListed(c, f, machines, desired, busy);
    ElementsOfIds(reclaimed);
    ElementsOfIds(victims);
    TerminatedAreDraining(c, f, machines, desired, busy, now);
  }

  lemma CurrentIsActiveSum(c: Settings, f: Machinery, machines: seq<Machine>, busy: set<string>)
    requires Valid(c) && FleetOk(f) && Listing(f, machines)
    ensures Sum(c, Keep(IsActive, machines)) == ActiveSum(c, f)
    ensures Sum(c, VictimOrder(Keep(IsActive, machines), busy)) == ActiveSum(c, f)
  {
    var active := Keep(IsActive, machines);
    KeepDistinct(IsActive, machines);
    forall m ensures m in active <==> m in machines && !m.draining {
      KeepMembers(IsActive, machines, m);
    }
    SumOfListed(c, f, active);
    forall i | i in ActiveIds(f) ensures i in IdSet(active) {
      assert i in IdSet(machines);
    }
    assert IdSet(active) == ActiveIds(f);
    SumOfSorted(c, busy, active);
    SortedDistinct(busy, active);
    KeepAll(Identified, Sorted(busy, active));
  }

  // ---- main result: one tick ----

  predicate SizesWithin(c: Settings, f: Machinery, largest: int)
    requires Valid(c)
  {
    forall i :: i in f ==> Vcpus(c, f[i]) <= largest
  }

  /** The last machine taken overshoots by less than one machine. */
  lemma TakenOvershoots(c: Settings, order: seq<Machine>, need: int, largest: int)
    requires Valid(c) && need > 0 && largest >= 1 && forall m :: m in order ==> Vcpus(c, m) <= largest
    ensures Sum(c, Taken(c, order, need)) < need + largest
    ensures Sum(c, order) >= need ==> Sum(c, Taken(c, order, need)) >= need
  {
    CoverIsShortest(c, order, need);
    assert order[..|order|] == order;
    var k := Cover(c, order, need);
    if k > 0 {
      assert order[..k] == order[..k - 1] + [order[k - 1]];
      SumOfConcat(c, order[..k - 1], [order[k - 1]]);
    }
  }

  lemma SizesInOrder(c: Settings, f: Machinery, machines: seq<Machine>, p: Machine -> bool, busy: set<string>, largest: int)
    requires Valid(c) && FleetOk(f) && Listing(f, machines) && SizesWithin(c, f, largest)
    ensures forall m :: m in VictimOrder(Keep(p, machines), busy) ==> Vcpus(c, m) <= largest
  {
    var order := VictimOrder(Keep(p, machines), busy);
    OrderIsListed(f, machines, p, busy, |order|);
    assert order[..|order|] == order;
  }

  /** Reclaiming raises the active capacity to the target or past it by less than one machine, or reclaims everything. */
  lemma ReclaimBound(c: Settings, f: Machinery, machines: seq<Machine>, desired: int, largest: int)
    requires Valid(c) && FleetOk(f) && Listing(f, machines) && SizesWithin(c, f, largest) && largest >= 1
    ensures var deficit := desired - Sum(c, Keep(IsActive, machines));
      var sum := Sum(c, Reclaimed(c, machines, desired));
      if deficit > 0 then sum < deficit + largest else sum == 0
  {
    var order, deficit := SweepOrder(Keep(IsDraining, machines)), desired - Sum(c, Keep(IsActive, machines));
    if deficit > 0 {
      SizesInOrder(c, f, machines, IsDraining, {}, largest);
      TakenOvershoots(c, order, deficit, largest);
    } else {
      NothingTaken(c, order, deficit);
    }
  }

  /** Cordoning takes at least the surplus, and less than one machine more. */
  lemma CordonBound(c: Settings, f: Machinery, machines: seq<Machine>, desired: int, busy: set<string>, largest: int)
    requires Valid(c) && desired >= 0 && FleetOk(f) && Listing(f, machines) && SizesWithin(c, f, largest) && largest >= 1
    ensures var surplus := Sum(c, Keep(IsActive, machines)) - desired;
      var sum := Sum(c, Victims(c, machines, desired, busy));
      if surplus > 0 then surplus <= sum < surplus + largest else sum == 0
  {
    var order, surplus := VictimOrder(Keep(IsActive, machines), busy), Sum(c, Keep(IsActive, machines)) - desired;
    if surplus > 0 {
      CurrentIsActiveSum(c, f, machines, busy);
      SizesInOrder(c, f, machines, IsActive, busy, largest);
      TakenOvershoots(c, order, surplus, largest);
    } else {
      NothingTaken(c, order, surplus);
    }
  }

  /**
    A tick from any fleet lands within one machine of the target, exactly on it
    whenever it creates.
   */
  lemma TickLandsNearTarget(c: Settings, f: Machinery, machines: seq<Machine>, desired: int, busy: set<string>, now: int,
                            created: Machinery, largest: int)
    requires Valid(c) && desired >= 0 && FleetOk(f) && Listing(f, machines) && SizesWithin(c, f, largest) && largest >= 1
    requires Delivered(c, f, PlanOf(c, machines, desired, Some(busy), now), created)
    ensures var plan := PlanOf(c, machines, desired, Some(busy), now);
      var active := ActiveSum(c, After(c, f, plan, now, created));
      && desired - largest < active < desired + largest
      && (plan.create > 0 ==> active == desired)
  {
    var plan := PlanOf(c, machines, desired, Some(busy), now);
    var reclaimed, victims := Reclaimed(c, machines, desired), Victims(c, machines, desired, busy);
    PlanIsSets(c, f, machines, desired, busy, now);
    ActiveSumAfter(c, f, plan, now, created, reclaimed, victims);
    CurrentIsActiveSum(c, f, machines, busy);
    ReclaimBound(c, f, machines, desired, largest);
    CordonBound(c, f, machines, desired, busy, largest);
    LeftAfterReclaim(c, machines, desired, busy, now);
  }

  lemma LeftAfterReclaim(c: Settings, machines: seq<Machine>, desired: int, busy: set<string>, now: int)
    requires Valid(c)
    ensures PlanOf(c, machines, desired, Some(busy), now).create ==
            Max(0, desired - Sum(c, Keep(IsActive, machines)) - Sum(c, Reclaimed(c, machines, desired)))
  {
  }

  /** The target is within the configured bounds, and covers the backlog's pairs unless the maximum clamps it. */
  lemma DesiredCoversBacklog(c: Settings, backlog: int)
    requires Valid(c)
    ensures var pairs := DesiredPairs(c, backlog);
      && c.minVcpus <= Desired(c, backlog) <= Max(c.minVcpus, c.maxVcpus)
      && (backlog > 0 ==> pairs * c.targetPerPair >= backlog && (pairs - 1) * c.targetPerPair < backlog)
      && (backlog <= 0 ==> pairs == 0 && Desired(c, backlog) == Max(c.minVcpus, Min(c.maxVcpus, 0)))
      && Desired(c, backlog) <= Max(c.minVcpus, pairs * c.pairCpu)
      && (Desired(c, backlog) >= pairs * c.pairCpu || Desired(c, backlog) == Max(c.minVcpus, c.maxVcpus))
  {
  }

  // ---- when a cordon goes below the target ----

  lemma {:induction false} PrefixSumsGrow(c: Settings, order: seq<Machine>, i: nat, j: nat)
    requires Valid(c) && i < j <= |order|
    ensures Sum(c, order[..i]) < Sum(c, order[..j])
  {
    assert order[..j] == order[..i] + order[i..j];
    SumOfConcat(c, order[..i], order[i..j]);
    SumAtLeastCount(c, order[i..j]);
  }

  /** Some prefix of the order adds up to at least `least` and at most `most`. */
  ghost predicate SomePrefixWithin(c: Settings, order: seq<Machine>, least: int, most: int)
    requires Valid(c)
  {
    exists j :: 0 <= j <= |order| && least <= Sum(c, order[..j]) <= most
  }

  /** What is taken stays within a bound exactly when some covering prefix does. */
  lemma TakenWithin(c: Settings, order: seq<Machine>, need: int, most: int)
    requires Valid(c) && Sum(c, order) >= need
    ensures Sum(c, Taken(c, order, need)) >= need
    ensures Sum(c, Taken(c, order, need)) <= most <==> SomePrefixWithin(c, order, need, most)
  {
    CoverIsShortest(c, order, need);
    assert order[..|order|] == order;
    var k := Cover(c, order, need);
    forall j | k < j <= |order| ensures Sum(c, order[..j]) > Sum(c, order[..k]) {
      PrefixSumsGrow(c, order, k, j);
    }
  }

  /** A tick with a surplus only cordons. */
  lemma OnlyCordons(c: Settings, f: Machinery, machines: seq<Machine>, desired: int, busy: set<string>, now: int)
    requires Valid(c) && FleetOk(f) && Listing(f, machines) && Sum(c, Keep(IsActive, machines)) > desired
    ensures var plan := PlanOf(c, machines, desired, Some(busy), now);
      plan.create == 0 && PlanSets(c, f, plan, [], Victims(c, machines, desired, busy))
  {
    NoDeficit(c, machines, desired);
    LeftAfterReclaim(c, machines, desired, busy, now);
    PlanIsSets(c, f, machines, desired, busy, now);
  }

  lemma ActiveAfterCordon(c: Settings, f: Machinery, machines: seq<Machine>, desired: int, busy: set<string>, now: int)
    requires Valid(c) && desired >= 0 && FleetOk(f) && Listing(f, machines) && ActiveSum(c, f) > desired
    ensures ActiveSum(c, After(c, f, PlanOf(c, machines, desired, Some(busy), now), now, map[])) ==
            ActiveSum(c, f) - Sum(c, Victims(c, machines, desired, busy))
  {
    CurrentIsActiveSum(c, f, machines, busy);
    OnlyCordons(c, f, machines, desired, busy, now);
    ActiveSumAfter(c, f, PlanOf(c, machines, desired, Some(busy), now), now, map[], [], Victims(c, machines, desired, busy));
  }

  /**
    A tick with a surplus leaves less than a bound exactly when no prefix of the victim
    order covers the surplus within what may go: then the last victim is cordoned
    whole.
   */
  lemma CordonUndershoots(c: Settings, f: Machinery, machines: seq<Machine>, desired: int, bound: int, busy: set<string>, now: int)
    requires Valid(c) && desired >= 0 && FleetOk(f) && Listing(f, machines) && ActiveSum(c, f) > desired
    ensures ActiveSum(c, After(c, f, PlanOf(c, machines, desired, Some(busy), now), now, map[])) < bound <==>
            !SomePrefixWithin(c, VictimOrder(Keep(IsActive, machines), busy), ActiveSum(c, f) - desired, ActiveSum(c, f) - bound)
  {
    ActiveAfterCordon(c, f, machines, desired, busy, now);
    VictimsWithin(c, f, machines, desired, ActiveSum(c, f) - bound, busy);
  }

  lemma VictimsWithin(c: Settings, f: Machinery, machines: seq<Machine>, desired: int, most: int, busy: set<string>)
    requires Valid(c) && desired >= 0 && FleetOk(f) && Listing(f, machines)
    ensures Sum(c, Victims(c, machines, desired, busy)) <= most <==>
            SomePrefixWithin(c, VictimOrder(Keep(IsActive, machines), busy), ActiveSum(c, f) - desired, most)
  {
    var order, need := VictimOrder(Keep(IsActive, machines), busy), ActiveSum(c, f) - desired;
    CurrentIsActiveSum(c, f, machines, busy);
    assert Victims(c, machines, desired, busy) == Taken(c, order, need);
    TakenWithin(c, order, need, most);
  }

  /**
    When a tick takes the active capacity below the configured minimum: exactly when it
    has a surplus and no prefix of the victim order covers it and still leaves the
    minimum.
   */
  lemma CordonMissesMinimum(c: Settings, f: Machinery, machines: seq<Machine>, backlog: int, busy: set<string>, now: int, created: Machinery)
    requires Valid(c) && c.minVcpus >= 0 && FleetOk(f) && Listing(f, machines)
    requires Delivered(c, f, PlanOf(c, machines, Desired(c, backlog), Some(busy), now), created)
    ensures var desired, active := Desired(c, backlog), ActiveSum(c, f);
      ActiveSum(c, After(c, f, PlanOf(c, machines, desired, Some(busy), now), now, created)) < c.minVcpus <==>
      active > desired && !SomePrefixWithin(c, VictimOrder(Keep(IsActive, machines), busy), active - desired, active - c.minVcpus)
  {
    var desired := Desired(c, backlog);
    assert desired >= c.minVcpus;
    if ActiveSum(c, f) > desired {
      CurrentIsActiveSum(c, f, machines, busy);
      OnlyCordons(c, f, machines, desired, busy, now);
      NothingDelivered(c, created);
      CordonUndershoots(c, f, machines, desired, c.minVcpus, busy, now);
    } else {
      NoShortfall(c, f, machines, desired, busy, now, created);
    }
  }

  lemma NothingDelivered(c: Settings, created: Machinery)
    requires Valid(c) && SumIds(c, created, created.Keys) == 0
    ensures created == map[]
  {
    if i :| i in created {
      SumIdsRemove(c, created, created.Keys, i);
      SumIdsNonNegative(c, created, created.Keys - {i});
    }
  }

  lemma {:induction false} SumIdsNonNegative(c: Settings, f: Machinery, ids: set<string>)
    requires Valid(c) && ids <= f.Keys
    ensures SumIds(c, f, ids) >= 0
  {
    if ids != {} {
      var x :| x in ids;
      SumIdsRemove(c, f, ids, x);
      SumIdsNonNegative(c, f, ids - {x});
    }
  }

  /** Without a surplus a tick reaches the target, by reclaiming and creating. */
  lemma NoShortfall(c: Settings, f: Machinery, machines: seq<Machine>, desired: int, busy: set<string>, now: int, created: Machinery)
    requires Valid(c) && FleetOk(f) && Listing(f, machines) && ActiveSum(c, f) <= desired
    requires Delivered(c, f, PlanOf(c, machines, desired, Some(busy), now), created)
    ensures ActiveSum(c, After(c, f, PlanOf(c, machines, desired, Some(busy), now), now, created)) >= desired
  {
    CurrentIsActiveSum(c, f, machines, busy);
    PlanIsSets(c, f, machines, desired, busy, now);
    NoSurplus(c, machines, desired, busy);
    LeftAfterReclaim(c, machines, desired, busy, now);
    ActiveSumAfter(c, f, PlanOf(c, machines, desired, Some(busy), now), now, created, Reclaimed(c, machines, desired), []);
  }

  lemma NoDeficit(c: Settings, machines: seq<Machine>, desired: int)
    requires Valid(c) && Sum(c, Keep(IsActive, machines)) >= desired
    ensures Reclaimed(c, machines, desired) == []
  {
    NothingTaken(c, SweepOrder(Keep(IsDraining, machines)), desired - Sum(c, Keep(IsActive, machines)));
  }

  lemma NoSurplus(c: Settings, machines: seq<Machine>, desired: int, busy: set<string>)
    requires Valid(c) && Sum(c, Keep(IsActive, machines)) <= desired
    ensures Victims(c, machines, desired, busy) == []
  {
    NothingTaken(c, VictimOrder(Keep(IsActive, machines), busy), Sum(c, Keep(IsActive, machines)) - desired);
  }

  const MINIMAL := Settings(1, 2048, 1, 64, 4, 1500)
  const QUAD := Machine("i-1", "2024", "", Num(4), Absent, Absent, Absent, false, Absent)

  /** One machine of four vCPUs and a target of one, also the minimum: the tick leaves nothing active. */
  lemma CordonBelowMinimum()
    ensures Desired(MINIMAL, 1) == MINIMAL.minVcpus == 1
    ensures PlanOf(MINIMAL, [QUAD], Desired(MINIMAL, 1), Some({}), 0).cordon == ["i-1"]
    ensures ActiveIds(After(MINIMAL, map["i-1" := QUAD], PlanOf(MINIMAL, [QUAD], Desired(MINIMAL, 1), Some({}), 0), 0, map[])) == {}
  {
    var one := [QUAD];
    assert one == [QUAD] + [];
    assert IsActive(QUAD) && !IsDraining(QUAD);
    assert Keep(IsActive, one) == [QUAD] + Keep(IsActive, one[1..]) == one;
    assert Keep(IsDraining, one) == [] + Keep(IsDraining, one[1..]) == [];
    assert Insert({}, QUAD, []) == one && Sorted({}, one) == one;
    assert Identified(QUAD) && Keep(Identified, one) == [QUAD] + Keep(Identified, one[1..]);
    assert VictimOrder(one, {}) == one;
    assert Sum(MINIMAL, one) == 4 && Cover(MINIMAL, one, 3) == 1;
  }
}
