/** Which machines a tick touches, and why: the order of the victims, the safety of the sweep. */
module Selection {
  import opened Prelude
  import opened Machines
  import opened Capacity

  // ---- orders keep their members ----

  lemma {:induction false} KeepIsOrdered(p: Machine -> bool, busy: set<string>, s: seq<Machine>)
    requires Ordered(busy, s)
    ensures Ordered(busy, Keep(p, s))
  {
    if s != [] {
      assert forall i, j :: 0 <= i < j < |s[1..]| ==> Precedes(busy, s[1..][i], s[1..][j]);
      KeepIsOrdered(p, busy, s[1..]);
      var rest := Keep(p, s[1..]);
      forall j | 0 <= j < |rest| ensures Precedes(busy, s[0], rest[j]) {
        KeepMembers(p, s[1..], rest[j]);
        var i :| 0 <= i < |s[1..]| && s[1..][i] == rest[j];
        assert s[i + 1] == rest[j];
      }
    }
  }

  lemma VictimOrderMembers(active: seq<Machine>, busy: set<string>, m: Machine)
    ensures m in VictimOrder(active, busy) <==> m in active && m.id != ""
  {
    SortedIsOrdered(busy, active);
    KeepMembers(Identified, Sorted(busy, active), m);
    assert m in multiset(Sorted(busy, active)) <==> m in multiset(active);
  }

  lemma VictimOrderIsOrdered(active: seq<Machine>, busy: set<string>)
    ensures Ordered(busy, VictimOrder(active, busy))
  {
    SortedIsOrdered(busy, active);
    KeepIsOrdered(Identified, busy, Sorted(busy, active));
  }

  // ---- scale-down ----

  /**
    The victims are the shortest prefix of the idle-first, oldest-first order that
    covers the surplus: dropping the last one no longer covers it.
   */
  lemma VictimsAreShortest(c: Settings, active: seq<Machine>, surplus: int, busy: set<string>)
    requires Valid(c) && surplus > 0
    ensures Cover(c, VictimOrder(active, busy), surplus) <= |VictimOrder(active, busy)|
    ensures var order, k := VictimOrder(active, busy), Cover(c, VictimOrder(active, busy), surplus);
      && VictimsOf(c, active, surplus, Some(busy)) == Ids(order[..k])
      && Ordered(busy, order)
      && (Sum(c, order) >= surplus ==> Sum(c, order[..k]) >= surplus)
      && (k > 0 ==> Sum(c, order[..k - 1]) < surplus)
  {
    var order := VictimOrder(active, busy);
    CoverIsShortest(c, order, surplus);
    VictimOrderIsOrdered(active, busy);
    assert order[..|order|] == order;
  }

  /** If any busy machine is chosen, every idle active machine with an id is chosen. */
  lemma IdleBeforeBusy(c: Settings, active: seq<Machine>, surplus: int, busy: set<string>, chosen: string, idle: Machine)
    requires Valid(c) && chosen in VictimsOf(c, active, surplus, Some(busy)) && chosen in busy
    requires idle in active && idle.id != "" && idle.id !in busy
    ensures idle.id in VictimsOf(c, active, surplus, Some(busy))
  {
    var order := VictimOrder(active, busy);
    CoverIsShortest(c, order, surplus);
    VictimOrderIsOrdered(active, busy);
    VictimOrderMembers(active, busy, idle);
    var victims := VictimsOf(c, active, surplus, Some(busy));
    var p :| 0 <= p < |victims| && victims[p] == chosen;
    var q :| 0 <= q < |order| && order[q] == idle;
    assert order[p].id == chosen && !Precedes(busy, order[p], idle);
    assert q < |victims|;
    assert victims[q] == idle.id;
  }

  /** Nothing is chosen when the busy set is unknown. */
  lemma NoVictimsWhenThrottled(c: Settings, machines: seq<Machine>, desired: int, now: int)
    requires Valid(c)
    ensures PlanOf(c, machines, desired, None, now).cordon == [] && PlanOf(c, machines, desired, None, now).sweep.resend == []
    ensures forall id :: id in PlanOf(c, machines, desired, None, now).sweep.terminate ==>
              exists m :: m in machines && m.id == id && m.draining && m.deadline.Num? && now >= m.deadline.n
  {
    var plan := PlanOf(c, machines, desired, None, now);
    var draining := Keep(IsDraining, machines);
    var deficit := desired - Sum(c, Keep(IsActive, machines));
    CoverIsShortest(c, SweepOrder(draining), deficit);
    forall id | id in plan.sweep.terminate 
      ensures exists m :: m in machines && m.id == id && m.draining && m.deadline.Num? && now >= m.deadline.n
    {
      var m := TerminatedIsSafe(c, draining, deficit, None, now, id);
      KeepMembers(IsDraining, machines, m);
    }
    KeepNone(MustStopAgain(None, now), SweepOrder(draining)[Cover(c, SweepOrder(draining), deficit)..]);
  }

  lemma {:induction false} KeepNone(p: Machine -> bool, s: seq<Machine>)
    requires forall m :: m in s ==> !p(m)
    ensures Keep(p, s) == []
  {
    if s != [] {
      KeepNone(p, s[1..]);
    }
  }

  // ---- the sweep ----

  lemma SweepOrderMembers(draining: seq<Machine>, m: Machine)
    ensures m in SweepOrder(draining) <==> m in draining && m.id != ""
  {
    VictimOrderMembers(draining, {}, m);
  }

  /** Reclaimed machines are the shortest oldest-first prefix meeting the deficit, and vCPUs are conserved. */
  lemma ReclaimsShortest(c: Settings, draining: seq<Machine>, deficit: int, busy: Busy, now: int)
    requires Valid(c)
    ensures Cover(c, SweepOrder(draining), deficit) <= |SweepOrder(draining)|
    ensures var order, k := SweepOrder(draining), Cover(c, SweepOrder(draining), deficit);
      var sweep := SweepAlong(c, order, deficit, busy, now);
      && Ordered({}, order)
      && sweep.uncordon == Ids(order[..k]) && deficit == sweep.left + Sum(c, order[..k])
      && (sweep.left > 0 ==> k == |order|)
      && (k > 0 ==> Sum(c, order[..k - 1]) < deficit)
  {
    CoverIsShortest(c, SweepOrder(draining), deficit);
    VictimOrderIsOrdered(draining, {});
  }

  /** Only machines known to be idle, or past a deadline that was read, are terminated. */
  lemma TerminatedIsSafe(c: Settings, draining: seq<Machine>, deficit: int, busy: Busy, now: int, id: string) returns (m: Machine)
    requires Valid(c) && Cover(c, SweepOrder(draining), deficit) <= |SweepOrder(draining)|
    requires id in SweepAlong(c, SweepOrder(draining), deficit, busy, now).terminate
    ensures m in draining && m.id == id && ((busy.Some? && id !in busy.value) || (m.deadline.Num? && now >= m.deadline.n))
  {
    var rest := SweepOrder(draining)[Cover(c, SweepOrder(draining), deficit)..];
    var i :| 0 <= i < |Keep(MustTerminate(busy, now), rest)| && Keep(MustTerminate(busy, now), rest)[i].id == id;
    m := Keep(MustTerminate(busy, now), rest)[i];
    KeepMembers(MustTerminate(busy, now), rest, m);
    SweepOrderMembers(draining, m);
  }

  ghost predicate DistinctIds(s: seq<Machine>) {
    forall i, j :: 0 <= i < j < |s| ==> s[i].id != s[j].id
  }

  lemma ConsDistinct(m: Machine, s: seq<Machine>)
    requires DistinctIds(s) && forall x :: x in s ==> x.id != m.id
    ensures DistinctIds([m] + s)
  {
  }

  lemma {:induction false} KeepDistinct(p: Machine -> bool, s: seq<Machine>)
    requires DistinctIds(s)
    ensures DistinctIds(Keep(p, s))
  {
    if s != [] {
      KeepDistinct(p, s[1..]);
      var rest := Keep(p, s[1..]);
      forall j | 0 <= j < |rest| ensures rest[j].id != s[0].id {
        KeepMembers(p, s[1..], rest[j]);
        var i :| 0 <= i < |s[1..]| && s[1..][i] == rest[j];
        assert s[i + 1] == rest[j];
      }
    }
  }

  lemma {:induction false} InsertDistinct(busy: set<string>, m: Machine, s: seq<Machine>)
    requires DistinctIds(s) && forall x :: x in s ==> x.id != m.id
    ensures DistinctIds(Insert(busy, m, s)) && forall x :: x in Insert(busy, m, s) <==> x == m || x in s
  {
    if s == [] || Precedes(busy, m, s[0]) {
      ConsDistinct(m, s);
    } else {
      assert forall x :: x in s <==> x == s[0] || x in s[1..];
      InsertDistinct(busy, m, s[1..]);
      assert forall x :: x in s[1..] ==> exists i :: 1 <= i < |s| && s[i] == x;
      ConsDistinct(s[0], Insert(busy, m, s[1..]));
    }
  }

  lemma {:induction false} SortedDistinct(busy: set<string>, s: seq<Machine>)
    requires DistinctIds(s)
    ensures DistinctIds(Sorted(busy, s)) && forall x :: x in Sorted(busy, s) <==> x in s
  {
    if s != [] {
      SortedDistinct(busy, s[1..]);
      assert forall x :: x in s <==> x == s[0] || x in s[1..];
      InsertDistinct(busy, s[0], Sorted(busy, s[1..]));
    }
  }

  lemma InIds(s: seq<Machine>, id: string)
    ensures id in Ids(s) <==> exists m :: m in s && m.id == id
  {
    if id in Ids(s) {
      var i :| 0 <= i < |s| && Ids(s)[i] == id;
      assert s[i] in s;
    }
    if m :| m in s && m.id == id {
      var i :| 0 <= i < |s| && s[i] == m;
      assert Ids(s)[i] == id;
    }
  }

  /** Every draining machine gets exactly the verdict its state calls for, so the three lists are disjoint. */
  lemma SweepVerdict(c: Settings, draining: seq<Machine>, deficit: int, busy: Busy, now: int, m: Machine)
    requires Valid(c) && DistinctIds(draining) && m in draining && m.id != ""
    requires Cover(c, SweepOrder(draining), deficit) <= |SweepOrder(draining)|
    ensures var sweep := SweepAlong(c, SweepOrder(draining), deficit, busy, now);
      if m.id in sweep.uncordon then m.id !in sweep.terminate && m.id !in sweep.resend
      else
        && (m.id in sweep.terminate <==> (busy.Some? && m.id !in busy.value) || (m.deadline.Num? && now >= m.deadline.n))
        && (m.id in sweep.resend <==> busy.Some? && m.id in busy.value && !(m.deadline.Num? && now >= m.deadline.n))
  {
    var order, k := SweepOrder(draining), Cover(c, SweepOrder(draining), deficit);
    SortedDistinct({}, draining);
    KeepDistinct(Identified, Sorted({}, draining));
    SweepOrderMembers(draining, m);
    var p :| 0 <= p < |order| && order[p] == m;
    InIds(order[..k], m.id);
    OnlyOne(order, p, k);
    VerdictInRest(order[k..], MustTerminate(busy, now), m);
    VerdictInRest(order[k..], MustStopAgain(busy, now), m);
  }

  /** A busy draining machine before its deadline, or without a readable one, is never terminated, whatever the deficit. */
  lemma BusyIsNotTerminated(c: Settings, machines: seq<Machine>, desired: int, busy: set<string>, now: int, m: Machine)
    requires Valid(c) && DistinctIds(machines) && m in machines && m.draining && m.id != ""
    requires m.id in busy && (m.deadline.Num? ==> now < m.deadline.n)
    ensures m.id !in PlanOf(c, machines, desired, Some(busy), now).sweep.terminate
  {
    var draining := Keep(IsDraining, machines);
    KeepMembers(IsDraining, machines, m);
    KeepDistinct(IsDraining, machines);
    var deficit := desired - Sum(c, Keep(IsActive, machines));
    CoverIsShortest(c, SweepOrder(draining), deficit);
    SweepVerdict(c, draining, deficit, Some(busy), now, m);
  }

  /** Only active machines, those without the draining tag, are cordoned. */
  lemma VictimsAreActive(c: Settings, machines: seq<Machine>, desired: int, busy: Busy, now: int, id: string) returns (m: Machine)
    requires Valid(c) && id in PlanOf(c, machines, desired, busy, now).cordon
    ensures m in machines && m.id == id && id != "" && !m.draining
    ensures busy.Some? && Sum(c, Keep(IsActive, machines)) > desired
  {
    var active := Keep(IsActive, machines);
    var order := VictimOrder(active, busy.value);
    CoverIsShortest(c, order, Sum(c, active) - desired);
    var i :| 0 <= i < |order| && order[i].id == id;
    m := order[i];
    VictimOrderMembers(active, busy.value, m);
    KeepMembers(IsActive, machines, m);
  }

  // ---- age ----

  /** The texts first differ at k, where `a` ends or has the smaller character. */
  predicate EarlierAt(a: string, b: string, k: nat) {
    && k <= |a| && k < |b| && (forall i :: 0 <= i < k ==> a[i] == b[i])
    && (k < |a| ==> a[k] < b[k])
  }

  lemma {:induction false} EarlierIsLess(a: string, b: string, k: nat)
    requires EarlierAt(a, b, k)
    ensures TextLe(a, b) && !TextLe(b, a)
  {
    if k > 0 {
      EarlierIsLess(a[1..], b[1..], k - 1);
    }
  }

  /**
    Older by the creation times; if neither machine has one, by the launch times; and
    if neither has one of those, by the ids.
   */
  predicate Older(a: Machine, b: Machine, k: nat) {
    || (a.createdAt != "" && b.createdAt != "" && EarlierAt(a.createdAt, b.createdAt, k))
    || (a.createdAt == "" && b.createdAt == "" && a.launchTime != "" && b.launchTime != "" && EarlierAt(a.launchTime, b.launchTime, k))
    || (a.createdAt == "" && b.createdAt == "" && a.launchTime == "" && b.launchTime == "" && EarlierAt(a.id, b.id, k))
  }

  lemma OlderPrecedes(busy: set<string>, a: Machine, b: Machine, k: nat)
    requires Older(a, b, k) && (a.id in busy <==> b.id in busy)
    ensures Precedes(busy, a, b) && !Precedes(busy, b, a)
  {
    EarlierIsLess(AgeKey(a), AgeKey(b), k);
  }

  /** What comes before a chosen machine of an ordered sequence is chosen with it. */
  lemma PrefixHasOlder(busy: set<string>, order: seq<Machine>, n: nat, a: Machine, b: Machine)
    requires Ordered(busy, order) && DistinctIds(order) && n <= |order| && a in order && b in order
    requires !Precedes(busy, b, a) && b.id in Ids(order[..n])
    ensures a.id in Ids(order[..n])
  {
    var p :| 0 <= p < n && order[p].id == b.id;
    var q :| 0 <= q < |order| && order[q] == a;
    var j :| 0 <= j < |order| && order[j] == b;
    assert j == p;
    PrecedesTotal(busy, b, b);
    assert q < p;
    assert Ids(order[..n])[q] == a.id;
  }

  /** Of two active machines both idle or both busy, the older one is cordoned first. */
  lemma OlderIsCordonedFirst(c: Settings, active: seq<Machine>, surplus: int, busy: set<string>, a: Machine, b: Machine, k: nat)
    requires Valid(c) && DistinctIds(active) && a in active && b in active && a.id != "" && b.id != ""
    requires Older(a, b, k) && (a.id in busy <==> b.id in busy) && b.id in VictimsOf(c, active, surplus, Some(busy))
    ensures a.id in VictimsOf(c, active, surplus, Some(busy))
  {
    var order := VictimOrder(active, busy);
    OlderPrecedes(busy, a, b, k);
    CoverIsShortest(c, order, surplus);
    VictimOrderIsOrdered(active, busy);
    VictimOrderMembers(active, busy, a);
    VictimOrderMembers(active, busy, b);
    SortedDistinct(busy, active);
    KeepDistinct(Identified, Sorted(busy, active));
    PrefixHasOlder(busy, order, Cover(c, order, surplus), a, b);
  }

  /** Of two draining machines the older one is reclaimed first. */
  lemma OlderIsReclaimedFirst(c: Settings, draining: seq<Machine>, deficit: int, busy: Busy, now: int, a: Machine, b: Machine, k: nat)
    requires Valid(c) && DistinctIds(draining) && a in draining && b in draining && a.id != "" && b.id != "" && Older(a, b, k)
    requires Cover(c, SweepOrder(draining), deficit) <= |SweepOrder(draining)|
    requires b.id in SweepAlong(c, SweepOrder(draining), deficit, busy, now).uncordon
    ensures a.id in SweepAlong(c, SweepOrder(draining), deficit, busy, now).uncordon
  {
    var order := SweepOrder(draining);
    OlderPrecedes({}, a, b, k);
    VictimOrderIsOrdered(draining, {});
    SweepOrderMembers(draining, a);
    SweepOrderMembers(draining, b);
    SortedDistinct({}, draining);
    KeepDistinct(Identified, Sorted({}, draining));
    PrefixHasOlder({}, order, Cover(c, order, deficit), a, b);
  }

  /** The sweep raises exactly when a draining machine it does not reclaim has a deadline tag that is not a number. */
  lemma RaisesExactly(c: Settings, draining: seq<Machine>, deficit: int, busy: Busy, now: int)
    requires Valid(c) && DistinctIds(draining) && Cover(c, SweepOrder(draining), deficit) <= |SweepOrder(draining)|
    ensures Readable(c, SweepOrder(draining), deficit) <==>
            forall m :: m in draining && m.id != "" && m.id !in SweepAlong(c, SweepOrder(draining), deficit, busy, now).uncordon ==> m.deadline != Junk
  {
    var order, k := SweepOrder(draining), Cover(c, SweepOrder(draining), deficit);
    SortedDistinct({}, draining);
    KeepDistinct(Identified, Sorted({}, draining));
    forall m: Machine ensures m in order[k..] <==> m in draining && m.id != "" && m.id !in Ids(order[..k]) {
      SweepOrderMembers(draining, m);
      RestMembers(order, k, m);
    }
    ReadableIs(c, order, deficit);
  }

  lemma ReadableIs(c: Settings, order: seq<Machine>, deficit: int)
    requires Valid(c) && Cover(c, order, deficit) <= |order|
    ensures Readable(c, order, deficit) <==> forall m :: m in order[Cover(c, order, deficit)..] ==> m.deadline != Junk
  {
    var k := Cover(c, order, deficit);
    assert forall i :: k <= i < |order| ==> order[k..][i - k] == order[i];
  }

  lemma RestMembers(order: seq<Machine>, k: nat, m: Machine)
    requires DistinctIds(order) && k <= |order|
    ensures m in order[k..] <==> m in order && m.id !in Ids(order[..k])
  {
    InIds(order[..k], m.id);
    if m in order {
      var p :| 0 <= p < |order| && order[p] == m;
      OnlyOne(order, p, k);
    }
  }

  lemma OnlyOne(order: seq<Machine>, p: nat, k: nat)
    requires DistinctIds(order) && p < |order| && k <= |order|
    ensures order[p] in order[..k] <==> p < k
    ensures forall x :: x in order[..k] && x.id == order[p].id ==> x == order[p]
    ensures forall x :: x in order[k..] && x.id == order[p].id ==> x == order[p]
    ensures order[p] in order[k..] <==> p >= k
  {
  }

  lemma VerdictInRest(rest: seq<Machine>, p: Machine -> bool, m: Machine)
    requires forall x :: x in rest && x.id == m.id ==> x == m
    ensures m.id in Ids(Keep(p, rest)) <==> m in rest && p(m)
  {
    InIds(Keep(p, rest), m.id);
    KeepMembers(p, rest, m);
    forall x | x in Keep(p, rest) && x.id == m.id ensures x == m {
      KeepMembers(p, rest, x);
    }
  }

  /** A tick that creates neither terminates, stops again nor cordons; a tick that cordons reclaims nothing. */
  lemma CreateExcludesDrain(c: Settings, machines: seq<Machine>, desired: int, busy: Busy, now: int)
    requires Valid(c)
    ensures var plan := PlanOf(c, machines, desired, busy, now);
      && (plan.create > 0 ==> plan.sweep.terminate == [] && plan.sweep.resend == [] && plan.cordon == [])
      && (plan.cordon != [] ==> plan.create == 0 && plan.sweep.uncordon == [])
  {
    var order := SweepOrder(Keep(IsDraining, machines));
    var deficit := desired - Sum(c, Keep(IsActive, machines));
    CoverIsShortest(c, order, deficit);
    SumAtLeastCount(c, order[..Cover(c, order, deficit)]);
  }
}
