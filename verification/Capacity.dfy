/**
  One tick of the EC2 capacity controller: the vCPU target, the sweep of draining
  machines, the create, and the choice of machines to cordon.  The loops are written
  as in the handler and proved against functions that say which prefix of which
  order they take.
 */
module Capacity {
  import opened Prelude
  import opened Machines

  type Busy = Option<set<string>>

  // ---- what the loops compute ----

  function Ids(s: seq<Machine>): seq<string> {
    seq(|s|, i requires 0 <= i < |s| => s[i].id)
  }

  function Keep(p: Machine -> bool, s: seq<Machine>): seq<Machine> {
    if s == [] then [] else if p(s[0]) then [s[0]] + Keep(p, s[1..]) else Keep(p, s[1..])
  }

  predicate Identified(m: Machine) { m.id != "" }

  /** How many machines of the order it takes to bring `need` down to zero, or all of them. */
  function Cover(c: Settings, order: seq<Machine>, need: int): nat
    requires Valid(c)
  {
    if order == [] || need <= 0 then 0 else 1 + Cover(c, order[1..], need - Vcpus(c, order[0]))
  }

  function DeadlinePassed(now: int, m: Machine): bool {
    m.deadline.Num? && now >= m.deadline.n
  }

  /** Known to be idle, or past a deadline that could be read. */
  function MustTerminate(busy: Busy, now: int): Machine -> bool {
    (m: Machine) => (busy.Some? && m.id !in busy.value) || DeadlinePassed(now, m)
  }

  function MustStopAgain(busy: Busy, now: int): Machine -> bool {
    (m: Machine) => busy.Some? && m.id in busy.value && !DeadlinePassed(now, m)
  }

  datatype Sweep = Sweep(uncordon: seq<string>, terminate: seq<string>, resend: seq<string>, left: int)

  /** The draining machines with an id, oldest first. */
  function SweepOrder(draining: seq<Machine>): seq<Machine> {
    Keep(Identified, Sorted({}, draining))
  }

  function SweepAlong(c: Settings, order: seq<Machine>, deficit: int, busy: Busy, now: int): Sweep
    requires Valid(c) && Cover(c, order, deficit) <= |order|
  {
    var k := Cover(c, order, deficit);
    Sweep(Ids(order[..k]), Ids(Keep(MustTerminate(busy, now), order[k..])),
          Ids(Keep(MustStopAgain(busy, now), order[k..])), deficit - Sum(c, order[..k]))
  }

  /** The active machines with an id, idle first, then oldest first. */
  function VictimOrder(active: seq<Machine>, busy: set<string>): seq<Machine> {
    Keep(Identified, Sorted(busy, active))
  }

  // ---- facts about Keep and Cover ----

  lemma {:induction false} KeepConcat(p: Machine -> bool, s: seq<Machine>, t: seq<Machine>)
    ensures Keep(p, s + t) == Keep(p, s) + Keep(p, t)
  {
    if s == [] {
      assert s + t == t;
    } else {
      var rest := s[1..] + t;
      assert (s + t)[1..] == rest;
      KeepConcat(p, s[1..], t);
      if p(s[0]) {
        assert Keep(p, s + t) == [s[0]] + Keep(p, rest);
        assert [s[0]] + (Keep(p, s[1..]) + Keep(p, t)) == ([s[0]] + Keep(p, s[1..])) + Keep(p, t);
      }
    }
  }

  lemma KeepSnoc(p: Machine -> bool, s: seq<Machine>, m: Machine)
    ensures Ids(Keep(p, s + [m])) == if p(m) then Ids(Keep(p, s)) + [m.id] else Ids(Keep(p, s))
  {
    KeepConcat(p, s, [m]);
    assert Keep(p, [m]) == if p(m) then [m] else [];
  }

  lemma {:induction false} KeepMembers(p: Machine -> bool, s: seq<Machine>, m: Machine)
    ensures m in Keep(p, s) <==> m in s && p(m)
  {
    if s != [] {
      KeepMembers(p, s[1..], m);
      assert m in s <==> m == s[0] || m in s[1..];
    }
  }

  lemma {:induction false} KeepAll(p: Machine -> bool, s: seq<Machine>)
    requires forall m :: m in s ==> p(m)
    ensures Keep(p, s) == s
  {
    if s != [] {
      KeepAll(p, s[1..]);
    }
  }

  /** Cover is the shortest prefix: it covers or is everything, and no shorter prefix covers. */
  lemma {:induction false} CoverIsShortest(c: Settings, order: seq<Machine>, need: int)
    requires Valid(c)
    ensures var k := Cover(c, order, need);
      && k <= |order|
      && (k == |order| || Sum(c, order[..k]) >= need)
      && (forall j :: 0 <= j < k ==> Sum(c, order[..j]) < need)
  {
    var k := Cover(c, order, need);
    if order != [] && need > 0 {
      var rest := need - Vcpus(c, order[0]);
      CoverIsShortest(c, order[1..], rest);
      assert order[..k][1..] == order[1..][..k - 1];
      forall j | 0 <= j < k ensures Sum(c, order[..j]) < need {
        if j > 0 {
          assert order[..j][1..] == order[1..][..j - 1];
        }
      }
    }
  }

  /** Appending a machine to the order takes it exactly when the order so far does not cover. */
  lemma {:induction false} CoverSnoc(c: Settings, order: seq<Machine>, m: Machine, need: int)
    requires Valid(c)
    ensures var k := Cover(c, order, need);
      && k <= |order|
      && (need - Sum(c, order[..k]) > 0 ==> k == |order|)
      && Cover(c, order + [m], need) == if need - Sum(c, order[..k]) > 0 then k + 1 else k
  {
    var k := Cover(c, order, need);
    if order == [] {
      assert order + [m] == [m];
    } else if need > 0 {
      CoverSnoc(c, order[1..], m, need - Vcpus(c, order[0]));
      assert order[..k][1..] == order[1..][..k - 1];
      assert (order + [m])[1..] == order[1..] + [m];
    }
  }

  // ---- the loops ----

  /** The sweep's verdict on one machine. */
  function Judge(c: Settings, sweep: Sweep, m: Machine, busy: Busy, now: int): Sweep
    requires Valid(c)
  {
    if sweep.left > 0 then sweep.(uncordon := sweep.uncordon + [m.id], left := sweep.left - Vcpus(c, m))
    else if MustTerminate(busy, now)(m) then sweep.(terminate := sweep.terminate + [m.id])
    else if MustStopAgain(busy, now)(m) then sweep.(resend := sweep.resend + [m.id])
    else sweep
  }

  lemma ReclaimStep(c: Settings, order: seq<Machine>, m: Machine, deficit: int, busy: Busy, now: int)
    requires Valid(c) && Cover(c, order, deficit) == |order| && Cover(c, order + [m], deficit) == |order| + 1
    ensures var before := SweepAlong(c, order, deficit, busy, now);
      SweepAlong(c, order + [m], deficit, busy, now) ==
      before.(uncordon := before.uncordon + [m.id], left := before.left - Vcpus(c, m))
  {
    var longer := order + [m];
    assert order[..|order|] == order && longer[..|longer|] == longer;
    assert longer[|longer|..] == [] && order[|order|..] == [];
    SumOfConcat(c, order, [m]);
  }

  lemma JudgeStep(c: Settings, order: seq<Machine>, m: Machine, deficit: int, busy: Busy, now: int)
    requires Valid(c) && Cover(c, order, deficit) <= |order| && Cover(c, order + [m], deficit) == Cover(c, order, deficit)
    requires SweepAlong(c, order, deficit, busy, now).left <= 0
    ensures SweepAlong(c, order + [m], deficit, busy, now) == Judge(c, SweepAlong(c, order, deficit, busy, now), m, busy, now)
  {
    var k := Cover(c, order, deficit);
    var longer := order + [m];
    assert longer[..k] == order[..k] && longer[k..] == order[k..] + [m];
    KeepSnoc(MustTerminate(busy, now), order[k..], m);
    KeepSnoc(MustStopAgain(busy, now), order[k..], m);
  }

  lemma SweepStep(c: Settings, order: seq<Machine>, m: Machine, deficit: int, busy: Busy, now: int)
    requires Valid(c) && Cover(c, order, deficit) <= |order|
    ensures Cover(c, order + [m], deficit) <= |order| + 1
    ensures SweepAlong(c, order + [m], deficit, busy, now) == Judge(c, SweepAlong(c, order, deficit, busy, now), m, busy, now)
  {
    CoverSnoc(c, order, m, deficit);
    if SweepAlong(c, order, deficit, busy, now).left > 0 {
      ReclaimStep(c, order, m, deficit, busy, now);
    } else {
      JudgeStep(c, order, m, deficit, busy, now);
    }
  }

  /** The sweep over the machines with an id among the first `i` of the sorted order. */
  function SweepSoFar(c: Settings, sorted: seq<Machine>, i: nat, deficit: int, busy: Busy, now: int): Sweep
    requires Valid(c) && i <= |sorted|
  {
    CoverIsShortest(c, Keep(Identified, sorted[..i]), deficit);
    SweepAlong(c, Keep(Identified, sorted[..i]), deficit, busy, now)
  }

  lemma KeepStep(sorted: seq<Machine>, i: nat)
    requires i < |sorted|
    ensures Keep(Identified, sorted[..i + 1]) ==
            if sorted[i].id == "" then Keep(Identified, sorted[..i]) else Keep(Identified, sorted[..i]) + [sorted[i]]
  {
    assert sorted[..i + 1] == sorted[..i] + [sorted[i]];
    KeepConcat(Identified, sorted[..i], [sorted[i]]);
    assert Keep(Identified, sorted[..i]) + [] == Keep(Identified, sorted[..i]);
  }

  lemma SweepSoFarStep(c: Settings, sorted: seq<Machine>, i: nat, deficit: int, busy: Busy, now: int)
    requires Valid(c) && i < |sorted| && sorted[i].id != ""
    ensures SweepSoFar(c, sorted, i + 1, deficit, busy, now) ==
            Judge(c, SweepSoFar(c, sorted, i, deficit, busy, now), sorted[i], busy, now)
  {
    KeepStep(sorted, i);
    CoverIsShortest(c, Keep(Identified, sorted[..i]), deficit);
    SweepStep(c, Keep(Identified, sorted[..i]), sorted[i], deficit, busy, now);
  }

  /** Every machine the sweep does not reclaim has a missing or a numeric deadline: it converts each of them. */
  predicate Readable(c: Settings, order: seq<Machine>, deficit: int)
    requires Valid(c)
  {
    forall i :: Cover(c, order, deficit) <= i < |order| ==> !order[i].deadline.Junk?
  }

  lemma ReadableStep(c: Settings, sorted: seq<Machine>, i: nat, deficit: int)
    requires Valid(c) && i < |sorted| && sorted[i].id != "" && Readable(c, Keep(Identified, sorted[..i]), deficit)
    ensures var before := Keep(Identified, sorted[..i]);
      && Cover(c, before, deficit) <= |before|
      && (Readable(c, Keep(Identified, sorted[..i + 1]), deficit) <==>
          deficit - Sum(c, before[..Cover(c, before, deficit)]) > 0 || !sorted[i].deadline.Junk?)
  {
    var before := Keep(Identified, sorted[..i]);
    KeepStep(sorted, i);
    CoverSnoc(c, before, sorted[i], deficit);
    var longer := before + [sorted[i]];
    assert longer[|before|] == sorted[i] && forall k :: 0 <= k < |before| ==> longer[k] == before[k];
  }

  /** Once a prefix covers the need, what follows does not change the cover. */
  lemma {:induction false} CoverSettled(c: Settings, done: seq<Machine>, rest: seq<Machine>, need: int)
    requires Valid(c) && Cover(c, done, need) <= |done| && Sum(c, done[..Cover(c, done, need)]) >= need
    ensures Cover(c, done + rest, need) == Cover(c, done, need)
  {
    if done == [] {
      assert done + rest == rest;
    } else if need > 0 {
      var k := Cover(c, done, need);
      assert done[..k][1..] == done[1..][..k - 1];
      assert (done + rest)[1..] == done[1..] + rest;
      CoverSettled(c, done[1..], rest, need - Vcpus(c, done[0]));
    }
  }

  /** A deadline that cannot be read, on a machine that is judged, makes the whole order unreadable. */
  lemma UnreadableStays(c: Settings, sorted: seq<Machine>, i: nat, deficit: int)
    requires Valid(c) && i < |sorted| && sorted[i].id != "" && sorted[i].deadline.Junk?
    requires var before := Keep(Identified, sorted[..i]);
      Cover(c, before, deficit) <= |before| && Sum(c, before[..Cover(c, before, deficit)]) >= deficit
    ensures !Readable(c, Keep(Identified, sorted), deficit)
    ensures Cover(c, Keep(Identified, sorted), deficit) <= |Keep(Identified, sorted)|
  {
    var before, rest := Keep(Identified, sorted[..i]), Keep(Identified, sorted[i..]);
    assert sorted[..i] + sorted[i..] == sorted;
    KeepConcat(Identified, sorted[..i], sorted[i..]);
    assert rest[0] == sorted[i];
    CoverSettled(c, before, rest, deficit);
    assert (before + rest)[|before|] == sorted[i];
  }

  /** What the sweep has decided after the first `i` machines, none of which had a deadline it could not read. */
  ghost predicate Judged(c: Settings, sorted: seq<Machine>, i: nat, deficit: int, busy: Busy, now: int, sweep: Sweep)
    requires Valid(c) && i <= |sorted|
  {
    sweep == SweepSoFar(c, sorted, i, deficit, busy, now) && Readable(c, Keep(Identified, sorted[..i]), deficit)
  }

  lemma JudgedSkips(c: Settings, sorted: seq<Machine>, i: nat, deficit: int, busy: Busy, now: int, sweep: Sweep)
    requires Valid(c) && i < |sorted| && sorted[i].id == "" && Judged(c, sorted, i, deficit, busy, now, sweep)
    ensures Judged(c, sorted, i + 1, deficit, busy, now, sweep)
  {
    KeepStep(sorted, i);
  }

  lemma JudgedStep(c: Settings, sorted: seq<Machine>, i: nat, deficit: int, busy: Busy, now: int, sweep: Sweep)
    requires Valid(c) && i < |sorted| && sorted[i].id != "" && Judged(c, sorted, i, deficit, busy, now, sweep)
    requires sweep.left > 0 || !sorted[i].deadline.Junk?
    ensures Judged(c, sorted, i + 1, deficit, busy, now, Judge(c, sweep, sorted[i], busy, now))
  {
    SweepSoFarStep(c, sorted, i, deficit, busy, now);
    ReadableStep(c, sorted, i, deficit);
  }

  lemma JudgedFails(c: Settings, sorted: seq<Machine>, i: nat, deficit: int, busy: Busy, now: int, sweep: Sweep)
    requires Valid(c) && i < |sorted| && sorted[i].id != "" && Judged(c, sorted, i, deficit, busy, now, sweep)
    requires sweep.left <= 0 && sorted[i].deadline.Junk?
    ensures Cover(c, Keep(Identified, sorted), deficit) <= |Keep(Identified, sorted)| && !Readable(c, Keep(Identified, sorted), deficit)
  {
    CoverIsShortest(c, Keep(Identified, sorted[..i]), deficit);
    UnreadableStays(c, sorted, i, deficit);
  }

  lemma JudgedAll(c: Settings, sorted: seq<Machine>, deficit: int, busy: Busy, now: int, sweep: Sweep)
    requires Valid(c) && Judged(c, sorted, |sorted|, deficit, busy, now, sweep)
    ensures var order := Keep(Identified, sorted);
      Cover(c, order, deficit) <= |order| && Readable(c, order, deficit) && sweep == SweepAlong(c, order, deficit, busy, now)
  {
    assert sorted[..|sorted|] == sorted;
    CoverIsShortest(c, Keep(Identified, sorted), deficit);
  }

  method SweepDraining(c: Settings, draining: seq<Machine>, deficit: int, busy: Busy, now: int) returns (result: Option<Sweep>)
    requires Valid(c)
    ensures Cover(c, SweepOrder(draining), deficit) <= |SweepOrder(draining)|
    ensures result.Some? <==> Readable(c, SweepOrder(draining), deficit)
    ensures result.Some? ==> result.value == SweepAlong(c, SweepOrder(draining), deficit, busy, now)
  {
    var order := Sorted({}, draining);
    var toUncordon: seq<string>, toTerminate: seq<string>, toResendStop: seq<string> := [], [], [];
    var left := deficit;
    for i := 0 to |order|
      invariant Judged(c, order, i, deficit, busy, now, Sweep(toUncordon, toTerminate, toResendStop, left))
    {
      var m := order[i];
      ghost var sweep := Sweep(toUncordon, toTerminate, toResendStop, left);
      if m.id == "" {
        JudgedSkips(c, order, i, deficit, busy, now, sweep);
        continue;
      }
      if left > 0 {
        JudgedStep(c, order, i, deficit, busy, now, sweep);
        toUncordon := toUncordon + [m.id];
        left := left - Vcpus(c, m);
        continue;
      }
      if m.deadline.Junk? {
        JudgedFails(c, order, i, deficit, busy, now, sweep);
        return None;
      }
      JudgedStep(c, order, i, deficit, busy, now, sweep);
      var deadlinePassed := m.deadline.Num? && now >= m.deadline.n;
      var isBusy := busy.Some? && m.id in busy.value;
      var drained := busy.Some? && !isBusy;
      if drained || deadlinePassed {
        toTerminate := toTerminate + [m.id];
      } else if isBusy {
        toResendStop := toResendStop + [m.id];
      }
    }
    JudgedAll(c, order, deficit, busy, now, Sweep(toUncordon, toTerminate, toResendStop, left));
    result := Some(Sweep(toUncordon, toTerminate, toResendStop, left));
  }

  function VictimsOf(c: Settings, active: seq<Machine>, surplus: int, busy: Busy): seq<string>
    requires Valid(c)
  {
    if surplus <= 0 || busy.None? then []
    else
      var order := VictimOrder(active, busy.value);
      CoverIsShortest(c, order, surplus);
      Ids(order[..Cover(c, order, surplus)])
  }

  /** Of the first `i` machines all with an id were needed: these are the victims, with this sum. */
  ghost predicate Chosen(c: Settings, sorted: seq<Machine>, i: nat, surplus: int, victims: seq<string>, removed: int)
    requires Valid(c) && i <= |sorted|
  {
    var done := Keep(Identified, sorted[..i]);
    Cover(c, done, surplus) == |done| && victims == Ids(done) && removed == Sum(c, done)
  }

  /** While the surplus is not covered, the next machine with an id is a victim too. */
  lemma VictimStep(c: Settings, sorted: seq<Machine>, i: nat, surplus: int, victims: seq<string>, removed: int)
    requires Valid(c) && i < |sorted| && Chosen(c, sorted, i, surplus, victims, removed) && removed < surplus
    ensures if sorted[i].id == "" then Chosen(c, sorted, i + 1, surplus, victims, removed)
            else Chosen(c, sorted, i + 1, surplus, victims + [sorted[i].id], removed + Vcpus(c, sorted[i]))
  {
    var done := Keep(Identified, sorted[..i]);
    KeepStep(sorted, i);
    CoverSnoc(c, done, sorted[i], surplus);
    SumOfConcat(c, done, [sorted[i]]);
    assert done[..|done|] == done;
  }

  lemma CoverStopsHere(c: Settings, done: seq<Machine>, rest: seq<Machine>, need: int)
    requires Valid(c) && Cover(c, done, need) == |done| && (Sum(c, done) >= need || rest == [])
    ensures Cover(c, done + rest, need) == |done| && (done + rest)[..|done|] == done
  {
    var whole := done + rest;
    assert whole[..|done|] == done;
    if rest == [] {
      assert whole == done;
    } else {
      var k := Cover(c, whole, need);
      CoverIsShortest(c, whole, need);
      CoverIsShortest(c, done, need);
      assert forall j :: 0 <= j <= |done| ==> whole[..j] == done[..j];
    }
  }

  lemma ChosenAreVictims(c: Settings, sorted: seq<Machine>, i: nat, surplus: int, victims: seq<string>, removed: int)
    requires Valid(c) && i <= |sorted| && Chosen(c, sorted, i, surplus, victims, removed) && (removed >= surplus || i == |sorted|)
    ensures var order := Keep(Identified, sorted);
      Cover(c, order, surplus) <= |order| && victims == Ids(order[..Cover(c, order, surplus)])
  {
    CoverStopsHere(c, Keep(Identified, sorted[..i]), Keep(Identified, sorted[i..]), surplus);
    KeepConcat(Identified, sorted[..i], sorted[i..]);
    assert sorted[..i] + sorted[i..] == sorted;
  }

  method ScaleDown(c: Settings, active: seq<Machine>, current: int, desired: int, busy: Busy) returns (victims: seq<string>)
    requires Valid(c)
    ensures victims == VictimsOf(c, active, current - desired, busy)
  {
    var surplus := current - desired;
    victims := [];
    if surplus <= 0 || busy.None? {
      return;
    }
    var order := Sorted(busy.value, active);
    var removed := 0;
    var i := 0;
    while i < |order| && removed < surplus
      invariant i <= |order|
      invariant Chosen(c, order, i, surplus, victims, removed)
    {
      var m := order[i];
      VictimStep(c, order, i, surplus, victims, removed);
      if m.id != "" {
        victims := victims + [m.id];
        removed := removed + Vcpus(c, m);
      }
      i := i + 1;
    }
    ChosenAreVictims(c, order, i, surplus, victims, removed);
  }

  // ---- the tick ----

  /** clamp(ceil(backlog / target) * pairCpu, min, max) */
  function DesiredPairs(c: Settings, backlog: int): int
    requires Valid(c)
  {
    if backlog > 0 then (backlog + c.targetPerPair - 1) / c.targetPerPair else 0
  }

  function Desired(c: Settings, backlog: int): int
    requires Valid(c)
  {
    Max(c.minVcpus, Min(c.maxVcpus, DesiredPairs(c, backlog) * c.pairCpu))
  }

  datatype Plan = Plan(sweep: Sweep, create: int, cordon: seq<string>)

  function IsDraining(m: Machine): bool { m.draining }

  function IsActive(m: Machine): bool { !m.draining }

  function PlanOf(c: Settings, machines: seq<Machine>, desired: int, busy: Busy, now: int): Plan
    requires Valid(c)
  {
    var draining, active := Keep(IsDraining, machines), Keep(IsActive, machines);
    var deficit := desired - Sum(c, active);
    CoverIsShortest(c, SweepOrder(draining), deficit);
    var sweep := SweepAlong(c, SweepOrder(draining), deficit, busy, now);
    Plan(sweep, Max(0, sweep.left), VictimsOf(c, active, -deficit, busy))
  }

  /** The machines with and without the draining tag, and the vCPUs of the active ones. */
  method SplitFleet(c: Settings, machines: seq<Machine>) returns (draining: seq<Machine>, active: seq<Machine>, current: int)
    requires Valid(c)
    ensures draining == Keep(IsDraining, machines) && active == Keep(IsActive, machines) && current == Sum(c, active)
  {
    draining, active, current := [], [], 0;
    for i := 0 to |machines|
      invariant draining == Keep(IsDraining, machines[..i])
      invariant active == Keep(IsActive, machines[..i])
      invariant current == Sum(c, active)
    {
      var m := machines[i];
      assert machines[..i + 1] == machines[..i] + [m];
      KeepConcat(IsDraining, machines[..i], [m]);
      KeepConcat(IsActive, machines[..i], [m]);
      SumOfConcat(c, active, [m]);
      if m.draining {
        draining := draining + [m];
      } else {
        active := active + [m];
        current := current + Vcpus(c, m);
      }
    }
    assert machines[..|machines|] == machines;
  }

  /** No machine the sweep judges has a deadline tag it cannot convert. */
  predicate DeadlinesReadable(c: Settings, machines: seq<Machine>, desired: int)
    requires Valid(c)
  {
    Readable(c, SweepOrder(Keep(IsDraining, machines)), desired - Sum(c, Keep(IsActive, machines)))
  }

  /**
    The handler: `machines` already carry the drain state read from their tags.  A
    deadline tag that is not a number, on a machine that is not reclaimed, raises
    before anything is done.
   */
  method Handle(c: Settings, machines: seq<Machine>, backlog: int, busy: Busy, now: int) returns (result: Option<Plan>)
    requires Valid(c)
    ensures result.Some? <==> DeadlinesReadable(c, machines, Desired(c, backlog))
    ensures result.Some? ==> result.value == PlanOf(c, machines, Desired(c, backlog), busy, now)
  {
    var draining, active, current := SplitFleet(c, machines);
    var desired := Desired(c, backlog);
    var swept := SweepDraining(c, draining, desired - current, busy, now);
    if swept.None? {
      return None;
    }
    var sweep := swept.value;
    var create := 0;
    if sweep.left > 0 {
      create := sweep.left;
    }
    var cordon := ScaleDown(c, active, current, desired, busy);
    return Some(Plan(sweep, create, cordon));
  }
}
