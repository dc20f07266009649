/**
  The drain's external calls and what a crash between any two of them leaves behind.

  `tags` are the draining tags with their deadlines, `stopped` the workers whose
  compose project is stopped.  A stop may land on any of the instances it was sent
  to, or on none; a start is stated separately, because an untag follows it whether
  it landed or not.
 */
module Drain {
  import opened Prelude
  import opened Machines
  import opened Capacity
  import opened Selection
  import opened Fleet

  datatype Workers = Workers(tags: map<string, int>, stopped: set<string>)

  /** One external call; `landed` are the instances the command reached. */
  datatype Call =
    | CreateTags(ids: seq<string>, deadline: int)
    | SendStop(ids: seq<string>, landed: set<string>)
    | SendStart(ids: seq<string>, landed: set<string>)
    | DeleteTags(ids: seq<string>)

  function Perform(w: Workers, call: Call): Workers {
    match call
    case CreateTags(ids, deadline) => w.(tags := map i | i in w.tags.Keys + Elements(ids) :: if i in ids then deadline else w.tags[i])
    case SendStop(ids, landed) => w.(stopped := w.stopped + (landed * Elements(ids)))
    case SendStart(ids, landed) => w.(stopped := w.stopped - (landed * Elements(ids)))
    case DeleteTags(ids) => w.(tags := map i | i in w.tags && i !in ids :: w.tags[i])
  }

  function PerformAll(w: Workers, calls: seq<Call>): Workers
    decreases |calls|
  {
    if calls == [] then w else PerformAll(Perform(w, calls[0]), calls[1..])
  }

  lemma PerformFew(w: Workers, a: Call, b: Call)
    ensures PerformAll(w, [a]) == Perform(w, a)
    ensures PerformAll(w, [a, b]) == Perform(Perform(w, a), b)
  {
    assert [a, b][1..] == [b] && [b][1..] == [];
    assert PerformAll(Perform(w, a), [b]) == Perform(Perform(w, a), b);
  }

  // ---- the calls of a tick ----

  /** What the commands of one tick reach, and the clock cordon reads. */
  datatype Reach = Reach(started: set<string>, stoppedAgain: set<string>, stopped: set<string>, clock: int)

  function UncordonCalls(ids: seq<string>, started: set<string>): seq<Call> {
    if ids == [] then [] else [SendStart(ids, started), DeleteTags(ids)]
  }

  function ResendCalls(ids: seq<string>, landed: set<string>): seq<Call> {
    if ids == [] then [] else [SendStop(ids, landed)]
  }

  function CordonCalls(ids: seq<string>, deadline: int, landed: set<string>): seq<Call> {
    if ids == [] then [] else [CreateTags(ids, deadline), SendStop(ids, landed)]
  }

  /** The drain calls of one tick, in the order the handler makes them. */
  function TickCalls(c: Settings, plan: Plan, reach: Reach): seq<Call> {
    UncordonCalls(plan.sweep.uncordon, reach.started)
    + ResendCalls(plan.sweep.resend, reach.stoppedAgain)
    + CordonCalls(plan.cordon, reach.clock + c.drainSeconds, reach.stopped)
  }

  /**
    The drain module's methods.  `budget` is how many more external calls the
    process survives: with none left the call is not made and the tick is over.
   */
  class DrainControl {
    var workers: Workers
    var budget: nat

    constructor (workers: Workers, budget: nat)
      ensures this.workers == workers && this.budget == budget
    {
      this.workers, this.budget := workers, budget;
    }

    method Invoke(call: Call) returns (alive: bool)
      modifies this
      ensures alive <==> old(budget) > 0
      ensures budget == if alive then old(budget) - 1 else 0
      ensures workers == if alive then Perform(old(workers), call) else old(workers)
    {
      if budget == 0 {
        return false;
      }
      budget := budget - 1;
      workers := Perform(workers, call);
      return true;
    }

    /** Tag before stop. */
    method Cordon(ids: seq<string>, deadline: int, landed: set<string>) returns (alive: bool)
      modifies this
      ensures var calls := CordonCalls(ids, deadline, landed);
        && workers == PerformUpTo(old(workers), calls, old(budget))
        && (alive <==> old(budget) >= |calls|) && budget == Max(0, old(budget) - |calls|)
    {
      if ids == [] {
        return true;
      }
      ghost var calls := CordonCalls(ids, deadline, landed);
      assert calls[..1] == [calls[0]] && calls[..2] == calls;
      PerformFew(workers, CreateTags(ids, deadline), SendStop(ids, landed));
      alive := Invoke(CreateTags(ids, deadline));
      if alive {
        alive := Invoke(SendStop(ids, landed));
      }
    }

    method ResendStop(ids: seq<string>, landed: set<string>) returns (alive: bool)
      modifies this
      ensures var calls := ResendCalls(ids, landed);
        && workers == PerformUpTo(old(workers), calls, old(budget))
        && (alive <==> old(budget) >= |calls|) && budget == Max(0, old(budget) - |calls|)
    {
      if ids == [] {
        return true;
      }
      ghost var calls := ResendCalls(ids, landed);
      assert calls[..1] == calls;
      PerformFew(workers, SendStop(ids, landed), SendStop(ids, landed));
      alive := Invoke(SendStop(ids, landed));
    }

    /** Start before untag; a start that did not land is not noticed. */
    method Uncordon(ids: seq<string>, started: set<string>) returns (alive: bool)
      modifies this
      ensures var calls := UncordonCalls(ids, started);
        && workers == PerformUpTo(old(workers), calls, old(budget))
        && (alive <==> old(budget) >= |calls|) && budget == Max(0, old(budget) - |calls|)
    {
      if ids == [] {
        return true;
      }
      ghost var calls := UncordonCalls(ids, started);
      assert calls[..1] == [calls[0]] && calls[..2] == calls;
      PerformFew(workers, SendStart(ids, started), DeleteTags(ids));
      alive := Invoke(SendStart(ids, started));
      if alive {
        alive := Invoke(DeleteTags(ids));
      }
    }

    /** The drain part of one tick, crashing wherever the budget runs out. */
    method Tick(c: Settings, plan: Plan, reach: Reach) returns (alive: bool)
      modifies this
      ensures var calls := TickCalls(c, plan, reach);
        && workers == PerformUpTo(old(workers), calls, old(budget))
        && (alive <==> old(budget) >= |calls|)
    {
      TickByParts(c, workers, plan, reach, budget);
      alive := Uncordon(plan.sweep.uncordon, reach.started);
      if alive {
        alive := ResendStop(plan.sweep.resend, reach.stoppedAgain);
      }
      if alive {
        alive := Cordon(plan.cordon, reach.clock + c.drainSeconds, reach.stopped);
      }
    }
  }

  /** Performing at most n calls of a list. */
  function PerformUpTo(w: Workers, calls: seq<Call>, n: nat): Workers {
    PerformAll(w, calls[..Min(n, |calls|)])
  }

  /** What survives of a tick is what survives of its three parts, each with the budget the parts before it left. */
  lemma TickByParts(c: Settings, w: Workers, plan: Plan, reach: Reach, n: nat)
    ensures var first, second := UncordonCalls(plan.sweep.uncordon, reach.started), ResendCalls(plan.sweep.resend, reach.stoppedAgain);
      var third := CordonCalls(plan.cordon, reach.clock + c.drainSeconds, reach.stopped);
      && |TickCalls(c, plan, reach)| == |first| + |second| + |third|
      && PerformUpTo(w, TickCalls(c, plan, reach), n) ==
         if n < |first| then PerformUpTo(w, first, n)
         else if n - |first| < |second| then PerformUpTo(PerformUpTo(w, first, n), second, n - |first|)
         else PerformUpTo(PerformUpTo(PerformUpTo(w, first, n), second, n - |first|), third, n - |first| - |second|)
  {
    var first, second := UncordonCalls(plan.sweep.uncordon, reach.started), ResendCalls(plan.sweep.resend, reach.stoppedAgain);
    var third := CordonCalls(plan.cordon, reach.clock + c.drainSeconds, reach.stopped);
    assert TickCalls(c, plan, reach) == first + (second + third);
    PrefixOfTwo(w, first, second + third, n);
    if n >= |first| {
      PrefixOfTwo(PerformAll(w, first), second, third, n - |first|);
    }
  }

  lemma {:induction false} PerformConcat(w: Workers, a: seq<Call>, b: seq<Call>)
    ensures PerformAll(w, a + b) == PerformAll(PerformAll(w, a), b)
    decreases |a|
  {
    if a == [] {
      assert a + b == b;
    } else {
      assert (a + b)[1..] == a[1..] + b;
      PerformConcat(Perform(w, a[0]), a[1..], b);
    }
  }

  /** Stopping somewhere in two lists of calls stops in the first, or after it in the second. */
  lemma PrefixOfTwo(w: Workers, a: seq<Call>, b: seq<Call>, n: nat)
    ensures PerformUpTo(w, a + b, n) ==
            if n < |a| then PerformUpTo(w, a, n) else PerformUpTo(PerformAll(w, a), b, n - |a|)
    ensures n >= |a| ==> PerformUpTo(w, a, n) == PerformAll(w, a)
  {
    assert a[..|a|] == a;
    if n < |a| {
      assert (a + b)[..n] == a[..n];
    } else {
      assert (a + b)[..Min(n, |a + b|)] == a + b[..Min(n - |a|, |b|)];
      PerformConcat(w, a, b[..Min(n - |a|, |b|)]);
    }
  }

  // ---- every stopped worker is tagged ----

  ghost predicate StoppedAreTagged(w: Workers) {
    w.stopped <= w.tags.Keys
  }

  /** A tick's commands start what they uncordon and stop again only what is tagged. */
  ghost predicate SoundPlan(w: Workers, plan: Plan, reach: Reach) {
    && Elements(plan.sweep.uncordon) <= reach.started
    && Elements(plan.sweep.resend) <= w.tags.Keys
    && Elements(plan.sweep.uncordon) !! Elements(plan.sweep.resend)
  }

  lemma CordonIsSafe(w: Workers, ids: seq<string>, deadline: int, landed: set<string>, n: nat)
    requires StoppedAreTagged(w) && n <= |CordonCalls(ids, deadline, landed)|
    ensures StoppedAreTagged(PerformAll(w, CordonCalls(ids, deadline, landed)[..n]))
  {
    if ids != [] {
      var w1 := Perform(w, CreateTags(ids, deadline));
      assert w1.tags.Keys == w.tags.Keys + Elements(ids);
      var calls := CordonCalls(ids, deadline, landed);
      assert calls[..1] == [calls[0]] && calls[..2] == calls;
      PerformFew(w, CreateTags(ids, deadline), SendStop(ids, landed));
    }
  }

  lemma ResendIsSafe(w: Workers, ids: seq<string>, landed: set<string>, n: nat)
    requires StoppedAreTagged(w) && Elements(ids) <= w.tags.Keys && n <= |ResendCalls(ids, landed)|
    ensures StoppedAreTagged(PerformAll(w, ResendCalls(ids, landed)[..n]))
    ensures PerformAll(w, ResendCalls(ids, landed)[..n]).tags == w.tags
  {
  }

  /** After a complete uncordon every stopped worker is tagged exactly when the start reached each stopped one of them. */
  lemma UncordonIsSafe(w: Workers, ids: seq<string>, started: set<string>)
    requires StoppedAreTagged(w)
    ensures StoppedAreTagged(PerformAll(w, UncordonCalls(ids, started))) <==> Elements(ids) * w.stopped <= started
    ensures PerformAll(w, UncordonCalls(ids, started)).tags.Keys == w.tags.Keys - Elements(ids)
  {
    assert forall i :: i in ids <==> i in Elements(ids);
    var calls := UncordonCalls(ids, started);
    if ids != [] {
      var w1 := Perform(w, SendStart(ids, started));
      var w2 := Perform(w1, DeleteTags(ids));
      PerformFew(w, SendStart(ids, started), DeleteTags(ids));
      if StoppedAreTagged(w2) {
        forall i | i in Elements(ids) * w.stopped ensures i in started {
          assert i !in w2.tags.Keys && i !in w2.stopped;
        }
      }
    } else {
      assert Elements(ids) == {};
    }
  }

  /** A complete cordon tags every id with the deadline, and stops those the command reaches; nobody else is touched. */
  lemma CordonStops(w: Workers, ids: seq<string>, deadline: int, landed: set<string>)
    ensures var w' := PerformAll(w, CordonCalls(ids, deadline, landed));
      && w'.stopped == w.stopped + Elements(ids) * landed
      && (forall i :: i in w'.tags <==> i in w.tags || i in ids)
      && (forall i :: i in w'.tags ==> w'.tags[i] == if i in ids then deadline else w.tags[i])
  {
    if ids != [] {
      PerformFew(w, CreateTags(ids, deadline), SendStop(ids, landed));
    } else {
      assert Elements(ids) == {};
    }
  }

  /** A stop sent again stops those it reaches, and leaves all tags as they are. */
  lemma ResendStops(w: Workers, ids: seq<string>, landed: set<string>)
    ensures PerformAll(w, ResendCalls(ids, landed)) == w.(stopped := w.stopped + Elements(ids) * landed)
  {
    if ids != [] {
      PerformFew(w, SendStop(ids, landed), SendStop(ids, landed));
    } else {
      assert Elements(ids) == {};
    }
  }

  /** A complete uncordon starts those the command reaches, and takes the tags off all ids, off nobody else. */
  lemma UncordonStarts(w: Workers, ids: seq<string>, started: set<string>)
    ensures var w' := PerformAll(w, UncordonCalls(ids, started));
      && w'.stopped == w.stopped - Elements(ids) * started
      && (forall i :: i in w'.tags <==> i in w.tags && i !in ids)
      && (forall i :: i in w'.tags ==> w'.tags[i] == w.tags[i])
  {
    if ids != [] {
      PerformFew(w, SendStart(ids, started), DeleteTags(ids));
    } else {
      assert Elements(ids) == {};
    }
  }

  /**
    What a tick that does not crash leaves: the uncordoned are started where the start
    reached them and lose their tags; the busy ones are stopped again and the victims
    stopped, where the stop reached them; and the victims carry a deadline
    `drainSeconds` after the clock.
   */
  lemma TickLeaves(c: Settings, w: Workers, plan: Plan, reach: Reach)
    ensures var w' := PerformAll(w, TickCalls(c, plan, reach));
      && w'.stopped == w.stopped - Elements(plan.sweep.uncordon) * reach.started
                       + Elements(plan.sweep.resend) * reach.stoppedAgain + Elements(plan.cordon) * reach.stopped
      && (forall i :: i in w'.tags <==> i in plan.cordon || (i in w.tags && i !in plan.sweep.uncordon))
      && (forall i :: i in w'.tags ==> w'.tags[i] == if i in plan.cordon then reach.clock + c.drainSeconds else w.tags[i])
  {
    var first := UncordonCalls(plan.sweep.uncordon, reach.started);
    var second := ResendCalls(plan.sweep.resend, reach.stoppedAgain);
    var third := CordonCalls(plan.cordon, reach.clock + c.drainSeconds, reach.stopped);
    PerformConcat(w, first + second, third);
    PerformConcat(w, first, second);
    UncordonStarts(w, plan.sweep.uncordon, reach.started);
    ResendStops(PerformAll(w, first), plan.sweep.resend, reach.stoppedAgain);
    CordonStops(PerformAll(w, first + second), plan.cordon, reach.clock + c.drainSeconds, reach.stopped);
  }

  predicate TagShows(w: Workers, id: string, m: Machine) {
    (m.draining <==> id in w.tags) && (m.draining ==> m.deadline == Num(w.tags[id]))
  }

  /** The fleet's drain state is what the tags say. */
  ghost predicate TagsShow(w: Workers, f: Machinery) {
    forall i :: i in f ==> TagShows(w, i, f[i])
  }

  /** After a tick that does not crash, the tags still say what the fleet's drain state is, new machines included. */
  lemma TickKeepsTagsShowing(c: Settings, w: Workers, f: Machinery, machines: seq<Machine>, desired: int, busy: Busy, reach: Reach, created: Machinery)
    requires Valid(c) && FleetOk(f) && TagsShow(w, f)
    requires Delivered(c, f, PlanOf(c, machines, desired, busy, reach.clock), created) && created.Keys !! w.tags.Keys
    requires Elements(PlanOf(c, machines, desired, busy, reach.clock).cordon) <= f.Keys
    ensures var plan := PlanOf(c, machines, desired, busy, reach.clock);
      TagsShow(PerformAll(w, TickCalls(c, plan, reach)), After(c, f, plan, reach.clock, created))
  {
    var plan := PlanOf(c, machines, desired, busy, reach.clock);
    CreateExcludesDrain(c, machines, desired, busy, reach.clock);
    TickLeaves(c, w, plan, reach);
    var w', f' := PerformAll(w, TickCalls(c, plan, reach)), After(c, f, plan, reach.clock, created);
    forall i | i in f' ensures TagShows(w', i, f'[i]) {
      assert i in plan.cordon ==> i in Elements(plan.cordon);
      if i !in created {
        assert TagShows(w, i, f[i]) && f[i].id == i && f'[i] == Retag(c, f[i], plan, reach.clock);
        RetagShows(c, w, w', plan, reach.clock, f[i]);
      }
    }
  }

  lemma RetagShows(c: Settings, w: Workers, w': Workers, plan: Plan, clock: int, m: Machine)
    requires TagShows(w, m.id, m) && (m.id in plan.cordon ==> m.id !in plan.sweep.uncordon)
    requires m.id in w'.tags <==> m.id in plan.cordon || (m.id in w.tags && m.id !in plan.sweep.uncordon)
    requires m.id in w'.tags ==> w'.tags[m.id] == if m.id in plan.cordon then clock + c.drainSeconds else w.tags[m.id]
    ensures TagShows(w', m.id, Retag(c, m, plan, clock))
  {
  }

  lemma UncordonPrefixIsSafe(w: Workers, ids: seq<string>, started: set<string>, n: nat)
    requires StoppedAreTagged(w) && Elements(ids) <= started && n <= |UncordonCalls(ids, started)|
    ensures StoppedAreTagged(PerformAll(w, UncordonCalls(ids, started)[..n]))
  {
    var calls := UncordonCalls(ids, started);
    if n == |calls| {
      assert calls[..n] == calls;
      UncordonIsSafe(w, ids, started);
    } else if n == 1 {
      assert calls[..1] == [calls[0]];
      PerformFew(w, SendStart(ids, started), DeleteTags(ids));
    }
  }

  /** Wherever a tick crashes, every stopped worker carries the draining tag. */
  lemma TickIsCrashSafe(c: Settings, w: Workers, plan: Plan, reach: Reach, n: nat)
    requires StoppedAreTagged(w) && SoundPlan(w, plan, reach) && n <= |TickCalls(c, plan, reach)|
    ensures StoppedAreTagged(PerformAll(w, TickCalls(c, plan, reach)[..n]))
  {
    var first := UncordonCalls(plan.sweep.uncordon, reach.started);
    var second := ResendCalls(plan.sweep.resend, reach.stoppedAgain);
    var third := CordonCalls(plan.cordon, reach.clock + c.drainSeconds, reach.stopped);
    assert TickCalls(c, plan, reach) == first + (second + third);
    PrefixOfTwo(w, first, second + third, n);
    UncordonPrefixIsSafe(w, plan.sweep.uncordon, reach.started, Min(n, |first|));
    if n >= |first| {
      assert first[..|first|] == first;
      var w1 := PerformAll(w, first);
      UncordonIsSafe(w, plan.sweep.uncordon, reach.started);
      PrefixOfTwo(w1, second, third, n - |first|);
      ResendIsSafe(w1, plan.sweep.resend, reach.stoppedAgain, Min(n - |first|, |second|));
      if n - |first| >= |second| {
        assert second[..|second|] == second;
        CordonIsSafe(PerformAll(w1, second), plan.cordon, reach.clock + c.drainSeconds, reach.stopped, n - |first| - |second|);
      }
    }
  }

  // ---- over any number of ticks ----

  /** A machine is only seen as draining if it carries the tag; a failed read sees none as draining. */
  ghost predicate ReadsTags(w: Workers, machines: seq<Machine>) {
    forall m :: m in machines && m.draining ==> m.id in w.tags
  }

  /** One tick on the workers: any fleet listing, any busy set, a crash after any number of calls, starts that land. */
  datatype TickInput = TickInput(machines: seq<Machine>, backlog: int, busy: Busy, now: int, reach: Reach, calls: nat)

  function InputPlan(c: Settings, input: TickInput): Plan
    requires Valid(c)
  {
    PlanOf(c, input.machines, Desired(c, input.backlog), input.busy, input.now)
  }

  ghost predicate DrainTick(c: Settings, w: Workers, input: TickInput, w': Workers)
    requires Valid(c)
  {
    var plan := InputPlan(c, input);
    && DistinctIds(input.machines) && ReadsTags(w, input.machines)
    && Elements(plan.sweep.uncordon) <= input.reach.started
    && input.calls <= |TickCalls(c, plan, input.reach)|
    && w' == PerformAll(w, TickCalls(c, plan, input.reach)[..input.calls])
  }

  lemma PlanIsSound(c: Settings, w: Workers, input: TickInput)
    requires Valid(c) && DistinctIds(input.machines) && ReadsTags(w, input.machines)
    requires Elements(InputPlan(c, input).sweep.uncordon) <= input.reach.started
    ensures SoundPlan(w, InputPlan(c, input), input.reach)
  {
    var plan := InputPlan(c, input);
    var draining := Keep(IsDraining, input.machines);
    var deficit := Desired(c, input.backlog) - Sum(c, Keep(IsActive, input.machines));
    CoverIsShortest(c, SweepOrder(draining), deficit);
    KeepDistinct(IsDraining, input.machines);
    forall id | id in plan.sweep.resend ensures id in w.tags && id !in plan.sweep.uncordon {
      var m := ResentIsDraining(c, draining, deficit, input.busy, input.now, id);
      KeepMembers(IsDraining, input.machines, m);
      SweepVerdict(c, draining, deficit, input.busy, input.now, m);
    }
  }

  lemma ResentIsDraining(c: Settings, draining: seq<Machine>, deficit: int, busy: Busy, now: int, id: string) returns (m: Machine)
    requires Valid(c) && Cover(c, SweepOrder(draining), deficit) <= |SweepOrder(draining)|
    requires id in SweepAlong(c, SweepOrder(draining), deficit, busy, now).resend
    ensures m in draining && m.id == id && m.id != ""
  {
    var rest := SweepOrder(draining)[Cover(c, SweepOrder(draining), deficit)..];
    InIds(Keep(MustStopAgain(busy, now), rest), id);
    m :| m in Keep(MustStopAgain(busy, now), rest) && m.id == id;
    KeepMembers(MustStopAgain(busy, now), rest, m);
    SweepOrderMembers(draining, m);
  }

  /** In every state any sequence of ticks reaches, each crashed anywhere, every stopped worker is tagged. */
  lemma {:induction false} StoppedAlwaysTagged(c: Settings, states: seq<Workers>, inputs: seq<TickInput>, i: nat)
    requires Valid(c) && |states| == |inputs| + 1 && i < |states| && StoppedAreTagged(states[0])
    requires forall k :: 0 <= k < |inputs| ==> DrainTick(c, states[k], inputs[k], states[k + 1])
    ensures StoppedAreTagged(states[i])
  {
    if i > 0 {
      StoppedAlwaysTagged(c, states, inputs, i - 1);
      assert DrainTick(c, states[i - 1], inputs[i - 1], states[i]);
      PlanIsSound(c, states[i - 1], inputs[i - 1]);
      TickIsCrashSafe(c, states[i - 1], InputPlan(c, inputs[i - 1]), inputs[i - 1].reach, inputs[i - 1].calls);
    }
  }

  /** A tagged worker that is still busy and not past its deadline is sent stop again by a tick without a deficit. */
  lemma BusyIsStoppedAgain(c: Settings, machines: seq<Machine>, desired: int, busy: set<string>, now: int, m: Machine)
    requires Valid(c) && DistinctIds(machines) && m in machines && m.draining && m.id != ""
    requires Sum(c, Keep(IsActive, machines)) >= desired
    requires m.id in busy && (m.deadline.Num? ==> now < m.deadline.n)
    ensures m.id in PlanOf(c, machines, desired, Some(busy), now).sweep.resend
  {
    var draining := Keep(IsDraining, machines);
    var deficit := desired - Sum(c, Keep(IsActive, machines));
    KeepMembers(IsDraining, machines, m);
    KeepDistinct(IsDraining, machines);
    CoverIsShortest(c, SweepOrder(draining), deficit);
    SweepVerdict(c, draining, deficit, Some(busy), now, m);
  }
}
