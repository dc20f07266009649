/**
  A world that programs act in: its state, and the run of the protocol that led there.
  Between any two calls of a program everybody else takes any number of steps.  Each
  program is shown to act exactly as the protocol says, so every theorem about runs
  holds of what it does.
 */
module Worlds {
  import opened Prelude
  import opened Rows
  import opened Protocol
  import opened Safety

  /** A reader only queries, so it has no steps of its own. */
  datatype Actor = Agent(agent: AgentId) | Checker(checker: CheckerId) | Canceller(call: CallId) | Submitter(call: CallId) | Reader

  predicate By(e: Event, who: Actor) {
    match who
    case Agent(a) => AgentEvent(e) && e.agent == a
    case Checker(c) => CheckerEvent(e) && e.checker == c
    case Canceller(k) => CancelEvent(e) && e.call == k
    case Submitter(k) => SubmitEvent(e) && e.call == k
    case Reader => false
  }

  /** A step of a run with the state it was taken in. */
  datatype Deed = Deed(at: State, event: Event)

  /** What one actor did in a run, and in which states. */
  function Mine(deeds: seq<Deed>, who: Actor): seq<Deed> {
    if deeds == [] then [] else
    var last := deeds[|deeds| - 1];
    Mine(deeds[..|deeds| - 1], who) + if By(last.event, who) then [last] else []
  }

  lemma MineGrows(deeds: seq<Deed>, d: Deed, who: Actor)
    ensures Mine(deeds + [d], who) == Mine(deeds, who) + if By(d.event, who) then [d] else []
  {
  }

  /** Every step of a run with its state. */
  ghost predicate AreDeeds(states: seq<State>, events: seq<Event>, deeds: seq<Deed>) {
    |deeds| == |events| < |states| && forall i :: 0 <= i < |deeds| ==> deeds[i] == Deed(states[i], events[i])
  }

  lemma DeedsGrow(states: seq<State>, events: seq<Event>, deeds: seq<Deed>, e: Event, s: State)
    requires AreDeeds(states, events, deeds) && |states| == |events| + 1
    ensures AreDeeds(states + [s], events + [e], deeds + [Deed(states[|events|], e)])
  {
  }

  /** Where the actor stands. */
  ghost predicate SamePlace(s: State, s': State, who: Actor) {
    match who
    case Agent(a) => Pc(s', a) == Pc(s, a)
    case Checker(c) => CheckerAt(s', c) == CheckerAt(s, c)
    case Canceller(k) =>
      && (k in s.cancels <==> k in s'.cancels)
      && (k in s.cancels ==> s'.cancels[k] == s.cancels[k])
    case Submitter(k) =>
      && (k in s.submits <==> k in s'.submits)
      && (k in s.submits ==> s'.submits[k] == s.submits[k])
    case Reader => true
  }

  lemma OthersKeepPlace(s: State, e: Event, who: Actor)
    requires Enabled(s, e) && !By(e, who)
    ensures SamePlace(s, Apply(s, e), who)
  {
    Frame(s, e);
    if AgentEvent(e) {
      AgentFrame(s, e);
    } else if CheckerEvent(e) {
      CheckerFrame(s, e);
    } else if CancelEvent(e) {
      CancelFrame(s, e);
    }
  }

  class World {
    var now: State
    ghost var states: seq<State>
    ghost var events: seq<Event>
    ghost var deeds: seq<Deed>

    /** The world got where it is by a run of the protocol. */
    ghost predicate Valid()
      reads this
    {
      Run(states, events) && states[|events|] == now && AreDeeds(states, events, deeds)
    }

    constructor ()
      ensures Valid() && now == INITIAL && events == []
    {
      now := INITIAL;
      states, events, deeds := [INITIAL], [], [];
    }

    lemma HasInv()
      requires Valid()
      ensures Inv(now)
    {
      InvInEveryState(states, events, |events|);
    }

    method Do(e: Event)
      requires Valid() && Enabled(now, e)
      modifies this
      ensures Valid() && now == Apply(old(now), e) && events == old(events) + [e] && states == old(states) + [now]
      ensures KeepsRows(old(now), now)
      ensures forall who :: Mine(deeds, who) == Mine(old(deeds), who) + if By(e, who) then [Deed(old(now), e)] else []
    {
      ghost var longer, more := Extend(states, events, e);
      HasInv();
      StepKeepsRows(now, e);
      DeedsGrow(states, events, deeds, e, Apply(now, e));
      forall who ensures Mine(deeds + [Deed(now, e)], who) == Mine(deeds, who) + if By(e, who) then [Deed(now, e)] else [] {
        MineGrows(deeds, Deed(now, e), who);
      }
      deeds := deeds + [Deed(now, e)];
      now := Apply(now, e);
      states, events := longer, more;
    }

    /** Everybody but `who` takes any number of steps, whichever are possible when their turn comes. */
    method Others(who: Actor)
      requires Valid()
      modifies this
      ensures Valid() && SamePlace(old(now), now, who) && Mine(deeds, who) == Mine(old(deeds), who)
      ensures KeepsRows(old(now), now) && old(now).sent <= now.sent
      ensures old(states) <= states && old(events) <= events
    {
      var script: seq<Event> := *;
      for i := 0 to |script|
        invariant Valid() && SamePlace(old(now), now, who) && Mine(deeds, who) == Mine(old(deeds), who)
        invariant KeepsRows(old(now), now) && old(now).sent <= now.sent
        invariant old(states) <= states && old(events) <= events
      {
        if !By(script[i], who) && Enabled(now, script[i]) {
          Frame(now, script[i]);
          OthersKeepPlace(now, script[i], who);
          Do(script[i]);
        }
      }
    }
  }

  /** The items of a query, in some order and without duplicates. */
  method Listed(tasks: set<Task>) returns (found: seq<Task>)
    ensures Lists(found, tasks)
  {
    found := [];
    var rest := tasks;
    while rest != {}
      invariant rest <= tasks && Lists(found, tasks - rest)
      decreases |rest|
    {
      var t :| t in rest;
      assert t !in Elements(found);
      assert Elements(found + [t]) == Elements(found) + {t};
      found, rest := found + [t], rest - {t};
    }
  }

  lemma Associate<T>(a: seq<T>, b: seq<T>, c: seq<T>)
    ensures a + b + c == a + (b + c)
  {
  }
}
