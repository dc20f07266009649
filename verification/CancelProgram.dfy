/** The cancel lambda as a program, with everybody else acting between its calls. */
module CancelProgram {
  import opened Prelude
  import opened TaskStates
  import opened Protocol
  import opened Sessions
  import opened Worlds

  /** lambda_response: the counts of the two states and their total. */
  datatype Response = Response(pending: nat, processing: nat, total: nat)

  /**
    cancel_tasks_by_status: query one state, then overwrite the rows listed one by one,
    whatever has become of them since.  The query is step `at` of the run.
   */
  method CancelTasksByStatus(world: World, me: CallId) returns (found: seq<Task>, ghost at: nat)
    requires world.Valid() && me in world.now.cancels
    requires world.now.cancels[me].todo == [] && |world.now.cancels[me].lists| < |STATES_TO_CANCEL|
    modifies world
    ensures world.Valid() && old(world.states) <= world.states && old(world.events) <= world.events
    ensures me in world.now.cancels && world.now.cancels[me].todo == []
    ensures world.now.cancels[me].session == old(world.now).cancels[me].session
    ensures world.now.cancels[me].lists == old(world.now).cancels[me].lists + [found]
    ensures |old(world.events)| <= at < |world.events| && world.events[at] == CancelQuery(me, found)
    ensures me in world.states[at].cancels && world.states[at].cancels[me] == old(world.now).cancels[me]
    ensures old(world.now).cancels[me].lists == [] ==>
              TasksOf(old(world.now), old(world.now).cancels[me].session) <= world.now.cancels[me].baseline
    ensures old(world.now).cancels[me].lists != [] ==> world.now.cancels[me].baseline == old(world.now).cancels[me].baseline
  {
    world.Others(Canceller(me));
    var call := world.now.cancels[me];
    found := Listed(TasksInState(world.now, call.session, STATES_TO_CANCEL[|call.lists|]));
    at := |world.events|;
    world.Do(CancelQuery(me, found));
    WriteAll(world, me);
  }

  method WriteAll(world: World, me: CallId)
    requires world.Valid() && me in world.now.cancels
    modifies world
    ensures world.Valid() && me in world.now.cancels && world.now.cancels[me].todo == []
    ensures world.now.cancels[me].lists == old(world.now).cancels[me].lists
    ensures world.now.cancels[me].session == old(world.now).cancels[me].session
    ensures world.now.cancels[me].baseline == old(world.now).cancels[me].baseline
    ensures old(world.states) <= world.states && old(world.events) <= world.events
  {
    while world.now.cancels[me].todo != []
      invariant world.Valid() && me in world.now.cancels
      invariant world.now.cancels[me].lists == old(world.now).cancels[me].lists
      invariant world.now.cancels[me].session == old(world.now).cancels[me].session
      invariant world.now.cancels[me].baseline == old(world.now).cancels[me].baseline
      invariant old(world.states) <= world.states && old(world.events) <= world.events
      decreases |world.now.cancels[me].todo|
    {
      world.Others(Canceller(me));
      world.HasInv();
      world.Do(CancelWrite(me));
    }
  }

  /** What is true of a cancel call that returned. */
  ghost predicate Accounted(s: State, call: CancelCall, had: set<Task>, r: Response) {
    && Returned(call)
    && r.pending == |call.lists[0]| && r.processing == |call.lists[1]|
    && var cancelled := Elements(call.lists[0]) + Elements(call.lists[1]);
       && r.total == |cancelled| && (forall t :: t in cancelled ==> Ended(s, t))
       && call.escaped !! cancelled && (forall t :: t in had - call.escaped ==> Ended(s, t))
  }

  /** From step `from` on the task was retried. */
  ghost predicate RetriedSince(world: World, from: nat, t: Task)
    requires |world.events| <= |world.states|
    reads world
  {
    exists m :: from <= m < |world.events| && Retries(world.states[m], world.events[m], t)
  }

  /**
    cancel_session, whatever agents, checkers and other calls do meanwhile: the counts
    are the lengths of its two lists, the total counts distinct tasks, every one of
    them is terminal, and so is every task the session had when the call came in,
    except those retried between the two queries and pending at the second one.
   */
  method CancelSession(world: World, me: CallId, session: string) returns (r: Response)
    requires world.Valid() && me !in world.now.cancels
    modifies world
    ensures world.Valid() && me in world.now.cancels && world.now.cancels[me].session == session
    ensures Accounted(world.now, world.now.cancels[me], TasksOf(old(world.now), session), r)
    ensures forall t :: t in world.now.cancels[me].escaped ==> RetriedSince(world, |old(world.events)|, t)
  {
    StartCall(world, me, session);
    ghost var start := |world.events|;
    var first, i := CancelTasksByStatus(world, me);
    var second, j := CancelTasksByStatus(world, me);
    var all := first + second;
    r := Response(|first|, |second|, |all|);
    IsAccounted(world.states, world.events, me, TasksOf(old(world.now), session), r);
    AllEscapedEarlier(world, start, me, i, j);
  }

  method StartCall(world: World, me: CallId, session: string)
    requires world.Valid() && me !in world.now.cancels
    modifies world
    ensures world.Valid() && me in world.now.cancels && world.now.cancels[me] == CancelCall(session, [], [], {}, {})
    ensures |world.events| == |old(world.events)| + 1 && world.now.table == old(world.now).table
  {
    world.Do(CancelStart(me, session));
  }

  lemma AllEscapedEarlier(world: World, from: nat, k: CallId, i: nat, j: nat)
    requires Run(world.states, world.events) && from <= i && QueriesAt(world.states, world.events, k, i, j)
    requires world.now == world.states[|world.events|] && k in world.now.cancels && |world.now.cancels[k].lists| == 2
    ensures forall t :: t in world.now.cancels[k].escaped ==> RetriedSince(world, from, t)
  {
    forall t | t in world.now.cancels[k].escaped ensures RetriedSince(world, from, t) {
      var m := EscapedEarlier(world.states, world.events, k, i, j, t);
    }
  }

  lemma IsAccounted(states: seq<State>, events: seq<Event>, k: CallId, had: set<Task>, r: Response)
    requires Run(states, events) && k in states[|events|].cancels && Returned(states[|events|].cancels[k])
    requires var call := states[|events|].cancels[k];
      had <= call.baseline && r == Response(|call.lists[0]|, |call.lists[1]|, |call.lists[0] + call.lists[1]|)
    ensures Accounted(states[|events|], states[|events|].cancels[k], had, r)
  {
    CancelAccounting(states, events, |events|, k);
  }

  lemma EscapedEarlier(states: seq<State>, events: seq<Event>, k: CallId, i: nat, j: nat, t: Task) returns (m: nat)
    requires Run(states, events) && QueriesAt(states, events, k, i, j) && k in states[|events|].cancels
    requires |states[|events|].cancels[k].lists| == 2 && t in states[|events|].cancels[k].escaped
    ensures i < m < j && Retries(states[m], events[m], t)
  {
    assert StepAt(states, events, j);
    SecondQuery(states[j], k, events[j].found);
    CallKeptInRun(states, events, j + 1, |events|, k);
    m := EscapedWasRetried(states, events, k, i, j, t);
  }

  ghost predicate Ended(s: State, t: Task) {
    t in s.table && Terminal(s.table[t].status)
  }
}
