/** The get_results lambda and the client's polling loop, with everybody else acting between the queries. */
module ResultsProgram {
  import opened Prelude
  import opened TaskStates
  import opened Protocol
  import opened Sessions
  import opened Worlds
  import opened CancelProgram

  datatype Results = Results(finished: seq<Task>, cancelled: seq<Task>, failed: seq<Task>, tasksInResponse: nat)

  /** From step `from` on a finalizing write overturned a terminal row of the session. */
  ghost predicate OverturnedSince(world: World, from: nat, session: string)
    requires |world.events| <= |world.states|
    reads world
  {
    exists m, t :: from <= m < |world.events| && t in TasksOf(world.now, session) && Overturns(world.states[m], world.events[m], t)
  }

  /** Everything a response lists is a terminal task of the session, and what it lists as finished has its output stored. */
  ghost predicate ListsEnded(s: State, session: string, r: Results) {
    && (forall t :: t in r.finished ==> t in TerminalOf(s, session) && t in s.outputs)
    && (forall t :: t in r.cancelled ==> t in TerminalOf(s, session))
    && (forall t :: t in r.failed ==> t in TerminalOf(s, session))
  }

  function InResponse(r: Results): set<Task> {
    Elements(r.finished) + Elements(r.cancelled) + Elements(r.failed)
  }

  /** Something the client can check on the response. */
  predicate NoneListedTwice(r: Results) {
    var f, c, x := Elements(r.finished), Elements(r.cancelled), Elements(r.failed);
    f !! c && f !! x && c !! x
  }

  /** A response that lists no task twice and counts the whole session proves every task of it terminal. */
  lemma FullResponse(s: State, session: string, r: Results, ids: seq<Task>)
    requires ListsEnded(s, session, r) && r.tasksInResponse == |InResponse(r)| == |ids| && Lists(ids, TasksOf(s, session))
    ensures forall t :: t in ids ==> Ended(s, t)
  {
    NoDuplicatesSize(ids);
    assert InResponse(r) <= TerminalOf(s, session) <= TasksOf(s, session);
    assert |TasksOf(s, session)| == |InResponse(r)| + |TasksOf(s, session) - InResponse(r)|;
    forall t | t in ids ensures Ended(s, t) {
      assert t in Elements(ids);
      assert t !in TasksOf(s, session) - InResponse(r);
    }
  }

  /** The three lists are complete: each has every task of the session that had its status when it was queried, once. */
  ghost predicate Reports(s1: State, s2: State, s3: State, session: string, r: Results) {
    && NoDuplicates(r.finished) && NoDuplicates(r.cancelled) && NoDuplicates(r.failed)
    && (forall t :: t in r.finished <==> t in s1.table && s1.table[t].session == session && s1.table[t].status == Finished)
    && (forall t :: t in r.cancelled <==> t in s2.table && s2.table[t].session == session && s2.table[t].status == Cancelled)
    && (forall t :: t in r.failed <==> t in s3.table && s3.table[t].session == session && s3.table[t].status == Failed)
    && r.tasksInResponse == |r.finished| + |r.cancelled| + |r.failed|
  }

  // ---- a session that has finished ----

  /** From step `from` to step `to` every task of the session is terminal, none is added, and none is overturned. */
  ghost predicate Quiet(states: seq<State>, events: seq<Event>, from: nat, to: nat, session: string)
    requires from <= to <= |events| < |states|
  {
    && (forall t :: t in TasksOf(states[from], session) ==> Terminal(states[from].table[t].status))
    && TasksOf(states[to], session) == TasksOf(states[from], session)
    && forall m, t :: from <= m < to && t in TasksOf(states[to], session) ==> !Overturns(states[m], events[m], t)
  }

  lemma TasksStay(states: seq<State>, events: seq<Event>, i: nat, j: nat, session: string)
    requires Run(states, events) && i <= j < |states|
    ensures TasksOf(states[i], session) <= TasksOf(states[j], session)
  {
    forall t | t in TasksOf(states[i], session) ensures t in TasksOf(states[j], session) {
      SessionKept(states, events, i, j, t);
    }
  }

  /** Through a quiet stretch every row of the session keeps its status. */
  lemma QuietKeeps(states: seq<State>, events: seq<Event>, from: nat, i: nat, to: nat, session: string)
    requires Run(states, events) && from <= i <= to <= |events| && Quiet(states, events, from, to, session)
    ensures TasksOf(states[i], session) == TasksOf(states[from], session)
    ensures forall t :: t in TasksOf(states[from], session) ==>
      t in states[i].table && states[i].table[t].status == states[from].table[t].status
  {
    TasksStay(states, events, from, i, session);
    TasksStay(states, events, i, to, session);
    forall t | t in TasksOf(states[from], session) ensures t in states[i].table && states[i].table[t].status == states[from].table[t].status {
      assert t in TasksOf(states[i], session);
      if states[i].table[t].status != states[from].table[t].status {
        var m := OverturnedOnTheWay(states, events, from, i, t);
      }
    }
  }

  /** Any part of a quiet stretch is quiet. */
  lemma QuietPart(states: seq<State>, events: seq<Event>, from: nat, i: nat, j: nat, to: nat, session: string)
    requires Run(states, events) && from <= i <= j <= to <= |events| && Quiet(states, events, from, to, session)
    ensures Quiet(states, events, i, j, session)
  {
    QuietKeeps(states, events, from, i, to, session);
    QuietKeeps(states, events, from, j, to, session);
  }

  /** A query of a terminal state finds the same tasks anywhere in a quiet stretch. */
  lemma QuietQuery(states: seq<State>, events: seq<Event>, from: nat, i: nat, to: nat, session: string, status: Status)
    requires Run(states, events) && from <= i <= to <= |events| && Quiet(states, events, from, to, session)
    ensures TasksInState(states[i], session, status) == TasksInState(states[from], session, status)
  {
    QuietKeeps(states, events, from, i, to, session);
    forall t ensures t in TasksInState(states[i], session, status) <==> t in TasksInState(states[from], session, status) {
      assert t in TasksOf(states[i], session) <==> t in TasksOf(states[from], session);
    }
  }

  /** A finished session that stays so while the three queries are made is reported whole: the count is its size. */
  lemma FinishedIsReported(states: seq<State>, events: seq<Event>, from: nat, i: nat, j: nat, k: nat, session: string, r: Results)
    requires Run(states, events) && from <= i <= j <= k <= |events| && Quiet(states, events, from, k, session)
    requires Reports(states[i], states[j], states[k], session, r)
    ensures r.tasksInResponse == |TasksOf(states[from], session)|
  {
    QuietQuery(states, events, from, i, k, session, Finished);
    QuietQuery(states, events, from, j, k, session, Cancelled);
    QuietQuery(states, events, from, k, k, session, Failed);
    ReportCounts(states[i], states[j], states[k], session, r);
    SnapshotIsComplete(states[from], session);
  }

  lemma ReportCounts(s1: State, s2: State, s3: State, session: string, r: Results)
    requires Reports(s1, s2, s3, session, r)
    ensures Elements(r.finished) == TasksInState(s1, session, Finished)
    ensures Elements(r.cancelled) == TasksInState(s2, session, Cancelled)
    ensures Elements(r.failed) == TasksInState(s3, session, Failed)
    ensures r.tasksInResponse == TasksInResponse(s1, s2, s3, session)
  {
    NoDuplicatesSize(r.finished);
    NoDuplicatesSize(r.cancelled);
    NoDuplicatesSize(r.failed);
    assert forall t :: t in Elements(r.finished) <==> t in r.finished;
    assert forall t :: t in Elements(r.cancelled) <==> t in r.cancelled;
    assert forall t :: t in Elements(r.failed) <==> t in r.failed;
  }

  // ---- the lambda ----

  /** Query one state. */
  method Query(world: World, session: string, status: Status) returns (found: seq<Task>)
    requires world.Valid()
    ensures NoDuplicates(found)
    ensures forall t :: t in found <==> t in world.now.table && world.now.table[t].session == session && world.now.table[t].status == status
  {
    found := Listed(TasksInState(world.now, session, status));
    assert forall t :: t in found <==> t in Elements(found);
  }

  /**
    get_tasks_statuses_in_session: three queries at different moments, after i, j and k
    steps of the run.  Each list is complete and exact at its moment, and whatever is
    listed has ended.  The count is that of distinct tasks exactly when no task is
    listed twice, and is then at most the number of terminal tasks of the session; a
    task listed twice had its terminal row overturned during the call.  A session that
    was finished at the call and is not disturbed during it is reported whole.
   */
  method GetTasksStatuses(world: World, session: string) returns (r: Results, ghost i: nat, ghost j: nat, ghost k: nat)
    requires world.Valid()
    modifies world
    ensures world.Valid() && old(world.states) <= world.states && old(world.events) <= world.events
    ensures i == |old(world.events)| && i <= j <= k == |world.events|
    ensures Reports(world.states[i], world.states[j], world.states[k], session, r)
    ensures ListsEnded(world.now, session, r)
    ensures r.tasksInResponse == |InResponse(r)| <==> NoneListedTwice(r)
    ensures NoneListedTwice(r) ==> r.tasksInResponse <= |TerminalOf(world.now, session)|
    ensures !NoneListedTwice(r) ==> OverturnedSince(world, |old(world.events)|, session)
    ensures Quiet(world.states, world.events, i, k, session) ==> r.tasksInResponse == |TasksOf(old(world.now), session)|
  {
    i := |world.events|;
    var finished := Query(world, session, Finished);
    world.Others(Reader);
    j := |world.events|;
    var cancelled := Query(world, session, Cancelled);
    world.Others(Reader);
    k := |world.events|;
    var failed := Query(world, session, Failed);
    r := Results(finished, cancelled, failed, |finished| + |cancelled| + |failed|);
    ResponseOk(world, i, j, k, session, r);
  }

  lemma ResponseOk(world: World, i: nat, j: nat, k: nat, session: string, r: Results)
    requires world.Valid() && i <= j <= k == |world.events| && Reports(world.states[i], world.states[j], world.states[k], session, r)
    ensures ListsEnded(world.now, session, r)
    ensures r.tasksInResponse == |InResponse(r)| <==> NoneListedTwice(r)
    ensures NoneListedTwice(r) ==> r.tasksInResponse <= |TerminalOf(world.now, session)|
    ensures !NoneListedTwice(r) ==> OverturnedSince(world, i, session)
    ensures Quiet(world.states, world.events, i, k, session) ==> r.tasksInResponse == |TasksOf(world.states[i], session)|
  {
    ReportCounts(world.states[i], world.states[j], world.states[k], session, r);
    ResponseLists(world.states, world.events, i, j, k, session, r);
    ResponseCounts(world.states, world.events, i, j, k, session, r);
    if !NoneListedTwice(r) {
      var m, t := SomeOverturned(world.states, world.events, i, j, k, session);
    }
    if Quiet(world.states, world.events, i, k, session) {
      FinishedIsReported(world.states, world.events, i, i, j, k, session, r);
    }
  }

  lemma SomeOverturned(states: seq<State>, events: seq<Event>, i: nat, j: nat, k: nat, session: string) returns (m: nat, t: Task)
    requires Run(states, events) && i <= j <= k < |states| && ListedTwice(states[i], states[j], states[k], session) != {}
    ensures i <= m < k && Overturns(states[m], events[m], t) && t in TasksOf(states[k], session)
  {
    t :| t in ListedTwice(states[i], states[j], states[k], session);
    m := ListedTwiceWasOverturned(states, events, i, j, k, session, t);
    ResponseIsSound(states, events, i, j, k, session);
    assert t in AllListed(states[i], states[j], states[k], session);
  }

  lemma ResponseCounts(states: seq<State>, events: seq<Event>, i: nat, j: nat, k: nat, session: string, r: Results)
    requires Run(states, events) && i <= j <= k < |states|
    requires Elements(r.finished) == TasksInState(states[i], session, Finished)
    requires Elements(r.cancelled) == TasksInState(states[j], session, Cancelled)
    requires Elements(r.failed) == TasksInState(states[k], session, Failed)
    requires r.tasksInResponse == TasksInResponse(states[i], states[j], states[k], session)
    ensures NoneListedTwice(r) <==> ListedTwice(states[i], states[j], states[k], session) == {}
    ensures r.tasksInResponse == |InResponse(r)| <==> NoneListedTwice(r)
    ensures NoneListedTwice(r) ==> r.tasksInResponse <= |TerminalOf(states[k], session)|
  {
    NoneTwice(states, events, i, j, k, session, r);
    CountsDistinctTasks(states, events, i, j, k, session);
    ResponseIsSound(states, events, i, j, k, session);
  }

  lemma NoneTwice(states: seq<State>, events: seq<Event>, i: nat, j: nat, k: nat, session: string, r: Results)
    requires Run(states, events) && i <= j <= k < |states|
    requires Elements(r.finished) == TasksInState(states[i], session, Finished)
    requires Elements(r.cancelled) == TasksInState(states[j], session, Cancelled)
    requires Elements(r.failed) == TasksInState(states[k], session, Failed)
    ensures NoneListedTwice(r) <==> ListedTwice(states[i], states[j], states[k], session) == {}
    ensures InResponse(r) == AllListed(states[i], states[j], states[k], session)
  {
    ListedTwiceIsOverlap(states, events, i, j, k, session);
    OverlapsEmpty(Elements(r.finished), Elements(r.cancelled), Elements(r.failed));
  }

  lemma ResponseLists(states: seq<State>, events: seq<Event>, i: nat, j: nat, k: nat, session: string, r: Results)
    requires Run(states, events) && i <= j <= k < |states|
    requires Elements(r.finished) == TasksInState(states[i], session, Finished)
    requires Elements(r.cancelled) == TasksInState(states[j], session, Cancelled)
    requires Elements(r.failed) == TasksInState(states[k], session, Failed)
    ensures ListsEnded(states[k], session, r)
  {
    forall t | t in r.finished ensures t in TerminalOf(states[k], session) && t in states[k].outputs {
      assert t in Elements(r.finished);
      ListedStaysTerminal(states, events, i, k, session, Finished, t);
    }
    forall t | t in r.cancelled ensures t in TerminalOf(states[k], session) {
      assert t in Elements(r.cancelled);
      ListedStaysTerminal(states, events, j, k, session, Cancelled, t);
    }
    forall t | t in r.failed ensures t in TerminalOf(states[k], session) {
      assert t in Elements(r.failed);
    }
  }

  /** What is true of every response a polling client gets. */
  ghost predicate Sound(world: World, from: nat, session: string, r: Results)
    requires |world.events| <= |world.states|
    reads world
  {
    && ListsEnded(world.now, session, r)
    && (r.tasksInResponse == |InResponse(r)| <==> NoneListedTwice(r))
    && (!NoneListedTwice(r) ==> OverturnedSince(world, from, session))
  }

  /** Wait, then ask; `from` is the step at which the client began to poll, `asked` the one at which the lambda was called. */
  method PollAgain(world: World, session: string, ghost from: nat) returns (r: Results, ghost asked: nat)
    requires world.Valid() && from <= |world.events|
    modifies world
    ensures world.Valid() && old(world.states) <= world.states && old(world.events) <= world.events
    ensures Sound(world, from, session, r)
    ensures |old(world.events)| <= asked <= |world.events|
    ensures Quiet(world.states, world.events, asked, |world.events|, session) ==> r.tasksInResponse == |TasksOf(world.states[asked], session)|
  {
    world.Others(Reader);
    ghost var j, k;
    r, asked, j, k := GetTasksStatuses(world, session);
  }

  /** The response does not count so many tasks, so no finished session of that size was quiet while it was asked for. */
  ghost predicate NotYet(states: seq<State>, events: seq<Event>, from: nat, to: nat, session: string, n: nat)
    requires from <= to <= |events| < |states|
  {
    Quiet(states, events, from, to, session) ==> |TasksOf(states[from], session)| != n
  }

  /** So no longer stretch around it was one either. */
  lemma NotYetAround(states: seq<State>, events: seq<Event>, from: nat, i: nat, j: nat, to: nat, session: string, n: nat)
    requires Run(states, events) && from <= i <= j <= to <= |events| && NotYet(states, events, i, j, session, n)
    ensures NotYet(states, events, from, to, session, n)
  {
    if Quiet(states, events, from, to, session) {
      QuietPart(states, events, from, i, j, to, session);
      QuietKeeps(states, events, from, i, to, session);
    }
  }

  /**
    The client's get_results: poll until the count is the number of submitted tasks,
    or give up after `polls` more polls, all of them used.  Every output it then fetches
    is there; and a client that did not give up has a finished session if the response
    lists no task twice; and it can list one twice only after a terminal row of the
    session was overturned.  It does not give up on a session of that size which was
    finished, and undisturbed, from the call or from its last poll on.
   */
  method GetResults(world: World, session: string, ids: seq<Task>, polls: nat)
    returns (r: Results, timedOut: bool, responses: nat, ghost asked: nat)
    requires world.Valid()
    modifies world
    ensures world.Valid() && old(world.states) <= world.states && old(world.events) <= world.events
    ensures ListsEnded(world.now, session, r)
    ensures !timedOut <==> r.tasksInResponse == |ids|
    ensures !timedOut && NoneListedTwice(r) && Lists(ids, TasksOf(world.now, session)) ==> forall t :: t in ids ==> Ended(world.now, t)
    ensures !NoneListedTwice(r) ==> OverturnedSince(world, |old(world.events)|, session)
    ensures 1 <= responses <= polls + 1 && (timedOut ==> responses == polls + 1)
    ensures |old(world.events)| <= asked <= |world.events|
    ensures timedOut ==> NotYet(world.states, world.events, asked, |world.events|, session, |ids|)
    ensures timedOut ==> NotYet(world.states, world.events, |old(world.events)|, |world.events|, session, |ids|)
  {
    r, asked := PollAgain(world, session, |world.events|);
    responses := 1;
    while r.tasksInResponse != |ids| && responses <= polls
      invariant world.Valid() && old(world.states) <= world.states && old(world.events) <= world.events
      invariant Sound(world, |old(world.events)|, session, r) && 1 <= responses <= polls + 1
      invariant |old(world.events)| <= asked <= |world.events|
      invariant r.tasksInResponse != |ids| ==> NotYet(world.states, world.events, asked, |world.events|, session, |ids|)
      decreases polls - responses
    {
      r, asked := PollAgain(world, session, |old(world.events)|);
      responses := responses + 1;
    }
    timedOut := r.tasksInResponse != |ids|;
    if !timedOut && NoneListedTwice(r) && Lists(ids, TasksOf(world.now, session)) {
      FullResponse(world.now, session, r, ids);
    }
    if timedOut {
      NotYetAround(world.states, world.events, |old(world.events)|, asked, |world.events|, |world.events|, session, |ids|);
    }
  }
}
