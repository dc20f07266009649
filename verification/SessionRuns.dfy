/**
  Two runs with one checker, a current listing and current reads: one in which a task is
  counted twice by a get_results call, and one in which a task escapes a cancel call.
  Each is a chain of states, one step at a time.
 */
module SessionRuns {
  import opened Prelude
  import opened TaskStates
  import opened Rows
  import opened Protocol
  import opened Discipline
  import opened Sessions

  /** The step leads from one state to the other, and is what a single checker with current reads may do. */
  ghost predicate Leads(s: State, e: Event, s': State) {
    Enabled(s, e) && Current(s, e) && Apply(s, e) == s'
  }

  lemma Follow(states: seq<State>, events: seq<Event>, e: Event, next: State) returns (longer: seq<State>, more: seq<Event>)
    requires CurrentRun(states, events) && Leads(states[|events|], e, next)
    ensures CurrentRun(longer, more) && longer == states + [next] && more == events + [e]
  {
    longer, more := ExtendAgreeing(states, events, e, Same);
  }

  const ONE: Task := "s_0"
  const FRESH := FreshRow("s", 0)
  const TAKEN := Write(FRESH, Claim("a", 10, "h"))
  const NONE: seq<Task> := []

  /** One submit call that got so far, and its row if it was written. */
  function Submitting(rows: map<Task, Row>, written: nat): State {
    INITIAL.(table := rows, reserved := {ONE}, submits := map[0 := SubmitCall("s", 0, [ONE], written, 0, true)])
  }

  const SUBMITTED := INITIAL.(
    table := map[ONE := FRESH], queue := {ONE}, sent := {ONE}, reserved := {ONE},
    submits := map[0 := SubmitCall("s", 0, [ONE], 1, 1, true)])

  lemma Submits()
    ensures Leads(INITIAL, SubmitStart(0, "s", 0, [ONE]), Submitting(map[], 0))
    ensures Leads(Submitting(map[], 0), PutRow(0), Submitting(map[ONE := FRESH], 1))
  {
  }

  lemma Sends()
    ensures Leads(Submitting(map[ONE := FRESH], 1), SendChunk(0, {ONE}), SUBMITTED)
  {
    assert NextChunk(SubmitCall("s", 0, [ONE], 1, 0, true)) == [ONE];
  }

  lemma ReachSubmitted() returns (states: seq<State>, events: seq<Event>)
    ensures CurrentRun(states, events) && states[|events|] == SUBMITTED
  {
    Submits();
    Sends();
    states, events := Follow([INITIAL], [], SubmitStart(0, "s", 0, [ONE]), Submitting(map[], 0));
    states, events := Follow(states, events, PutRow(0), Submitting(map[ONE := FRESH], 1));
    states, events := Follow(states, events, SendChunk(0, {ONE}), SUBMITTED);
  }

  /** An agent receives the task and claims it. */
  function Receiving(s: State): State {
    s.(issued := map["h" := ONE], agents := map["a" := Protocol.Received(ONE, "h")])
  }

  function Claiming(s: State): State {
    s.(table := map[ONE := TAKEN], issued := map["h" := ONE], agents := map["a" := Running(ONE, "h", 1)])
  }

  lemma Receives(s: State)
    requires s.queue == {ONE} && s.issued == map[] && s.agents == map[]
    ensures Leads(s, Receive("a", ONE, "h"), Receiving(s))
  {
  }

  lemma Claims(s: State)
    requires s.table == map[ONE := FRESH]
    ensures Leads(Receiving(s), ClaimTask("a", 10), Claiming(s))
  {
  }

  /** The cancel call with these lists behind it. */
  function Cancelling(s: State, lists: seq<seq<Task>>, todo: seq<Task>, escaped: set<Task>): State {
    s.(cancels := map[0 := CancelCall("s", lists, todo, if lists == [] then {} else {ONE}, escaped)])
  }

  lemma Starts(s: State)
    requires s.cancels == map[]
    ensures Leads(s, CancelStart(0, "s"), Cancelling(s, [], [], {}))
  {
  }

  lemma Queries(s: State, found: seq<Task>)
    requires s.table.Keys == {ONE} && s.table[ONE].session == "s" && |found| <= 1
    requires Elements(found) == TasksInState(s, "s", Pending)
    ensures Leads(Cancelling(s, [], [], {}), CancelQuery(0, found), Cancelling(s, [found], found, {}))
  {
    assert TasksOf(Cancelling(s, [], [], {}), "s") == {ONE};
    assert [] + [found] == [found];
  }

  // ---- counted twice ----

  const LISTED := Cancelling(SUBMITTED, [[ONE]], [ONE], {})

  const STORED := Claiming(LISTED).(outputs := {ONE}, agents := map["a" := Protocol.Stored(ONE, "h", 1)])

  const DONE := STORED.(table := map[ONE := Write(TAKEN, Finish("a"))], agents := map["a" := Protocol.Completed(ONE, "h", 1)])

  const OVERTURNED := Cancelling(DONE.(table := map[ONE := Write(DONE.table[ONE], Cancel)]), [[ONE]], [], {})

  lemma Finishes()
    ensures Leads(Claiming(LISTED), StoreOutput("a"), STORED) && Leads(STORED, FinishTask("a"), DONE)
  {
  }

  lemma Overturns()
    ensures Leads(DONE, CancelWrite(0), OVERTURNED)
  {
    assert [ONE][1..] == [];
  }

  lemma ReachListed() returns (states: seq<State>, events: seq<Event>)
    ensures CurrentRun(states, events) && states[|events|] == LISTED
  {
    states, events := ReachSubmitted();
    Starts(SUBMITTED);
    assert TasksInState(SUBMITTED, "s", Pending) == Elements([ONE]) == {ONE};
    Queries(SUBMITTED, [ONE]);
    states, events := Follow(states, events, CancelStart(0, "s"), Cancelling(SUBMITTED, [], [], {}));
    states, events := Follow(states, events, CancelQuery(0, [ONE]), LISTED);
  }

  lemma ReachDone() returns (states: seq<State>, events: seq<Event>)
    ensures CurrentRun(states, events) && states[|events|] == DONE
  {
    states, events := ReachListed();
    Receives(LISTED);
    Claims(LISTED);
    Finishes();
    states, events := Follow(states, events, Receive("a", ONE, "h"), Receiving(LISTED));
    states, events := Follow(states, events, ClaimTask("a", 10), Claiming(LISTED));
    states, events := Follow(states, events, StoreOutput("a"), STORED);
    states, events := Follow(states, events, FinishTask("a"), DONE);
  }

  lemma OverturnedIsCountedTwice()
    ensures TasksInResponse(DONE, OVERTURNED, OVERTURNED, "s") == 2 && |TasksOf(OVERTURNED, "s")| == 1
    ensures ListedTwice(DONE, OVERTURNED, OVERTURNED, "s") == {ONE}
  {
    assert TasksInState(DONE, "s", Finished) == {ONE};
    assert TasksInState(OVERTURNED, "s", Cancelled) == {ONE};
    assert TasksInState(OVERTURNED, "s", Failed) == {};
    assert TasksOf(OVERTURNED, "s") == {ONE};
  }

  /**
    Tasks are counted twice: a cancel call that listed the only task while it was
    pending overwrites it after it finished, and a get_results call around that write
    reports two tasks in a session of one.
   */
  lemma CountedTwice() returns (states: seq<State>, events: seq<Event>)
    ensures CurrentRun(states, events) && |states| >= 2
    ensures var s, s' := states[|states| - 2], states[|states| - 1];
      TasksInResponse(s, s', s', "s") == 2 && |TasksOf(s', "s")| == 1 && ListedTwice(s, s', s', "s") == {ONE}
  {
    states, events := ReachDone();
    Overturns();
    states, events := Follow(states, events, CancelWrite(0), OVERTURNED);
    OverturnedIsCountedTwice();
  }

  // ---- escaped ----

  const HELD := Claiming(SUBMITTED)

  const OPENED := Cancelling(HELD, [NONE], NONE, {})

  /** Eleven seconds later the claim has expired, and the checker stands at `pc`. */
  function Later(pc: CheckerPc): State {
    OPENED.(clock := 11, checkers := map[TTL := pc])
  }

  const RETRIED := Cancelling(
    HELD.(clock := 11, table := map[ONE := Write(TAKEN, Retry(1))], checkers := map[TTL := Protocol.Listing([])]), [NONE], NONE, {})

  const ESCAPED := Cancelling(RETRIED, [NONE, NONE], NONE, {ONE})

  lemma Expires()
    ensures Leads(OPENED, Tick(11), OPENED.(clock := 11))
    ensures Leads(OPENED.(clock := 11), ListExpired(TTL, [ONE]), Later(Protocol.Listing([ONE])))
  {
  }

  lemma Retries()
    ensures Leads(Later(Protocol.Listing([ONE])), ReadRow(TTL, Version(0, "h")), Later(Protocol.Holding(ONE, Version(0, "h"), [])))
    ensures Leads(Later(Protocol.Holding(ONE, Version(0, "h"), [])), RetryTask(TTL), RETRIED)
  {
    assert [ONE][1..] == [];
  }

  lemma Escapes()
    ensures Leads(RETRIED, CancelQuery(0, NONE), ESCAPED)
  {
    assert TasksInState(RETRIED, "s", Processing) == Elements(NONE) == {};
    assert TasksInState(RETRIED, "s", Pending) == {ONE};
    assert [NONE] + [NONE] == [NONE, NONE];
    assert RETRIED.cancels[0].baseline * TasksInState(RETRIED, "s", Pending) == {ONE};
  }

  lemma ReachOpened() returns (states: seq<State>, events: seq<Event>)
    ensures CurrentRun(states, events) && states[|events|] == OPENED
  {
    states, events := ReachSubmitted();
    Receives(SUBMITTED);
    Claims(SUBMITTED);
    Starts(HELD);
    assert TasksInState(HELD, "s", Pending) == Elements(NONE) == {};
    Queries(HELD, NONE);
    states, events := Follow(states, events, Receive("a", ONE, "h"), Receiving(SUBMITTED));
    states, events := Follow(states, events, ClaimTask("a", 10), HELD);
    states, events := Follow(states, events, CancelStart(0, "s"), Cancelling(HELD, [], [], {}));
    states, events := Follow(states, events, CancelQuery(0, NONE), OPENED);
  }

  lemma ReachRetried() returns (states: seq<State>, events: seq<Event>)
    ensures CurrentRun(states, events) && states[|events|] == RETRIED
  {
    states, events := ReachOpened();
    Expires();
    Retries();
    states, events := Follow(states, events, Tick(11), OPENED.(clock := 11));
    states, events := Follow(states, events, ListExpired(TTL, [ONE]), Later(Protocol.Listing([ONE])));
    states, events := Follow(states, events, ReadRow(TTL, Version(0, "h")), Later(Protocol.Holding(ONE, Version(0, "h"), [])));
    states, events := Follow(states, events, RetryTask(TTL), RETRIED);
  }

  /**
    Tasks do escape: the agent falls silent between the two queries and the task is
    retried, so it is processing at the first, pending at the second, and still pending
    when the call returns.
   */
  lemma RetryEscapes() returns (states: seq<State>, events: seq<Event>)
    ensures CurrentRun(states, events) && 0 in states[|events|].cancels && ONE in states[|events|].table
    ensures var s := states[|events|];
      && Returned(s.cancels[0]) && s.cancels[0].session == "s" && s.cancels[0].baseline == s.cancels[0].escaped == {ONE}
      && s.table[ONE].status.Pending?
  {
    states, events := ReachRetried();
    Escapes();
    states, events := Follow(states, events, CancelQuery(0, NONE), ESCAPED);
  }
}
