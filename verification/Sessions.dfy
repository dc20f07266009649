/**
  Session-wide calls: what one cancel_session call and one get_results call report
  while agents, checkers and other calls go on working.
 */
module Sessions {
  import opened Prelude
  import opened TaskStates
  import opened Rows
  import opened Protocol
  import opened Safety
  import opened SafetyTheorems

  // ---- cancel_session ----

  ghost predicate ListsOk(s: State, call: CancelCall) {
    && |call.lists| <= 2
    && (call.todo != [] ==> call.lists != [])
    && (forall i :: 0 <= i < |call.lists| ==> NoDuplicates(call.lists[i]))
    && (forall i, t :: 0 <= i < |call.lists| && t in call.lists[i] ==>
          t in s.table && (Terminal(s.table[t].status) || (i == |call.lists| - 1 && t in call.todo)))
    && (|call.lists| == 2 ==> Elements(call.lists[0]) !! Elements(call.lists[1]))
    && (forall t :: t in call.todo ==> t in call.lists[|call.lists| - 1])
  }

  /** After the second query every task of the baseline is terminal, about to be overwritten, or escaped. */
  ghost predicate BaselineOk(s: State, call: CancelCall) {
    && (forall t :: t in call.baseline ==> t in s.table && s.table[t].session == call.session)
    && (|call.lists| == 2 ==> forall t :: t in call.baseline ==> t in call.escaped || Terminal(s.table[t].status) || t in call.todo)
    && (call.lists == [] ==> call.baseline == {})
  }

  ghost predicate EscapedOk(call: CancelCall) {
    && call.escaped <= call.baseline
    && (|call.lists| < 2 ==> call.escaped == {})
    && (forall i :: 0 <= i < |call.lists| ==> Elements(call.lists[i]) !! call.escaped)
  }

  ghost predicate CallOk(s: State, call: CancelCall) {
    ListsOk(s, call) && BaselineOk(s, call) && EscapedOk(call)
  }

  ghost predicate CallsOk(s: State) {
    forall k :: k in s.cancels ==> CallOk(s, s.cancels[k])
  }

  /** Rows stay, keep their session and stay terminal. */
  ghost predicate RowsCarryOver(s: State, s': State) {
    forall t :: t in s.table ==>
      && t in s'.table && s'.table[t].session == s.table[t].session
      && (Terminal(s.table[t].status) ==> Terminal(s'.table[t].status))
  }

  lemma CallCarriesOver(s: State, s': State, call: CancelCall)
    requires CallOk(s, call) && RowsCarryOver(s, s')
    ensures CallOk(s', call)
  {
  }

  lemma StepCarriesOver(s: State, e: Event)
    requires SubmitsOk(s) && Enabled(s, e)
    ensures RowsCarryOver(s, Apply(s, e))
  {
    RowEffect(s, e);
  }

  lemma QueryKeepsLists(s: State, k: CallId, found: seq<Task>)
    requires k in s.cancels && ListsOk(s, s.cancels[k]) && Enabled(s, CancelQuery(k, found))
    ensures ListsOk(Apply(s, CancelQuery(k, found)), Apply(s, CancelQuery(k, found)).cancels[k])
  {
    var call := s.cancels[k];
    assert forall t :: t in found <==> t in Elements(found);
    if |call.lists| == 1 {
      assert forall t :: t in Elements(call.lists[0]) ==> t in call.lists[0];
    }
  }

  lemma QueryKeepsBaseline(s: State, k: CallId, found: seq<Task>)
    requires k in s.cancels && CallOk(s, s.cancels[k]) && Enabled(s, CancelQuery(k, found))
    ensures BaselineOk(Apply(s, CancelQuery(k, found)), Apply(s, CancelQuery(k, found)).cancels[k])
  {
    var call := s.cancels[k];
    var listed := TasksInState(s, call.session, STATES_TO_CANCEL[|call.lists|]);
    assert forall t :: t in found <==> t in listed;
  }

  lemma QueryKeepsEscaped(s: State, k: CallId, found: seq<Task>)
    requires k in s.cancels && CallOk(s, s.cancels[k]) && Enabled(s, CancelQuery(k, found))
    ensures EscapedOk(Apply(s, CancelQuery(k, found)).cancels[k])
  {
    var call := s.cancels[k];
    if |call.lists| == 1 {
      assert forall t :: t in Elements(call.lists[0]) ==> t in call.lists[0];
      assert Elements(found) == TasksInState(s, call.session, Processing);
    }
  }

  lemma QueryKeepsCall(s: State, k: CallId, found: seq<Task>)
    requires CallsOk(s) && Enabled(s, CancelQuery(k, found))
    ensures CallOk(Apply(s, CancelQuery(k, found)), Apply(s, CancelQuery(k, found)).cancels[k])
  {
    QueryKeepsLists(s, k, found);
    QueryKeepsBaseline(s, k, found);
    QueryKeepsEscaped(s, k, found);
  }

  lemma RestOfTodo(todo: seq<Task>, t: Task)
    requires todo != []
    ensures t in todo <==> t == todo[0] || t in todo[1..]
  {
  }

  lemma CancelWriteKeepsCall(s: State, k: CallId)
    requires Enabled(s, CancelWrite(k)) && CallOk(s, s.cancels[k])
    ensures CallOk(Apply(s, CancelWrite(k)), Apply(s, CancelWrite(k)).cancels[k])
  {
    forall t ensures t in s.cancels[k].todo <==> t == s.cancels[k].todo[0] || t in s.cancels[k].todo[1..] {
      RestOfTodo(s.cancels[k].todo, t);
    }
  }

  lemma CancelKeepsOwnCall(s: State, e: Event)
    requires CallsOk(s) && Enabled(s, e) && CancelEvent(e)
    ensures e.call in Apply(s, e).cancels && CallOk(Apply(s, e), Apply(s, e).cancels[e.call])
  {
    match e
    case CancelQuery(k, found) => QueryKeepsCall(s, k, found);
    case CancelWrite(k) => CancelWriteKeepsCall(s, k);
    case CancelStart(_, _) =>
  }

  lemma OtherCallsUntouched(s: State, e: Event, k: CallId)
    requires Enabled(s, e) && k in Apply(s, e).cancels && !(CancelEvent(e) && e.call == k)
    ensures k in s.cancels && Apply(s, e).cancels[k] == s.cancels[k]
  {
    Frame(s, e);
    if CancelEvent(e) {
      CancelFrame(s, e);
    }
  }

  lemma StepKeepsCalls(s: State, e: Event)
    requires SubmitsOk(s) && CallsOk(s) && Enabled(s, e)
    ensures CallsOk(Apply(s, e))
  {
    StepCarriesOver(s, e);
    forall k | k in Apply(s, e).cancels ensures CallOk(Apply(s, e), Apply(s, e).cancels[k]) {
      if CancelEvent(e) && e.call == k {
        CancelKeepsOwnCall(s, e);
      } else {
        OtherCallsUntouched(s, e, k);
        CallCarriesOver(s, Apply(s, e), s.cancels[k]);
      }
    }
  }

  lemma {:induction false} CallsInEveryState(states: seq<State>, events: seq<Event>, i: nat)
    requires Run(states, events) && i < |states|
    ensures CallsOk(states[i])
  {
    if i > 0 {
      CallsInEveryState(states, events, i - 1);
      InvInEveryState(states, events, i - 1);
      assert StepAt(states, events, i - 1);
      StepKeepsCalls(states[i - 1], events[i - 1]);
    }
  }

  /**
    What the second query of a cancel call leaves uncovered: every task of the
    baseline is terminal or about to be overwritten exactly when none of them is
    pending at that moment.
   */
  lemma SecondQueryCovers(states: seq<State>, events: seq<Event>, i: nat, k: CallId, found: seq<Task>)
    requires Run(states, events) && i < |events| && events[i] == CancelQuery(k, found)
    requires k in states[i].cancels && |states[i].cancels[k].lists| == 1
    ensures k in states[i + 1].cancels
    ensures var s, call := states[i + 1], states[i + 1].cancels[k];
      && call.baseline <= s.table.Keys
      && ((forall t :: t in call.baseline ==> Terminal(s.table[t].status) || t in call.todo) <==>
          (forall t :: t in call.baseline ==> !s.table[t].status.Pending?))
      && call.escaped == set t | t in call.baseline && s.table[t].status.Pending?
  {
    assert StepAt(states, events, i);
    CallsInEveryState(states, events, i);
    CallsInEveryState(states, events, i + 1);
    var call := states[i + 1].cancels[k];
    assert CallOk(states[i], states[i].cancels[k]) && CallOk(states[i + 1], call);
    assert forall t :: t in found <==> t in TasksInState(states[i], call.session, Processing);
  }

  predicate Returned(call: CancelCall) {
    |call.lists| == |STATES_TO_CANCEL| && call.todo == []
  }

  /** The lambda's total_cancelled_tasks. */
  function TotalCancelled(call: CancelCall): nat
    requires |call.lists| == 2
  {
    |call.lists[0]| + |call.lists[1]|
  }

  /**
    When a cancel_session call returns, whatever ran meanwhile: the total counts
    distinct tasks, all of them are terminal, and so is every task the session had at
    the first query, except those that had escaped: pending at the second query, and
    listed by neither.
   */
  lemma CancelAccounting(states: seq<State>, events: seq<Event>, i: nat, k: CallId)
    requires Run(states, events) && i < |states| && k in states[i].cancels && Returned(states[i].cancels[k])
    ensures Accounts(states[i], states[i].cancels[k])
  {
    CallsInEveryState(states, events, i);
    ReturnedAccounts(states[i], states[i].cancels[k]);
  }

  /** The accounts of a call that returned. */
  ghost predicate Accounts(s: State, call: CancelCall)
    requires |call.lists| == 2
  {
    && TotalCancelled(call) == |Elements(call.lists[0]) + Elements(call.lists[1])|
    && (forall t :: t in Elements(call.lists[0]) + Elements(call.lists[1]) ==> t in s.table && Terminal(s.table[t].status))
    && (forall t :: t in call.baseline - call.escaped ==> t in s.table && Terminal(s.table[t].status))
    && call.escaped <= call.baseline && call.escaped !! Elements(call.lists[0]) + Elements(call.lists[1])
  }

  lemma ReturnedAccounts(s: State, call: CancelCall)
    requires CallOk(s, call) && Returned(call)
    ensures Accounts(s, call)
  {
    var first, second := call.lists[0], call.lists[1];
    BothListed(first, second);
    forall t | t in Elements(first) + Elements(second) ensures t in s.table && Terminal(s.table[t].status) {
      ListedIsTerminal(s, call, if t in first then 0 else 1, t);
    }
    BaselineIsTerminal(s, call);
    assert Elements(first) !! call.escaped && Elements(second) !! call.escaped;
  }

  lemma ListedIsTerminal(s: State, call: CancelCall, i: nat, t: Task)
    requires ListsOk(s, call) && Returned(call) && i < |call.lists| && t in call.lists[i]
    ensures t in s.table && Terminal(s.table[t].status)
  {
  }

  lemma BaselineIsTerminal(s: State, call: CancelCall)
    requires BaselineOk(s, call) && Returned(call)
    ensures forall t :: t in call.baseline - call.escaped ==> t in s.table && Terminal(s.table[t].status)
  {
  }

  lemma BothListed(first: seq<Task>, second: seq<Task>)
    requires NoDuplicates(first) && NoDuplicates(second) && Elements(first) !! Elements(second)
    ensures |Elements(first) + Elements(second)| == |first| + |second|
    ensures forall t :: t in Elements(first) + Elements(second) ==> t in first || t in second
  {
    NoDuplicatesSize(first);
    NoDuplicatesSize(second);
  }

  // ---- how a task escapes ----

  /** The event puts `t` back to pending. */
  predicate Retries(s: State, e: Event, t: Task) {
    e.RetryTask? && CheckerAt(s, e.checker).Holding? && CheckerAt(s, e.checker).task == t
  }

  lemma OnlyRetriesMakePending(s: State, e: Event, t: Task)
    requires SubmitsOk(s) && Enabled(s, e) && t in s.table && !s.table[t].status.Pending? && !Retries(s, e, t)
    ensures t in Apply(s, e).table && !Apply(s, e).table[t].status.Pending?
  {
    RowEffect(s, e);
  }

  /** A task that turns pending was retried on the way. */
  lemma {:induction false} RetriedOnTheWay(states: seq<State>, events: seq<Event>, i: nat, j: nat, t: Task) returns (m: nat)
    requires Run(states, events) && i <= j < |states| && t in states[i].table && t in states[j].table
    requires !states[i].table[t].status.Pending? && states[j].table[t].status.Pending?
    ensures i <= m < j && Retries(states[m], events[m], t)
  {
    m := j - 1;
    assert StepAt(states, events, m);
    RunAdvances(states, events, i, m);
    InvInEveryState(states, events, m);
    if states[m].table[t].status.Pending? {
      m := RetriedOnTheWay(states, events, i, m, t);
    } else if !Retries(states[m], events[m], t) {
      OnlyRetriesMakePending(states[m], events[m], t);
    }
  }

  /** A call gains lists only by its queries; from one to the next what it holds of them stays. */
  ghost predicate CallKept(s: State, s': State, k: CallId) {
    && k in s.cancels && k in s'.cancels
    && var call, call' := s.cancels[k], s'.cancels[k];
       && |call.lists| <= |call'.lists| && call'.session == call.session
       && (|call.lists| == |call'.lists| ==>
             call'.lists == call.lists && call'.baseline == call.baseline && call'.escaped == call.escaped)
  }

  lemma StepKeepsCall(s: State, e: Event, k: CallId)
    requires Enabled(s, e) && k in s.cancels
    ensures CallKept(s, Apply(s, e), k)
  {
    Frame(s, e);
    if CancelEvent(e) {
      CancelFrame(s, e);
    }
  }

  lemma {:induction false} CallKeptInRun(states: seq<State>, events: seq<Event>, i: nat, j: nat, k: CallId)
    requires Run(states, events) && i <= j < |states| && k in states[i].cancels
    ensures CallKept(states[i], states[j], k)
  {
    if i < j {
      CallKeptInRun(states, events, i, j - 1, k);
      assert StepAt(states, events, j - 1);
      StepKeepsCall(states[j - 1], events[j - 1], k);
    }
  }

  lemma FirstQuery(s: State, k: CallId, found: seq<Task>)
    requires Enabled(s, CancelQuery(k, found)) && s.cancels[k].lists == []
    ensures var s' := Apply(s, CancelQuery(k, found));
      && s'.table == s.table && k in s'.cancels && s'.cancels[k].lists == [found]
      && s'.cancels[k].baseline == TasksOf(s, s.cancels[k].session)
    ensures Elements(found) == TasksInState(s, s.cancels[k].session, Pending)
  {
  }

  lemma SecondQuery(s: State, k: CallId, found: seq<Task>)
    requires Enabled(s, CancelQuery(k, found)) && |s.cancels[k].lists| == 1
    ensures k in Apply(s, CancelQuery(k, found)).cancels && s.cancels[k].todo == []
    ensures Apply(s, CancelQuery(k, found)).cancels[k].escaped == s.cancels[k].baseline * TasksInState(s, s.cancels[k].session, Pending)
  {
  }

  /** What the first query listed is terminal at the second one. */
  lemma FirstListIsDone(s: State, k: CallId, t: Task)
    requires k in s.cancels && CallOk(s, s.cancels[k]) && |s.cancels[k].lists| == 1 && s.cancels[k].todo == []
    requires t in Elements(s.cancels[k].lists[0])
    ensures t in s.table && Terminal(s.table[t].status)
  {
    assert t in s.cancels[k].lists[0];
  }

  /** A cancel call makes its two queries at steps i and j. */
  ghost predicate QueriesAt(states: seq<State>, events: seq<Event>, k: CallId, i: nat, j: nat)
    requires |events| < |states|
  {
    && i < j < |events| && events[i].CancelQuery? && events[j].CancelQuery? && events[i].call == events[j].call == k
    && k in states[i].cancels && states[i].cancels[k].lists == []
    && k in states[j].cancels && |states[j].cancels[k].lists| == 1
  }

  lemma BetweenQueries(states: seq<State>, events: seq<Event>, k: CallId, i: nat, j: nat)
    requires Run(states, events) && QueriesAt(states, events, k, i, j)
    ensures var call := states[j].cancels[k];
      && call.lists == [events[i].found] && call.session == states[i].cancels[k].session
      && call.baseline == TasksOf(states[i], call.session) && CallOk(states[j], call)
    ensures states[i + 1].table == states[i].table
  {
    assert StepAt(states, events, i);
    FirstQuery(states[i], k, events[i].found);
    CallKeptInRun(states, events, i, j, k);
    CallKeptInRun(states, events, i + 1, j, k);
    CallsInEveryState(states, events, j);
  }

  /**
    A task escapes a cancel call only by being retried between its two queries, at
    steps i and j: it was processing at the first one.
   */
  lemma EscapedWasRetried(states: seq<State>, events: seq<Event>, k: CallId, i: nat, j: nat, t: Task) returns (m: nat)
    requires Run(states, events) && QueriesAt(states, events, k, i, j)
    requires k in states[j + 1].cancels && t in states[j + 1].cancels[k].escaped
    ensures i < m < j && Retries(states[m], events[m], t)
    ensures t in states[i].table && states[i].table[t].status.Processing?
  {
    assert StepAt(states, events, i) && StepAt(states, events, j);
    BetweenQueries(states, events, k, i, j);
    FirstQuery(states[i], k, events[i].found);
    SecondQuery(states[j], k, events[j].found);
    if states[i].table[t].status.Pending? {
      FirstListIsDone(states[j], k, t);
    }
    RunAdvances(states, events, i, j);
    m := RetriedOnTheWay(states, events, i + 1, j, t);
  }

  // ---- when a cancellation is complete ----

  /** The calls still to be made, and nothing else, lead to a return that leaves the task as it is. */
  lemma {:induction false} ReturnsLeaving(states: seq<State>, events: seq<Event>, k: CallId, t: Task)
    returns (states': seq<State>, events': seq<Event>)
    requires Run(states, events) && k in states[|events|].cancels && |states[|events|].cancels[k].lists| == 2
    requires t in states[|events|].table && t !in states[|events|].cancels[k].todo
    ensures Run(states', events') && states <= states' && events <= events'
    ensures var s, s' := states[|events|], states'[|events'|];
      && k in s'.cancels && Returned(s'.cancels[k]) && s'.cancels[k].baseline == s.cancels[k].baseline
      && t in s'.table && s'.table[t] == s.table[t]
    decreases |states[|events|].cancels[k].todo|
  {
    var s := states[|events|];
    if s.cancels[k].todo == [] {
      states', events' := states, events;
    } else {
      InvInEveryState(states, events, |events|);
      states', events' := Extend(states, events, CancelWrite(k));
      states', events' := ReturnsLeaving(states', events', k, t);
    }
  }

  /** However a run goes on, when the call returns every task of its baseline is terminal. */
  ghost predicate AlwaysCompletes(states: seq<State>, events: seq<Event>, k: CallId) {
    forall states', events' :: Run(states', events') && states <= states' && events <= events' ==> Complete(states'[|events'|], k)
  }

  ghost predicate Complete(s: State, k: CallId) {
    k in s.cancels && Returned(s.cancels[k]) ==> forall t :: t in s.cancels[k].baseline ==> t in s.table && Terminal(s.table[t].status)
  }

  /**
    The exact condition, at any moment after the second query: however the run goes on,
    the call returns with every task of its baseline terminal exactly when each task
    that escaped is terminal already.
   */
  lemma CompletesExactly(states: seq<State>, events: seq<Event>, k: CallId)
    requires Run(states, events) && k in states[|events|].cancels && |states[|events|].cancels[k].lists| == 2
    ensures AlwaysCompletes(states, events, k) <==>
            forall t :: t in states[|events|].cancels[k].escaped ==> t in states[|events|].table && Terminal(states[|events|].table[t].status)
  {
    var s := states[|events|];
    CallsInEveryState(states, events, |events|);
    assert CallOk(s, s.cancels[k]);
    if t :| t in s.cancels[k].escaped && !Terminal(s.table[t].status) {
      var last := s.cancels[k].lists[1];
      assert forall u :: u in last <==> u in Elements(last);
      var states', events' := ReturnsLeaving(states, events, k, t);
      assert !Complete(states'[|events'|], k);
    } else {
      forall states', events' | Run(states', events') && states <= states' && events <= events' ensures Complete(states'[|events'|], k) {
        EscapedStayTerminal(states, events, states', events', k);
      }
    }
  }

  lemma EscapedStayTerminal(states: seq<State>, events: seq<Event>, states': seq<State>, events': seq<Event>, k: CallId)
    requires Run(states, events) && Run(states', events') && states <= states' && events <= events'
    requires k in states[|events|].cancels && |states[|events|].cancels[k].lists| == 2
    requires var s := states[|events|]; forall t :: t in s.cancels[k].escaped ==> t in s.table && Terminal(s.table[t].status)
    ensures Complete(states'[|events'|], k)
  {
    var i, n := |events|, |events'|;
    CallKeptInRun(states', events', i, n, k);
    CallsInEveryState(states', events', n);
    RunAdvances(states', events', i, n);
    assert CallOk(states'[n], states'[n].cancels[k]);
  }

  // ---- get_results ----

  function TerminalOf(s: State, session: string): set<Task> {
    set t | t in s.table && s.table[t].session == session && Terminal(s.table[t].status)
  }

  /** The lambda's tasks_in_response, its three queries made in the states s1, s2 and s3. */
  function TasksInResponse(s1: State, s2: State, s3: State, session: string): nat {
    |TasksInState(s1, session, Finished)| + |TasksInState(s2, session, Cancelled)| + |TasksInState(s3, session, Failed)|
  }

  lemma SplitTerminal(s: State, session: string)
    ensures TasksInResponse(s, s, s, session) == |TerminalOf(s, session)|
  {
    var f, c, x := TasksInState(s, session, Finished), TasksInState(s, session, Cancelled), TasksInState(s, session, Failed);
    assert TerminalOf(s, session) == f + c + x;
    assert |f + c| == |f| + |c| && |f + c + x| == |f + c| + |x|;
  }

  /** On one snapshot the count reaches the session size exactly when every task of the session is terminal. */
  lemma SnapshotIsComplete(s: State, session: string)
    ensures TasksInResponse(s, s, s, session) == |TasksOf(s, session)| <==>
            forall t :: t in TasksOf(s, session) ==> Terminal(s.table[t].status)
  {
    SplitTerminal(s, session);
    var all, done := TasksOf(s, session), TerminalOf(s, session);
    assert done <= all;
    assert |all| == |done| + |all - done|;
    if |done| == |all| {
      assert all - done == {};
      forall t | t in all ensures Terminal(s.table[t].status) {
        assert t !in all - done;
      }
    } else {
      assert all != done;
    }
  }

  /** The event overwrites the terminal row of `t` with another terminal status. */
  predicate Overturns(s: State, e: Event, t: Task) {
    && Enabled(s, e) && t in s.table && Terminal(s.table[t].status)
    && t in Apply(s, e).table && Apply(s, e).table[t].status != s.table[t].status
  }

  /** Only the two finalizing writes overturn, and only with their own status. */
  lemma OverturnsByFinalizing(s: State, e: Event, t: Task)
    requires SubmitsOk(s) && Overturns(s, e, t)
    ensures WriteOf(s, e) == Some((t, Fail)) || WriteOf(s, e) == Some((t, Cancel))
  {
    RowEffect(s, e);
  }

  /** A task whose terminal status differs in a later state was overturned on the way. */
  lemma {:induction false} OverturnedOnTheWay(states: seq<State>, events: seq<Event>, i: nat, j: nat, t: Task) returns (m: nat)
    requires Run(states, events) && i <= j < |states| && t in states[i].table && t in states[j].table
    requires Terminal(states[i].table[t].status) && states[j].table[t].status != states[i].table[t].status
    ensures i <= m < j && Overturns(states[m], events[m], t)
  {
    m := j - 1;
    assert StepAt(states, events, m);
    RunAdvances(states, events, i, m);
    if states[m].table[t].status != states[i].table[t].status {
      m := OverturnedOnTheWay(states, events, i, m, t);
    }
  }

  lemma {:induction false} SessionKept(states: seq<State>, events: seq<Event>, i: nat, j: nat, t: Task)
    requires Run(states, events) && i <= j < |states| && t in states[i].table
    ensures t in states[j].table && states[j].table[t].session == states[i].table[t].session
  {
    if i < j {
      SessionKept(states, events, i, j - 1, t);
      InvInEveryState(states, events, j - 1);
      assert StepAt(states, events, j - 1);
      StepCarriesOver(states[j - 1], events[j - 1]);
    }
  }

  /** Whatever a query once listed as terminal is terminal ever after, and a finished task has its output. */
  lemma ListedStaysTerminal(states: seq<State>, events: seq<Event>, i: nat, k: nat, session: string, status: Status, t: Task)
    requires Run(states, events) && i <= k < |states| && Terminal(status) && t in TasksInState(states[i], session, status)
    ensures t in TerminalOf(states[k], session)
    ensures status == Finished ==> t in states[k].outputs
  {
    RunAdvances(states, events, i, k);
    SessionKept(states, events, i, k, t);
    InvInEveryState(states, events, i);
  }

  /** The sum of three sizes counts distinct elements exactly when the sets are pairwise disjoint. */
  lemma CountsDistinct<T>(a: set<T>, b: set<T>, c: set<T>)
    ensures |a| + |b| + |c| >= |a + b + c|
    ensures |a| + |b| + |c| == |a + b + c| <==> a !! b && a !! c && b !! c
  {
  }

  /** The tasks one query lists, with the status it queries, that a later query lists with another. */
  function ListedTwice(s1: State, s2: State, s3: State, session: string): set<Task> {
    var f, c, x := TasksInState(s1, session, Finished), TasksInState(s2, session, Cancelled), TasksInState(s3, session, Failed);
    (set t | t in f && t in s2.table && s2.table[t].status.Cancelled?)
    + (set t | t in f && t in s3.table && s3.table[t].status.Failed?)
    + (set t | t in c && t in s3.table && s3.table[t].status.Failed?)
  }

  function AllListed(s1: State, s2: State, s3: State, session: string): set<Task> {
    TasksInState(s1, session, Finished) + TasksInState(s2, session, Cancelled) + TasksInState(s3, session, Failed)
  }

  lemma OverlapsEmpty<T>(a: set<T>, b: set<T>, c: set<T>)
    ensures a * b + a * c + b * c == {} <==> a !! b && a !! c && b !! c
  {
    if a * b + a * c + b * c == {} {
      forall t ensures !(t in a && t in b) && !(t in a && t in c) && !(t in b && t in c) {
        assert t !in a * b + a * c + b * c;
      }
    } else {
      assert a * b != {} || a * c != {} || b * c != {};
    }
  }

  /** The tasks listed twice are those in two of the three lists. */
  lemma ListedTwiceIsOverlap(states: seq<State>, events: seq<Event>, i: nat, j: nat, k: nat, session: string)
    requires Run(states, events) && i <= j <= k < |states|
    ensures var f, c, x := TasksInState(states[i], session, Finished), TasksInState(states[j], session, Cancelled), TasksInState(states[k], session, Failed);
      ListedTwice(states[i], states[j], states[k], session) == f * c + f * x + c * x
  {
    forall t | t in TasksInState(states[i], session, Finished)
      ensures t in states[j].table && states[j].table[t].session == session && t in states[k].table && states[k].table[t].session == session
    {
      SessionKept(states, events, i, j, t);
      SessionKept(states, events, i, k, t);
    }
    forall t | t in TasksInState(states[j], session, Cancelled) ensures t in states[k].table && states[k].table[t].session == session {
      SessionKept(states, events, j, k, t);
    }
  }

  lemma ListedTwiceWasOverturned(states: seq<State>, events: seq<Event>, i: nat, j: nat, k: nat, session: string, t: Task) returns (m: nat)
    requires Run(states, events) && i <= j <= k < |states| && t in ListedTwice(states[i], states[j], states[k], session)
    ensures i <= m < k && Overturns(states[m], events[m], t)
  {
    if t in TasksInState(states[i], session, Finished) && t in states[j].table && states[j].table[t].status.Cancelled? {
      m := OverturnedOnTheWay(states, events, i, j, t);
    } else if t in TasksInState(states[i], session, Finished) {
      m := OverturnedOnTheWay(states, events, i, k, t);
    } else {
      m := OverturnedOnTheWay(states, events, j, k, t);
    }
  }

  /**
    With the three queries at the moments i, j and k, the response counts distinct
    tasks exactly when no task is listed by one query and has another terminal status,
    listed by a later query; and such a task was overturned by a finalizing write
    between its two queries.
   */
  lemma CountsDistinctTasks(states: seq<State>, events: seq<Event>, i: nat, j: nat, k: nat, session: string)
    requires Run(states, events) && i <= j <= k < |states|
    ensures TasksInResponse(states[i], states[j], states[k], session) == |AllListed(states[i], states[j], states[k], session)| <==>
            ListedTwice(states[i], states[j], states[k], session) == {}
    ensures forall t :: t in ListedTwice(states[i], states[j], states[k], session) ==>
              exists m :: i <= m < k && Overturns(states[m], events[m], t)
  {
    ListedTwiceIsOverlap(states, events, i, j, k, session);
    var f, c, x := TasksInState(states[i], session, Finished), TasksInState(states[j], session, Cancelled), TasksInState(states[k], session, Failed);
    CountsDistinct(f, c, x);
    OverlapsEmpty(f, c, x);
    forall t | t in ListedTwice(states[i], states[j], states[k], session)
      ensures exists m :: i <= m < k && Overturns(states[m], events[m], t)
    {
      var m := ListedTwiceWasOverturned(states, events, i, j, k, session, t);
    }
  }

  /**
    Whatever runs between the queries, all listed tasks are terminal.  If none is
    listed twice, the count is at most the number of terminal tasks, and a client
    that sees the session size has a finished session.
   */
  lemma ResponseIsSound(states: seq<State>, events: seq<Event>, i: nat, j: nat, k: nat, session: string)
    requires Run(states, events) && i <= j <= k < |states|
    ensures AllListed(states[i], states[j], states[k], session) <= TerminalOf(states[k], session)
    ensures ListedTwice(states[i], states[j], states[k], session) == {} ==>
      && TasksInResponse(states[i], states[j], states[k], session) <= |TerminalOf(states[k], session)|
      && (TasksInResponse(states[i], states[j], states[k], session) == |TasksOf(states[k], session)| ==>
            forall t :: t in TasksOf(states[k], session) ==> Terminal(states[k].table[t].status))
  {
    var listed, done, all := AllListed(states[i], states[j], states[k], session), TerminalOf(states[k], session), TasksOf(states[k], session);
    forall t | t in listed ensures t in done {
      if t in TasksInState(states[i], session, Finished) {
        ListedStaysTerminal(states, events, i, k, session, Finished, t);
      } else if t in TasksInState(states[j], session, Cancelled) {
        ListedStaysTerminal(states, events, j, k, session, Cancelled, t);
      }
    }
    CountsDistinctTasks(states, events, i, j, k, session);
    SubsetSize(listed, done);
    assert done <= all;
    SubsetSize(done, all);
    SplitTerminal(states[k], session);
    SnapshotIsComplete(states[k], session);
  }
}
