/**
  When the grid loses a task, and when its retries stop accounting for its claims:
  exactly which steps do it, for any number of TTL checkers, any listing of tasks and
  any stale reads.
 */
module Delivery {
  import opened TaskStates
  import opened Rows
  import opened Protocol
  import opened Safety
  import opened SafetyTheorems

  // ---- losing a task ----

  /** The task still needs its message. */
  predicate NeedsMessage(r: Row) {
    r.status.Pending? || (r.status.Processing? && r.retries < MAX_RETRIES)
  }

  /** Every task that was sent and needs its message has it on the queue. */
  ghost predicate NotLost(s: State) {
    forall t :: t in s.sent && t in s.table && NeedsMessage(s.table[t]) ==> t in s.queue
  }

  /** A checker deletes a message on the queue whose task still needs it. */
  predicate DeletesNeeded(s: State, e: Event) {
    && e.DeleteExhausted? && CheckerAt(s, e.checker).Holding?
    && var h := CheckerAt(s, e.checker).read.handle;
       h in s.issued && s.issued[h] in s.queue && s.issued[h] in s.table && NeedsMessage(s.table[s.issued[h]])
  }

  /** A checker puts a task back to pending whose message was sent and is gone. */
  predicate RevivesGone(s: State, e: Event) {
    && e.RetryTask? && CheckerAt(s, e.checker).Holding?
    && CheckerAt(s, e.checker).task in s.sent && CheckerAt(s, e.checker).task !in s.queue
  }

  predicate Loses(s: State, e: Event) {
    DeletesNeeded(s, e) || RevivesGone(s, e)
  }

  /** What an agent deletes is the message of a task that is terminal. */
  lemma AgentDeletesTerminal(s: State, e: Event)
    requires AgentsOk(s) && (e.DropMessage? || e.Acknowledge?) && AgentEnabled(s, e)
    ensures var pc := Pc(s, e.agent);
      && pc.handle in s.issued && s.issued[pc.handle] == pc.task && pc.task in s.table && Terminal(s.table[pc.task].status)
      && AgentStep(s, e) == s.(queue := s.queue - {pc.task}, agents := s.agents[e.agent := Idle])
  {
    assert AgentOk(s, e.agent, s.agents[e.agent]);
  }

  /** Only a retry makes a row need its message that did not before. */
  lemma WritesNeedNothing(s: State, e: Event, t: Task)
    requires SubmitsOk(s) && Enabled(s, e) && !e.RetryTask? && t in s.table && NeedsMessage(Apply(s, e).table[t])
    requires t in Apply(s, e).table
    ensures NeedsMessage(s.table[t])
  {
    RowEffect(s, e);
  }

  /** The messages still needed stay, and what is newly sent is on the queue. */
  ghost predicate MessagesStay(s: State, s': State) {
    && (forall t :: t in s.queue && t !in s'.queue ==> t in s.table && !NeedsMessage(s.table[t]))
    && s.sent <= s'.sent && (forall t :: t in s'.sent && t !in s.sent ==> t in s'.queue)
  }

  lemma SubmitMessagesStay(s: State, e: Event)
    requires SubmitEvent(e) && SubmitEnabled(s, e)
    ensures MessagesStay(s, SubmitStep(s, e))
  {
  }

  lemma AgentMessagesStay(s: State, e: Event)
    requires AgentsOk(s) && AgentEvent(e) && AgentEnabled(s, e)
    ensures MessagesStay(s, AgentStep(s, e))
  {
    if e.DropMessage? || e.Acknowledge? {
      AgentDeletesTerminal(s, e);
    }
  }

  lemma CheckerMessagesStay(s: State, e: Event)
    requires CheckerEvent(e) && CheckerEnabled(s, e) && !e.DeleteExhausted?
    ensures MessagesStay(s, CheckerStep(s, e))
  {
  }

  lemma LosesNothing(s: State, e: Event)
    requires Inv(s) && NotLost(s) && Enabled(s, e) && !e.RetryTask? && MessagesStay(s, Apply(s, e))
    ensures NotLost(Apply(s, e))
  {
    forall t | t in Apply(s, e).sent && t in Apply(s, e).table && NeedsMessage(Apply(s, e).table[t]) ensures t in Apply(s, e).queue {
      if t in s.sent {
        WritesNeedNothing(s, e, t);
      }
    }
  }

  lemma DeleteLosesExactly(s: State, e: Event)
    requires QueueOk(s) && NotLost(s) && e.DeleteExhausted? && Enabled(s, e)
    ensures NotLost(Apply(s, e)) <==> !Loses(s, e)
  {
    var h := CheckerAt(s, e.checker).read.handle;
    if DeletesNeeded(s, e) {
      var t := s.issued[h];
      assert t in s.sent && t !in Apply(s, e).queue;
    }
  }

  lemma RetryLosesExactly(s: State, e: Event)
    requires NotLost(s) && e.RetryTask? && Enabled(s, e)
    ensures NotLost(Apply(s, e)) <==> !Loses(s, e)
  {
    var t := CheckerAt(s, e.checker).task;
    assert NeedsMessage(Apply(s, e).table[t]);
  }

  /** Apart from a checker's delete and its retry, no step touches a message still needed. */
  lemma OthersMessagesStay(s: State, e: Event)
    requires AgentsOk(s) && Enabled(s, e) && !e.DeleteExhausted?
    ensures MessagesStay(s, Apply(s, e))
  {
    if SubmitEvent(e) {
      SubmitMessagesStay(s, e);
    } else if AgentEvent(e) {
      AgentMessagesStay(s, e);
    } else if CheckerEvent(e) {
      CheckerMessagesStay(s, e);
    } else if CancelEvent(e) {
      CancelFrame(s, e);
    }
  }

  /** The exact step: from a state in which nothing is lost, a step loses a task exactly when it is a losing one. */
  lemma StepLosesExactly(s: State, e: Event)
    requires Inv(s) && NotLost(s) && Enabled(s, e)
    ensures NotLost(Apply(s, e)) <==> !Loses(s, e)
  {
    if e.DeleteExhausted? {
      DeleteLosesExactly(s, e);
    } else if e.RetryTask? {
      RetryLosesExactly(s, e);
    } else {
      OthersLoseNothing(s, e);
    }
  }

  lemma OthersLoseNothing(s: State, e: Event)
    requires Inv(s) && NotLost(s) && Enabled(s, e) && !e.DeleteExhausted? && !e.RetryTask?
    ensures NotLost(Apply(s, e)) && !Loses(s, e)
  {
    OthersMessagesStay(s, e);
    LosesNothing(s, e);
  }

  /**
    Over any run, with any checkers and any reads: no task is lost in any of the first
    states exactly when none of the steps between them is a losing one.
   */
  lemma {:induction false} LosesExactly(states: seq<State>, events: seq<Event>, n: nat)
    requires Run(states, events) && n < |states|
    ensures (forall i :: 0 <= i <= n ==> NotLost(states[i])) <==> (forall i :: 0 <= i < n ==> !Loses(states[i], events[i]))
  {
    if n > 0 {
      LosesExactly(states, events, n - 1);
      if NotLost(states[n - 1]) {
        InvInEveryState(states, events, n - 1);
        assert StepAt(states, events, n - 1);
        StepLosesExactly(states[n - 1], events[n - 1]);
      }
    }
  }

  // ---- accounts ----

  predicate AccountOk(r: Row) {
    match r.status
    case Pending => r.claims == r.retries
    case Processing => r.claims == r.retries + 1
    case Finished => r.claims == r.retries + 1
    case _ => r.claims == r.retries || r.claims == r.retries + 1
  }

  ghost predicate AccountsOk(s: State) {
    forall t :: t in s.table ==> AccountOk(s.table[t])
  }

  /** A checker retries with a count read that is not the row's. */
  predicate Miscounts(s: State, e: Event) {
    && e.RetryTask? && CheckerAt(s, e.checker).Holding? && CheckerAt(s, e.checker).task in s.table
    && CheckerAt(s, e.checker).read.retries != s.table[CheckerAt(s, e.checker).task].retries
  }

  lemma NewRowIsFresh(s: State, e: Event, t: Task)
    requires Enabled(s, e) && t !in s.table && t in Apply(s, e).table
    ensures Apply(s, e).table[t].claims == 0 && Apply(s, e).table[t].retries == 0 && Apply(s, e).table[t].status.Pending?
  {
    if !e.PutRow? {
      OnlyPutRowAddsRows(s, e);
    }
  }

  lemma RetryCountsExactly(s: State, e: Event)
    requires AccountsOk(s) && e.RetryTask? && CheckerEnabled(s, e)
    ensures AccountsOk(CheckerStep(s, e)) <==> !Miscounts(s, e)
  {
    var t := CheckerAt(s, e.checker).task;
    assert AccountOk(s.table[t]);
    assert AccountOk(CheckerStep(s, e).table[t]) <==> !Miscounts(s, e);
  }

  lemma OthersKeepAccounts(s: State, e: Event)
    requires SubmitsOk(s) && AccountsOk(s) && Enabled(s, e) && !e.RetryTask?
    ensures AccountsOk(Apply(s, e))
  {
    RowEffect(s, e);
    forall t | t in Apply(s, e).table ensures AccountOk(Apply(s, e).table[t]) {
      if t !in s.table {
        NewRowIsFresh(s, e, t);
      }
    }
  }

  /** The exact step for the accounts. */
  lemma StepCountsExactly(s: State, e: Event)
    requires SubmitsOk(s) && AccountsOk(s) && Enabled(s, e)
    ensures AccountsOk(Apply(s, e)) <==> !Miscounts(s, e)
  {
    if e.RetryTask? {
      RetryCountsExactly(s, e);
    } else {
      OthersKeepAccounts(s, e);
    }
  }

  /** Over any run the accounts hold so far exactly when no retry so far miscounted. */
  lemma {:induction false} CountsExactly(states: seq<State>, events: seq<Event>, n: nat)
    requires Run(states, events) && n < |states|
    ensures (forall i :: 0 <= i <= n ==> AccountsOk(states[i])) <==> (forall i :: 0 <= i < n ==> !Miscounts(states[i], events[i]))
  {
    if n > 0 {
      CountsExactly(states, events, n - 1);
      if AccountsOk(states[n - 1]) {
        InvInEveryState(states, events, n - 1);
        assert StepAt(states, events, n - 1);
        StepCountsExactly(states[n - 1], events[n - 1]);
      }
    }
  }

  /**
    As long as no retry has miscounted, claims made so far and retries recorded in the
    row determine each other, and a task starts at most MAX_RETRIES + 1 times.
   */
  lemma RetriesAccountForClaims(states: seq<State>, events: seq<Event>, i: nat, t: Task)
    requires Run(states, events) && i < |states| && t in states[i].table
    requires forall k :: 0 <= k < i ==> !Miscounts(states[k], events[k])
    ensures var r, claims := states[i].table[t], CountClaims(states, events, t, i);
      && (r.status.Pending? ==> claims == r.retries)
      && (r.status.Processing? || r.status.Finished? ==> claims == r.retries + 1)
      && (r.status.Failed? || r.status.Cancelled? ==> claims == r.retries || claims == r.retries + 1)
      && claims <= MAX_RETRIES + 1
  {
    CountsExactly(states, events, i);
    InvInEveryState(states, events, i);
    ClaimsAreCounted(states, events, t, i);
    assert AccountOk(states[i].table[t]) && RowOk(states[i].table[t]);
  }
}
