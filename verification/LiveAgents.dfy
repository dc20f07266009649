/**
  The timing argument in the protocol: where every agent at work refreshes its heartbeat
  as a timely thread does, and the configuration keeps a live agent from being timed
  out, a single checker with a current listing only ever deals with tasks nobody is
  working on.  Its row reads may be as stale as they like.
 */
module LiveAgents {
  import opened Prelude
  import opened Rows
  import opened Protocol
  import opened Safety
  import opened SafetyTheorems
  import opened Discipline
  import Heartbeat

  /** The agent is at work on the task under its current claim. */
  predicate WorksOn(s: State, a: AgentId, t: Task) {
    && t in s.table && s.table[t].status.Processing? && s.table[t].owner == Some(a)
    && (Pc(s, a).Running? || Pc(s, a).Stored?) && Pc(s, a).task == t
  }

  ghost predicate Abandoned(s: State, t: Task) {
    forall a :: !WorksOn(s, a, t)
  }

  /** The row's heartbeat is the one a timely run of the refresh thread has written at this instant. */
  ghost predicate OnTime(c: Heartbeat.Config, delay: real, heartbeat: int, clock: int) {
    exists beats, i: nat, now: real ::
      && Heartbeat.Timely(c, beats, delay) && Heartbeat.Instant(c, beats, delay, i, now)
      && now.Floor == clock && heartbeat == Heartbeat.TtlAfter(c, beats, i).expiration
  }

  ghost predicate AgentsOnTime(c: Heartbeat.Config, delay: real, s: State) {
    forall a, t :: WorksOn(s, a, t) ==> OnTime(c, delay, s.table[t].heartbeat, s.clock)
  }

  lemma OnTimeIsNotExpired(c: Heartbeat.Config, delay: real, heartbeat: int, clock: int)
    requires Heartbeat.NeverTimedOut(c, delay) && OnTime(c, delay, heartbeat, clock)
    ensures heartbeat >= clock
  {
    var beats, i: nat, now: real :|
      && Heartbeat.Timely(c, beats, delay) && Heartbeat.Instant(c, beats, delay, i, now)
      && now.Floor == clock && heartbeat == Heartbeat.TtlAfter(c, beats, i).expiration;
    assert !Heartbeat.ListedExpired(Heartbeat.TtlAfter(c, beats, i).expiration, now);
  }

  /** An expired task is one nobody is working on. */
  lemma ExpiredIsAbandoned(c: Heartbeat.Config, delay: real, s: State, t: Task)
    requires Heartbeat.NeverTimedOut(c, delay) && AgentsOnTime(c, delay, s) && Expired(s, t)
    ensures Abandoned(s, t)
  {
    forall a ensures !WorksOn(s, a, t) {
      if WorksOn(s, a, t) {
        OnTimeIsNotExpired(c, delay, s.table[t].heartbeat, s.clock);
      }
    }
  }

  ghost predicate HandAbandoned(s: State) {
    forall t :: t in InHand(CheckerAt(s, TTL)) ==> Abandoned(s, t)
  }

  /** A task that is not pending and is processing after a step was processing before, under the same owner. */
  lemma OwnerStays(s: State, e: Event, t: Task)
    requires SubmitsOk(s) && Enabled(s, e) && t in s.table && !s.table[t].status.Pending?
    requires t in Apply(s, e).table && Apply(s, e).table[t].status.Processing?
    ensures s.table[t].status.Processing? && s.table[t].owner == Apply(s, e).table[t].owner
  {
    RowEffect(s, e);
  }

  lemma NotJustClaimed(s: State, e: Event, a: AgentId, t: Task)
    requires Enabled(s, e) && t in s.table && !s.table[t].status.Pending?
    ensures !Takes(s, e, Apply(s, e), a, t)
  {
  }

  lemma HolderStays(s: State, e: Event, a: AgentId, t: Task)
    requires AgentsOk(s) && Enabled(s, e) && t in s.table && s.table[t].status.Processing?
    requires HoldsTask(Pc(Apply(s, e), a)) && Pc(Apply(s, e), a).task == t
    ensures (Pc(s, a).Running? || Pc(s, a).Stored?) && Pc(s, a).task == t
  {
    HolderStep(s, e, a);
    NotJustClaimed(s, e, a, t);
    assert AgentOk(s, a, s.agents[a]);
  }

  /** An agent is at work after a step only if it was before, unless the task was pending. */
  lemma WorkersStay(s: State, e: Event, a: AgentId, t: Task)
    requires Inv(s) && Enabled(s, e) && t in s.table && !s.table[t].status.Pending? && WorksOn(Apply(s, e), a, t)
    ensures WorksOn(s, a, t)
  {
    OwnerStays(s, e, t);
    HolderStays(s, e, a, t);
  }

  lemma AbandonedStays(s: State, e: Event, t: Task)
    requires Inv(s) && Enabled(s, e) && t in s.table && !s.table[t].status.Pending? && Abandoned(s, t)
    ensures Abandoned(Apply(s, e), t)
  {
    forall a ensures !WorksOn(Apply(s, e), a, t) {
      if WorksOn(Apply(s, e), a, t) {
        WorkersStay(s, e, a, t);
      }
    }
  }

  /** A step adds to the hand only what the checker lists. */
  lemma HandComesFromListing(s: State, e: Event, t: Task)
    requires Enabled(s, e) && OneListing(s, e) && t in InHand(CheckerAt(Apply(s, e), TTL))
    ensures t in InHand(CheckerAt(s, TTL)) || (e.ListExpired? && t in e.found)
  {
    if CheckerEvent(e) {
      HandOfStep(s, e, t);
    } else {
      Frame(s, e);
    }
  }

  lemma HandOfStep(s: State, e: Event, t: Task)
    requires CheckerEvent(e) && CheckerEnabled(s, e) && e.checker == TTL && t in InHand(CheckerAt(CheckerStep(s, e), TTL))
    ensures t in InHand(CheckerAt(s, TTL)) || (e.ListExpired? && t in e.found)
  {
    var pc := CheckerAt(s, TTL);
    if e.ReadRow? {
      assert [pc.todo[0]] + pc.todo[1..] == pc.todo;
    }
  }

  lemma StepKeepsAbandoned(c: Heartbeat.Config, delay: real, s: State, e: Event)
    requires Heartbeat.NeverTimedOut(c, delay) && AgentsOnTime(c, delay, s)
    requires Inv(s) && OneChecker(s) && HandAbandoned(s) && Enabled(s, e) && OneListing(s, e)
    ensures HandAbandoned(Apply(s, e))
  {
    forall t | t in InHand(CheckerAt(Apply(s, e), TTL)) ensures Abandoned(Apply(s, e), t) {
      HandComesFromListing(s, e, t);
      if t !in InHand(CheckerAt(s, TTL)) {
        ExpiredIsAbandoned(c, delay, s, t);
      }
      AbandonedStays(s, e, t);
    }
  }

  lemma {:induction false} AbandonedInEveryState(c: Heartbeat.Config, delay: real, states: seq<State>, events: seq<Event>, i: nat)
    requires Heartbeat.NeverTimedOut(c, delay) && OneListingRun(states, events) && i < |states|
    requires forall k :: 0 <= k < |states| ==> AgentsOnTime(c, delay, states[k])
    ensures HandAbandoned(states[i])
  {
    if i > 0 {
      AbandonedInEveryState(c, delay, states, events, i - 1);
      InvInEveryState(states, events, i - 1);
      OneCheckerInEveryState(states, events, i - 1);
      assert StepAt(states, events, i - 1) && OneListing(states[i - 1], events[i - 1]);
      StepKeepsAbandoned(c, delay, states[i - 1], events[i - 1]);
    }
  }

  /**
    Main result: with agents on time and a configuration that meets the exact condition,
    the checker never retries or fails a task an agent is at work on, in any state of
    the run.
   */
  lemma OnlyAbandonedAreRetried(c: Heartbeat.Config, delay: real, states: seq<State>, events: seq<Event>, i: nat)
    requires Heartbeat.Sensible(c, delay)
    requires c.poll + delay <= c.offset as real && delay < (c.offset - c.refresh + 1) as real
    requires OneListingRun(states, events) && i < |events|
    requires forall k :: 0 <= k < |states| ==> AgentsOnTime(c, delay, states[k])
    requires events[i].RetryTask? || events[i].DeleteExhausted? || events[i].MarkFailed?
    ensures CheckerAt(states[i], TTL).Holding? || CheckerAt(states[i], TTL).Failing?
    ensures Abandoned(states[i], CheckerAt(states[i], TTL).task)
  {
    Heartbeat.LiveAgentNeverTimedOut(c, delay);
    AbandonedInEveryState(c, delay, states, events, i);
    assert StepAt(states, events, i) && OneListing(states[i], events[i]);
    var pc := CheckerAt(states[i], TTL);
    assert InHand(pc)[0] == pc.task;
  }
}
