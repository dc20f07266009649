/**
  No message is lost on the priority queue either: a task the protocol still has on
  its queue waits or is in flight in the queue of the priority its row holds.
 */
module QueueDelivery {
  import opened Prelude
  import opened Protocol
  import opened Safety
  import opened Delivery
  import opened PriorityQueue
  import opened Routing

  /** The queue holds the task's message, waiting or in flight. */
  ghost predicate Present(q: Sqs, t: Task) {
    t in q.waiting || exists h :: h in q.inFlight && q.inFlight[h] == t
  }

  ghost predicate HeldBy(s: State, q: seq<Sqs>, t: Task) {
    t in s.table && s.table[t].priority < |q| && Present(q[s.table[t].priority], t)
  }

  ghost predicate Held(s: State, q: seq<Sqs>) {
    forall t :: t in s.queue ==> HeldBy(s, q, t)
  }

  // ---- what each change of one queue keeps ----

  lemma TakeKeeps(q: Sqs, i: nat, h: Handle, t: Task)
    requires i < |q.waiting| && h !in q.inFlight && Present(q, t)
    ensures Present(Take(q, i, h), t)
  {
    var taken := Take(q, i, h);
    if t in q.waiting {
      var j :| 0 <= j < |q.waiting| && q.waiting[j] == t;
      if j == i {
        assert taken.inFlight[h] == t;
      } else {
        assert taken.waiting[if j < i then j else j - 1] == t;
      }
    } else {
      var g :| g in q.inFlight && q.inFlight[g] == t;
      assert taken.inFlight[g] == t;
    }
  }

  lemma RemoveKeeps(q: Sqs, h: Handle, t: Task)
    requires Present(q, t) && (h in q.inFlight ==> q.inFlight[h] != t)
    ensures Present(Remove(q, h), t)
  {
    if t !in q.waiting {
      var g :| g in q.inFlight && q.inFlight[g] == t;
      assert g in Remove(q, h).inFlight;
    }
  }

  lemma ShowKeeps(q: Sqs, h: Handle, t: Task)
    requires Present(q, t)
    ensures Present(SetVisibility(q, h, 0), t)
  {
    var shown := SetVisibility(q, h, 0);
    if t in q.waiting {
      assert t in shown.waiting;
    } else {
      var g :| g in q.inFlight && q.inFlight[g] == t;
      if g == h {
        assert shown.waiting[|q.waiting|] == t;
      } else {
        assert g in shown.inFlight;
      }
    }
  }

  lemma OneMoved(s: State, q: seq<Sqs>, p: nat, moved: Sqs, t: Task)
    requires HeldBy(s, q, t) && p < |q| && (Present(q[p], t) ==> Present(moved, t))
    ensures HeldBy(s, q[p := moved], t)
  {
  }

  // ---- the steps ----

  lemma SendHolds(s: State, k: CallId, accepted: set<Task>, q: seq<Sqs>, q': seq<Sqs>, t: Task)
    requires Inv(s) && AllRouted(s, q) && Enabled(s, SendChunk(k, accepted)) && Sent(q, s.submits[k].priority, accepted, q')
    requires t in accepted || HeldBy(s, q, t)
    ensures HeldBy(s, q', t)
  {
    var p := s.submits[k].priority;
    if p < |q| {
      var messages :| Elements(messages) == accepted && q' == q[p := q[p].(waiting := q[p].waiting + messages)];
      if t in accepted {
        ChunkHasPriority(s, k, t);
        assert t in messages && t in q'[p].waiting;
      } else {
        OneMoved(s, q, p, q'[p], t);
      }
    }
  }

  lemma ReceiveHolds(s: State, u: Task, h: Handle, q: seq<Sqs>, q': seq<Sqs>, t: Task)
    requires QueuesRouted(s, q) && h !in s.issued && Taken(q, u, h, q') && HeldBy(s, q, t)
    ensures HeldBy(s, q', t)
  {
    var p, i :| 0 <= p < |q| && 0 <= i < |q[p].waiting| && q[p].waiting[i] == u && q' == q[p := Take(q[p], i, h)];
    assert QueueRouted(s, p, q[p]);
    if Present(q[p], t) {
      TakeKeeps(q[p], i, h, t);
    }
    OneMoved(s, q, p, Take(q[p], i, h), t);
  }

  /** A delete through a handle takes no message but that of the handle's task. */
  lemma DeleteHolds(s: State, q: seq<Sqs>, p: nat, h: Handle, t: Task)
    requires QueuesRouted(s, q) && p < |q| && HeldBy(s, q, t) && (h in s.issued ==> s.issued[h] != t)
    ensures HeldBy(s, q[p := Remove(q[p], h)], t)
  {
    assert QueueRouted(s, p, q[p]);
    if Present(q[p], t) {
      RemoveKeeps(q[p], h, t);
    }
    OneMoved(s, q, p, Remove(q[p], h), t);
  }

  lemma ShowHolds(s: State, q: seq<Sqs>, p: nat, h: Handle, t: Task)
    requires p < |q| && HeldBy(s, q, t)
    ensures HeldBy(s, q[p := SetVisibility(q[p], h, 0)], t)
  {
    if Present(q[p], t) {
      ShowKeeps(q[p], h, t);
    }
    OneMoved(s, q, p, SetVisibility(q[p], h, 0), t);
  }

  lemma OwnDeleteHolds(s: State, e: Event, q: seq<Sqs>, q': seq<Sqs>, t: Task)
    requires QueuesRouted(s, q) && (e.DropMessage? || e.Acknowledge?)
    requires AgentEnabled(s, e) && DeletedWhereIssued(q, Pc(s, e.agent).handle, q') && HeldBy(s, q, t) && t in AgentStep(s, e).queue
    ensures HeldBy(s, q', t)
  {
    var h := Pc(s, e.agent).handle;
    var p :| 0 <= p < |q| && q' == q[p := Remove(q[p], h)];
    DeleteHolds(s, q, p, h, t);
  }

  lemma CheckerDeleteHolds(s: State, e: Event, q: seq<Sqs>, q': seq<Sqs>, t: Task)
    requires QueuesRouted(s, q) && e.DeleteExhausted?
    requires CheckerEnabled(s, e) && CheckerDeleted(s, CheckerAt(s, e.checker), q, q') && HeldBy(s, q, t) && t in CheckerStep(s, e).queue
    ensures HeldBy(s, q', t)
  {
    var pc := CheckerAt(s, e.checker);
    if s.table[pc.task].priority < |q| {
      DeleteHolds(s, q, s.table[pc.task].priority, pc.read.handle, t);
    }
  }

  lemma ResetHolds(s: State, pc: CheckerPc, q: seq<Sqs>, q': seq<Sqs>, t: Task)
    requires pc.Holding? && CheckerReset(s, pc, q, q') && HeldBy(s, q, t)
    ensures HeldBy(s, q', t)
  {
    if q' != q {
      ShowHolds(s, q, s.table[pc.task].priority, pc.read.handle, t);
    }
  }

  lemma TimeoutHolds(s: State, q: seq<Sqs>, q': seq<Sqs>, t: Task)
    requires MadeVisible(q, q') && HeldBy(s, q, t)
    ensures HeldBy(s, q', t)
  {
    if q' != q {
      var p, h :| 0 <= p < |q| && h in q[p].inFlight && q' == q[p := SetVisibility(q[p], h, 0)];
      ShowHolds(s, q, p, h, t);
    }
  }

  /** Only a send puts a message on the queue. */
  lemma QueueGrowsBySending(s: State, e: Event, t: Task)
    requires Enabled(s, e) && t in Apply(s, e).queue
    ensures t in s.queue || (e.SendChunk? && t in e.accepted)
  {
    if AgentEvent(e) {
      AgentsOnlyDelete(s, e);
    } else if CheckerEvent(e) {
      CheckersOnlyDelete(s, e);
    }
  }

  lemma AgentsOnlyDelete(s: State, e: Event)
    requires AgentEvent(e) && AgentEnabled(s, e)
    ensures AgentStep(s, e).queue <= s.queue
  {
  }

  lemma CheckersOnlyDelete(s: State, e: Event)
    requires CheckerEvent(e) && CheckerEnabled(s, e)
    ensures CheckerStep(s, e).queue <= s.queue
  {
  }

  lemma AgentHolds(s: State, e: Event, q: seq<Sqs>, q': seq<Sqs>, t: Task)
    requires QueuesRouted(s, q) && AgentEvent(e) && AgentEnabled(s, e) && AgentMoves(s, e, q, q')
    requires t in AgentStep(s, e).queue && HeldBy(s, q, t)
    ensures HeldBy(s, q', t)
  {
    if e.Receive? {
      ReceiveHolds(s, e.task, e.handle, q, q', t);
    } else if e.DropMessage? || e.Acknowledge? {
      OwnDeleteHolds(s, e, q, q', t);
    }
  }

  /** What an agent's step does to the queues. */
  ghost predicate AgentMoves(s: State, e: Event, q: seq<Sqs>, q': seq<Sqs>)
    requires AgentEvent(e) && AgentEnabled(s, e)
  {
    if e.Receive? then Taken(q, e.task, e.handle, q')
    else if e.DropMessage? || e.Acknowledge? then DeletedWhereIssued(q, Pc(s, e.agent).handle, q')
    else q' == q
  }

  lemma CheckerHolds(s: State, e: Event, q: seq<Sqs>, q': seq<Sqs>, t: Task)
    requires QueuesRouted(s, q) && CheckerEvent(e) && CheckerEnabled(s, e) && CheckerMoves(s, e, q, q')
    requires t in CheckerStep(s, e).queue && HeldBy(s, q, t)
    ensures HeldBy(s, q', t)
  {
    if e.DeleteExhausted? {
      CheckerDeleteHolds(s, e, q, q', t);
    } else if e.RetryTask? {
      ResetHolds(s, CheckerAt(s, e.checker), q, q', t);
    }
  }

  /** What a checker's step does to the queues. */
  ghost predicate CheckerMoves(s: State, e: Event, q: seq<Sqs>, q': seq<Sqs>)
    requires CheckerEvent(e) && CheckerEnabled(s, e)
  {
    if e.DeleteExhausted? then CheckerDeleted(s, CheckerAt(s, e.checker), q, q')
    else if e.RetryTask? then CheckerReset(s, CheckerAt(s, e.checker), q, q')
    else q' == q
  }

  lemma AgentStepHolds(s: State, e: Event, q: seq<Sqs>, q': seq<Sqs>, t: Task)
    requires QueuesRouted(s, q) && Held(s, q) && AgentEvent(e) && Enabled(s, e) && QueueStep(s, e, q, q') && t in Apply(s, e).queue
    ensures HeldBy(s, q', t)
  {
    AgentsOnlyDelete(s, e);
    AgentHolds(s, e, q, q', t);
  }

  lemma CheckerStepHolds(s: State, e: Event, q: seq<Sqs>, q': seq<Sqs>, t: Task)
    requires QueuesRouted(s, q) && Held(s, q) && CheckerEvent(e) && Enabled(s, e) && QueueStep(s, e, q, q') && t in Apply(s, e).queue
    ensures HeldBy(s, q', t)
  {
    CheckersOnlyDelete(s, e);
    CheckerHolds(s, e, q, q', t);
  }

  lemma OtherStepHolds(s: State, e: Event, q: seq<Sqs>, q': seq<Sqs>, t: Task)
    requires Inv(s) && AllRouted(s, q) && Held(s, q) && !AgentEvent(e) && !CheckerEvent(e)
    requires Enabled(s, e) && QueueStep(s, e, q, q') && t in Apply(s, e).queue
    ensures HeldBy(s, q', t)
  {
    QueueGrowsBySending(s, e, t);
    if e.SendChunk? {
      SendHolds(s, e.call, e.accepted, q, q', t);
    } else if e.Tick? {
      TimeoutHolds(s, q, q', t);
    }
  }

  lemma StepHolds(s: State, e: Event, q: seq<Sqs>, q': seq<Sqs>, t: Task)
    requires Inv(s) && AllRouted(s, q) && Held(s, q) && Enabled(s, e) && QueueStep(s, e, q, q')
    requires t in Apply(s, e).queue
    ensures HeldBy(s, q', t)
  {
    if AgentEvent(e) {
      AgentStepHolds(s, e, q, q', t);
    } else if CheckerEvent(e) {
      CheckerStepHolds(s, e, q, q', t);
    } else {
      OtherStepHolds(s, e, q, q', t);
    }
  }

  lemma StepKeepsHeld(s: State, e: Event, q: seq<Sqs>, q': seq<Sqs>)
    requires Inv(s) && AllRouted(s, q) && Held(s, q) && Enabled(s, e) && QueueStep(s, e, q, q')
    ensures Held(Apply(s, e), q')
  {
    StepKeepsRows(s, e);
    forall t | t in Apply(s, e).queue ensures HeldBy(Apply(s, e), q', t) {
      StepHolds(s, e, q, q', t);
    }
  }

  lemma {:induction false} HeldInEveryState(states: seq<State>, events: seq<Event>, queues: seq<seq<Sqs>>, i: nat)
    requires QueueRun(states, events, queues) && i < |states|
    ensures Held(states[i], queues[i])
  {
    if i > 0 {
      HeldInEveryState(states, events, queues, i - 1);
      RoutedInEveryState(states, events, queues, i - 1);
      InvInEveryState(states, events, i - 1);
      assert StepAt(states, events, i - 1);
      StepKeepsHeld(states[i - 1], events[i - 1], queues[i - 1], queues[i]);
    }
  }

  /**
    Main result: as long as no step has been a losing one, a task that was sent and
    still needs its message has it waiting or in flight in the queue of its priority.
   */
  lemma NoMessageIsLost(states: seq<State>, events: seq<Event>, queues: seq<seq<Sqs>>, i: nat, t: Task)
    requires QueueRun(states, events, queues) && i < |states| && forall k :: 0 <= k < i ==> !Loses(states[k], events[k])
    requires t in states[i].sent && t in states[i].table && NeedsMessage(states[i].table[t])
    ensures states[i].table[t].priority < |queues[i]| && Present(queues[i][states[i].table[t].priority], t)
  {
    LosesExactly(states, events, i);
    HeldInEveryState(states, events, queues, i);
  }
}
