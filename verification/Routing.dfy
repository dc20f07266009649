/**
  The protocol on the priority queue: each task's message lives in the queue of the
  priority its row holds, so a TTL checker, which never received the message itself,
  reaches it through the handle and the priority read from the row.
 */
module Routing {
  import opened Prelude
  import opened Rows
  import opened Protocol
  import opened Safety
  import opened PriorityQueue

  // ---- the priority in the row is the submitter's ----

  ghost predicate CallRouted(s: State, call: SubmitCall) {
    forall i :: 0 <= i < call.written && i < |call.ids| ==>
      call.ids[i] in s.table && s.table[call.ids[i]].priority == call.priority
  }

  /** Every row a submit call has written holds that call's priority. */
  ghost predicate SubmitsRouted(s: State) {
    forall k :: k in s.submits ==> CallRouted(s, s.submits[k])
  }

  lemma OwnStepKeepsCallRouted(s: State, e: Event)
    requires SubmitsOk(s) && SubmitsRouted(s) && Enabled(s, e) && SubmitEvent(e)
    ensures e.call in Apply(s, e).submits && CallRouted(Apply(s, e), Apply(s, e).submits[e.call])
  {
    StepKeepsRows(s, e);
    if e.call in s.submits {
      assert SubmitOk(s, s.submits[e.call]) && CallRouted(s, s.submits[e.call]);
    }
  }

  lemma StepKeepsSubmitsRouted(s: State, e: Event)
    requires SubmitsOk(s) && SubmitsRouted(s) && Enabled(s, e)
    ensures SubmitsRouted(Apply(s, e))
  {
    StepKeepsRows(s, e);
    Frame(s, e);
    if SubmitEvent(e) {
      SubmitFrame(s, e);
      OwnStepKeepsCallRouted(s, e);
    }
    forall k | k in s.submits && !(SubmitEvent(e) && e.call == k) ensures CallRouted(Apply(s, e), s.submits[k]) {
      assert CallRouted(s, s.submits[k]);
    }
  }

  // ---- the queues' part of each step ----

  /** A queue that issued the handle deletes its message. */
  ghost predicate DeletedWhereIssued(q: seq<Sqs>, h: Handle, q': seq<Sqs>) {
    exists p :: 0 <= p < |q| && h in q[p].issued && q' == q[p := Remove(q[p], h)]
  }

  ghost predicate Sent(q: seq<Sqs>, p: nat, bodies: set<Task>, q': seq<Sqs>) {
    if p >= |q| then bodies == {} && q' == q
    else exists messages :: Elements(messages) == bodies && q' == q[p := q[p].(waiting := q[p].waiting + messages)]
  }

  ghost predicate Taken(q: seq<Sqs>, t: Task, h: Handle, q': seq<Sqs>) {
    exists p, i :: 0 <= p < |q| && 0 <= i < |q[p].waiting| && q[p].waiting[i] == t && NoneWaitsFrom(q, p + 1)
                   && q' == q[p := Take(q[p], i, h)]
  }

  ghost predicate MadeVisible(q: seq<Sqs>, q': seq<Sqs>) {
    q' == q || exists p, h :: 0 <= p < |q| && h in q[p].inFlight && q' == q[p := SetVisibility(q[p], h, 0)]
  }

  ghost predicate Reset(q: seq<Sqs>, p: nat, h: Handle, q': seq<Sqs>) {
    q' == q || (p < |q| && q' == q[p := SetVisibility(q[p], h, 0)])
  }

  /** Delete through a handle and a priority, by a process that received nothing itself. */
  function DeletedAt(q: seq<Sqs>, p: nat, h: Handle): seq<Sqs> {
    if p < |q| then q[p := Remove(q[p], h)] else q
  }

  ghost predicate CheckerDeleted(s: State, pc: CheckerPc, q: seq<Sqs>, q': seq<Sqs>)
    requires pc.Holding?
  {
    pc.task in s.table && q' == DeletedAt(q, s.table[pc.task].priority, pc.read.handle)
  }

  ghost predicate CheckerReset(s: State, pc: CheckerPc, q: seq<Sqs>, q': seq<Sqs>)
    requires pc.Holding?
  {
    pc.task in s.table && Reset(q, s.table[pc.task].priority, pc.read.handle, q')
  }

  /**
    What a step does to the queues.  A send goes to the call's priority and fails for
    one that is not configured; an agent deletes in the queue it received from; the
    checker goes by the row's priority; a visibility timeout may end at any tick, and
    the checker's reset may fail.
   */
  ghost predicate QueueStep(s: State, e: Event, q: seq<Sqs>, q': seq<Sqs>)
    requires Enabled(s, e)
  {
    if e.SendChunk? then Sent(q, s.submits[e.call].priority, e.accepted, q')
    else if e.Receive? then Taken(q, e.task, e.handle, q')
    else if e.DropMessage? || e.Acknowledge? then DeletedWhereIssued(q, Pc(s, e.agent).handle, q')
    else if e.DeleteExhausted? then CheckerDeleted(s, CheckerAt(s, e.checker), q, q')
    else if e.RetryTask? then CheckerReset(s, CheckerAt(s, e.checker), q, q')
    else if e.Tick? then MadeVisible(q, q')
    else q' == q
  }

  // ---- the invariant ----

  predicate RoutesTo(s: State, t: Task, p: nat) {
    t in s.table && s.table[t].priority == p
  }

  /** One queue holds and has issued handles for tasks of its own priority only. */
  ghost predicate QueueRouted(s: State, p: nat, q: Sqs) {
    && (forall i :: 0 <= i < |q.waiting| ==> RoutesTo(s, q.waiting[i], p))
    && (forall h :: h in q.inFlight ==> h in q.issued && h in s.issued && s.issued[h] == q.inFlight[h])
    && (forall h :: h in q.issued ==> h in s.issued && RoutesTo(s, s.issued[h], p))
  }

  ghost predicate QueuesRouted(s: State, q: seq<Sqs>) {
    forall p :: 0 <= p < |q| ==> QueueRouted(s, p, q[p])
  }

  /** Every handle came from the queue of its task's priority. */
  ghost predicate HandlesRouted(s: State, q: seq<Sqs>) {
    forall h :: h in s.issued ==>
      s.issued[h] in s.table && s.table[s.issued[h]].priority < |q| && h in q[s.table[s.issued[h]].priority].issued
  }

  ghost predicate AllRouted(s: State, q: seq<Sqs>) {
    SubmitsRouted(s) && QueuesRouted(s, q) && HandlesRouted(s, q)
  }

  lemma CarryOver(s: State, s': State, q: seq<Sqs>)
    requires QueuesRouted(s, q) && HandlesRouted(s, q) && KeepsRows(s, s') && s'.issued == s.issued
    ensures QueuesRouted(s', q) && HandlesRouted(s', q)
  {
  }

  /** Replacing one queue by another routed one that has issued as much keeps both parts. */
  lemma OneQueueMoves(s: State, q: seq<Sqs>, p: nat, moved: Sqs)
    requires QueuesRouted(s, q) && HandlesRouted(s, q) && p < |q|
    requires QueueRouted(s, p, moved) && q[p].issued <= moved.issued
    ensures QueuesRouted(s, q[p := moved]) && HandlesRouted(s, q[p := moved])
  {
  }

  lemma SendIsRouted(s: State, k: CallId, accepted: set<Task>, q: seq<Sqs>, q': seq<Sqs>)
    requires SubmitsOk(s) && AllRouted(s, q) && Enabled(s, SendChunk(k, accepted)) && Sent(q, s.submits[k].priority, accepted, q')
    ensures QueuesRouted(s, q') && HandlesRouted(s, q')
  {
    var p := s.submits[k].priority;
    if p < |q| {
      var messages :| Elements(messages) == accepted && q' == q[p := q[p].(waiting := q[p].waiting + messages)];
      forall i | 0 <= i < |messages| ensures RoutesTo(s, messages[i], p) {
        assert messages[i] in Elements(messages);
        ChunkHasPriority(s, k, messages[i]);
      }
      OneQueueMoves(s, q, p, q'[p]);
    }
  }

  lemma ChunkHasPriority(s: State, k: CallId, t: Task)
    requires SubmitsOk(s) && SubmitsRouted(s) && k in s.submits && s.submits[k].written == |s.submits[k].ids|
    requires s.submits[k].sent < |s.submits[k].ids| && t in NextChunk(s.submits[k])
    ensures RoutesTo(s, t, s.submits[k].priority)
  {
  }

  lemma ReceiveIsRouted(s: State, t: Task, h: Handle, q: seq<Sqs>, q': seq<Sqs>)
    requires QueuesRouted(s, q) && HandlesRouted(s, q) && h !in s.issued && Taken(q, t, h, q')
    ensures QueuesRouted(s.(issued := s.issued[h := t]), q') && HandlesRouted(s.(issued := s.issued[h := t]), q')
  {
    var p, i :| 0 <= p < |q| && 0 <= i < |q[p].waiting| && q[p].waiting[i] == t && q' == q[p := Take(q[p], i, h)];
    var s' := s.(issued := s.issued[h := t]);
    forall r | 0 <= r < |q| ensures QueueRouted(s', r, q[r]) {
      IssueKeepsRouted(s, r, q[r], t, h);
    }
    TakeIsRouted(s', p, q[p], i, h);
    assert QueuesRouted(s', q') by {
      assert forall r :: 0 <= r < |q'| ==> q'[r] == if r == p then Take(q[p], i, h) else q[r];
    }
    HandleIsRouted(s, q, q', p, t, h);
  }

  lemma HandleIsRouted(s: State, q: seq<Sqs>, q': seq<Sqs>, p: nat, t: Task, h: Handle)
    requires HandlesRouted(s, q) && RoutesTo(s, t, p) && p < |q| == |q'| && h in q'[p].issued
    requires forall r :: 0 <= r < |q| ==> q[r].issued <= q'[r].issued
    ensures HandlesRouted(s.(issued := s.issued[h := t]), q')
  {
  }

  lemma IssueKeepsRouted(s: State, p: nat, q: Sqs, t: Task, h: Handle)
    requires QueueRouted(s, p, q) && h !in s.issued
    ensures QueueRouted(s.(issued := s.issued[h := t]), p, q)
  {
  }

  lemma TakeIsRouted(s: State, p: nat, q: Sqs, i: nat, h: Handle)
    requires QueueRouted(s, p, q) && i < |q.waiting| && h in s.issued && s.issued[h] == q.waiting[i]
    ensures QueueRouted(s, p, Take(q, i, h)) && Take(q, i, h).issued == q.issued + {h}
  {
  }

  lemma DeleteIsRouted(s: State, q: seq<Sqs>, p: nat, h: Handle)
    requires QueuesRouted(s, q) && HandlesRouted(s, q) && p < |q|
    ensures QueuesRouted(s, q[p := Remove(q[p], h)]) && HandlesRouted(s, q[p := Remove(q[p], h)])
  {
  }

  lemma OwnDeleteIsRouted(s: State, q: seq<Sqs>, h: Handle, q': seq<Sqs>)
    requires QueuesRouted(s, q) && HandlesRouted(s, q) && DeletedWhereIssued(q, h, q')
    ensures QueuesRouted(s, q') && HandlesRouted(s, q')
  {
  }

  lemma ResetIsRouted(s: State, q: seq<Sqs>, p: nat, h: Handle, q': seq<Sqs>)
    requires QueuesRouted(s, q) && HandlesRouted(s, q) && Reset(q, p, h, q')
    ensures QueuesRouted(s, q') && HandlesRouted(s, q')
  {
  }

  lemma TimeoutIsRouted(s: State, q: seq<Sqs>, q': seq<Sqs>)
    requires QueuesRouted(s, q) && HandlesRouted(s, q) && MadeVisible(q, q')
    ensures QueuesRouted(s, q') && HandlesRouted(s, q')
  {
  }

  lemma CheckerStepIsRouted(s: State, e: Event, q: seq<Sqs>, q': seq<Sqs>)
    requires QueuesRouted(s, q) && HandlesRouted(s, q) && Enabled(s, e) && QueueStep(s, e, q, q') && CheckerEvent(e)
    ensures QueuesRouted(s, q') && HandlesRouted(s, q')
  {
    var pc := CheckerAt(s, e.checker);
    if e.DeleteExhausted? && s.table[pc.task].priority < |q| {
      DeleteIsRouted(s, q, s.table[pc.task].priority, pc.read.handle);
    } else if e.RetryTask? {
      ResetIsRouted(s, q, s.table[pc.task].priority, pc.read.handle, q');
    }
  }

  /** The queues after a step are routed for the rows before it, the fresh handle included. */
  lemma QueueStepIsRouted(s: State, e: Event, q: seq<Sqs>, q': seq<Sqs>)
    requires Inv(s) && AllRouted(s, q) && Enabled(s, e) && QueueStep(s, e, q, q') && !e.Receive?
    ensures QueuesRouted(s, q') && HandlesRouted(s, q')
  {
    if CheckerEvent(e) {
      CheckerStepIsRouted(s, e, q, q');
    } else if e.SendChunk? {
      SendIsRouted(s, e.call, e.accepted, q, q');
    } else if e.DropMessage? || e.Acknowledge? {
      OwnDeleteIsRouted(s, q, Pc(s, e.agent).handle, q');
    } else if e.Tick? {
      TimeoutIsRouted(s, q, q');
    }
  }

  lemma StepKeepsRouted(s: State, e: Event, q: seq<Sqs>, q': seq<Sqs>)
    requires Inv(s) && AllRouted(s, q) && Enabled(s, e) && QueueStep(s, e, q, q')
    ensures AllRouted(Apply(s, e), q')
  {
    StepKeepsSubmitsRouted(s, e);
    StepKeepsRows(s, e);
    if e.Receive? {
      ReceiveIsRouted(s, e.task, e.handle, q, q');
      CarryOver(s.(issued := s.issued[e.handle := e.task]), Apply(s, e), q');
    } else {
      QueueStepIsRouted(s, e, q, q');
      Frame(s, e);
      CarryOver(s, Apply(s, e), q');
    }
  }

  /** A run of the protocol with the queues it runs on, all of them empty at first. */
  ghost predicate QueueRun(states: seq<State>, events: seq<Event>, queues: seq<seq<Sqs>>) {
    && Run(states, events) && |queues| == |states|
    && (forall p :: 0 <= p < |queues[0]| ==> queues[0][p] == Sqs([], map[], {}))
    && forall i :: 0 <= i < |events| ==> StepAt(states, events, i) && QueueStep(states[i], events[i], queues[i], queues[i + 1])
  }

  lemma {:induction false} RoutedInEveryState(states: seq<State>, events: seq<Event>, queues: seq<seq<Sqs>>, i: nat)
    requires QueueRun(states, events, queues) && i < |states|
    ensures AllRouted(states[i], queues[i])
  {
    if i > 0 {
      RoutedInEveryState(states, events, queues, i - 1);
      InvInEveryState(states, events, i - 1);
      assert StepAt(states, events, i - 1);
      StepKeepsRouted(states[i - 1], events[i - 1], queues[i - 1], queues[i]);
    }
  }

  predicate Wrote(call: SubmitCall, t: Task) {
    call.written <= |call.ids| && t in call.ids[..call.written]
  }

  /**
    Main result: whatever version of a task's row a checker reads, its handle was
    issued by the queue of the row's priority and by no other, and if that handle is
    still in flight there, it holds this task's message.  The priority is the one the
    task was submitted with.
   */
  lemma RowLeadsToItsMessage(states: seq<State>, events: seq<Event>, queues: seq<seq<Sqs>>, i: nat, t: Task, v: Version)
    requires QueueRun(states, events, queues) && i < |states|
    requires t in states[i].table && v in states[i].table[t].versions && v.handle != NO_HANDLE
    ensures var p, q := states[i].table[t].priority, queues[i];
      && p < |q| && v.handle in q[p].issued
      && (forall r :: 0 <= r < |q| && v.handle in q[r].issued ==> r == p)
      && (v.handle in q[p].inFlight ==> q[p].inFlight[v.handle] == t)
    ensures forall k :: k in states[i].submits && Wrote(states[i].submits[k], t) ==> states[i].table[t].priority == states[i].submits[k].priority
  {
    RoutedInEveryState(states, events, queues, i);
    InvInEveryState(states, events, i);
    forall k | k in states[i].submits && Wrote(states[i].submits[k], t)
      ensures states[i].table[t].priority == states[i].submits[k].priority
    {
      assert CallRouted(states[i], states[i].submits[k]);
    }
    forall r | 0 <= r < |queues[i]| && v.handle in queues[i][r].issued ensures r == states[i].table[t].priority {
      assert QueueRouted(states[i], r, queues[i][r]);
    }
  }

  /**
    What a checker's queue calls do: its delete takes the task's message out of flight
    in every queue and leaves the waiting ones alone; its reset, unless it fails, makes
    the task's message wait again in the queue of the task's priority.
   */
  lemma CheckerReachesMessage(states: seq<State>, events: seq<Event>, queues: seq<seq<Sqs>>, i: nat, c: CheckerId)
    requires QueueRun(states, events, queues) && i < |events| && (events[i] == DeleteExhausted(c) || events[i] == RetryTask(c))
    requires CheckerAt(states[i], c).Holding? && CheckerAt(states[i], c).read.handle != NO_HANDLE
    ensures var t, h, q, q' := CheckerAt(states[i], c).task, CheckerAt(states[i], c).read.handle, queues[i], queues[i + 1];
      && t in states[i].table && states[i].table[t].priority < |q| == |q'|
      && var p := states[i].table[t].priority;
         if events[i] == DeleteExhausted(c) then
           forall r :: 0 <= r < |q| ==> h !in q'[r].inFlight && q'[r].waiting == q[r].waiting
         else
           q' != q ==> h in q[p].inFlight && h !in q'[p].inFlight && q'[p].waiting == q[p].waiting + [t]
  {
    var pc := CheckerAt(states[i], c);
    InvInEveryState(states, events, i);
    RoutedInEveryState(states, events, queues, i);
    assert StepAt(states, events, i) && CheckerOk(states[i], pc);
    RowLeadsToItsMessage(states, events, queues, i, pc.task, pc.read);
    var q, p := queues[i], states[i].table[pc.task].priority;
    forall r | 0 <= r < |q| && r != p ensures pc.read.handle !in q[r].inFlight {
      assert QueueRouted(states[i], r, q[r]);
    }
  }

  /** A reset that does not fail is such a step: the message in flight under the handle read waits again. */
  lemma ResetCanLand(s: State, c: CheckerId, q: seq<Sqs>)
    requires Enabled(s, RetryTask(c))
    ensures var p, h := s.table[CheckerAt(s, c).task].priority, CheckerAt(s, c).read.handle;
      p < |q| && h in q[p].inFlight ==>
        QueueStep(s, RetryTask(c), q, q[p := Sqs(q[p].waiting + [q[p].inFlight[h]], q[p].inFlight - {h}, q[p].issued)])
  {
  }
}
