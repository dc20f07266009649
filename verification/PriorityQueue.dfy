/**
  The priority queue emulated by several SQS queues.  Each underlying queue has
  waiting messages, messages in flight under the handle they were received with, and
  the set of handles it ever issued.  A receive from a queue returns a message if
  one is waiting; which one is the service's choice.
 */
module PriorityQueue {
  import opened Prelude

  type Handle = string

  datatype Sqs = Sqs(waiting: seq<string>, inFlight: map<Handle, string>, issued: set<Handle>)

  datatype Message = Message(body: string, handle: Handle)

  /** Take the waiting message at `pick` in flight under a fresh handle. */
  function Take(q: Sqs, pick: nat, h: Handle): Sqs
    requires pick < |q.waiting|
  {
    Sqs(q.waiting[..pick] + q.waiting[pick + 1..], q.inFlight[h := q.waiting[pick]], q.issued + {h})
  }

  /** Delete through a handle; a handle this queue did not issue deletes nothing. */
  function Remove(q: Sqs, h: Handle): Sqs {
    q.(inFlight := q.inFlight - {h})
  }

  /** A visibility timeout of zero puts the message back, any other keeps it in flight. */
  function SetVisibility(q: Sqs, h: Handle, timeout: nat): Sqs {
    if h in q.inFlight && timeout == 0 then q.(waiting := q.waiting + [q.inFlight[h]], inFlight := q.inFlight - {h}) else q
  }

  // ---- the one priority queue the wrapper stands for ----

  function Tagged(p: nat, bodies: seq<string>): multiset<(nat, string)> {
    if bodies == [] then multiset{} else multiset{(p, bodies[0])} + Tagged(p, bodies[1..])
  }

  /** All waiting messages with their priorities. */
  function Waiting(queues: seq<Sqs>): multiset<(nat, string)> {
    if queues == [] then multiset{}
    else Waiting(queues[..|queues| - 1]) + Tagged(|queues| - 1, queues[|queues| - 1].waiting)
  }

  lemma {:induction false} TaggedConcat(p: nat, a: seq<string>, b: seq<string>)
    ensures Tagged(p, a + b) == Tagged(p, a) + Tagged(p, b)
  {
    if a == [] {
      assert a + b == b;
    } else {
      assert (a + b)[1..] == a[1..] + b;
      TaggedConcat(p, a[1..], b);
    }
  }

  lemma {:induction false} TaggedMembers(p: nat, bodies: seq<string>, x: (nat, string))
    ensures x in Tagged(p, bodies) <==> x.0 == p && x.1 in bodies
    ensures |Tagged(p, bodies)| == |bodies|
  {
    if bodies != [] {
      TaggedMembers(p, bodies[1..], x);
      assert x.1 in bodies <==> x.1 == bodies[0] || x.1 in bodies[1..];
    }
  }

  lemma {:induction false} WaitingMembers(queues: seq<Sqs>, x: (nat, string))
    ensures x in Waiting(queues) <==> x.0 < |queues| && x.1 in queues[x.0].waiting
  {
    if queues != [] {
      WaitingMembers(queues[..|queues| - 1], x);
      TaggedMembers(|queues| - 1, queues[|queues| - 1].waiting, x);
    }
  }

  /** If one queue gains some messages, the whole gains exactly them, at its priority. */
  lemma {:induction false} WaitingGains(queues: seq<Sqs>, p: nat, q: Sqs, gained: multiset<(nat, string)>)
    requires p < |queues| && Tagged(p, q.waiting) == Tagged(p, queues[p].waiting) + gained
    ensures Waiting(queues[p := q]) == Waiting(queues) + gained
  {
    var n := |queues| - 1;
    var updated := queues[p := q];
    var rest := Waiting(queues[..n]);
    if p == n {
      assert updated[..n] == queues[..n];
      assert rest + (Tagged(n, queues[n].waiting) + gained) == (rest + Tagged(n, queues[n].waiting)) + gained;
    } else {
      assert updated[..n] == queues[..n][p := q];
      WaitingGains(queues[..n], p, q, gained);
      var last := Tagged(n, queues[n].waiting);
      assert (rest + gained) + last == (rest + last) + gained;
    }
  }

  /** Sending inserts the messages at their priority. */
  lemma SendInserts(queues: seq<Sqs>, p: nat, bodies: seq<string>)
    requires p < |queues|
    ensures Waiting(queues[p := queues[p].(waiting := queues[p].waiting + bodies)]) == Waiting(queues) + Tagged(p, bodies)
  {
    TaggedConcat(p, queues[p].waiting, bodies);
    WaitingGains(queues, p, queues[p].(waiting := queues[p].waiting + bodies), Tagged(p, bodies));
  }

  lemma TaggedOne(p: nat, body: string)
    ensures Tagged(p, [body]) == multiset{(p, body)}
  {
  }

  lemma TaggedWithout(p: nat, w: seq<string>, i: nat)
    requires i < |w|
    ensures Tagged(p, w) == Tagged(p, w[..i] + w[i + 1..]) + multiset{(p, w[i])}
  {
    assert w == w[..i] + ([w[i]] + w[i + 1..]);
    TaggedConcat(p, w[..i], [w[i]] + w[i + 1..]);
    TaggedConcat(p, [w[i]], w[i + 1..]);
    TaggedConcat(p, w[..i], w[i + 1..]);
    TaggedOne(p, w[i]);
  }

  predicate NoneWaitsFrom(queues: seq<Sqs>, p: nat) {
    forall q :: p <= q < |queues| ==> queues[q].waiting == []
  }

  /** Receiving from the highest queue with a message waiting removes one message of maximal priority. */
  lemma ReceiveTakesMaximum(queues: seq<Sqs>, p: nat, i: nat, h: Handle)
    requires p < |queues| && i < |queues[p].waiting| && NoneWaitsFrom(queues, p + 1)
    ensures Waiting(queues) == Waiting(queues[p := Take(queues[p], i, h)]) + multiset{(p, queues[p].waiting[i])}
    ensures forall y :: y in Waiting(queues) ==> y.0 <= p
  {
    var after := queues[p := Take(queues[p], i, h)];
    TaggedWithout(p, queues[p].waiting, i);
    WaitingGains(after, p, queues[p], multiset{(p, queues[p].waiting[i])});
    assert after[p := queues[p]] == queues;
    forall y | y in Waiting(queues) ensures y.0 <= p {
      WaitingMembers(queues, y);
    }
  }

  /** The emulated queue is empty exactly when every queue is. */
  lemma EmptyWhenNoneWaits(queues: seq<Sqs>)
    ensures Waiting(queues) == multiset{} <==> NoneWaitsFrom(queues, 0)
  {
  }

  /** Making a message visible again puts it back at the priority it came from. */
  lemma VisibleAgain(queues: seq<Sqs>, p: nat, h: Handle)
    requires p < |queues| && h in queues[p].inFlight
    ensures Waiting(queues[p := SetVisibility(queues[p], h, 0)]) == Waiting(queues) + multiset{(p, queues[p].inFlight[h])}
  {
    TaggedOne(p, queues[p].inFlight[h]);
    TaggedConcat(p, queues[p].waiting, [queues[p].inFlight[h]]);
    WaitingGains(queues, p, SetVisibility(queues[p], h, 0), multiset{(p, queues[p].inFlight[h])});
  }

  lemma TakenNoLongerWaits(q: Sqs, pick: nat, h: Handle)
    requires pick < |q.waiting|
    ensures multiset(Take(q, pick, h).waiting) == multiset(q.waiting) - multiset{q.waiting[pick]}
  {
    assert q.waiting == q.waiting[..pick] + [q.waiting[pick]] + q.waiting[pick + 1..];
  }

  /**
    The life of one message in its queue: a receive moves it in flight under the new
    handle; a delete takes it out of flight for good; a visibility timeout of zero makes
    it wait again, any other leaves it in flight.  Other messages are not touched.
   */
  lemma MessageLife(q: Sqs, pick: nat, h: Handle, timeout: nat)
    requires pick < |q.waiting| && h !in q.inFlight
    ensures var taken := Take(q, pick, h);
      && h in taken.inFlight && taken.inFlight[h] == q.waiting[pick]
      && multiset(taken.waiting) == multiset(q.waiting) - multiset{q.waiting[pick]}
    ensures var removed := Remove(Take(q, pick, h), h);
      && h !in removed.inFlight && removed.inFlight == q.inFlight && removed.waiting == Take(q, pick, h).waiting
    ensures var again := SetVisibility(Take(q, pick, h), h, timeout);
      if timeout == 0 then h !in again.inFlight && again.inFlight == q.inFlight && multiset(again.waiting) == multiset(q.waiting)
      else h in again.inFlight && again.inFlight[h] == q.waiting[pick] && again.waiting == Take(q, pick, h).waiting
  {
    TakenNoLongerWaits(q, pick, h);
  }

  datatype Routing = Routed(queue: nat) | NoQueue

  class QueuePrioritySQS {
    var queues: seq<Sqs>
    /** msg_handle_to_queue_lookup, filled by this process's own receives. */
    var lookup: map<Handle, nat>

    ghost predicate Valid()
      reads this
    {
      && (forall p, q, h :: 0 <= p < |queues| && 0 <= q < |queues| && h in queues[p].issued && h in queues[q].issued ==> p == q)
      && (forall p, h :: 0 <= p < |queues| && h in queues[p].inFlight ==> h in queues[p].issued)
      && (forall h :: h in lookup ==> lookup[h] < |queues| && h in queues[lookup[h]].issued)
    }

    constructor (priorities: nat)
      ensures Valid() && lookup == map[] && queues == seq(priorities, i => Sqs([], map[], {}))
    {
      queues := seq(priorities, i => Sqs([], map[], {}));
      lookup := map[];
    }

    /** send_messages: without a priority, queue 0; a priority nobody configured raises. */
    method SendMessages(bodies: seq<string>, priority: Option<nat>) returns (sent: bool)
      requires Valid()
      modifies this`queues
      ensures Valid()
      ensures var p := match priority case Some(x) => x case None => 0;
        && (sent <==> p < |old(queues)|)
        && queues == if sent then old(queues)[p := old(queues)[p].(waiting := old(queues)[p].waiting + bodies)] else old(queues)
    {
      var p := match priority case Some(x) => x case None => 0;
      if p >= |queues| {
        return false;
      }
      queues := queues[p := queues[p].(waiting := queues[p].waiting + bodies)];
      return true;
    }

    /**
      receive_message: the first queue, from the highest priority down, with a
      message waiting.  `h` is the fresh handle the service issues, `pick` its choice.
     */
    method ReceiveMessage(h: Handle, pick: nat) returns (r: Option<Message>)
      requires Valid() && forall p :: 0 <= p < |queues| ==> h !in queues[p].issued
      modifies this
      ensures Valid()
      ensures r.None? <==> NoneWaitsFrom(old(queues), 0)
      ensures r.None? ==> queues == old(queues) && lookup == old(lookup)
      ensures r.Some? ==> r.value.handle == h && h in lookup && lookup == old(lookup)[h := lookup[h]] && lookup[h] < |old(queues)|
      ensures r.Some? ==> var p := lookup[h];
        && old(queues)[p].waiting != [] && NoneWaitsFrom(old(queues), p + 1)
        && var i := pick % |old(queues)[p].waiting|;
           r.value.body == old(queues)[p].waiting[i] && queues == old(queues)[p := Take(old(queues)[p], i, h)]
    {
      var p := |queues|;
      while p > 0
        invariant 0 <= p <= |queues| && NoneWaitsFrom(queues, p)
      {
        p := p - 1;
        var waiting := queues[p].waiting;
        if waiting != [] {
          var i := pick % |waiting|;
          queues := queues[p := Take(queues[p], i, h)];
          lookup := lookup[h := p];
          return Some(Message(waiting[i], h));
        }
      }
      return None;
    }

    /** __get_queue_object: the lookup first, then the priority, else an error. */
    method GetQueueObject(h: Handle, priority: Option<nat>) returns (r: Routing)
      requires Valid()
      ensures r.NoQueue? <==> h !in lookup && (priority.None? || priority.value >= |queues|)
      ensures r.Routed? ==> r.queue < |queues|
      ensures h in lookup ==> r.Routed? && h in queues[r.queue].issued
      ensures h !in lookup && r.Routed? ==> priority == Some(r.queue)
      ensures priority.Some? && priority.value < |queues| && h in queues[priority.value].issued ==> r == Routed(priority.value)
    {
      if h in lookup {
        return Routed(lookup[h]);
      }
      if priority.Some? && priority.value < |queues| {
        return Routed(priority.value);
      }
      return NoQueue;
    }

    /**
      delete_message: with the priority of the queue that issued the handle, the
      message goes from that queue and from no other, whether or not this process
      received it.
     */
    method DeleteMessage(h: Handle, priority: Option<nat>) returns (deleted: bool)
      requires Valid()
      modifies this`queues
      ensures Valid()
      ensures deleted <==> h in lookup || (priority.Some? && priority.value < |old(queues)|)
      ensures !deleted ==> queues == old(queues)
      ensures forall p :: 0 <= p < |old(queues)| && h in old(queues)[p].issued && (h in lookup || priority == Some(p)) ==>
                queues == old(queues)[p := Remove(old(queues)[p], h)]
    {
      var r := GetQueueObject(h, priority);
      if r.NoQueue? {
        return false;
      }
      queues := queues[r.queue := Remove(queues[r.queue], h)];
      return true;
    }

    /** change_visibility: routed the same way. */
    method ChangeVisibility(h: Handle, timeout: nat, priority: Option<nat>) returns (changed: bool)
      requires Valid()
      modifies this`queues
      ensures Valid()
      ensures changed <==> h in lookup || (priority.Some? && priority.value < |old(queues)|)
      ensures !changed ==> queues == old(queues)
      ensures forall p :: 0 <= p < |old(queues)| && h in old(queues)[p].issued && (h in lookup || priority == Some(p)) ==>
                queues == old(queues)[p := SetVisibility(old(queues)[p], h, timeout)]
    {
      var r := GetQueueObject(h, priority);
      if r.NoQueue? {
        return false;
      }
      queues := queues[r.queue := SetVisibility(queues[r.queue], h, timeout)];
      return true;
    }

    /** get_queue_length: the total over all priorities. */
    method GetQueueLength() returns (n: nat)
      ensures n == |Waiting(queues)|
    {
      n := 0;
      for p := 0 to |queues|
        invariant n == |Waiting(queues[..p])|
      {
        assert queues[..p + 1][..p] == queues[..p];
        TaggedMembers(p, queues[p].waiting, (0, ""));
        n := n + |queues[p].waiting|;
      }
      assert queues[..|queues|] == queues;
    }
  }
}
