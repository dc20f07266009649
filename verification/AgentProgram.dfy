/** The agent as a program: its loops, retries and branches, one external call after the other. */
module AgentProgram {
  import opened Prelude
  import opened TaskStates
  import opened Rows
  import opened Protocol
  import opened Safety
  import opened Worlds

  // ---- what a round is given, and what it comes to ----

  /** What the queue hands to one receive. */
  datatype Offer = Offer(task: Task, handle: Handle)

  /** One refresh of the heartbeat: how many attempts are throttled first, and what is written. */
  datatype Poll = Poll(throttles: nat, expiration: int)

  /** One round of the event loop: what is offered and how the calls go. */
  datatype Round = Round(offer: Offer, expiration: int, claimThrottled: bool, readable: bool, polls: seq<Poll>,
                         bootstrapError: bool, finishThrottles: nat)

  /** The row read back in the state `at`, and the state in which the message was deleted, if it was. */
  datatype Look = Look(at: State, deleted: Option<State>)

  /** The states in which the message was received and the task claimed. */
  datatype Acquired = Acquired(received: State, claimed: State)

  /** A heartbeat refused, the row read back, and the agent stopped. */
  datatype Loss = Loss(refused: State, look: Look, stopped: State)

  /** How a round ended, with the states of its calls; `beats` are those of the heartbeats that landed. */
  datatype End =
    | NoMessage(asked: State)
    | NotClaimed(received: State, refused: State, look: Look)
    | HeartbeatLost(acquired: Acquired, beats: seq<State>, loss: Loss)
    | BootstrapError(acquired: Acquired, beats: seq<State>, stopped: State)
    | NotFinished(acquired: Acquired, beats: seq<State>, stored: State, refused: State)
    | Done(acquired: Acquired, beats: seq<State>, stored: State, finished: State, acknowledged: State)

  // ---- the agent's own deeds in a round ----

  function LookDeeds(me: AgentId, r: Round, look: Look): seq<Deed> {
    [Deed(look.at, ReadBack(me, r.readable))] +
    match look.deleted
    case Some(s) => [Deed(s, DropMessage(me))]
    case None => []
  }

  function AcquiringDeeds(me: AgentId, r: Round, a: Acquired): seq<Deed> {
    [Deed(a.received, Receive(me, r.offer.task, r.offer.handle)), Deed(a.claimed, ClaimTask(me, r.expiration))]
  }

  function BeatDeeds(me: AgentId, polls: seq<Poll>, beats: seq<State>): seq<Deed>
    requires |beats| <= |polls|
  {
    if beats == [] then [] else
    var n := |beats| - 1;
    BeatDeeds(me, polls, beats[..n]) + [Deed(beats[n], RefreshTtl(me, polls[n].expiration))]
  }

  function LossDeeds(me: AgentId, r: Round, loss: Loss): seq<Deed> {
    [Deed(loss.refused, RefreshRefused(me))] + LookDeeds(me, r, loss.look) + [Deed(loss.stopped, AgentStop(me))]
  }

  predicate BeatsFit(r: Round, end: End) {
    end.NoMessage? || end.NotClaimed? || |end.beats| <= |r.polls|
  }

  function RoundDeeds(me: AgentId, r: Round, end: End): seq<Deed>
    requires BeatsFit(r, end)
  {
    match end
    case NoMessage(_) => []
    case NotClaimed(received, refused, look) =>
      [Deed(received, Receive(me, r.offer.task, r.offer.handle)), Deed(refused, ClaimRefused(me))] + LookDeeds(me, r, look)
    case HeartbeatLost(acquired, beats, loss) =>
      AcquiringDeeds(me, r, acquired) + BeatDeeds(me, r.polls, beats) + LossDeeds(me, r, loss)
    case BootstrapError(acquired, beats, stopped) =>
      AcquiringDeeds(me, r, acquired) + BeatDeeds(me, r.polls, beats) + [Deed(stopped, AgentStop(me))]
    case NotFinished(acquired, beats, stored, refused) =>
      AcquiringDeeds(me, r, acquired) + BeatDeeds(me, r.polls, beats) + [Deed(stored, StoreOutput(me)), Deed(refused, FinishRefused(me))]
    case Done(acquired, beats, stored, finished, acknowledged) =>
      AcquiringDeeds(me, r, acquired) + BeatDeeds(me, r.polls, beats)
      + [Deed(stored, StoreOutput(me)), Deed(finished, FinishTask(me)), Deed(acknowledged, Acknowledge(me))]
  }

  // ---- when a round ends how ----

  /** The queue has the message, and hands it out under a new handle. */
  predicate Offered(s: State, offer: Offer) {
    offer.task in s.queue && offer.handle !in s.issued && offer.handle != NO_HANDLE
  }

  predicate Claimable(s: State, t: Task) {
    t in s.table && s.table[t].status == Pending && s.table[t].owner == None
  }

  predicate Owned(s: State, me: AgentId, t: Task) {
    t in s.table && s.table[t].status == Processing && s.table[t].owner == Some(me)
  }

  /** The message is deleted exactly when the row could be read and was cancelled. */
  predicate LookOk(r: Round, t: Task, look: Look) {
    look.deleted.Some? <==> r.readable && t in look.at.table && look.at.table[t].status == Cancelled
  }

  predicate AcquiredOk(r: Round, a: Acquired) {
    Offered(a.received, r.offer) && !r.claimThrottled && Claimable(a.claimed, r.offer.task)
  }

  predicate AllOwned(me: AgentId, t: Task, beats: seq<State>) {
    forall i :: 0 <= i < |beats| ==> Owned(beats[i], me, t)
  }

  /**
    The exact conditions, on the rows as they are at the calls: claimed exactly when a
    message is offered, the claim is not throttled and the row is pending without an
    owner; alive as long as each heartbeat finds the row processing under this agent;
    completed exactly when the worker started; and done exactly when the finish write
    finds the row still processing under this agent.
   */
  predicate EndsSo(me: AgentId, r: Round, end: End) {
    var t := r.offer.task;
    match end
    case NoMessage(asked) => !Offered(asked, r.offer)
    case NotClaimed(received, refused, look) =>
      Offered(received, r.offer) && (r.claimThrottled || !Claimable(refused, t)) && LookOk(r, t, look)
    case HeartbeatLost(acquired, beats, loss) =>
      && AcquiredOk(r, acquired) && |beats| < |r.polls| && AllOwned(me, t, beats)
      && !Owned(loss.refused, me, t) && LookOk(r, t, loss.look)
    case BootstrapError(acquired, beats, stopped) =>
      AcquiredOk(r, acquired) && |beats| == |r.polls| && AllOwned(me, t, beats) && r.bootstrapError
    case NotFinished(acquired, beats, stored, refused) =>
      AcquiredOk(r, acquired) && |beats| == |r.polls| && AllOwned(me, t, beats) && !r.bootstrapError && !Owned(refused, me, t)
    case Done(acquired, beats, stored, finished, acknowledged) =>
      AcquiredOk(r, acquired) && |beats| == |r.polls| && AllOwned(me, t, beats) && !r.bootstrapError && Owned(finished, me, t)
  }

  /**
    Why a round is not done: no message was there, or none under a new handle; the claim
    was throttled or the row not a free pending one; the worker did not start; or the
    row was not processing under this agent when a heartbeat or the finish was written.
   */
  lemma WhyNotDone(me: AgentId, r: Round, end: End)
    requires EndsSo(me, r, end) && !end.Done?
    ensures end.NoMessage? ==>
      r.offer.task !in end.asked.queue || r.offer.handle in end.asked.issued || r.offer.handle == "None"
    ensures end.NotClaimed? ==>
      r.claimThrottled || r.offer.task !in end.refused.table
      || end.refused.table[r.offer.task].status != Pending || end.refused.table[r.offer.task].owner != None
    ensures end.BootstrapError? ==> r.bootstrapError
    ensures end.HeartbeatLost? || end.NotFinished? ==>
      var s := if end.HeartbeatLost? then end.loss.refused else end.refused;
      r.offer.task !in s.table || s.table[r.offer.task].status != Processing || s.table[r.offer.task].owner != Some(me)
  {
  }

  /** The task's message is gone for good, because its row is terminal. */
  ghost predicate Settled(s: State, t: Task) {
    t !in s.queue && t in s.table && Terminal(s.table[t].status)
  }

  // ---- the calls ----

  lemma HandleIsMine(s: State, a: AgentId)
    requires Inv(s) && !Pc(s, a).Idle?
    ensures Pc(s, a).handle in s.issued && s.issued[Pc(s, a).handle] == Pc(s, a).task && Pc(s, a).task in s.table
    ensures Pc(s, a).SawCancelled? || Pc(s, a).Completed? ==> Terminal(s.table[Pc(s, a).task].status)
    ensures Pc(s, a).Stored? || Pc(s, a).Completed? ==> Pc(s, a).task in s.outputs
  {
  }

  /** Delete the received message and go on; its task's row is terminal by then. */
  method Delete(world: World, me: AgentId, cancelled: bool) returns (deleted: State)
    requires world.Valid()
    requires if cancelled then Pc(world.now, me).SawCancelled? else Pc(world.now, me).Completed?
    modifies world
    ensures world.Valid() && Pc(world.now, me).Idle? && old(world.states) <= world.states
    ensures Mine(world.deeds, Agent(me)) ==
            Mine(old(world.deeds), Agent(me)) + [Deed(deleted, if cancelled then DropMessage(me) else Acknowledge(me))]
    ensures var t := old(Pc(world.now, me)).task; Settled(world.now, t) && (!cancelled ==> t in world.now.outputs)
  {
    world.Others(Agent(me));
    world.HasInv();
    HandleIsMine(world.now, me);
    deleted := world.now;
    if cancelled {
      world.Do(DropMessage(me));
    } else {
      world.Do(Acknowledge(me));
    }
  }

  /**
    The refused claim or heartbeat: read the row back and delete the message if the
    task was cancelled.
   */
  method LookIfCancelled(world: World, me: AgentId, r: Round) returns (look: Look)
    requires world.Valid() && Pc(world.now, me).Refused?
    modifies world
    ensures world.Valid() && Pc(world.now, me).Idle? && old(world.states) <= world.states
    ensures Mine(world.deeds, Agent(me)) == Mine(old(world.deeds), Agent(me)) + LookDeeds(me, r, look)
    ensures var t := old(Pc(world.now, me)).task; LookOk(r, t, look) && (look.deleted.Some? ==> Settled(world.now, t))
  {
    world.Others(Agent(me));
    var t, at := Pc(world.now, me).task, world.now;
    world.Do(ReadBack(me, r.readable));
    if r.readable && t in at.table && at.table[t].status.Cancelled? {
      var deleted := Delete(world, me, true);
      return Look(at, Some(deleted));
    }
    return Look(at, None);
  }

  /** A message is received if the offered one is on the queue and its handle is new. */
  method ReceiveMessage(world: World, me: AgentId, offer: Offer) returns (asked: State, received: bool)
    requires world.Valid() && Pc(world.now, me).Idle?
    modifies world
    ensures world.Valid() && old(world.states) <= world.states && (received <==> Offered(asked, offer))
    ensures if received then Pc(world.now, me) == Received(offer.task, offer.handle) else Pc(world.now, me).Idle? && world.now == asked
    ensures Mine(world.deeds, Agent(me)) ==
            Mine(old(world.deeds), Agent(me)) + if received then [Deed(asked, Receive(me, offer.task, offer.handle))] else []
  {
    world.Others(Agent(me));
    asked := world.now;
    received := Enabled(world.now, Receive(me, offer.task, offer.handle));
    if received {
      world.Do(Receive(me, offer.task, offer.handle));
    }
  }

  /** The claim write, unless it is throttled or the row is not a pending one. */
  method ClaimForAgent(world: World, me: AgentId, expiration: int, throttled: bool) returns (asked: State, claimed: bool)
    requires world.Valid() && Pc(world.now, me).Received?
    modifies world
    ensures world.Valid() && old(world.states) <= world.states
    ensures var pc := old(Pc(world.now, me));
      && (claimed <==> !throttled && Claimable(asked, pc.task))
      && (!claimed ==> Pc(world.now, me) == Refused(pc.task, pc.handle))
      && (claimed ==>
            && Owned(world.now, me, pc.task)
            && var row := world.now.table[pc.task];
               row.heartbeat == expiration && row.handle == pc.handle && Pc(world.now, me) == Running(pc.task, pc.handle, row.claims))
    ensures Mine(world.deeds, Agent(me)) ==
            Mine(old(world.deeds), Agent(me)) + [Deed(asked, if claimed then ClaimTask(me, expiration) else ClaimRefused(me))]
  {
    world.Others(Agent(me));
    asked := world.now;
    var pc := Pc(world.now, me);
    claimed := !throttled && Accepts(world.now, pc.task, Claim(me, expiration, pc.handle));
    if claimed {
      world.Do(ClaimTask(me, expiration));
    } else {
      world.Do(ClaimRefused(me));
    }
  }

  /** What is left of a round that acquired no task, or the states in which one was acquired. */
  datatype Try = Acquires(acquired: Acquired) | Ends(end: End)

  function TryDeeds(me: AgentId, r: Round, result: Try): seq<Deed>
    requires result.Ends? ==> BeatsFit(r, result.end)
  {
    match result
    case Acquires(acquired) => AcquiringDeeds(me, r, acquired)
    case Ends(end) => RoundDeeds(me, r, end)
  }

  lemma AcquiredTry(me: AgentId, r: Round, a: Acquired, before: seq<Deed>)
    ensures before + [Deed(a.received, Receive(me, r.offer.task, r.offer.handle))] + [Deed(a.claimed, ClaimTask(me, r.expiration))] ==
            before + TryDeeds(me, r, Acquires(a))
  {
  }

  lemma UnclaimedTry(me: AgentId, r: Round, received: State, refused: State, look: Look, before: seq<Deed>)
    ensures before + [Deed(received, Receive(me, r.offer.task, r.offer.handle))] + [Deed(refused, ClaimRefused(me))] + LookDeeds(me, r, look) ==
            before + TryDeeds(me, r, Ends(NotClaimed(received, refused, look)))
  {
  }

  /**
    try_to_acquire_a_task: receive, claim, and on a refused or throttled claim look
    whether the task was cancelled.
   */
  method TryToAcquire(world: World, me: AgentId, r: Round) returns (result: Try)
    requires world.Valid() && Pc(world.now, me).Idle?
    modifies world
    ensures world.Valid() && old(world.states) <= world.states
    ensures result.Ends? ==> (result.end.NoMessage? || result.end.NotClaimed?) && EndsSo(me, r, result.end)
    ensures Mine(world.deeds, Agent(me)) == Mine(old(world.deeds), Agent(me)) + TryDeeds(me, r, result)
    ensures result.Acquires? ==>
      && AcquiredOk(r, result.acquired) && Owned(world.now, me, r.offer.task)
      && var row := world.now.table[r.offer.task];
         && row.heartbeat == r.expiration && row.handle == r.offer.handle
         && Pc(world.now, me) == Running(r.offer.task, r.offer.handle, row.claims)
    ensures result.Ends? ==> Pc(world.now, me).Idle? && (result.end.NoMessage? ==> result.end.asked == world.now)
    ensures result.Ends? && result.end.NotClaimed? && result.end.look.deleted.Some? ==> Settled(world.now, r.offer.task)
  {
    ghost var before := Mine(world.deeds, Agent(me));
    var received, offered := ReceiveMessage(world, me, r.offer);
    if !offered {
      return Ends(NoMessage(received));
    }
    var decided, claimed := ClaimForAgent(world, me, r.expiration, r.claimThrottled);
    if claimed {
      AcquiredTry(me, r, Acquired(received, decided), before);
      return Acquires(Acquired(received, decided));
    }
    var look := LookIfCancelled(world, me, r);
    UnclaimedTry(me, r, received, decided, look, before);
    return Ends(NotClaimed(received, decided, look));
  }

  /** A call that is throttled `throttles` times has no effect until it is answered; others go on. */
  method WaitOutThrottling(world: World, me: AgentId, throttles: nat)
    requires world.Valid()
    modifies world
    ensures world.Valid() && Pc(world.now, me) == old(Pc(world.now, me)) && old(world.states) <= world.states
    ensures Mine(world.deeds, Agent(me)) == Mine(old(world.deeds), Agent(me))
  {
    var attempt := 0;
    while attempt < throttles
      invariant world.Valid() && Pc(world.now, me) == old(Pc(world.now, me)) && old(world.states) <= world.states
      invariant Mine(world.deeds, Agent(me)) == Mine(old(world.deeds), Agent(me))
    {
      world.Others(Agent(me));
      attempt := attempt + 1;
    }
    world.Others(Agent(me));
  }

  lemma LossSplits(me: AgentId, r: Round, loss: Loss, before: seq<Deed>)
    ensures before + [Deed(loss.refused, RefreshRefused(me))] + LookDeeds(me, r, loss.look) + [Deed(loss.stopped, AgentStop(me))] ==
            before + LossDeeds(me, r, loss)
  {
  }

  /** A refused heartbeat ends the agent, with its message deleted if the task was cancelled. */
  method LoseHeartbeat(world: World, me: AgentId, r: Round) returns (loss: Loss)
    requires world.Valid() && Pc(world.now, me).Running? && !Owned(world.now, me, Pc(world.now, me).task)
    modifies world
    ensures world.Valid() && Pc(world.now, me).Idle? && old(world.states) <= world.states
    ensures loss.refused == old(world.now)
    ensures Mine(world.deeds, Agent(me)) == Mine(old(world.deeds), Agent(me)) + LossDeeds(me, r, loss)
    ensures var t := old(Pc(world.now, me)).task; LookOk(r, t, loss.look) && (loss.look.deleted.Some? ==> Settled(world.now, t))
  {
    var refused := world.now;
    world.Do(RefreshRefused(me));
    var look := LookIfCancelled(world, me, r);
    var stopped := world.now;
    world.Do(AgentStop(me));
    assert world.now.table == stopped.table && world.now.queue == stopped.queue;
    loss := Loss(refused, look, stopped);
    LossSplits(me, r, loss, Mine(old(world.deeds), Agent(me)));
  }

  lemma BeatAppends(me: AgentId, polls: seq<Poll>, beats: seq<State>, beat: State, before: seq<Deed>)
    requires |beats| < |polls|
    ensures before + BeatDeeds(me, polls, beats) + [Deed(beat, RefreshTtl(me, polls[|beats|].expiration))] ==
            before + BeatDeeds(me, polls, beats + [beat])
  {
    assert (beats + [beat])[..|beats|] == beats;
  }

  /** One refresh, once it is not throttled: it lands exactly when the row is processing under this agent. */
  method RefreshOnce(world: World, me: AgentId, poll: Poll) returns (beat: State, landed: bool)
    requires world.Valid() && Pc(world.now, me).Running?
    modifies world
    ensures world.Valid() && Pc(world.now, me) == old(Pc(world.now, me)) && old(world.states) <= world.states
    ensures var t := old(Pc(world.now, me)).task;
      && (landed <==> Owned(beat, me, t))
      && (if landed then Owned(world.now, me, t) && world.now.table[t].heartbeat == poll.expiration else world.now == beat)
    ensures Mine(world.deeds, Agent(me)) ==
            Mine(old(world.deeds), Agent(me)) + if landed then [Deed(beat, RefreshTtl(me, poll.expiration))] else []
  {
    WaitOutThrottling(world, me, poll.throttles);
    beat := world.now;
    landed := Accepts(world.now, Pc(world.now, me).task, Refresh(me, poll.expiration));
    if landed {
      world.Do(RefreshTtl(me, poll.expiration));
    }
  }

  /** The heartbeat was refused because the row is not this agent's any more, and the agent is gone. */
  ghost predicate IsLost(s: State, me: AgentId, r: Round, t: Task, loss: Loss) {
    && Pc(s, me).Idle? && !Owned(loss.refused, me, t) && LookOk(r, t, loss.look)
    && (loss.look.deleted.Some? ==> Settled(s, t))
  }

  /** The row carries the expiration of the last of these refreshes. */
  ghost predicate LastBeat(s: State, me: AgentId, t: Task, polls: seq<Poll>) {
    polls != [] ==> Owned(s, me, t) && s.table[t].heartbeat == polls[|polls| - 1].expiration
  }

  function LostDeeds(me: AgentId, r: Round, lost: Option<Loss>): seq<Deed> {
    match lost case None => [] case Some(loss) => LossDeeds(me, r, loss)
  }

  /** One refresh, with what follows a refused one. */
  method Beat(world: World, me: AgentId, r: Round, poll: Poll) returns (beat: State, lost: Option<Loss>)
    requires world.Valid() && Pc(world.now, me).Running?
    modifies world
    ensures world.Valid() && old(world.states) <= world.states
    ensures var t := old(Pc(world.now, me)).task;
      match lost
      case None => Pc(world.now, me) == old(Pc(world.now, me)) && Owned(beat, me, t) && LastBeat(world.now, me, t, [poll])
      case Some(loss) => IsLost(world.now, me, r, t, loss)
    ensures Mine(world.deeds, Agent(me)) == Mine(old(world.deeds), Agent(me)) +
            if lost.None? then [Deed(beat, RefreshTtl(me, poll.expiration))] else LostDeeds(me, r, lost)
  {
    var landed;
    beat, landed := RefreshOnce(world, me, poll);
    if landed {
      return beat, None;
    }
    var loss := LoseHeartbeat(world, me, r);
    return beat, Some(loss);
  }

  /**
    The TTL thread over the polls that are due: a throttled refresh is repeated, a
    refused one ends the agent, with its message deleted if the task was cancelled.
    While it goes on the row carries the expiration of the last refresh.
   */
  method KeepAlive(world: World, me: AgentId, r: Round) returns (beats: seq<State>, lost: Option<Loss>)
    requires world.Valid() && Pc(world.now, me).Running?
    modifies world
    ensures world.Valid() && old(world.states) <= world.states
    ensures var t := old(Pc(world.now, me)).task;
      && AllOwned(me, t, beats)
      && match lost
         case None => |beats| == |r.polls| && Pc(world.now, me) == old(Pc(world.now, me)) && LastBeat(world.now, me, t, r.polls)
         case Some(loss) => |beats| < |r.polls| && IsLost(world.now, me, r, t, loss)
    ensures Mine(world.deeds, Agent(me)) == Mine(old(world.deeds), Agent(me)) + BeatDeeds(me, r.polls, beats) + LostDeeds(me, r, lost)
  {
    var t := Pc(world.now, me).task;
    ghost var before := Mine(world.deeds, Agent(me));
    beats := [];
    for i := 0 to |r.polls|
      invariant world.Valid() && Pc(world.now, me) == old(Pc(world.now, me)) && old(world.states) <= world.states
      invariant |beats| == i && AllOwned(me, t, beats) && LastBeat(world.now, me, t, r.polls[..i])
      invariant Mine(world.deeds, Agent(me)) == before + BeatDeeds(me, r.polls, beats)
    {
      var beat, loss := Beat(world, me, r, r.polls[i]);
      if loss.Some? {
        return beats, loss;
      }
      BeatAppends(me, r.polls, beats, beat, before);
      beats := beats + [beat];
    }
    assert r.polls[..|r.polls|] == r.polls;
    return beats, None;
  }

  method StoreTheOutput(world: World, me: AgentId) returns (stored: State)
    requires world.Valid() && Pc(world.now, me).Running?
    modifies world
    ensures world.Valid() && old(world.states) <= world.states
    ensures var pc := old(Pc(world.now, me)); Pc(world.now, me) == Stored(pc.task, pc.handle, pc.claim)
    ensures Mine(world.deeds, Agent(me)) == Mine(old(world.deeds), Agent(me)) + [Deed(stored, StoreOutput(me))]
  {
    world.Others(Agent(me));
    stored := world.now;
    world.Do(StoreOutput(me));
  }

  /** The finish write, repeated while throttled: accepted exactly when the row is still processing under this agent. */
  method SetFinished(world: World, me: AgentId, throttles: nat) returns (written: State, finished: bool)
    requires world.Valid() && Pc(world.now, me).Stored?
    modifies world
    ensures world.Valid() && old(world.states) <= world.states && old(Pc(world.now, me)).task in world.now.outputs
    ensures var pc := old(Pc(world.now, me));
      && (finished <==> Owned(written, me, pc.task))
      && (finished ==> pc.task in world.now.table && world.now.table[pc.task].status == Finished)
      && Pc(world.now, me) == (if finished then Completed(pc.task, pc.handle, pc.claim) else Idle)
    ensures Mine(world.deeds, Agent(me)) ==
            Mine(old(world.deeds), Agent(me)) + [Deed(written, if finished then FinishTask(me) else FinishRefused(me))]
  {
    WaitOutThrottling(world, me, throttles);
    world.HasInv();
    HandleIsMine(world.now, me);
    written := world.now;
    finished := Accepts(world.now, Pc(world.now, me).task, Finish(me));
    if finished {
      world.Do(FinishTask(me));
    } else {
      world.Do(FinishRefused(me));
    }
  }

  /** The output stored, the finish write made, and the state in which the message was deleted, if it was. */
  datatype Completion = Completion(stored: State, written: State, acknowledged: Option<State>)

  function CompletionDeeds(me: AgentId, c: Completion): seq<Deed> {
    match c.acknowledged
    case Some(s) => [Deed(c.stored, StoreOutput(me)), Deed(c.written, FinishTask(me)), Deed(s, Acknowledge(me))]
    case None => [Deed(c.stored, StoreOutput(me)), Deed(c.written, FinishRefused(me))]
  }

  lemma CompletionSplits(me: AgentId, c: Completion, before: seq<Deed>)
    ensures before + [Deed(c.stored, StoreOutput(me))] + [Deed(c.written, if c.acknowledged.Some? then FinishTask(me) else FinishRefused(me))]
            + (match c.acknowledged case Some(s) => [Deed(s, Acknowledge(me))] case None => []) == before + CompletionDeeds(me, c)
  {
  }

  /**
    process_subprocess_completion: store the output, repeat the finish write while it
    is throttled, and delete the message only after it succeeded.
   */
  method ProcessCompletion(world: World, me: AgentId, r: Round) returns (c: Completion)
    requires world.Valid() && Pc(world.now, me).Running?
    modifies world
    ensures world.Valid() && Pc(world.now, me).Idle? && old(world.states) <= world.states
    ensures Mine(world.deeds, Agent(me)) == Mine(old(world.deeds), Agent(me)) + CompletionDeeds(me, c)
    ensures var t := old(Pc(world.now, me)).task;
      && t in world.now.outputs && (c.acknowledged.Some? <==> Owned(c.written, me, t))
      && (c.acknowledged.Some? ==> Settled(world.now, t))
  {
    var stored := StoreTheOutput(world, me);
    var written, finished := SetFinished(world, me, r.finishThrottles);
    if !finished {
      c := Completion(stored, written, None);
      CompletionSplits(me, c, Mine(old(world.deeds), Agent(me)));
      return;
    }
    var acknowledged := Delete(world, me, false);
    c := Completion(stored, written, Some(acknowledged));
    CompletionSplits(me, c, Mine(old(world.deeds), Agent(me)));
  }

  // ---- the loop ----

  function EndOf(acquired: Acquired, beats: seq<State>, c: Completion): End {
    match c.acknowledged
    case Some(s) => Done(acquired, beats, c.stored, c.written, s)
    case None => NotFinished(acquired, beats, c.stored, c.written)
  }

  lemma CompletedRound(me: AgentId, r: Round, acquired: Acquired, beats: seq<State>, c: Completion, before: seq<Deed>)
    requires AcquiredOk(r, acquired) && |beats| == |r.polls| && AllOwned(me, r.offer.task, beats) && !r.bootstrapError
    requires c.acknowledged.Some? <==> Owned(c.written, me, r.offer.task)
    ensures EndsSo(me, r, EndOf(acquired, beats, c))
    ensures before + AcquiringDeeds(me, r, acquired) + BeatDeeds(me, r.polls, beats) + LostDeeds(me, r, None) + CompletionDeeds(me, c) ==
            before + RoundDeeds(me, r, EndOf(acquired, beats, c))
  {
  }

  lemma LostRound(me: AgentId, r: Round, acquired: Acquired, beats: seq<State>, loss: Loss, before: seq<Deed>)
    requires AcquiredOk(r, acquired) && |beats| < |r.polls| && AllOwned(me, r.offer.task, beats)
    requires !Owned(loss.refused, me, r.offer.task) && LookOk(r, r.offer.task, loss.look)
    ensures EndsSo(me, r, HeartbeatLost(acquired, beats, loss))
    ensures before + AcquiringDeeds(me, r, acquired) + BeatDeeds(me, r.polls, beats) + LostDeeds(me, r, Some(loss)) ==
            before + RoundDeeds(me, r, HeartbeatLost(acquired, beats, loss))
  {
  }

  lemma BootstrapRound(me: AgentId, r: Round, acquired: Acquired, beats: seq<State>, stopped: State, before: seq<Deed>)
    requires AcquiredOk(r, acquired) && |beats| == |r.polls| && AllOwned(me, r.offer.task, beats) && r.bootstrapError
    ensures EndsSo(me, r, BootstrapError(acquired, beats, stopped))
    ensures before + AcquiringDeeds(me, r, acquired) + BeatDeeds(me, r.polls, beats) + LostDeeds(me, r, None) + [Deed(stopped, AgentStop(me))] ==
            before + RoundDeeds(me, r, BootstrapError(acquired, beats, stopped))
  {
  }

  method Stop(world: World, me: AgentId) returns (stopped: State)
    requires world.Valid()
    modifies world
    ensures world.Valid() && Pc(world.now, me).Idle? && old(world.states) <= world.states
    ensures Mine(world.deeds, Agent(me)) == Mine(old(world.deeds), Agent(me)) + [Deed(stopped, AgentStop(me))]
  {
    world.Others(Agent(me));
    stopped := world.now;
    world.Do(AgentStop(me));
  }

  /**
    run_task, once a task is acquired.  A worker that could not start leaves the task as
    it is, without completing it.
   */
  method RunTask(world: World, me: AgentId, r: Round, acquired: Acquired, ghost before: seq<Deed>) returns (end: End)
    requires Mine(world.deeds, Agent(me)) == before + AcquiringDeeds(me, r, acquired)
    requires world.Valid() && Pc(world.now, me).Running? && Pc(world.now, me).task == r.offer.task && AcquiredOk(r, acquired)
    modifies world
    ensures world.Valid() && Pc(world.now, me).Idle? && old(world.states) <= world.states
    ensures EndsSo(me, r, end) && BeatsFit(r, end) && !end.NoMessage? && !end.NotClaimed?
    ensures Mine(world.deeds, Agent(me)) == before + RoundDeeds(me, r, end)
    ensures end.Done? ==> Settled(world.now, r.offer.task)
    ensures end.Done? || end.NotFinished? ==> r.offer.task in world.now.outputs
  {
    var beats, lost := KeepAlive(world, me, r);
    if lost.Some? {
      LostRound(me, r, acquired, beats, lost.value, before);
      return HeartbeatLost(acquired, beats, lost.value);
    }
    if r.bootstrapError {
      var stopped := Stop(world, me);
      BootstrapRound(me, r, acquired, beats, stopped, before);
      return BootstrapError(acquired, beats, stopped);
    }
    var completion := ProcessCompletion(world, me, r);
    CompletedRound(me, r, acquired, beats, completion, before);
    return EndOf(acquired, beats, completion);
  }

  /** One round of the event loop. */
  method RunRound(world: World, me: AgentId, r: Round) returns (end: End)
    requires world.Valid() && Pc(world.now, me).Idle?
    modifies world
    ensures world.Valid() && Pc(world.now, me).Idle? && old(world.states) <= world.states
    ensures EndsSo(me, r, end) && BeatsFit(r, end) && (end.NoMessage? ==> end.asked == world.now)
    ensures Mine(world.deeds, Agent(me)) == Mine(old(world.deeds), Agent(me)) + RoundDeeds(me, r, end)
    ensures end.Done? || (end.NotClaimed? && end.look.deleted.Some?) ==> Settled(world.now, r.offer.task)
    ensures end.Done? || end.NotFinished? ==> r.offer.task in world.now.outputs
  {
    ghost var before := Mine(world.deeds, Agent(me));
    var tried := TryToAcquire(world, me, r);
    if tried.Ends? {
      return tried.end;
    }
    end := RunTask(world, me, r, tried.acquired, before);
  }

  predicate AllFit(rounds: seq<Round>, ends: seq<End>) {
    |ends| <= |rounds| && forall i :: 0 <= i < |ends| ==> BeatsFit(rounds[i], ends[i])
  }

  function AllRoundDeeds(me: AgentId, rounds: seq<Round>, ends: seq<End>): seq<Deed>
    requires AllFit(rounds, ends)
  {
    if ends == [] then [] else
    var n := |ends| - 1;
    AllRoundDeeds(me, rounds, ends[..n]) + RoundDeeds(me, rounds[n], ends[n])
  }

  lemma FitGrows(rounds: seq<Round>, ends: seq<End>, end: End)
    requires AllFit(rounds, ends) && |ends| < |rounds| && BeatsFit(rounds[|ends|], end)
    ensures AllFit(rounds, ends + [end])
  {
  }

  /** One more round appends its deeds. */
  lemma RoundAppends(me: AgentId, rounds: seq<Round>, ends: seq<End>, end: End, before: seq<Deed>)
    requires AllFit(rounds, ends) && |ends| < |rounds| && BeatsFit(rounds[|ends|], end) && AllFit(rounds, ends + [end])
    ensures before + AllRoundDeeds(me, rounds, ends) + RoundDeeds(me, rounds[|ends|], end) == before + AllRoundDeeds(me, rounds, ends + [end])
  {
    assert (ends + [end])[..|ends|] == ends;
    Associate(before, AllRoundDeeds(me, rounds, ends), RoundDeeds(me, rounds[|ends|], end));
  }

  /** Every round ended as the rows it found made it end; one without a message asked in a state of the run. */
  ghost predicate AllEndSo(states: seq<State>, me: AgentId, rounds: seq<Round>, ends: seq<End>) {
    && |ends| <= |rounds|
    && forall i :: 0 <= i < |ends| ==> EndsSo(me, rounds[i], ends[i]) && (ends[i].NoMessage? ==> ends[i].asked in states)
  }

  lemma EndsGrow(states: seq<State>, states': seq<State>, me: AgentId, rounds: seq<Round>, ends: seq<End>, end: End)
    requires AllEndSo(states, me, rounds, ends) && states <= states' && |ends| < |rounds|
    requires EndsSo(me, rounds[|ends|], end) && (end.NoMessage? ==> end.asked in states')
    ensures AllEndSo(states', me, rounds, ends + [end])
  {
    forall i | 0 <= i < |ends| && ends[i].NoMessage? ensures ends[i].asked in states' {
      assert ends[i].asked in states;
    }
  }

  /**
    event_loop: one task at a time, until the rounds are over or a lost heartbeat ends
    the process.  The agent's own deeds in the run are exactly those of its rounds.
   */
  method EventLoop(world: World, me: AgentId, rounds: seq<Round>) returns (ends: seq<End>)
    requires world.Valid() && Pc(world.now, me).Idle?
    modifies world
    ensures world.Valid() && Pc(world.now, me).Idle? && AllFit(rounds, ends) && AllEndSo(world.states, me, rounds, ends)
    ensures Mine(world.deeds, Agent(me)) == Mine(old(world.deeds), Agent(me)) + AllRoundDeeds(me, rounds, ends)
    ensures |ends| < |rounds| ==> ends != [] && ends[|ends| - 1].HeartbeatLost?
  {
    ghost var before := Mine(world.deeds, Agent(me));
    ends := [];
    for i := 0 to |rounds|
      invariant world.Valid() && Pc(world.now, me).Idle? && |ends| == i
      invariant AllFit(rounds, ends) && AllEndSo(world.states, me, rounds, ends)
      invariant Mine(world.deeds, Agent(me)) == before + AllRoundDeeds(me, rounds, ends)
    {
      ghost var states := world.states;
      var end := RunRound(world, me, rounds[i]);
      FitGrows(rounds, ends, end);
      RoundAppends(me, rounds, ends, end, before);
      assert world.now in world.states;
      EndsGrow(states, world.states, me, rounds, ends, end);
      ends := ends + [end];
      if end.HeartbeatLost? {
        return;
      }
    }
  }
}
