/** The submit lambda as a program, with everybody else acting between its calls. */
module SubmitProgram {
  import opened Prelude
  import opened Protocol
  import opened Worlds

  /** Every row of the call has been written, with its session and priority. */
  ghost predicate RowsWritten(s: State, call: SubmitCall, ids: seq<Task>) {
    forall t :: t in ids ==> t in s.table && s.table[t].session == call.session && s.table[t].priority == call.priority
  }

  /** The call is where it should be: so many rows written, so many messages handed over. */
  ghost predicate At(s: State, me: CallId, call: SubmitCall) {
    me in s.submits && s.submits[me] == call
  }

  /** batch_write: one fresh row per task. */
  method WriteRows(world: World, me: CallId, call: SubmitCall)
    requires world.Valid() && At(world.now, me, call) && call.live && call.written == 0
    modifies world
    ensures world.Valid() && At(world.now, me, call.(written := |call.ids|))
    ensures RowsWritten(world.now, call, call.ids)
  {
    var ids := call.ids;
    for i := 0 to |ids|
      invariant world.Valid() && At(world.now, me, call.(written := i))
      invariant RowsWritten(world.now, call, ids[..i])
    {
      world.Others(Submitter(me));
      world.Do(PutRow(me));
      assert forall t :: t in ids[..i + 1] ==> t in ids[..i] || t == ids[i];
    }
    assert ids[..|ids|] == ids;
  }

  lemma WholeChunk(chunk: seq<Task>, refused: set<Task>)
    ensures (forall t :: t in chunk ==> t in Elements(chunk) - refused) <==> refused * Elements(chunk) == {}
    ensures refused * Elements(chunk) == {} ==> Elements(chunk) - refused == Elements(chunk)
  {
    if refused * Elements(chunk) != {} {
      var t :| t in refused * Elements(chunk);
      assert t in chunk && t !in Elements(chunk) - refused;
    } else {
      forall t | t in chunk ensures t in Elements(chunk) - refused {
        assert t !in refused * Elements(chunk);
      }
    }
  }

  /** What sending the next chunk does to the call and to what was sent. */
  lemma SentChunk(s: State, me: CallId, call: SubmitCall, refused: set<Task>)
    requires At(s, me, call) && call.live && call.written == |call.ids| && call.sent < |call.ids|
    requires Elements(call.ids[..call.sent]) <= s.sent
    ensures var e := SendChunk(me, Elements(NextChunk(call)) - refused);
      && Enabled(s, e) && me in Apply(s, e).submits
      && var next := Apply(s, e).submits[me];
         && next == call.(sent := Min(call.sent + SQS_MAX_BATCH_SIZE, |call.ids|), live := next.live)
         && (next.live <==> refused * Elements(call.ids[call.sent..next.sent]) == {})
         && (next.live ==> Elements(next.ids[..next.sent]) <= Apply(s, e).sent)
  {
    WholeChunk(NextChunk(call), refused);
    ChunkIsNext(call);
  }

  lemma ChunkIsNext(call: SubmitCall)
    requires call.sent < |call.ids|
    ensures var end := Min(call.sent + SQS_MAX_BATCH_SIZE, |call.ids|);
      && NextChunk(call) == call.ids[call.sent..end] && |NextChunk(call)| == end - call.sent
      && Elements(call.ids[..end]) == Elements(call.ids[..call.sent]) + Elements(NextChunk(call))
  {
    assert call.ids[..call.sent + |NextChunk(call)|] == call.ids[..call.sent] + NextChunk(call);
  }

  /** Hand one chunk to the queue, which may refuse some of its messages. */
  method SendNextChunk(world: World, me: CallId, call: SubmitCall, refused: set<Task>) returns (next: SubmitCall)
    requires world.Valid() && At(world.now, me, call) && RowsWritten(world.now, call, call.ids)
    requires call.live && call.written == |call.ids| && call.sent < |call.ids|
    requires Elements(call.ids[..call.sent]) <= world.now.sent
    modifies world
    ensures world.Valid() && At(world.now, me, next) && RowsWritten(world.now, call, call.ids)
    ensures next == call.(sent := Min(call.sent + 10, |call.ids|), live := next.live)
    ensures next.live <==> refused * Elements(call.ids[call.sent..next.sent]) == {}
    ensures next.live ==> Elements(next.ids[..next.sent]) <= world.now.sent
    ensures Elements(call.ids[call.sent..next.sent]) - refused <= world.now.sent
    ensures world.events != [] && world.events[|world.events| - 1] == SendChunk(me, Elements(call.ids[call.sent..next.sent]) - refused)
  {
    world.Others(Submitter(me));
    var accepted := Elements(NextChunk(call)) - refused;
    SentChunk(world.now, me, call, refused);
    ChunkIsNext(call);
    world.Do(SendChunk(me, accepted));
    next := world.now.submits[me];
  }

  /** Nothing of the chunk that starts at x is refused. */
  ghost predicate Accepted(ids: seq<Task>, refusals: nat -> set<Task>, x: nat)
    requires x < |ids|
  {
    refusals(x) * Elements(ids[x..Min(x + SQS_MAX_BATCH_SIZE, |ids|)]) == {}
  }

  /**
    The submit lambda: every row is written before any message is sent; messages go in
    chunks of ten, and the call succeeds exactly when the queue refuses no message of
    any chunk.  `refusals` says what it refuses of the chunk that starts at an index.
   */
  method SubmitTasks(world: World, me: CallId, session: string, priority: nat, ids: seq<Task>,
                     refusals: nat -> set<Task>) returns (ok: bool)
    requires world.Valid() && Enabled(world.now, SubmitStart(me, session, priority, ids))
    modifies world
    ensures world.Valid() && me in world.now.submits
    ensures var call := world.now.submits[me];
      && call == SubmitCall(session, priority, ids, |ids|, call.sent, ok) && (ok ==> call.sent == |ids|)
      && RowsWritten(world.now, call, ids)
    ensures ok ==> Elements(ids) <= world.now.sent
    ensures ok <==> AcceptedBefore(ids, refusals, |ids|)
  {
    world.Do(SubmitStart(me, session, priority, ids));
    var call := world.now.submits[me];
    WriteRows(world, me, call);
    ok := SendAll(world, me, call.(written := |ids|), refusals);
  }

  /** Of the chunks that start before `n` none has a refused message. */
  ghost predicate AcceptedBefore(ids: seq<Task>, refusals: nat -> set<Task>, n: nat) {
    forall x :: 0 <= x < |ids| && x < n && x % SQS_MAX_BATCH_SIZE == 0 ==> Accepted(ids, refusals, x)
  }

  lemma NextAccepted(ids: seq<Task>, refusals: nat -> set<Task>, n: nat)
    requires AcceptedBefore(ids, refusals, n) && n < |ids| && n % SQS_MAX_BATCH_SIZE == 0
    ensures AcceptedBefore(ids, refusals, n + SQS_MAX_BATCH_SIZE) <==> Accepted(ids, refusals, n)
  {
  }

  /** The loop over the chunks; a partial failure ends it. */
  method SendAll(world: World, me: CallId, first: SubmitCall, refusals: nat -> set<Task>) returns (ok: bool)
    requires world.Valid() && At(world.now, me, first) && RowsWritten(world.now, first, first.ids)
    requires first.live && first.written == |first.ids| && first.sent == 0
    modifies world
    ensures world.Valid() && RowsWritten(world.now, first, first.ids)
    ensures me in world.now.submits && At(world.now, me, first.(sent := world.now.submits[me].sent, live := ok))
    ensures ok ==> world.now.submits[me].sent == |first.ids| && Elements(first.ids) <= world.now.sent
    ensures ok <==> AcceptedBefore(first.ids, refusals, |first.ids|)
  {
    var call, ids := first, first.ids;
    while call.sent < |ids|
      invariant world.Valid() && At(world.now, me, call) && RowsWritten(world.now, first, ids)
      invariant call == first.(sent := call.sent) && call.sent <= |ids|
      invariant Elements(ids[..call.sent]) <= world.now.sent
      invariant call.sent == |ids| || call.sent % SQS_MAX_BATCH_SIZE == 0
      invariant AcceptedBefore(ids, refusals, call.sent)
      decreases |ids| - call.sent
    {
      var x := call.sent;
      call := SendNextChunk(world, me, call, refusals(x));
      NextAccepted(ids, refusals, x);
      if !call.live {
        return false;
      }
    }
    assert ids[..call.sent] == ids;
    return true;
  }
}
