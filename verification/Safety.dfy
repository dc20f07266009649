/**
  What holds in every reachable state, over every interleaving of all writers: any
  number of agents, of TTL checkers with arbitrarily stale reads, of submit and of
  cancel calls, each stopping wherever it likes.
 */
module Safety {
  import opened Prelude
  import opened TaskStates
  import opened Rows
  import opened Protocol

  ghost predicate TableOk(s: State) {
    forall t :: t in s.table ==> RowOk(s.table[t])
  }

  /** Every handle resolves to the task it was issued for, also the handles kept in rows. */
  ghost predicate HandlesOk(s: State) {
    && (forall h :: h in s.issued ==> s.issued[h] in s.table && h != NO_HANDLE)
    && (forall t, v :: t in s.table && v in s.table[t].versions ==>
          v.handle == NO_HANDLE || (v.handle in s.issued && s.issued[v.handle] == t))
  }

  /** Rows come before messages, and no message is on the queue that was not sent. */
  ghost predicate QueueOk(s: State) {
    s.queue <= s.sent <= s.table.Keys <= s.reserved
  }

  ghost predicate OutputsOk(s: State) {
    forall t :: t in s.table && s.table[t].status.Finished? ==> t in s.outputs
  }

  predicate HoldsTask(pc: AgentPc) {
    pc.Running? || pc.Stored? || pc.Completed?
  }

  ghost predicate AgentOk(s: State, a: AgentId, pc: AgentPc) {
    && (!pc.Idle? ==> pc.handle in s.issued && s.issued[pc.handle] == pc.task && pc.task in s.table)
    && (pc.SawCancelled? || pc.Completed? ==> Terminal(s.table[pc.task].status))
    && (pc.Stored? || pc.Completed? ==> pc.task in s.outputs)
    && (HoldsTask(pc) ==>
          && pc.claim <= s.table[pc.task].claims
          && (s.table[pc.task].status.Processing? && s.table[pc.task].owner == Some(a) ==> pc.claim == s.table[pc.task].claims))
  }

  ghost predicate AgentsOk(s: State) {
    forall a :: a in s.agents ==> AgentOk(s, a, s.agents[a])
  }

  ghost predicate CheckerOk(s: State, pc: CheckerPc) {
    && (pc.Listing? || pc.Holding? || pc.Failing? ==> forall t :: t in pc.todo ==> t in s.table)
    && (pc.Holding? ==> pc.task in s.table && pc.read in s.table[pc.task].versions)
    && (pc.Failing? ==> pc.task in s.table)
  }

  ghost predicate CheckersOk(s: State) {
    forall c :: c in s.checkers ==> CheckerOk(s, s.checkers[c])
  }

  ghost predicate SubmitOk(s: State, call: SubmitCall) {
    && (forall i, j :: 0 <= i < j < |call.ids| ==> call.ids[i] != call.ids[j])
    && call.written <= |call.ids| && call.sent <= |call.ids|
    && (forall i :: 0 <= i < |call.ids| ==> call.ids[i] in s.reserved)
    && (forall i :: 0 <= i < |call.ids| ==> (call.ids[i] in s.table <==> i < call.written))
  }

  ghost predicate SubmitsOk(s: State) {
    && (forall k :: k in s.submits ==> SubmitOk(s, s.submits[k]))
    && (forall k, m :: k in s.submits && m in s.submits && k != m ==> Elements(s.submits[k].ids) !! Elements(s.submits[m].ids))
  }

  ghost predicate CancelsOk(s: State) {
    forall k :: k in s.cancels ==> forall t :: t in s.cancels[k].todo ==> t in s.table
  }

  ghost predicate Inv(s: State) {
    TableOk(s) && HandlesOk(s) && QueueOk(s) && OutputsOk(s) && AgentsOk(s) && CheckersOk(s) && SubmitsOk(s) && CancelsOk(s)
  }

  function Rewritten(r: Row, t: Task, write: Option<(Task, RowWrite)>): Row {
    if write.Some? && write.value.0 == t then Write(r, write.value.1) else r
  }

  /** What a step does to the rows there are: at most one of them takes one accepted write. */
  lemma RowEffect(s: State, e: Event)
    requires SubmitsOk(s) && Enabled(s, e)
    ensures s.table.Keys <= Apply(s, e).table.Keys
    ensures forall t :: t in s.table ==> Apply(s, e).table[t] == Rewritten(s.table[t], t, WriteOf(s, e))
    ensures WriteOf(s, e).Some? ==> Accepts(s, WriteOf(s, e).value.0, WriteOf(s, e).value.1)
  {
    TableEffect(s, e);
    if e.PutRow? {
      assert SubmitOk(s, s.submits[e.call]);
    }
  }

  /** Rows stay, and keep their session and their priority. */
  ghost predicate KeepsRows(s: State, s': State) {
    forall t :: t in s.table ==>
      t in s'.table && s'.table[t].session == s.table[t].session && s'.table[t].priority == s.table[t].priority
  }

  lemma StepKeepsRows(s: State, e: Event)
    requires SubmitsOk(s) && Enabled(s, e)
    ensures KeepsRows(s, Apply(s, e))
  {
    RowEffect(s, e);
  }

  // ---- one row write ----

  /** What a writer must have established before its write: the only place where the writers differ. */
  ghost predicate WriterReady(s: State, t: Task, w: RowWrite) {
    && Accepts(s, t, w)
    && (w.Retry? ==> w.retries <= MAX_RETRIES)
    && (w.Finish? ==> t in s.outputs)
    && (w.Claim? ==> w.handle in s.issued && s.issued[w.handle] == t)
  }

  lemma WriteKeepsAgent(s: State, t: Task, w: RowWrite, a: AgentId, pc: AgentPc)
    requires Accepts(s, t, w) && AgentOk(s, a, pc)
    requires w.Claim? ==> w.agent != a
    ensures AgentOk(WriteRow(s, t, w), a, pc)
  {
  }

  lemma WriteKeepsTable(s: State, t: Task, w: RowWrite)
    requires TableOk(s) && OutputsOk(s) && WriterReady(s, t, w)
    ensures TableOk(WriteRow(s, t, w)) && OutputsOk(WriteRow(s, t, w))
  {
  }

  lemma WriteKeepsHandles(s: State, t: Task, w: RowWrite)
    requires TableOk(s) && HandlesOk(s) && WriterReady(s, t, w)
    ensures HandlesOk(WriteRow(s, t, w))
  {
  }

  lemma WriteKeepsCheckers(s: State, t: Task, w: RowWrite)
    requires CheckersOk(s) && t in s.table
    ensures CheckersOk(WriteRow(s, t, w))
  {
  }

  lemma WriteKeepsSubmits(s: State, t: Task, w: RowWrite)
    requires SubmitsOk(s) && t in s.table
    ensures SubmitsOk(WriteRow(s, t, w))
  {
  }

  lemma WriteKeepsRest(s: State, t: Task, w: RowWrite)
    requires Inv(s) && WriterReady(s, t, w)
    ensures var s' := WriteRow(s, t, w);
      TableOk(s') && HandlesOk(s') && QueueOk(s') && OutputsOk(s') && CheckersOk(s') && SubmitsOk(s') && CancelsOk(s')
  {
    WriteKeepsTable(s, t, w);
    WriteKeepsHandles(s, t, w);
    WriteKeepsCheckers(s, t, w);
    WriteKeepsSubmits(s, t, w);
    assert WriteRow(s, t, w).table.Keys == s.table.Keys;
  }

  lemma WriteKeepsInv(s: State, t: Task, w: RowWrite)
    requires Inv(s) && WriterReady(s, t, w) && !w.Claim?
    ensures Inv(WriteRow(s, t, w))
  {
    WriteKeepsRest(s, t, w);
    forall a | a in s.agents ensures AgentOk(WriteRow(s, t, w), a, s.agents[a]) {
      WriteKeepsAgent(s, t, w, a, s.agents[a]);
    }
  }

  lemma ClaimKeepsAgents(s: State, t: Task, a: AgentId, hb: int, h: Handle)
    requires Inv(s) && WriterReady(s, t, Claim(a, hb, h))
    ensures AgentsOk(SetPc(WriteRow(s, t, Claim(a, hb, h)), a, Running(t, h, s.table[t].claims + 1)))
  {
  }

  lemma ClaimKeepsInv(s: State, t: Task, a: AgentId, hb: int, h: Handle)
    requires Inv(s) && WriterReady(s, t, Claim(a, hb, h))
    ensures Inv(SetPc(WriteRow(s, t, Claim(a, hb, h)), a, Running(t, h, s.table[t].claims + 1)))
  {
    WriteKeepsRest(s, t, Claim(a, hb, h));
    ClaimKeepsAgents(s, t, a, hb, h);
    var s1 := WriteRow(s, t, Claim(a, hb, h));
    OnlyPcMoved(s1, SetPc(s1, a, Running(t, h, s.table[t].claims + 1)));
  }

  // ---- steps that leave the rows alone ----

  /** Everything in the invariant but the agents' own part is untouched when only program counters move. */
  lemma OnlyPcMoved(s: State, s': State)
    requires s' == s.(agents := s'.agents)
    ensures TableOk(s) ==> TableOk(s')
    ensures HandlesOk(s) ==> HandlesOk(s')
    ensures QueueOk(s) ==> QueueOk(s')
    ensures OutputsOk(s) ==> OutputsOk(s')
    ensures CheckersOk(s) ==> CheckersOk(s')
    ensures SubmitsOk(s) ==> SubmitsOk(s')
    ensures CancelsOk(s) ==> CancelsOk(s')
  {
  }

  /** Nor does anything but the queue's and the submit calls' own parts depend on what was sent. */
  lemma OnlyDeliveryMoved(s: State, s': State)
    requires s' == s.(queue := s'.queue, sent := s'.sent, submits := s'.submits, reserved := s'.reserved)
    ensures TableOk(s) ==> TableOk(s')
    ensures HandlesOk(s) ==> HandlesOk(s')
    ensures OutputsOk(s) ==> OutputsOk(s')
    ensures AgentsOk(s) ==> AgentsOk(s')
    ensures CheckersOk(s) ==> CheckersOk(s')
    ensures CancelsOk(s) ==> CancelsOk(s')
  {
  }

  lemma MovePcKeepsInv(s: State, a: AgentId, pc: AgentPc)
    requires Inv(s) && AgentOk(s, a, pc)
    ensures Inv(SetPc(s, a, pc))
  {
  }

  lemma MoveCheckerKeepsInv(s: State, c: CheckerId, pc: CheckerPc)
    requires Inv(s) && CheckerOk(s, pc)
    ensures Inv(SetChecker(s, c, pc))
  {
  }

  lemma DeleteKeepsInv(s: State, h: Handle)
    requires Inv(s)
    ensures Inv(DeleteMessage(s, h))
  {
  }

  lemma IssueKeepsInv(s: State, h: Handle, t: Task)
    requires Inv(s) && t in s.queue && h !in s.issued && h != NO_HANDLE
    ensures Inv(s.(issued := s.issued[h := t]))
  {
  }

  lemma StoreKeepsInv(s: State, t: Task)
    requires Inv(s)
    ensures Inv(s.(outputs := s.outputs + {t}))
  {
  }

  // ---- the programs ----

  lemma NewSubmitKeepsInv(s: State, k: CallId, session: string, priority: nat, ids: seq<Task>)
    requires Inv(s) && Enabled(s, SubmitStart(k, session, priority, ids))
    ensures Inv(Apply(s, SubmitStart(k, session, priority, ids)))
  {
  }

  /** A row written by one call is not among the ids of another. */
  lemma OtherIdsUntouched(s: State, k: CallId, m: CallId, t: Task)
    requires SubmitsOk(s) && k in s.submits && m in s.submits && m != k && t in s.submits[k].ids
    ensures t !in s.submits[m].ids
  {
    assert t in Elements(s.submits[k].ids) && t !in Elements(s.submits[m].ids);
  }

  lemma RowIsWritten(s: State, k: CallId)
    requires SubmitsOk(s) && SubmitEnabled(s, PutRow(k))
    ensures var s' := SubmitStep(s, PutRow(k)); SubmitOk(s', s'.submits[k])
  {
    assert SubmitOk(s, s.submits[k]);
  }

  lemma PutRowKeepsSubmits(s: State, k: CallId)
    requires SubmitsOk(s) && SubmitEnabled(s, PutRow(k))
    ensures SubmitsOk(SubmitStep(s, PutRow(k)))
  {
    var s' := SubmitStep(s, PutRow(k));
    var t := s.submits[k].ids[s.submits[k].written];
    forall m | m in s'.submits ensures SubmitOk(s', s'.submits[m]) {
      if m == k {
        RowIsWritten(s, k);
      } else {
        assert SubmitOk(s, s.submits[m]);
        OtherIdsUntouched(s, k, m, t);
      }
    }
  }

  lemma NewRowKeepsRest(s: State, t: Task, r: Row)
    requires t !in s.table && HandlesOk(s) && AgentsOk(s) && CheckersOk(s) && r.versions == {Version(0, NO_HANDLE)}
    ensures var s' := s.(table := s.table[t := r]); HandlesOk(s') && AgentsOk(s') && CheckersOk(s')
  {
  }

  lemma NewRowKeepsTable(s: State, t: Task, session: string, priority: nat)
    requires t !in s.table && t in s.reserved && TableOk(s) && QueueOk(s) && OutputsOk(s) && CancelsOk(s)
    ensures var s' := s.(table := s.table[t := FreshRow(session, priority)]); TableOk(s') && QueueOk(s') && OutputsOk(s') && CancelsOk(s')
  {
  }

  lemma PutRowKeepsInv(s: State, k: CallId)
    requires Inv(s) && Enabled(s, PutRow(k))
    ensures Inv(Apply(s, PutRow(k)))
  {
    var call := s.submits[k];
    var t := call.ids[call.written];
    var s1 := s.(table := s.table[t := FreshRow(call.session, call.priority)]);
    assert SubmitOk(s, call);
    NewRowKeepsTable(s, t, call.session, call.priority);
    NewRowKeepsRest(s, t, FreshRow(call.session, call.priority));
    OnlyDeliveryMoved(s1, Apply(s, PutRow(k)));
    PutRowKeepsSubmits(s, k);
  }

  lemma AcceptedHasRow(s: State, k: CallId, accepted: set<Task>)
    requires SubmitsOk(s) && Enabled(s, SendChunk(k, accepted))
    ensures accepted <= s.table.Keys
  {
  }

  /** A call may get on with sending. */
  lemma SendingKeepsSubmits(s: State, s': State, k: CallId, call: SubmitCall)
    requires SubmitsOk(s) && k in s.submits && s'.submits == s.submits[k := call] && s'.reserved == s.reserved && s'.table == s.table
    requires call.ids == s.submits[k].ids && call.written == s.submits[k].written && call.sent <= |call.ids|
    ensures SubmitsOk(s')
  {
    forall m | m in s'.submits ensures SubmitOk(s', s'.submits[m]) {
      assert SubmitOk(s, s.submits[m]);
    }
  }

  lemma SendChunkKeepsSubmits(s: State, k: CallId, accepted: set<Task>)
    requires SubmitsOk(s) && SubmitEnabled(s, SendChunk(k, accepted))
    ensures SubmitsOk(SubmitStep(s, SendChunk(k, accepted)))
  {
    var s' := SubmitStep(s, SendChunk(k, accepted));
    SendingKeepsSubmits(s, s', k, s'.submits[k]);
  }

  lemma SendChunkKeepsInv(s: State, k: CallId, accepted: set<Task>)
    requires Inv(s) && Enabled(s, SendChunk(k, accepted))
    ensures Inv(Apply(s, SendChunk(k, accepted)))
  {
    AcceptedHasRow(s, k, accepted);
    SendChunkKeepsSubmits(s, k, accepted);
    OnlyDeliveryMoved(s, Apply(s, SendChunk(k, accepted)));
  }

  lemma ReceiveKeepsInv(s: State, a: AgentId, t: Task, h: Handle)
    requires Inv(s) && Enabled(s, Receive(a, t, h))
    ensures Inv(Apply(s, Receive(a, t, h)))
  {
    IssueKeepsInv(s, h, t);
    MovePcKeepsInv(s.(issued := s.issued[h := t]), a, Protocol.Received(t, h));
  }

  lemma ClaimTaskKeepsInv(s: State, a: AgentId, hb: int)
    requires Inv(s) && Enabled(s, ClaimTask(a, hb))
    ensures Inv(Apply(s, ClaimTask(a, hb)))
  {
    ClaimKeepsInv(s, Pc(s, a).task, a, hb, Pc(s, a).handle);
  }

  lemma StoreOutputKeepsInv(s: State, a: AgentId)
    requires Inv(s) && Enabled(s, StoreOutput(a))
    ensures Inv(Apply(s, StoreOutput(a)))
  {
    var pc := Pc(s, a);
    StoreKeepsInv(s, pc.task);
    MovePcKeepsInv(s.(outputs := s.outputs + {pc.task}), a, Protocol.Stored(pc.task, pc.handle, pc.claim));
  }

  lemma FinishKeepsInv(s: State, a: AgentId)
    requires Inv(s) && Enabled(s, FinishTask(a))
    ensures Inv(Apply(s, FinishTask(a)))
  {
    var pc := Pc(s, a);
    WriteKeepsInv(s, pc.task, Finish(a));
    MovePcKeepsInv(WriteRow(s, pc.task, Finish(a)), a, Protocol.Completed(pc.task, pc.handle, pc.claim));
  }

  lemma DeliverKeepsInv(s: State, e: Event)
    requires Inv(s) && Enabled(s, e) && (e.DropMessage? || e.Acknowledge?)
    ensures Inv(Apply(s, e))
  {
    var pc := Pc(s, e.agent);
    DeleteKeepsInv(s, pc.handle);
    MovePcKeepsInv(DeleteMessage(s, pc.handle), e.agent, Idle);
  }

  lemma LocalAgentOnlyMoves(s: State, e: Event)
    requires e.ClaimRefused? || e.ReadBack? || e.RefreshRefused? || e.FinishRefused? || e.AgentStop?
    requires Enabled(s, e) && AgentOk(s, e.agent, Pc(s, e.agent))
    ensures Apply(s, e) == SetPc(s, e.agent, Pc(Apply(s, e), e.agent)) && AgentOk(s, e.agent, Pc(Apply(s, e), e.agent))
  {
  }

  lemma LocalAgentKeepsInv(s: State, e: Event)
    requires Inv(s) && Enabled(s, e)
    requires e.ClaimRefused? || e.ReadBack? || e.RefreshRefused? || e.FinishRefused? || e.AgentStop?
    ensures Inv(Apply(s, e))
  {
    assert AgentOk(s, e.agent, Pc(s, e.agent));
    LocalAgentOnlyMoves(s, e);
    MovePcKeepsInv(s, e.agent, Pc(Apply(s, e), e.agent));
  }

  /** A checker writes a row and goes on with its list. */
  lemma CheckerWriteKeepsInv(s: State, t: Task, w: RowWrite, c: CheckerId, todo: seq<Task>)
    requires Inv(s) && WriterReady(s, t, w) && !w.Claim? && forall u :: u in todo ==> u in s.table
    ensures Inv(SetChecker(WriteRow(s, t, w), c, Protocol.Listing(todo)))
  {
    WriteKeepsInv(s, t, w);
    MoveCheckerKeepsInv(WriteRow(s, t, w), c, Protocol.Listing(todo));
  }

  /** A checker that holds a read has a row to retry, and retries within the maximum. */
  lemma RetryIsReady(s: State, c: CheckerId)
    requires TableOk(s) && CheckersOk(s) && CheckerEnabled(s, RetryTask(c))
    ensures WriterReady(s, CheckerAt(s, c).task, Retry(CheckerAt(s, c).read.retries + 1))
    ensures forall t :: t in CheckerAt(s, c).todo ==> t in s.table
  {
    assert CheckerOk(s, CheckerAt(s, c)) && RowOk(s.table[CheckerAt(s, c).task]);
  }

  lemma RetryIsWrite(s: State, c: CheckerId)
    requires CheckerEnabled(s, RetryTask(c))
    ensures var pc := CheckerAt(s, c);
      Apply(s, RetryTask(c)) == SetChecker(WriteRow(s, pc.task, Retry(pc.read.retries + 1)), c, Protocol.Listing(pc.todo))
  {
  }

  lemma RetryKeepsInv(s: State, c: CheckerId)
    requires Inv(s) && CheckerEnabled(s, RetryTask(c))
    ensures Inv(Apply(s, RetryTask(c)))
  {
    var t, w, todo := CheckerAt(s, c).task, Retry(CheckerAt(s, c).read.retries + 1), CheckerAt(s, c).todo;
    RetryIsReady(s, c);
    RetryIsWrite(s, c);
    CheckerWriteKeepsInv(s, t, w, c, todo);
  }

  lemma MarkFailedKeepsInv(s: State, c: CheckerId)
    requires Inv(s) && Enabled(s, MarkFailed(c))
    ensures Inv(Apply(s, MarkFailed(c)))
  {
    CheckerWriteKeepsInv(s, CheckerAt(s, c).task, Fail, c, CheckerAt(s, c).todo);
  }

  lemma DeleteExhaustedKeepsInv(s: State, c: CheckerId)
    requires Inv(s) && Enabled(s, DeleteExhausted(c))
    ensures Inv(Apply(s, DeleteExhausted(c)))
  {
    var pc := CheckerAt(s, c);
    DeleteKeepsInv(s, pc.read.handle);
    MoveCheckerKeepsInv(DeleteMessage(s, pc.read.handle), c, Protocol.Failing(pc.task, pc.todo));
  }

  lemma LocalCheckerKeepsInv(s: State, e: Event)
    requires Inv(s) && Enabled(s, e) && (e.ListExpired? || e.ReadRow? || e.RetryRefused? || e.CheckerStop?)
    ensures Inv(Apply(s, e))
  {
    MoveCheckerKeepsInv(s, e.checker, CheckerAt(Apply(s, e), e.checker));
  }

  lemma MoveCancelsKeepsInv(s: State, cancels: map<CallId, CancelCall>)
    requires Inv(s) && CancelsOk(s.(cancels := cancels))
    ensures Inv(s.(cancels := cancels))
  {
  }

  lemma TickKeepsInv(s: State, d: nat)
    requires Inv(s)
    ensures Inv(Apply(s, Tick(d)))
  {
  }

  lemma CancelWriteKeepsInv(s: State, k: CallId)
    requires Inv(s) && Enabled(s, CancelWrite(k))
    ensures Inv(Apply(s, CancelWrite(k)))
  {
    var t := s.cancels[k].todo[0];
    WriteKeepsInv(s, t, Cancel);
    MoveCancelsKeepsInv(WriteRow(s, t, Cancel), s.cancels[k := s.cancels[k].(todo := s.cancels[k].todo[1..])]);
  }

  lemma CancelListsRows(s: State, e: Event)
    requires CancelsOk(s) && (e.CancelStart? || e.CancelQuery?) && CancelEnabled(s, e)
    ensures CancelStep(s, e) == s.(cancels := CancelStep(s, e).cancels) && CancelsOk(CancelStep(s, e))
  {
    if e.CancelQuery? {
      assert forall t :: t in e.found ==> t in Elements(e.found);
    }
  }

  lemma CancelQueryKeepsInv(s: State, e: Event)
    requires Inv(s) && Enabled(s, e) && (e.CancelStart? || e.CancelQuery?)
    ensures Inv(Apply(s, e))
  {
    CancelListsRows(s, e);
    MoveCancelsKeepsInv(s, CancelStep(s, e).cancels);
  }

  lemma AgentCallKeepsInv(s: State, e: Event)
    requires Inv(s) && Enabled(s, e) && (e.Receive? || e.ClaimTask? || e.RefreshTtl?)
    ensures Inv(Apply(s, e))
  {
    match e
    case Receive(a, t, h) => ReceiveKeepsInv(s, a, t, h);
    case ClaimTask(a, hb) => ClaimTaskKeepsInv(s, a, hb);
    case RefreshTtl(a, hb) => WriteKeepsInv(s, Pc(s, a).task, Refresh(a, hb));
  }

  lemma CompletionKeepsInv(s: State, e: Event)
    requires Inv(s) && Enabled(s, e) && (e.StoreOutput? || e.FinishTask? || e.DropMessage? || e.Acknowledge?)
    ensures Inv(Apply(s, e))
  {
    match e
    case StoreOutput(a) => StoreOutputKeepsInv(s, a);
    case FinishTask(a) => FinishKeepsInv(s, a);
    case _ => DeliverKeepsInv(s, e);
  }

  lemma SubmitKeepsInv(s: State, e: Event)
    requires Inv(s) && Enabled(s, e) && (e.SubmitStart? || e.PutRow? || e.SendChunk?)
    ensures Inv(Apply(s, e))
  {
    match e
    case SubmitStart(k, session, priority, ids) => NewSubmitKeepsInv(s, k, session, priority, ids);
    case PutRow(k) => PutRowKeepsInv(s, k);
    case SendChunk(k, accepted) => SendChunkKeepsInv(s, k, accepted);
  }

  lemma CheckerKeepsInv(s: State, e: Event)
    requires Inv(s) && Enabled(s, e) && CheckerEvent(e)
    ensures Inv(Apply(s, e))
  {
    if e.RetryTask? {
      RetryKeepsInv(s, e.checker);
    } else if e.DeleteExhausted? {
      DeleteExhaustedKeepsInv(s, e.checker);
    } else if e.MarkFailed? {
      MarkFailedKeepsInv(s, e.checker);
    } else {
      LocalCheckerKeepsInv(s, e);
    }
  }

  lemma CancelKeepsInv(s: State, e: Event)
    requires Inv(s) && Enabled(s, e) && (e.CancelStart? || e.CancelQuery? || e.CancelWrite? || e.Tick?)
    ensures Inv(Apply(s, e))
  {
    if e.CancelWrite? {
      CancelWriteKeepsInv(s, e.call);
    } else if e.Tick? {
      TickKeepsInv(s, e.elapsed);
    } else {
      CancelQueryKeepsInv(s, e);
    }
  }

  lemma StepKeepsInv(s: State, e: Event)
    requires Inv(s) && Enabled(s, e)
    ensures Inv(Apply(s, e))
  {
    if e.SubmitStart? || e.PutRow? || e.SendChunk? {
      SubmitKeepsInv(s, e);
    } else if e.Receive? || e.ClaimTask? || e.RefreshTtl? {
      AgentCallKeepsInv(s, e);
    } else if e.StoreOutput? || e.FinishTask? || e.DropMessage? || e.Acknowledge? {
      CompletionKeepsInv(s, e);
    } else if AgentEvent(e) {
      LocalAgentKeepsInv(s, e);
    } else if CheckerEvent(e) {
      CheckerKeepsInv(s, e);
    } else {
      CancelKeepsInv(s, e);
    }
  }

  lemma {:induction false} InvInEveryState(states: seq<State>, events: seq<Event>, i: nat)
    requires Run(states, events) && i < |states|
    ensures Inv(states[i])
  {
    if i > 0 {
      InvInEveryState(states, events, i - 1);
      assert StepAt(states, events, i - 1);
      StepKeepsInv(states[i - 1], events[i - 1]);
    }
  }
}
