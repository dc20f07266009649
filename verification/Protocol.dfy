/**
  The task-lifecycle protocol as a state machine: the state table, the task
  queue, the stored outputs, the agents, the TTL checkers, and the submit and
  cancel lambdas, interleaved one external call at a time.

  The queue is the set of tasks whose message is still on it.  Receiving a message
  removes nothing and issues a fresh handle; any message on the queue may be
  received at any time, which covers every visibility timeout and every repeated
  delivery.  Deleting through a handle removes the message the handle was issued for.

  A lambda or an agent may stop between any two calls.  A submit or cancel call
  that stopped simply takes no further step; an agent or checker that stopped
  starts again under the same id.
 */
module Protocol {
  import opened Prelude
  import opened TaskStates
  import opened Rows

  type Task = string
  type CheckerId = nat
  type CallId = nat

  datatype AgentPc =
    | Idle
    | Received(task: Task, handle: Handle)
    | Refused(task: Task, handle: Handle)        // a claim or a heartbeat was refused; the row is read back next
    | SawCancelled(task: Task, handle: Handle)   // the row read back was cancelled; the message is deleted next
    | Running(task: Task, handle: Handle, claim: nat)
    | Stored(task: Task, handle: Handle, claim: nat)
    | Completed(task: Task, handle: Handle, claim: nat)

  datatype CheckerPc =
    | Resting
    | Listing(todo: seq<Task>)
    | Holding(task: Task, read: Version, todo: seq<Task>)
    | Failing(task: Task, todo: seq<Task>)

  /** One submit call: rows for `ids` are put one by one, then messages are sent in chunks. */
  datatype SubmitCall = SubmitCall(session: string, priority: nat, ids: seq<Task>, written: nat, sent: nat, live: bool)

  /**
    One cancel_session call.  `lists` holds the query results so far, `todo` the
    rows of the last one not yet overwritten.  History variables: `baseline`, the
    session's rows at the first query, and `escaped`, those of them that are pending
    at the second one.
   */
  datatype CancelCall = CancelCall(session: string, lists: seq<seq<Task>>, todo: seq<Task>,
                                   baseline: set<Task>, escaped: set<Task>)

  datatype State = State(
    table: map<Task, Row>,
    queue: set<Task>,
    issued: map<Handle, Task>,
    outputs: set<Task>,
    agents: map<AgentId, AgentPc>,
    checkers: map<CheckerId, CheckerPc>,
    submits: map<CallId, SubmitCall>,
    cancels: map<CallId, CancelCall>,
    reserved: set<Task>,
    sent: set<Task>,
    clock: int)

  const INITIAL := State(map[], {}, map[], {}, map[], map[], map[], map[], {}, {}, 0)

  const SQS_MAX_BATCH_SIZE: nat := 10
  const STATES_TO_CANCEL := [Pending, Processing]

  datatype Event =
    // submit lambda
    | SubmitStart(call: CallId, session: string, priority: nat, ids: seq<Task>)
    | PutRow(call: CallId)
    | SendChunk(call: CallId, accepted: set<Task>)
    // agents
    | Receive(agent: AgentId, task: Task, handle: Handle)
    | ClaimTask(agent: AgentId, expiration: int)
    | ClaimRefused(agent: AgentId)
    | ReadBack(agent: AgentId, readable: bool)
    | DropMessage(agent: AgentId)
    | RefreshTtl(agent: AgentId, expiration: int)
    | RefreshRefused(agent: AgentId)
    | StoreOutput(agent: AgentId)
    | FinishTask(agent: AgentId)
    | FinishRefused(agent: AgentId)
    | Acknowledge(agent: AgentId)
    | AgentStop(agent: AgentId)
    // TTL checkers
    | ListExpired(checker: CheckerId, found: seq<Task>)
    | ReadRow(checker: CheckerId, version: Version)
    | DeleteExhausted(checker: CheckerId)
    | MarkFailed(checker: CheckerId)
    | RetryTask(checker: CheckerId)
    | RetryRefused(checker: CheckerId)
    | CheckerStop(checker: CheckerId)
    // cancel lambda
    | CancelStart(call: CallId, session: string)
    | CancelQuery(call: CallId, found: seq<Task>)
    | CancelWrite(call: CallId)
    | Tick(elapsed: nat)

  function Pc(s: State, a: AgentId): AgentPc {
    if a in s.agents then s.agents[a] else Idle
  }

  function CheckerAt(s: State, c: CheckerId): CheckerPc {
    if c in s.checkers then s.checkers[c] else Resting
  }

  function SetPc(s: State, a: AgentId, pc: AgentPc): State {
    s.(agents := s.agents[a := pc])
  }

  function SetChecker(s: State, c: CheckerId, pc: CheckerPc): State {
    s.(checkers := s.checkers[c := pc])
  }

  predicate Accepts(s: State, t: Task, w: RowWrite) {
    t in s.table && Guard(s.table[t], w)
  }

  function WriteRow(s: State, t: Task, w: RowWrite): State
    requires t in s.table
  {
    s.(table := s.table[t := Write(s.table[t], w)])
  }

  /** Delete through a receipt handle; a handle that was never issued deletes nothing. */
  function DeleteMessage(s: State, h: Handle): State {
    if h in s.issued then s.(queue := s.queue - {s.issued[h]}) else s
  }

  function TasksInState(s: State, session: string, status: Status): set<Task> {
    set t | t in s.table && s.table[t].session == session && s.table[t].status == status
  }

  function TasksOf(s: State, session: string): set<Task> {
    set t | t in s.table && s.table[t].session == session
  }

  function NextChunk(call: SubmitCall): seq<Task>
    requires call.sent <= |call.ids|
  {
    call.ids[call.sent..Min(call.sent + SQS_MAX_BATCH_SIZE, |call.ids|)]
  }

  // ---- events by program ----

  predicate SubmitEvent(e: Event) {
    e.SubmitStart? || e.PutRow? || e.SendChunk?
  }

  predicate AgentEvent(e: Event) {
    || e.Receive? || e.ClaimTask? || e.ClaimRefused? || e.ReadBack? || e.DropMessage? || e.RefreshTtl? || e.RefreshRefused?
    || e.StoreOutput? || e.FinishTask? || e.FinishRefused? || e.Acknowledge? || e.AgentStop?
  }

  predicate CheckerEvent(e: Event) {
    || e.ListExpired? || e.ReadRow? || e.DeleteExhausted? || e.MarkFailed? || e.RetryTask? || e.RetryRefused? || e.CheckerStop?
  }

  predicate CancelEvent(e: Event) {
    e.CancelStart? || e.CancelQuery? || e.CancelWrite?
  }

  // ---- when an event can happen, and what it does ----

  predicate SubmitEnabled(s: State, e: Event)
    requires SubmitEvent(e)
  {
    match e
    case SubmitStart(k, _, _, ids) =>
      k !in s.submits && (forall i, j :: 0 <= i < j < |ids| ==> ids[i] != ids[j]) && (forall t :: t in ids ==> t !in s.reserved)
    case PutRow(k) => k in s.submits && s.submits[k].live && s.submits[k].written < |s.submits[k].ids|
    case SendChunk(k, accepted) =>
      && k in s.submits && s.submits[k].live
      && s.submits[k].written == |s.submits[k].ids| && s.submits[k].sent < |s.submits[k].ids|
      && (forall t :: t in accepted ==> t in NextChunk(s.submits[k]))
  }

  predicate AgentEnabled(s: State, e: Event)
    requires AgentEvent(e)
  {
    match e
    case Receive(a, t, h) => Pc(s, a).Idle? && t in s.queue && h !in s.issued && h != NO_HANDLE
    case ClaimTask(a, hb) => Pc(s, a).Received? && Accepts(s, Pc(s, a).task, Claim(a, hb, Pc(s, a).handle))
    case ClaimRefused(a) => Pc(s, a).Received?
    case ReadBack(a, _) => Pc(s, a).Refused?
    case DropMessage(a) => Pc(s, a).SawCancelled?
    case RefreshTtl(a, hb) => Pc(s, a).Running? && Accepts(s, Pc(s, a).task, Refresh(a, hb))
    case RefreshRefused(a) => Pc(s, a).Running? && !Accepts(s, Pc(s, a).task, Refresh(a, 0))
    case StoreOutput(a) => Pc(s, a).Running?
    case FinishTask(a) => Pc(s, a).Stored? && Accepts(s, Pc(s, a).task, Finish(a))
    case FinishRefused(a) => Pc(s, a).Stored? && !Accepts(s, Pc(s, a).task, Finish(a))
    case Acknowledge(a) => Pc(s, a).Completed?
    case AgentStop(a) => true
  }

  predicate CheckerEnabled(s: State, e: Event)
    requires CheckerEvent(e)
  {
    match e
    case ListExpired(c, found) => CheckerAt(s, c).Resting? && (forall t :: t in found ==> t in s.table)
    case ReadRow(c, v) =>
      && CheckerAt(s, c).Listing? && CheckerAt(s, c).todo != []
      && CheckerAt(s, c).todo[0] in s.table && v in s.table[CheckerAt(s, c).todo[0]].versions
    case DeleteExhausted(c) => CheckerAt(s, c).Holding? && CheckerAt(s, c).read.retries == MAX_RETRIES
    case MarkFailed(c) => CheckerAt(s, c).Failing? && Accepts(s, CheckerAt(s, c).task, Fail)
    case RetryTask(c) =>
      && CheckerAt(s, c).Holding? && CheckerAt(s, c).read.retries != MAX_RETRIES
      && Accepts(s, CheckerAt(s, c).task, Retry(CheckerAt(s, c).read.retries + 1))
    case RetryRefused(c) => CheckerAt(s, c).Holding? && CheckerAt(s, c).read.retries != MAX_RETRIES
    case CheckerStop(c) => true
  }

  predicate CancelEnabled(s: State, e: Event)
    requires CancelEvent(e)
  {
    match e
    case CancelStart(k, _) => k !in s.cancels
    case CancelQuery(k, found) =>
      && k in s.cancels && s.cancels[k].todo == [] && |s.cancels[k].lists| < |STATES_TO_CANCEL|
      && (forall i, j :: 0 <= i < j < |found| ==> found[i] != found[j])
      && Elements(found) == TasksInState(s, s.cancels[k].session, STATES_TO_CANCEL[|s.cancels[k].lists|])
    case CancelWrite(k) => k in s.cancels && s.cancels[k].todo != [] && s.cancels[k].todo[0] in s.table
  }

  predicate Enabled(s: State, e: Event) {
    if SubmitEvent(e) then SubmitEnabled(s, e)
    else if AgentEvent(e) then AgentEnabled(s, e)
    else if CheckerEvent(e) then CheckerEnabled(s, e)
    else if CancelEvent(e) then CancelEnabled(s, e)
    else true
  }

  function SubmitStep(s: State, e: Event): State
    requires SubmitEvent(e) && SubmitEnabled(s, e)
  {
    match e
    case SubmitStart(k, session, priority, ids) =>
      s.(submits := s.submits[k := SubmitCall(session, priority, ids, 0, 0, true)], reserved := s.reserved + Elements(ids))
    case PutRow(k) =>
      var call := s.submits[k];
      s.(table := s.table[call.ids[call.written] := FreshRow(call.session, call.priority)],
         submits := s.submits[k := call.(written := call.written + 1)])
    case SendChunk(k, accepted) =>
      var call := s.submits[k];
      var chunk := NextChunk(call);
      // A partial failure raises, and the call goes no further.
      s.(queue := s.queue + accepted, sent := s.sent + accepted,
         submits := s.submits[k := call.(sent := call.sent + |chunk|, live := forall t :: t in chunk ==> t in accepted)])
  }

  function AgentStep(s: State, e: Event): State
    requires AgentEvent(e) && AgentEnabled(s, e)
  {
    match e
    case Receive(a, t, h) => SetPc(s.(issued := s.issued[h := t]), a, Received(t, h))
    case ClaimTask(a, hb) =>
      var pc := Pc(s, a);
      var s1 := WriteRow(s, pc.task, Claim(a, hb, pc.handle));
      SetPc(s1, a, Running(pc.task, pc.handle, s1.table[pc.task].claims))
    case ClaimRefused(a) => SetPc(s, a, Refused(Pc(s, a).task, Pc(s, a).handle))
    case ReadBack(a, readable) =>
      var pc := Pc(s, a);
      if readable && pc.task in s.table && s.table[pc.task].status.Cancelled?
      then SetPc(s, a, SawCancelled(pc.task, pc.handle)) else SetPc(s, a, Idle)
    case DropMessage(a) => SetPc(DeleteMessage(s, Pc(s, a).handle), a, Idle)
    case RefreshTtl(a, hb) => WriteRow(s, Pc(s, a).task, Refresh(a, hb))
    case RefreshRefused(a) => SetPc(s, a, Refused(Pc(s, a).task, Pc(s, a).handle))
    case StoreOutput(a) =>
      var pc := Pc(s, a);
      SetPc(s.(outputs := s.outputs + {pc.task}), a, Stored(pc.task, pc.handle, pc.claim))
    case FinishTask(a) =>
      var pc := Pc(s, a);
      SetPc(WriteRow(s, pc.task, Finish(a)), a, Completed(pc.task, pc.handle, pc.claim))
    case FinishRefused(a) => SetPc(s, a, Idle)
    case Acknowledge(a) => SetPc(DeleteMessage(s, Pc(s, a).handle), a, Idle)
    case AgentStop(a) => SetPc(s, a, Idle)
  }

  function CheckerStep(s: State, e: Event): State
    requires CheckerEvent(e) && CheckerEnabled(s, e)
  {
    match e
    case ListExpired(c, found) => SetChecker(s, c, Listing(found))
    case ReadRow(c, v) => SetChecker(s, c, Holding(CheckerAt(s, c).todo[0], v, CheckerAt(s, c).todo[1..]))
    case DeleteExhausted(c) =>
      var pc := CheckerAt(s, c);
      SetChecker(DeleteMessage(s, pc.read.handle), c, Failing(pc.task, pc.todo))
    case MarkFailed(c) => SetChecker(WriteRow(s, CheckerAt(s, c).task, Fail), c, Listing(CheckerAt(s, c).todo))
    case RetryTask(c) =>
      var pc := CheckerAt(s, c);
      SetChecker(WriteRow(s, pc.task, Retry(pc.read.retries + 1)), c, Listing(pc.todo))
    case RetryRefused(c) => SetChecker(s, c, Listing(CheckerAt(s, c).todo))
    case CheckerStop(c) => SetChecker(s, c, Resting)
  }

  function CancelStep(s: State, e: Event): State
    requires CancelEvent(e) && CancelEnabled(s, e)
  {
    match e
    case CancelStart(k, session) => s.(cancels := s.cancels[k := CancelCall(session, [], [], {}, {})])
    case CancelQuery(k, found) =>
      var call := s.cancels[k];
      s.(cancels := s.cancels[k := CancelCall(call.session, call.lists + [found], found,
           if call.lists == [] then TasksOf(s, call.session) else call.baseline,
           if |call.lists| == 1 then call.baseline * TasksInState(s, call.session, Pending) else call.escaped)])
    case CancelWrite(k) =>
      var call := s.cancels[k];
      WriteRow(s, call.todo[0], Cancel).(cancels := s.cancels[k := call.(todo := call.todo[1..])])
  }

  function Apply(s: State, e: Event): State
    requires Enabled(s, e)
  {
    if SubmitEvent(e) then SubmitStep(s, e)
    else if AgentEvent(e) then AgentStep(s, e)
    else if CheckerEvent(e) then CheckerStep(s, e)
    else if CancelEvent(e) then CancelStep(s, e)
    else s.(clock := s.clock + e.elapsed)
  }

  /** The row write an event performs, if it performs one. */
  function WriteOf(s: State, e: Event): Option<(Task, RowWrite)>
    requires Enabled(s, e)
  {
    match e
    case ClaimTask(a, hb) => Some((Pc(s, a).task, Claim(a, hb, Pc(s, a).handle)))
    case RefreshTtl(a, hb) => Some((Pc(s, a).task, Refresh(a, hb)))
    case FinishTask(a) => Some((Pc(s, a).task, Finish(a)))
    case MarkFailed(c) => Some((CheckerAt(s, c).task, Fail))
    case RetryTask(c) => Some((CheckerAt(s, c).task, Retry(CheckerAt(s, c).read.retries + 1)))
    case CancelWrite(k) => Some((s.cancels[k].todo[0], Cancel))
    case _ => None
  }

  /** The table after a step is the one before with one accepted row write, or none. */
  ghost predicate OneWrite(s: State, e: Event)
    requires Enabled(s, e)
  {
    match WriteOf(s, e)
    case Some((t, w)) => Accepts(s, t, w) && Apply(s, e).table == s.table[t := Write(s.table[t], w)]
    case None => Apply(s, e).table == s.table
  }

  lemma AgentTableEffect(s: State, e: Event)
    requires Enabled(s, e) && AgentEvent(e)
    ensures OneWrite(s, e)
  {
  }

  lemma CheckerTableEffect(s: State, e: Event)
    requires Enabled(s, e) && CheckerEvent(e)
    ensures OneWrite(s, e)
  {
  }

  /** Apart from putting fresh rows, the table only ever changes by one accepted row write. */
  lemma TableEffect(s: State, e: Event)
    requires Enabled(s, e)
    ensures if e.PutRow? then WriteOf(s, e).None? else OneWrite(s, e)
  {
    if AgentEvent(e) {
      AgentTableEffect(s, e);
    } else if CheckerEvent(e) {
      CheckerTableEffect(s, e);
    }
  }

  // ---- what each program leaves alone ----

  lemma SubmitFrame(s: State, e: Event)
    requires Enabled(s, e) && SubmitEvent(e)
    ensures var s' := Apply(s, e);
      s' == s.(table := s'.table, queue := s'.queue, sent := s'.sent, submits := s'.submits, reserved := s'.reserved) && s.sent <= s'.sent
    ensures forall k :: k != e.call ==> (k in s.submits <==> k in Apply(s, e).submits)
    ensures forall k :: k != e.call && k in s.submits ==> Apply(s, e).submits[k] == s.submits[k]
  {
  }

  lemma AgentFrame(s: State, e: Event)
    requires AgentEvent(e) && AgentEnabled(s, e)
    ensures var s' := AgentStep(s, e);
      s' == s.(table := s'.table, queue := s'.queue, issued := s'.issued, outputs := s'.outputs, agents := s'.agents) && s.outputs <= s'.outputs
    ensures forall a :: a != e.agent ==> Pc(AgentStep(s, e), a) == Pc(s, a)
  {
  }

  lemma OnlyReceivesIssue(s: State, e: Event)
    requires AgentEvent(e) && AgentEnabled(s, e) && !e.Receive?
    ensures AgentStep(s, e).issued == s.issued
  {
  }

  lemma CheckerFrame(s: State, e: Event)
    requires CheckerEvent(e) && CheckerEnabled(s, e)
    ensures var s' := CheckerStep(s, e); s' == s.(table := s'.table, queue := s'.queue, checkers := s'.checkers)
    ensures forall c :: c != e.checker ==> CheckerAt(CheckerStep(s, e), c) == CheckerAt(s, c)
  {
  }

  lemma CancelFrame(s: State, e: Event)
    requires Enabled(s, e) && CancelEvent(e)
    ensures var s' := Apply(s, e); s' == s.(table := s'.table, cancels := s'.cancels)
    ensures forall k :: k != e.call ==> (k in s.cancels <==> k in Apply(s, e).cancels)
    ensures forall k :: k != e.call && k in s.cancels ==> Apply(s, e).cancels[k] == s.cancels[k]
  {
  }

  /** Each program changes only its own part of the state besides table and queue; what was sent or stored stays. */
  lemma Frame(s: State, e: Event)
    requires Enabled(s, e)
    ensures var s' := Apply(s, e);
      && (!SubmitEvent(e) ==> s'.submits == s.submits && s'.reserved == s.reserved)
      && (!AgentEvent(e) ==> s'.agents == s.agents)
      && (!CheckerEvent(e) ==> s'.checkers == s.checkers)
      && (!CancelEvent(e) ==> s'.cancels == s.cancels)
      && (!e.Receive? ==> s'.issued == s.issued)
      && s.sent <= s'.sent && s.outputs <= s'.outputs
  {
    if SubmitEvent(e) {
      SubmitFrame(s, e);
    } else if AgentEvent(e) {
      AgentFrame(s, e);
      if !e.Receive? {
        OnlyReceivesIssue(s, e);
      }
    } else if CheckerEvent(e) {
      CheckerFrame(s, e);
    } else if CancelEvent(e) {
      CancelFrame(s, e);
    }
  }

  /** Step i of a sequence of states follows from event i. */
  ghost predicate StepAt(states: seq<State>, events: seq<Event>, i: nat)
    requires i < |events| < |states|
  {
    Enabled(states[i], events[i]) && states[i + 1] == Apply(states[i], events[i])
  }

  /** A run: from the initial state, each state follows from the one before by an enabled event. */
  ghost predicate Run(states: seq<State>, events: seq<Event>) {
    && |states| == |events| + 1
    && states[0] == INITIAL
    && forall i :: 0 <= i < |events| ==> StepAt(states, events, i)
  }

  /** One more enabled event extends a run. */
  lemma Extend(states: seq<State>, events: seq<Event>, e: Event) returns (longer: seq<State>, more: seq<Event>)
    requires Run(states, events) && Enabled(states[|events|], e)
    ensures longer == states + [Apply(states[|events|], e)] && more == events + [e] && Run(longer, more)
  {
    longer, more := states + [Apply(states[|events|], e)], events + [e];
    forall i | 0 <= i < |more| ensures StepAt(longer, more, i) {
      if i < |events| {
        assert StepAt(states, events, i);
      }
    }
  }
}
