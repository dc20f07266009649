/** The consequences of the invariant for whole runs. */
module SafetyTheorems {
  import opened Prelude
  import opened TaskStates
  import opened Rows
  import opened Protocol
  import opened Safety

  /** The event is a successful claim of `t`. */
  predicate Claims(s: State, e: Event, t: Task) {
    e.ClaimTask? && Pc(s, e.agent).Received? && Pc(s, e.agent).task == t
  }

  /** The event is a successful move of `t` into Finished. */
  predicate Finishes(s: State, e: Event, t: Task) {
    e.FinishTask? && Pc(s, e.agent).Stored? && Pc(s, e.agent).task == t
  }

  function CountClaims(states: seq<State>, events: seq<Event>, t: Task, i: nat): nat
    requires i <= |events| < |states|
  {
    if i == 0 then 0
    else CountClaims(states, events, t, i - 1) + if Claims(states[i - 1], events[i - 1], t) then 1 else 0
  }

  // ---- what one step can do to one row ----

  /** Rows and outputs never go away, terminal rows stay terminal, claims only grow. */
  ghost predicate Advances(s: State, s': State) {
    && s.outputs <= s'.outputs
    && forall t :: t in s.table ==>
         && t in s'.table
         && s.table[t].claims <= s'.table[t].claims
         && (Terminal(s.table[t].status) ==> Terminal(s'.table[t].status))
  }

  lemma RowStep(s: State, e: Event, t: Task)
    requires SubmitsOk(s) && Enabled(s, e) && t in s.table
    ensures t in Apply(s, e).table
    ensures Terminal(s.table[t].status) ==> Terminal(Apply(s, e).table[t].status)
    ensures Apply(s, e).table[t].claims == s.table[t].claims + if Claims(s, e, t) then 1 else 0
  {
    RowEffect(s, e);
  }

  lemma OutputsStay(s: State, e: Event)
    requires Enabled(s, e)
    ensures s.outputs <= Apply(s, e).outputs
  {
    Frame(s, e);
  }

  lemma StepAdvances(s: State, e: Event)
    requires Inv(s) && Enabled(s, e)
    ensures Advances(s, Apply(s, e))
  {
    OutputsStay(s, e);
    forall t | t in s.table
      ensures t in Apply(s, e).table && s.table[t].claims <= Apply(s, e).table[t].claims
      ensures Terminal(s.table[t].status) ==> Terminal(Apply(s, e).table[t].status)
    {
      RowStep(s, e, t);
    }
  }

  lemma OnlyPutRowAddsRows(s: State, e: Event)
    requires Enabled(s, e) && !e.PutRow?
    ensures Apply(s, e).table.Keys == s.table.Keys
  {
    TableEffect(s, e);
  }

  lemma NewRowUnclaimed(s: State, e: Event, t: Task)
    requires Inv(s) && Enabled(s, e) && t !in s.table && t in Apply(s, e).table
    ensures Apply(s, e).table[t].claims == 0 && !Claims(s, e, t)
  {
    if !e.PutRow? {
      OnlyPutRowAddsRows(s, e);
    }
  }

  lemma AdvancesTransitive(s: State, s': State, s'': State)
    requires Advances(s, s') && Advances(s', s'')
    ensures Advances(s, s'')
  {
  }

  // ---- over runs ----

  lemma {:induction false} RunAdvances(states: seq<State>, events: seq<Event>, i: nat, j: nat)
    requires Run(states, events) && i <= j < |states|
    ensures Advances(states[i], states[j])
  {
    if i < j {
      RunAdvances(states, events, i, j - 1);
      InvInEveryState(states, events, j - 1);
      assert StepAt(states, events, j - 1);
      StepAdvances(states[j - 1], events[j - 1]);
      AdvancesTransitive(states[i], states[j - 1], states[j]);
    }
  }

  /**
    {finished, failed, cancelled} is absorbing over every interleaving: once
    terminal, a row stays terminal, and nobody claims or finishes its task again.
   */
  lemma TerminalForever(states: seq<State>, events: seq<Event>, t: Task, i: nat, j: nat)
    requires Run(states, events) && i <= j < |states| && t in states[i].table && Terminal(states[i].table[t].status)
    ensures t in states[j].table && Terminal(states[j].table[t].status)
    ensures j < |events| ==> !Claims(states[j], events[j], t) && !Finishes(states[j], events[j], t)
  {
    RunAdvances(states, events, i, j);
    if j < |events| {
      assert StepAt(states, events, j);
    }
  }

  /** A task enters Finished at most once in a run. */
  lemma FinishedAtMostOnce(states: seq<State>, events: seq<Event>, t: Task, i: nat, j: nat)
    requires Run(states, events) && i < |events| && j < |events|
    requires Finishes(states[i], events[i], t) && Finishes(states[j], events[j], t)
    ensures i == j
  {
    var lo, hi := Min(i, j), Max(i, j);
    if lo < hi {
      assert StepAt(states, events, lo);
      TerminalForever(states, events, t, lo + 1, hi);
    }
  }

  /** In every reachable state the status fixes the ownership, and a finished row has its output. */
  lemma StatusFixesOwnership(states: seq<State>, events: seq<Event>, i: nat, t: Task)
    requires Run(states, events) && i < |states| && t in states[i].table
    ensures var r := states[i].table[t];
      && (r.owner == None <==> r.status.Pending? || r.status.Failed? || r.status.Cancelled?)
      && r.retries <= MAX_RETRIES
      && (r.status.Finished? ==> t in states[i].outputs)
  {
    InvInEveryState(states, events, i);
  }

  /** The history variable `claims` is the number of successful claims so far. */
  lemma {:induction false} ClaimsAreCounted(states: seq<State>, events: seq<Event>, t: Task, i: nat)
    requires Run(states, events) && i < |states|
    ensures CountClaims(states, events, t, i) == if t in states[i].table then states[i].table[t].claims else 0
  {
    if i > 0 {
      ClaimsAreCounted(states, events, t, i - 1);
      InvInEveryState(states, events, i - 1);
      assert StepAt(states, events, i - 1);
      if t in states[i - 1].table {
        RowStep(states[i - 1], events[i - 1], t);
      } else if t in states[i].table {
        NewRowUnclaimed(states[i - 1], events[i - 1], t);
      }
    }
  }

  // ---- no stale completion ----

  /** `a` claimed `t` at step j and has not been stopped or moved on between there and state i. */
  ghost predicate WorkingSince(states: seq<State>, events: seq<Event>, a: AgentId, t: Task, j: nat, i: nat)
    requires |events| < |states|
  {
    && j < i < |states| && i <= |events|
    && events[j].ClaimTask? && events[j].agent == a && Claims(states[j], events[j], t)
    && forall k :: j < k <= i ==> HoldsTask(Pc(states[k], a)) && Pc(states[k], a).task == t
  }

  /** The step gave `a` its claim number for `t`. */
  predicate Takes(s: State, e: Event, s': State, a: AgentId, t: Task) {
    && Claims(s, e, t) && e.agent == a
    && t in s'.table && Pc(s', a) == Running(t, Pc(s, a).handle, s'.table[t].claims)
  }

  predicate SameWork(pc: AgentPc, pc': AgentPc) {
    HoldsTask(pc) && HoldsTask(pc') && pc.task == pc'.task && pc.claim == pc'.claim
  }

  lemma OthersKeepPc(s: State, e: Event, a: AgentId)
    requires Enabled(s, e) && !(AgentEvent(e) && e.agent == a)
    ensures Pc(Apply(s, e), a) == Pc(s, a)
  {
    Frame(s, e);
    if AgentEvent(e) {
      AgentFrame(s, e);
    }
  }

  lemma HolderStep(s: State, e: Event, a: AgentId)
    requires Enabled(s, e) && HoldsTask(Pc(Apply(s, e), a))
    ensures Takes(s, e, Apply(s, e), a, Pc(Apply(s, e), a).task) || SameWork(Pc(s, a), Pc(Apply(s, e), a))
  {
    if !(AgentEvent(e) && e.agent == a) {
      OthersKeepPc(s, e, a);
    }
  }

  lemma HolderBack(states: seq<State>, events: seq<Event>, a: AgentId, i: nat)
    requires Run(states, events) && i < |states| && HoldsTask(Pc(states[i], a))
    ensures i > 0
    ensures Takes(states[i - 1], events[i - 1], states[i], a, Pc(states[i], a).task) || SameWork(Pc(states[i - 1], a), Pc(states[i], a))
  {
    if i > 0 {
      assert StepAt(states, events, i - 1);
      HolderStep(states[i - 1], events[i - 1], a);
    }
  }

  /** Every agent holding a task goes back to one claim, and holds that claim's number. */
  lemma {:induction false} ClaimOrigin(states: seq<State>, events: seq<Event>, a: AgentId, i: nat) returns (j: nat)
    requires Run(states, events) && i < |states| && HoldsTask(Pc(states[i], a))
    ensures WorkingSince(states, events, a, Pc(states[i], a).task, j, i)
    ensures Pc(states[i], a).task in states[j + 1].table
    ensures states[j + 1].table[Pc(states[i], a).task].claims == Pc(states[i], a).claim
  {
    HolderBack(states, events, a, i);
    if Takes(states[i - 1], events[i - 1], states[i], a, Pc(states[i], a).task) {
      j := i - 1;
    } else {
      j := ClaimOrigin(states, events, a, i - 1);
    }
  }

  lemma NoClaimBetween(states: seq<State>, events: seq<Event>, t: Task, j: nat, i: nat, k: nat)
    requires Run(states, events) && j <= k < i < |states| && t in states[j].table && t in states[i].table
    requires states[j].table[t].claims == states[i].table[t].claims
    ensures !Claims(states[k], events[k], t)
  {
    RunAdvances(states, events, j, k);
    InvInEveryState(states, events, k);
    assert StepAt(states, events, k);
    RowStep(states[k], events[k], t);
    RunAdvances(states, events, k + 1, i);
  }

  lemma FinisherHoldsLatest(states: seq<State>, events: seq<Event>, t: Task, i: nat)
    requires Run(states, events) && i < |events| && Finishes(states[i], events[i], t)
    ensures t in states[i].table && Pc(states[i], events[i].agent).claim == states[i].table[t].claims
  {
    InvInEveryState(states, events, i);
    assert StepAt(states, events, i);
    assert AgentOk(states[i], events[i].agent, states[i].agents[events[i].agent]);
  }

  /**
    When a finish write succeeds, the finishing agent has been running the task
    without interruption since its own claim, and that claim is the latest one of
    the task, however often the task was retried, taken over and claimed again.
   */
  lemma NoStaleCompletion(states: seq<State>, events: seq<Event>, t: Task, i: nat) returns (j: nat)
    requires Run(states, events) && i < |events| && Finishes(states[i], events[i], t)
    ensures WorkingSince(states, events, events[i].agent, t, j, i)
    ensures forall k :: j < k < i ==> !Claims(states[k], events[k], t)
  {
    var a := events[i].agent;
    FinisherHoldsLatest(states, events, t, i);
    j := ClaimOrigin(states, events, a, i);
    forall k | j < k < i ensures !Claims(states[k], events[k], t) {
      NoClaimBetween(states, events, t, j + 1, i, k);
    }
  }
}
