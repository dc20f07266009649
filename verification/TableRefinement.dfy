/**
  The stored table follows the abstract one through whole runs: executing each
  event's write on the items, with the string conditions and the string updates,
  yields in every state exactly the encoding of the abstract table.
 */
module TableRefinement {
  import opened Prelude
  import opened TaskStates
  import opened Rows
  import opened Protocol
  import opened StateTables

  /** Agents are not called "None", and task ids start with the session they are submitted under. */
  predicate WellNamed(e: Event) {
    && (e.ClaimTask? || e.RefreshTtl? || e.FinishTask? ==> e.agent != NO_OWNER)
    && (e.SubmitStart? ==> forall t :: t in e.ids ==> SessionOf(t) == e.session)
  }

  ghost predicate NamesOk(s: State) {
    && (forall t :: t in s.table ==> SessionOf(t) == s.table[t].session && s.table[t].owner != Some(NO_OWNER))
    && (forall k :: k in s.submits ==> CallNamed(s.submits[k]))
  }

  /** One event on the items: the put of a fresh item, or one conditional update. */
  function ItemStep(md5: Hash, items: map<string, Item>, s: State, e: Event): map<string, Item>
    requires Enabled(s, e)
  {
    if e.PutRow? then
      var call := s.submits[e.call];
      items[call.ids[call.written] := FreshItem(md5, call.session, call.priority)]
    else match WriteOf(s, e)
      case None => items
      case Some((t, w)) => if t in items && Condition(md5, t, items[t], w) then items[t := Update(md5, t, items[t], w)] else items
  }

  function ItemsAfter(md5: Hash, states: seq<State>, events: seq<Event>, i: nat): map<string, Item>
    requires i <= |events| < |states| && forall k :: 0 <= k < i ==> Enabled(states[k], events[k])
  {
    if i == 0 then map[] else ItemStep(md5, ItemsAfter(md5, states, events, i - 1), states[i - 1], events[i - 1])
  }

  lemma WriteIsWellNamed(s: State, e: Event)
    requires Enabled(s, e) && WellNamed(e)
    ensures WriteOf(s, e).Some? ==> RealAgent(WriteOf(s, e).value.1)
  {
  }

  predicate CallNamed(call: SubmitCall) {
    forall i :: 0 <= i < |call.ids| ==> SessionOf(call.ids[i]) == call.session
  }

  lemma OwnCallStaysNamed(s: State, e: Event)
    requires SubmitEvent(e) && SubmitEnabled(s, e) && WellNamed(e) && (e.call in s.submits ==> CallNamed(s.submits[e.call]))
    ensures e.call in SubmitStep(s, e).submits && CallNamed(SubmitStep(s, e).submits[e.call])
  {
  }

  lemma SubmitsStayNamed(s: State, e: Event)
    requires NamesOk(s) && Enabled(s, e) && WellNamed(e)
    ensures forall k :: k in Apply(s, e).submits ==> CallNamed(Apply(s, e).submits[k])
  {
    Frame(s, e);
    if SubmitEvent(e) {
      SubmitFrame(s, e);
      OwnCallStaysNamed(s, e);
    }
  }

  lemma StepKeepsNames(s: State, e: Event)
    requires NamesOk(s) && Enabled(s, e) && WellNamed(e)
    ensures NamesOk(Apply(s, e))
  {
    SubmitsStayNamed(s, e);
    if !e.PutRow? {
      TableEffect(s, e);
      WriteIsWellNamed(s, e);
    }
  }

  lemma PutRefines(md5: Hash, items: map<string, Item>, s: State, k: CallId)
    requires NamesOk(s) && Enabled(s, PutRow(k)) && Encodes(md5, items, s.table)
    ensures Encodes(md5, ItemStep(md5, items, s, PutRow(k)), Apply(s, PutRow(k)).table)
  {
  }

  /** The string condition lets through exactly the writes the abstract guard accepts, and the results agree. */
  lemma StepRefines(md5: Hash, items: map<string, Item>, s: State, e: Event)
    requires NamesOk(s) && Enabled(s, e) && WellNamed(e) && Encodes(md5, items, s.table)
    ensures Encodes(md5, ItemStep(md5, items, s, e), Apply(s, e).table)
  {
    if e.PutRow? {
      PutRefines(md5, items, s, e.call);
    } else {
      TableEffect(s, e);
      WriteIsWellNamed(s, e);
      if WriteOf(s, e).Some? {
        var (t, w) := WriteOf(s, e).value;
        ConditionIsGuard(md5, t, s.table[t], w);
        UpdateKeepsEncoding(md5, items, s.table, t, w);
      }
    }
  }

  /** Main result: in every state of every run the items are the encoding of the table. */
  lemma {:induction false} StoredTableRefines(md5: Hash, states: seq<State>, events: seq<Event>, i: nat)
    requires Run(states, events) && i < |states|
    requires forall k :: 0 <= k < |events| ==> WellNamed(events[k])
    ensures NamesOk(states[i])
    ensures forall k :: 0 <= k < i ==> Enabled(states[k], events[k])
    ensures Encodes(md5, ItemsAfter(md5, states, events, i), states[i].table)
  {
    if i > 0 {
      StoredTableRefines(md5, states, events, i - 1);
      assert StepAt(states, events, i - 1);
      StepKeepsNames(states[i - 1], events[i - 1]);
      StepRefines(md5, ItemsAfter(md5, states, events, i - 1), states[i - 1], events[i - 1]);
    }
  }

  /** A refused claim, heartbeat or finish is refused by the strings exactly when the abstract guard refuses it. */
  lemma RefusalsAgree(md5: Hash, items: map<string, Item>, s: State, t: Task, w: RowWrite)
    requires NamesOk(s) && Encodes(md5, items, s.table) && RealAgent(w)
    ensures (t in items && Condition(md5, t, items[t], w)) <==> Accepts(s, t, w)
  {
  }
}
