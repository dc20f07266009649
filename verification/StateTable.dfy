/**
  The state table as it is stored: items whose status is a state name followed by
  the partition of the session at the front of the task id, and whose owner is an
  agent id or the text "None".  The class performs the conditional updates on the
  strings; the lemmas before it show that each string condition is the abstract
  guard of Rows, and each string update the abstract write.

  `throttled` is the service's answer to a call: a throttled call changes nothing.
 */
module StateTables {
  import opened Prelude
  import opened TaskStates
  import opened Rows

  const NO_OWNER := "None"

  datatype Item = Item(session: string, status: string, owner: string, retries: nat,
                       heartbeat: int, handle: string, priority: nat)

  datatype Outcome = Accepted | ConditionFailed | Throttled

  function StateOfTask(md5: Hash, s: Status, taskId: string): string {
    StateString(s, Partition(md5, SessionOf(taskId)))
  }

  function OwnerText(owner: Option<AgentId>): string {
    match owner case None => NO_OWNER case Some(a) => a
  }

  function Encode(md5: Hash, taskId: string, r: Row): Item {
    Item(r.session, StateOfTask(md5, r.status, taskId), OwnerText(r.owner), r.retries, r.heartbeat, r.handle, r.priority)
  }

  /** The stored items are the abstract table, row by row, and no agent is called "None". */
  ghost predicate Encodes(md5: Hash, items: map<string, Item>, table: map<string, Row>) {
    && items.Keys == table.Keys
    && forall t :: t in table ==> items[t] == Encode(md5, t, table[t]) && table[t].owner != Some(NO_OWNER)
  }

  predicate RealAgent(w: RowWrite) {
    w.Claim? || w.Refresh? || w.Finish? ==> w.agent != NO_OWNER
  }

  // ---- the string conditions and updates ----

  predicate Condition(md5: Hash, taskId: string, item: Item, w: RowWrite) {
    match w
    case Claim(_, _, _) => item.status == StateOfTask(md5, Pending, taskId) && item.owner == NO_OWNER
    case Refresh(a, _) => item.status == StateOfTask(md5, Processing, taskId) && item.owner == a
    case Finish(a) => item.status == StateOfTask(md5, Processing, taskId) && item.owner == a
    case Retry(_) => item.status == StateOfTask(md5, Processing, taskId)
    case Fail => true
    case Cancel => true
  }

  function Update(md5: Hash, taskId: string, item: Item, w: RowWrite): Item {
    match w
    case Claim(a, hb, h) => item.(owner := a, status := StateOfTask(md5, Processing, taskId), heartbeat := hb, handle := h)
    case Refresh(_, hb) => item.(heartbeat := hb)
    case Finish(_) => item.(status := StateOfTask(md5, Finished, taskId))
    case Retry(n) => item.(owner := NO_OWNER, status := StateOfTask(md5, Pending, taskId), retries := n)
    case Fail => item.(owner := NO_OWNER, status := StateOfTask(md5, Failed, taskId))
    case Cancel => item.(owner := NO_OWNER, status := StateOfTask(md5, Cancelled, taskId))
  }

  /** Each string condition is equivalent to the abstract guard. */
  lemma ConditionIsGuard(md5: Hash, taskId: string, r: Row, w: RowWrite)
    requires r.owner != Some(NO_OWNER) && RealAgent(w)
    ensures Condition(md5, taskId, Encode(md5, taskId, r), w) <==> Guard(r, w)
  {
  }

  lemma UpdateKeepsEncoding(md5: Hash, items: map<string, Item>, table: map<string, Row>, t: string, w: RowWrite)
    requires Encodes(md5, items, table) && t in table && RealAgent(w)
    ensures Encodes(md5, items[t := Update(md5, t, items[t], w)], table[t := Write(table[t], w)])
  {
  }

  /** The item the submit lambda writes for a task, its state computed from the session id it was given. */
  function FreshItem(md5: Hash, session: string, priority: nat): Item {
    Item(session, StateString(Pending, Partition(md5, session)), NO_OWNER, 0, 0, NO_HANDLE, priority)
  }

  /**
    An agent can claim a freshly submitted task exactly when the partition of the
    session parsed from the task id is that of the submitted session.
   */
  lemma FreshItemClaimable(md5: Hash, session: string, priority: nat, taskId: string, a: AgentId, hb: int, h: Handle)
    ensures Condition(md5, taskId, FreshItem(md5, session, priority), Claim(a, hb, h)) <==>
            Partition(md5, SessionOf(taskId)) == Partition(md5, session)
    ensures FreshItem(md5, session, priority) == Encode(md5, taskId, FreshRow(session, priority)) <==>
            Partition(md5, SessionOf(taskId)) == Partition(md5, session)
  {
    StateStringInjective(Pending, Partition(md5, SessionOf(taskId)), Pending, Partition(md5, session));
  }

  /** So it is for every id the connector constructs from a session without underscores. */
  lemma ConstructedIdsAreClaimable(md5: Hash, session: string, priority: nat, i: nat)
    requires '_' !in session
    ensures FreshItem(md5, session, priority) == Encode(md5, TaskId(session, i), FreshRow(session, priority))
  {
    SessionRoundTrip(session, i);
  }

  // ---- which calls an item accepts next ----

  /** The condition of each call on an item in a given state: the state decides, and the owner for a refresh or a finish. */
  lemma ConditionsByState(md5: Hash, taskId: string, item: Item, status: Status, a: AgentId, hb: int, h: Handle, n: nat)
    requires item.status == StateOfTask(md5, status, taskId)
    ensures Condition(md5, taskId, item, Claim(a, hb, h)) <==> status == Pending && item.owner == "None"
    ensures Condition(md5, taskId, item, Refresh(a, hb)) <==> status == Processing && item.owner == a
    ensures Condition(md5, taskId, item, Finish(a)) <==> status == Processing && item.owner == a
    ensures Condition(md5, taskId, item, Retry(n)) <==> status == Processing
  {
    StateStringInjective(status, Partition(md5, SessionOf(taskId)), Pending, Partition(md5, SessionOf(taskId)));
    StateStringInjective(status, Partition(md5, SessionOf(taskId)), Processing, Partition(md5, SessionOf(taskId)));
  }

  /** After an accepted claim nobody can claim; its owner and nobody else can refresh and finish; and it can be retried. */
  lemma AfterClaim(md5: Hash, taskId: string, item: Item, w: RowWrite, b: AgentId, hb: int, h: Handle, n: nat)
    requires w.Claim? && Condition(md5, taskId, item, w)
    ensures var next := Update(md5, taskId, item, w);
      && next.status == "processing" + Decimal(Partition(md5, SessionOf(taskId)))
      && next.owner == w.agent && next.heartbeat == w.heartbeat && next.handle == w.handle && next.retries == item.retries
      && !Condition(md5, taskId, next, Claim(b, hb, h))
      && (Condition(md5, taskId, next, Refresh(b, hb)) <==> b == w.agent)
      && (Condition(md5, taskId, next, Finish(b)) <==> b == w.agent)
      && Condition(md5, taskId, next, Retry(n))
  {
    ConditionsByState(md5, taskId, Update(md5, taskId, item, w), Processing, b, hb, h, n);
  }

  /** A refresh is accepted from the owner only; it moves the heartbeat, so the item is live until then, and nothing else. */
  lemma AfterRefresh(md5: Hash, taskId: string, items: map<string, Item>, w: RowWrite, b: AgentId, now: int)
    requires w.Refresh? && taskId in items && Condition(md5, taskId, items[taskId], w)
    ensures Condition(md5, taskId, items[taskId], Refresh(b, w.heartbeat)) <==> b == w.agent
    ensures var next := Update(md5, taskId, items[taskId], w);
      && next.heartbeat == w.heartbeat && next == items[taskId].(heartbeat := next.heartbeat)
      && (taskId in LiveIndex(items[taskId := next], Partition(md5, SessionOf(taskId)), now) <==> w.heartbeat > now)
      && (taskId in ExpiredIndex(items[taskId := next], Partition(md5, SessionOf(taskId)), now) <==> w.heartbeat < now)
  {
  }

  /** After an accepted retry the item has the new count and can be claimed by anyone, and nothing else can be done to it. */
  lemma AfterRetry(md5: Hash, taskId: string, item: Item, w: RowWrite, b: AgentId, hb: int, h: Handle, n: nat)
    requires w.Retry? && Condition(md5, taskId, item, w)
    ensures var next := Update(md5, taskId, item, w);
      && next.status == "pending" + Decimal(Partition(md5, SessionOf(taskId))) && next.owner == "None"
      && next.retries == w.retries && next.handle == item.handle && next.heartbeat == item.heartbeat
      && Condition(md5, taskId, next, Claim(b, hb, h))
      && !Condition(md5, taskId, next, Refresh(b, hb)) && !Condition(md5, taskId, next, Finish(b)) && !Condition(md5, taskId, next, Retry(n))
  {
    ConditionsByState(md5, taskId, Update(md5, taskId, item, w), Pending, b, hb, h, n);
  }

  /** After a finish, a failure or a cancellation no conditional write is accepted any more. */
  lemma AfterEnd(md5: Hash, taskId: string, item: Item, w: RowWrite, b: AgentId, hb: int, h: Handle, n: nat)
    requires w.Finish? || w.Fail? || w.Cancel?
    ensures var next := Update(md5, taskId, item, w);
      && next.status == (if w.Finish? then "finished" else if w.Fail? then "failed" else "cancelled") + Decimal(Partition(md5, SessionOf(taskId)))
      && next.owner == (if w.Finish? then item.owner else "None") && next.retries == item.retries && next.handle == item.handle
      && !Condition(md5, taskId, next, Claim(b, hb, h)) && !Condition(md5, taskId, next, Refresh(b, hb))
      && !Condition(md5, taskId, next, Finish(b)) && !Condition(md5, taskId, next, Retry(n))
  {
    var status := if w.Finish? then Finished else if w.Fail? then Failed else Cancelled;
    ConditionsByState(md5, taskId, Update(md5, taskId, item, w), status, b, hb, h, n);
  }

  // ---- index queries ----

  /** gsi_session_index: the items of a session in a state. */
  function SessionIndex(md5: Hash, items: map<string, Item>, session: string, status: Status): set<string> {
    set t | t in items && items[t].session == session && items[t].status == StateString(status, Partition(md5, session))
  }

  /** gsi_ttl_index: the processing items of one partition whose heartbeat is after `now`. */
  function LiveIndex(items: map<string, Item>, partition: nat, now: int): set<string> {
    set t | t in items && items[t].status == StateString(Processing, partition) && items[t].heartbeat > now
  }

  /** The same index, heartbeat before `now`. */
  function ExpiredIndex(items: map<string, Item>, partition: nat, now: int): set<string> {
    set t | t in items && items[t].status == StateString(Processing, partition) && items[t].heartbeat < now
  }

  /** Every task id starts with the session its row names. */
  ghost predicate SessionsParse(table: map<string, Row>) {
    forall t :: t in table ==> SessionOf(t) == table[t].session
  }

  function RowsInState(table: map<string, Row>, session: string, status: Status): set<string> {
    set t | t in table && table[t].session == session && table[t].status == status
  }

  lemma SessionIndexDecodes(md5: Hash, items: map<string, Item>, table: map<string, Row>, session: string, status: Status)
    requires Encodes(md5, items, table) && SessionsParse(table)
    ensures SessionIndex(md5, items, session, status) == RowsInState(table, session, status)
  {
  }

  lemma LiveIndexDecodes(md5: Hash, items: map<string, Item>, table: map<string, Row>, partition: nat, now: int)
    requires Encodes(md5, items, table)
    ensures LiveIndex(items, partition, now) ==
      set t | t in table && table[t].status.Processing? && table[t].heartbeat > now && Partition(md5, SessionOf(t)) == partition
    ensures ExpiredIndex(items, partition, now) ==
      set t | t in table && table[t].status.Processing? && table[t].heartbeat < now && Partition(md5, SessionOf(t)) == partition
  {
    forall t | t in table
      ensures items[t].status == StateString(Processing, partition) <==>
              table[t].status.Processing? && Partition(md5, SessionOf(t)) == partition
    {
      StateStringInjective(table[t].status, Partition(md5, SessionOf(t)), Processing, partition);
    }
  }

  const RETRIEVE_EXPIRED_TASKS_LIMIT: nat := 200

  /** One page of the expired query: at most the limit, and everything when the page is not full. */
  ghost predicate ExpiredPage(items: map<string, Item>, partition: nat, now: int, page: seq<string>) {
    && NoDuplicates(page) && |page| <= RETRIEVE_EXPIRED_TASKS_LIMIT
    && Elements(page) <= ExpiredIndex(items, partition, now)
    && (|page| < RETRIEVE_EXPIRED_TASKS_LIMIT ==> Elements(page) == ExpiredIndex(items, partition, now))
  }

  /** What a page lists has expired, and a page that is not full lists every expired task of the partition. */
  lemma ExpiredPageDecodes(md5: Hash, items: map<string, Item>, table: map<string, Row>, partition: nat, now: int, page: seq<string>)
    requires Encodes(md5, items, table) && ExpiredPage(items, partition, now, page)
    ensures var expired := set t | t in table && table[t].status.Processing? && table[t].heartbeat < now && Partition(md5, SessionOf(t)) == partition;
      Elements(page) <= expired && (|page| < RETRIEVE_EXPIRED_TASKS_LIMIT ==> Elements(page) == expired)
  {
    LiveIndexDecodes(md5, items, table, partition, now);
  }

  /** What one conditional update does to the table the items encode. */
  ghost predicate Updated(md5: Hash, table: map<string, Row>, t: string, w: RowWrite, throttled: bool,
                          outcome: Outcome, items: map<string, Item>) {
    if throttled then outcome == Throttled && Encodes(md5, items, table)
    else if t in table && Guard(table[t], w) then outcome == Accepted && Encodes(md5, items, table[t := Write(table[t], w)])
    else outcome == ConditionFailed && Encodes(md5, items, table)
  }

  class StateTable {
    const md5: Hash
    var items: map<string, Item>

    constructor (md5: Hash)
      ensures this.md5 == md5 && items == map[] && Encodes(md5, items, map[])
    {
      this.md5 := md5;
      items := map[];
    }

    /**
      update_item: apply `w` if its condition holds; an item that is missing fails
      every condition.  `rows` is the abstract table the caller knows to be stored.
     */
    method UpdateItem(taskId: string, w: RowWrite, throttled: bool, ghost rows: map<string, Row>) returns (outcome: Outcome)
      requires !w.Fail? && !w.Cancel?
      modifies this
      ensures outcome == if throttled then Throttled
                         else if taskId in old(items) && Condition(md5, taskId, old(items)[taskId], w) then Accepted else ConditionFailed
      ensures items == if outcome.Accepted? then old(items)[taskId := Update(md5, taskId, old(items)[taskId], w)] else old(items)
      ensures RealAgent(w) && Encodes(md5, old(items), rows) ==> Updated(md5, rows, taskId, w, throttled, outcome, items)
    {
      if RealAgent(w) && Encodes(md5, items, rows) && taskId in rows {
        ConditionIsGuard(md5, taskId, rows[taskId], w);
        UpdateKeepsEncoding(md5, items, rows, taskId, w);
      }
      if throttled {
        return Throttled;
      }
      if taskId !in items || !Condition(md5, taskId, items[taskId], w) {
        return ConditionFailed;
      }
      items := items[taskId := Update(md5, taskId, items[taskId], w)];
      return Accepted;
    }

    /** __finalize_tasks_state: no condition, so a missing item is created with a status and an owner only. */
    method Finalize(taskId: string, w: RowWrite, throttled: bool, ghost rows: map<string, Row>) returns (outcome: Outcome)
      requires w.Fail? || w.Cancel?
      modifies this
      ensures outcome == if throttled then Throttled else Accepted
      ensures throttled ==> items == old(items)
      ensures !throttled ==> items.Keys == old(items).Keys + {taskId} && items[taskId].owner == NO_OWNER
      ensures !throttled ==> items[taskId].status == StateOfTask(md5, if w.Fail? then Failed else Cancelled, taskId)
      ensures forall t :: t in old(items) && t != taskId ==> items[t] == old(items)[t]
      ensures Encodes(md5, old(items), rows) && taskId in rows ==> Updated(md5, rows, taskId, w, throttled, outcome, items)
    {
      if Encodes(md5, items, rows) && taskId in rows {
        UpdateKeepsEncoding(md5, items, rows, taskId, w);
      }
      if throttled {
        return Throttled;
      }
      var item := if taskId in items then items[taskId] else Item("", "", "", 0, 0, "", 0);
      items := items[taskId := Update(md5, taskId, item, w)];
      return Accepted;
    }

    /** put_item inside a batch: the item replaces whatever was there. */
    method PutItem(taskId: string, session: string, priority: nat, ghost rows: map<string, Row>)
      modifies this
      ensures items == old(items)[taskId := FreshItem(md5, session, priority)]
      ensures Encodes(md5, old(items), rows) && Partition(md5, SessionOf(taskId)) == Partition(md5, session) ==>
                Encodes(md5, items, rows[taskId := FreshRow(session, priority)])
    {
      FreshItemClaimable(md5, session, priority, taskId, "", 0, "");
      items := items[taskId := FreshItem(md5, session, priority)];
    }

    /** is_task_has_been_cancelled: a failed read counts as not cancelled. */
    method HasBeenCancelled(taskId: string, throttled: bool, ghost rows: map<string, Row>) returns (cancelled: bool)
      ensures Encodes(md5, items, rows) ==> (cancelled <==> !throttled && taskId in rows && rows[taskId].status.Cancelled?)
    {
      if throttled || taskId !in items {
        return false;
      }
      cancelled := StartsWith(items[taskId].status, StateName(Cancelled));
      if Encodes(md5, items, rows) {
        StartsWithCancelledDecodes(rows[taskId].status, Partition(md5, SessionOf(taskId)));
      }
    }

    /**
      get_tasks_by_state: follow LastEvaluatedKey page by page.  `pages` is how the
      service splits the index result; every page but the last carries a key.
     */
    method GetTasksByState(session: string, status: Status, pages: seq<seq<string>>, ghost rows: map<string, Row>) returns (found: seq<string>)
      requires pages != [] && Lists(Flatten(pages), SessionIndex(md5, items, session, status))
      ensures Lists(found, SessionIndex(md5, items, session, status))
      ensures Encodes(md5, items, rows) && SessionsParse(rows) ==> Elements(found) == RowsInState(rows, session, status)
    {
      found := FollowPages(pages);
      if Encodes(md5, items, rows) && SessionsParse(rows) {
        SessionIndexDecodes(md5, items, rows, session, status);
      }
    }
  }

  /** Follow LastEvaluatedKey until a page carries none. */
  method FollowPages(pages: seq<seq<string>>) returns (found: seq<string>)
    requires pages != []
    ensures found == Flatten(pages)
  {
    found := [];
    var next := 0;
    var done := false;
    while !done
      invariant next <= |pages| && found == Flatten(pages[..next])
      invariant done ==> next == |pages|
      invariant !done ==> next < |pages|
      decreases |pages| - next, !done
    {
      FlattenSnoc(pages[..next], pages[next]);
      assert pages[..next + 1] == pages[..next] + [pages[next]];
      found := found + pages[next];
      done := next + 1 == |pages|;  // this page carries no LastEvaluatedKey
      next := next + 1;
    }
    assert pages[..next] == pages;
  }
}
