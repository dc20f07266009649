/**
  Rows of the state table and the six writes that change them.  Each write is a
  conditional update: `Guard` is its ConditionExpression and `Write` its
  UpdateExpression.  The two finalizing writes, Fail and Cancel, are unconditional.

  The last two fields of a row are history variables: how often the row was claimed,
  and every (retries, handle) pair it has held, which is what an eventually
  consistent read may return.
 */
module Rows {
  import opened Prelude
  import opened TaskStates

  type AgentId = string
  type Handle = string

  const NO_HANDLE: Handle := "None"
  const MAX_RETRIES: nat := 5

  datatype Version = Version(retries: nat, handle: Handle)

  datatype Row = Row(
    session: string, status: Status, owner: Option<AgentId>, retries: nat,
    heartbeat: int, handle: Handle, priority: nat,
    claims: nat, versions: set<Version>)

  datatype RowWrite =
    | Claim(agent: AgentId, heartbeat: int, handle: Handle)
    | Refresh(agent: AgentId, heartbeat: int)
    | Finish(agent: AgentId)
    | Retry(retries: nat)
    | Fail
    | Cancel

  function FreshRow(session: string, priority: nat): Row {
    Row(session, Pending, None, 0, 0, NO_HANDLE, priority, 0, {Version(0, NO_HANDLE)})
  }

  predicate Guard(r: Row, w: RowWrite) {
    match w
    case Claim(_, _, _) => r.status == Pending && r.owner == None
    case Refresh(a, _) => r.status == Processing && r.owner == Some(a)
    case Finish(a) => r.status == Processing && r.owner == Some(a)
    case Retry(_) => r.status == Processing
    case Fail => true
    case Cancel => true
  }

  function Write(r: Row, w: RowWrite): Row {
    match w
    case Claim(a, hb, h) =>
      r.(status := Processing, owner := Some(a), heartbeat := hb, handle := h,
         claims := r.claims + 1, versions := r.versions + {Version(r.retries, h)})
    case Refresh(_, hb) => r.(heartbeat := hb)
    case Finish(_) => r.(status := Finished)
    case Retry(n) =>
      r.(status := Pending, owner := None, retries := n, versions := r.versions + {Version(n, r.handle)})
    case Fail => r.(status := Failed, owner := None)
    case Cancel => r.(status := Cancelled, owner := None)
  }

  /** What every row satisfies in every reachable state. */
  predicate RowOk(r: Row) {
    && (r.owner.Some? <==> r.status.Processing? || r.status.Finished?)
    && r.retries <= MAX_RETRIES
    && Version(r.retries, r.handle) in r.versions
    && (forall v :: v in r.versions ==> v.retries <= MAX_RETRIES)
  }
}
