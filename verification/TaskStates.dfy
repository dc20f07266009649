/**
  Task states and the strings that carry them: the `task_status` attribute is a
  state name followed by a partition number, and the partition is derived from
  the session id at the front of the task id.  md5 is an uninterpreted function
  from session ids to natural numbers, passed as `md5`.
 */
module TaskStates {

  datatype Status = Pending | Processing | Finished | Failed | Cancelled

  predicate Terminal(s: Status) {
    s.Finished? || s.Failed? || s.Cancelled?
  }

  const MAX_STATE_PARTITIONS: nat := 32

  type Hash = string -> nat

  function StateName(s: Status): string {
    match s
    case Cancelled => "cancelled"
    case Pending => "pending"
    case Failed => "failed"
    case Finished => "finished"
    case Processing => "processing"
  }

  predicate IsDigit(c: char) { '0' <= c <= '9' }

  function Digit(n: nat): char
    requires n < 10
  {
    '0' + n as char
  }

  /** Python's str(n) for a natural number. */
  function Decimal(n: nat): string {
    if n < 10 then [Digit(n)] else Decimal(n / 10) + [Digit(n % 10)]
  }

  function Partition(md5: Hash, session: string): nat {
    md5(session) % MAX_STATE_PARTITIONS
  }

  function StateString(s: Status, partition: nat): string {
    StateName(s) + Decimal(partition)
  }

  function TaskId(session: string, i: nat): string {
    session + "_" + Decimal(i)
  }

  /** task_id.split("_")[0] */
  function SessionOf(taskId: string): string {
    if taskId == [] || taskId[0] == '_' then [] else [taskId[0]] + SessionOf(taskId[1..])
  }

  predicate StartsWith(s: string, prefix: string) {
    |prefix| <= |s| && s[..|prefix|] == prefix
  }

  // ---- decimals ----

  lemma {:induction false} DecimalDigits(n: nat)
    ensures |Decimal(n)| > 0
    ensures forall k :: 0 <= k < |Decimal(n)| ==> IsDigit(Decimal(n)[k])
  {
    if n >= 10 {
      DecimalDigits(n / 10);
    }
  }

  lemma {:induction false} DecimalInjective(m: nat, n: nat)
    requires Decimal(m) == Decimal(n)
    ensures m == n
  {
    var dm, dn := Decimal(m), Decimal(n);
    DecimalDigits(m / 10);
    DecimalDigits(n / 10);
    assert dm[|dm| - 1] == Digit(m % 10) && dn[|dn| - 1] == Digit(n % 10);
    assert m % 10 == n % 10;
    if m >= 10 && n >= 10 {
      assert dm[..|dm| - 1] == Decimal(m / 10) && dn[..|dn| - 1] == Decimal(n / 10);
      DecimalInjective(m / 10, n / 10);
    }
  }

  /** A text ending in a run of digits splits in one way into a digit-free-ended head and the run. */
  lemma SplitAtDigits(a: string, m: nat, b: string, n: nat)
    requires a == [] || !IsDigit(a[|a| - 1])
    requires b == [] || !IsDigit(b[|b| - 1])
    requires a + Decimal(m) == b + Decimal(n)
    ensures a == b && m == n
  {
    DecimalDigits(m);
    DecimalDigits(n);
    var whole := a + Decimal(m);
    assert whole == b + Decimal(n);
    assert forall k :: |a| <= k < |whole| ==> IsDigit(whole[k]);
    assert forall k :: |b| <= k < |whole| ==> IsDigit(whole[k]);
    assert a != [] ==> !IsDigit(whole[|a| - 1]);
    assert b != [] ==> !IsDigit(whole[|b| - 1]);
    assert a == whole[..|a|] == b;
    assert Decimal(m) == whole[|a|..] == Decimal(n);
    DecimalInjective(m, n);
  }

  // ---- main results on the encodings ----

  lemma StateStringInjective(s: Status, p: nat, t: Status, q: nat)
    ensures StateString(s, p) == StateString(t, q) <==> s == t && p == q
  {
    if StateString(s, p) == StateString(t, q) {
      SplitAtDigits(StateName(s), p, StateName(t), q);
      assert StateName(s)[0] == StateName(t)[0] && |StateName(s)| == |StateName(t)|;
      assert StateName(s)[1] == StateName(t)[1];
    }
  }

  /** The agent's startswith("cancelled") test decodes exactly the cancelled state. */
  lemma StartsWithCancelledDecodes(s: Status, p: nat)
    ensures StartsWith(StateString(s, p), StateName(Cancelled)) <==> s == Cancelled
  {
    var text := StateString(s, p);
    DecimalDigits(p);
    assert text[0] == StateName(s)[0];
    assert StartsWith(text, StateName(Cancelled)) ==> text[0] == StateName(Cancelled)[0];
    if s == Cancelled {
      assert text[..|StateName(Cancelled)|] == StateName(Cancelled);
    }
  }

  lemma {:induction false} SessionOfPrefix(session: string, rest: string)
    requires '_' !in session
    ensures SessionOf(session + "_" + rest) == session
  {
    var id := session + "_" + rest;
    if session != [] {
      assert id[0] == session[0] && id[1..] == session[1..] + "_" + rest;
      SessionOfPrefix(session[1..], rest);
    }
  }

  lemma {:induction false} SessionOfHasNoUnderscore(taskId: string)
    ensures '_' !in SessionOf(taskId)
  {
    if taskId != [] && taskId[0] != '_' {
      SessionOfHasNoUnderscore(taskId[1..]);
    }
  }

  /** The session parsed from a constructed task id is the original exactly when it has no underscore. */
  lemma SessionRoundTrip(session: string, i: nat)
    ensures SessionOf(TaskId(session, i)) == session <==> '_' !in session
  {
    SessionOfHasNoUnderscore(TaskId(session, i));
    if '_' !in session {
      SessionOfPrefix(session, Decimal(i));
    }
  }

  /** Constructed task ids never collide, whatever the sessions contain. */
  lemma TaskIdInjective(session: string, i: nat, other: string, j: nat)
    ensures TaskId(session, i) == TaskId(other, j) <==> session == other && i == j
  {
    if TaskId(session, i) == TaskId(other, j) {
      SplitAtDigits(session + "_", i, other + "_", j);
      assert session == (session + "_")[..|session|];
      assert other == (other + "_")[..|other|];
    }
  }
}
