/**
  A run in which a task is lost: one checker, a current listing, and one row read that
  is stale about whether the retries are used up.
 */
module LosingTasks {
  import opened Prelude
  import opened TaskStates
  import opened Rows
  import opened Protocol
  import opened Safety
  import opened Delivery
  import opened Discipline

  const LOST: Task := "s_0"
  const WORKER: AgentId := "a"

  /** A handle per claim, each longer than the one before. */
  function NthHandle(n: nat): Handle {
    if n == 0 then "h" else NthHandle(n - 1) + "h"
  }

  lemma {:induction false} NthHandleIs(n: nat)
    ensures |NthHandle(n)| == n + 1 && NthHandle(n)[0] == 'h'
  {
    if n > 0 {
      NthHandleIs(n - 1);
    }
  }

  ghost predicate RowIs(r: Row, status: Status, n: nat) {
    && r.status == status && r.retries == n && (status.Pending? ==> r.owner == None)
    && Version(n, r.handle) in r.versions && (n > 0 ==> exists v :: v in r.versions && v.retries == n - 1)
  }

  /**
    The one task is in this state after n retries, its checker stands at `pc`, at most
    `claims` handles were issued, and a task being processed has expired by `later`.
   */
  ghost predicate SceneBy(s: State, status: Status, n: nat, claims: nat, pc: CheckerPc, later: int) {
    && LOST in s.table && LOST in s.sent && CheckerAt(s, TTL) == pc
    && (forall h :: h in s.issued ==> |h| <= claims)
    && RowIs(s.table[LOST], status, n)
    && (status.Processing? ==> s.table[LOST].heartbeat < later && s.table[LOST].handle in s.issued && s.issued[s.table[LOST].handle] == LOST)
  }

  ghost predicate Scene(s: State, status: Status, n: nat, claims: nat, pc: CheckerPc) {
    SceneBy(s, status, n, claims, pc, s.clock)
  }

  // ---- the steps, one by one ----

  lemma Lists(s: State, n: nat, claims: nat)
    requires Scene(s, Processing, n, claims, Resting)
    ensures var e := ListExpired(TTL, [LOST]);
      Enabled(s, e) && Disciplined(s, e) && Scene(Apply(s, e), Processing, n, claims, Protocol.Listing([LOST])) && Apply(s, e).queue == s.queue
  {
  }

  lemma ReadsCurrent(s: State, n: nat, claims: nat)
    requires Scene(s, Processing, n, claims, Protocol.Listing([LOST]))
    ensures var v := Version(n, s.table[LOST].handle);
      && Enabled(s, ReadRow(TTL, v)) && Disciplined(s, ReadRow(TTL, v))
      && Scene(Apply(s, ReadRow(TTL, v)), Processing, n, claims, Protocol.Holding(LOST, v, [])) && Apply(s, ReadRow(TTL, v)).queue == s.queue
  {
    assert [LOST][1..] == [];
  }

  lemma RetriesIt(s: State, n: nat, claims: nat, v: Version)
    requires Scene(s, Processing, n, claims, Protocol.Holding(LOST, v, [])) && v.retries < MAX_RETRIES
    ensures var e := RetryTask(TTL);
      && Enabled(s, e) && Disciplined(s, e) && Apply(s, e).queue == s.queue && LOST in Apply(s, e).table && LOST in Apply(s, e).sent
      && Apply(s, e).table[LOST].status.Pending?
      && (v.retries == n ==> Scene(Apply(s, e), Pending, n + 1, claims, Protocol.Listing([])))
  {
    var s' := Apply(s, RetryTask(TTL));
    assert Version(n, s.table[LOST].handle) in s'.table[LOST].versions;
  }

  lemma Stops(s: State, status: Status, n: nat, claims: nat, pc: CheckerPc)
    requires Scene(s, status, n, claims, pc)
    ensures var e := CheckerStop(TTL);
      Enabled(s, e) && Disciplined(s, e) && Scene(Apply(s, e), status, n, claims, Resting) && Apply(s, e).queue == s.queue
  {
  }

  lemma Restarts(s: State, n: nat, claims: nat)
    requires Scene(s, Pending, n, claims, Resting)
    ensures var e := AgentStop(WORKER);
      && Enabled(s, e) && Disciplined(s, e) && Scene(Apply(s, e), Pending, n, claims, Resting)
      && Apply(s, e).queue == s.queue && Pc(Apply(s, e), WORKER).Idle?
  {
  }

  lemma Receives(s: State, n: nat, claims: nat)
    requires Scene(s, Pending, n, claims, Resting) && Pc(s, WORKER).Idle? && LOST in s.queue
    ensures var e := Receive(WORKER, LOST, NthHandle(claims));
      && Enabled(s, e) && Disciplined(s, e) && Scene(Apply(s, e), Pending, n, claims + 1, Resting)
      && Apply(s, e).queue == s.queue && Pc(Apply(s, e), WORKER) == Protocol.Received(LOST, NthHandle(claims))
      && NthHandle(claims) in Apply(s, e).issued && Apply(s, e).issued[NthHandle(claims)] == LOST
  {
    NthHandleIs(claims);
  }

  /** A claim that expires ten seconds ahead. */
  lemma ClaimsIt(s: State, n: nat, claims: nat, h: Handle)
    requires Scene(s, Pending, n, claims, Resting) && Pc(s, WORKER) == Protocol.Received(LOST, h)
    requires h in s.issued && s.issued[h] == LOST
    ensures var e := ClaimTask(WORKER, s.clock + 10);
      Enabled(s, e) && Disciplined(s, e) && SceneBy(Apply(s, e), Processing, n, claims, Resting, s.clock + 11) && Apply(s, e).queue == s.queue
  {
    var s' := Apply(s, ClaimTask(WORKER, s.clock + 10));
    assert s.table[LOST].versions <= s'.table[LOST].versions;
  }

  lemma DeletesIt(s: State, claims: nat, v: Version)
    requires Scene(s, Processing, MAX_RETRIES, claims, Protocol.Holding(LOST, v, [])) && v.retries == MAX_RETRIES
    requires v.handle in s.issued && s.issued[v.handle] == LOST
    ensures var e := DeleteExhausted(TTL);
      && Enabled(s, e) && Disciplined(s, e) && LOST !in Apply(s, e).queue
      && Scene(Apply(s, e), Processing, MAX_RETRIES, claims, Protocol.Failing(LOST, []))
  {
  }

  lemma Expires(s: State, n: nat, claims: nat)
    requires SceneBy(s, Processing, n, claims, Resting, s.clock + 11)
    ensures var e := Tick(11);
      Enabled(s, e) && Disciplined(s, e) && Scene(Apply(s, e), Processing, n, claims, Resting) && Apply(s, e).queue == s.queue
  {
  }

  // ---- the run ----

  /** The agent starts again and receives the message. */
  lemma Offered(states: seq<State>, events: seq<Event>, n: nat, claims: nat) returns (states': seq<State>, events': seq<Event>)
    requires DisciplinedRun(states, events) && Scene(states[|events|], Pending, n, claims, Resting) && LOST in states[|events|].queue
    ensures DisciplinedRun(states', events') && Scene(states'[|events'|], Pending, n, claims + 1, Resting)
    ensures var s := states'[|events'|];
      && LOST in s.queue && Pc(s, WORKER) == Protocol.Received(LOST, NthHandle(claims))
      && NthHandle(claims) in s.issued && s.issued[NthHandle(claims)] == LOST
  {
    Restarts(states[|events|], n, claims);
    states', events' := ExtendAgreeing(states, events, AgentStop(WORKER), RightAboutUsedUp);
    Receives(states'[|events'|], n, claims);
    states', events' := ExtendAgreeing(states', events', Receive(WORKER, LOST, NthHandle(claims)), RightAboutUsedUp);
  }

  /** From pending on the queue to processing and expired. */
  lemma Claimed(states: seq<State>, events: seq<Event>, n: nat, claims: nat) returns (states': seq<State>, events': seq<Event>)
    requires DisciplinedRun(states, events) && Scene(states[|events|], Pending, n, claims, Resting) && LOST in states[|events|].queue
    ensures DisciplinedRun(states', events') && Scene(states'[|events'|], Processing, n, claims + 1, Resting)
    ensures LOST in states'[|events'|].queue
  {
    states', events' := Offered(states, events, n, claims);
    var claim := ClaimTask(WORKER, states'[|events'|].clock + 10);
    ClaimsIt(states'[|events'|], n, claims + 1, NthHandle(claims));
    states', events' := ExtendAgreeing(states', events', claim, RightAboutUsedUp);
    Expires(states'[|events'|], n, claims + 1);
    states', events' := ExtendAgreeing(states', events', Tick(11), RightAboutUsedUp);
  }

  /** The checker lists and reads the expired task. */
  lemma Held(states: seq<State>, events: seq<Event>, n: nat, claims: nat) returns (states': seq<State>, events': seq<Event>, v: Version)
    requires DisciplinedRun(states, events) && Scene(states[|events|], Processing, n, claims, Resting)
    ensures DisciplinedRun(states', events') && Scene(states'[|events'|], Processing, n, claims, Protocol.Holding(LOST, v, []))
    ensures states'[|events'|].queue == states[|events|].queue && v.retries == n
    ensures v.handle == states'[|events'|].table[LOST].handle
  {
    Lists(states[|events|], n, claims);
    states', events' := ExtendAgreeing(states, events, ListExpired(TTL, [LOST]), RightAboutUsedUp);
    v := Version(n, states'[|events'|].table[LOST].handle);
    ReadsCurrent(states'[|events'|], n, claims);
    states', events' := ExtendAgreeing(states', events', ReadRow(TTL, v), RightAboutUsedUp);
  }

  /** One timeout: from processing back to pending with one retry more. */
  lemma TimedOut(states: seq<State>, events: seq<Event>, n: nat, claims: nat) returns (states': seq<State>, events': seq<Event>)
    requires DisciplinedRun(states, events) && n < MAX_RETRIES
    requires Scene(states[|events|], Processing, n, claims, Resting) && LOST in states[|events|].queue
    ensures DisciplinedRun(states', events') && Scene(states'[|events'|], Pending, n + 1, claims, Resting)
    ensures LOST in states'[|events'|].queue
  {
    var v;
    states', events', v := Held(states, events, n, claims);
    RetriesIt(states'[|events'|], n, claims, v);
    states', events' := ExtendAgreeing(states', events', RetryTask(TTL), RightAboutUsedUp);
    Stops(states'[|events'|], Pending, n + 1, claims, Protocol.Listing([]));
    states', events' := ExtendAgreeing(states', events', CheckerStop(TTL), RightAboutUsedUp);
  }

  lemma Submitted() returns (states: seq<State>, events: seq<Event>)
    ensures DisciplinedRun(states, events) && Scene(states[|events|], Pending, 0, 0, Resting) && LOST in states[|events|].queue
  {
    var start, put, send := SubmitStart(0, "s", 0, [LOST]), PutRow(0), SendChunk(0, {LOST});
    states, events := ExtendAgreeing([INITIAL], [], start, RightAboutUsedUp);
    states, events := ExtendAgreeing(states, events, put, RightAboutUsedUp);
    assert NextChunk(states[2].submits[0]) == [LOST];
    states, events := ExtendAgreeing(states, events, send, RightAboutUsedUp);
    assert states[3].table == map[LOST := FreshRow("s", 0)];
  }

  lemma {:induction false} RetriedTimes(n: nat) returns (states: seq<State>, events: seq<Event>)
    requires n <= MAX_RETRIES
    ensures DisciplinedRun(states, events) && Scene(states[|events|], Processing, n, n + 1, Resting) && LOST in states[|events|].queue
  {
    if n == 0 {
      states, events := Submitted();
    } else {
      states, events := RetriedTimes(n - 1);
      states, events := TimedOut(states, events, n - 1, n);
    }
    states, events := Claimed(states, events, n, n);
  }

  /** The retries are used up: the message is deleted, and the checker stops before it marks the task failed. */
  lemma Exhausted() returns (states: seq<State>, events: seq<Event>)
    ensures DisciplinedRun(states, events) && Scene(states[|events|], Processing, MAX_RETRIES, MAX_RETRIES + 1, Protocol.Listing([LOST]))
    ensures LOST !in states[|events|].queue
  {
    var n, claims := MAX_RETRIES, MAX_RETRIES + 1;
    states, events := RetriedTimes(n);
    var v;
    states, events, v := Held(states, events, n, claims);
    InvInEveryState(states, events, |events|);
    DeletesIt(states[|events|], claims, v);
    states, events := ExtendAgreeing(states, events, DeleteExhausted(TTL), RightAboutUsedUp);
    Stops(states[|events|], Processing, n, claims, Protocol.Failing(LOST, []));
    states, events := ExtendAgreeing(states, events, CheckerStop(TTL), RightAboutUsedUp);
    Lists(states[|events|], n, claims);
    states, events := ExtendAgreeing(states, events, ListExpired(TTL, [LOST]), RightAboutUsedUp);
  }

  lemma ReadsStale(s: State, claims: nat) returns (stale: Version)
    requires Scene(s, Processing, MAX_RETRIES, claims, Protocol.Listing([LOST]))
    ensures stale.retries == MAX_RETRIES - 1
    ensures var e := ReadRow(TTL, stale);
      && Enabled(s, e) && OneListing(s, e) && Reads(s, e, MAX_RETRIES) && Apply(s, e).queue == s.queue
      && Scene(Apply(s, e), Processing, MAX_RETRIES, claims, Protocol.Holding(LOST, stale, []))
  {
    stale :| stale in s.table[LOST].versions && stale.retries == MAX_RETRIES - 1;
    assert [LOST][1..] == [];
  }

  /**
    The next read is stale: it shows one retry less than the row has, so the task goes
    back to pending although its message is gone.  Every other step of the run is
    disciplined, and this one is the only read that is not; the losing step is the last.
   */
  lemma StaleReadLosesTask() returns (states: seq<State>, events: seq<Event>, m: nat)
    ensures Run(states, events) && m < |events| && OneListing(states[m], events[m])
    ensures forall i :: 0 <= i < |events| && i != m ==> Disciplined(states[i], events[i])
    ensures Reads(states[m], events[m], MAX_RETRIES) && events[m].version.retries == MAX_RETRIES - 1
    ensures Loses(states[|events| - 1], events[|events| - 1])
    ensures var s := states[|events|]; LOST in s.table && LOST in s.sent && NeedsMessage(s.table[LOST]) && LOST !in s.queue
  {
    var before, calm := Exhausted();
    var s, claims := before[|calm|], MAX_RETRIES + 1;
    m := |calm|;
    var stale := ReadsStale(s, claims);
    var read, retry := ReadRow(TTL, stale), RetryTask(TTL);
    var events1;
    states, events1 := Extend(before, calm, read);
    RetriesIt(Apply(s, read), MAX_RETRIES, claims, stale);
    states, events := Extend(states, events1, retry);
    forall i | 0 <= i < |events| && i != m ensures Disciplined(states[i], events[i]) {
      if i < m {
        assert Disciplined(before[i], calm[i]);
      }
    }
  }
}
