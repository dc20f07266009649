/**
  Heartbeats: the generator of expiration timestamps, the agent's refresh loop, and
  the timing argument that a live agent is never timed out.

  Clock readings are reals and int(time.time()) is their floor.  `random.randint`
  is a draw from its range, passed in.
 */
module Heartbeat {

  datatype Config = Config(refresh: nat, offset: int, poll: real)

  /** The range of random.randint(refresh, int(refresh * 1.1)). */
  predicate Draw(c: Config, draw: int) {
    c.refresh <= draw <= c.refresh * 11 / 10
  }

  datatype Ttl = Ttl(refresh: int, expiration: int)

  function NextTtl(c: Config, now: real, draw: int): Ttl {
    Ttl(now.Floor + draw, now.Floor + draw + (c.offset - c.refresh))
  }

  /** Whether the poll at `now` refreshes. */
  predicate Due(c: Config, ttl: Ttl, now: real) {
    ttl.refresh == 0 || (ttl.refresh as real) < now + c.poll
  }

  class TTLExpirationGenerator {
    const config: Config
    var nextRefresh: int
    var nextExpiration: int

    constructor (config: Config)
      requires config.refresh < config.offset
      ensures this.config == config && Value() == Ttl(0, 0)
    {
      this.config := config;
      nextRefresh, nextExpiration := 0, 0;
    }

    /** The checked construction: refused, here null, when a timestamp would expire before its refresh. */
    static method Create(config: Config) returns (gen: TTLExpirationGenerator?)
      ensures gen == null <==> config.refresh >= config.offset
      ensures gen != null ==> fresh(gen) && gen.config == config && gen.Value() == Ttl(0, 0)
    {
      if config.refresh >= config.offset {
        return null;
      }
      gen := new TTLExpirationGenerator(config);
    }

    function Value(): Ttl
      reads this
    {
      Ttl(nextRefresh, nextExpiration)
    }

    method GenerateNextTtl(now: real, draw: int) returns (expiration: int)
      requires Draw(config, draw)
      modifies this
      ensures Value() == NextTtl(config, now, draw) && expiration == nextExpiration
      ensures expiration >= now.Floor + config.offset
    {
      nextRefresh := now.Floor + draw;
      nextExpiration := nextRefresh + (config.offset - config.refresh);
      expiration := nextExpiration;
    }
  }

  // ---- one poll of the refresh thread ----

  datatype Answer = Landed | Throttled | Refused

  /** One attempt to write a heartbeat: when it was generated, what was drawn, what the table answered. */
  datatype Attempt = Attempt(at: real, draw: int, answer: Answer)

  datatype RefreshOutcome = NotDue | Refreshed(attempt: Attempt) | Lost | OutOfAttempts

  /** The answer that ends the retry loop. */
  function Settled(attempts: seq<Attempt>): (outcome: RefreshOutcome)
    ensures !outcome.NotDue?
  {
    if attempts == [] then OutOfAttempts
    else match attempts[0].answer
      case Landed => Refreshed(attempts[0])
      case Refused => Lost
      case Throttled => Settled(attempts[1..])
  }

  /** Throttled attempts are followed by the next one; the first other answer decides. */
  lemma {:induction false} SettledByFirst(attempts: seq<Attempt>, k: nat)
    requires k <= |attempts| && forall i :: 0 <= i < k ==> attempts[i].answer == Throttled
    ensures k < |attempts| && attempts[k].answer == Landed ==> Settled(attempts) == Refreshed(attempts[k])
    ensures k < |attempts| && attempts[k].answer == Refused ==> Settled(attempts) == Lost
    ensures k == |attempts| ==> Settled(attempts) == OutOfAttempts
  {
    if k > 0 {
      SettledByFirst(attempts[1..], k - 1);
    }
  }

  /** update_ttl_if_required: retry while throttled, drawing a new timestamp for every attempt. */
  method UpdateTtlIfRequired(gen: TTLExpirationGenerator, now: real, attempts: seq<Attempt>) returns (outcome: RefreshOutcome)
    requires forall k :: 0 <= k < |attempts| ==> Draw(gen.config, attempts[k].draw)
    modifies gen
    ensures outcome == if Due(gen.config, old(gen.Value()), now) then Settled(attempts) else NotDue
    ensures outcome.NotDue? ==> gen.Value() == old(gen.Value())
    ensures outcome.Refreshed? ==> gen.Value() == NextTtl(gen.config, outcome.attempt.at, outcome.attempt.draw)
  {
    if !Due(gen.config, gen.Value(), now) {
      return NotDue;
    }
    var k := 0;
    while k < |attempts|
      invariant k <= |attempts|
      invariant Settled(attempts) == Settled(attempts[k..])
    {
      var expiration := gen.GenerateNextTtl(attempts[k].at, attempts[k].draw);
      match attempts[k].answer {
        case Throttled =>
          assert attempts[k..][1..] == attempts[k + 1..];
          k := k + 1;
        case Landed => return Refreshed(attempts[k]);
        case Refused => return Lost;
      }
    }
    return OutOfAttempts;
  }

  // ---- the life of one claim ----

  /**
    One poll: when it checked, and, if a refresh was due, when the timestamp that
    finally landed was generated, what was drawn for it, and when it landed.  The
    claim itself is beat 0.
   */
  datatype Beat = Beat(check: real, generated: real, draw: int, landed: real)

  /** The generator's value, and so the row's heartbeat, after beat i. */
  function TtlAfter(c: Config, beats: seq<Beat>, i: nat): Ttl
    requires i < |beats|
  {
    if i == 0 || Due(c, TtlAfter(c, beats, i - 1), beats[i].check) then NextTtl(c, beats[i].generated, beats[i].draw)
    else TtlAfter(c, beats, i - 1)
  }

  /** Beat i writes a heartbeat: the claim always does, a poll when it is due. */
  predicate Refreshes(c: Config, beats: seq<Beat>, i: nat)
    requires i < |beats|
  {
    i == 0 || Due(c, TtlAfter(c, beats, i - 1), beats[i].check)
  }

  /** The beat a poll amounts to; without a refresh only its check counts. */
  function BeatOf(check: real, attempts: seq<Attempt>): Beat {
    match Settled(attempts)
    case Refreshed(a) => Beat(check, a.at, a.draw, a.at)
    case _ => Beat(check, check, 0, check)
  }

  function Beats(claim: Beat, checks: seq<real>, attempts: seq<seq<Attempt>>): seq<Beat>
    requires |checks| == |attempts|
  {
    [claim] + seq(|checks|, i requires 0 <= i < |checks| => BeatOf(checks[i], attempts[i]))
  }

  /** The poll after beat i is not due, or one of its attempts lands. */
  predicate Survives(c: Config, beats: seq<Beat>, i: nat, attempts: seq<Attempt>)
    requires i + 1 < |beats|
  {
    Due(c, TtlAfter(c, beats, i), beats[i + 1].check) ==> Settled(attempts).Refreshed?
  }

  /** So do the first n polls. */
  predicate AllSurvive(c: Config, beats: seq<Beat>, attempts: seq<seq<Attempt>>, n: nat)
    requires n < |beats| && n <= |attempts|
  {
    n == 0 || (AllSurvive(c, beats, attempts, n - 1) && Survives(c, beats, n - 1, attempts[n - 1]))
  }

  lemma {:induction false} DiesEarlier(c: Config, beats: seq<Beat>, attempts: seq<seq<Attempt>>, i: nat, n: nat)
    requires i < n < |beats| && n <= |attempts| && !Survives(c, beats, i, attempts[i])
    ensures !AllSurvive(c, beats, attempts, n)
  {
    if i < n - 1 {
      DiesEarlier(c, beats, attempts, i, n - 1);
    }
  }

  /** One poll of the thread: it goes on exactly when the poll is not due or an attempt lands. */
  method PollOnce(gen: TTLExpirationGenerator, ghost beats: seq<Beat>, ghost i: nat, check: real, attempts: seq<Attempt>) returns (alive: bool)
    requires i + 1 < |beats| && beats[i + 1] == BeatOf(check, attempts) && gen.Value() == TtlAfter(gen.config, beats, i)
    requires forall k :: 0 <= k < |attempts| ==> Draw(gen.config, attempts[k].draw)
    modifies gen
    ensures alive <==> Survives(gen.config, beats, i, attempts)
    ensures alive ==> gen.Value() == TtlAfter(gen.config, beats, i + 1)
  {
    assert beats[i + 1].check == check;
    var outcome := UpdateTtlIfRequired(gen, check, attempts);
    alive := !outcome.Lost? && !outcome.OutOfAttempts?;
  }

  /**
    do_ttl_updates_thread after a claim: one poll per entry of `checks` until the
    execution completes; `alive` is false exactly when a heartbeat that was due was
    refused or never landed.
   */
  method DoTtlUpdates(gen: TTLExpirationGenerator, claim: Beat, checks: seq<real>, attempts: seq<seq<Attempt>>)
    returns (alive: bool)
    requires |checks| == |attempts|
    requires forall i, k :: 0 <= i < |attempts| && 0 <= k < |attempts[i]| ==> Draw(gen.config, attempts[i][k].draw)
    requires gen.Value() == NextTtl(gen.config, claim.generated, claim.draw)
    modifies gen
    ensures alive ==> gen.Value() == TtlAfter(gen.config, Beats(claim, checks, attempts), |checks|)
    ensures alive <==> AllSurvive(gen.config, Beats(claim, checks, attempts), attempts, |checks|)
  {
    ghost var beats := Beats(claim, checks, attempts);
    var i := 0;
    while i < |checks|
      invariant i <= |checks|
      invariant gen.Value() == TtlAfter(gen.config, beats, i) && AllSurvive(gen.config, beats, attempts, i)
    {
      assert beats[i + 1] == BeatOf(checks[i], attempts[i]);
      var goesOn := PollOnce(gen, beats, i, checks[i], attempts[i]);
      if !goesOn {
        DiesEarlier(gen.config, beats, attempts, i, |checks|);
        return false;
      }
      i := i + 1;
    }
    return true;
  }

  /**
    A run of the refresh thread: its polls come one after the other, each lands at
    most the poll interval plus `delay` after the poll before it was made, and every
    refresh draws from the generator's range.
   */
  ghost predicate Timely(c: Config, beats: seq<Beat>, delay: real) {
    forall i :: 0 <= i < |beats| ==> BeatOk(c, beats, delay, i)
  }

  predicate BeatOk(c: Config, beats: seq<Beat>, delay: real, i: nat)
    requires i < |beats|
  {
    && beats[i].check <= beats[i].generated <= beats[i].landed
    && (Refreshes(c, beats, i) ==> Draw(c, beats[i].draw))
    && (i > 0 ==> beats[i - 1].landed <= beats[i].check && beats[i].landed <= beats[i - 1].check + c.poll + delay)
  }

  /** An instant of the run between beat i and the next, or the latest moment the next may land. */
  predicate Instant(c: Config, beats: seq<Beat>, delay: real, i: nat, clock: real) {
    && i < |beats| && beats[i].landed <= clock
    && clock <= if i + 1 < |beats| then beats[i + 1].landed else beats[i].check + c.poll + delay
  }

  /** The row's heartbeat at every instant of every run is at least `margin` ahead of the clock. */
  ghost predicate StaysAhead(c: Config, delay: real, margin: nat) {
    forall beats, i: nat, clock: real :: Timely(c, beats, delay) && Instant(c, beats, delay, i, clock) ==>
      TtlAfter(c, beats, i).expiration >= clock.Floor + margin
  }

  /** Configurations the constructor accepts, polls that take no negative time. */
  predicate Sensible(c: Config, delay: real) {
    c.refresh < c.offset && c.poll >= 0.0 && delay >= 0.0
  }

  // ---- the heartbeat stays ahead if the offset covers a poll and the delay ----

  /** A refreshing beat puts the heartbeat the offset ahead of its check. */
  lemma RefreshIsAhead(c: Config, beat: Beat, clock: real, wait: real, margin: nat)
    requires Draw(c, beat.draw) && beat.check <= beat.generated
    requires clock <= beat.check + wait && wait <= (c.offset - margin) as real
    ensures NextTtl(c, beat.generated, beat.draw).expiration >= clock.Floor + margin
  {
    assert beat.generated < beat.generated.Floor as real + 1.0;
    assert clock < (beat.generated.Floor + c.offset - margin + 1) as real;
    assert NextTtl(c, beat.generated, beat.draw).expiration >= beat.generated.Floor + c.offset;
  }

  /** A poll that is not due finds the heartbeat ahead by what the refresh interval leaves of the offset. */
  lemma NotDueIsAhead(c: Config, ttl: Ttl, check: real, clock: real, delay: real, margin: nat)
    requires !Due(c, ttl, check) && ttl.expiration == ttl.refresh + (c.offset - c.refresh)
    requires clock <= check + c.poll + delay && delay < (c.offset - c.refresh + 1 - margin) as real
    ensures ttl.expiration >= clock.Floor + margin
  {
    assert clock < (ttl.refresh + (c.offset - c.refresh) + 1 - margin) as real;
  }

  lemma {:induction false} GapIsKept(c: Config, beats: seq<Beat>, i: nat)
    requires i < |beats|
    ensures TtlAfter(c, beats, i).expiration == TtlAfter(c, beats, i).refresh + (c.offset - c.refresh)
  {
    if i > 0 {
      GapIsKept(c, beats, i - 1);
    }
  }

  lemma HeartbeatAhead(c: Config, beats: seq<Beat>, delay: real, margin: nat, i: nat, clock: real)
    requires Sensible(c, delay) && Timely(c, beats, delay) && Instant(c, beats, delay, i, clock)
    requires c.poll + delay <= (c.offset - margin) as real && delay < (c.offset - c.refresh + 1 - margin) as real
    ensures TtlAfter(c, beats, i).expiration >= clock.Floor + margin
  {
    var ttl := TtlAfter(c, beats, i);
    assert BeatOk(c, beats, delay, i) && (i + 1 < |beats| ==> BeatOk(c, beats, delay, i + 1));
    if Refreshes(c, beats, i) {
      assert ttl == NextTtl(c, beats[i].generated, beats[i].draw);
      RefreshIsAhead(c, beats[i], clock, c.poll + delay, margin);
    } else {
      GapIsKept(c, beats, i);
      NotDueIsAhead(c, ttl, beats[i].check, clock, delay, margin);
    }
  }

  // ---- and only then ----

  /**
    With a poll and a delay longer than the offset a perfectly regular agent falls
    behind: it claims, polls once after the poll interval, and lands after the delay.
   */
  lemma LatePoll(c: Config, delay: real, margin: nat) returns (beats: seq<Beat>, clock: real)
    requires Sensible(c, delay) && margin <= 1 && c.poll + delay > (c.offset - margin) as real
    ensures Timely(c, beats, delay) && Instant(c, beats, delay, 0, clock)
    ensures |beats| == 2 && beats[1].check == beats[0].landed + c.poll
    ensures TtlAfter(c, beats, 0).expiration < clock.Floor + margin
  {
    var late := (c.offset + 1 - margin) as real;
    var x := if late - (c.poll + delay) > 0.0 then late - (c.poll + delay) else 0.0;
    beats := [Beat(x, x, c.refresh, x), Beat(x + c.poll, x + c.poll + delay, c.refresh, x + c.poll + delay)];
    clock := late;
    assert x.Floor == 0 && TtlAfter(c, beats, 0) == NextTtl(c, x, c.refresh);
  }

  function At(c: Config, time: real): Beat {
    Beat(time, time, c.refresh, time)
  }

  /** A claim at time zero and polls that are not due, the last of them at time `last`. */
  function QuietRun(c: Config, step: real, last: real): seq<Beat>
    requires step >= 1.0
    decreases last
  {
    (if last <= step then [At(c, 0.0)] else QuietRun(c, step, last - step)) + [At(c, last)]
  }

  /** The run is timely, and its last poll, at time `last`, still finds the claim's timestamp. */
  ghost predicate Quiet(c: Config, beats: seq<Beat>, delay: real, last: real) {
    && beats != [] && Timely(c, beats, delay) && beats[|beats| - 1] == At(c, last)
    && TtlAfter(c, beats, |beats| - 1) == Ttl(c.refresh, c.offset)
  }

  lemma ClaimIsQuiet(c: Config, delay: real)
    requires Sensible(c, delay)
    ensures Quiet(c, [At(c, 0.0)], delay, 0.0)
  {
    assert TtlAfter(c, [At(c, 0.0)], 0) == NextTtl(c, 0.0, c.refresh);
  }

  lemma TimelyGrows(c: Config, beats: seq<Beat>, delay: real, beat: Beat)
    requires Timely(c, beats, delay) && beats != [] && beat.check <= beat.generated <= beat.landed
    requires !Refreshes(c, beats + [beat], |beats|)
    requires beats[|beats| - 1].landed <= beat.check && beat.landed <= beats[|beats| - 1].check + c.poll + delay
    ensures Timely(c, beats + [beat], delay)
  {
    var longer := beats + [beat];
    forall i | 0 <= i < |longer| ensures BeatOk(c, longer, delay, i) {
      if i < |beats| {
        assert BeatOk(c, beats, delay, i);
        RefreshOfPrefix(c, beats, [beat], i);
      }
    }
  }

  lemma RefreshOfPrefix(c: Config, beats: seq<Beat>, more: seq<Beat>, i: nat)
    requires i < |beats|
    ensures Refreshes(c, beats + more, i) <==> Refreshes(c, beats, i)
  {
    if i > 0 {
      TtlOfPrefix(c, beats, more, i - 1);
    }
  }

  lemma PollIsQuiet(c: Config, beats: seq<Beat>, delay: real, before: real, last: real)
    requires Quiet(c, beats, delay, before) && before <= last <= before + c.poll + delay
    requires last <= c.refresh as real - c.poll && c.refresh > 0
    ensures Quiet(c, beats + [At(c, last)], delay, last)
  {
    assert TtlAfter(c, beats + [At(c, last)], |beats| - 1) == Ttl(c.refresh, c.offset) by {
      TtlOfPrefix(c, beats, [At(c, last)], |beats| - 1);
    }
    assert !Due(c, Ttl(c.refresh, c.offset), last);
    TimelyGrows(c, beats, delay, At(c, last));
  }

  lemma {:induction false} QuietRunIsQuiet(c: Config, delay: real, last: real)
    requires Sensible(c, delay) && delay >= 1.0 && 0.0 <= last <= c.refresh as real - c.poll && c.refresh > 0
    ensures Quiet(c, QuietRun(c, c.poll + delay, last), delay, last)
    decreases last
  {
    var step := c.poll + delay;
    if last <= step {
      ClaimIsQuiet(c, delay);
      PollIsQuiet(c, [At(c, 0.0)], delay, 0.0, last);
    } else {
      QuietRunIsQuiet(c, delay, last - step);
      PollIsQuiet(c, QuietRun(c, step, last - step), delay, last - step, last);
    }
  }

  lemma {:induction false} TtlOfPrefix(c: Config, beats: seq<Beat>, more: seq<Beat>, i: nat)
    requires i < |beats|
    ensures TtlAfter(c, beats + more, i) == TtlAfter(c, beats, i)
  {
    if i > 0 {
      TtlOfPrefix(c, beats, more, i - 1);
    }
  }

  /**
    With a delay longer than what the refresh interval leaves of the offset, a poll
    that is only just not due is followed by one that lands too late.
   */
  lemma SkippedPoll(c: Config, delay: real, margin: nat) returns (beats: seq<Beat>, i: nat, clock: real)
    requires Sensible(c, delay) && margin <= 1
    requires c.poll + delay <= (c.offset - margin) as real && delay >= (c.offset - c.refresh + 1 - margin) as real
    ensures Timely(c, beats, delay) && Instant(c, beats, delay, i, clock)
    ensures TtlAfter(c, beats, i).expiration < clock.Floor + margin
  {
    var last := c.refresh as real - c.poll;
    assert c.poll <= (c.refresh - 1) as real;
    QuietRunIsQuiet(c, delay, last);
    beats := QuietRun(c, c.poll + delay, last);
    i := |beats| - 1;
    clock := (c.offset + 1 - margin) as real;
    assert clock <= last + c.poll + delay;
  }

  /** The heartbeat stays ahead exactly when the offset covers a poll and the delay, and the delay fits behind a skipped poll. */
  lemma StaysAheadExactly(c: Config, delay: real, margin: nat)
    requires Sensible(c, delay) && margin <= 1
    ensures StaysAhead(c, delay, margin) <==>
            c.poll + delay <= (c.offset - margin) as real && delay < (c.offset - c.refresh + 1 - margin) as real
  {
    if c.poll + delay > (c.offset - margin) as real {
      var beats, clock := LatePoll(c, delay, margin);
      assert Timely(c, beats, delay) && Instant(c, beats, delay, 0, clock);
    } else if delay >= (c.offset - c.refresh + 1 - margin) as real {
      var beats, i, clock := SkippedPoll(c, delay, margin);
      assert Timely(c, beats, delay) && Instant(c, beats, delay, i, clock);
    } else {
      forall beats, i: nat, clock: real | Timely(c, beats, delay) && Instant(c, beats, delay, i, clock)
        ensures TtlAfter(c, beats, i).expiration >= clock.Floor + margin
      {
        HeartbeatAhead(c, beats, delay, margin, i, clock);
      }
    }
  }

  // ---- main results ----

  predicate ListedExpired(heartbeat: int, clock: real) {
    heartbeat < clock.Floor
  }

  predicate ListedLive(heartbeat: int, clock: real) {
    heartbeat > clock.Floor
  }

  /** At no instant of any run does the expired query list the task. */
  ghost predicate NeverTimedOut(c: Config, delay: real) {
    forall beats, i: nat, clock: real :: Timely(c, beats, delay) && Instant(c, beats, delay, i, clock) ==>
      !ListedExpired(TtlAfter(c, beats, i).expiration, clock)
  }

  /** At every instant of every run the live query lists it. */
  ghost predicate AlwaysLive(c: Config, delay: real) {
    forall beats, i: nat, clock: real :: Timely(c, beats, delay) && Instant(c, beats, delay, i, clock) ==>
      ListedLive(TtlAfter(c, beats, i).expiration, clock)
  }

  /**
    A live agent is never timed out, whatever is drawn, exactly when the poll interval
    and the delay together are at most the offset, and the delay is less than a second
    more than the offset exceeds the refresh interval.
   */
  lemma LiveAgentNeverTimedOut(c: Config, delay: real)
    requires Sensible(c, delay)
    ensures NeverTimedOut(c, delay) <==>
            c.poll + delay <= c.offset as real && delay < (c.offset - c.refresh + 1) as real
  {
    StaysAheadExactly(c, delay, 0);
    assert NeverTimedOut(c, delay) <==> StaysAhead(c, delay, 0);
  }

  /** The live query, which needs the heartbeat strictly ahead, always lists it exactly when both hold with a second to spare. */
  lemma LiveAgentAlwaysListed(c: Config, delay: real)
    requires Sensible(c, delay)
    ensures AlwaysLive(c, delay) <==>
            c.poll + delay <= (c.offset - 1) as real && delay < (c.offset - c.refresh) as real
  {
    StaysAheadExactly(c, delay, 1);
    assert AlwaysLive(c, delay) <==> StaysAhead(c, delay, 1);
  }
}
