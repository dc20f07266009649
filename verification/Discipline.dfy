/**
  One TTL checker at a time, with a current listing.  If its row reads, however stale,
  are right about used-up retries, it never takes a losing step; if they show the
  current retries, none that miscounts.  LosingTasks has a run in which a single read
  is wrong about used-up retries, and a task is lost.
 */
module Discipline {
  import opened Prelude
  import opened Rows
  import opened Protocol
  import opened Safety
  import opened Delivery

  const TTL: CheckerId := 0

  /** The expired query: processing, with a heartbeat strictly before the clock. */
  predicate Expired(s: State, t: Task) {
    t in s.table && s.table[t].status.Processing? && s.table[t].heartbeat < s.clock
  }

  /** One checker at a time, and a listing of expired tasks only. */
  ghost predicate OneListing(s: State, e: Event) {
    && (CheckerEvent(e) ==> e.checker == TTL)
    && (e.ListExpired? ==> NoDuplicates(e.found) && forall t :: t in e.found ==> Expired(s, t))
  }

  ghost predicate OneListingRun(states: seq<State>, events: seq<Event>) {
    Run(states, events) && forall i :: 0 <= i < |events| ==> OneListing(states[i], events[i])
  }

  // ---- the tasks in hand ----

  /** The tasks the checker has listed and not dealt with, the one in its hands first. */
  function InHand(pc: CheckerPc): seq<Task> {
    match pc
    case Resting => []
    case Listing(todo) => todo
    case Holding(t, _, todo) => [t] + todo
    case Failing(t, todo) => [t] + todo
  }

  ghost predicate HandSound(s: State, pc: CheckerPc) {
    NoDuplicates(InHand(pc)) && forall t :: t in InHand(pc) ==> t in s.table && !s.table[t].status.Pending?
  }

  ghost predicate OneChecker(s: State) {
    HandSound(s, CheckerAt(s, TTL)) && forall c :: c != TTL ==> CheckerAt(s, c).Resting?
  }

  /** No step but a retry turns a task in hand pending. */
  lemma RowsKeepHand(s: State, e: Event, pc: CheckerPc)
    requires SubmitsOk(s) && Enabled(s, e) && !e.RetryTask? && HandSound(s, pc)
    ensures HandSound(Apply(s, e), pc)
  {
    RowEffect(s, e);
  }

  lemma TailOfHand(s: State, pc: CheckerPc)
    requires HandSound(s, pc) && (pc.Holding? || pc.Failing?)
    ensures HandSound(s, Protocol.Listing(pc.todo)) && pc.task !in pc.todo
  {
    assert InHand(pc)[0] == pc.task && pc.todo == InHand(pc)[1..];
    assert forall t :: t in pc.todo ==> t in InHand(pc);
    assert forall i :: 0 <= i < |pc.todo| ==> pc.todo[i] == InHand(pc)[i + 1];
  }

  lemma RetryKeepsHand(s: State)
    requires HandSound(s, CheckerAt(s, TTL)) && CheckerEnabled(s, RetryTask(TTL))
    ensures HandSound(CheckerStep(s, RetryTask(TTL)), Protocol.Listing(CheckerAt(s, TTL).todo))
  {
    TailOfHand(s, CheckerAt(s, TTL));
  }

  /** A checker step leaves its hand sound for the rows before it. */
  lemma HandAfterStep(s: State, e: Event)
    requires OneChecker(s) && CheckerEvent(e) && CheckerEnabled(s, e) && OneListing(s, e) && !e.RetryTask?
    ensures HandSound(s, CheckerAt(CheckerStep(s, e), TTL))
  {
    var pc := CheckerAt(s, TTL);
    if e.ReadRow? {
      assert [pc.todo[0]] + pc.todo[1..] == pc.todo;
    } else if e.MarkFailed? || e.RetryRefused? {
      TailOfHand(s, pc);
    }
  }

  lemma OthersRest(s: State, e: Event)
    requires OneChecker(s) && Enabled(s, e) && OneListing(s, e)
    ensures forall c :: c != TTL ==> CheckerAt(Apply(s, e), c).Resting?
    ensures !CheckerEvent(e) ==> CheckerAt(Apply(s, e), TTL) == CheckerAt(s, TTL)
  {
    if CheckerEvent(e) {
      CheckerFrame(s, e);
    } else {
      Frame(s, e);
      assert forall c :: CheckerAt(Apply(s, e), c) == CheckerAt(s, c);
    }
  }

  lemma CheckerKeepsHand(s: State, e: Event)
    requires SubmitsOk(s) && OneChecker(s) && CheckerEvent(e) && Enabled(s, e) && OneListing(s, e)
    ensures HandSound(Apply(s, e), CheckerAt(Apply(s, e), TTL))
  {
    if e.RetryTask? {
      RetryKeepsHand(s);
    } else {
      HandAfterStep(s, e);
      RowsKeepHand(s, e, CheckerAt(Apply(s, e), TTL));
    }
  }

  lemma StepKeepsOneChecker(s: State, e: Event)
    requires SubmitsOk(s) && OneChecker(s) && Enabled(s, e) && OneListing(s, e)
    ensures OneChecker(Apply(s, e))
  {
    OthersRest(s, e);
    if CheckerEvent(e) {
      CheckerKeepsHand(s, e);
    } else {
      RowsKeepHand(s, e, CheckerAt(s, TTL));
    }
  }

  lemma {:induction false} OneCheckerInEveryState(states: seq<State>, events: seq<Event>, i: nat)
    requires OneListingRun(states, events) && i < |states|
    ensures OneChecker(states[i])
  {
    if i > 0 {
      OneCheckerInEveryState(states, events, i - 1);
      InvInEveryState(states, events, i - 1);
      assert StepAt(states, events, i - 1) && OneListing(states[i - 1], events[i - 1]);
      StepKeepsOneChecker(states[i - 1], events[i - 1]);
    }
  }

  // ---- what the reads show ----

  /** How the retries a read shows relate to those of the row. */
  type Agreement = (nat, nat) -> bool

  function RightAboutUsedUp(read: nat, row: nat): bool {
    read == MAX_RETRIES <==> row == MAX_RETRIES
  }

  function Same(read: nat, row: nat): bool {
    read == row
  }

  /** The retries of the row the checker reads next. */
  predicate Reads(s: State, e: Event, retries: nat) {
    && e.ReadRow? && CheckerAt(s, e.checker).Listing? && CheckerAt(s, e.checker).todo != []
    && CheckerAt(s, e.checker).todo[0] in s.table && s.table[CheckerAt(s, e.checker).todo[0]].retries == retries
  }

  ghost predicate ReadAgrees(s: State, e: Event, agree: Agreement) {
    OneListing(s, e) && forall n :: Reads(s, e, n) ==> agree(e.version.retries, n)
  }

  /** What the checker holds agrees with the row. */
  ghost predicate HeldAgrees(s: State, pc: CheckerPc, agree: Agreement) {
    pc.Holding? ==> pc.task in s.table && agree(pc.read.retries, s.table[pc.task].retries)
  }

  lemma OnlyReadsHold(s: State, e: Event)
    requires CheckerEvent(e) && CheckerEnabled(s, e) && !e.ReadRow?
    ensures !CheckerAt(CheckerStep(s, e), e.checker).Holding?
  {
  }

  lemma ReadIsHeld(s: State, e: Event, agree: Agreement)
    requires Enabled(s, e) && e.ReadRow? && ReadAgrees(s, e, agree)
    ensures HeldAgrees(Apply(s, e), CheckerAt(Apply(s, e), TTL), agree)
  {
    assert Reads(s, e, s.table[CheckerAt(s, TTL).todo[0]].retries);
  }

  /** Without a retry no row there is changes its retries. */
  lemma RetriesStay(s: State, e: Event, t: Task)
    requires SubmitsOk(s) && Enabled(s, e) && !e.RetryTask? && t in s.table
    ensures t in Apply(s, e).table && Apply(s, e).table[t].retries == s.table[t].retries
  {
    RowEffect(s, e);
  }

  lemma StepKeepsAgreement(s: State, e: Event, agree: Agreement)
    requires SubmitsOk(s) && Enabled(s, e) && ReadAgrees(s, e, agree) && HeldAgrees(s, CheckerAt(s, TTL), agree)
    ensures HeldAgrees(Apply(s, e), CheckerAt(Apply(s, e), TTL), agree)
  {
    if e.ReadRow? {
      ReadIsHeld(s, e, agree);
    } else if CheckerEvent(e) {
      OnlyReadsHold(s, e);
    } else {
      Frame(s, e);
      if CheckerAt(s, TTL).Holding? {
        RetriesStay(s, e, CheckerAt(s, TTL).task);
      }
    }
  }

  ghost predicate AgreeingRun(states: seq<State>, events: seq<Event>, agree: Agreement) {
    Run(states, events) && forall i :: 0 <= i < |events| ==> ReadAgrees(states[i], events[i], agree)
  }

  lemma {:induction false} AgreesInEveryState(states: seq<State>, events: seq<Event>, agree: Agreement, i: nat)
    requires AgreeingRun(states, events, agree) && i < |states|
    ensures HeldAgrees(states[i], CheckerAt(states[i], TTL), agree)
  {
    if i > 0 {
      AgreesInEveryState(states, events, agree, i - 1);
      InvInEveryState(states, events, i - 1);
      assert StepAt(states, events, i - 1) && ReadAgrees(states[i - 1], events[i - 1], agree);
      StepKeepsAgreement(states[i - 1], events[i - 1], agree);
    }
  }

  lemma AgreeingIsOneListing(states: seq<State>, events: seq<Event>, agree: Agreement)
    requires AgreeingRun(states, events, agree)
    ensures OneListingRun(states, events)
  {
    forall i | 0 <= i < |events| ensures OneListing(states[i], events[i]) {
      assert ReadAgrees(states[i], events[i], agree);
    }
  }

  /** One more step of the same kind. */
  lemma ExtendAgreeing(states: seq<State>, events: seq<Event>, e: Event, agree: Agreement) returns (longer: seq<State>, more: seq<Event>)
    requires AgreeingRun(states, events, agree) && Enabled(states[|events|], e) && ReadAgrees(states[|events|], e, agree)
    ensures longer == states + [Apply(states[|events|], e)] && more == events + [e] && AgreeingRun(longer, more, agree)
  {
    longer, more := Extend(states, events, e);
    forall i | 0 <= i < |more| ensures ReadAgrees(longer[i], more[i], agree) {
      if i < |events| {
        assert ReadAgrees(states[i], events[i], agree);
      }
    }
  }

  // ---- main results ----

  /** A read may be stale, but not about whether the retries are used up. */
  ghost predicate Disciplined(s: State, e: Event) {
    ReadAgrees(s, e, RightAboutUsedUp)
  }

  ghost predicate DisciplinedRun(states: seq<State>, events: seq<Event>) {
    AgreeingRun(states, events, RightAboutUsedUp)
  }

  /** Reads show the current retries. */
  ghost predicate Current(s: State, e: Event) {
    ReadAgrees(s, e, Same)
  }

  ghost predicate CurrentRun(states: seq<State>, events: seq<Event>) {
    AgreeingRun(states, events, Same)
  }

  /** Such a checker deletes only a message no longer needed, and retries only a task whose message is there. */
  lemma SoundNeverLoses(s: State, e: Event)
    requires Inv(s) && NotLost(s) && OneChecker(s) && Enabled(s, e) && OneListing(s, e)
    requires HeldAgrees(s, CheckerAt(s, TTL), RightAboutUsedUp)
    ensures !Loses(s, e)
  {
    if e.DeleteExhausted? || e.RetryTask? {
      var pc := CheckerAt(s, TTL);
      assert CheckerOk(s, pc) && pc.task in InHand(pc);
    }
  }

  lemma {:induction false} DisciplinedNeverLoses(states: seq<State>, events: seq<Event>, n: nat)
    requires DisciplinedRun(states, events) && n <= |events|
    ensures forall i :: 0 <= i < n ==> !Loses(states[i], events[i])
  {
    if n > 0 {
      DisciplinedNeverLoses(states, events, n - 1);
      LosesExactly(states, events, n - 1);
      InvInEveryState(states, events, n - 1);
      AgreeingIsOneListing(states, events, RightAboutUsedUp);
      OneCheckerInEveryState(states, events, n - 1);
      AgreesInEveryState(states, events, RightAboutUsedUp, n - 1);
      assert StepAt(states, events, n - 1) && OneListing(states[n - 1], events[n - 1]);
      SoundNeverLoses(states[n - 1], events[n - 1]);
    }
  }

  /**
    One checker at a time, with a current listing and reads right about used-up
    retries, loses nothing: every message has a row, and every task whose message was
    sent still has it on the queue while it is pending, or processing with retries left.
   */
  lemma NoTaskIsLost(states: seq<State>, events: seq<Event>, i: nat, t: Task)
    requires DisciplinedRun(states, events) && i < |states|
    ensures t in states[i].queue ==> t in states[i].table
    ensures t in states[i].sent ==> t in states[i].table
    ensures t in states[i].sent && NeedsMessage(states[i].table[t]) ==> t in states[i].queue
  {
    InvInEveryState(states, events, i);
    DisciplinedNeverLoses(states, events, i);
    LosesExactly(states, events, i);
  }

  /** Current reads never miscount. */
  lemma CurrentNeverMiscounts(states: seq<State>, events: seq<Event>)
    requires CurrentRun(states, events)
    ensures forall i :: 0 <= i < |events| ==> !Miscounts(states[i], events[i])
  {
    forall i | 0 <= i < |events| ensures !Miscounts(states[i], events[i]) {
      AgreesInEveryState(states, events, Same, i);
      assert ReadAgrees(states[i], events[i], Same);
    }
  }
}
