/** The TTL checker as a program: its loops over the partitions and over the expired tasks of each. */
module CheckerProgram {
  import opened Prelude
  import opened TaskStates
  import opened Rows
  import opened Protocol
  import opened Safety
  import opened Worlds
  import opened Discipline
  import StateTables
  import BusyScan

  /** The handle and priority a queue call is given. */
  datatype Route = Route(handle: Handle, priority: nat)

  /** What one expired task came to; `marked` is the state in which it is marked failed. */
  datatype Verdict = GaveUp(deleted: Route, marked: State) | Retried(shown: Route) | Skipped

  /** One visit: the row is read in the state `looked`, and the verdict carried out in the state `decided`. */
  datatype Visited = Visited(looked: State, read: Version, decided: State, verdict: Verdict)

  /** What the read of one expired task may return, and whether its retry write is throttled. */
  datatype Visit = Visit(read: Version, throttled: bool)

  /** How the calls for each task go. */
  type Calls = Task -> Visit

  function VerdictSteps(me: CheckerId, decided: State, verdict: Verdict): seq<Deed> {
    match verdict
    case GaveUp(_, marked) => [Deed(decided, DeleteExhausted(me)), Deed(marked, MarkFailed(me))]
    case Retried(_) => [Deed(decided, RetryTask(me))]
    case Skipped => [Deed(decided, RetryRefused(me))]
  }

  function VisitSteps(me: CheckerId, v: Visited): seq<Deed> {
    [Deed(v.looked, ReadRow(me, v.read))] + VerdictSteps(me, v.decided, v.verdict)
  }

  function AllVisitSteps(me: CheckerId, visits: seq<Visited>): seq<Deed> {
    if visits == [] then [] else
    var n := |visits| - 1;
    AllVisitSteps(me, visits[..n]) + VisitSteps(me, visits[n])
  }

  /** The row as it is read: a version it has held if the service returns one, else the current one. */
  ghost predicate ReadFrom(s: State, t: Task, visit: Visit, read: Version) {
    && t in s.table && read.retries <= MAX_RETRIES
    && read == if visit.read in s.table[t].versions then visit.read else Version(s.table[t].retries, s.table[t].handle)
  }

  /** The retry puts the row back to pending with this many retries. */
  ghost predicate PutsBack(s: State, me: CheckerId, t: Task, retries: nat) {
    && Enabled(s, RetryTask(me)) && t in Apply(s, RetryTask(me)).table
    && var row := Apply(s, RetryTask(me)).table[t];
       row.status == Pending && row.owner == None && row.retries == retries
  }

  ghost predicate MarksFailed(s: State, me: CheckerId, t: Task) {
    && Enabled(s, MarkFailed(me)) && t in Apply(s, MarkFailed(me)).table
    && Apply(s, MarkFailed(me)).table[t].status == Failed
  }

  /**
    The verdict on the row as it is when it is carried out: given up exactly when the
    retries read are used up; otherwise retried exactly when the write is not throttled
    and the row is still processing, and then it is pending with one retry more than
    was read.  The queue is given the handle read and the priority of the row.
   */
  ghost predicate Decided(me: CheckerId, t: Task, throttled: bool, read: Version, decided: State, verdict: Verdict) {
    && t in decided.table
    && var row, route := decided.table[t], Route(read.handle, decided.table[t].priority);
       match verdict
       case GaveUp(deleted, marked) => read.retries == 5 && deleted == route && MarksFailed(marked, me, t)
       case Retried(shown) =>
         read.retries < 5 && !throttled && row.status == Processing && shown == route && PutsBack(decided, me, t, read.retries + 1)
       case Skipped => read.retries < 5 && (throttled || row.status != Processing)
  }

  ghost predicate Dealt(me: CheckerId, t: Task, visit: Visit, v: Visited) {
    ReadFrom(v.looked, t, visit, v.read) && Decided(me, t, visit.throttled, v.read, v.decided, v.verdict)
  }

  /** The row as the verdict leaves it. */
  ghost predicate Left(s: State, t: Task, read: Version, verdict: Verdict) {
    match verdict
    case GaveUp(_, _) => t in s.table && s.table[t].status == Failed
    case Retried(_) => t in s.table && s.table[t].status == Pending && s.table[t].retries == read.retries + 1
    case Skipped => true
  }

  ghost predicate AllDealt(me: CheckerId, found: seq<Task>, calls: Calls, visits: seq<Visited>) {
    |visits| <= |found| && forall i :: 0 <= i < |visits| ==> Dealt(me, found[i], calls(found[i]), visits[i])
  }

  lemma CheckerHasRows(s: State, c: CheckerId)
    requires Inv(s)
    ensures CheckerAt(s, c).Listing? && CheckerAt(s, c).todo != [] ==> CheckerAt(s, c).todo[0] in s.table
    ensures CheckerAt(s, c).Holding? || CheckerAt(s, c).Failing? ==> CheckerAt(s, c).task in s.table
    ensures CheckerAt(s, c).Holding? ==> CheckerAt(s, c).read.retries <= MAX_RETRIES
    ensures CheckerAt(s, c).Listing? && CheckerAt(s, c).todo != [] ==>
      var r := s.table[CheckerAt(s, c).todo[0]];
      Version(r.retries, r.handle) in r.versions && forall v :: v in r.versions ==> v.retries <= MAX_RETRIES
  {
  }

  /** Read the row of the next expired task, possibly stale. */
  method Look(world: World, me: CheckerId, visit: Visit) returns (looked: State)
    requires world.Valid() && CheckerAt(world.now, me).Listing? && CheckerAt(world.now, me).todo != []
    modifies world
    ensures world.Valid() && CheckerAt(world.now, me).Holding? && old(world.states) <= world.states
    ensures var old_pc, pc := old(CheckerAt(world.now, me)), CheckerAt(world.now, me);
      && [pc.task] + pc.todo == old_pc.todo && pc.task in world.now.table && ReadFrom(looked, pc.task, visit, pc.read)
      && Mine(world.deeds, Checker(me)) == Mine(old(world.deeds), Checker(me)) + [Deed(looked, ReadRow(me, pc.read))]
  {
    world.Others(Checker(me));
    world.HasInv();
    CheckerHasRows(world.now, me);
    looked := world.now;
    var row := world.now.table[CheckerAt(world.now, me).todo[0]];
    var read := if visit.read in row.versions then visit.read else Version(row.retries, row.handle);
    world.Do(ReadRow(me, read));
  }

  /** Delete the message, then mark the task failed. */
  method FailTask(world: World, me: CheckerId) returns (marked: State)
    requires world.Valid() && CheckerAt(world.now, me).Holding? && CheckerAt(world.now, me).read.retries == MAX_RETRIES
    modifies world
    ensures world.Valid() && old(world.states) <= world.states
    ensures var pc := old(CheckerAt(world.now, me));
      && CheckerAt(world.now, me) == Protocol.Listing(pc.todo) && MarksFailed(marked, me, pc.task)
      && pc.task in world.now.table && world.now.table[pc.task].status.Failed?
    ensures KeepsRows(old(world.now), world.now)
    ensures Mine(world.deeds, Checker(me)) ==
            Mine(old(world.deeds), Checker(me)) + [Deed(old(world.now), DeleteExhausted(me)), Deed(marked, MarkFailed(me))]
  {
    world.Do(DeleteExhausted(me));
    marked := UpdateStatusToFailed(world, me);
  }

  method UpdateStatusToFailed(world: World, me: CheckerId) returns (marked: State)
    requires world.Valid() && CheckerAt(world.now, me).Failing?
    modifies world
    ensures world.Valid() && old(world.states) <= world.states
    ensures var pc := old(CheckerAt(world.now, me));
      && CheckerAt(world.now, me) == Protocol.Listing(pc.todo) && MarksFailed(marked, me, pc.task)
      && pc.task in world.now.table && world.now.table[pc.task].status.Failed?
    ensures KeepsRows(old(world.now), world.now)
    ensures Mine(world.deeds, Checker(me)) == Mine(old(world.deeds), Checker(me)) + [Deed(marked, MarkFailed(me))]
  {
    world.Others(Checker(me));
    world.HasInv();
    CheckerHasRows(world.now, me);
    marked := world.now;
    world.Do(MarkFailed(me));
  }

  /** do_retry_task: the retry write, unless it is throttled or the row is no longer processing. */
  method DoRetryTask(world: World, me: CheckerId, throttled: bool) returns (retried: bool)
    requires world.Valid() && CheckerAt(world.now, me).Holding? && CheckerAt(world.now, me).read.retries != MAX_RETRIES
    modifies world
    ensures world.Valid() && old(world.states) <= world.states
    ensures var pc := old(CheckerAt(world.now, me));
      && CheckerAt(world.now, me) == Protocol.Listing(pc.todo)
      && (retried <==> !throttled && pc.task in old(world.now).table && old(world.now).table[pc.task].status == Processing)
      && (retried ==> PutsBack(old(world.now), me, pc.task, pc.read.retries + 1) && pc.task in world.now.table
                      && world.now.table[pc.task].status.Pending? && world.now.table[pc.task].retries == pc.read.retries + 1)
    ensures KeepsRows(old(world.now), world.now)
    ensures Mine(world.deeds, Checker(me)) ==
            Mine(old(world.deeds), Checker(me)) + [Deed(old(world.now), if retried then RetryTask(me) else RetryRefused(me))]
  {
    var pc := CheckerAt(world.now, me);
    retried := !throttled && Accepts(world.now, pc.task, Retry(pc.read.retries + 1));
    if retried {
      world.Do(RetryTask(me));
    } else {
      world.Do(RetryRefused(me));
    }
  }

  /**
    Out of retries, the message is deleted and then the task marked failed; otherwise it
    is retried, unless that write is refused or throttled, and its message made visible.
   */
  method Decide(world: World, me: CheckerId, throttled: bool) returns (decided: State, verdict: Verdict)
    requires world.Valid() && CheckerAt(world.now, me).Holding? && CheckerAt(world.now, me).read.retries <= MAX_RETRIES
    modifies world
    ensures world.Valid() && old(world.states) <= world.states
    ensures CheckerAt(world.now, me) == Protocol.Listing(old(CheckerAt(world.now, me)).todo)
    ensures Mine(world.deeds, Checker(me)) == Mine(old(world.deeds), Checker(me)) + VerdictSteps(me, decided, verdict)
    ensures var pc := old(CheckerAt(world.now, me));
      Decided(me, pc.task, throttled, pc.read, decided, verdict) && Left(world.now, pc.task, pc.read, verdict)
  {
    world.Others(Checker(me));
    world.HasInv();
    CheckerHasRows(world.now, me);
    decided := world.now;
    var t, read := CheckerAt(decided, me).task, CheckerAt(decided, me).read;
    var route := Route(read.handle, decided.table[t].priority);
    if read.retries == MAX_RETRIES {
      var marked := FailTask(world, me);
      return decided, GaveUp(route, marked);
    }
    var retried := DoRetryTask(world, me, throttled);
    return decided, if retried then Retried(route) else Skipped;
  }

  /** One expired task: read its row, then act on what was read. */
  method VisitTask(world: World, me: CheckerId, visit: Visit) returns (v: Visited)
    requires world.Valid() && CheckerAt(world.now, me).Listing? && CheckerAt(world.now, me).todo != []
    modifies world
    ensures world.Valid() && CheckerAt(world.now, me) == Protocol.Listing(old(CheckerAt(world.now, me)).todo[1..])
    ensures old(world.states) <= world.states
    ensures Mine(world.deeds, Checker(me)) == Mine(old(world.deeds), Checker(me)) + VisitSteps(me, v)
    ensures var t := old(CheckerAt(world.now, me)).todo[0]; Dealt(me, t, visit, v) && Left(world.now, t, v.read, v.verdict)
  {
    var looked := Look(world, me, visit);
    var read := CheckerAt(world.now, me).read;
    var decided, verdict := Decide(world, me, visit.throttled);
    return Visited(looked, read, decided, verdict);
  }

  lemma VisitAppends(me: CheckerId, visits: seq<Visited>, v: Visited, before: seq<Deed>)
    ensures before + AllVisitSteps(me, visits) + VisitSteps(me, v) == before + AllVisitSteps(me, visits + [v])
  {
    assert (visits + [v])[..|visits|] == visits;
    Associate(before, AllVisitSteps(me, visits), VisitSteps(me, v));
  }

  lemma DealtGrows(me: CheckerId, found: seq<Task>, calls: Calls, visits: seq<Visited>, v: Visited)
    requires AllDealt(me, found, calls, visits) && |visits| < |found| && Dealt(me, found[|visits|], calls(found[|visits|]), v)
    ensures AllDealt(me, found, calls, visits + [v])
  {
  }

  /** The loop over one list: every task of it is visited, in order, whatever its reads and writes come to. */
  method VisitAll(world: World, me: CheckerId, calls: Calls) returns (visits: seq<Visited>)
    requires world.Valid() && CheckerAt(world.now, me).Listing?
    modifies world
    ensures world.Valid() && CheckerAt(world.now, me) == Protocol.Listing([]) && old(world.states) <= world.states
    ensures |visits| == |old(CheckerAt(world.now, me)).todo| && AllDealt(me, old(CheckerAt(world.now, me)).todo, calls, visits)
    ensures Mine(world.deeds, Checker(me)) == Mine(old(world.deeds), Checker(me)) + AllVisitSteps(me, visits)
  {
    ghost var before := Mine(world.deeds, Checker(me));
    var found := CheckerAt(world.now, me).todo;
    visits := [];
    for i := 0 to |found|
      invariant world.Valid() && CheckerAt(world.now, me) == Protocol.Listing(found[i..]) && old(world.states) <= world.states
      invariant |visits| == i && AllDealt(me, found, calls, visits)
      invariant Mine(world.deeds, Checker(me)) == before + AllVisitSteps(me, visits)
    {
      assert found[i..][1..] == found[i + 1..];
      var v := VisitTask(world, me, calls(found[i]));
      VisitAppends(me, visits, v, before);
      DealtGrows(me, found, calls, visits, v);
      visits := visits + [v];
    }
  }

  // ---- the partitions ----

  /** The expired tasks of a partition. */
  function ExpiredIn(s: State, md5: Hash, partition: nat): set<Task> {
    set t | t in s.table && Expired(s, t) && Partition(md5, SessionOf(t)) == partition
  }

  /** A page of the expired query: at most the limit, and everything when it is not full. */
  ghost predicate IsPage(s: State, md5: Hash, partition: nat, found: seq<Task>) {
    && NoDuplicates(found) && |found| <= StateTables.RETRIEVE_EXPIRED_TASKS_LIMIT
    && Elements(found) <= ExpiredIn(s, md5, partition)
    && (|found| < StateTables.RETRIEVE_EXPIRED_TASKS_LIMIT ==> Elements(found) == ExpiredIn(s, md5, partition))
  }

  method QueryExpired(world: World, md5: Hash, partition: nat) returns (found: seq<Task>)
    ensures IsPage(world.now, md5, partition, found)
  {
    var all := Listed(ExpiredIn(world.now, md5, partition));
    found := all[..Min(|all|, StateTables.RETRIEVE_EXPIRED_TASKS_LIMIT)];
    if |all| < StateTables.RETRIEVE_EXPIRED_TASKS_LIMIT {
      assert found == all;
    } else {
      assert forall t :: t in found ==> t in Elements(all);
    }
  }

  lemma PageCanBeListed(s: State, me: CheckerId, md5: Hash, partition: nat, found: seq<Task>)
    requires IsPage(s, md5, partition, found) && CheckerAt(s, me).Resting?
    ensures Enabled(s, ListExpired(me, found))
  {
    assert forall t :: t in found ==> t in Elements(found);
  }

  /** The next partition's page, as the table is at that moment. */
  method ListPartition(world: World, me: CheckerId, md5: Hash, partition: nat) returns (listed: State, found: seq<Task>)
    requires world.Valid() && CheckerAt(world.now, me).Resting?
    modifies world
    ensures world.Valid() && CheckerAt(world.now, me) == Protocol.Listing(found) && old(world.states) <= world.states
    ensures IsPage(listed, md5, partition, found)
    ensures Mine(world.deeds, Checker(me)) == Mine(old(world.deeds), Checker(me)) + [Deed(listed, ListExpired(me, found))]
  {
    world.Others(Checker(me));
    found := QueryExpired(world, md5, partition);
    listed := world.now;
    PageCanBeListed(world.now, me, md5, partition, found);
    world.Do(ListExpired(me, found));
  }

  /** What one partition came to: when it was listed, the tasks found, their visits, and the state they left. */
  datatype Pass = Pass(listed: State, found: seq<Task>, visits: seq<Visited>, left: State)

  function PassSteps(me: CheckerId, pass: Pass): seq<Deed> {
    [Deed(pass.listed, ListExpired(me, pass.found))] + AllVisitSteps(me, pass.visits) + [Deed(pass.left, CheckerStop(me))]
  }

  function AllPassSteps(me: CheckerId, passes: seq<Pass>): seq<Deed> {
    if passes == [] then [] else AllPassSteps(me, passes[..|passes| - 1]) + PassSteps(me, passes[|passes| - 1])
  }

  lemma PassAppends(me: CheckerId, passes: seq<Pass>, pass: Pass, before: seq<Deed>)
    ensures before + AllPassSteps(me, passes) + PassSteps(me, pass) == before + AllPassSteps(me, passes + [pass])
  {
    assert (passes + [pass])[..|passes|] == passes;
    Associate(before, AllPassSteps(me, passes), PassSteps(me, pass));
  }

  /** The pass listed the partition as it was then, and visited every task found. */
  ghost predicate Covers(me: CheckerId, md5: Hash, partition: nat, calls: Calls, pass: Pass) {
    && IsPage(pass.listed, md5, partition, pass.found)
    && |pass.visits| == |pass.found| && AllDealt(me, pass.found, calls, pass.visits)
  }

  lemma PassSplits(me: CheckerId, pass: Pass, before: seq<Deed>)
    ensures before + [Deed(pass.listed, ListExpired(me, pass.found))] + AllVisitSteps(me, pass.visits) + [Deed(pass.left, CheckerStop(me))]
            == before + PassSteps(me, pass)
  {
  }

  /** One partition: list its expired tasks as they are then, and visit each of them. */
  method CheckPartition(world: World, me: CheckerId, md5: Hash, partition: nat, calls: Calls) returns (pass: Pass)
    requires world.Valid() && CheckerAt(world.now, me).Resting?
    modifies world
    ensures world.Valid() && CheckerAt(world.now, me).Resting? && old(world.states) <= world.states
    ensures Covers(me, md5, partition, calls, pass)
    ensures Mine(world.deeds, Checker(me)) == Mine(old(world.deeds), Checker(me)) + PassSteps(me, pass)
  {
    var listed, found := ListPartition(world, me, md5, partition);
    var visits := VisitAll(world, me, calls);
    pass := Pass(listed, found, visits, world.now);
    world.Do(CheckerStop(me));
    PassSplits(me, pass, Mine(old(world.deeds), Checker(me)));
  }

  /** Every pass covered its partition, in the order in which the partitions come up. */
  ghost predicate AllCovered(me: CheckerId, md5: Hash, start: nat, calls: Calls, passes: seq<Pass>) {
    forall i :: 0 <= i < |passes| ==> Covers(me, md5, BusyScan.PartitionAt(start, i), calls, passes[i])
  }

  lemma CoveredGrows(me: CheckerId, md5: Hash, start: nat, calls: Calls, passes: seq<Pass>, pass: Pass)
    requires AllCovered(me, md5, start, calls, passes) && Covers(me, md5, BusyScan.PartitionAt(start, |passes|), calls, pass)
    ensures AllCovered(me, md5, start, calls, passes + [pass])
  {
  }

  /**
    A tick deals with a task in one pass only, and there, unless the page is full,
    exactly when it is expired at the moment its partition is listed.
   */
  lemma OnePassPerTask(me: CheckerId, md5: Hash, start: nat, calls: Calls, passes: seq<Pass>, t: Task) returns (i: nat)
    requires AllCovered(me, md5, start, calls, passes) && |passes| == 32
    ensures i < |passes|
    ensures t in passes[i].found ==> Expired(passes[i].listed, t)
    ensures |passes[i].found| < 200 && Expired(passes[i].listed, t) ==> t in passes[i].found
    ensures forall j :: 0 <= j < |passes| && t in passes[j].found ==> j == i
  {
    i := BusyScan.EachPartitionOnce(start, Partition(md5, SessionOf(t)));
    assert Covers(me, md5, BusyScan.PartitionAt(start, i), calls, passes[i]);
    assert t in Elements(passes[i].found) <==> t in passes[i].found;
    forall j | 0 <= j < |passes| && t in passes[j].found ensures j == i {
      assert Covers(me, md5, BusyScan.PartitionAt(start, j), calls, passes[j]);
      assert t in Elements(passes[j].found);
    }
  }

  /**
    What a tick does for a task listed in pass i: it is visited, and when its retries
    are not read as used up, its write is not throttled, and the row is still processing
    at the write, the write makes it pending with one retry more than was read.
   */
  lemma ListedIsDealtWith(me: CheckerId, md5: Hash, start: nat, calls: Calls, passes: seq<Pass>, i: nat, t: Task) returns (k: nat)
    requires AllCovered(me, md5, start, calls, passes) && i < |passes| && t in passes[i].found
    ensures k < |passes[i].visits| && passes[i].found[k] == t && t in passes[i].visits[k].decided.table
    ensures var v := passes[i].visits[k];
      && (v.read.retries >= 5 ==> v.verdict.GaveUp?)
      && (v.read.retries < 5 && !calls(t).throttled && v.decided.table[t].status == Processing ==>
            v.verdict.Retried? && PutsBack(v.decided, me, t, v.read.retries + 1))
      && (v.read.retries < 5 && (calls(t).throttled || v.decided.table[t].status != Processing) ==> v.verdict.Skipped?)
  {
    assert Covers(me, md5, BusyScan.PartitionAt(start, i), calls, passes[i]);
    k :| k < |passes[i].found| && passes[i].found[k] == t;
    assert Dealt(me, passes[i].found[k], calls(passes[i].found[k]), passes[i].visits[k]);
  }

  /**
    lambda_handler: nothing while the table is being throttled, otherwise one pass over
    each of the 32 partitions, from a start and around.
   */
  method LambdaHandler(world: World, me: CheckerId, md5: Hash, start: nat, throttled: bool, calls: Calls) returns (passes: seq<Pass>)
    requires world.Valid() && CheckerAt(world.now, me).Resting?
    modifies world
    ensures world.Valid() && CheckerAt(world.now, me).Resting? && old(world.states) <= world.states
    ensures |passes| == if throttled then 0 else 32
    ensures AllCovered(me, md5, start, calls, passes)
    ensures Mine(world.deeds, Checker(me)) == Mine(old(world.deeds), Checker(me)) + AllPassSteps(me, passes)
  {
    ghost var before := Mine(world.deeds, Checker(me));
    passes := [];
    if throttled {
      return;
    }
    while |passes| < MAX_STATE_PARTITIONS
      invariant world.Valid() && CheckerAt(world.now, me).Resting? && old(world.states) <= world.states
      invariant |passes| <= MAX_STATE_PARTITIONS && AllCovered(me, md5, start, calls, passes)
      invariant Mine(world.deeds, Checker(me)) == before + AllPassSteps(me, passes)
    {
      var pass := CheckPartition(world, me, md5, BusyScan.PartitionAt(start, |passes|), calls);
      PassAppends(me, passes, pass, before);
      CoveredGrows(me, md5, start, calls, passes, pass);
      passes := passes + [pass];
    }
  }
}
