/**
  The scan behind the capacity controller's busy set: 32 index partitions from a
  random start, each followed page by page, and the owners of the live tasks mapped
  back to the instances they run on.  Each partition is queried at its own moment, on
  the table and the clock as they are then.
 */
module BusyScan {
  import opened Prelude
  import opened TaskStates
  import opened Rows
  import opened StateTables

  const PAIR_MARK := "-pair-"

  /** owner.split("-pair-")[0] */
  function InstanceOf(owner: string): string {
    if owner == [] || StartsWith(owner, PAIR_MARK) then [] else [owner[0]] + InstanceOf(owner[1..])
  }

  /** `mark` occurs somewhere in `text`. */
  predicate Contains(text: string, mark: string) {
    StartsWith(text, mark) || (text != [] && Contains(text[1..], mark))
  }

  /**
    The instance id is recovered from an owner of the form id-pair-N exactly when
    the mark does not already occur before the one that was appended.
   */
  lemma {:induction false} InstanceOfOwner(id: string, n: string)
    ensures InstanceOf(id + PAIR_MARK + n) == id <==> !Contains(id + "-pair", PAIR_MARK)
  {
    var owner, head := id + PAIR_MARK + n, id + "-pair";
    if id == [] {
      assert owner[..|PAIR_MARK|] == PAIR_MARK;
      assert head == "-pair";
      ShortTextsContainNoMark(head);
    } else {
      assert owner == head + (['-'] + n);
      assert owner[..|PAIR_MARK|] == head[..|PAIR_MARK|];
      assert owner[1..] == id[1..] + PAIR_MARK + n;
      assert head[1..] == id[1..] + "-pair";
      InstanceOfOwner(id[1..], n);
    }
  }

  lemma {:induction false} ShortTextsContainNoMark(text: string)
    requires |text| < |PAIR_MARK|
    ensures !Contains(text, PAIR_MARK)
  {
    if text != [] {
      ShortTextsContainNoMark(text[1..]);
    }
  }

  // ---- the partitions ----

  /** The partition the generator reads at step `i` of a scan that started at `start`. */
  function PartitionAt(start: nat, i: nat): nat {
    (start + i) % MAX_STATE_PARTITIONS
  }

  /** From any start, the scan reads every partition at exactly one of its steps. */
  lemma EachPartitionOnce(start: nat, p: nat) returns (i: nat)
    requires p < MAX_STATE_PARTITIONS
    ensures i < MAX_STATE_PARTITIONS && PartitionAt(start, i) == p
    ensures forall j: nat :: j < MAX_STATE_PARTITIONS && PartitionAt(start, j) == p ==> j == i
  {
    i := (p + MAX_STATE_PARTITIONS - start % MAX_STATE_PARTITIONS) % MAX_STATE_PARTITIONS;
  }

  // ---- the busy set ----

  predicate IsInstance(id: string) {
    id != "" && id != NO_OWNER
  }

  /** The table and the clock when a partition is queried. */
  datatype Moment = Moment(items: map<string, Item>, now: int)

  /** The instances owning the tasks `ts`. */
  function InstancesOf(items: map<string, Item>, ts: set<string>): set<string>
    requires ts <= items.Keys
  {
    set t | t in ts && IsInstance(InstanceOf(items[t].owner)) :: InstanceOf(items[t].owner)
  }

  function InstancesAt(m: Moment, partition: nat): set<string> {
    InstancesOf(m.items, LiveIndex(m.items, partition, m.now))
  }

  /** The partitions in the order the scan reads them. */
  function PartitionsFrom(start: nat): (s: seq<nat>)
    ensures |s| == MAX_STATE_PARTITIONS && forall i :: 0 <= i < |s| ==> s[i] == PartitionAt(start, i)
  {
    seq(MAX_STATE_PARTITIONS, i requires 0 <= i < MAX_STATE_PARTITIONS => PartitionAt(start, i))
  }

  /** What each step finds, reading partitions[i] at moments[i]. */
  function Results(moments: seq<Moment>, partitions: seq<nat>): (s: seq<set<string>>)
    requires |moments| == |partitions|
    ensures |s| == |moments| && forall i :: 0 <= i < |s| ==> s[i] == InstancesAt(moments[i], partitions[i])
  {
    seq(|moments|, i requires 0 <= i < |moments| => InstancesAt(moments[i], partitions[i]))
  }

  function Union(sets: seq<set<string>>): set<string> {
    if sets == [] then {} else Union(sets[..|sets| - 1]) + sets[|sets| - 1]
  }

  lemma {:induction false} UnionHas(sets: seq<set<string>>, id: string)
    ensures id in Union(sets) <==> exists i :: 0 <= i < |sets| && id in sets[i]
  {
    if sets != [] {
      var shorter := sets[..|sets| - 1];
      UnionHas(shorter, id);
      assert forall i :: 0 <= i < |shorter| ==> shorter[i] == sets[i];
    }
  }

  lemma UnionStep(sets: seq<set<string>>, n: nat)
    requires n < |sets|
    ensures Union(sets[..n + 1]) == Union(sets[..n]) + sets[n]
  {
    assert sets[..n + 1][..n] == sets[..n];
  }

  /** What the scan from a start finds. */
  function Found(moments: seq<Moment>, start: nat): set<string>
    requires |moments| == MAX_STATE_PARTITIONS
  {
    Union(Results(moments, PartitionsFrom(start)))
  }

  // ---- what that means on the abstract table ----

  /** The instance owns the task, which is being processed with a heartbeat after now. */
  predicate OwnsLive(rows: map<string, Row>, now: int, t: string, id: string) {
    && t in rows && rows[t].status.Processing? && rows[t].heartbeat > now
    && InstanceOf(OwnerText(rows[t].owner)) == id && IsInstance(id)
  }

  lemma InstancesAtDecodes(md5: Hash, m: Moment, rows: map<string, Row>, partition: nat, id: string)
    requires Encodes(md5, m.items, rows)
    ensures id in InstancesAt(m, partition) <==>
            exists t :: OwnsLive(rows, m.now, t, id) && Partition(md5, SessionOf(t)) == partition
  {
    LiveIndexDecodes(md5, m.items, rows, partition, m.now);
    var live := LiveIndex(m.items, partition, m.now);
    forall t | t in live ensures InstanceOf(m.items[t].owner) == InstanceOf(OwnerText(rows[t].owner)) {
    }
    if t :| OwnsLive(rows, m.now, t, id) && Partition(md5, SessionOf(t)) == partition {
      assert t in live;
    }
  }

  /** `tables` are the abstract tables at the moments of the scan. */
  ghost predicate Follows(md5: Hash, moments: seq<Moment>, tables: seq<map<string, Row>>) {
    && |moments| == |tables| == MAX_STATE_PARTITIONS
    && forall i :: 0 <= i < |moments| ==> Encodes(md5, moments[i].items, tables[i])
  }

  /** The step at which a task's partition is read. */
  function StepOf(md5: Hash, start: nat, t: string): (i: nat)
    ensures i < MAX_STATE_PARTITIONS && PartitionAt(start, i) == Partition(md5, SessionOf(t))
  {
    (Partition(md5, SessionOf(t)) + MAX_STATE_PARTITIONS - start % MAX_STATE_PARTITIONS) % MAX_STATE_PARTITIONS
  }

  lemma StepOfOnly(md5: Hash, start: nat, t: string, i: nat)
    requires i < MAX_STATE_PARTITIONS && PartitionAt(start, i) == Partition(md5, SessionOf(t))
    ensures i == StepOf(md5, start, t)
  {
    var j := EachPartitionOnce(start, Partition(md5, SessionOf(t)));
  }

  lemma FoundIsBusy(md5: Hash, moments: seq<Moment>, tables: seq<map<string, Row>>, start: nat, id: string, i: nat) returns (t: string)
    requires Follows(md5, moments, tables) && i < |moments| && id in InstancesAt(moments[i], PartitionAt(start, i))
    ensures StepOf(md5, start, t) == i && OwnsLive(tables[i], moments[i].now, t, id)
  {
    InstancesAtDecodes(md5, moments[i], tables[i], PartitionAt(start, i), id);
    t :| OwnsLive(tables[i], moments[i].now, t, id) && Partition(md5, SessionOf(t)) == PartitionAt(start, i);
    StepOfOnly(md5, start, t, i);
  }

  lemma BusyIsFound(md5: Hash, moments: seq<Moment>, tables: seq<map<string, Row>>, start: nat, id: string, t: string)
    requires Follows(md5, moments, tables)
    requires OwnsLive(tables[StepOf(md5, start, t)], moments[StepOf(md5, start, t)].now, t, id)
    ensures var i := StepOf(md5, start, t); id in InstancesAt(moments[i], PartitionAt(start, i))
  {
    var i := StepOf(md5, start, t);
    InstancesAtDecodes(md5, moments[i], tables[i], PartitionAt(start, i), id);
  }

  /**
    Main result: the scan finds exactly the instances that own a live task at the
    moment the task's partition is read.
   */
  lemma ScanFindsBusy(md5: Hash, moments: seq<Moment>, tables: seq<map<string, Row>>, start: nat, id: string)
    requires Follows(md5, moments, tables)
    ensures id in Found(moments, start) <==>
            exists t :: OwnsLive(tables[StepOf(md5, start, t)], moments[StepOf(md5, start, t)].now, t, id)
  {
    var results := Results(moments, PartitionsFrom(start));
    UnionHas(results, id);
    if i: nat :| i < |results| && id in results[i] {
      var t := FoundIsBusy(md5, moments, tables, start, id, i);
    }
    if t :| OwnsLive(tables[StepOf(md5, start, t)], moments[StepOf(md5, start, t)].now, t, id) {
      BusyIsFound(md5, moments, tables, start, id, t);
    }
  }

  /** On one snapshot it finds exactly the instances owning a live task. */
  lemma SnapshotFindsBusy(md5: Hash, moments: seq<Moment>, tables: seq<map<string, Row>>, start: nat, rows: map<string, Row>, now: int, id: string)
    requires Follows(md5, moments, tables)
    requires forall i :: 0 <= i < |moments| ==> tables[i] == rows && moments[i].now == now
    ensures id in Found(moments, start) <==> exists t :: OwnsLive(rows, now, t, id)
  {
    ScanFindsBusy(md5, moments, tables, start, id);
    if t :| OwnsLive(rows, now, t, id) {
      assert OwnsLive(tables[StepOf(md5, start, t)], moments[StepOf(md5, start, t)].now, t, id);
    }
  }

  lemma FoundIsInstance(moments: seq<Moment>, start: nat, id: string)
    requires |moments| == MAX_STATE_PARTITIONS && id in Found(moments, start)
    ensures id != "" && id != "None"
  {
    UnionHas(Results(moments, PartitionsFrom(start)), id);
  }

  /**
    What the controller relies on: an instance at work is found busy.  If one of its
    agents owns a processing row whose heartbeat is after the clock when the row's
    partition is read, the instance is found; and neither the empty text nor the text
    "None" ever is.
   */
  lemma WorkingInstanceIsBusy(md5: Hash, moments: seq<Moment>, tables: seq<map<string, Row>>, start: nat, id: string, n: string, t: string)
    requires Follows(md5, moments, tables)
    requires id != "" && id != "None" && !Contains(id + "-pair", "-pair-")
    requires var i := StepOf(md5, start, t);
      && t in tables[i] && tables[i][t].status == Processing && tables[i][t].heartbeat > moments[i].now
      && tables[i][t].owner == Some(id + "-pair-" + n)
    ensures id in Found(moments, start)
    ensures "" !in Found(moments, start) && "None" !in Found(moments, start)
  {
    var i := StepOf(md5, start, t);
    InstanceOfOwner(id, n);
    assert OwnsLive(tables[i], moments[i].now, t, id);
    ScanFindsBusy(md5, moments, tables, start, id);
    if "" in Found(moments, start) {
      FoundIsInstance(moments, start, "");
    }
    if "None" in Found(moments, start) {
      FoundIsInstance(moments, start, "None");
    }
  }

  // ---- the loops ----

  ghost predicate Serves(m: Moment, partition: nat, pages: seq<seq<string>>) {
    pages != [] && Lists(Flatten(pages), LiveIndex(m.items, partition, m.now))
  }

  /** The pages of each of the first n steps' queries list exactly its index result at that moment. */
  ghost predicate ServesFirst(moments: seq<Moment>, partitions: seq<nat>, pages: seq<seq<seq<string>>>, n: nat)
    requires n <= |moments| == |partitions| == |pages|
  {
    n == 0 || (ServesFirst(moments, partitions, pages, n - 1) && Serves(moments[n - 1], partitions[n - 1], pages[n - 1]))
  }

  lemma {:induction false} ServesAt(moments: seq<Moment>, partitions: seq<nat>, pages: seq<seq<seq<string>>>, n: nat, i: nat)
    requires i < n <= |moments| == |partitions| == |pages| && ServesFirst(moments, partitions, pages, n)
    ensures Serves(moments[i], partitions[i], pages[i])
  {
    if i < n - 1 {
      ServesAt(moments, partitions, pages, n - 1, i);
    }
  }

  /** The first n results are what their steps find. */
  ghost predicate AreFound(moments: seq<Moment>, partitions: seq<nat>, results: seq<set<string>>, n: nat)
    requires n <= |moments| == |partitions| == |results|
  {
    n == 0 || (AreFound(moments, partitions, results, n - 1) && Finds(moments[n - 1], partitions[n - 1], results[n - 1]))
  }

  ghost predicate Finds(m: Moment, partition: nat, ids: set<string>) {
    ids == InstancesAt(m, partition)
  }

  lemma {:induction false} FoundAt(moments: seq<Moment>, partitions: seq<nat>, results: seq<set<string>>, n: nat, i: nat)
    requires i < n <= |moments| == |partitions| == |results| && AreFound(moments, partitions, results, n)
    ensures results[i] == InstancesAt(moments[i], partitions[i])
  {
    if i < n - 1 {
      FoundAt(moments, partitions, results, n - 1, i);
    } else {
      assert Finds(moments[i], partitions[i], results[i]);
    }
  }

  lemma {:induction false} ResultsAreFound(moments: seq<Moment>, partitions: seq<nat>, n: nat)
    requires n <= |moments| == |partitions|
    ensures AreFound(moments, partitions, Results(moments, partitions), n)
  {
    if n > 0 {
      ResultsAreFound(moments, partitions, n - 1);
      assert Finds(moments[n - 1], partitions[n - 1], Results(moments, partitions)[n - 1]);
    }
  }

  /**
    busy_instance_ids: pages[i] is how the service splits the result of step i's query,
    `throttledAt` the step at which a query is throttled, if any.
   */
  method BusyInstanceIds(start: nat, moments: seq<Moment>, pages: seq<seq<seq<string>>>, throttledAt: Option<nat>)
    returns (busy: Option<set<string>>)
    requires |moments| == |pages| == MAX_STATE_PARTITIONS
    requires ServesFirst(moments, PartitionsFrom(start), pages, |moments|)
    ensures busy.None? <==> throttledAt.Some? && throttledAt.value < MAX_STATE_PARTITIONS
    ensures busy.Some? ==> busy.value == Found(moments, start)
  {
    ResultsAreFound(moments, PartitionsFrom(start), |moments|);
    busy := Scan(moments, PartitionsFrom(start), pages, throttledAt, Results(moments, PartitionsFrom(start)));
  }

  method Scan(moments: seq<Moment>, partitions: seq<nat>, pages: seq<seq<seq<string>>>, throttledAt: Option<nat>, ghost results: seq<set<string>>)
    returns (busy: Option<set<string>>)
    requires |moments| == |partitions| == |pages| == |results|
    requires ServesFirst(moments, partitions, pages, |moments|) && AreFound(moments, partitions, results, |moments|)
    ensures busy.None? <==> throttledAt.Some? && throttledAt.value < |moments|
    ensures busy.Some? ==> busy.value == Union(results)
  {
    var found: set<string> := {};
    for count := 0 to |moments|
      invariant found == Union(results[..count])
      invariant throttledAt.Some? ==> count <= throttledAt.value
    {
      if throttledAt == Some(count) {
        return None;
      }
      var ids := ReadStep(moments, partitions, pages, count, results);
      UnionStep(results, count);
      found := found + ids;
    }
    assert results[..|moments|] == results;
    busy := Some(found);
  }

  method ReadStep(moments: seq<Moment>, partitions: seq<nat>, pages: seq<seq<seq<string>>>, step: nat, ghost results: seq<set<string>>)
    returns (ids: set<string>)
    requires step < |moments| == |partitions| == |pages| == |results|
    requires ServesFirst(moments, partitions, pages, |moments|) && AreFound(moments, partitions, results, |moments|)
    ensures ids == results[step]
  {
    FoundAt(moments, partitions, results, |moments|, step);
    ServesAt(moments, partitions, pages, |moments|, step);
    ids := InstancesOnPages(moments[step], partitions[step], pages[step]);
  }

  /** One partition: all pages, then the owners of the tasks on them. */
  method InstancesOnPages(m: Moment, partition: nat, pages: seq<seq<string>>) returns (ids: set<string>)
    requires Serves(m, partition, pages)
    ensures ids == InstancesAt(m, partition)
  {
    var live := FollowPages(pages);
    assert Elements(live) == LiveIndex(m.items, partition, m.now);
    ids := OwnersOf(m.items, live);
  }

  method OwnersOf(items: map<string, Item>, live: seq<string>) returns (ids: set<string>)
    requires Elements(live) <= items.Keys
    ensures ids == InstancesOf(items, Elements(live))
  {
    ids := {};
    assert Elements(live[..0]) == {};
    for i := 0 to |live|
      invariant Elements(live[..i]) <= items.Keys
      invariant ids == InstancesOf(items, Elements(live[..i]))
    {
      OneMoreOwner(items, live, i);
      var id := InstanceOf(items[live[i]].owner);
      if IsInstance(id) {
        ids := ids + {id};
      }
    }
    assert live[..|live|] == live;
  }

  lemma OneMoreOwner(items: map<string, Item>, live: seq<string>, i: nat)
    requires i < |live| && Elements(live) <= items.Keys
    ensures live[i] in items && Elements(live[..i]) <= items.Keys && Elements(live[..i + 1]) <= items.Keys
    ensures var id := InstanceOf(items[live[i]].owner);
      InstancesOf(items, Elements(live[..i + 1])) ==
      InstancesOf(items, Elements(live[..i])) + if IsInstance(id) then {id} else {}
  {
    assert live[i] in Elements(live);
    assert forall t :: t in live[..i] ==> t in Elements(live);
    assert Elements(live[..i + 1]) == Elements(live[..i]) + {live[i]};
  }
}
