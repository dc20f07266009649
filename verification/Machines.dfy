/**
  Machines as the capacity controller sees them: their identity, age, size in vCPUs
  and drain state, and the orders it sorts them in.
 */
module Machines {
  import opened Prelude

  /** A status field: missing, convertible to an integer, or present but not numeric. */
  datatype Field = Absent | Num(n: int) | Junk

  /** An empty text is a missing id or timestamp.  `deadline` is the drain deadline's tag. */
  datatype Machine = Machine(
    id: string, createdAt: string, launchTime: string,
    topVcpus: Field, providerVcpus: Field, topMemory: Field, providerMemory: Field,
    draining: bool, deadline: Field)

  datatype Settings = Settings(pairCpu: nat, pairMemory: nat, minVcpus: int, maxVcpus: int, targetPerPair: nat, drainSeconds: nat)

  /** The module clamps these three to at least one when it reads its environment. */
  predicate Valid(c: Settings) {
    c.pairCpu >= 1 && c.pairMemory >= 1 && c.targetPerPair >= 1
  }

  /** _machine_field_int: top level first, provider data only when the top level is missing. */
  function FieldInt(top: Field, provider: Field): Option<int> {
    match if top.Absent? then provider else top
    case Num(n) => Some(n)
    case _ => None
  }

  /** _vcpus_of: real vCPUs, else a size by memory, else one pair; never less than one. */
  function Vcpus(c: Settings, m: Machine): (v: int)
    requires Valid(c)
    ensures v >= 1
  {
    var vcpus := FieldInt(m.topVcpus, m.providerVcpus);
    var memory := FieldInt(m.topMemory, m.providerMemory);
    if vcpus.Some? && vcpus.value > 0 then vcpus.value
    else if memory.Some? && memory.value > 0 then SizeByMemory(c, memory.value)
    else c.pairCpu
  }

  /** One pair per full pairMemory, at least one, expressed in vCPUs; SizeByMemoryIsPairs has the closed form. */
  function SizeByMemory(c: Settings, memory: nat): (v: int)
    requires Valid(c)
    ensures v >= c.pairCpu
    decreases memory
  {
    if memory < 2 * c.pairMemory then c.pairCpu else c.pairCpu + SizeByMemory(c, memory - c.pairMemory)
  }

  /** The source's max(1, memory // pairMemory) * pairCpu: `pairs` is the quotient, `rest` the remainder. */
  lemma {:induction false} SizeByMemoryIsPairs(c: Settings, pairs: nat, rest: nat)
    requires Valid(c) && rest < c.pairMemory
    ensures SizeByMemory(c, pairs * c.pairMemory + rest) == Max(1, pairs) * c.pairCpu
  {
    var memory := pairs * c.pairMemory + rest;
    if pairs >= 2 {
      assert (pairs - 1) * c.pairMemory == pairs * c.pairMemory - c.pairMemory;
      assert (pairs - 2) * c.pairMemory >= 0;
      SizeByMemoryIsPairs(c, pairs - 1, rest);
      assert pairs * c.pairCpu == (pairs - 1) * c.pairCpu + c.pairCpu;
    }
  }

  /** The source's memory // pairMemory. */
  lemma SizeByMemoryIs(c: Settings, memory: nat)
    requires Valid(c)
    ensures SizeByMemory(c, memory) == Max(1, memory / c.pairMemory) * c.pairCpu
  {
    assert memory == memory / c.pairMemory * c.pairMemory + memory % c.pairMemory;
    SizeByMemoryIsPairs(c, memory / c.pairMemory, memory % c.pairMemory);
  }

  /**
    Where a size comes from: known vCPUs win over memory, and within each the top level
    over provider data, which only counts when the top level is missing; a value that is
    not a positive number counts as unknown; with nothing known it is one pair.
   */
  lemma VcpusFallBack(c: Settings, m: Machine, n: int)
    requires Valid(c)
    ensures m.topVcpus == Num(n) && n > 0 ==> Vcpus(c, m) == n
    ensures m.topVcpus.Absent? && m.providerVcpus == Num(n) && n > 0 ==> Vcpus(c, m) == n
    ensures NoVcpus(m) && m.topMemory == Num(n) && n > 0 ==> Vcpus(c, m) == Max(1, n / c.pairMemory) * c.pairCpu
    ensures NoVcpus(m) && m.topMemory.Absent? && m.providerMemory == Num(n) && n > 0 ==> Vcpus(c, m) == Max(1, n / c.pairMemory) * c.pairCpu
    ensures NoVcpus(m) && Unusable(m.topMemory, m.providerMemory) ==> Vcpus(c, m) == c.pairCpu
  {
    if n > 0 {
      SizeByMemoryIs(c, n);
    }
  }

  predicate Unusable(top: Field, provider: Field) {
    top.Junk? || (top.Num? && top.n <= 0) || (top.Absent? && (provider.Num? ==> provider.n <= 0))
  }

  predicate NoVcpus(m: Machine) {
    Unusable(m.topVcpus, m.providerVcpus)
  }

  /** _machine_age_key */
  function AgeKey(m: Machine): string {
    if m.createdAt != "" then m.createdAt else if m.launchTime != "" then m.launchTime else m.id
  }

  /** Python's order on texts: lexicographic by code point. */
  predicate TextLe(a: string, b: string) {
    a == [] || (b != [] && (a[0] < b[0] || (a[0] == b[0] && TextLe(a[1..], b[1..]))))
  }

  lemma {:induction false} TextLeTotal(a: string, b: string)
    ensures TextLe(a, b) || TextLe(b, a)
  {
    if a != [] && b != [] && a[0] == b[0] {
      TextLeTotal(a[1..], b[1..]);
    }
  }

  lemma {:induction false} TextLeTransitive(a: string, b: string, c: string)
    requires TextLe(a, b) && TextLe(b, c)
    ensures TextLe(a, c)
  {
    if a != [] && a[0] == b[0] && b[0] == c[0] {
      TextLeTransitive(a[1..], b[1..], c[1..]);
    }
  }

  predicate IsBusy(busy: set<string>, m: Machine) {
    m.id in busy
  }

  /** The victim order, idle before busy and then by age; with nothing busy it is the age order. */
  predicate Precedes(busy: set<string>, a: Machine, b: Machine) {
    if IsBusy(busy, a) == IsBusy(busy, b) then TextLe(AgeKey(a), AgeKey(b)) else IsBusy(busy, b)
  }

  lemma PrecedesTotal(busy: set<string>, a: Machine, b: Machine)
    ensures Precedes(busy, a, b) || Precedes(busy, b, a)
  {
    TextLeTotal(AgeKey(a), AgeKey(b));
  }

  lemma PrecedesTransitive(busy: set<string>, a: Machine, b: Machine, c: Machine)
    requires Precedes(busy, a, b) && Precedes(busy, b, c)
    ensures Precedes(busy, a, c)
  {
    if IsBusy(busy, a) == IsBusy(busy, c) {
      TextLeTransitive(AgeKey(a), AgeKey(b), AgeKey(c));
    }
  }

  ghost predicate Ordered(busy: set<string>, s: seq<Machine>) {
    forall i, j :: 0 <= i < j < |s| ==> Precedes(busy, s[i], s[j])
  }

  /** Python's sorted, a stable sort, for this order. */
  function Sorted(busy: set<string>, s: seq<Machine>): seq<Machine> {
    if s == [] then [] else Insert(busy, s[0], Sorted(busy, s[1..]))
  }

  function Insert(busy: set<string>, m: Machine, s: seq<Machine>): seq<Machine> {
    if s == [] || Precedes(busy, m, s[0]) then [m] + s else [s[0]] + Insert(busy, m, s[1..])
  }

  lemma {:induction false} InsertIsOrdered(busy: set<string>, m: Machine, s: seq<Machine>)
    requires Ordered(busy, s)
    ensures Ordered(busy, Insert(busy, m, s)) && multiset(Insert(busy, m, s)) == multiset(s) + multiset{m}
  {
    if s == [] {
    } else if Precedes(busy, m, s[0]) {
      forall j | 1 <= j < |s| ensures Precedes(busy, m, s[j]) {
        PrecedesTransitive(busy, m, s[0], s[j]);
      }
    } else {
      PrecedesTotal(busy, m, s[0]);
      InsertIsOrdered(busy, m, s[1..]);
      assert s == [s[0]] + s[1..];
      var rest := Insert(busy, m, s[1..]);
      forall j | 0 <= j < |rest| ensures Precedes(busy, s[0], rest[j]) {
        assert rest[j] in multiset(rest);
        assert rest[j] == m || rest[j] in s[1..];
      }
    }
  }

  lemma {:induction false} SortedIsOrdered(busy: set<string>, s: seq<Machine>)
    ensures Ordered(busy, Sorted(busy, s)) && multiset(Sorted(busy, s)) == multiset(s)
  {
    if s != [] {
      SortedIsOrdered(busy, s[1..]);
      InsertIsOrdered(busy, s[0], Sorted(busy, s[1..]));
      assert s == [s[0]] + s[1..];
    }
  }

  // ---- sums ----

  function Sum(c: Settings, s: seq<Machine>): int
    requires Valid(c)
  {
    if s == [] then 0 else Vcpus(c, s[0]) + Sum(c, s[1..])
  }

  lemma {:induction false} SumOfConcat(c: Settings, s: seq<Machine>, t: seq<Machine>)
    requires Valid(c)
    ensures Sum(c, s + t) == Sum(c, s) + Sum(c, t)
  {
    if s == [] {
      assert s + t == t;
    } else {
      SumOfConcat(c, s[1..], t);
      assert (s + t)[1..] == s[1..] + t;
    }
  }

  lemma {:induction false} SumAtLeastCount(c: Settings, s: seq<Machine>)
    requires Valid(c)
    ensures Sum(c, s) >= |s|
  {
    if s != [] {
      SumAtLeastCount(c, s[1..]);
    }
  }

  lemma {:induction false} SumOfInsert(c: Settings, busy: set<string>, m: Machine, s: seq<Machine>)
    requires Valid(c)
    ensures Sum(c, Insert(busy, m, s)) == Vcpus(c, m) + Sum(c, s)
  {
    if s != [] && !Precedes(busy, m, s[0]) {
      SumOfInsert(c, busy, m, s[1..]);
    }
  }

  lemma {:induction false} SumOfSorted(c: Settings, busy: set<string>, s: seq<Machine>)
    requires Valid(c)
    ensures Sum(c, Sorted(busy, s)) == Sum(c, s)
  {
    if s != [] {
      SumOfSorted(c, busy, s[1..]);
      SumOfInsert(c, busy, s[0], Sorted(busy, s[1..]));
    }
  }
}
