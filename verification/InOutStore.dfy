/**
  The data plane: large values in an object bucket with a cache in front, written
  through.  The class keeps the last put of every (task, kind) as a ghost map and
  shows that a get returns it, whatever the cache evicted in between.
 */
module InOutStore {
  import opened Prelude

  newtype Byte = x: int | 0 <= x < 256

  type Bytes = seq<Byte>

  datatype Kind = Input | Output | Error | Payload

  function Postfix(k: Kind): string {
    match k
    case Input => "-input"
    case Output => "-output"
    case Error => "-error"
    case Payload => "-payload"
  }

  /** __get_full_key */
  function FullKey(subnamespace: Option<string>, task: string, k: Kind): string {
    match subnamespace
    case Some(s) => s + "/" + task + Postfix(k)
    case None => task + Postfix(k)
  }

  lemma PostfixesDiffer(a: string, k: Kind, b: string, l: Kind)
    requires a + Postfix(k) == b + Postfix(l)
    ensures k == l && a == b
  {
    var whole := a + Postfix(k);
    var n := |whole|;
    assert whole[n - 4] == Postfix(k)[|Postfix(k)| - 4] == Postfix(l)[|Postfix(l)| - 4];
    assert whole[n - 1] == Postfix(k)[|Postfix(k)| - 1] == Postfix(l)[|Postfix(l)| - 1];
    assert k == l;
    assert a == whole[..|a|] && b == whole[..|b|];
  }

  /** Keys of different tasks or kinds never collide. */
  lemma KeysNeverCollide(subnamespace: Option<string>, task: string, k: Kind, other: string, l: Kind)
    ensures FullKey(subnamespace, task, k) == FullKey(subnamespace, other, l) <==> task == other && k == l
  {
    if FullKey(subnamespace, task, k) == FullKey(subnamespace, other, l) {
      match subnamespace
      case None => PostfixesDiffer(task, k, other, l);
      case Some(s) =>
        var prefix := s + "/";
        PostfixesDiffer(prefix + task, k, prefix + other, l);
        assert task == (prefix + task)[|prefix|..] && other == (prefix + other)[|prefix|..];
    }
  }

  datatype Fetch = Data(data: Bytes) | Raised

  class InOutRedis {
    const subnamespace: Option<string>
    const useS3: bool
    var bucket: map<string, Bytes>
    var cache: map<string, Bytes>
    /** The last value put for each task and kind. */
    ghost var contents: map<(string, Kind), Bytes>

    function Key(task: string, k: Kind): string {
      FullKey(subnamespace, task, k)
    }

    /** The bucket, when there is one, holds exactly the last puts; the cache never holds anything else. */
    ghost predicate Valid()
      reads this
    {
      && (useS3 ==> forall t, k :: (Key(t, k) in bucket <==> (t, k) in contents)
                                && ((t, k) in contents ==> bucket[Key(t, k)] == contents[(t, k)]))
      && (!useS3 ==> bucket == map[])
      && (forall t, k :: Key(t, k) in cache ==> (t, k) in contents && cache[Key(t, k)] == contents[(t, k)])
    }

    constructor (subnamespace: Option<string>, useS3: bool)
      ensures Valid() && contents == map[] && this.useS3 == useS3 && this.subnamespace == subnamespace
    {
      this.subnamespace, this.useS3 := subnamespace, useS3;
      bucket, cache, contents := map[], map[], map[];
    }

    /** __put_from_bytes: bucket first, then cache. */
    method PutFromBytes(task: string, data: Bytes, k: Kind)
      requires Valid()
      modifies this
      ensures Valid() && contents == old(contents)[(task, k) := data]
      ensures cache == old(cache)[Key(task, k) := data]
      ensures bucket == if useS3 then old(bucket)[Key(task, k) := data] else old(bucket)
    {
      forall t, l ensures Key(t, l) == Key(task, k) <==> t == task && l == k {
        KeysNeverCollide(subnamespace, t, l, task, k);
      }
      if useS3 {
        bucket := bucket[Key(task, k) := data];
      }
      cache := cache[Key(task, k) := data];
      contents := contents[(task, k) := data];
    }

    /**
      The same put when the cache write raises after the upload: the cache may then
      disagree with the bucket, exactly when it still holds another value for the key.
     */
    method PutWithCacheFailure(task: string, data: Bytes, k: Kind)
      requires Valid() && useS3
      modifies this
      ensures contents == old(contents)[(task, k) := data] && cache == old(cache)
      ensures bucket == old(bucket)[Key(task, k) := data]
      ensures Valid() <==> (Key(task, k) in old(cache) ==> old(cache)[Key(task, k)] == data)
    {
      forall t, l ensures Key(t, l) == Key(task, k) <==> t == task && l == k {
        KeysNeverCollide(subnamespace, t, l, task, k);
      }
      bucket := bucket[Key(task, k) := data];
      contents := contents[(task, k) := data];
    }

    /** __get_to_bytes: a hit is returned as it is; a miss is fetched, refused when empty, and cached. */
    method GetToBytes(task: string, k: Kind) returns (r: Fetch)
      requires Valid()
      modifies this`cache
      ensures Valid()
      ensures r.Data? ==> (task, k) in contents && r.data == contents[(task, k)]
      ensures r.Data? <==> Key(task, k) in old(cache) || (useS3 && (task, k) in contents && contents[(task, k)] != [])
      ensures cache == if r.Data? then old(cache)[Key(task, k) := r.data] else old(cache)
    {
      if Key(task, k) in cache {
        return Data(cache[Key(task, k)]);
      }
      if !useS3 || Key(task, k) !in bucket {
        return Raised;
      }
      var data := bucket[Key(task, k)];
      if data == [] {
        return Raised;
      }
      forall t, l ensures Key(t, l) == Key(task, k) <==> t == task && l == k {
        KeysNeverCollide(subnamespace, t, l, task, k);
      }
      cache := cache[Key(task, k) := data];
      return Data(data);
    }

    /** The cache drops whatever it likes. */
    method Evict(keys: set<string>)
      requires Valid()
      modifies this`cache
      ensures Valid() && cache == old(cache) - keys
    {
      cache := cache - keys;
    }
  }

  // ---- any run of puts, gets and evictions ----

  datatype Op = Put(task: string, kind: Kind, data: Bytes) | Get(task: string, kind: Kind) | Drop(keys: set<string>)

  type Contents = map<(string, Kind), Bytes>

  function WithPut(contents: Contents, op: Op): Contents {
    if op.Put? then contents[(op.task, op.kind) := op.data] else contents
  }

  /** The plain map the first n operations leave. */
  function Meaning(start: Contents, ops: seq<Op>, n: nat): Contents
    requires n <= |ops|
  {
    if n == 0 then start else WithPut(Meaning(start, ops, n - 1), ops[n - 1])
  }

  /** What the plain map answers to an operation; only gets are answered. */
  function AnswerOf(contents: Contents, op: Op): Option<Fetch> {
    if !op.Get? then None
    else if (op.task, op.kind) in contents then Some(Data(contents[(op.task, op.kind)]))
    else Some(Raised)
  }

  predicate NoneEmpty(contents: Contents) {
    forall p :: p in contents ==> contents[p] != []
  }

  method Perform(store: InOutRedis, op: Op) returns (answer: Option<Fetch>)
    requires store.Valid() && store.useS3 && NoneEmpty(store.contents) && (op.Put? ==> op.data != [])
    modifies store
    ensures store.Valid() && answer == AnswerOf(old(store.contents), op)
    ensures store.contents == WithPut(old(store.contents), op) && NoneEmpty(store.contents)
  {
    match op {
      case Put(t, k, data) =>
        store.PutFromBytes(t, data, k);
        return None;
      case Get(t, k) =>
        var r := store.GetToBytes(t, k);
        return Some(r);
      case Drop(keys) =>
        store.Evict(keys);
        return None;
    }
  }

  /** The plain map's answers to the first n operations. */
  function Answers(start: Contents, ops: seq<Op>, n: nat): seq<Option<Fetch>>
    requires n <= |ops|
  {
    if n == 0 then [] else Answers(start, ops, n - 1) + [AnswerOf(Meaning(start, ops, n - 1), ops[n - 1])]
  }

  /**
    With the bucket in place and no empty values put, every get of any run returns
    what the plain map holds at that point, and fails only for what was never put.
   */
  method Execute(store: InOutRedis, ops: seq<Op>) returns (answers: seq<Option<Fetch>>)
    requires store.Valid() && store.useS3 && NoneEmpty(store.contents)
    requires forall i :: 0 <= i < |ops| && ops[i].Put? ==> ops[i].data != []
    modifies store
    ensures store.Valid() && store.contents == Meaning(old(store.contents), ops, |ops|) && NoneEmpty(store.contents)
    ensures answers == Answers(old(store.contents), ops, |ops|)
  {
    answers := [];
    for i := 0 to |ops|
      invariant store.Valid() && store.contents == Meaning(old(store.contents), ops, i) && NoneEmpty(store.contents)
      invariant answers == Answers(old(store.contents), ops, i)
    {
      var answer := Perform(store, ops[i]);
      answers := answers + [answer];
    }
  }

  /** The answer at each position is the plain map's at that point. */
  lemma {:induction false} AnswersAt(start: Contents, ops: seq<Op>, n: nat, i: nat)
    requires i < n <= |ops|
    ensures |Answers(start, ops, n)| == n && Answers(start, ops, n)[i] == AnswerOf(Meaning(start, ops, i), ops[i])
  {
    AnswersSize(start, ops, n - 1);
    if i < n - 1 {
      AnswersAt(start, ops, n - 1, i);
    }
  }

  lemma {:induction false} AnswersSize(start: Contents, ops: seq<Op>, n: nat)
    requires n <= |ops|
    ensures |Answers(start, ops, n)| == n
  {
    if n > 0 {
      AnswersSize(start, ops, n - 1);
    }
  }

  // ---- a get that others overtake ----

  /** The last value the first n operations put for a task and kind. */
  function LastPut(ops: seq<Op>, n: nat, task: string, k: Kind): Option<Bytes>
    requires n <= |ops|
  {
    if n == 0 then None
    else if ops[n - 1].Put? && ops[n - 1].task == task && ops[n - 1].kind == k then Some(ops[n - 1].data)
    else LastPut(ops, n - 1, task, k)
  }

  lemma {:induction false} LastPutIsMeaning(start: Contents, ops: seq<Op>, n: nat, task: string, k: Kind)
    requires n <= |ops|
    ensures match LastPut(ops, n, task, k)
      case Some(data) => (task, k) in Meaning(start, ops, n) && Meaning(start, ops, n)[(task, k)] == data
      case None => ((task, k) in Meaning(start, ops, n) <==> (task, k) in start)
                   && ((task, k) in start ==> Meaning(start, ops, n)[(task, k)] == start[(task, k)])
  {
    if n > 0 {
      LastPutIsMeaning(start, ops, n - 1, task, k);
    }
  }

  /** The refill of a miss, after whatever happened since the download. */
  method Refill(store: InOutRedis, task: string, k: Kind, data: Bytes)
    requires store.Valid() && store.useS3 && (task, k) in store.contents
    modifies store`cache
    ensures store.cache == old(store.cache)[store.Key(task, k) := data]
    ensures store.Valid() <==> data == store.contents[(task, k)]
  {
    forall t, l ensures store.Key(t, l) == store.Key(task, k) <==> t == task && l == k {
      KeysNeverCollide(store.subnamespace, t, l, task, k);
    }
    store.cache := store.cache[store.Key(task, k) := data];
  }

  /**
    A get whose download and refill are overtaken by the operations of other processes.
    It returns what the bucket held when it looked; and it leaves a cached entry that
    disagrees with the bucket exactly when it missed, found a value, and the last put of
    that task and kind in between wrote another one.
   */
  method GetOvertaken(store: InOutRedis, task: string, k: Kind, others: seq<Op>) returns (r: Fetch)
    requires store.Valid() && store.useS3 && NoneEmpty(store.contents)
    requires forall i :: 0 <= i < |others| && others[i].Put? ==> others[i].data != []
    modifies store
    ensures Some(r) == AnswerOf(old(store.contents), Get(task, k))
    ensures store.contents == Meaning(old(store.contents), others, |others|)
    ensures store.Valid() <==>
            store.Key(task, k) in old(store.cache) || r.Raised? || LastPut(others, |others|, task, k) in {None, Some(r.data)}
  {
    LastPutIsMeaning(store.contents, others, |others|, task, k);
    var hit := store.Key(task, k) in store.cache;
    r := if hit then Data(store.cache[store.Key(task, k)])
         else if store.Key(task, k) in store.bucket && store.bucket[store.Key(task, k)] != [] then Data(store.bucket[store.Key(task, k)])
         else Raised;
    var answers := Execute(store, others);
    if !hit && r.Data? {
      Refill(store, task, k, r.data);
    }
  }
}
