/** The bounded cache: least recently used out first, entries expire, and every operation samples its own time. */
module BoundedCache {
  import opened Sequences
  import opened Wrappers

  datatype Entry<V> = Entry(value: V, expiresAt: int)

  datatype Cache<V> = Cache(capacity: nat, ttl: nat, recency: seq<string>, entries: map<string, Entry<V>>, hits: nat, misses: nat,
                            expirations: nat, evictions: nat, invalidations: nat)

  function Dropped<V>(c: Cache<V>, key: string): Cache<V> {
    c.(recency := RemoveFirst(c.recency, key), entries := c.entries - {key})
  }

  function ToFront<V>(c: Cache<V>, key: string): Cache<V> {
    c.(recency := [key] + RemoveFirst(c.recency, key))
  }

  predicate Hit<V>(c: Cache<V>, key: string, now: int) {
    key in c.entries && now < c.entries[key].expiresAt
  }

  function Got<V>(c: Cache<V>, key: string, now: int): Cache<V> {
    if key !in c.entries then c.(misses := c.misses + 1)
    else if c.entries[key].expiresAt <= now then Dropped(c, key).(expirations := c.expirations + 1, misses := c.misses + 1)
    else ToFront(c, key).(hits := c.hits + 1)
  }

  function Answer<V>(c: Cache<V>, key: string, now: int): Option<V> {
    if Hit(c, key, now) then Some(c.entries[key].value) else None
  }

  function Evicted<V>(c: Cache<V>): Cache<V> {
    if |c.entries| >= c.capacity && c.recency != [] && c.recency[|c.recency| - 1] in c.entries
    then Dropped(c, c.recency[|c.recency| - 1]).(evictions := c.evictions + 1)
    else c
  }

  function PutInto<V>(c: Cache<V>, key: string, value: V, now: int): Cache<V> {
    var entry := Entry(value, now + c.ttl);
    if key in c.entries then ToFront(c, key).(entries := c.entries[key := entry])
    else
      var room := Evicted(c);
      room.(recency := [key] + room.recency, entries := room.entries[key := entry])
  }

  function Cleared<V>(c: Cache<V>): Cache<V> {
    c.(recency := [], entries := map[], invalidations := c.invalidations + |c.entries|)
  }

  /** The cache as the service holds it. */
  class BoundedJsonCache<V> {
    const capacity: nat
    const ttl: nat
    var recency: seq<string>
    var entries: map<string, Entry<V>>
    var hits: nat
    var misses: nat
    var expirations: nat
    var evictions: nat
    var invalidations: nat

    ghost function State(): Cache<V>
      reads this
    {
      Cache(capacity, ttl, recency, entries, hits, misses, expirations, evictions, invalidations)
    }

    constructor (size: nat, life: nat)
      ensures State() == Cache(size, life, [], map[], 0, 0, 0, 0, 0)
    {
      capacity, ttl, recency, entries := size, life, [], map[];
      hits, misses, expirations, evictions, invalidations := 0, 0, 0, 0, 0;
    }

    method Unlink(key: string)
      requires key in recency
      modifies `recency
      ensures recency == RemoveFirst(old(recency), key)
    {
      var i := 0;
      while recency[i] != key
        invariant 0 <= i < |recency| && forall k :: 0 <= k < i ==> recency[k] != key
        decreases |recency| - i
      {
        i := i + 1;
        assert key in recency[i..] by { assert recency == recency[..i] + recency[i..]; }
      }
      RemoveFirstAt(recency, key, i);
      recency := recency[..i] + recency[i + 1..];
    }

    method Erase(key: string)
      requires key in recency
      modifies `recency, `entries
      ensures State() == Dropped(old(State()), key)
    {
      Unlink(key);
      entries := entries - {key};
    }

    method Get(key: string, now: int) returns (value: Option<V>)
      requires Sound(State())
      modifies this
      ensures State() == Got(old(State()), key, now) && value == Answer(old(State()), key, now)
    {
      if key !in entries {
        misses := misses + 1;
        return None;
      }
      if entries[key].expiresAt <= now {
        Erase(key);
        expirations, misses := expirations + 1, misses + 1;
        return None;
      }
      Unlink(key);
      recency := [key] + recency;
      hits := hits + 1;
      value := Some(entries[key].value);
    }

    method Put(key: string, value: V, now: int)
      requires Sound(State())
      modifies this
      ensures State() == PutInto(old(State()), key, value, now)
    {
      if key in entries {
        entries := entries[key := Entry(value, now + ttl)];
        Unlink(key);
        recency := [key] + recency;
        return;
      }
      if |entries| >= capacity && recency != [] {
        var oldest := recency[|recency| - 1];
        if oldest in entries {
          Erase(oldest);
          evictions := evictions + 1;
        }
      }
      recency := [key] + recency;
      entries := entries[key := Entry(value, now + ttl)];
    }

    method Clear()
      modifies this
      ensures State() == Cleared(old(State()))
    {
      invalidations := invalidations + |entries|;
      entries, recency := map[], [];
    }
  }

  // What every operation keeps

  /** The recency list names the keys, each once, and there are no more than the capacity. */
  ghost predicate Sound<V>(c: Cache<V>) {
    && 0 < c.capacity && Distinct(c.recency) && (forall k :: k in c.recency <==> k in c.entries)
    && |c.recency| == |c.entries| <= c.capacity
  }

  lemma DroppedSound<V>(c: Cache<V>, key: string)
    requires Sound(c)
    ensures Sound(Dropped(c, key))
    ensures |Dropped(c, key).entries| == |c.entries| - if key in c.entries then 1 else 0
  {
    RemoveFirstMembers(c.recency, key);
    assert Dropped(c, key).entries.Keys == c.entries.Keys - {key};
    assert |Dropped(c, key).entries.Keys| == |Dropped(c, key).entries| && |c.entries.Keys| == |c.entries|;
  }

  lemma FrontDistinct(key: string, rest: seq<string>)
    requires Distinct(rest) && key !in rest
    ensures Distinct([key] + rest)
  {
    forall i, j | 0 <= i < j < |rest| + 1 ensures ([key] + rest)[i] != ([key] + rest)[j] {
      assert rest[j - 1] in rest;
    }
  }

  lemma ToFrontSound<V>(c: Cache<V>, key: string)
    requires Sound(c) && key in c.entries
    ensures Sound(ToFront(c, key))
  {
    RemoveFirstMembers(c.recency, key);
    FrontDistinct(key, RemoveFirst(c.recency, key));
  }

  lemma EvictedSound<V>(c: Cache<V>)
    requires Sound(c)
    ensures Sound(Evicted(c)) && |Evicted(c).entries| < c.capacity
    ensures Evicted(c).evictions - c.evictions == |c.entries| - |Evicted(c).entries|
  {
    hide Distinct;
    if |c.entries| >= c.capacity {
      assert c.recency[|c.recency| - 1] in c.recency;
      DroppedSound(c, c.recency[|c.recency| - 1]);
    }
  }

  lemma PutSize<V>(c: Cache<V>, key: string, value: V, now: int)
    ensures |PutInto(c, key, value, now).entries| == if key in c.entries then |c.entries| else |Evicted(c).entries| + 1
  {
    hide Evicted, RemoveFirst;
    var r := PutInto(c, key, value, now);
    if key in c.entries {
      MapSize(c.entries, key, r.entries);
    } else {
      EvictedFrame(c);
      MapSize(Evicted(c).entries, key, r.entries);
    }
  }

  lemma MapSize<V>(m: map<string, Entry<V>>, key: string, r: map<string, Entry<V>>)
    requires key in r && r == m[key := r[key]]
    ensures |r| == if key in m then |m| else |m| + 1
  {
    assert r.Keys == m.Keys + {key};
    assert |r.Keys| == |r| && |m.Keys| == |m|;
  }

  lemma PutSound<V>(c: Cache<V>, key: string, value: V, now: int)
    requires Sound(c)
    ensures Sound(PutInto(c, key, value, now))
  {
    hide Distinct, Evicted, RemoveFirst;
    PutSize(c, key, value, now);
    if key in c.entries {
      ToFrontSound(c, key);
    } else {
      EvictedSound(c);
      EvictedFrame(c);
      FrontDistinct(key, Evicted(c).recency);
    }
  }

  lemma EvictedFrame<V>(c: Cache<V>)
    ensures Evicted(c).capacity == c.capacity && Evicted(c).ttl == c.ttl && Evicted(c).expirations == c.expirations
    ensures Evicted(c).invalidations == c.invalidations
    ensures forall k :: k in Evicted(c).entries ==> k in c.entries && Evicted(c).entries[k] == c.entries[k]
  {
  }

  // Traces

  datatype Op<V> = Get(key: string, now: int) | Put(key: string, value: V, now: int) | Clear

  function Apply<V>(c: Cache<V>, op: Op<V>): Cache<V> {
    match op
    case Get(key, now) => Got(c, key, now)
    case Put(key, value, now) => PutInto(c, key, value, now)
    case Clear => Cleared(c)
  }

  function CacheAfter<V>(capacity: nat, ttl: nat, ops: seq<Op<V>>): Cache<V> {
    if ops == [] then Cache(capacity, ttl, [], map[], 0, 0, 0, 0, 0)
    else Apply(CacheAfter(capacity, ttl, ops[..|ops| - 1]), ops[|ops| - 1])
  }

  /** What an unbounded store would hold for one key: the last value put since the last clear, until a lookup finds it
      expired. */
  function Live<V>(ttl: nat, ops: seq<Op<V>>, key: string): Option<Entry<V>> {
    if ops == [] then None
    else
      var before := Live(ttl, ops[..|ops| - 1], key);
      match ops[|ops| - 1]
      case Clear => None
      case Put(k, value, now) => if k == key then Some(Entry(value, now + ttl)) else before
      case Get(k, now) => if k == key && before.Some? && before.value.expiresAt <= now then None else before
  }

  /** The key that an operation touches: one that is put, or found. */
  function Touches<V>(c: Cache<V>, op: Op<V>): Option<string> {
    match op
    case Clear => None
    case Put(k, _, _) => Some(k)
    case Get(k, now) => if Hit(c, k, now) then Some(k) else None
  }

  /** The distinct other keys touched since this one was. */
  function Since<V>(capacity: nat, ttl: nat, ops: seq<Op<V>>, key: string): set<string> {
    if ops == [] then {}
    else
      var front := ops[..|ops| - 1];
      match Touches(CacheAfter(capacity, ttl, front), ops[|ops| - 1])
      case None => Since(capacity, ttl, front, key)
      case Some(k) => if k == key then {} else Since(capacity, ttl, front, key) + {k}
  }

  lemma {:induction false} TraceSound<V>(capacity: nat, ttl: nat, ops: seq<Op<V>>)
    requires 0 < capacity
    ensures Sound(CacheAfter(capacity, ttl, ops)) && CacheAfter(capacity, ttl, ops).capacity == capacity
    ensures CacheAfter(capacity, ttl, ops).ttl == ttl
    decreases |ops|
  {
    if ops != [] {
      var c, op := CacheAfter(capacity, ttl, ops[..|ops| - 1]), ops[|ops| - 1];
      TraceSound(capacity, ttl, ops[..|ops| - 1]);
      ApplySound(c, op);
    }
  }

  lemma ApplySound<V>(c: Cache<V>, op: Op<V>)
    requires Sound(c)
    ensures Sound(Apply(c, op)) && Apply(c, op).capacity == c.capacity && Apply(c, op).ttl == c.ttl
  {
    hide Distinct;
    match op
    case Get(key, now) =>
      if key in c.entries { DroppedSound(c, key); ToFrontSound(c, key); }
    case Put(key, value, now) =>
      PutSound(c, key, value, now);
    case Clear => NothingDistinct();
  }

  lemma NothingDistinct()
    ensures Distinct<string>([])
  {
  }

  // The recency order against the trace

  lemma {:induction false} WithoutOrder(recency: seq<string>, key: string, i: nat, j: nat) returns (a: nat, b: nat)
    requires Distinct(recency) && i < j < |RemoveFirst(recency, key)|
    ensures a < b < |recency| && recency[a] == RemoveFirst(recency, key)[i] && recency[b] == RemoveFirst(recency, key)[j]
    decreases |recency|
  {
    if recency[0] == key {
      a, b := i + 1, j + 1;
    } else {
      assert recency == [recency[0]] + recency[1..];
      if i == 0 {
        var rest := RemoveFirst(recency[1..], key);
        WithoutMembersHere(recency[1..], key, rest[j - 1]);
        var n :| 0 <= n < |recency[1..]| && recency[1..][n] == rest[j - 1];
        a, b := 0, n + 1;
      } else {
        a, b := WithoutOrder(recency[1..], key, i - 1, j - 1);
        a, b := a + 1, b + 1;
      }
    }
  }

  lemma WithoutMembersHere(recency: seq<string>, key: string, k: string)
    requires Distinct(recency) && k in RemoveFirst(recency, key)
    ensures k in recency
  {
    RemoveFirstMembers(recency, key);
  }

  /** Whatever stands before a key in the recency list was touched after it. */
  ghost predicate Later<V>(capacity: nat, ttl: nat, ops: seq<Op<V>>, c: Cache<V>) {
    forall i, j :: 0 <= i < j < |c.recency| ==> c.recency[i] in Since(capacity, ttl, ops, c.recency[j])
  }

  lemma {:induction false} RecencyTells<V>(capacity: nat, ttl: nat, ops: seq<Op<V>>)
    requires 0 < capacity
    ensures Later(capacity, ttl, ops, CacheAfter(capacity, ttl, ops))
    decreases |ops|
  {
    if ops != [] {
      var front, op := ops[..|ops| - 1], ops[|ops| - 1];
      RecencyTells(capacity, ttl, front);
      TraceSound(capacity, ttl, front);
      var c := CacheAfter(capacity, ttl, front);
      match op
      case Clear =>
      case Get(key, now) =>
        if key in c.entries { MovedLater(capacity, ttl, ops, key); }
      case Put(key, value, now) =>
        if key in c.entries { MovedLater(capacity, ttl, ops, key); } else { AddedLater(capacity, ttl, ops); }
    }
  }

  ghost predicate ListLater<V>(capacity: nat, ttl: nat, ops: seq<Op<V>>, recency: seq<string>) {
    forall i, j :: 0 <= i < j < |recency| ==> recency[i] in Since(capacity, ttl, ops, recency[j])
  }

  lemma RestLater<V>(capacity: nat, ttl: nat, ops: seq<Op<V>>, recency: seq<string>, key: string)
    requires Distinct(recency) && ListLater(capacity, ttl, ops, recency)
    ensures ListLater(capacity, ttl, ops, RemoveFirst(recency, key))
  {
    hide Since, RemoveFirst;
    forall i, j | 0 <= i < j < |RemoveFirst(recency, key)|
      ensures RemoveFirst(recency, key)[i] in Since(capacity, ttl, ops, RemoveFirst(recency, key)[j])
    {
      var a, b := WithoutOrder(recency, key, i, j);
    }
  }

  /** A key that is touched goes to the front; for the others it is one more that was touched after them. */
  lemma FrontLater<V>(capacity: nat, ttl: nat, ops: seq<Op<V>>, rest: seq<string>, key: string)
    requires ops != [] && key !in rest && ListLater(capacity, ttl, ops[..|ops| - 1], rest)
    requires Touches(CacheAfter(capacity, ttl, ops[..|ops| - 1]), ops[|ops| - 1]) == Some(key)
    ensures ListLater(capacity, ttl, ops, [key] + rest)
  {
    hide CacheAfter, Touches;
    forall i, j | 0 <= i < j < |[key] + rest| ensures ([key] + rest)[i] in Since(capacity, ttl, ops, ([key] + rest)[j]) {
      assert rest[j - 1] in rest;
      if i > 0 { assert rest[i - 1] in Since(capacity, ttl, ops[..|ops| - 1], rest[j - 1]); }
    }
  }

  lemma UntouchedLater<V>(capacity: nat, ttl: nat, ops: seq<Op<V>>, rest: seq<string>)
    requires ops != [] && ListLater(capacity, ttl, ops[..|ops| - 1], rest)
    requires Touches(CacheAfter(capacity, ttl, ops[..|ops| - 1]), ops[|ops| - 1]) == None
    ensures ListLater(capacity, ttl, ops, rest)
  {
    hide CacheAfter, Touches;
  }

  lemma MovedLater<V>(capacity: nat, ttl: nat, ops: seq<Op<V>>, key: string)
    requires 0 < capacity && ops != []
    requires var c := CacheAfter(capacity, ttl, ops[..|ops| - 1]);
      && Sound(c) && Later(capacity, ttl, ops[..|ops| - 1], c) && key in c.entries
      && !ops[|ops| - 1].Clear? && ops[|ops| - 1].key == key
    ensures Later(capacity, ttl, ops, CacheAfter(capacity, ttl, ops))
  {
    hide Sound, Distinct, Since, RemoveFirst;
    var c, op := CacheAfter(capacity, ttl, ops[..|ops| - 1]), ops[|ops| - 1];
    SoundParts(c);
    RemoveFirstMembers(c.recency, key);
    var rest := RemoveFirst(c.recency, key);
    assert ListLater(capacity, ttl, ops[..|ops| - 1], c.recency);
    RestLater(capacity, ttl, ops[..|ops| - 1], c.recency, key);
    if Touches(c, op).Some? {
      FrontLater(capacity, ttl, ops, rest, key);
      assert CacheAfter(capacity, ttl, ops).recency == [key] + rest;
    } else {
      UntouchedLater(capacity, ttl, ops, rest);
      assert CacheAfter(capacity, ttl, ops).recency == rest;
    }
  }

  lemma SoundParts<V>(c: Cache<V>)
    requires Sound(c)
    ensures Distinct(c.recency) && (forall k :: k in c.recency <==> k in c.entries)
  {
  }

  lemma {:induction false} WithoutLast(recency: seq<string>)
    requires Distinct(recency) && recency != []
    ensures RemoveFirst(recency, recency[|recency| - 1]) == recency[..|recency| - 1]
    decreases |recency|
  {
    var n := |recency| - 1;
    forall i | 0 <= i < n ensures recency[..n][i] != recency[n] {}
    RemoveFirstAt(recency, recency[n], n);
  }

  lemma AddedLater<V>(capacity: nat, ttl: nat, ops: seq<Op<V>>)
    requires 0 < capacity && ops != [] && ops[|ops| - 1].Put?
    requires var c := CacheAfter(capacity, ttl, ops[..|ops| - 1]);
      Sound(c) && Later(capacity, ttl, ops[..|ops| - 1], c) && ops[|ops| - 1].key !in c.entries
    ensures Later(capacity, ttl, ops, CacheAfter(capacity, ttl, ops))
  {
    hide Since, Distinct;
    var front, key := ops[..|ops| - 1], ops[|ops| - 1].key;
    var c := CacheAfter(capacity, ttl, front);
    var room := Evicted(c);
    assert room.recency <= c.recency && key !in room.recency by {
      if c.recency != [] { WithoutLast(c.recency); }
    }
    assert ListLater(capacity, ttl, front, room.recency);
    FrontLater(capacity, ttl, ops, room.recency, key);
    assert CacheAfter(capacity, ttl, ops).recency == [key] + room.recency;
  }

  // The main results

  /** The cache holds, for a key, exactly what an unbounded store would, or nothing; and nothing only once at least as
      many other keys as its capacity have been touched since. */
  ghost predicate Refines<V>(capacity: nat, ttl: nat, ops: seq<Op<V>>, key: string) {
    var c := CacheAfter(capacity, ttl, ops);
    if key in c.entries then Live(ttl, ops, key) == Some(c.entries[key])
    else Live(ttl, ops, key).Some? ==> |Since(capacity, ttl, ops, key)| >= capacity
  }

  /** The evicted key: everything else in the full cache, and the key that is put, were touched after it. */
  lemma EvictedHasMany<V>(capacity: nat, ttl: nat, ops: seq<Op<V>>)
    requires 0 < capacity && ops != [] && ops[|ops| - 1].Put?
    requires var c := CacheAfter(capacity, ttl, ops[..|ops| - 1]);
      ops[|ops| - 1].key !in c.entries && |c.entries| >= capacity
    ensures var c := CacheAfter(capacity, ttl, ops[..|ops| - 1]);
      c.recency != [] && |Since(capacity, ttl, ops, c.recency[|c.recency| - 1])| >= capacity
  {
    hide Apply;
    var front := ops[..|ops| - 1];
    TraceSound(capacity, ttl, front);
    RecencyTells(capacity, ttl, front);
    var c := CacheAfter(capacity, ttl, front);
    var n := |c.recency| - 1;
    var oldest, key := c.recency[n], ops[|ops| - 1].key;
    assert oldest in c.recency;
    var others := c.recency[..n] + [key];
    assert key !in c.recency;
    DistinctSnocSeq(c.recency[..n], key);
    forall k | k in others ensures k in Since(capacity, ttl, ops, oldest) {
      if k != key {
        var i :| 0 <= i < n && c.recency[i] == k;
      }
    }
    DistinctWithin(others, Since(capacity, ttl, ops, oldest));
  }

  lemma {:induction false} SinceGrows<V>(capacity: nat, ttl: nat, ops: seq<Op<V>>, key: string)
    requires ops != [] && Touches(CacheAfter(capacity, ttl, ops[..|ops| - 1]), ops[|ops| - 1]) != Some(key)
    ensures |Since(capacity, ttl, ops[..|ops| - 1], key)| <= |Since(capacity, ttl, ops, key)|
  {
    hide CacheAfter;
    SubsetSize(Since(capacity, ttl, ops[..|ops| - 1], key), Since(capacity, ttl, ops, key));
  }

  /** The trace refinement, for every key, every trace and any sampled times. */
  lemma {:induction false} CacheRefines<V>(capacity: nat, ttl: nat, ops: seq<Op<V>>, key: string)
    requires 0 < capacity
    ensures Refines(capacity, ttl, ops, key)
    decreases |ops|
  {
    if ops != [] {
      var front, op := ops[..|ops| - 1], ops[|ops| - 1];
      CacheRefines(capacity, ttl, front, key);
      TraceSound(capacity, ttl, front);
      match op
      case Clear =>
      case Get(k, now) => GetRefines(capacity, ttl, ops, key);
      case Put(k, value, now) => PutRefines(capacity, ttl, ops, key);
    }
  }

  lemma GetRefines<V>(capacity: nat, ttl: nat, ops: seq<Op<V>>, key: string)
    requires 0 < capacity && ops != [] && ops[|ops| - 1].Get? && Refines(capacity, ttl, ops[..|ops| - 1], key)
    ensures Refines(capacity, ttl, ops, key)
  {
    hide RemoveFirst, Since;
    if Touches(CacheAfter(capacity, ttl, ops[..|ops| - 1]), ops[|ops| - 1]) != Some(key) {
      SinceGrows(capacity, ttl, ops, key);
    }
  }

  lemma PutRefines<V>(capacity: nat, ttl: nat, ops: seq<Op<V>>, key: string)
    requires 0 < capacity && ops != [] && ops[|ops| - 1].Put? && Refines(capacity, ttl, ops[..|ops| - 1], key)
    requires Sound(CacheAfter(capacity, ttl, ops[..|ops| - 1]))
    requires CacheAfter(capacity, ttl, ops[..|ops| - 1]).capacity == capacity
    requires CacheAfter(capacity, ttl, ops[..|ops| - 1]).ttl == ttl
    ensures Refines(capacity, ttl, ops, key)
  {
    hide RemoveFirst, Since, Distinct;
    var c, op := CacheAfter(capacity, ttl, ops[..|ops| - 1]), ops[|ops| - 1];
    if op.key != key {
      SinceGrows(capacity, ttl, ops, key);
      if op.key !in c.entries && |c.entries| >= capacity {
        EvictedHasMany(capacity, ttl, ops);
      }
    }
  }

  /** A lookup answers with the last value put, if it is still alive, unless the key was pushed out; and it cannot have
      been pushed out while fewer other keys than the capacity were touched. */
  lemma LookupAnswers<V>(capacity: nat, ttl: nat, ops: seq<Op<V>>, key: string, now: int)
    requires 0 < capacity
    ensures var answer := Answer(CacheAfter(capacity, ttl, ops), key, now);
      var live := Live(ttl, ops, key);
      && (answer.Some? ==> live.Some? && live.value.value == answer.value && now < live.value.expiresAt)
      && (live.Some? && now < live.value.expiresAt && |Since(capacity, ttl, ops, key)| < capacity ==> answer == Some(live.value.value))
  {
    hide CacheAfter, Live, Since;
    CacheRefines(capacity, ttl, ops, key);
  }

  /** Every key that entered left in one of the counted ways or is still there. */
  function NewPuts<V>(capacity: nat, ttl: nat, ops: seq<Op<V>>): nat {
    if ops == [] then 0
    else
      var front, op := ops[..|ops| - 1], ops[|ops| - 1];
      NewPuts(capacity, ttl, front) + if op.Put? && op.key !in CacheAfter(capacity, ttl, front).entries then 1 else 0
  }

  lemma {:induction false} EntriesConserved<V>(capacity: nat, ttl: nat, ops: seq<Op<V>>)
    requires 0 < capacity
    ensures var c := CacheAfter(capacity, ttl, ops);
      NewPuts(capacity, ttl, ops) == |c.entries| + c.evictions + c.expirations + c.invalidations
    decreases |ops|
  {
    if ops != [] {
      EntriesConserved(capacity, ttl, ops[..|ops| - 1]);
      TraceSound(capacity, ttl, ops[..|ops| - 1]);
      ApplyConserves(CacheAfter(capacity, ttl, ops[..|ops| - 1]), ops[|ops| - 1]);
    }
  }

  lemma ApplyConserves<V>(c: Cache<V>, op: Op<V>)
    requires Sound(c)
    ensures var r := Apply(c, op);
      |r.entries| + r.evictions + r.expirations + r.invalidations
      == |c.entries| + c.evictions + c.expirations + c.invalidations + if op.Put? && op.key !in c.entries then 1 else 0
  {
    hide Sound, Evicted, RemoveFirst, PutInto;
    match op
    case Clear =>
    case Get(key, now) => DroppedSound(c, key);
    case Put(key, value, now) =>
      EvictedSound(c);
      PutSize(c, key, value, now);
      PutCounts(c, key, value, now);
  }

  lemma PutCounts<V>(c: Cache<V>, key: string, value: V, now: int)
    ensures var r := PutInto(c, key, value, now);
      && r.expirations == c.expirations && r.invalidations == c.invalidations
      && r.evictions == if key in c.entries then c.evictions else Evicted(c).evictions
  {
    EvictedFrame(c);
  }
}
