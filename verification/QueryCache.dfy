/**
 The query cache: a bounded list of vectors in order of use, indexed by a map. What the object does is
 specified on the list of its contents, most recently used first.
 */
module QueryCache {
  import opened Common

  /** Provider identity and query; the source joins fingerprints of both. */
  type Key = (string, string)

  type Vector = seq<real>

  type Contents = seq<(Key, Vector)>

  function Find(c: Contents, k: Key): Option<Vector> {
    if c == [] then None else if c[0].0 == k then Some(c[0].1) else Find(c[1..], k)
  }

  function Without(c: Contents, k: Key): Contents {
    if c == [] then [] else if c[0].0 == k then Without(c[1..], k) else [c[0]] + Without(c[1..], k)
  }

  function FirstOf<T>(s: seq<T>, n: nat): seq<T> {
    if |s| <= n then s else s[..n]
  }

  /** A hit moves the entry to the front. */
  function GetFrom(c: Contents, k: Key): Contents {
    var found := Find(c, k);
    if found.None? then c else [(k, found.value)] + Without(c, k)
  }

  /** The new entry comes first, replaces an old one with the same key, and the last entry goes if there is no room. */
  function PutInto(c: Contents, capacity: nat, k: Key, v: Vector): Contents {
    if capacity == 0 then c else FirstOf([(k, v)] + Without(c, k), capacity)
  }

  class Entry {
    const key: Key
    var vector: array<real>

    constructor (key: Key, vector: array<real>)
      ensures this.key == key && this.vector == vector
    {
      this.key := key;
      this.vector := vector;
    }
  }

  method Copy(a: array<real>) returns (b: array<real>)
    ensures fresh(b) && b[..] == a[..]
  {
    b := new real[a.Length];
    for i := 0 to a.Length
      invariant b[..i] == a[..i]
    {
      b[i] := a[i];
    }
  }

  /** The contents that a list of entries stands for. */
  ghost function Listed(order: seq<Entry>): (c: Contents)
    reads set e: Entry | e in order
    reads set e: Entry | e in order :: e.vector
    ensures |c| == |order|
  {
    if order == [] then [] else [(order[0].key, order[0].vector[..])] + Listed(order[1..])
  }

  class Cache {
    const capacity: nat
    var entries: map<Key, Entry>
    var order: seq<Entry>

    /** Map and list hold the same entries, each key once, and not more of them than there is room for. */
    ghost predicate Valid()
      reads this
    {
      |order| <= capacity && Indexed(order, entries) && DistinctKeys(order)
    }

    ghost function View(): Contents
      reads this
      reads set e: Entry | e in order
      reads set e: Entry | e in order :: e.vector
    {
      Listed(order)
    }

    constructor (capacity: nat)
      ensures Valid() && View() == [] && this.capacity == capacity && order == []
    {
      this.capacity := capacity;
      entries, order := map[], [];
    }

    /** Takes an entry to the front of the list. */
    method MoveToFront(e: Entry)
      requires Valid() && e in order
      modifies this`order
      ensures Valid() && order == [e] + Rest(old(order), e)
    {
      RestFacts(order, e);
      order := [e] + Rest(order, e);
    }

    /** A copy of the vector of a key, which becomes the most recently used one. */
    method Get(k: Key) returns (found: Option<array<real>>)
      requires Valid()
      modifies this`order
      ensures Valid()
      ensures forall e :: e in order <==> e in old(order)
      ensures View() == GetFrom(old(View()), k)
      ensures found.None? ==> Find(old(View()), k).None?
      ensures found.Some? ==> fresh(found.value) && Find(old(View()), k) == Some(found.value[..])
    {
      FindListed(order, entries, k);
      if capacity == 0 || k !in entries {
        return None;
      }
      var e := entries[k];
      Touch(e);
      var copy := Copy(e.vector);
      found := Some(copy);
    }

    method Touch(e: Entry)
      requires Valid() && e in order
      modifies this`order
      ensures Valid() && (forall x :: x in order <==> x in old(order))
      ensures Find(old(View()), e.key) == Some(e.vector[..])
      ensures View() == [(e.key, e.vector[..])] + Without(old(View()), e.key)
    {
      RestFacts(order, e);
      RestListed(order, e);
      MoveToFront(e);
      assert order[1..] == Rest(old(order), e);
    }

    /** Stores a copy of a vector under a key. */
    method Put(k: Key, vector: array<real>)
      requires Valid()
      modifies this, set e: Entry | e in order
      ensures Valid()
      ensures View() == PutInto(old(View()), capacity, k, vector[..])
      ensures forall e :: e in order ==>
                if e in old(order) then e.vector == old(e.vector) || fresh(e.vector) else fresh(e) && fresh(e.vector)
    {
      if capacity == 0 {
        return;
      }
      var copy := Copy(vector);
      assert View() == old(View());
      if k in entries {
        Replace(entries[k], copy);
      } else {
        PushFront(k, copy);
      }
    }

    /** Gives an entry a new vector and takes it to the front. */
    method Replace(e: Entry, copy: array<real>)
      requires Valid() && e in order && capacity > 0
      modifies this`order, e
      ensures Valid() && e.vector == copy && (forall x :: x in order <==> x in old(order))
      ensures View() == PutInto(old(View()), capacity, e.key, copy[..])
    {
      hide Without, Find, DistinctKeys, Indexed, Rest;
      RestFacts(order, e);
      RestListed(order, e);
      ghost var rest := Listed(Rest(order, e));
      e.vector := copy;
      assert Listed(Rest(order, e)) == rest;
      MoveToFront(e);
      assert order[1..] == Rest(old(order), e);
    }

    /** Adds a new entry in front, and drops the last one if there are too many. */
    method PushFront(k: Key, copy: array<real>)
      requires Valid() && k !in entries && capacity > 0
      modifies this
      ensures Valid() && (forall x :: x in order ==> x in old(order) || (fresh(x) && x.vector == copy))
      ensures View() == PutInto(old(View()), capacity, k, copy[..])
    {
      hide Listed, Without, Find, DistinctKeys;
      NotListed(order, entries, k);
      var e := new Entry(k, copy);
      AddFront(e);
      if |order| <= capacity {
        return;
      }
      DropLast();
    }

    /** Puts an entry with a new key in front, room or not. */
    method AddFront(e: Entry)
      requires Valid() && e.key !in entries
      modifies this
      ensures order == [e] + old(order) && Indexed(order, entries) && DistinctKeys(order)
      ensures View() == [(e.key, e.vector[..])] + old(View())
    {
      order := [e] + order;
      entries := entries[e.key := e];
      assert order[1..] == old(order);
    }

    /** Removes the entry that was used longest ago. */
    method DropLast()
      requires |order| == capacity + 1 && capacity > 0
      requires Indexed(order, entries) && DistinctKeys(order)
      modifies this
      ensures Valid() && order == old(order)[..capacity] && View() == old(View())[..capacity]
    {
      var oldest := order[|order| - 1];
      ListedPrefix(order, capacity);
      order := order[..|order| - 1];
      entries := entries - {oldest.key};
    }
  }

  /** The list without one of its entries. */
  function Rest(order: seq<Entry>, e: Entry): seq<Entry> {
    if order == [] then [] else if order[0] == e then order[1..] else [order[0]] + Rest(order[1..], e)
  }

  lemma {:induction false} RestFacts(order: seq<Entry>, e: Entry)
    requires e in order && DistinctKeys(order)
    ensures |Rest(order, e)| == |order| - 1 && e !in Rest(order, e)
    ensures forall i :: 0 <= i < |order| - 1 ==> Rest(order, e)[i] in order
    ensures forall x :: x in order && x != e ==> x in Rest(order, e)
    ensures DistinctKeys(Rest(order, e))
  {
    var tail := order[1..];
    assert forall i :: 0 <= i < |tail| ==> tail[i] == order[i + 1];
    if order[0] != e {
      RestFacts(tail, e);
      var rest := Rest(tail, e);
      forall i | 0 <= i < |rest| ensures rest[i].key != order[0].key {
        var j :| 0 <= j < |tail| && tail[j] == rest[i];
        assert order[0].key != order[j + 1].key;
      }
    }
  }

  /** Entries have distinct keys. */
  ghost predicate Indexed(order: seq<Entry>, entries: map<Key, Entry>) {
    && (forall e :: e in order ==> e.key in entries && entries[e.key] == e)
    && (forall k :: k in entries ==> entries[k] in order && entries[k].key == k)
  }

  ghost predicate DistinctKeys(order: seq<Entry>) {
    forall i, j :: 0 <= i < j < |order| ==> order[i].key != order[j].key
  }

  lemma {:induction false} ListedPrefix(order: seq<Entry>, n: nat)
    requires n <= |order|
    ensures Listed(order[..n]) == Listed(order)[..n]
  {
    if n > 0 {
      ListedPrefix(order[1..], n - 1);
      assert order[..n][1..] == order[1..][..n - 1];
    }
  }

  /** Looking a key up in the contents finds no entry if there is none with the key. */
  lemma {:induction false} AbsentKey(order: seq<Entry>, k: Key)
    requires forall e :: e in order ==> e.key != k
    ensures Find(Listed(order), k).None? && Without(Listed(order), k) == Listed(order)
  {
    if order != [] {
      AbsentKey(order[1..], k);
    }
  }

  lemma NotListed(order: seq<Entry>, entries: map<Key, Entry>, k: Key)
    requires Indexed(order, entries) && k !in entries
    ensures Find(Listed(order), k).None? && Without(Listed(order), k) == Listed(order)
  {
    AbsentKey(order, k);
  }

  /** Taking an entry out of the list takes its key out of the contents. */
  lemma {:induction false} RestListed(order: seq<Entry>, e: Entry)
    requires e in order && DistinctKeys(order)
    ensures Listed(Rest(order, e)) == Without(Listed(order), e.key)
    ensures Find(Listed(order), e.key) == Some(e.vector[..])
  {
    var tail := order[1..];
    if order[0] == e {
      forall x | x in tail ensures x.key != e.key {
        var i :| 0 <= i < |tail| && tail[i] == x;
        assert order[i + 1] == x;
      }
      AbsentKey(tail, e.key);
    } else {
      assert forall i :: 0 <= i < |tail| ==> tail[i] == order[i + 1];
      RestListed(tail, e);
      var i :| 0 <= i < |tail| && tail[i] == e;
      assert order[0].key != order[i + 1].key;
    }
  }

  lemma FindListed(order: seq<Entry>, entries: map<Key, Entry>, k: Key)
    requires Indexed(order, entries) && DistinctKeys(order)
    ensures Find(Listed(order), k).Some? <==> k in entries
  {
    if k in entries {
      RestListed(order, entries[k]);
    } else {
      NotListed(order, entries, k);
    }
  }

  // ---------------------------------------------------------------------------------------------
  // Every history of uses
  // ---------------------------------------------------------------------------------------------

  datatype Op = PutOp(key: Key, vector: Vector) | GetOp(key: Key)

  function After(c: Contents, capacity: nat, op: Op): Contents {
    match op
    case PutOp(k, v) => PutInto(c, capacity, k, v)
    case GetOp(k) => GetFrom(c, k)
  }

  function Run(capacity: nat, ops: seq<Op>): Contents {
    if ops == [] then [] else After(Run(capacity, ops[..|ops| - 1]), capacity, ops[|ops| - 1])
  }

  /** The keys that were stored or found, in the order of use. */
  function Uses(capacity: nat, ops: seq<Op>): seq<Key> {
    if ops == [] then []
    else
      var init, op := ops[..|ops| - 1], ops[|ops| - 1];
      Uses(capacity, init) + if op.PutOp? || Find(Run(capacity, init), op.key).Some? then [op.key] else []
  }

  function Minus(ks: seq<Key>, k: Key): seq<Key> {
    if ks == [] then [] else if ks[0] == k then Minus(ks[1..], k) else [ks[0]] + Minus(ks[1..], k)
  }

  /** All keys ever used, the most recently used first, each once. */
  function Recency(uses: seq<Key>): seq<Key> {
    if uses == [] then [] else [uses[|uses| - 1]] + Minus(Recency(uses[..|uses| - 1]), uses[|uses| - 1])
  }

  /** The vector last stored under a key. */
  function LastPut(ops: seq<Op>, k: Key): Option<Vector> {
    if ops == [] then None
    else
      var op := ops[|ops| - 1];
      if op.PutOp? && op.key == k then Some(op.vector) else LastPut(ops[..|ops| - 1], k)
  }

  function KeysOf(c: Contents): (ks: seq<Key>)
    ensures |ks| == |c|
  {
    if c == [] then [] else [c[0].0] + KeysOf(c[1..])
  }

  lemma {:induction false} KeysWithout(c: Contents, k: Key)
    ensures KeysOf(Without(c, k)) == Minus(KeysOf(c), k)
  {
    if c != [] {
      KeysWithout(c[1..], k);
    }
  }

  lemma {:induction false} KeysPrefix(c: Contents, n: nat)
    requires n <= |c|
    ensures KeysOf(c[..n]) == KeysOf(c)[..n]
  {
    if n > 0 {
      KeysPrefix(c[1..], n - 1);
      assert c[..n][1..] == c[1..][..n - 1];
    }
  }

  lemma {:induction false} MinusAppend(a: seq<Key>, b: seq<Key>, k: Key)
    ensures Minus(a + b, k) == Minus(a, k) + Minus(b, k)
  {
    if a == [] {
      assert a + b == b;
    } else {
      MinusAppend(a[1..], b, k);
      assert (a + b)[1..] == a[1..] + b;
    }
  }

  ghost predicate NoRepeats(ks: seq<Key>) {
    forall i, j :: 0 <= i < j < |ks| ==> ks[i] != ks[j]
  }

  /** Removing a key from keys without repeats removes at most one. */
  lemma {:induction false} MinusFacts(ks: seq<Key>, k: Key)
    requires NoRepeats(ks)
    ensures NoRepeats(Minus(ks, k)) && k !in Minus(ks, k)
    ensures |ks| - 1 <= |Minus(ks, k)| <= |ks|
    ensures k in ks <==> |Minus(ks, k)| == |ks| - 1
    ensures forall x :: x in Minus(ks, k) ==> x in ks
  {
    if ks != [] {
      var tail := ks[1..];
      assert forall i :: 0 <= i < |tail| ==> tail[i] == ks[i + 1];
      MinusFacts(tail, k);
      assert ks[0] !in tail;
      assert k in ks <==> k == ks[0] || k in tail;
      if ks[0] != k {
        assert forall i :: 0 <= i < |Minus(tail, k)| ==> Minus(tail, k)[i] in Minus(tail, k);
      }
    }
  }

  lemma {:induction false} RecencyHasNoRepeats(uses: seq<Key>)
    ensures NoRepeats(Recency(uses))
  {
    if uses != [] {
      var init, k := uses[..|uses| - 1], uses[|uses| - 1];
      RecencyHasNoRepeats(init);
      MinusFacts(Recency(init), k);
      assert forall i :: 0 <= i < |Minus(Recency(init), k)| ==> Minus(Recency(init), k)[i] in Minus(Recency(init), k);
    }
  }

  /** Using a key among the first `n` of all keys, or a key beyond them, has the same effect on the first `n`. */
  lemma UseOfFirst(ks: seq<Key>, k: Key, n: nat)
    requires NoRepeats(ks) && n > 0
    ensures FirstOf([k] + Minus(FirstOf(ks, n), k), n) == FirstOf([k] + Minus(ks, k), n)
  {
    if |ks| > n {
      var a, b := ks[..n], ks[n..];
      assert ks == a + b;
      MinusAppend(a, b, k);
      MinusFacts(a, k);
      assert [k] + Minus(ks, k) == ([k] + Minus(a, k)) + Minus(b, k);
    }
  }

  /** A found key is among the keys. */
  lemma {:induction false} FoundIsKey(c: Contents, k: Key)
    ensures Find(c, k).Some? <==> k in KeysOf(c)
  {
    if c != [] {
      FoundIsKey(c[1..], k);
    }
  }

  lemma RecencyNext(uses: seq<Key>, k: Key)
    ensures Recency(uses + [k]) == [k] + Minus(Recency(uses), k)
  {
    assert (uses + [k])[..|uses|] == uses;
  }

  /** One operation keeps the keys those most recently used. */
  lemma OpKeepsRecency(c: Contents, capacity: nat, op: Op, uses: seq<Key>)
    requires capacity > 0 && KeysOf(c) == FirstOf(Recency(uses), capacity)
    ensures var used := op.PutOp? || Find(c, op.key).Some?;
            KeysOf(After(c, capacity, op)) == FirstOf(Recency(uses + if used then [op.key] else []), capacity)
  {
    var k, all := op.key, Recency(uses);
    RecencyHasNoRepeats(uses);
    RecencyNext(uses, k);
    KeysWithout(c, k);
    FoundIsKey(c, k);
    assert NoRepeats(KeysOf(c));
    MinusFacts(KeysOf(c), k);
    if op.PutOp? || Find(c, k).Some? {
      UseOfFirst(all, k, capacity);
      var v := if op.PutOp? then op.vector else Find(c, k).value;
      var next := [(k, v)] + Without(c, k);
      assert next[1..] == Without(c, k);
      assert KeysOf(next) == [k] + Minus(KeysOf(c), k);
      if |next| > capacity {
        KeysPrefix(next, capacity);
      }
    } else {
      assert uses + [] == uses;
    }
  }

  /**
   After any history the cache holds exactly the most recently used keys, in that order, as many as there
   is room for: what it drops is what was used longest ago.
   */
  lemma {:induction false} HoldsMostRecentlyUsed(capacity: nat, ops: seq<Op>)
    requires capacity > 0
    ensures KeysOf(Run(capacity, ops)) == FirstOf(Recency(Uses(capacity, ops)), capacity)
  {
    if ops != [] {
      var init := ops[..|ops| - 1];
      HoldsMostRecentlyUsed(capacity, init);
      OpKeepsRecency(Run(capacity, init), capacity, ops[|ops| - 1], Uses(capacity, init));
    }
  }

  lemma {:induction false} FindWithout(c: Contents, k: Key, x: Key)
    ensures Find(Without(c, k), x) == if x == k then None else Find(c, x)
  {
    if c != [] {
      FindWithout(c[1..], k, x);
    }
  }

  lemma {:induction false} FindInPrefix(c: Contents, n: nat, x: Key)
    requires n <= |c| && Find(c[..n], x).Some?
    ensures Find(c[..n], x) == Find(c, x)
  {
    if c[0].0 != x {
      assert c[..n][1..] == c[1..][..n - 1];
      FindInPrefix(c[1..], n - 1, x);
    }
  }

  /** A hit is always the vector last stored under the key. */
  lemma {:induction false} HitsAreLastPut(capacity: nat, ops: seq<Op>, x: Key)
    requires Find(Run(capacity, ops), x).Some?
    ensures Find(Run(capacity, ops), x) == LastPut(ops, x)
  {
    var init, op := ops[..|ops| - 1], ops[|ops| - 1];
    var c, k := Run(capacity, init), op.key;
    FindWithout(c, k, x);
    if capacity == 0 && op.PutOp? {
      EmptyWithoutRoom(init);
      assert false;
    } else if op.PutOp? || Find(c, k).Some? {
      var v := if op.PutOp? then op.vector else Find(c, k).value;
      var next := [(k, v)] + Without(c, k);
      assert next[1..] == Without(c, k);
      if op.PutOp? && |next| > capacity {
        FindInPrefix(next, capacity, x);
      }
      if x != k || op.GetOp? {
        HitsAreLastPut(capacity, init, x);
      }
    } else {
      HitsAreLastPut(capacity, init, x);
    }
  }

  lemma {:induction false} EmptyWithoutRoom(ops: seq<Op>)
    ensures Run(0, ops) == []
  {
    if ops != [] {
      EmptyWithoutRoom(ops[..|ops| - 1]);
    }
  }

  /** A caller that overwrites the array it stored, with whatever values, does not change the cache. */
  method StoreThenChange(cache: Cache, k: Key, vector: array<real>, other: seq<real>)
    requires cache.Valid() && |other| == vector.Length && forall e :: e in cache.order ==> e.vector != vector
    modifies cache, vector, set e: Entry | e in cache.order
    ensures cache.Valid() && cache.View() == PutInto(old(cache.View()), cache.capacity, k, old(vector[..]))
    ensures vector[..] == other
  {
    cache.Put(k, vector);
    ghost var stored := cache.View();
    assert forall e :: e in cache.order ==> e.vector != vector;
    forall i | 0 <= i < vector.Length {
      vector[i] := other[i];
    }
    assert cache.View() == stored;
  }

  /** A caller that overwrites an array it was given, with whatever values, does not change the cache. */
  method FetchThenChange(cache: Cache, k: Key, other: seq<real>)
    requires cache.Valid()
    modifies cache
    ensures cache.Valid() && cache.View() == GetFrom(old(cache.View()), k)
  {
    var found := cache.Get(k);
    ghost var stored := cache.View();
    if found.Some? && found.value.Length == |other| {
      var vector := found.value;
      forall i | 0 <= i < vector.Length {
        vector[i] := other[i];
      }
    }
    assert cache.View() == stored;
  }
}
