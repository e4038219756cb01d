/** The memoizing TTL cache of src/utils/custom_cache.py.

    `TTLCache` models the cachetools store that `CustomCache` wraps: a
    sequence of entries in iteration order (the order in which keys were last
    set), each with the time it was set and a use stamp that orders keys from
    least to most recently used. Time is an explicit `now` argument; the one
    clock stands for both `time()` and cachetools' monotonic timer. */
module Caching {
  import opened Wrappers

  /** One stored key: its value, the time it was set and its last-use stamp. */
  datatype Entry<K, V> = Entry(key: K, value: V, inserted: int, lastUsed: nat)

  /** cachetools keeps an entry whose expiry time `inserted + ttl` lies
      strictly after `now`. */
  predicate Live<K(==), V(==)>(e: Entry<K, V>, now: int, ttl: int) {
    now < e.inserted + ttl
  }

  function KeysOf<K(==), V(==)>(es: seq<Entry<K, V>>): seq<K> {
    seq(|es|, i requires 0 <= i < |es| => es[i].key)
  }

  function ValuesOf<K(==), V(==)>(es: seq<Entry<K, V>>): seq<V> {
    seq(|es|, i requires 0 <= i < |es| => es[i].value)
  }

  predicate DistinctKeys<K(==), V(==)>(es: seq<Entry<K, V>>) {
    forall i, j :: 0 <= i < j < |es| ==> es[i].key != es[j].key
  }

  /** The entries satisfying `p`, in their order. */
  function Keep<K(==), V(==)>(es: seq<Entry<K, V>>, p: Entry<K, V> -> bool): (r: seq<Entry<K, V>>)
    ensures |r| <= |es|
    ensures forall i :: 0 <= i < |r| ==> r[i] in es && p(r[i])
    decreases |es|
  {
    if |es| == 0 then []
    else
      assert es == [es[0]] + es[1..];
      (if p(es[0]) then [es[0]] else []) + Keep(es[1..], p)
  }

  /** Every entry that satisfies `p` is kept. */
  lemma {:induction false} KeepComplete<K, V>(es: seq<Entry<K, V>>, p: Entry<K, V> -> bool, i: nat)
    requires i < |es| && p(es[i])
    ensures es[i] in Keep(es, p)
    decreases |es|
  {
    if i > 0 {
      KeepComplete(es[1..], p, i - 1);
    }
  }

  lemma {:induction false} KeepAll<K, V>(es: seq<Entry<K, V>>, p: Entry<K, V> -> bool)
    requires forall i :: 0 <= i < |es| ==> p(es[i])
    ensures Keep(es, p) == es
    decreases |es|
  {
    if |es| > 0 {
      KeepAll(es[1..], p);
      assert es == [es[0]] + es[1..];
    }
  }

  lemma {:induction false} KeepAppend<K, V>(a: seq<Entry<K, V>>, b: seq<Entry<K, V>>, p: Entry<K, V> -> bool)
    ensures Keep(a + b, p) == Keep(a, p) + Keep(b, p)
    decreases |a|
  {
    if |a| > 0 {
      KeepAppend(a[1..], b, p);
      assert (a + b)[0] == a[0] && (a + b)[1..] == a[1..] + b;
      var head: seq<Entry<K, V>> := if p(a[0]) then [a[0]] else [];
      assert Keep(a + b, p) == head + Keep(a[1..] + b, p);
      assert Keep(a, p) == head + Keep(a[1..], p);
    } else {
      assert a + b == b;
    }
  }

  lemma {:induction false} KeepDistinct<K, V>(es: seq<Entry<K, V>>, p: Entry<K, V> -> bool)
    requires DistinctKeys(es)
    ensures DistinctKeys(Keep(es, p))
    decreases |es|
  {
    if |es| > 0 {
      KeepDistinct(es[1..], p);
      var rest := Keep(es[1..], p);
      forall e | e in rest ensures e.key != es[0].key {
        var i :| 0 <= i < |es[1..]| && es[1..][i] == e;
      }
    }
  }

  /** Dropping an entry that fails `p` makes the sequence strictly shorter. */
  lemma {:induction false} KeepShrinks<K, V>(es: seq<Entry<K, V>>, p: Entry<K, V> -> bool, i: nat)
    requires i < |es| && !p(es[i])
    ensures |Keep(es, p)| < |es|
    decreases |es|
  {
    if i > 0 {
      KeepShrinks(es[1..], p, i - 1);
    }
  }

  /** The entries still live at `now` (cachetools' `expire`). */
  function Expire<K(==), V(==)>(es: seq<Entry<K, V>>, now: int, ttl: int): seq<Entry<K, V>> {
    Keep(es, e => Live(e, now, ttl))
  }

  /** The entries whose key is not `k`. */
  function WithoutKey<K(==), V(==)>(es: seq<Entry<K, V>>, k: K): seq<Entry<K, V>> {
    Keep(es, (e: Entry<K, V>) => e.key != k)
  }

  function RemoveAt<T>(s: seq<T>, i: nat): (r: seq<T>)
    requires i < |s|
    ensures |r| == |s| - 1
  {
    s[..i] + s[i + 1..]
  }

  /** The position of the least recently used entry: the smallest stamp, and
      the first of them if stamps tie. */
  function LruIndex<K(==), V(==)>(es: seq<Entry<K, V>>): (i: nat)
    requires |es| > 0
    ensures i < |es|
    ensures forall j :: 0 <= j < |es| ==> es[i].lastUsed <= es[j].lastUsed
    ensures forall j :: 0 <= j < i ==> es[i].lastUsed < es[j].lastUsed
    decreases |es|
  {
    if |es| == 1 then 0
    else
      var t := LruIndex(es[1..]);
      if es[0].lastUsed <= es[t + 1].lastUsed then 0 else t + 1
  }

  /** Evict least recently used entries until at most `room` remain
      (the `popitem` loop of cachetools' `__setitem__`). */
  function MakeRoom<K(==), V(==)>(es: seq<Entry<K, V>>, room: nat): (r: seq<Entry<K, V>>)
    ensures |r| == if |es| <= room then |es| else room
    ensures forall i :: 0 <= i < |r| ==> r[i] in es
    decreases |es|
  {
    if |es| <= room then es
    else
      var i := LruIndex(es);
      var smaller := RemoveAt(es, i);
      assert forall e :: e in smaller ==> e in es by {
        assert smaller == es[..i] + es[i + 1..];
        assert forall e :: e in es[..i] ==> e in es;
        assert forall e :: e in es[i + 1..] ==> e in es;
      }
      MakeRoom(smaller, room)
  }

  /** `cache[k] = v` at time `now` with use stamp `stamp`: expired entries go
      first; an existing key is moved to the end with its new value;
      otherwise the least recently used entries make room and the key is
      appended. */
  function Insert<K(==), V(==)>(es: seq<Entry<K, V>>, k: K, v: V, now: int, ttl: int, maxsize: nat, stamp: nat)
    : seq<Entry<K, V>>
    requires maxsize > 0
  {
    var live := Expire(es, now, ttl);
    var e := Entry(k, v, now, stamp);
    if k in KeysOf(live) then WithoutKey(live, k) + [e]
    else MakeRoom(live, maxsize - 1) + [e]
  }

  /** A read of key `k` marks it as most recently used. */
  function Touch<K(==), V(==)>(es: seq<Entry<K, V>>, k: K, stamp: nat): (r: seq<Entry<K, V>>)
    ensures |r| == |es|
  {
    seq(|es|, i requires 0 <= i < |es| => if es[i].key == k then es[i].(lastUsed := stamp) else es[i])
  }

  /** Reads of `ks` in order, with stamps counting up from `stamp`. */
  function TouchAll<K(==), V(==)>(es: seq<Entry<K, V>>, ks: seq<K>, stamp: nat): (r: seq<Entry<K, V>>)
    ensures |r| == |es|
    decreases |ks|
  {
    if |ks| == 0 then es
    else Touch(TouchAll(es, ks[..|ks| - 1], stamp), ks[|ks| - 1], stamp + |ks| - 1)
  }

  function Find<K(==), V(==)>(es: seq<Entry<K, V>>, k: K): (r: Option<Entry<K, V>>)
    ensures r.Some? <==> k in KeysOf(es)
    ensures r.Some? ==> r.value in es && r.value.key == k
    decreases |es|
  {
    if |es| == 0 then None
    else
      assert KeysOf(es) == [es[0].key] + KeysOf(es[1..]);
      if es[0].key == k then Some(es[0]) else Find(es[1..], k)
  }

  /** The value stored under `k`, if there is one and it is live at `now`. */
  function Lookup<K(==), V(==)>(es: seq<Entry<K, V>>, k: K, now: int, ttl: int): Option<V> {
    match Find(es, k)
    case Some(e) => if Live(e, now, ttl) then Some(e.value) else None
    case None => None
  }

  /** The keys an iteration yields at `now`. */
  function LiveKeys<K(==), V(==)>(es: seq<Entry<K, V>>, now: int, ttl: int): seq<K> {
    KeysOf(Expire(es, now, ttl))
  }

  function LiveValues<K(==), V(==)>(es: seq<Entry<K, V>>, now: int, ttl: int): seq<V> {
    ValuesOf(Expire(es, now, ttl))
  }

  predicate StampsIncreasing<K(==), V(==)>(es: seq<Entry<K, V>>) {
    forall i, j :: 0 <= i < j < |es| ==> es[i].lastUsed < es[j].lastUsed
  }

  predicate StampsBelow<K(==), V(==)>(es: seq<Entry<K, V>>, stamp: nat) {
    forall i :: 0 <= i < |es| ==> es[i].lastUsed < stamp
  }

  // ---------------------------------------------------------------------
  // Facts about the store functions

  lemma KeysOfAppend<K, V>(a: seq<Entry<K, V>>, b: seq<Entry<K, V>>)
    ensures KeysOf(a + b) == KeysOf(a) + KeysOf(b)
  {
    assert forall i :: 0 <= i < |a + b| ==> KeysOf(a + b)[i] == (KeysOf(a) + KeysOf(b))[i];
  }

  lemma KeysOfMember<K, V>(es: seq<Entry<K, V>>, k: K)
    ensures k in KeysOf(es) <==> exists e :: e in es && e.key == k
  {
    if k in KeysOf(es) {
      var i :| 0 <= i < |es| && KeysOf(es)[i] == k;
      assert es[i] in es;
    }
    if exists e :: e in es && e.key == k {
      var e :| e in es && e.key == k;
      var i :| 0 <= i < |es| && es[i] == e;
      assert KeysOf(es)[i] == k;
    }
  }

  lemma {:induction false} FindAppend<K, V>(a: seq<Entry<K, V>>, b: seq<Entry<K, V>>, k: K)
    ensures Find(a + b, k) == if k in KeysOf(a) then Find(a, k) else Find(b, k)
    decreases |a|
  {
    if |a| > 0 {
      assert (a + b)[1..] == a[1..] + b;
      assert KeysOf(a) == [a[0].key] + KeysOf(a[1..]);
      FindAppend(a[1..], b, k);
    } else {
      assert a + b == b;
    }
  }

  /** The key that is read or inserted is no longer among the others. */
  lemma WithoutKeyGone<K, V>(es: seq<Entry<K, V>>, k: K)
    ensures k !in KeysOf(WithoutKey(es, k))
  {
    KeysOfMember(WithoutKey(es, k), k);
  }

  lemma WithoutKeyShrinks<K, V>(es: seq<Entry<K, V>>, k: K)
    requires k in KeysOf(es)
    ensures |WithoutKey(es, k)| < |es|
  {
    var i :| 0 <= i < |es| && KeysOf(es)[i] == k;
    KeepShrinks(es, (e: Entry<K, V>) => e.key != k, i);
  }

  lemma SubsetKeys<K, V>(small: seq<Entry<K, V>>, big: seq<Entry<K, V>>, k: K)
    requires forall i :: 0 <= i < |small| ==> small[i] in big
    requires k !in KeysOf(big)
    ensures k !in KeysOf(small)
  {
    KeysOfMember(small, k);
    KeysOfMember(big, k);
  }

  lemma {:induction false} MakeRoomDistinct<K, V>(es: seq<Entry<K, V>>, room: nat)
    requires DistinctKeys(es)
    ensures DistinctKeys(MakeRoom(es, room))
    decreases |es|
  {
    if |es| > room {
      var i := LruIndex(es);
      var smaller := RemoveAt(es, i);
      forall a, b | 0 <= a < b < |smaller| ensures smaller[a].key != smaller[b].key {
        var a' := if a < i then a else a + 1;
        var b' := if b < i then b else b + 1;
        assert smaller[a] == es[a'] && smaller[b] == es[b'];
      }
      MakeRoomDistinct(smaller, room);
    }
  }

  lemma AppendNewDistinct<K, V>(es: seq<Entry<K, V>>, e: Entry<K, V>)
    requires DistinctKeys(es) && e.key !in KeysOf(es)
    ensures DistinctKeys(es + [e])
  {
    forall i | 0 <= i < |es| ensures es[i].key != e.key {
      assert KeysOf(es)[i] == es[i].key;
    }
  }

  lemma ExpireDistinct<K, V>(es: seq<Entry<K, V>>, now: int, ttl: int)
    requires DistinctKeys(es)
    ensures DistinctKeys(Expire(es, now, ttl))
  {
    KeepDistinct(es, e => Live(e, now, ttl));
  }

  lemma WithoutKeyDistinct<K, V>(es: seq<Entry<K, V>>, k: K)
    requires DistinctKeys(es)
    ensures DistinctKeys(WithoutKey(es, k))
  {
    KeepDistinct(es, (e: Entry<K, V>) => e.key != k);
  }

  /** Replacing a key: the entries kept have distinct keys, none of them `k`. */
  lemma ReplaceKeptDistinct<K, V>(live: seq<Entry<K, V>>, k: K)
    requires DistinctKeys(live)
    ensures DistinctKeys(WithoutKey(live, k)) && k !in KeysOf(WithoutKey(live, k))
  {
    WithoutKeyDistinct(live, k);
    WithoutKeyGone(live, k);
  }

  /** Adding a key: the entries kept have distinct keys, none of them `k`. */
  lemma AddKeptDistinct<K, V>(live: seq<Entry<K, V>>, k: K, room: nat)
    requires DistinctKeys(live) && k !in KeysOf(live)
    ensures DistinctKeys(MakeRoom(live, room)) && k !in KeysOf(MakeRoom(live, room))
  {
    MakeRoomDistinct(live, room);
    SubsetKeys(MakeRoom(live, room), live, k);
  }

  /** Replacing a key keeps the keys distinct. */
  lemma ReplaceDistinct<K, V>(live: seq<Entry<K, V>>, e: Entry<K, V>, r: seq<Entry<K, V>>)
    requires DistinctKeys(live) && r == WithoutKey(live, e.key) + [e]
    ensures DistinctKeys(r)
  {
    ReplaceKeptDistinct(live, e.key);
    AppendNewDistinct(WithoutKey(live, e.key), e);
  }

  /** Adding a new key after making room keeps the keys distinct. */
  lemma AddDistinct<K, V>(live: seq<Entry<K, V>>, e: Entry<K, V>, room: nat, r: seq<Entry<K, V>>)
    requires DistinctKeys(live) && e.key !in KeysOf(live) && r == MakeRoom(live, room) + [e]
    ensures DistinctKeys(r)
  {
    AddKeptDistinct(live, e.key, room);
    AppendNewDistinct(MakeRoom(live, room), e);
  }

  /** Inserting keeps the keys distinct. */
  lemma InsertDistinct<K, V>(es: seq<Entry<K, V>>, k: K, v: V, now: int, ttl: int, maxsize: nat, stamp: nat)
    requires maxsize > 0 && DistinctKeys(es)
    ensures DistinctKeys(Insert(es, k, v, now, ttl, maxsize, stamp))
  {
    var live := Expire(es, now, ttl);
    var e := Entry(k, v, now, stamp);
    ExpireDistinct(es, now, ttl);
    if k in KeysOf(live) {
      ReplaceDistinct(live, e, Insert(es, k, v, now, ttl, maxsize, stamp));
    } else {
      AddDistinct(live, e, maxsize - 1, Insert(es, k, v, now, ttl, maxsize, stamp));
    }
  }

  /** The cache never holds more than `maxsize` entries after an insert. */
  lemma InsertBounded<K, V>(es: seq<Entry<K, V>>, k: K, v: V, now: int, ttl: int, maxsize: nat, stamp: nat)
    requires maxsize > 0 && |es| <= maxsize
    ensures |Insert(es, k, v, now, ttl, maxsize, stamp)| <= maxsize
  {
    var live := Expire(es, now, ttl);
    if k in KeysOf(live) {
      WithoutKeyShrinks(live, k);
    }
  }

  /** The key just inserted is found with its value, until `ttl` has passed
      since the insert. */
  lemma InsertThenLookup<K, V>(es: seq<Entry<K, V>>, k: K, v: V, t0: int, ttl: int, maxsize: nat, stamp: nat, t1: int)
    requires maxsize > 0
    ensures Lookup(Insert(es, k, v, t0, ttl, maxsize, stamp), k, t1, ttl)
         == if t1 - t0 < ttl then Some(v) else None
  {
    var live := Expire(es, t0, ttl);
    var e := Entry(k, v, t0, stamp);
    var front := if k in KeysOf(live) then WithoutKey(live, k) else MakeRoom(live, maxsize - 1);
    if k in KeysOf(live) {
      WithoutKeyGone(live, k);
    } else {
      SubsetKeys(front, live, k);
    }
    FindAppend(front, [e], k);
    assert KeysOf([e]) == [k];
  }

  /** An insert at a time when every entry has expired leaves only the new
      entry. */
  lemma InsertAfterAllExpired<K, V>(es: seq<Entry<K, V>>, k: K, v: V, now: int, ttl: int, maxsize: nat, stamp: nat)
    requires maxsize > 0
    requires forall e :: e in es ==> !Live(e, now, ttl)
    ensures Insert(es, k, v, now, ttl, maxsize, stamp) == [Entry(k, v, now, stamp)]
  {
  }

  lemma ExpireIdempotent<K, V>(es: seq<Entry<K, V>>, now: int, ttl: int)
    ensures Expire(Expire(es, now, ttl), now, ttl) == Expire(es, now, ttl)
  {
    KeepAll(Expire(es, now, ttl), e => Live(e, now, ttl));
  }

  /** Appending an entry live at `now` to entries live at `now`: the live
      keys are the old ones followed by the new key. */
  lemma LiveKeysOfAppend<K, V>(front: seq<Entry<K, V>>, e: Entry<K, V>, now: int, ttl: int)
    requires forall i :: 0 <= i < |front| ==> Live(front[i], now, ttl)
    requires Live(e, now, ttl)
    ensures LiveKeys(front + [e], now, ttl) == KeysOf(front) + [e.key]
  {
    KeepAppend(front, [e], x => Live(x, now, ttl));
    KeepAll(front, x => Live(x, now, ttl));
    assert Keep([e], x => Live(x, now, ttl)) == [e];
    KeysOfAppend(front, [e]);
    assert KeysOf([e]) == [e.key];
  }

  /** Below capacity nothing is dropped: a new key goes at the end of the
      live keys, which otherwise stay as they were. */
  lemma InsertBelowCapacity<K, V>(es: seq<Entry<K, V>>, k: K, v: V, now: int, ttl: int, maxsize: nat, stamp: nat)
    requires maxsize > 0 && ttl > 0
    requires k !in LiveKeys(es, now, ttl)
    requires |LiveKeys(es, now, ttl)| < maxsize
    ensures LiveKeys(Insert(es, k, v, now, ttl, maxsize, stamp), now, ttl) == LiveKeys(es, now, ttl) + [k]
  {
    var live := Expire(es, now, ttl);
    LiveKeysOfAppend(live, Entry(k, v, now, stamp), now, ttl);
  }

  /** At capacity a new key evicts exactly one live key, the least recently
      used, and the number of keys stays at `maxsize`. */
  lemma InsertAtCapacity<K, V>(es: seq<Entry<K, V>>, k: K, v: V, now: int, ttl: int, maxsize: nat, stamp: nat)
    requires maxsize > 0 && ttl > 0
    requires k !in LiveKeys(es, now, ttl)
    requires |LiveKeys(es, now, ttl)| == maxsize
    ensures var live := Expire(es, now, ttl);
      LiveKeys(Insert(es, k, v, now, ttl, maxsize, stamp), now, ttl)
        == RemoveAt(KeysOf(live), LruIndex(live)) + [k]
    ensures |LiveKeys(Insert(es, k, v, now, ttl, maxsize, stamp), now, ttl)| == maxsize
  {
    var live := Expire(es, now, ttl);
    assert MakeRoom(live, maxsize - 1) == RemoveAt(live, LruIndex(live));
    EvictOneKeys(live, Entry(k, v, now, stamp), now, ttl, Insert(es, k, v, now, ttl, maxsize, stamp));
  }

  /** The live keys after evicting the least recently used of `live` and
      appending `e`. */
  lemma EvictOneKeys<K, V>(live: seq<Entry<K, V>>, e: Entry<K, V>, now: int, ttl: int, r: seq<Entry<K, V>>)
    requires |live| > 0 && forall j :: 0 <= j < |live| ==> Live(live[j], now, ttl)
    requires Live(e, now, ttl)
    requires r == RemoveAt(live, LruIndex(live)) + [e]
    ensures LiveKeys(r, now, ttl) == RemoveAt(KeysOf(live), LruIndex(live)) + [e.key]
  {
    var i := LruIndex(live);
    var smaller := RemoveAt(live, i);
    RemoveAtLive(live, i, now, ttl);
    LiveKeysOfAppend(smaller, e, now, ttl);
    KeysOfRemoveAt(live, i);
  }

  lemma KeysOfRemoveAt<K, V>(es: seq<Entry<K, V>>, i: nat)
    requires i < |es|
    ensures KeysOf(RemoveAt(es, i)) == RemoveAt(KeysOf(es), i)
  {
    var a := KeysOf(RemoveAt(es, i));
    var b := RemoveAt(KeysOf(es), i);
    forall j | 0 <= j < |a|
      ensures a[j] == b[j]
    {
      var m := if j < i then j else j + 1;
      assert RemoveAt(es, i)[j] == es[m];
      assert b[j] == KeysOf(es)[m];
    }
  }

  lemma RemoveAtLive<K, V>(live: seq<Entry<K, V>>, i: nat, now: int, ttl: int)
    requires i < |live|
    requires forall j :: 0 <= j < |live| ==> Live(live[j], now, ttl)
    ensures forall j :: 0 <= j < |RemoveAt(live, i)| ==> Live(RemoveAt(live, i)[j], now, ttl)
  {
    var smaller := RemoveAt(live, i);
    forall j | 0 <= j < |smaller| ensures Live(smaller[j], now, ttl) {
      assert smaller[j] == live[if j < i then j else j + 1];
    }
  }

  /** When no key has been read since it was set, the least recently used
      entry is the oldest one. */
  lemma LruIsOldest<K, V>(es: seq<Entry<K, V>>)
    requires |es| > 0 && StampsIncreasing(es)
    ensures LruIndex(es) == 0
  {
  }

  lemma {:induction false} KeepIncreasing<K, V>(es: seq<Entry<K, V>>, p: Entry<K, V> -> bool)
    requires StampsIncreasing(es)
    ensures StampsIncreasing(Keep(es, p))
    decreases |es|
  {
    if |es| > 0 {
      KeepIncreasing(es[1..], p);
      var rest := Keep(es[1..], p);
      forall j | 0 <= j < |rest| ensures es[0].lastUsed < rest[j].lastUsed {
        assert rest[j] in rest;
        var m :| 0 <= m < |es[1..]| && es[1..][m] == rest[j];
      }
    }
  }

  lemma {:induction false} MakeRoomIncreasing<K, V>(es: seq<Entry<K, V>>, room: nat)
    requires StampsIncreasing(es)
    ensures StampsIncreasing(MakeRoom(es, room))
    decreases |es|
  {
    if |es| > room {
      var i := LruIndex(es);
      var smaller := RemoveAt(es, i);
      forall a, b | 0 <= a < b < |smaller| ensures smaller[a].lastUsed < smaller[b].lastUsed {
        var a' := if a < i then a else a + 1;
        var b' := if b < i then b else b + 1;
        assert smaller[a] == es[a'] && smaller[b] == es[b'];
      }
      MakeRoomIncreasing(smaller, room);
    }
  }

  lemma StampsBelowSub<K, V>(small: seq<Entry<K, V>>, big: seq<Entry<K, V>>, stamp: nat)
    requires forall i :: 0 <= i < |small| ==> small[i] in big
    requires StampsBelow(big, stamp)
    ensures StampsBelow(small, stamp)
  {
    forall i | 0 <= i < |small| ensures small[i].lastUsed < stamp {
      var j :| 0 <= j < |big| && big[j] == small[i];
    }
  }

  lemma AppendIncreasing<K, V>(front: seq<Entry<K, V>>, e: Entry<K, V>)
    requires StampsIncreasing(front) && StampsBelow(front, e.lastUsed)
    ensures StampsIncreasing(front + [e]) && StampsBelow(front + [e], e.lastUsed + 1)
  {
  }

  lemma WithoutKeyOrdered<K, V>(live: seq<Entry<K, V>>, k: K, stamp: nat)
    requires StampsIncreasing(live) && StampsBelow(live, stamp)
    ensures StampsIncreasing(WithoutKey(live, k)) && StampsBelow(WithoutKey(live, k), stamp)
  {
    KeepIncreasing(live, (e: Entry<K, V>) => e.key != k);
    StampsBelowSub(WithoutKey(live, k), live, stamp);
  }

  lemma MakeRoomOrdered<K, V>(live: seq<Entry<K, V>>, room: nat, stamp: nat)
    requires StampsIncreasing(live) && StampsBelow(live, stamp)
    ensures StampsIncreasing(MakeRoom(live, room)) && StampsBelow(MakeRoom(live, room), stamp)
  {
    MakeRoomIncreasing(live, room);
    StampsBelowSub(MakeRoom(live, room), live, stamp);
  }

  lemma ExpireOrdered<K, V>(es: seq<Entry<K, V>>, now: int, ttl: int, stamp: nat)
    requires StampsIncreasing(es) && StampsBelow(es, stamp)
    ensures StampsIncreasing(Expire(es, now, ttl)) && StampsBelow(Expire(es, now, ttl), stamp)
  {
    KeepIncreasing(es, e => Live(e, now, ttl));
    StampsBelowSub(Expire(es, now, ttl), es, stamp);
  }

  /** Inserts with ever larger stamps keep the entries in use order, so a
      sequence of inserts without reads evicts in insertion order. */
  lemma InsertKeepsIncreasing<K, V>(es: seq<Entry<K, V>>, k: K, v: V, now: int, ttl: int, maxsize: nat, stamp: nat)
    requires maxsize > 0 && StampsIncreasing(es) && StampsBelow(es, stamp)
    ensures StampsIncreasing(Insert(es, k, v, now, ttl, maxsize, stamp))
    ensures StampsBelow(Insert(es, k, v, now, ttl, maxsize, stamp), stamp + 1)
  {
    ExpireOrdered(es, now, ttl, stamp);
    if k in KeysOf(Expire(es, now, ttl)) {
      ReplaceKeepsIncreasing(es, k, v, now, ttl, maxsize, stamp);
    } else {
      AddKeepsIncreasing(es, k, v, now, ttl, maxsize, stamp);
    }
  }

  /** The update of a live key: its entry moves to the end. */
  lemma ReplaceKeepsIncreasing<K, V>(es: seq<Entry<K, V>>, k: K, v: V, now: int, ttl: int, maxsize: nat, stamp: nat)
    requires maxsize > 0 && k in KeysOf(Expire(es, now, ttl))
    requires StampsIncreasing(Expire(es, now, ttl)) && StampsBelow(Expire(es, now, ttl), stamp)
    ensures StampsIncreasing(Insert(es, k, v, now, ttl, maxsize, stamp))
    ensures StampsBelow(Insert(es, k, v, now, ttl, maxsize, stamp), stamp + 1)
  {
    var live := Expire(es, now, ttl);
    var e := Entry(k, v, now, stamp);
    var front := WithoutKey(live, k);
    WithoutKeyOrdered(live, k, stamp);
    AppendIncreasing(front, e);
    assert Insert(es, k, v, now, ttl, maxsize, stamp) == front + [e];
  }

  /** The insert of a new key: room is made, then it is appended. */
  lemma AddKeepsIncreasing<K, V>(es: seq<Entry<K, V>>, k: K, v: V, now: int, ttl: int, maxsize: nat, stamp: nat)
    requires maxsize > 0 && k !in KeysOf(Expire(es, now, ttl))
    requires StampsIncreasing(Expire(es, now, ttl)) && StampsBelow(Expire(es, now, ttl), stamp)
    ensures StampsIncreasing(Insert(es, k, v, now, ttl, maxsize, stamp))
    ensures StampsBelow(Insert(es, k, v, now, ttl, maxsize, stamp), stamp + 1)
  {
    var live := Expire(es, now, ttl);
    var e := Entry(k, v, now, stamp);
    var room: nat := maxsize - 1;
    var front := MakeRoom(live, room);
    MakeRoomOrdered(live, room, stamp);
    AppendIncreasing(front, e);
    assert Insert(es, k, v, now, ttl, maxsize, stamp) == front + [e];
  }

  lemma TouchKeys<K, V>(es: seq<Entry<K, V>>, k: K, stamp: nat)
    ensures KeysOf(Touch(es, k, stamp)) == KeysOf(es)
  {
  }

  lemma TouchDistinct<K, V>(es: seq<Entry<K, V>>, k: K, stamp: nat)
    requires DistinctKeys(es)
    ensures DistinctKeys(Touch(es, k, stamp))
  {
    var r := Touch(es, k, stamp);
    assert forall i :: 0 <= i < |es| ==> r[i].key == es[i].key;
  }

  lemma TouchAppend<K, V>(a: seq<Entry<K, V>>, b: seq<Entry<K, V>>, k: K, stamp: nat)
    ensures Touch(a + b, k, stamp) == Touch(a, k, stamp) + Touch(b, k, stamp)
  {
  }

  /** A read changes no key, value or insertion time: it commutes with
      expiry, so it changes no later listing. */
  lemma {:induction false} TouchExpire<K, V>(es: seq<Entry<K, V>>, k: K, stamp: nat, now: int, ttl: int)
    ensures Expire(Touch(es, k, stamp), now, ttl) == Touch(Expire(es, now, ttl), k, stamp)
    ensures LiveKeys(Touch(es, k, stamp), now, ttl) == LiveKeys(es, now, ttl)
    ensures LiveValues(Touch(es, k, stamp), now, ttl) == LiveValues(es, now, ttl)
    decreases |es|
  {
    var p := (e: Entry<K, V>) => Live(e, now, ttl);
    if |es| > 0 {
      var t := Touch(es, k, stamp);
      assert t == Touch([es[0]], k, stamp) + Touch(es[1..], k, stamp) by {
        assert es == [es[0]] + es[1..];
        TouchAppend([es[0]], es[1..], k, stamp);
      }
      TouchExpire(es[1..], k, stamp, now, ttl);
      var head := if p(es[0]) then [es[0]] else [];
      assert Keep(t, p) == Touch(head, k, stamp) + Keep(Touch(es[1..], k, stamp), p) by {
        assert t[1..] == Touch(es[1..], k, stamp);
      }
      TouchAppend(head, Keep(es[1..], p), k, stamp);
    }
    assert Expire(Touch(es, k, stamp), now, ttl) == Touch(Expire(es, now, ttl), k, stamp);
  }

  lemma {:induction false} TouchFind<K, V>(es: seq<Entry<K, V>>, k: K, stamp: nat, key: K)
    ensures Find(Touch(es, k, stamp), key).Some? == Find(es, key).Some?
    ensures Find(es, key).Some? ==>
      var e := Find(es, key).value; var e' := Find(Touch(es, k, stamp), key).value;
      e'.value == e.value && e'.inserted == e.inserted
    decreases |es|
  {
    if |es| > 0 {
      assert Touch(es, k, stamp)[1..] == Touch(es[1..], k, stamp);
      TouchFind(es[1..], k, stamp, key);
    }
  }

  lemma TouchLookup<K, V>(es: seq<Entry<K, V>>, k: K, stamp: nat, key: K, now: int, ttl: int)
    ensures Lookup(Touch(es, k, stamp), key, now, ttl) == Lookup(es, key, now, ttl)
  {
    TouchFind(es, k, stamp, key);
  }

  /** One turn of the `values()` loop: the i-th live key reads the i-th live
      value, and the reads so far grow by one touch. */
  lemma ValuesStep<K, V>(start: seq<Entry<K, V>>, now: int, ttl: int, c0: nat, i: nat)
    requires DistinctKeys(start) && i < |LiveKeys(start, now, ttl)|
    ensures var ks := LiveKeys(start, now, ttl);
      var live := LiveValues(start, now, ttl);
      Lookup(TouchAll(start, ks[..i], c0), ks[i], now, ttl) == Some(live[i])
      && TouchAll(start, ks[..i + 1], c0) == Touch(TouchAll(start, ks[..i], c0), ks[i], c0 + i)
      && live[..i + 1] == live[..i] + [live[i]]
      && |live| == |ks|
  {
    var ks := LiveKeys(start, now, ttl);
    TouchAllPreserves(start, ks[..i], c0, now, ttl);
    LiveKeyLookup(start, now, ttl, i);
    TouchAllSnoc(start, ks, c0, i);
  }

  /** One more read extends the reads by one touch. */
  lemma TouchAllSnoc<K, V>(es: seq<Entry<K, V>>, ks: seq<K>, stamp: nat, i: nat)
    requires i < |ks|
    ensures TouchAll(es, ks[..i + 1], stamp) == Touch(TouchAll(es, ks[..i], stamp), ks[i], stamp + i)
  {
    assert ks[..i + 1][..i] == ks[..i];
  }

  lemma {:induction false} TouchAllPreserves<K, V>(es: seq<Entry<K, V>>, ks: seq<K>, stamp: nat, now: int, ttl: int)
    ensures KeysOf(TouchAll(es, ks, stamp)) == KeysOf(es)
    ensures DistinctKeys(es) ==> DistinctKeys(TouchAll(es, ks, stamp))
    ensures forall key :: Lookup(TouchAll(es, ks, stamp), key, now, ttl) == Lookup(es, key, now, ttl)
    decreases |ks|
  {
    if |ks| > 0 {
      var prev := TouchAll(es, ks[..|ks| - 1], stamp);
      TouchAllPreserves(es, ks[..|ks| - 1], stamp, now, ttl);
      TouchKeys(prev, ks[|ks| - 1], stamp + |ks| - 1);
      if DistinctKeys(es) {
        TouchDistinct(prev, ks[|ks| - 1], stamp + |ks| - 1);
      }
      forall key ensures Lookup(TouchAll(es, ks, stamp), key, now, ttl) == Lookup(es, key, now, ttl) {
        TouchLookup(prev, ks[|ks| - 1], stamp + |ks| - 1, key, now, ttl);
      }
    }
  }

  /** With distinct keys, the i-th live key looks up the i-th live value. */
  lemma {:induction false} LiveKeyLookup<K, V>(es: seq<Entry<K, V>>, now: int, ttl: int, i: nat)
    requires DistinctKeys(es) && i < |Expire(es, now, ttl)|
    ensures Lookup(es, LiveKeys(es, now, ttl)[i], now, ttl) == Some(LiveValues(es, now, ttl)[i])
    decreases |es|
  {
    var p := (e: Entry<K, V>) => Live(e, now, ttl);
    var live := Expire(es, now, ttl);
    var e := live[i];
    assert e in live;
    assert LiveKeys(es, now, ttl)[i] == e.key && LiveValues(es, now, ttl)[i] == e.value;
    var j :| 0 <= j < |es| && es[j] == e;
    FindDistinct(es, j);
  }

  lemma {:induction false} FindDistinct<K, V>(es: seq<Entry<K, V>>, j: nat)
    requires DistinctKeys(es) && j < |es|
    ensures Find(es, es[j].key) == Some(es[j])
    decreases |es|
  {
    if j > 0 {
      FindDistinct(es[1..], j - 1);
    }
  }

  // ---------------------------------------------------------------------
  // The backing store

  datatype CacheError = KeyError | ValueTooLarge

  /** cachetools' `TTLCache(maxsize, ttl)`. */
  class TTLCache<K(==), V(==)> {
    var entries: seq<Entry<K, V>>
    /** The next use stamp. */
    var clock: nat
    const maxsize: nat
    const ttl: int

    ghost predicate Valid()
      reads this
    {
      DistinctKeys(entries) && |entries| <= maxsize
    }

    constructor (maxsize: nat, ttl: int)
      ensures Valid() && this.maxsize == maxsize && this.ttl == ttl
      ensures entries == [] && clock == 0
    {
      this.maxsize := maxsize;
      this.ttl := ttl;
      entries := [];
      clock := 0;
    }

    /** `k in cache`: a live entry exists; the use order is not changed. */
    method Contains(k: K, now: int) returns (b: bool)
      ensures b <==> Lookup(entries, k, now, ttl).Some?
    {
      var found := Find(entries, k);
      b := found.Some? && Live(found.value, now, ttl);
    }

    /** `cache[k]`: the live value, if any; a stored key, even an expired
        one, becomes the most recently used. */
    method GetItem(k: K, now: int) returns (r: Option<V>)
      requires Valid()
      modifies this
      ensures Valid()
      ensures r == Lookup(old(entries), k, now, ttl)
      ensures entries == Touch(old(entries), k, old(clock)) && clock == old(clock) + 1
    {
      r := Lookup(entries, k, now, ttl);
      TouchDistinct(entries, k, clock);
      entries := Touch(entries, k, clock);
      clock := clock + 1;
    }

    /** `cache.get(k)`: tests `k in cache` first, so only a live key is read
        and becomes the most recently used; otherwise nothing changes. */
    method Get(k: K, now: int) returns (r: Option<V>)
      requires Valid()
      modifies this
      ensures Valid()
      ensures r == Lookup(old(entries), k, now, ttl)
      ensures r.Some? ==> entries == Touch(old(entries), k, old(clock)) && clock == old(clock) + 1
      ensures r.None? ==> entries == old(entries) && clock == old(clock)
    {
      var present := Contains(k, now);
      if present {
        r := GetItem(k, now);
      } else {
        r := None;
      }
    }

    /** `cache[k] = v`. With `maxsize == 0` cachetools raises ValueError
        ("value too large") and stores nothing. */
    method Set(k: K, v: V, now: int) returns (r: Result<(), CacheError>)
      requires Valid()
      modifies this
      ensures Valid()
      ensures r.Ok? <==> maxsize > 0
      ensures r.Err? ==> r.error == ValueTooLarge && entries == old(entries) && clock == old(clock)
      ensures r.Ok? ==> (entries == Insert(old(entries), k, v, now, ttl, maxsize, old(clock))
                         && clock == old(clock) + 1)
    {
      if maxsize == 0 {
        return Err(ValueTooLarge);
      }
      InsertDistinct(entries, k, v, now, ttl, maxsize, clock);
      InsertBounded(entries, k, v, now, ttl, maxsize, clock);
      entries := Insert(entries, k, v, now, ttl, maxsize, clock);
      clock := clock + 1;
      r := Ok(());
    }

    /** `del cache[k]`: a stored key is removed; KeyError is raised when the
        key is absent (nothing changes) and also when it had expired (it is
        removed all the same). */
    method Delete(k: K, now: int) returns (r: Result<(), CacheError>)
      requires Valid()
      modifies this
      ensures Valid()
      ensures entries == WithoutKey(old(entries), k) && clock == old(clock)
      ensures r.Err? <==> Lookup(old(entries), k, now, ttl).None?
      ensures r.Err? ==> r.error == KeyError
    {
      r := if Lookup(entries, k, now, ttl).None? then Err(KeyError) else Ok(());
      KeepDistinct(entries, (e: Entry<K, V>) => e.key != k);
      entries := WithoutKey(entries, k);
    }

    /** `len(cache)`: the number of live entries. */
    method Length(now: int) returns (n: nat)
      ensures n == |LiveKeys(entries, now, ttl)|
    {
      n := |Expire(entries, now, ttl)|;
    }

    /** `list(cache.keys())` */
    method Keys(now: int) returns (ks: seq<K>)
      ensures ks == LiveKeys(entries, now, ttl)
    {
      ks := LiveKeys(entries, now, ttl);
    }

    /** `list(cache.values())`: reads every live key in iteration order, so
        each becomes the most recently used in turn. */
    method Values(now: int) returns (vs: seq<V>)
      requires Valid()
      modifies this
      ensures Valid()
      ensures vs == LiveValues(old(entries), now, ttl)
      ensures var ks := LiveKeys(old(entries), now, ttl);
        entries == TouchAll(old(entries), ks, old(clock)) && clock == old(clock) + |ks|
    {
      var ks := LiveKeys(entries, now, ttl);
      ghost var start := entries;
      ghost var c0 := clock;
      vs := [];
      var i := 0;
      while i < |ks|
        invariant 0 <= i <= |ks|
        invariant entries == TouchAll(start, ks[..i], c0) && clock == c0 + i
        invariant vs == LiveValues(start, now, ttl)[..i]
        invariant Valid()
      {
        ValuesStep(start, now, ttl, c0, i);
        var v := GetItem(ks[i], now);
        vs := vs + [v.value];
        i := i + 1;
      }
      assert ks[..i] == ks;
    }
  }

  // ---------------------------------------------------------------------
  // The wrapper and its decorator

  /** `CustomCache(maxsize=100, ttl=300)`: a TTLCache plus a separate table
      of the times at which `add` stored each key. */
  class CustomCache<K(==), V(==)> {
    const cache: TTLCache<K, V>
    var timestamps: map<K, int>
    const maxsize: nat
    const ttl: int

    ghost predicate Valid()
      reads this, cache
    {
      cache.Valid() && cache.maxsize == maxsize && cache.ttl == ttl
    }

    /** `maxsize` and `ttl` echo the arguments and never change. */
    constructor (maxsize: nat := 100, ttl: int := 300)
      ensures Valid() && fresh(cache)
      ensures this.maxsize == maxsize && this.ttl == ttl
      ensures cache.entries == [] && timestamps == map[]
    {
      this.maxsize := maxsize;
      this.ttl := ttl;
      cache := new TTLCache(maxsize, ttl);
      timestamps := map[];
    }

    /** `cache[k]`: KeyError when there is no live value. */
    method GetItem(k: K, now: int) returns (r: Result<V, CacheError>)
      requires Valid()
      modifies cache
      ensures Valid()
      ensures r == match Lookup(old(cache.entries), k, now, ttl)
                   case Some(v) => Ok(v)
                   case None => Err(KeyError)
      ensures cache.entries == Touch(old(cache.entries), k, old(cache.clock))
      ensures cache.clock == old(cache.clock) + 1
    {
      var found := cache.GetItem(k, now);
      r := if found.Some? then Ok(found.value) else Err(KeyError);
    }

    /** `cache[k] = v` bypasses `timestamps`. */
    method SetItem(k: K, v: V, now: int) returns (r: Result<(), CacheError>)
      requires Valid()
      modifies cache
      ensures Valid() && timestamps == old(timestamps)
      ensures r.Ok? <==> maxsize > 0
      ensures r.Err? ==> cache.entries == old(cache.entries) && cache.clock == old(cache.clock)
      ensures r.Ok? ==> (cache.entries == Insert(old(cache.entries), k, v, now, ttl, maxsize, old(cache.clock))
                         && cache.clock == old(cache.clock) + 1)
    {
      r := cache.Set(k, v, now);
    }

    /** `del cache[k]` leaves `timestamps` as it was. */
    method DelItem(k: K, now: int) returns (r: Result<(), CacheError>)
      requires Valid()
      modifies cache
      ensures Valid() && timestamps == old(timestamps)
      ensures cache.entries == WithoutKey(old(cache.entries), k) && cache.clock == old(cache.clock)
      ensures r.Err? <==> Lookup(old(cache.entries), k, now, ttl).None?
    {
      r := cache.Delete(k, now);
    }

    /** `len(cache)` */
    method Length(now: int) returns (n: nat)
      requires Valid()
      ensures n == |LiveKeys(cache.entries, now, ttl)|
    {
      n := cache.Length(now);
    }

    /** `cache.get(k)`: None when there is no live value; only a live key
        becomes the most recently used. */
    method Get(k: K, now: int) returns (r: Option<V>)
      requires Valid()
      modifies cache
      ensures Valid()
      ensures r == Lookup(old(cache.entries), k, now, ttl)
      ensures r.Some? ==> cache.entries == Touch(old(cache.entries), k, old(cache.clock))
                          && cache.clock == old(cache.clock) + 1
      ensures r.None? ==> cache.entries == old(cache.entries) && cache.clock == old(cache.clock)
    {
      r := cache.Get(k, now);
    }

    /** `cache.search(value)`: the argument itself when it is a live key. */
    method Search(value: K, now: int) returns (r: Option<K>)
      requires Valid()
      ensures r.Some? <==> Lookup(cache.entries, value, now, ttl).Some?
      ensures r.Some? ==> r.value == value
    {
      var present := cache.Contains(value, now);
      r := if present then Some(value) else None;
    }

    /** `cache.add(k, v)`: records `now` in `timestamps` (even when the store
        then refuses the value) and stores the value. */
    method Add(k: K, v: V, now: int) returns (r: Result<(), CacheError>)
      requires Valid()
      modifies this, cache
      ensures Valid()
      ensures timestamps == old(timestamps)[k := now]
      ensures r.Ok? <==> maxsize > 0
      ensures r.Err? ==> cache.entries == old(cache.entries) && cache.clock == old(cache.clock)
      ensures r.Ok? ==> (cache.entries == Insert(old(cache.entries), k, v, now, ttl, maxsize, old(cache.clock))
                         && cache.clock == old(cache.clock) + 1)
    {
      timestamps := timestamps[k := now];
      r := cache.Set(k, v, now);
    }

    /** `cache.keys()`: the live keys, distinct, in the order they were set. */
    method Keys(now: int) returns (ks: seq<K>)
      requires Valid()
      ensures ks == LiveKeys(cache.entries, now, ttl)
    {
      ks := cache.Keys(now);
    }

    /** `cache.values()`: the live values, aligned with `Keys`. */
    method Values(now: int) returns (vs: seq<V>)
      requires Valid()
      modifies cache
      ensures Valid()
      ensures vs == LiveValues(old(cache.entries), now, ttl)
      ensures var ks := LiveKeys(old(cache.entries), now, ttl);
        cache.entries == TouchAll(old(cache.entries), ks, old(cache.clock))
        && cache.clock == old(cache.clock) + |ks|
    {
      vs := cache.Values(now);
    }
  }

  /** The listings are index-aligned: the i-th live key maps to the i-th live
      value, and the live keys are distinct. */
  lemma KeysValuesAligned<K, V>(es: seq<Entry<K, V>>, now: int, ttl: int)
    requires DistinctKeys(es)
    ensures |LiveKeys(es, now, ttl)| == |LiveValues(es, now, ttl)|
    ensures forall i :: 0 <= i < |LiveKeys(es, now, ttl)| ==>
      Lookup(es, LiveKeys(es, now, ttl)[i], now, ttl) == Some(LiveValues(es, now, ttl)[i])
    ensures forall i, j :: 0 <= i < j < |LiveKeys(es, now, ttl)| ==>
      LiveKeys(es, now, ttl)[i] != LiveKeys(es, now, ttl)[j]
  {
    KeepDistinct(es, e => Live(e, now, ttl));
    forall i | 0 <= i < |LiveKeys(es, now, ttl)|
      ensures Lookup(es, LiveKeys(es, now, ttl)[i], now, ttl) == Some(LiveValues(es, now, ttl)[i])
    {
      LiveKeyLookup(es, now, ttl, i);
    }
  }

  /** `(func.__name__, args, frozenset(kwargs.items()))` */
  datatype CallKey<A(==)> = CallKey(funcName: string, args: seq<A>, kwargs: set<(string, A)>)

  function MakeKey<A(==)>(funcName: string, args: seq<A>, kwargs: seq<(string, A)>): CallKey<A> {
    CallKey(funcName, args, set p | p in kwargs)
  }

  /** Keyword arguments given in another order give the same key. */
  lemma KeyIgnoresKeywordOrder<A>(funcName: string, args: seq<A>, kw1: seq<(string, A)>, kw2: seq<(string, A)>)
    requires multiset(kw1) == multiset(kw2)
    ensures MakeKey(funcName, args, kw1) == MakeKey(funcName, args, kw2)
  {
    assert forall p :: p in kw1 <==> p in multiset(kw1);
    assert forall p :: p in kw2 <==> p in multiset(kw2);
  }

  /** The key holds the function's name, not the function: two functions
      with one name and the same arguments share an entry. */
  lemma KeyIsByName<A>(funcName: string, args: seq<A>, kwargs: seq<(string, A)>)
    ensures MakeKey(funcName, args, kwargs).funcName == funcName
    ensures MakeKey(funcName, args, kwargs).args == args
  {
  }

  /** What the wrapped function returns, or the exception it raises. */
  datatype Outcome<V> = Returned(value: V) | Raised(error: string)

  datatype Decision<V> = Hit(value: V) | Miss

  /** The wrapper's test: a live stored value is used while the wrapper's own
      timestamp for it (0 when it has none) is younger than `ttl`. */
  function Decide<K(==), V(==)>(es: seq<Entry<K, V>>, timestamps: map<K, int>, key: K, now: int, ttl: int)
    : Decision<V>
  {
    match Lookup(es, key, now, ttl)
    case Some(v) =>
      var cachedTime := if key in timestamps then timestamps[key] else 0;
      if now - cachedTime < ttl then Hit(v) else Miss
    case None => Miss
  }

  /** A hit only ever returns the value stored under the key. */
  lemma HitIsStored<K, V>(es: seq<Entry<K, V>>, timestamps: map<K, int>, key: K, now: int, ttl: int)
    requires Decide(es, timestamps, key, now, ttl).Hit?
    ensures Lookup(es, key, now, ttl) == Some(Decide(es, timestamps, key, now, ttl).value)
    ensures key in timestamps ==> now - timestamps[key] < ttl
  {
  }

  /** Calling the wrapper twice in a row with the same arguments: after the
      first call stored its result, the second is a hit on that result. */
  lemma SecondCallHits<K, V>(es: seq<Entry<K, V>>, timestamps: map<K, int>, key: K, v: V,
                             now: int, ttl: int, maxsize: nat, stamp: nat)
    requires maxsize > 0 && ttl > 0
    ensures Decide(Insert(es, key, v, now, ttl, maxsize, stamp), timestamps[key := now], key, now, ttl) == Hit(v)
  {
    InsertThenLookup(es, key, v, now, ttl, maxsize, stamp, now);
  }

  /** An entry stored with `cache[k] = v` has no timestamp and counts as set
      at time 0, so once `now >= ttl` the wrapper recomputes it. */
  lemma NoTimestampMisses<K, V>(es: seq<Entry<K, V>>, timestamps: map<K, int>, key: K, now: int, ttl: int)
    requires key !in timestamps && now >= ttl
    ensures Decide(es, timestamps, key, now, ttl) == Miss
  {
  }

  /** `wrapped_func(*args, **kwargs)` for `func` named `funcName`. On a hit
      the stored value is returned and `func` is not called; otherwise `func`
      is called once, and its result is stored with `add` and returned. An
      exception from `func` propagates and nothing is stored. */
  method CallMemoized<A(==), V(==)>(c: CustomCache<CallKey<A>, V>, funcName: string,
                                func: (seq<A>, seq<(string, A)>) -> Outcome<V>,
                                args: seq<A>, kwargs: seq<(string, A)>, now: int)
    returns (out: Outcome<V>, called: bool)
    requires c.Valid()
    modifies c, c.cache
    ensures c.Valid()
    ensures var key := MakeKey(funcName, args, kwargs);
      var d := Decide(old(c.cache.entries), old(c.timestamps), key, now, c.ttl);
      d.Hit? ==>
        && !called && out == Returned(d.value)
        && c.timestamps == old(c.timestamps)
        && c.cache.entries == Touch(old(c.cache.entries), key, old(c.cache.clock))
    ensures var key := MakeKey(funcName, args, kwargs);
      var d := Decide(old(c.cache.entries), old(c.timestamps), key, now, c.ttl);
      var result := func(args, kwargs);
      d.Miss? ==>
        && called
        && (result.Raised? ==>
              out == result && c.timestamps == old(c.timestamps)
              && c.cache.entries == old(c.cache.entries) && c.cache.clock == old(c.cache.clock))
        && (result.Returned? ==>
              && c.timestamps == old(c.timestamps)[key := now]
              && (c.maxsize > 0 ==>
                    out == result
                    && c.cache.entries == Insert(old(c.cache.entries), key, result.value, now, c.ttl, c.maxsize,
                                                 old(c.cache.clock)))
              && (c.maxsize == 0 ==> out.Raised? && c.cache.entries == old(c.cache.entries)))
  {
    var key := MakeKey(funcName, args, kwargs);
    var present := c.cache.Contains(key, now);
    if present {
      var cachedTime := if key in c.timestamps then c.timestamps[key] else 0;
      if now - cachedTime < c.cache.ttl {
        var v := c.cache.Get(key, now);
        return Returned(v.value), false;
      }
    }
    called := true;
    out := func(args, kwargs);
    if out.Returned? {
      var stored := c.Add(key, out.value, now);
      if stored.Err? {
        out := Raised("ValueError: value too large");
      }
    }
  }
}
