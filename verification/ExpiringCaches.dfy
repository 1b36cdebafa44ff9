/** Slot-expiring caches, swept lazily and at most sixteen entries per push. */
module ExpiringCaches {
  import opened Basics

  const EVICTION_LIMIT: nat := 16

  datatype Record<K> = Record(key: K, expires: Slot)

  predicate Expired<K>(r: Record<K>, instant: Slot) {
    instant >= r.expires
  }

  /** A cache as a value: what is readable, and the order of expiry. */
  datatype Cache<K(==), V> = Cache(index: map<K, V>, queue: seq<Record<K>>, ttl: Slot)

  /** How many entries at the front have expired. */
  function ExpiredFront<K>(queue: seq<Record<K>>, slot: Slot): (n: nat)
    ensures n <= |queue| && (forall i :: 0 <= i < n ==> Expired(queue[i], slot))
    ensures n < |queue| ==> !Expired(queue[n], slot)
  {
    if queue == [] || !Expired(queue[0], slot) then 0 else 1 + ExpiredFront(queue[1..], slot)
  }

  function SweepCount<K>(queue: seq<Record<K>>, slot: Slot): (n: nat)
    ensures n <= |queue|
  {
    if ExpiredFront(queue, slot) < EVICTION_LIMIT then ExpiredFront(queue, slot) else EVICTION_LIMIT
  }

  function Keys<K>(queue: seq<Record<K>>): set<K> {
    set i | 0 <= i < |queue| :: queue[i].key
  }

  /** The cache after a sweep: a bounded number of expired entries is gone. */
  function Swept<K, V>(c: Cache<K, V>, slot: Slot): Cache<K, V> {
    var n := SweepCount(c.queue, slot);
    c.(index := c.index - Keys(c.queue[..n]), queue := c.queue[n..])
  }

  /** The cache after a push, and whether the key was new. */
  function Pushed<K, V>(c: Cache<K, V>, key: K, value: V, slot: Slot): (Cache<K, V>, bool) {
    var swept := Swept(c, slot);
    if key in swept.index then (swept, false)
    else (swept.(index := swept.index[key := value], queue := swept.queue + [Record(key, slot + c.ttl)]), true)
  }

  /** What is readable is exactly what is queued for expiry, once each. */
  ghost predicate Consistent<K, V>(c: Cache<K, V>) {
    && c.index.Keys == Keys(c.queue)
    && (forall i, j :: 0 <= i < j < |c.queue| ==> c.queue[i].key != c.queue[j].key)
  }

  /** A sweep keeps exactly the entries it leaves in the queue. */
  lemma SweepKeepsConsistent<K, V>(c: Cache<K, V>, slot: Slot)
    requires Consistent(c)
    ensures Consistent(Swept(c, slot))
  {
    hide SweepCount;
    KeysSplit(c.queue, SweepCount(c.queue, slot));
  }

  lemma KeySides<K>(queue: seq<Record<K>>, n: nat, i: nat)
    requires n <= |queue| && i < |queue|
    ensures queue[i].key in if i < n then Keys(queue[..n]) else Keys(queue[n..])
  {
    if i < n {
      assert queue[..n][i] == queue[i];
    } else {
      assert queue[n..][i - n] == queue[i];
    }
  }

  /** Distinct keys fall on either side of a cut, never on both. */
  lemma KeysSplit<K>(queue: seq<Record<K>>, n: nat)
    requires n <= |queue| && forall i, j :: 0 <= i < j < |queue| ==> queue[i].key != queue[j].key
    ensures Keys(queue[n..]) == Keys(queue) - Keys(queue[..n])
  {
    forall k | k in Keys(queue) - Keys(queue[..n]) ensures k in Keys(queue[n..]) {
      var i :| 0 <= i < |queue| && queue[i].key == k;
      KeySides(queue, n, i);
    }
    forall k | k in Keys(queue[n..]) ensures k in Keys(queue) - Keys(queue[..n]) {
      var i :| 0 <= i < |queue[n..]| && queue[n..][i].key == k;
      assert queue[n + i].key == k;
    }
  }

  lemma AppendConsistent<K, V>(c: Cache<K, V>, key: K, value: V, expires: Slot)
    requires Consistent(c) && key !in c.index
    ensures Consistent(c.(index := c.index[key := value], queue := c.queue + [Record(key, expires)]))
  {
    AppendKey(c.queue, Record(key, expires));
    assert forall i :: 0 <= i < |c.queue| ==> c.queue[i].key in Keys(c.queue);
  }

  /** A push keeps the cache consistent and makes the key readable. */
  lemma PushKeepsConsistent<K, V>(c: Cache<K, V>, key: K, value: V, slot: Slot)
    requires Consistent(c)
    ensures Consistent(Pushed(c, key, value, slot).0) && key in Pushed(c, key, value, slot).0.index
  {
    hide Swept;
    SweepKeepsConsistent(c, slot);
    var swept := Swept(c, slot);
    if key !in swept.index {
      AppendConsistent(swept, key, value, slot + c.ttl);
    }
  }

  lemma NoKeys<K>()
    ensures Keys<K>([]) == {}
  {
  }

  lemma AppendKey<K>(queue: seq<Record<K>>, r: Record<K>)
    ensures Keys(queue + [r]) == Keys(queue) + {r.key}
  {
    forall k | k in Keys(queue) + {r.key} ensures k in Keys(queue + [r]) {
      if k in Keys(queue) {
        var i :| 0 <= i < |queue| && queue[i].key == k;
        assert (queue + [r])[i].key == k;
      } else {
        assert (queue + [r])[|queue|].key == k;
      }
    }
  }

  /** No record of `k` expires before `t`. */
  ghost predicate LivesUntil<K, V>(c: Cache<K, V>, k: K, t: Slot) {
    forall i :: 0 <= i < |c.queue| && c.queue[i].key == k ==> t <= c.queue[i].expires
  }

  /** A key leaves the cache only in a sweep at or after its expiry. */
  lemma SweptKeyExpired<K, V>(c: Cache<K, V>, slot: Slot, k: K, t: Slot)
    requires Consistent(c) && LivesUntil(c, k, t) && k in c.index && k !in Swept(c, slot).index
    ensures t <= slot
  {
  }

  /** Pushing keeps the lifetime of every other key, and of its own if later. */
  lemma PushKeepsLifetime<K, V>(c: Cache<K, V>, key: K, value: V, slot: Slot, k: K, t: Slot)
    requires LivesUntil(c, k, t) && (k == key ==> t <= slot + c.ttl)
    ensures LivesUntil(Pushed(c, key, value, slot).0, k, t)
  {
  }

  /** A key pushed anew lives for the cache's time to live. */
  lemma PushedLifetime<K, V>(c: Cache<K, V>, key: K, value: V, slot: Slot, t: Slot)
    requires Consistent(c) && Pushed(c, key, value, slot).1 && t <= slot + c.ttl
    ensures LivesUntil(Pushed(c, key, value, slot).0, key, t)
  {
  }

  /** A push is new exactly when the sweep leaves no such key. */
  lemma PushIsNew<K, V>(c: Cache<K, V>, key: K, value: V, slot: Slot)
    ensures Pushed(c, key, value, slot).1 <==> key !in Swept(c, slot).index
  {
    hide Swept;
  }

  lemma PushKeepsTtl<K, V>(c: Cache<K, V>, key: K, value: V, slot: Slot)
    ensures Pushed(c, key, value, slot).0.ttl == c.ttl
  {
  }

  /** The mutable cache: an index map and an expiry queue. */
  class ExpiringCache<K(==), V> {
    var index: map<K, V>
    var queue: seq<Record<K>>
    const ttl: Slot

    ghost function Value(): Cache<K, V>
      reads this
    {
      Cache(index, queue, ttl)
    }

    constructor (ttl: Slot)
      ensures Value() == Cache(map[], [], ttl)
    {
      index, queue := map[], [];
      this.ttl := ttl;
    }

    /** Sweeps a bounded number of expired entries, then inserts a new key. */
    method Push(key: K, value: V, slot: Slot) returns (isNew: bool)
      modifies this
      ensures (Value(), isNew) == Pushed(old(Value()), key, value, slot)
    {
      hide Keys;
      NoKeys<K>();
      ghost var front := ExpiredFront(queue, slot);
      var swept := 0;
      while swept < EVICTION_LIMIT && queue != [] && Expired(queue[0], slot)
        invariant swept <= front && swept <= EVICTION_LIMIT && swept <= |old(queue)| && queue == old(queue)[swept..]
        invariant index == old(index) - Keys(old(queue)[..swept])
      {
        assert old(queue)[..swept + 1] == old(queue)[..swept] + [queue[0]];
        AppendKey(old(queue)[..swept], queue[0]);
        index := index - {queue[0].key};
        queue := queue[1..];
        swept := swept + 1;
      }
      assert swept == SweepCount(old(queue), slot);
      if key in index {
        return false;
      }
      index := index[key := value];
      queue := queue + [Record(key, slot + ttl)];
      return true;
    }

    /** Replaces a value without extending the entry's life. */
    method Update(key: K, value: V)
      modifies this`index
      ensures queue == old(queue) && index.Keys == old(index).Keys
      ensures forall k :: k in index ==> index[k] == if k == key then value else old(index)[k]
    {
      if key in index {
        index := index[key := value];
      }
    }
  }
}
