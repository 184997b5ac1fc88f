/** The data-key cache: bounded, expiring, least recently used first out, and zeroed in place. */
module KeyCache {
  import opened Base

  type byte = b: int | 0 <= b < 256

  datatype CacheKey = CacheKey(user: Id, version: nat)

  /** `sequence` is the cache's own clock at the last use: every use gets a higher number than any before it. */
  datatype Entry = Entry(key: array<byte>, expiresAt: int, sequence: nat)

  /** An entry with its bytes instead of its array. */
  datatype Cached = Cached(bytes: seq<byte>, expiresAt: int, sequence: nat)

  predicate Zeroed(bytes: seq<byte>) { forall i :: 0 <= i < |bytes| ==> bytes[i] == 0 }

  /** No entry was used longer ago. */
  predicate Oldest(m: map<CacheKey, Cached>, victim: CacheKey) {
    victim in m && forall k :: k in m ==> m[victim].sequence <= m[k].sequence
  }

  /** The key was used last. */
  predicate Newest(m: map<CacheKey, Cached>, key: CacheKey, sequence: nat) {
    forall k :: k in m && k != key ==> m[k].sequence < sequence
  }

  method Zero(value: array<byte>)
    modifies value
    ensures Zeroed(value[..])
  {
    for i := 0 to value.Length
      invariant forall j :: 0 <= j < i ==> value[j] == 0
    {
      value[i] := 0;
    }
  }

  lemma RemoveOne<K, V>(m: map<K, V>, k: K)
    requires k in m
    ensures |m - {k}| == |m| - 1
  {
    assert (m - {k}).Keys == m.Keys - {k};
    assert |m.Keys| == |m.Keys - {k}| + 1;
  }

  lemma SameSize<K, V, W>(m: map<K, V>, n: map<K, W>)
    requires m.Keys == n.Keys
    ensures |m| == |n|
  {
    assert |m| == |m.Keys| == |n.Keys| == |n|;
  }

  predicate Live(entries: map<CacheKey, Entry>, owner: map<array<byte>, CacheKey>, a: array<byte>) {
    a in owner && owner[a] in entries && entries[owner[a]].key == a
  }

  /** Everything about the entries but their bytes: each lies in an array of its own. */
  predicate Shape(entries: map<CacheKey, Entry>, contents: map<CacheKey, Cached>, sequence: nat,
                  owner: map<array<byte>, CacheKey>)
  {
    && contents.Keys == entries.Keys
    && (forall k :: k in entries ==> entries[k].key in owner && owner[entries[k].key] == k)
    && (forall k :: k in entries ==>
          contents[k].expiresAt == entries[k].expiresAt && contents[k].sequence == entries[k].sequence <= sequence)
  }

  lemma ShapeWrite(entries: map<CacheKey, Entry>, contents: map<CacheKey, Cached>, sequence: nat,
                   owner: map<array<byte>, CacheKey>, key: CacheKey, e: Entry, bytes: seq<byte>)
    requires Shape(entries, contents, sequence, owner) && e.sequence == sequence + 1
    requires if key in entries then e.key == entries[key].key else e.key !in owner
    ensures Shape(entries[key := e], contents[key := Cached(bytes, e.expiresAt, e.sequence)], sequence + 1,
                  owner[e.key := key])
    ensures forall a :: a in owner ==> (Live(entries[key := e], owner[e.key := key], a) <==> Live(entries, owner, a))
    ensures Live(entries[key := e], owner[e.key := key], e.key)
  {
  }

  lemma Replaced<K, V>(m: map<K, V>, k: K, v: V)
    ensures (m - {k})[k := v] == m[k := v]
  {
  }

  /** Every entry holds its bytes. */
  ghost predicate Held(entries: map<CacheKey, Entry>, contents: map<CacheKey, Cached>)
    reads set k | k in entries :: entries[k].key
  {
    forall k :: k in entries ==> k in contents && contents[k].bytes == entries[k].key[..]
  }

  /** An array that holds no entry's key any more is zero. */
  ghost predicate Wiped(entries: map<CacheKey, Entry>, owner: map<array<byte>, CacheKey>)
    reads owner.Keys
  {
    forall a :: a in owner && !Live(entries, owner, a) ==> Zeroed(a[..])
  }

  lemma HeldWrite(entries: map<CacheKey, Entry>, contents: map<CacheKey, Cached>, key: CacheKey, e: Entry, c: Cached)
    requires Held(entries, contents) && c.bytes == e.key[..]
    ensures Held(entries[key := e], contents[key := c])
  {
  }

  lemma WipedWrite(entries: map<CacheKey, Entry>, owner: map<array<byte>, CacheKey>, key: CacheKey, e: Entry)
    requires Wiped(entries, owner) && Live(entries[key := e], owner[e.key := key], e.key)
    requires forall a :: a in owner ==> (Live(entries[key := e], owner[e.key := key], a) <==> Live(entries, owner, a))
    ensures Wiped(entries[key := e], owner[e.key := key])
  {
  }

  class Cache {
    const capacity: nat
    const ttl: int
    var entries: map<CacheKey, Entry>
    var sequence: nat
    ghost var contents: map<CacheKey, Cached>      // the entries, with their bytes
    ghost var owner: map<array<byte>, CacheKey>    // whose key an array holds

    /** Every entry holds its bytes, and any other array the cache ever held is zero. */
    ghost predicate Sound()
      reads this, owner.Keys
    {
      Shape(entries, contents, sequence, owner) && Held(entries, contents) && Wiped(entries, owner)
    }

    constructor (capacity: nat, ttl: int)
      ensures Sound() && contents == map[] && this.capacity == capacity && this.ttl == ttl && owner == map[]
    {
      this.capacity, this.ttl := capacity, ttl;
      entries, sequence, contents, owner := map[], 0, map[], map[];
    }

    /** Zero an entry's key where it lies and forget the entry. */
    method Drop(key: CacheKey)
      requires Sound() && key in entries
      modifies this`entries, this`contents, entries[key].key
      ensures Sound() && contents == old(contents) - {key}
    {
      Zero(entries[key].key);
      entries := entries - {key};
      contents := contents - {key};
    }

    method Copy(value: array<byte>) returns (copy: array<byte>)
      ensures fresh(copy) && copy[..] == value[..]
    {
      copy := new byte[value.Length](i requires 0 <= i < value.Length reads value => value[i]);
    }

    /** Record a use of a key, and where its entry lies from now on. */
    method Use(key: CacheKey, bytes: array<byte>, expiresAt: int)
      requires Sound() && if key in entries then bytes == entries[key].key else bytes !in owner
      modifies this
      ensures Sound() && sequence == old(sequence) + 1 && owner == old(owner)[bytes := key]
      ensures contents == old(contents)[key := Cached(bytes[..], expiresAt, sequence)]
    {
      var e := Entry(bytes, expiresAt, sequence + 1);
      ShapeWrite(entries, contents, sequence, owner, key, e, bytes[..]);
      HeldWrite(entries, contents, key, e, Cached(bytes[..], expiresAt, sequence + 1));
      WipedWrite(entries, owner, key, e);
      ghost var contents' := contents[key := Cached(bytes[..], expiresAt, sequence + 1)];
      sequence, entries, contents, owner := sequence + 1, entries[key := e], contents', owner[bytes := key];
      assert Held(entries, contents) && Wiped(entries, owner);
    }

    /** A hit is a fresh copy and counts as a use; an expired entry is zeroed and dropped. */
    method Get(key: CacheKey, now: int) returns (hit: Option<array<byte>>)
      requires Sound()
      modifies this, owner.Keys
      ensures Sound() && owner == old(owner)
      ensures if key in old(contents) && now < old(contents)[key].expiresAt then
                && hit.Some? && fresh(hit.value) && hit.value[..] == old(contents)[key].bytes
                && contents == old(contents)[key := old(contents)[key].(sequence := sequence)]
                && sequence == old(sequence) + 1
              else
                hit.None? && contents == old(contents) - {key}
    {
      if key !in entries {
        return None;
      }
      if !(now < entries[key].expiresAt) {
        Drop(key);
        return None;
      }
      var copy := Copy(entries[key].key);
      Use(key, entries[key].key, entries[key].expiresAt);
      return Some(copy);
    }

    /** Store a private copy of a key; while there are too many entries, the one used longest ago goes. */
    method Put(key: CacheKey, value: array<byte>, now: int)
      requires Sound() && value !in owner
      modifies this, owner.Keys
      ensures Sound() && fresh(owner.Keys - old(owner.Keys))
      ensures value[..] == old(value[..])
      ensures var full := old(contents)[key := Cached(value[..], now + ttl, sequence)];
              Trims(full, contents, capacity) && sequence == old(sequence) + 1
      ensures capacity > 0 ==> key in contents && contents[key].bytes == value[..]
    {
      Store(key, value, now);
      ghost var full := contents;
      Evict();
      if capacity > 0 {
        PutKeepsNewest(full, contents, key, capacity);
      }
    }

    method Forget(key: CacheKey)
      requires Sound()
      modifies this`entries, this`contents, owner.Keys
      ensures Sound() && contents == old(contents) - {key}
    {
      if key in entries {
        Drop(key);
      }
    }

    /** Replace an entry by a private copy, zeroing the key it held. */
    method Store(key: CacheKey, value: array<byte>, now: int)
      requires Sound() && value !in owner
      modifies this, owner.Keys
      ensures Sound() && fresh(owner.Keys - old(owner.Keys)) && value[..] == old(value[..])
      ensures contents == old(contents)[key := Cached(value[..], now + ttl, sequence)] && sequence == old(sequence) + 1
    {
      Forget(key);
      var copy := Copy(value);
      Use(key, copy, now + ttl);
      Replaced(old(contents), key, contents[key]);
    }

    method Evict()
      requires Sound()
      modifies this`entries, this`contents, owner.Keys
      ensures Sound() && Trims(old(contents), contents, capacity)
    {
      TrimsNothing(contents, capacity);
      while |entries| > capacity
        invariant Sound() && Trimming(old(contents), contents, capacity)
        decreases |entries|
      {
        var victim := FindOldest();
        RemoveOne(entries, victim);
        TrimsOne(old(contents), contents, victim, capacity);
        Drop(victim);
      }
      SameSize(entries, contents);
    }

    /** The entry whose last use is longest ago. */
    method FindOldest() returns (oldest: CacheKey)
      requires Sound() && contents != map[]
      ensures Oldest(contents, oldest)
    {
      var rest := entries.Keys;
      assert entries.Keys == contents.Keys;
      oldest :| oldest in rest;
      rest := rest - {oldest};
      while rest != {}
        invariant oldest in entries && rest <= entries.Keys
        invariant forall k :: k in entries && k !in rest ==> entries[oldest].sequence <= entries[k].sequence
        decreases |rest|
      {
        var candidate :| candidate in rest;
        if entries[candidate].sequence < entries[oldest].sequence {
          oldest := candidate;
        }
        rest := rest - {candidate};
      }
    }

    method Clear()
      requires Sound()
      modifies this, owner.Keys
      ensures Sound() && contents == map[]
    {
      var rest := entries.Keys;
      while rest != {}
        invariant Sound() && owner == old(owner) && rest == entries.Keys
        decreases rest
      {
        var k :| k in rest;
        Drop(k);
        rest := rest - {k};
      }
    }
  }

  /** Only entries used before every one that is left were removed. */
  predicate OldestGone(full: map<CacheKey, Cached>, left: map<CacheKey, Cached>) {
    && (forall k :: k in left ==> k in full && left[k] == full[k])
    && (forall k, gone :: k in left && gone in full && gone !in left ==> full[gone].sequence <= left[k].sequence)
  }

  /** On the way: nothing has gone yet, or there are still at least as many as fit. */
  predicate Trimming(full: map<CacheKey, Cached>, left: map<CacheKey, Cached>, capacity: nat) {
    OldestGone(full, left) && (left == full || |left| >= capacity)
  }

  /** What a put leaves: as many as fit, and the least recently used are gone. */
  predicate Trims(full: map<CacheKey, Cached>, left: map<CacheKey, Cached>, capacity: nat) {
    Trimming(full, left, capacity) && |left| <= capacity
  }

  lemma TrimsNothing(full: map<CacheKey, Cached>, capacity: nat)
    ensures Trimming(full, full, capacity)
  {
  }

  lemma TrimsOne(full: map<CacheKey, Cached>, left: map<CacheKey, Cached>, victim: CacheKey, capacity: nat)
    requires Trimming(full, left, capacity) && Oldest(left, victim) && |left| > capacity
    ensures Trimming(full, left - {victim}, capacity)
  {
    RemoveOne(left, victim);
  }

  /** A put never pushes out what it has just stored, unless the cache holds nothing at all. */
  lemma PutKeepsNewest(full: map<CacheKey, Cached>, left: map<CacheKey, Cached>, key: CacheKey, capacity: nat)
    requires Trims(full, left, capacity) && capacity > 0
    requires key in full && Newest(full, key, full[key].sequence)
    ensures key in left && |left| <= capacity
  {
    if left != full {
      assert |left| > 0;
      var k :| k in left;
      assert k != key ==> left[k].sequence < full[key].sequence;
    }
  }

  /** An entry that a put pushed out was used before every entry that stayed. */
  lemma PutEvictsOldest(full: map<CacheKey, Cached>, left: map<CacheKey, Cached>, gone: CacheKey, stayed: CacheKey,
                        capacity: nat)
    requires Trims(full, left, capacity) && gone in full && gone !in left && stayed in left
    ensures full[gone].sequence <= full[stayed].sequence && left[stayed] == full[stayed] && |left| == capacity
  {
  }
}
