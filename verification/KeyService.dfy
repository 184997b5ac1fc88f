/**
 The service that hands out data keys: a cache in front of the key store. `kms` says whether the KMS and the random
 source answer.
 */
module KeyService {
  import opened Base
  import opened KeyCache
  import opened KeyRing

  const KEY_BYTES: nat := 32
  const NONCE_ATTEMPTS: nat := 4

  datatype KeyError = NotFound | Store(error: RingError) | Unavailable | Exhausted

  datatype Nonce = Nonce(user: Id, version: nat, bytes: seq<byte>)

  /** What the KMS makes of a key for a User and a version. */
  function Wrap(key: seq<byte>, user: Id, version: nat, kek: Id, salt: Id): Record {
    Record(user, version, Wrapped(key, user, version, kek, salt), true)
  }

  predicate Covers(records: Store, contents: map<CacheKey, Cached>) {
    forall k :: k in contents ==> k in records && Unwrap(records[k]) == Some(contents[k].bytes)
  }

  class Service {
    const cache: Cache
    const store: KeyStore
    var nonces: set<Nonce>

    /** Whatever is cached for a User and a version is the key in that stored record. */
    ghost predicate Valid()
      reads this, cache, cache.owner.Keys, store
    {
      cache.Sound() && store.Valid() && Covers(store.records, cache.contents)
    }

    constructor (cache: Cache, store: KeyStore)
      requires cache.Sound() && store.Valid() && cache.contents == map[]
      ensures Valid() && this.cache == cache && this.store == store && nonces == {}
    {
      this.cache, this.store, nonces := cache, store, {};
    }

    /** An array the cache does not hold: its owner may zero it. */
    ghost predicate Own(key: array<byte>)
      reads cache
    {
      key !in cache.owner
    }

    /** A live entry for the name. */
    ghost predicate Hit(name: CacheKey, now: int)
      reads cache
    {
      name in cache.contents && now < cache.contents[name].expiresAt
    }

    /**
     The key of a name can be had: it is cached, or it is stored and the KMS answers with a key of the right length.
     */
    ghost predicate Yields(name: CacheKey, now: int, kms: bool)
      reads cache, store
    {
      Hit(name, now) || (name in store.records && kms && |store.records[name].wrapped.key| == 32)
    }

    ghost predicate Stored(record: Record)
      reads store
    {
      NameOf(record) in store.records && store.records[NameOf(record)] == record
    }

    /** Ask the cache: a hit is the stored record's key, in an array of the caller's own. */
    method Recall(name: CacheKey, now: int) returns (hit: Option<array<byte>>)
      requires Valid()
      modifies cache, cache.owner.Keys
      ensures Valid() && cache.owner == old(cache.owner) && (hit.Some? <==> old(Hit(name, now)))
      ensures hit.Some? ==>
                fresh(hit.value) && Own(hit.value) && name in store.records &&
                Unwrap(store.records[name]) == Some(hit.value[..])
      ensures name in cache.contents <==> hit.Some?
    {
      hit := cache.Get(name, now);
    }

    /** Let the cache keep a copy of a stored record's key. */
    method Remember(record: Record, key: array<byte>, now: int)
      requires Valid() && Stored(record) && Unwrap(record) == Some(key[..]) && Own(key)
      modifies cache, cache.owner.Keys
      ensures Valid() && fresh(cache.owner.Keys - old(cache.owner.Keys)) && Own(key) && key[..] == old(key[..])
      ensures cache.capacity > 0 ==> NameOf(record) in cache.contents
    {
      cache.Put(NameOf(record), key, now);
    }

    /** The cache has its own copy, so the caller's array can be zeroed. */
    method RememberAndZero(record: Record, key: array<byte>, now: int)
      requires Valid() && Stored(record) && Unwrap(record) == Some(key[..]) && Own(key)
      modifies cache, cache.owner.Keys, key
      ensures Valid() && fresh(cache.owner.Keys - old(cache.owner.Keys)) && Zeroed(key[..])
    {
      Remember(record, key, now);
      Zero(key);
    }

    /** The key of a stored record, from the cache or from the KMS, and then cached. */
    method UnwrapRecord(record: Record, now: int, kms: bool) returns (result: Result<array<byte>, KeyError>)
      requires Valid() && Stored(record)
      modifies cache, cache.owner.Keys
      ensures Valid() && fresh(cache.owner.Keys - old(cache.owner.Keys))
      ensures result.Ok? <==> old(Hit(NameOf(record), now)) || (kms && |record.wrapped.key| == 32)
      ensures result.Err? ==> result.error == if kms then Store(Invariant) else Unavailable
      ensures result.Ok? ==> fresh(result.value) && Own(result.value) && Unwrap(record) == Some(result.value[..])
      ensures result.Ok? && cache.capacity > 0 ==> NameOf(record) in cache.contents
    {
      var hit := Recall(NameOf(record), now);
      if hit.Some? {
        return Ok(hit.value);
      }
      assert UserFits(store.records, record.user);
      result := FromKms(record, now, kms);
    }

    method FromKms(record: Record, now: int, kms: bool) returns (result: Result<array<byte>, KeyError>)
      requires Valid() && Stored(record) && Unwrap(record).Some?
      modifies cache, cache.owner.Keys
      ensures Valid() && fresh(cache.owner.Keys - old(cache.owner.Keys))
      ensures result.Ok? <==> kms && |record.wrapped.key| == 32
      ensures result.Err? ==> result.error == if kms then Store(Invariant) else Unavailable
      ensures result.Ok? ==> fresh(result.value) && Own(result.value) && Unwrap(record) == Some(result.value[..])
      ensures result.Ok? && cache.capacity > 0 ==> NameOf(record) in cache.contents
    {
      if !kms {
        return Err(Unavailable);
      }
      var key := Unwrap(record).value;
      var dek := new byte[|key|](i requires 0 <= i < |key| => key[i]);
      assert dek[..] == key;
      if dek.Length != KEY_BYTES {
        Zero(dek);
        return Err(Store(Invariant));
      }
      Remember(record, dek, now);
      return Ok(dek);
    }

    /** The key of one version. */
    method Key(user: Id, version: nat, now: int, kms: bool) returns (result: Result<array<byte>, KeyError>)
      requires Valid()
      modifies cache, cache.owner.Keys
      ensures Valid() && fresh(cache.owner.Keys - old(cache.owner.Keys))
      ensures result.Ok? <==> old(Yields(CacheKey(user, version), now, kms))
      ensures result == Err(NotFound) <==> CacheKey(user, version) !in store.records
      ensures result.Ok? ==> fresh(result.value) && Own(result.value) && CacheKey(user, version) in store.records &&
                             Unwrap(store.records[CacheKey(user, version)]) == Some(result.value[..])
    {
      var name := CacheKey(user, version);
      var hit := Recall(name, now);
      if hit.Some? {
        return Ok(hit.value);
      }
      if name !in store.records {
        return Err(NotFound);
      }
      assert UserFits(store.records, user);
      result := UnwrapRecord(store.records[name], now, kms);
    }

    /** Make and store a User's first key; a key that another process stored first wins. */
    method Bootstrap(user: Id, dek: array<byte>, kek: Id, salt: Id, hasContent: bool, now: int, kms: bool)
      returns (result: Result<(Record, array<byte>), KeyError>)
      requires Valid() && dek.Length == 32 && Own(dek)
      modifies cache, cache.owner.Keys, store`records, dek
      ensures Valid() && fresh(cache.owner.Keys - old(cache.owner.Keys)) && Zeroed(dek[..]) && Own(dek)
      ensures result.Ok? ==>
                var (record, key) := result.value;
                record.user == user && record.writeKey && Stored(record) && fresh(key) && Own(key)
                  && Unwrap(record) == Some(key[..])
      ensures var first := Record(user, 1, Wrapped(old(dek[..]), user, 1, kek, salt), true);
              store.records == old(store.records) ||
              ((forall k :: !IsActive(old(store.records), user, k))
               && store.records == old(store.records)[NameOf(first) := first])
      ensures store.records != old(store.records) <==>
                && kms && user in store.users && !hasContent && forall k :: !IsActive(old(store.records), user, k)
      ensures result.Ok? <==>
                && kms && user in store.users
                && if forall k :: !IsActive(old(store.records), user, k) then !hasContent
                   else exists k :: IsActive(old(store.records), user, k) && old(Yields(k, now, true))
      ensures store.records != old(store.records) ==>
                && result.Ok? && result.value.0 == Record(user, 1, Wrapped(old(dek[..]), user, 1, kek, salt), true)
                && result.value.1[..] == old(dek[..])
    {
      if !kms {
        Zero(dek);
        return Err(Unavailable);
      }
      var candidate := Wrap(dek[..], user, 1, kek, salt);
      var stored := Offer(candidate, hasContent);
      var key := cache.Copy(dek);
      Zero(dek);
      if stored.Err? {
        return Err(Store(stored.error));
      }
      result := FirstKey(stored.value, candidate, key, now, kms);
    }

    /** Offer the store a first key: it is kept if the User has none, and otherwise the stored one is the answer. */
    method Offer(candidate: Record, hasContent: bool) returns (stored: Result<Record, RingError>)
      requires Valid() && candidate.version == 1 && candidate.writeKey && Unwrap(candidate).Some?
      modifies store`records
      ensures Valid()
      ensures stored.Ok? ==>
                && Stored(stored.value) && stored.value.user == candidate.user && stored.value.writeKey
                && forall k :: IsActive(store.records, candidate.user, k) <==> k == NameOf(stored.value)
      ensures stored.Ok? <==>
                candidate.user in store.users &&
                ((exists k :: IsActive(old(store.records), candidate.user, k)) || !hasContent)
      ensures if candidate.user in store.users && !hasContent &&
                 (forall k :: !IsActive(old(store.records), candidate.user, k))
              then stored == Ok(candidate) && store.records == old(store.records)[NameOf(candidate) := candidate] &&
                   NameOf(candidate) !in old(store.records)
              else store.records == old(store.records)
    {
      if forall k :: !IsActive(store.records, candidate.user, k) {
        NoActiveNoKeys(store.records, candidate.user);
      }
      stored := store.StoreInitialKey(candidate, hasContent);
      KeptCovers(old(store.records), store.records, cache.contents, candidate);
      if stored.Ok? {
        OnlyWriteKey(store.records, stored.value);
      }
    }

    /** The key of the record that was stored: the one just made, or another process's. */
    method FirstKey(canonical: Record, candidate: Record, key: array<byte>, now: int, kms: bool)
      returns (result: Result<(Record, array<byte>), KeyError>)
      requires Valid() && Stored(canonical) && Own(key) && Unwrap(candidate) == Some(key[..]) && candidate.version == 1
      requires canonical.user == candidate.user
      modifies cache, cache.owner.Keys
      ensures Valid() && fresh(cache.owner.Keys - old(cache.owner.Keys)) && Own(key)
      ensures result.Ok? ==>
                && result.value.0 == canonical && (result.value.1 == key || fresh(result.value.1))
                && Own(result.value.1)
                && Unwrap(canonical) == Some(result.value.1[..])
      ensures result.Ok? <==>
                || (canonical.version == 1 && canonical.wrapped == candidate.wrapped)
                || old(Hit(NameOf(canonical), now)) || (kms && |canonical.wrapped.key| == 32)
    {
      if canonical.version == 1 && canonical.wrapped == candidate.wrapped {
        Remember(canonical, key, now);
        return Ok((canonical, key));
      }
      var unwrapped := UnwrapRecord(canonical, now, kms);
      return if unwrapped.Ok? then Ok((canonical, unwrapped.value)) else Err(unwrapped.error);
    }

    /** The User's write key: the stored one, or a first one. */
    method ActiveKey(user: Id, dek: array<byte>, kek: Id, salt: Id, hasContent: bool, now: int, kms: bool)
      returns (result: Result<(Record, array<byte>), KeyError>)
      requires Valid() && dek.Length == 32 && Own(dek)
      modifies cache, cache.owner.Keys, store`records, dek
      ensures Valid() && fresh(cache.owner.Keys - old(cache.owner.Keys))
      ensures result.Ok? ==>
                var (record, key) := result.value;
                record.user == user && record.writeKey && Stored(record) && fresh(key) && Own(key)
                  && Unwrap(record) == Some(key[..])
      ensures (exists k :: IsActive(old(store.records), user, k)) ==> store.records == old(store.records)
      ensures result.Ok? <==>
                if forall k :: !IsActive(old(store.records), user, k) then kms && user in store.users && !hasContent
                else exists k :: IsActive(old(store.records), user, k) && old(Yields(k, now, kms))
    {
      var active := store.FindActive(user);
      if active.None? {
        result := Bootstrap(user, dek, kek, salt, hasContent, now, kms);
        return;
      }
      var record := store.records[active.value];
      assert UserFits(store.records, user);
      var key := UnwrapRecord(record, now, kms);
      return if key.Ok? then Ok((record, key.value)) else Err(key.error);
    }

    /**
     Make and store a version; it is the only write key from then on. The version is the next one as it was
     read before the key was made: another process may have stored it since.
     */
    method RotateUserKey(user: Id, version: nat, dek: array<byte>, kek: Id, salt: Id, now: int, kms: bool)
      returns (result: Result<nat, KeyError>)
      requires Valid() && dek.Length == 32 && Own(dek)
      modifies cache, cache.owner.Keys, store`records, dek
      ensures Valid() && fresh(cache.owner.Keys - old(cache.owner.Keys)) && Zeroed(dek[..])
      ensures result.Err? ==> store.records == old(store.records)
      ensures result.Ok? ==>
                result.value == version &&
                store.records == Rotated(old(store.records),
                                         Record(user, version, Wrapped(old(dek[..]), user, version, kek, salt), true))
      ensures result.Ok? <==> kms && version >= 2 && user in store.users && IsNext(old(store.records), user, version)
    {
      if version < 2 || !kms {
        Zero(dek);
        return Err(Unavailable);
      }
      var candidate := Wrap(dek[..], user, version, kek, salt);
      var stored := store.StoreRotatedKey(candidate);
      if stored.Err? {
        Zero(dek);
        return Err(Store(stored.error));
      }
      RotatedCovers(old(store.records), cache.contents, candidate);
      RememberAndZero(candidate, dek, now);
      return Ok(version);
    }

    /** A nonce that this key version has never used; none when a try cannot be made, or every try was used. */
    method ReserveNonce(user: Id, version: nat, tries: seq<Option<seq<byte>>>) returns (result: Result<Nonce, KeyError>)
      requires |tries| == 4
      modifies this`nonces
      ensures result.Ok? ==>
                && result.value.user == user && result.value.version == version && Some(result.value.bytes) in tries
                && result.value !in old(nonces) && nonces == old(nonces) + {result.value}
      ensures result.Err? ==> nonces == old(nonces)
      ensures result == Err(Exhausted) <==>
                forall t :: t in tries ==> t.Some? && Nonce(user, version, t.value) in old(nonces)
    {
      for attempt := 0 to NONCE_ATTEMPTS
        invariant nonces == old(nonces)
        invariant forall i :: 0 <= i < attempt ==> tries[i].Some? && Nonce(user, version, tries[i].value) in nonces
      {
        assert tries[attempt] in tries;
        if tries[attempt].None? {
          return Err(Unavailable);
        }
        var candidate := Nonce(user, version, tries[attempt].value);
        if candidate !in nonces {
          nonces := nonces + {candidate};
          return Ok(candidate);
        }
      }
      return Err(Exhausted);
    }
  }

  /** A stored write key is its User's only one. */
  lemma OnlyWriteKey(records: Store, record: Record)
    requires StoreInv(records) && record.writeKey && NameOf(record) in records && records[NameOf(record)] == record
    ensures forall k :: IsActive(records, record.user, k) <==> k == NameOf(record)
  {
    assert UserFits(records, record.user);
  }

  /** A first key is stored under a name that no cache entry has. */
  lemma KeptCovers(records: Store, records': Store, contents: map<CacheKey, Cached>, first: Record)
    requires Covers(records, contents)
    requires records' == records ||
             (NameOf(first) !in records && records' == records[NameOf(first) := first])
    ensures Covers(records', contents)
  {
  }

  /** A rotation changes no stored key. */
  lemma RotatedCovers(records: Store, contents: map<CacheKey, Cached>, next: Record)
    requires Covers(records, contents) && NameOf(next) !in records
    ensures Covers(Rotated(records, next), contents)
  {
  }
}
