/** The stored data keys of each User, and every cache that speeds them up, under any interleaving. */
module KeyRing {
  import opened Base
  import opened KeyCache

  /**
   A wrapped key: the KMS ties the key to its User, its version and the wrapping key; equal wrappings hold equal keys.
   */
  datatype Wrapped = Wrapped(key: seq<byte>, user: Id, version: nat, kek: Id, salt: Id)

  datatype Record = Record(user: Id, version: nat, wrapped: Wrapped, writeKey: bool)

  datatype RingError = Invariant | UnknownUser | Integrity

  type Store = map<CacheKey, Record>

  /** The versions of a User are 1..n. */
  ghost predicate UpTo(store: Store, user: Id, n: nat) {
    forall v: nat :: CacheKey(user, v) in store <==> 1 <= v <= n
  }

  /** A User's versions are 1..n, exactly one of them is the write key, and every record unwraps under its own name. */
  ghost predicate UserFits(store: Store, user: Id) {
    && (exists n: nat :: UpTo(store, user, n))
    && (forall k :: k in store && k.user == user ==>
          && store[k].user == k.user && store[k].version == k.version
          && store[k].wrapped.user == k.user && store[k].wrapped.version == k.version)
    && (forall j, k ::
          j in store && k in store && j.user == user && k.user == user && store[j].writeKey && store[k].writeKey ==>
            j == k)
    && ((exists k :: k in store && k.user == user) ==> exists k :: k in store && k.user == user && store[k].writeKey)
  }

  ghost predicate StoreInv(store: Store) {
    forall user :: UserFits(store, user)
  }

  /** The KMS: the key, if the wrapping is for exactly this record. */
  function Unwrap(r: Record): Option<seq<byte>> {
    if r.wrapped.user == r.user && r.wrapped.version == r.version then Some(r.wrapped.key) else None
  }

  // The stored steps, as functions of the store.

  function IsActive(store: Store, user: Id, k: CacheKey): bool {
    k in store && k.user == user && store[k].writeKey
  }

  /** The highest version plus one, the query both steps rely on. */
  ghost predicate IsNext(store: Store, user: Id, next: nat) {
    && next >= 1 && CacheKey(user, next) !in store
    && (forall k :: k in store && k.user == user ==> k.version < next)
    && (next == 1 || CacheKey(user, next - 1) in store)
  }

  /** Promote a new version: it is the only write key, the others keep everything but that. */
  function Rotated(store: Store, candidate: Record): Store {
    map k | k in store.Keys + {CacheKey(candidate.user, candidate.version)} ::
      if k == CacheKey(candidate.user, candidate.version) then candidate
      else if k.user == candidate.user then store[k].(writeKey := false)
      else store[k]
  }

  class KeyStore {
    var records: Store
    var users: set<Id>

    ghost predicate Valid()
      reads this
    {
      StoreInv(records)
    }

    constructor (users: set<Id>)
      ensures Valid() && records == map[]
    {
      this.users := users;
      records := map[];
      new;
      forall user ensures UserFits(records, user) {
        assert UpTo(records, user, 0);
      }
    }

    method FindActive(user: Id) returns (active: Option<CacheKey>)
      ensures active.Some? ==> IsActive(records, user, active.value)
      ensures active.None? ==> forall k :: !IsActive(records, user, k)
    {
      var rest := records.Keys;
      while rest != {}
        invariant rest <= records.Keys && forall k :: k in records && k !in rest ==> !IsActive(records, user, k)
        decreases |rest|
      {
        var k :| k in rest;
        if k.user == user && records[k].writeKey {
          return Some(k);
        }
        rest := rest - {k};
      }
      return None;
    }

    method NextVersion(user: Id) returns (next: nat)
      requires Valid()
      ensures IsNext(records, user, next)
    {
      assert UserFits(records, user);
      var rest, highest := records.Keys, 0;
      while rest != {}
        invariant rest <= records.Keys && (highest == 0 || CacheKey(user, highest) in records)
        invariant forall k :: k in records && k.user == user && k !in rest ==> k.version <= highest
        decreases |rest|
      {
        var k :| k in rest;
        if k.user == user && k.version > highest {
          highest := k.version;
        }
        rest := rest - {k};
      }
      return highest + 1;
    }

    /** The first key of a User, or the active one that somebody else stored first. */
    method StoreInitialKey(candidate: Record, hasContent: bool) returns (result: Result<Record, RingError>)
      requires Valid() && candidate.wrapped.user == candidate.user && candidate.wrapped.version == candidate.version
      modifies this`records
      ensures Valid()
      ensures result.Ok? ==>
                && CacheKey(result.value.user, result.value.version) in records && result.value.user == candidate.user
                && records[CacheKey(result.value.user, result.value.version)] == result.value && result.value.writeKey
      ensures result.Ok? <==>
                && candidate.user in users
                && ((exists k :: IsActive(old(records), candidate.user, k)) ||
                    (!hasContent && candidate.version == 1 && candidate.writeKey))
      ensures (result == Err(UnknownUser) <==> candidate.user !in users) && (result.Err? ==> records == old(records))
      ensures if candidate.user in users && (forall k :: !IsActive(old(records), candidate.user, k)) &&
                 !hasContent && candidate.version == 1 && candidate.writeKey
              then result == Ok(candidate) && records == old(records)[CacheKey(candidate.user, 1) := candidate]
              else records == old(records)
    {
      if candidate.user !in users {
        return Err(UnknownUser);
      }
      var active := FindActive(candidate.user);
      if active.Some? {
        assert UserFits(records, candidate.user);
        return Ok(records[active.value]);
      }
      var next := NextVersion(candidate.user);
      if next != 1 || hasContent || candidate.version != 1 || !candidate.writeKey {
        NoActiveNoKeys(records, candidate.user);
        return Err(Invariant);
      }
      NoActiveNoKeys(records, candidate.user);
      InitialKeeps(records, candidate);
      records := records[CacheKey(candidate.user, 1) := candidate];
      return Ok(candidate);
    }

    /** A new version, written by exactly one demotion and one promotion. */
    method StoreRotatedKey(candidate: Record) returns (result: Result<Record, RingError>)
      requires Valid() && candidate.wrapped.user == candidate.user && candidate.wrapped.version == candidate.version
      modifies this`records
      ensures Valid() && (result.Err? ==> records == old(records))
      ensures result.Ok? <==> candidate.user in users && IsNext(old(records), candidate.user, candidate.version) &&
                              candidate.version >= 2 && candidate.writeKey
      ensures result.Ok? ==> result.value == candidate && records == Rotated(old(records), candidate)
      ensures result == Err(UnknownUser) <==> candidate.user !in users
    {
      if candidate.user !in users {
        return Err(UnknownUser);
      }
      var next := NextVersion(candidate.user);
      NextUnique(records, candidate.user, next, candidate.version);
      if next != candidate.version || candidate.version < 2 || !candidate.writeKey {
        return Err(Invariant);
      }
      var key := CacheKey(candidate.user, candidate.version);
      RotateKeeps(records, candidate);
      KeysHaveActive(records, candidate.user, next - 1);
      var inserted := records[key := candidate.(writeKey := false)];
      var writers := set k | k in inserted && k.user == candidate.user && inserted[k].writeKey;
      OneWriter(records, candidate, writers);
      if |writers| != 1 {
        return Err(Invariant);
      }
      var demoted := map k | k in inserted :: if k.user == candidate.user && inserted[k].writeKey
          then inserted[k].(writeKey := false) else inserted[k];
      var promoted := demoted[key := demoted[key].(writeKey := true)];
      assert promoted == Rotated(records, candidate);
      records := promoted;
      return Ok(candidate);
    }
  }

  lemma NextUnique(store: Store, user: Id, a: nat, b: nat)
    requires IsNext(store, user, a)
    ensures IsNext(store, user, b) ==> a == b
  {
    if IsNext(store, user, b) {
      assert a > 1 ==> CacheKey(user, a - 1).version < b;
      assert b > 1 ==> CacheKey(user, b - 1).version < a;
    }
  }

  lemma NoActiveNoKeys(store: Store, user: Id)
    requires UserFits(store, user) && forall k :: !IsActive(store, user, k)
    ensures forall k :: k in store ==> k.user != user
  {
    if k :| k in store && k.user == user {
      var active :| active in store && active.user == user && store[active].writeKey;
      assert IsActive(store, user, active);
      assert false;
    }
  }

  lemma KeysHaveActive(store: Store, user: Id, version: nat)
    requires UserFits(store, user) && CacheKey(user, version) in store
    ensures exists k :: IsActive(store, user, k)
  {
    assert CacheKey(user, version).user == user;
    var active :| active in store && active.user == user && store[active].writeKey;
    assert IsActive(store, user, active);
  }

  /** The demotion always finds exactly one write key. */
  lemma OneWriter(store: Store, candidate: Record, writers: set<CacheKey>)
    requires UserFits(store, candidate.user) && exists k :: IsActive(store, candidate.user, k)
    requires CacheKey(candidate.user, candidate.version) !in store
    requires writers == set k
             | k in store[CacheKey(candidate.user, candidate.version) := candidate.(writeKey := false)] &&
                                k.user == candidate.user &&
                                store[CacheKey(candidate.user,
                                               candidate.version) := candidate.(writeKey := false)][k].writeKey
    ensures |writers| == 1
  {
    var active :| IsActive(store, candidate.user, active);
    assert active in writers;
    forall k | k in writers ensures k == active {
      assert k in store && store[k].writeKey;
    }
    assert writers == {active};
  }

  lemma OtherUserFits(store: Store, store': Store, user: Id)
    requires UserFits(store, user)
    requires forall k: CacheKey :: k.user == user ==>
               (k in store <==> k in store') && (k in store ==> store'[k] == store[k])
    ensures UserFits(store', user)
  {
    var n: nat :| UpTo(store, user, n);
    assert UpTo(store', user, n);
    if k :| k in store' && k.user == user {
      assert k in store;
      var active :| active in store && active.user == user && store[active].writeKey;
      assert active in store' && store'[active].writeKey;
    }
  }

  lemma InitialKeeps(store: Store, candidate: Record)
    requires StoreInv(store) && candidate.version == 1 && candidate.writeKey
    requires candidate.wrapped.user == candidate.user && candidate.wrapped.version == 1
    requires forall k :: k in store ==> k.user != candidate.user
    ensures StoreInv(store[CacheKey(candidate.user, 1) := candidate])
  {
    var key := CacheKey(candidate.user, 1);
    var store' := store[key := candidate];
    forall user ensures UserFits(store', user) {
      if user == candidate.user {
        assert UpTo(store', user, 1);
        assert key in store' && store'[key].writeKey;
      } else {
        assert UserFits(store, user);
        OtherUserFits(store, store', user);
      }
    }
  }

  lemma RotateKeeps(store: Store, candidate: Record)
    requires StoreInv(store) && IsNext(store, candidate.user, candidate.version) && candidate.version >= 2
             && candidate.writeKey
    requires candidate.wrapped.user == candidate.user && candidate.wrapped.version == candidate.version
    ensures StoreInv(Rotated(store, candidate))
  {
    var store' := Rotated(store, candidate);
    forall user ensures UserFits(store', user) {
      assert UserFits(store, user);
      if user == candidate.user {
        RotatedUser(store, candidate);
      } else {
        OtherUserFits(store, store', user);
      }
    }
  }

  lemma RotatedUser(store: Store, candidate: Record)
    requires UserFits(store, candidate.user) && IsNext(store, candidate.user, candidate.version)
             && candidate.version >= 2
    requires candidate.wrapped.user == candidate.user && candidate.wrapped.version == candidate.version
             && candidate.writeKey
    ensures UserFits(Rotated(store, candidate), candidate.user)
  {
    var user, store' := candidate.user, Rotated(store, candidate);
    var n: nat :| UpTo(store, user, n);
    assert n == candidate.version - 1 by {
      assert CacheKey(user, candidate.version - 1) in store;
      assert n >= 1 && CacheKey(user, n) in store && CacheKey(user, n).version < candidate.version;
    }
    assert UpTo(store', user, n + 1);
    assert CacheKey(user, candidate.version) in store' && store'[CacheKey(user, candidate.version)].writeKey;
  }

  // Racing processes.

  /** A key some process holds and may still put into its cache. */
  datatype Ticket = Ticket(name: CacheKey, key: seq<byte>)

  /** The store, the Users that were deleted, every process's cache, and every key in flight. */
  datatype Ring = Ring(store: Store, users: set<Id>, gone: set<Id>, caches: map<Id, map<CacheKey, seq<byte>>>,
                       tickets: set<Ticket>)

  datatype RingEvent =
    | Initial(candidate: Record, hasContent: bool)          // a bootstrap reaches the store, perhaps second
    | Rotate(candidate: Record)                             // a rotation reaches the store
    | Load(name: CacheKey)                                  // a process reads and unwraps a stored record
    | Put(process: Id, ticket: Ticket, left: map<CacheKey, seq<byte>>)    // a put, and what eviction leaves
    | Forget(process: Id, left: map<CacheKey, seq<byte>>)                 // expiry, clearing, a new process
    | AddUser(user: Id)
    | DeleteUser(user: Id)

  function NameOf(r: Record): CacheKey { CacheKey(r.user, r.version) }

  function TicketOf(r: Record): Ticket { Ticket(NameOf(r), r.wrapped.key) }

  predicate Submap(part: map<CacheKey, seq<byte>>, whole: map<CacheKey, seq<byte>>) {
    forall k :: k in part ==> k in whole && part[k] == whole[k]
  }

  function CacheOf(ring: Ring, process: Id): map<CacheKey, seq<byte>> {
    if process in ring.caches then ring.caches[process] else map[]
  }

  predicate Wellformed(r: Record) { r.wrapped.user == r.user && r.wrapped.version == r.version }

  /** One atomic step of some process; the two store steps are the methods of the store. */
  ghost predicate RingStep(a: Ring, e: RingEvent, b: Ring) {
    match e
    case Initial(candidate, hasContent) =>
      Wellformed(candidate) && candidate.user in a.users &&
      if (forall k :: !IsActive(a.store, candidate.user, k)) then
        && !hasContent && candidate.version == 1 && candidate.writeKey
        && b == a.(store := a.store[NameOf(candidate) := candidate], tickets := a.tickets + {TicketOf(candidate)})
      else
        exists k :: IsActive(a.store, candidate.user, k) && b == a.(tickets := a.tickets + {TicketOf(a.store[k])})
    case Rotate(candidate) =>
      && Wellformed(candidate) && candidate.user in a.users && IsNext(a.store, candidate.user, candidate.version)
      && candidate.version >= 2 && candidate.writeKey
      && b == a.(store := Rotated(a.store, candidate), tickets := a.tickets + {TicketOf(candidate)})
    case Load(name) =>
      name in a.store && Unwrap(a.store[name]).Some? &&
      b == a.(tickets := a.tickets + {Ticket(name, Unwrap(a.store[name]).value)})
    case Put(process, ticket, left) =>
      ticket in a.tickets && Submap(left, CacheOf(a, process)[ticket.name := ticket.key])
        && b == a.(caches := a.caches[process := left])
    case Forget(process, left) =>
      Submap(left, CacheOf(a, process)) && b == a.(caches := a.caches[process := left])
    case AddUser(user) =>
      user !in a.users && user !in a.gone && b == a.(users := a.users + {user})
    case DeleteUser(user) =>
      b == a.(users := a.users - {user}, gone := a.gone + {user}, store := map k | k in a.store && k.user != user ::
              a.store[k])
  }

  /** The key is the one in the stored record, unless its User is gone. */
  predicate Vouches(ring: Ring, name: CacheKey, key: seq<byte>) {
    name.user in ring.gone || (name in ring.store && Unwrap(ring.store[name]) == Some(key))
  }

  ghost predicate Coherent(ring: Ring) {
    && StoreInv(ring.store) && ring.users !! ring.gone
    && (forall k :: k in ring.store ==> k.user in ring.users)
    && (forall t :: t in ring.tickets ==> Vouches(ring, t.name, t.key))
    && (forall process, k :: process in ring.caches && k in ring.caches[process] ==>
        Vouches(ring, k, ring.caches[process][k]))
  }

  /** A stored key never changes while its User is there. */
  predicate Keeps(a: Ring, b: Ring) {
    && a.gone <= b.gone
    && (forall k :: k in a.store && k.user !in b.gone ==> k in b.store && Unwrap(b.store[k]) == Unwrap(a.store[k]))
  }

  lemma KeepsVouches(a: Ring, b: Ring)
    requires Keeps(a, b) && Coherent(a)
    ensures forall t :: t in a.tickets ==> Vouches(b, t.name, t.key)
    ensures forall process, k :: process in a.caches && k in a.caches[process] ==> Vouches(b, k, a.caches[process][k])
  {
    forall t | t in a.tickets ensures Vouches(b, t.name, t.key) {
      assert Vouches(a, t.name, t.key);
    }
    forall process, k | process in a.caches && k in a.caches[process] ensures Vouches(b, k, a.caches[process][k]) {
      assert Vouches(a, k, a.caches[process][k]);
    }
  }

  lemma InitialCoherent(a: Ring, candidate: Record, hasContent: bool, b: Ring)
    requires Coherent(a) && RingStep(a, Initial(candidate, hasContent), b)
    ensures Coherent(b)
  {
    assert UserFits(a.store, candidate.user);
    if forall k :: !IsActive(a.store, candidate.user, k) {
      NoActiveNoKeys(a.store, candidate.user);
      InitialKeeps(a.store, candidate);
      assert Vouches(b, NameOf(candidate), candidate.wrapped.key);
    } else {
      var k :| IsActive(a.store, candidate.user, k) && b == a.(tickets := a.tickets + {TicketOf(a.store[k])});
      assert NameOf(a.store[k]) == k && Vouches(b, k, a.store[k].wrapped.key);
    }
    KeepsVouches(a, b);
  }

  lemma RotateCoherent(a: Ring, candidate: Record, b: Ring)
    requires Coherent(a) && RingStep(a, Rotate(candidate), b)
    ensures Coherent(b)
  {
    RotateKeeps(a.store, candidate);
    assert Vouches(b, NameOf(candidate), candidate.wrapped.key);
    KeepsVouches(a, b);
  }

  lemma DeleteCoherent(a: Ring, user: Id, b: Ring)
    requires Coherent(a) && RingStep(a, DeleteUser(user), b)
    ensures Coherent(b)
  {
    forall other ensures UserFits(b.store, other) {
      assert UserFits(a.store, other);
      if other == user {
        assert UpTo(b.store, user, 0);
      } else {
        OtherUserFits(a.store, b.store, other);
      }
    }
    KeepsVouches(a, b);
  }

  lemma PutCoherent(a: Ring, process: Id, name: CacheKey, key: seq<byte>, left: map<CacheKey, seq<byte>>, b: Ring)
    requires Coherent(a) && Vouches(a, name, key)
    requires Submap(left, CacheOf(a, process)[name := key]) && b == a.(caches := a.caches[process := left])
    ensures Coherent(b)
  {
    forall p, k | p in b.caches && k in b.caches[p] ensures Vouches(b, k, b.caches[p][k]) {
      assert p != process ==> Vouches(a, k, a.caches[p][k]);
      assert p == process && k != name ==> k in CacheOf(a, process) && Vouches(a, k, a.caches[p][k]);
    }
  }

  lemma ForgetCoherent(a: Ring, process: Id, left: map<CacheKey, seq<byte>>, b: Ring)
    requires Coherent(a) && Submap(left, CacheOf(a, process)) && b == a.(caches := a.caches[process := left])
    ensures Coherent(b)
  {
    forall p, k | p in b.caches && k in b.caches[p] ensures Vouches(b, k, b.caches[p][k]) {
      assert p != process ==> Vouches(a, k, a.caches[p][k]);
      assert p == process ==> k in CacheOf(a, process) && Vouches(a, k, a.caches[p][k]);
    }
  }

  /** Every step keeps every cache and every key in flight coherent with the store. */
  lemma StepCoherent(a: Ring, e: RingEvent, b: Ring)
    requires Coherent(a) && RingStep(a, e, b)
    ensures Coherent(b)
  {
    match e
    case Initial(candidate, hasContent) => InitialCoherent(a, candidate, hasContent, b);
    case Rotate(candidate) => RotateCoherent(a, candidate, b);
    case Load(name) => KeepsVouches(a, b);
    case Put(process, ticket, left) => PutCoherent(a, process, ticket.name, ticket.key, left, b);
    case Forget(process, left) => ForgetCoherent(a, process, left, b);
    case AddUser(user) => KeepsVouches(a, b);
    case DeleteUser(user) => DeleteCoherent(a, user, b);
  }

  ghost predicate RingRun(a: Ring, events: seq<RingEvent>, b: Ring)
    decreases |events|
  {
    if events == [] then a == b else exists c :: RingStep(a, events[0], c) && RingRun(c, events[1..], b)
  }

  lemma {:induction false} RunCoherent(a: Ring, events: seq<RingEvent>, b: Ring)
    requires Coherent(a) && RingRun(a, events, b)
    ensures Coherent(b)
    decreases |events|
  {
    if events != [] {
      var c :| RingStep(a, events[0], c) && RingRun(c, events[1..], b);
      StepCoherent(a, events[0], c);
      RunCoherent(c, events[1..], b);
    }
  }

  /** From nothing stored and nothing cached, whatever races: a cached key is the stored one, and the ring is whole. */
  lemma CacheAgreesWithStore(events: seq<RingEvent>, ring: Ring, process: Id, user: Id, version: nat)
    requires RingRun(Ring(map[], {}, {}, map[], {}), events, ring)
    ensures UserFits(ring.store, user)
    ensures CacheKey(user, version) in CacheOf(ring, process) && user !in ring.gone ==>
              && CacheKey(user, version) in ring.store
              && Unwrap(ring.store[CacheKey(user, version)]) == Some(CacheOf(ring, process)[CacheKey(user, version)])
  {
    var empty := Ring(map[], {}, {}, map[], {});
    forall u ensures UserFits(empty.store, u) {
      assert UpTo(empty.store, u, 0);
    }
    RunCoherent(empty, events, ring);
    if CacheKey(user, version) in CacheOf(ring, process) {
      assert Vouches(ring, CacheKey(user, version), ring.caches[process][CacheKey(user, version)]);
    }
  }

  // The cache class takes exactly these steps.

  function Bytes(contents: map<CacheKey, Cached>): map<CacheKey, seq<byte>> {
    map k | k in contents :: contents[k].bytes
  }

  /** What the class leaves after a put is a step the ring allows. */
  lemma PutIsStep(a: Ring, process: Id, before: map<CacheKey, Cached>, ticket: Ticket, expiresAt: int, sequence: nat,
                  after: map<CacheKey, Cached>, capacity: nat)
    requires CacheOf(a, process) == Bytes(before) && ticket in a.tickets
    requires Trims(before[ticket.name := Cached(ticket.key, expiresAt, sequence)], after, capacity)
    ensures RingStep(a, Put(process, ticket, Bytes(after)), a.(caches := a.caches[process := Bytes(after)]))
  {
  }

  /** So is what a lookup leaves, hit or miss. */
  lemma GetIsStep(a: Ring, process: Id, before: map<CacheKey, Cached>, key: CacheKey, sequence: nat, hit: bool,
                  after: map<CacheKey, Cached>)
    requires CacheOf(a, process) == Bytes(before)
    requires after == if hit && key in before then before[key := before[key].(sequence := sequence)] else before - {key}
    ensures RingStep(a, Forget(process, Bytes(after)), a.(caches := a.caches[process := Bytes(after)]))
  {
  }
}
