/** The limiter on anonymous User creation: hour buckets that stand for a rolling day. */
module RateLimiter {
  import opened Base
  import opened Rows

  /** One attempt by a client, at its canonical time. */
  datatype Attempt = Attempt(client: Id, at: int, allowed: bool)

  datatype Bucket = Bucket(count: nat, expires: int)

  const DAY: int := 86400       // 24 hours
  const LIFETIME: int := 90000  // 25 hours

  /** The start of the hour a time falls in. */
  function HourOf(at: int): (hour: int)
    ensures hour <= at < hour + 3600 && hour % 3600 == 0
  {
    at - at % HOUR
  }

  /** How many attempts of a client satisfy a condition on their time, since the beginning. */
  function CountWhere(log: seq<Attempt>, client: Id, when: int -> bool): (n: nat)
    ensures n <= |log|
  {
    if log == [] then 0
    else
      var last := log[|log| - 1];
      CountWhere(log[..|log| - 1], client, when) + if last.client == client && when(last.at) then 1 else 0
  }

  function InHour(hour: int): int -> bool { (at: int) => HourOf(at) == hour }

  function After(from: int): int -> bool { (at: int) => at > from }

  /** The attempts of the hours from `from` through `through`. */
  function HoursCount(log: seq<Attempt>, client: Id, from: int, through: int): nat
    decreases through - from + HOUR
  {
    if through < from then 0
    else HoursCount(log, client, from, through - HOUR) + CountWhere(log, client, InHour(through))
  }

  /** Attempts that were let through in the half-open interval (from, to]. */
  function Allowed(log: seq<Attempt>, client: Id, from: int, to: int): nat {
    if log == [] then 0
    else
      var last := log[|log| - 1];
      Allowed(log[..|log| - 1], client, from, to) + if last.client == client && last.allowed && from < last.at <= to
        then 1 else 0
  }

  predicate NoneAfter(log: seq<Attempt>, client: Id, at: int) {
    forall i :: 0 <= i < |log| && log[i].client == client ==> log[i].at <= at
  }

  /** Attempts of one client happen in order. */
  predicate Ordered(log: seq<Attempt>) {
    forall i, j :: 0 <= i < j < |log| && log[i].client == log[j].client ==> log[i].at <= log[j].at
  }

  /** Whoever was let through had made at most `limit` attempts in the day before, blocked ones included. */
  predicate DayKept(log: seq<Attempt>, limit: int) {
    forall i :: 0 <= i < |log| ==> DayKeptAt(log, i, limit)
  }

  predicate DayKeptAt(log: seq<Attempt>, i: nat, limit: int)
    requires i < |log|
  {
    log[i].allowed ==> CountWhere(log[..i + 1], log[i].client, After(log[i].at - DAY)) <= limit
  }

  predicate HourKept(log: seq<Attempt>, limit: int) {
    forall i :: 0 <= i < |log| ==> HourKeptAt(log, i, limit)
  }

  predicate HourKeptAt(log: seq<Attempt>, i: nat, limit: int)
    requires i < |log|
  {
    log[i].allowed ==> CountWhere(log[..i + 1], log[i].client, InHour(HourOf(log[i].at))) <= limit
  }

  lemma {:induction false} AllowedAreAttempts(log: seq<Attempt>, client: Id, from: int, to: int)
    ensures Allowed(log, client, from, to) <= CountWhere(log, client, After(from))
  {
    if log != [] {
      AllowedAreAttempts(log[..|log| - 1], client, from, to);
    }
  }

  lemma {:induction false} CountMonotone(log: seq<Attempt>, client: Id, narrow: int -> bool, wide: int -> bool)
    requires forall at :: narrow(at) ==> wide(at)
    ensures CountWhere(log, client, narrow) <= CountWhere(log, client, wide)
  {
    if log != [] {
      CountMonotone(log[..|log| - 1], client, narrow, wide);
    }
  }

  /** In any rolling day the attempts that were let through are within the day limit. */
  lemma {:induction false} RollingDay(log: seq<Attempt>, client: Id, to: int, limit: nat)
    requires DayKept(log, limit)
    ensures Allowed(log, client, to - 86400, to) <= limit
  {
    if log != [] {
      var n := |log| - 1;
      var last := log[n];
      forall i | 0 <= i < n ensures DayKeptAt(log[..n], i, limit) {
        assert DayKeptAt(log, i, limit) && log[..n][..i + 1] == log[..i + 1];
      }
      assert DayKeptAt(log, n, limit);
      RollingDay(log[..n], client, to, limit);
      if last.client == client && last.allowed && to - DAY < last.at <= to {
        assert log[..n + 1] == log;
        AllowedAreAttempts(log, client, to - DAY, to);
        CountMonotone(log, client, After(to - DAY), After(last.at - DAY));
      }
    }
  }

  // The buckets hold what happened.

  lemma HoursCover(at: int, canonical: int)
    requires canonical - DAY < at <= canonical
    ensures HourOf(canonical) - DAY <= HourOf(at) <= HourOf(canonical)
  {
  }

  /** The 25 hours up to the canonical one hold every attempt of the last day. */
  lemma {:induction false} HoursHoldDay(log: seq<Attempt>, client: Id, canonical: int)
    requires NoneAfter(log, client, canonical)
    ensures CountWhere(log, client, After(canonical - DAY)) <= HoursCount(log, client, HourOf(canonical) - DAY,
                                                                          HourOf(canonical))
  {
    if log != [] {
      var n := |log| - 1;
      var last, from := log[n], HourOf(canonical) - DAY;
      HoursHoldDay(log[..n], client, canonical);
      HoursStep(log, client, from, HourOf(canonical));
      if last.client == client && last.at > canonical - DAY {
        HoursCover(last.at, canonical);
      }
    }
  }

  lemma DayCovered(log: seq<Attempt>, client: Id, canonical: int, limit: int)
    requires NoneAfter(log, client, canonical)
    requires HoursCount(log, client, HourOf(canonical) - DAY, HourOf(canonical)) <= limit
    ensures CountWhere(log, client, After(canonical - DAY)) <= limit
  {
    HoursHoldDay(log, client, canonical);
  }

  /** How one more attempt changes the sum over hours. */
  lemma {:induction false} HoursStep(log: seq<Attempt>, client: Id, from: int, through: int)
    requires log != [] && from % HOUR == 0 && through % HOUR == 0
    ensures var last := log[|log| - 1];
            HoursCount(log, client, from, through) == HoursCount(log[..|log| - 1], client, from, through) +
              if last.client == client && from <= HourOf(last.at) <= through then 1 else 0
    decreases through - from + HOUR
  {
    if through >= from {
      HoursStep(log, client, from, through - HOUR);
      NextHour(HourOf(log[|log| - 1].at), through);
    }
  }

  /** Hours start an hour apart. */
  lemma NextHour(hour: int, through: int)
    requires hour % HOUR == 0 && through % HOUR == 0
    ensures hour <= through - HOUR || hour == through || hour >= through + HOUR
  {
  }

  // The stored rows, against everything that happened.

  /** What a bucket says about its hour; a bucket that is gone is one no later check can need. */
  ghost predicate BucketFits(buckets: map<(Id, int), Bucket>, log: seq<Attempt>, captured: int, client: Id, hour: int) {
    if (client, hour) in buckets then
      && buckets[(client, hour)].count == CountWhere(log, client, InHour(hour))
      && forall i :: 0 <= i < |log| && log[i].client == client && HourOf(log[i].at) == hour ==>
           log[i].at + LIFETIME <= buckets[(client, hour)].expires
    else
      forall i :: 0 <= i < |log| && log[i].client == client && HourOf(log[i].at) == hour ==>
        log[i].at + LIFETIME <= captured
  }

  ghost predicate BucketsFit(buckets: map<(Id, int), Bucket>, log: seq<Attempt>, captured: int) {
    forall client, hour :: BucketFits(buckets, log, captured, client, hour)
  }

  /** A client's guard is at its latest time, unless that is long past. */
  predicate GuardsFit(guards: map<Id, int>, log: seq<Attempt>, captured: int) {
    forall i :: 0 <= i < |log| ==>
      (log[i].client in guards && log[i].at <= guards[log[i].client]) || log[i].at + LIFETIME <= captured
  }

  lemma {:induction false} NoneInHour(log: seq<Attempt>, client: Id, hour: int)
    requires forall i :: 0 <= i < |log| && log[i].client == client ==> HourOf(log[i].at) != hour
    ensures CountWhere(log, client, InHour(hour)) == 0
  {
    if log != [] {
      NoneInHour(log[..|log| - 1], client, hour);
    }
  }

  function CountIn(buckets: map<(Id, int), Bucket>, client: Id, hour: int): nat {
    if (client, hour) in buckets then buckets[(client, hour)].count else 0
  }

  /** For every hour a check at `canonical` looks at, the stored count is exact. */
  lemma RecentBucketExact(buckets: map<(Id, int), Bucket>, log: seq<Attempt>, captured: int, client: Id, canonical: int,
                          hour: int)
    requires BucketsFit(buckets, log, captured) && captured <= canonical && HourOf(canonical) - DAY <= hour
    ensures CountIn(buckets, client, hour) == CountWhere(log, client, InHour(hour))
  {
    assert BucketFits(buckets, log, captured, client, hour);
    if (client, hour) !in buckets {
      NoneInHour(log, client, hour);
    }
  }

  /** The guard's clock: it never runs back. */
  function Canonical(guards: map<Id, int>, client: Id, clock: int): (at: int)
    ensures clock <= at && (client in guards ==> guards[client] <= at)
    ensures at == clock || (client in guards && at == guards[client])
  {
    if client in guards then Max(guards[client], clock) else clock
  }

  /** Blocked attempts count too. */
  predicate OverLimit(log: seq<Attempt>, client: Id, at: int, hourLimit: int, dayLimit: int) {
    || CountWhere(log, client, InHour(HourOf(at))) > hourLimit
    || HoursCount(log, client, HourOf(at) - DAY, HourOf(at)) > dayLimit
  }

  class AnonymousLimiter {
    const hourLimit: int
    const dayLimit: int
    var guards: map<Id, int>
    var buckets: map<(Id, int), Bucket>
    ghost var log: seq<Attempt>
    ghost var captured: int

    ghost predicate Valid()
      reads this
    {
      && BucketsFit(buckets, log, captured) && GuardsFit(guards, log, captured)
      && Ordered(log) && DayKept(log, dayLimit) && HourKept(log, hourLimit)
    }

    constructor (hourLimit: int, dayLimit: int)
      ensures Valid() && log == []
    {
      this.hourLimit, this.dayLimit := hourLimit, dayLimit;
      guards, buckets, log, captured := map[], map[], [], 0;
    }

    /** The attempts of the hours from `from` to the current one, summed over the stored buckets. */
    method RollingCount(client: Id, canonical: int) returns (count: nat)
      requires BucketsFit(buckets, log, captured) && captured <= canonical
      ensures count == HoursCount(log, client, HourOf(canonical) - DAY, HourOf(canonical))
    {
      var from := HourOf(canonical) - DAY;
      var hour := from;
      count := 0;
      while hour <= HourOf(canonical)
        invariant hour % HOUR == 0 && from <= hour <= HourOf(canonical) + HOUR
        invariant count == HoursCount(log, client, from, hour - HOUR)
      {
        RecentBucketExact(buckets, log, captured, client, canonical, hour);
        count := count + CountIn(buckets, client, hour);
        hour := hour + HOUR;
      }
    }

    /**
     One attempt to create an anonymous User. The clock may run back, but not behind a clean-up that
     has been carried out.
     */
    method Check(client: Id, clock: int) returns (blocked: bool)
      requires Valid() && captured <= clock
      modifies this
      ensures Valid() && captured == old(captured)
      ensures var at := Canonical(old(guards), client, clock);
              && guards == old(guards)[client := at] && NoneAfter(old(log), client, at)
              && log == old(log) + [Attempt(client, at, !blocked)]
              && (blocked <==> OverLimit(log, client, at, hourLimit, dayLimit))
    {
      var canonical := Canonical(guards, client, clock);
      var hourCount := Record(client, canonical);
      var rolling := RollingCount(client, canonical);
      blocked := hourCount > hourLimit || rolling > dayLimit;
      AttemptDecided(buckets, old(log), captured, Attempt(client, canonical, false), !blocked, hourLimit, dayLimit);
      log := old(log) + [Attempt(client, canonical, !blocked)];
    }

    /** Advance the guard and count the attempt in its hour's bucket. */
    method Record(client: Id, canonical: int) returns (hourCount: nat)
      requires BucketsFit(buckets, log, captured) && GuardsFit(guards, log, captured) && Ordered(log)
      requires captured <= canonical && (client in guards ==> guards[client] <= canonical)
      modifies this
      ensures captured == old(captured) && log == old(log) + [Attempt(client, canonical, false)]
      ensures guards == old(guards)[client := canonical]
      ensures BucketsFit(buckets, log, captured) && GuardsFit(guards, log, captured) && Ordered(log)
      ensures NoneAfter(old(log), client, canonical) && NoneAfter(log, client, canonical)
      ensures hourCount == CountWhere(log, client, InHour(HourOf(canonical)))
    {
      var window := HourOf(canonical);
      var known := if (client, window) in buckets then buckets[(client, window)] else Bucket(0, canonical + LIFETIME);
      var bucket := Bucket(known.count + 1, Max(known.expires, canonical + LIFETIME));
      NewAttemptFits(guards, buckets, log, captured, Attempt(client, canonical, false), bucket);
      NewAttemptOrdered(log, Attempt(client, canonical, false));
      guards := guards[client := canonical];
      buckets := buckets[(client, window) := bucket];
      log := log + [Attempt(client, canonical, false)];
      return bucket.count;
    }

    /** The retention job removes what has expired by the time it captured. */
    method Cleanup(now: int)
      requires Valid()
      modifies this
      ensures Valid() && log == old(log) && captured == Max(old(captured), now)
      ensures guards == map client | client in old(guards) && now < old(guards)[client] + 90000 :: old(guards)[client]
      ensures buckets == map k | k in old(buckets) && now < old(buckets)[k].expires :: old(buckets)[k]
    {
      guards := map client | client in guards && now < guards[client] + LIFETIME :: guards[client];
      buckets := map k | k in buckets && now < buckets[k].expires :: buckets[k];
      captured := Max(captured, now);
      forall client, hour ensures BucketFits(buckets, log, captured, client, hour) {
        assert BucketFits(old(buckets), log, old(captured), client, hour);
      }
    }
  }

  /** The rows still fit once an attempt is counted. */
  lemma NewAttemptFits(guards: map<Id, int>, buckets: map<(Id, int), Bucket>, log: seq<Attempt>, captured: int,
                       a: Attempt, bucket: Bucket)
    requires BucketsFit(buckets, log, captured) && GuardsFit(guards, log, captured) && captured <= a.at
    requires a.client in guards ==> guards[a.client] <= a.at
    requires var k := (a.client, HourOf(a.at));
             && bucket.count == CountIn(buckets, k.0, k.1) + 1
             && a.at + LIFETIME <= bucket.expires && (k in buckets ==> buckets[k].expires <= bucket.expires)
    ensures BucketsFit(buckets[(a.client, HourOf(a.at)) := bucket], log + [a], captured)
    ensures GuardsFit(guards[a.client := a.at], log + [a], captured)
    ensures NoneAfter(log, a.client, a.at)
    ensures bucket.count == CountWhere(log + [a], a.client, InHour(HourOf(a.at)))
  {
    var log' := log + [a];
    assert log'[..|log|] == log;
    RecentBucketExact(buckets, log, captured, a.client, a.at, HourOf(a.at));
    var buckets' := buckets[(a.client, HourOf(a.at)) := bucket];
    forall client, hour ensures BucketFits(buckets', log', captured, client, hour) {
      assert BucketFits(buckets, log, captured, client, hour);
    }
  }

  /** Whatever is decided, the rows fit and the limits are kept. */
  lemma AttemptDecided(buckets: map<(Id, int), Bucket>, log: seq<Attempt>, captured: int, a: Attempt, allowed: bool,
                       hourLimit: int, dayLimit: int)
    requires BucketsFit(buckets, log + [a], captured) && Ordered(log + [a]) && NoneAfter(log + [a], a.client, a.at)
    requires DayKept(log, dayLimit) && HourKept(log, hourLimit) && !a.allowed
    requires allowed ==> !OverLimit(log + [a], a.client, a.at, hourLimit, dayLimit)
    ensures var log' := log + [a.(allowed := allowed)];
            && BucketsFit(buckets, log', captured) && Ordered(log') && DayKept(log', dayLimit)
            && HourKept(log', hourLimit)
            && (OverLimit(log', a.client, a.at, hourLimit, dayLimit) <==>
                OverLimit(log + [a], a.client, a.at, hourLimit, dayLimit))
  {
    var log' := log + [a.(allowed := allowed)];
    assert forall i :: 0 <= i < |log| ==> (log + [a])[i] == log[i];
    SameCount(log, a, allowed, a.client, InHour(HourOf(a.at)));
    SameHours(log, a, allowed, HourOf(a.at) - DAY, HourOf(a.at));
    forall client, hour ensures BucketFits(buckets, log', captured, client, hour) {
      assert BucketFits(buckets, log + [a], captured, client, hour);
      SameCount(log, a, allowed, client, InHour(hour));
    }
    assert NoneAfter(log', a.client, a.at);
    NewAttemptKept(log, a.(allowed := allowed), hourLimit, dayLimit);
  }

  lemma NewAttemptOrdered(log: seq<Attempt>, a: Attempt)
    requires Ordered(log) && NoneAfter(log, a.client, a.at)
    ensures Ordered(log + [a]) && NoneAfter(log + [a], a.client, a.at)
  {
  }

  lemma DayKeptAppend(log: seq<Attempt>, a: Attempt, limit: int)
    requires DayKept(log, limit) && (a.allowed ==> CountWhere(log + [a], a.client, After(a.at - DAY)) <= limit)
    ensures DayKept(log + [a], limit)
  {
    var log' := log + [a];
    forall i | 0 <= i < |log'| ensures DayKeptAt(log', i, limit) {
      if i < |log| {
        assert DayKeptAt(log, i, limit) && log'[..i + 1] == log[..i + 1];
      } else {
        assert log'[..i + 1] == log';
      }
    }
  }

  lemma HourKeptAppend(log: seq<Attempt>, a: Attempt, limit: int)
    requires HourKept(log, limit) && (a.allowed ==> CountWhere(log + [a], a.client, InHour(HourOf(a.at))) <= limit)
    ensures HourKept(log + [a], limit)
  {
    var log' := log + [a];
    forall i | 0 <= i < |log'| ensures HourKeptAt(log', i, limit) {
      if i < |log| {
        assert HourKeptAt(log, i, limit) && log'[..i + 1] == log[..i + 1];
      } else {
        assert log'[..i + 1] == log';
      }
    }
  }

  /** An attempt that is let through keeps both limits. */
  lemma NewAttemptKept(log: seq<Attempt>, a: Attempt, hourLimit: int, dayLimit: int)
    requires DayKept(log, dayLimit) && HourKept(log, hourLimit)
    requires NoneAfter(log + [a], a.client, a.at)
    requires a.allowed ==> !OverLimit(log + [a], a.client, a.at, hourLimit, dayLimit)
    ensures DayKept(log + [a], dayLimit) && HourKept(log + [a], hourLimit)
  {
    if a.allowed {
      DayCovered(log + [a], a.client, a.at, dayLimit);
    }
    DayKeptAppend(log, a, dayLimit);
    HourKeptAppend(log, a, hourLimit);
  }

  /** Whether an attempt was let through does not change any count of attempts. */
  lemma {:induction false} SameHours(log: seq<Attempt>, a: Attempt, allowed: bool, from: int, through: int)
    ensures HoursCount(log + [a.(allowed := allowed)], a.client, from, through) ==
              HoursCount(log + [a], a.client, from, through)
    decreases through - from + HOUR
  {
    if through >= from {
      SameHours(log, a, allowed, from, through - HOUR);
      SameCount(log, a, allowed, a.client, InHour(through));
    }
  }

  lemma SameCount(log: seq<Attempt>, a: Attempt, allowed: bool, client: Id, when: int -> bool)
    ensures CountWhere(log + [a.(allowed := allowed)], client, when) == CountWhere(log + [a], client, when)
  {
    assert (log + [a.(allowed := allowed)])[..|log|] == log == (log + [a])[..|log|];
  }
}
