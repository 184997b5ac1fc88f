/** The rolling quota: accepted operations are counted from usage rows that outlive every window that needs them. */
module Quota {
  import opened Base
  import opened Rows
  import opened Ledger
  import opened Schema
  import opened LedgerInvariant

  /** A user's operations accepted in the half-open interval (from, to]. */
  ghost function AcceptedIn(log: map<Id, Entry>, user: Id, from: int, to: int): set<Id> {
    set id | id in log && log[id].user == user && from < log[id].acceptedAt <= to
  }

  ghost predicate WindowFits(quota: nat, log: map<Id, Entry>, user: Id, to: int) {
    |AcceptedIn(log, user, to - ROLLING_WINDOW, to)| <= quota
  }

  /** No window of a rolling day holds more operations than the quota. */
  ghost predicate WithinQuota(quota: nat, log: map<Id, Entry>) {
    forall user, to :: WindowFits(quota, log, user, to)
  }

  /** Every operation that a request within the clock margin may still have to count has its usage row. */
  ghost predicate Countable(users: set<Id>, usages: map<Id, Usage>, log: map<Id, Entry>, clock: int) {
    forall id :: id in log && log[id].user in users && log[id].acceptedAt + RETENTION > clock ==> id in usages
  }

  ghost predicate QuotaInv(quota: nat, users: set<Id>, usages: map<Id, Usage>, log: map<Id, Entry>, clock: int) {
    WithinQuota(quota, log) && Countable(users, usages, log, clock)
  }

  predicate SameAcceptances(log: map<Id, Entry>, log': map<Id, Entry>) {
    log.Keys == log'.Keys && LogFollows(log, log')
  }

  /** Usage rows may go once the clock has passed their retention. */
  lemma QuotaKept(quota: nat, users: set<Id>, usages: map<Id, Usage>, log: map<Id, Entry>, clock: int,
                  users': set<Id>, usages': map<Id, Usage>, log': map<Id, Entry>, clock': int)
    requires QuotaInv(quota, users, usages, log, clock) && SameAcceptances(log, log') && clock <= clock'
    requires forall id :: id in log && log[id].user in users' ==> log[id].user in users
    requires forall id :: id in usages && id in log && log[id].user in users' && id !in usages' ==>
               log[id].acceptedAt + RETENTION <= clock'
    ensures QuotaInv(quota, users', usages', log', clock')
  {
    forall user, to ensures WindowFits(quota, log', user, to) {
      assert WindowFits(quota, log, user, to);
      assert AcceptedIn(log', user, to - ROLLING_WINDOW, to) == AcceptedIn(log, user, to - ROLLING_WINDOW, to);
    }
  }

  lemma SubsetSize<T>(small: set<T>, big: set<T>)
    requires small <= big
    ensures |small| <= |big|
  {
    var rest := big - small;
    assert big == small + rest;
  }

  /** A usage row says who used the operation and when it was accepted. */
  predicate Matches(usages: map<Id, Usage>, log: map<Id, Entry>) {
    forall id :: id in usages && id in log ==>
      usages[id].user == log[id].user && usages[id].acceptedAt == log[id].acceptedAt
  }

  lemma RowsMatch(db: Db, log: map<Id, Entry>)
    requires RowsFit(db, log)
    ensures Matches(db.usages, log)
  {
    forall id | id in db.usages && id in log
      ensures db.usages[id].user == log[id].user && db.usages[id].acceptedAt == log[id].acceptedAt
    {
      assert UsageFits(db.usages[id], log, id);
    }
  }

  /** One operation was accepted; the others are as they were. */
  predicate Adds(log: map<Id, Entry>, log': map<Id, Entry>, id: Id) {
    && id !in log && log'.Keys == log.Keys + {id}
    && forall k :: k in log ==> log'[k].user == log[k].user && log'[k].acceptedAt == log[k].acceptedAt
  }

  /** Whatever a window that reaches back from `now` holds is counted at `now`. */
  lemma CountedAt(users: set<Id>, usages: map<Id, Usage>, log: map<Id, Entry>, clock: int, user: Id, now: int, to: int)
    requires Countable(users, usages, log, clock) && Matches(usages, log) && user in users
    requires clock - RETENTION_MARGIN <= now <= to
    ensures AcceptedIn(log, user, to - ROLLING_WINDOW, to) <= RollingUsage(usages, user, now - ROLLING_WINDOW)
  {
  }

  /** A window the new operation does not fall in holds what it held. */
  lemma NotAdded(quota: nat, log: map<Id, Entry>, log': map<Id, Entry>, id: Id, user: Id, to: int)
    requires Adds(log, log', id) && !(user == log'[id].user && to - ROLLING_WINDOW < log'[id].acceptedAt <= to)
    requires WindowFits(quota, log, user, to)
    ensures WindowFits(quota, log', user, to)
  {
    assert AcceptedIn(log', user, to - ROLLING_WINDOW, to) == AcceptedIn(log, user, to - ROLLING_WINDOW, to);
  }

  lemma RoomLeft(quota: nat, users: set<Id>, usages: map<Id, Usage>, log: map<Id, Entry>, clock: int, user: Id, at: int,
                 to: int)
    requires Countable(users, usages, log, clock) && Matches(usages, log) && user in users
    requires clock - RETENTION_MARGIN <= at <= to
    requires |RollingUsage(usages, user, at - ROLLING_WINDOW)| < quota
    ensures |AcceptedIn(log, user, to - ROLLING_WINDOW, to)| < quota
  {
    CountedAt(users, usages, log, clock, user, at, to);
    SubsetSize(AcceptedIn(log, user, to - ROLLING_WINDOW, to), RollingUsage(usages, user, at - ROLLING_WINDOW));
  }

  lemma AtMostOneMore(log: map<Id, Entry>, log': map<Id, Entry>, id: Id, user: Id, from: int, to: int)
    requires Adds(log, log', id)
    ensures AcceptedIn(log', user, from, to) <= AcceptedIn(log, user, from, to) + {id}
  {
    forall k | k in AcceptedIn(log', user, from, to) && k != id ensures k in AcceptedIn(log, user, from, to) {
      assert k in log;
    }
  }

  lemma AddedFits(quota: nat, log: map<Id, Entry>, log': map<Id, Entry>, id: Id, user: Id, to: int)
    requires Adds(log, log', id)
    requires |AcceptedIn(log, user, to - ROLLING_WINDOW, to)| < quota
    ensures WindowFits(quota, log', user, to)
  {
    var before := AcceptedIn(log, user, to - ROLLING_WINDOW, to);
    AtMostOneMore(log, log', id, user, to - ROLLING_WINDOW, to);
    SubsetSize(AcceptedIn(log', user, to - ROLLING_WINDOW, to), before + {id});
  }

  /** An admitted operation fits into every window it falls in, even if later ones were already accepted. */
  lemma AcceptKeepsWindow(quota: nat, users: set<Id>, usages: map<Id, Usage>, log: map<Id, Entry>, clock: int, id: Id,
                          log': map<Id, Entry>, user: Id, to: int)
    requires Countable(users, usages, log, clock) && Matches(usages, log) && Adds(log, log', id)
    requires log'[id].user in users && clock - RETENTION_MARGIN <= log'[id].acceptedAt
    requires |RollingUsage(usages, log'[id].user, log'[id].acceptedAt - ROLLING_WINDOW)| < quota
    requires WindowFits(quota, log, user, to)
    ensures WindowFits(quota, log', user, to)
  {
    if user == log'[id].user && to - ROLLING_WINDOW < log'[id].acceptedAt <= to {
      RoomLeft(quota, users, usages, log, clock, user, log'[id].acceptedAt, to);
      AddedFits(quota, log, log', id, user, to);
    } else {
      NotAdded(quota, log, log', id, user, to);
    }
  }

  lemma AcceptKeepsQuota(quota: nat, db: Db, log: map<Id, Entry>, clock: int, id: Id, log': map<Id, Entry>,
                         usages': map<Id, Usage>, clock': int)
    requires QuotaInv(quota, db.users, db.usages, log, clock) && Matches(db.usages, log) && Adds(log, log', id)
    requires log'[id].user in db.users
    requires clock - RETENTION_MARGIN <= log'[id].acceptedAt && clock <= clock'
    requires |RollingUsage(db.usages, log'[id].user, log'[id].acceptedAt - ROLLING_WINDOW)| < quota
    requires db.usages.Keys + {id} <= usages'.Keys
    ensures QuotaInv(quota, db.users, usages', log', clock')
  {
    forall user, to ensures WindowFits(quota, log', user, to) {
      assert WindowFits(quota, log, user, to);
      AcceptKeepsWindow(quota, db.users, db.usages, log, clock, id, log', user, to);
    }
  }
}
