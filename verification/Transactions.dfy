/**
 The use cases as transactions: each works on its own copy of the rows, statement by statement, and
 checks how many rows every statement affected. A refusal leaves the copy behind. Each is proved to do
 what its use case says.
 */
module Transactions {
  import opened Base
  import opened Rows
  import opened Keys
  import opened Schema
  import opened MapSum
  import opened Ledger
  import opened Text
  import opened UseCases
  import opened Statements

  // Giving reservations back.

  /** The rows of operations about to be released agree, and their months hold what they reserved. */
  ghost predicate Releasable(db: Db, ids: set<Id>) {
    && Failable(db, ids)
    && (forall m :: m in db.months ==> Sum(Select(db.generations, ids), ReservedIn(m)) <= db.months[m].reserved)
  }

  function Returned(b: Budget, amount: int): Budget { b.(reserved := b.reserved - amount) }

  /** The months in `rest` are still to do. */
  ghost function PartlyReleased(months: map<int, Budget>, rest: set<int>, released: map<Id, Generation>)
    : map<int, Budget>
  {
    map m | m in months :: if m in rest then months[m] else Returned(months[m], Sum(released, ReservedIn(m)))
  }

  lemma PartFirst(months: map<int, Budget>, released: map<Id, Generation>)
    ensures PartlyReleased(months, months.Keys, released) == months
  {
  }

  lemma PartStep(months: map<int, Budget>, rest: set<int>, released: map<Id, Generation>, month: int)
    requires month in rest && month in months
    ensures var part := PartlyReleased(months, rest, released);
            && month in part && part[month] == months[month]
            && PartlyReleased(months, rest - {month}, released) ==
                 part[month := Returned(months[month], Sum(released, ReservedIn(month)))]
  {
  }

  lemma PartLast(months: map<int, Budget>, released: map<Id, Generation>)
    ensures PartlyReleased(months, {}, released) == ReleaseMonths(months, released)
  {
  }

  method Pick<T>(s: set<T>) returns (x: T)
    requires s != {}
    ensures x in s
  {
    x :| x in s;
  }

  /** One month's reservations go back. */
  method ReleaseMonth(before: Db, released: map<Id, Generation>, month: int) returns (ok: bool, tx: Db)
    requires month in before.months && Sum(released, ReservedIn(month)) <= before.months[month].reserved
    ensures ok && tx ==
              before.(months := before.months[month := Returned(before.months[month],
                                                                Sum(released, ReservedIn(month)))])
  {
    var amount := Total(released, ReservedIn(month));
    if amount > 0 {
      var (next, rows) := ReleaseCas(before, month, amount);
      return rows == 1, next;
    }
    SumNonNegative(released, ReservedIn(month));
    return true, before;
  }

  /** The monthly sums go back, month by month. */
  method ReleaseMonthly(before: Db, ids: set<Id>) returns (ok: bool, tx: Db)
    requires Releasable(before, ids)
    ensures ok && tx == before.(months := ReleaseMonths(before.months, Select(before.generations, ids)))
  {
    var released := Select(before.generations, ids);
    var rest: set<int> := before.months.Keys;
    tx := before;
    PartFirst(before.months, released);
    PartLast(before.months, released);
    while rest != {}
      invariant rest <= before.months.Keys
      invariant tx == before.(months := PartlyReleased(before.months, rest, released))
      decreases |rest|
    {
      var month := Pick(rest);
      PartStep(before.months, rest, released, month);
      var next;
      ok, next := ReleaseMonth(tx, released, month);
      if !ok {
        return false, before;
      }
      tx, rest := next, rest - {month};
    }
    return true, tx;
  }

  function Expiring(db: Db, id: Id): Db
    requires id in db.generations && id in db.usages
  {
    db.(generations := db.generations[id := FailGeneration(db.generations[id], LeaseExpired)],
        usages := db.usages[id := db.usages[id].(status := UsageFailed)])
  }

  ghost function WithFailed(db: Db, ids: set<Id>): Db {
    db.(generations := FailedIn(db.generations, ids), usages := FailedUsages(db.usages, ids))
  }

  lemma FailFirst(db: Db)
    ensures WithFailed(db, {}) == db
  {
  }

  lemma FailStep(db: Db, done: set<Id>, id: Id)
    requires id !in done && id in db.generations && id in db.usages
    ensures var tx := WithFailed(db, done);
            && id in tx.generations && id in tx.usages && tx.generations[id] == db.generations[id]
            && tx.usages[id] == db.usages[id]
            && WithFailed(db, done + {id}) == Expiring(tx, id)
  {
  }

  /** Fail one operation: its generation, then its usage. */
  method FailOne(before: Db, id: Id) returns (ok: bool, tx: Db)
    requires id in before.generations && id in before.usages && before.generations[id].status == Running
    requires StillAccepted(before.usages[id], before.generations[id].month, before.generations[id].reserved)
    ensures ok && tx == Expiring(before, id)
  {
    var month, reserved := before.generations[id].month, before.generations[id].reserved;
    var (expired, rows) := ExpireGenerationCas(before, id, reserved);
    if rows != 1 {
      return false, before;
    }
    var (failed, rows') := ExpireUsageCas(expired, id, month, reserved);
    return rows' == 1, failed;
  }

  ghost predicate Failable(db: Db, ids: set<Id>) {
    forall id :: id in ids ==>
      && id in db.generations && db.generations[id].status == Running && id in db.usages
      && StillAccepted(db.usages[id], db.generations[id].month, db.generations[id].reserved)
  }

  method FailAll(before: Db, ids: set<Id>) returns (ok: bool, tx: Db)
    requires Failable(before, ids)
    ensures ok && tx == WithFailed(before, ids)
  {
    var rest := ids;
    ghost var done: set<Id> := {};
    tx := before;
    FailFirst(before);
    while rest != {}
      invariant rest <= ids && done == ids - rest && tx == WithFailed(before, done)
      decreases |rest|
    {
      var id :| id in rest;
      FailStep(before, done, id);
      var next;
      ok, next := FailOne(tx, id);
      if !ok {
        return false, before;
      }
      tx, rest, done := next, rest - {id}, done + {id};
    }
    assert done == ids;
    return true, tx;
  }

  /** Give reservations back and fail the operations. */
  method ReleaseAll(before: Db, ids: set<Id>) returns (ok: bool, tx: Db)
    requires Releasable(before, ids) 
    ensures ok && tx ==
              WithFailed(before, ids).(months := ReleaseMonths(before.months, Select(before.generations, ids)))
  {
    ok, tx := ReleaseMonthly(before, ids);
    if !ok {
      return false, before;
    }
    ok, tx := FailAll(tx, ids);
  }

  /** What a transaction answered and the rows it left are what its use case says. */
  ghost predicate Does(step: Step, answer: Answer, tx: Db) {
    answer == step.answer && tx == step.world.db
  }

  /** Fail every running generation of a User whose lease has run out. */
  method RecoverExpired(before: Db, ghost history: History, user: Id, now: int) returns (ok: bool, tx: Db)
    requires Releasable(before, ExpiredIds(before.generations, user, now))
    ensures ok && tx == Recover(World(before, history), user, now).db
  {
    var items := Ids(before.generations, (id: Id, g: Generation) => Expired(g, user, now));
    assert items == ExpiredIds(before.generations, user, now);
    ok, tx := ReleaseAll(before, items);
  }

  // Accepting and settling.

  /** A month that did not exist yet starts at zero. */
  lemma EnsuredMonth(tx: Db, month: int, amount: int)
    ensures var b := MonthOf(tx.months, month);
            && ReserveCas(EnsureMonth(tx, month), month, amount) ==
               (tx.(months := tx.months[month := b.(reserved := b.reserved + amount)]), 1)
            && AddLateCostCas(EnsureMonth(tx, month), month, amount) ==
               (tx.(months := tx.months[month := b.(actual := b.actual + amount)]), 1)
  {
    if month !in tx.months {
      var ensured := tx.months[month := Budget(0, 0, 0)];
      assert ensured[month := Budget(amount, 0, 0)] == tx.months[month := Budget(amount, 0, 0)];
      assert ensured[month := Budget(0, amount, 0)] == tx.months[month := Budget(0, amount, 0)];
    }
  }

  /** The statements that accept an operation: reserve, insert the generation, insert the usage. */
  method AcceptOperation(before: Db, ghost history: History, id: Id, g: Generation, acceptedAt: int, ghost text: string,
                         ghost revision: nat)
    returns (ok: bool, tx: Db)
    requires id !in before.generations && id !in before.usages
    ensures ok && tx == Accept(World(before, history), id, g, acceptedAt, text, revision).db
  {
    EnsuredMonth(before, g.month, g.reserved);
    var (reserved, rows) := ReserveCas(EnsureMonth(before, g.month), g.month, g.reserved);
    if rows != 1 {
      return false, before;
    }
    var (inserted, rows') := InsertGeneration(reserved, id, g);
    if rows' != 1 {
      return false, before;
    }
    var usage := Usage(g.user, g.goal, UsageStatus.Accepted, acceptedAt, QuotaRetainUntil(acceptedAt), None,
                       Some(Exposure(g.month, g.reserved)), false);
    var (charged, rows'') := InsertUsage(inserted, id, usage);
    return rows'' == 1, charged;
  }

  /** A running generation's month and usage still carry its reservation. */
  ghost predicate Settleable(db: Db, id: Id) {
    id in db.generations && db.generations[id].status == Running ==>
      && id in db.usages && StillAccepted(db.usages[id], db.generations[id].month, db.generations[id].reserved)
      && db.generations[id].month in db.months
      && db.generations[id].reserved <= db.months[db.generations[id].month].reserved
  }

  /** The statements that settle a running generation: make it terminal, charge the month, finalize the usage. */
  method SettleOperation(before: Db, ghost history: History, id: Id, terminal: Generation, cost: nat, failed: bool,
                         now: int)
    returns (ok: bool, tx: Db)
    requires Settleable(before, id) && id in before.generations && id in before.usages
    requires before.generations[id].status == Running && terminal.operation == before.generations[id].operation
    ensures ok && tx == Settle(World(before, history), id, terminal, cost, failed, now).db
  {
    var g := before.generations[id];
    var (ended, rows) := TerminalizeGenerationCas(before, id, terminal, g.reserved);
    if rows != 1 {
      return false, before;
    }
    var (charged, rows') := SettleCas(ended, g.month, g.reserved, cost);
    if rows' != 1 {
      return false, before;
    }
    var (final, rows'') := FinalizeUsageCas(charged, id, g.month, g.reserved, failed, now);
    return rows'' == 1, final;
  }

  /** The late path: charge the month the usage is still exposed to, once. */
  method SettleLateUsage(before: Db, ghost history: History, id: Id, cost: nat, failed: bool, now: int)
    returns (ok: bool, tx: Db)
    requires Settleable(before, id)
    ensures ok && tx == SettleLate(World(before, history), id, cost, failed, now).db
  {
    if id !in before.usages || before.usages[id].finalizedAt.Some? || before.usages[id].user !in before.users ||
       before.usages[id].exposure.None? {
      return true, before;
    }
    var exposure := before.usages[id].exposure.value;
    EnsuredMonth(before, exposure.month, cost);
    var (charged, rows) := AddLateCostCas(EnsureMonth(before, exposure.month), exposure.month, cost);
    if rows != 1 {
      return false, before;
    }
    var (final, rows') := FinalizeLateUsageCas(charged, id, exposure.month, exposure.amount, failed, now);
    return rows' == 1, final;
  }
}
