/** Deleting a Goal and deleting an Account as transactions. */
module DeletionTransactions {
  import opened Base
  import opened Rows
  import opened Keys
  import opened Schema
  import opened MapSum
  import opened Ledger
  import opened UseCases
  import opened Statements
  import opened Transactions
  import opened DraftTransactions

  // Failing what runs for a Goal.

  /** The running operations of a Goal still carry their money, and are the User's for that Goal. */
  ghost predicate GoalFailable(db: Db, user: Id, goal: Id, ids: set<Id>) {
    && ids == RunningOfGoal(db.generations, user, goal)
    && forall id :: id in ids ==>
         id in db.usages && ForGoal(db.usages[id], user, goal) && db.usages[id].status == UsageStatus.Accepted &&
             db.usages[id].finalizedAt == None
  }

  function GoalFailedUsage(u: Usage): Usage { Redact(u).(status := UsageFailed) }

  function GoalFailing(db: Db, id: Id): Db
    requires id in db.generations && id in db.usages
  {
    db.(generations := db.generations[id := FailGeneration(db.generations[id], TargetDeleted)],
        usages := db.usages[id := GoalFailedUsage(db.usages[id])])
  }

  function GoalFailedIn(generations: map<Id, Generation>, ids: set<Id>): map<Id, Generation> {
    map id | id in generations :: if id in ids then FailGeneration(generations[id], TargetDeleted) else generations[id]
  }

  ghost function WithGoalFailed(db: Db, ids: set<Id>): Db {
    db.(generations := GoalFailedIn(db.generations, ids),
        usages := map id | id in db.usages :: if id in ids then GoalFailedUsage(db.usages[id]) else db.usages[id])
  }

  lemma GoalFailFirst(db: Db)
    ensures WithGoalFailed(db, {}) == db
  {
  }

  lemma GoalFailStep(db: Db, done: set<Id>, id: Id)
    requires id !in done && id in db.generations && id in db.usages
    ensures var tx := WithGoalFailed(db, done);
            && id in tx.generations && id in tx.usages && tx.generations[id] == db.generations[id]
            && tx.usages[id] == db.usages[id]
            && WithGoalFailed(db, done + {id}) == GoalFailing(tx, id)
  {
  }

  method FailGoalOperation(before: Db, user: Id, goal: Id, id: Id) returns (ok: bool, tx: Db)
    requires id in before.generations && id in before.usages && id in RunningOfGoal(before.generations, user, goal)
    requires ForGoal(before.usages[id], user, goal) && before.usages[id].status == UsageStatus.Accepted &&
               before.usages[id].finalizedAt == None
    ensures ok && tx == GoalFailing(before, id)
  {
    var (failed, rows) := TerminalizeGoalGenerationCas(before, id, user, goal, before.generations[id].reserved);
    if rows != 1 {
      return false, before;
    }
    var (charged, rows') := FailRunningGoalUsageCas(failed, id, user, goal);
    return rows' == 1, charged;
  }

  method FailGoalOperations(before: Db, user: Id, goal: Id, ids: set<Id>) returns (ok: bool, tx: Db)
    requires GoalFailable(before, user, goal, ids)
    ensures ok && tx == WithGoalFailed(before, ids)
  {
    var rest := ids;
    ghost var done: set<Id> := {};
    tx := before;
    GoalFailFirst(before);
    while rest != {}
      invariant rest <= ids && done == ids - rest && tx == WithGoalFailed(before, done)
      decreases |rest|
    {
      var id :| id in rest;
      GoalFailStep(before, done, id);
      var next;
      ok, next := FailGoalOperation(tx, user, goal, id);
      if !ok {
        return false, before;
      }
      tx, rest, done := next, rest - {id}, done + {id};
    }
    assert done == ids;
    return true, tx;
  }

  // Deleting a Goal.

  /** The usages left of a Goal: redacted while something needs them, else deleted. */
  method RemoveGoalUsages(before: Db, user: Id, goal: Id, now: int) returns (ok: bool, tx: Db)
    ensures ok && tx == before.(usages := tx.usages)
    ensures ForgetGoal(tx.usages, goal) == DropGoalUsages(before.usages, user, goal, now)
  {
    var usages := GoalUsagesOf(before, user, goal, before.usages.Keys);
    var retained, expired := PartitionUsages(before, usages, now);
    var (redacted, rows) := RedactGoalUsages(before, user, goal, retained);
    assert GoalUsagesOf(before, user, goal, retained) == retained;
    if rows != |retained| {
      return false, before;
    }
    var (removed, rows') := DeleteExpiredGoalUsages(redacted, user, goal, expired, now);
    assert ExpiredGoalUsagesOf(redacted, user, goal, expired, now) == expired;
    return rows' == |expired|, removed;
  }

  /** A usage that was failed with its Goal's generation ends up as one whose generation merely failed. */
  lemma GoalUsagesGone(usages: map<Id, Usage>, ids: set<Id>, user: Id, goal: Id, now: int)
    requires forall id :: id in ids ==>
               id in usages && ForGoal(usages[id], user, goal) && usages[id].finalizedAt == None
    ensures DropGoalUsages(map id | id in usages :: if id in ids then GoalFailedUsage(usages[id])
                           else usages[id], user, goal, now) ==
            DropGoalUsages(FailedUsages(usages, ids), user, goal, now)
  {
  }

  lemma GoalGenerationsGone(generations: map<Id, Generation>, user: Id, goal: Id)
    ensures var ids := RunningOfGoal(generations, user, goal);
            GenerationsOutside(GoalFailedIn(generations, ids), goal) ==
              GenerationsOutside(FailedIn(generations, ids), goal)
  {
    var ids := RunningOfGoal(generations, user, goal);
    var a, b := GenerationsOutside(GoalFailedIn(generations, ids), goal),
      GenerationsOutside(FailedIn(generations, ids), goal);
    forall id | id in generations
      ensures id in a <==> generations[id].goal != Some(goal)
      ensures id in b <==> generations[id].goal != Some(goal)
      ensures id in a ==> a[id] == generations[id] && id in b && b[id] == generations[id]
    {
    }
    assert a.Keys == b.Keys;
  }

  /**
   The Goal goes with everything it owns: first the money of what still runs for it, then its usages, then its rows.
   */
  method RemoveGoal(before: Db, user: Id, goal: Id, expected: int, now: int) returns (ok: bool, tx: Db)
    requires OwnsGoal(before, user, goal) && before.goals[goal].revision == expected
    requires var ids := RunningOfGoal(before.generations, user, goal);
             Releasable(before, ids) && GoalFailable(before, user, goal, ids)
    ensures var released :=
            Release(World(before, History(map[], {}, 0)), RunningOfGoal(before.generations, user, goal)).db;
            ok && tx == CascadeGoal(released.(usages := DropGoalUsages(released.usages, user, goal, now)), goal)
  {
    var ids := RunningOfGoal(before.generations, user, goal);
    ok, tx := ReleaseMonthly(before, ids);
    if !ok {
      return false, before;
    }
    ok, tx := FailGoalOperations(tx, user, goal, ids);
    if !ok {
      return false, before;
    }
    ok, tx := RemoveGoalUsages(tx, user, goal, now);
    if !ok {
      return false, before;
    }
    GoalUsagesGone(before.usages, ids, user, goal, now);
    GoalGenerationsGone(before.generations, user, goal);
    var (removed, rows) := DeleteGoalCas(tx, goal, user, expected);
    return rows == 1, removed;
  }

  method DeleteGoal(before: Db, ghost history: History, i: DeleteInput) returns (answer: Answer, tx: Db)
    requires var ids := RunningOfGoal(before.generations, i.user, i.goal);
             Releasable(before, ids) && GoalFailable(before, i.user, i.goal, ids)
    requires (i.user, i.key) in before.receipts ==>
               var r := before.receipts[(i.user, i.key)];
               r.request.DeleteRequest? && r.request.goal !in before.goals
    ensures Does(UseCases.DeleteGoal(World(before, history), i), answer, tx)
  {
    var key, request := (i.user, i.key), DeleteRequest(i.goal, i.expected);
    if !i.confirmed {
      return Refused(ConfirmationRequired), before;
    }
    if i.user !in before.users {
      return Refused(NotFound), before;
    }
    if key in before.receipts {
      if before.receipts[key].request != request {
        return Refused(IdempotencyKeyReused), before;
      }
      if before.receipts[key].expiresAt > i.now {
        return Replayed, before;
      }
    }
    if !OwnsGoal(before, i.user, i.goal) {
      return Refused(NotFound), before;
    }
    if before.goals[i.goal].revision != i.expected {
      return Refused(DeleteConflict), before;
    }
    var ok;
    ok, tx := RemoveGoal(before, i.user, i.goal, i.expected, i.now);
    if !ok {
      return Refused(InvariantViolated), before;
    }
    var (recorded, rows) := InsertReceipt(tx, key, Receipt(i.goal, request, i.now + RECEIPT_LIFETIME));
    return if rows == 1 then Done else Refused(InvariantViolated), recorded;
  }

  // Deleting an Account.

  function Zeroed(generations: map<Id, Generation>, ids: set<Id>): map<Id, Generation> {
    map id | id in generations :: if id in ids then generations[id].(reserved := 0) else generations[id]
  }

  lemma ZeroFirst(generations: map<Id, Generation>)
    ensures Zeroed(generations, {}) == generations
  {
  }

  lemma ZeroStep(generations: map<Id, Generation>, done: set<Id>, id: Id)
    requires id in generations && id !in done
    ensures Zeroed(generations, done)[id] == generations[id]
    ensures Zeroed(generations, done + {id}) == Zeroed(generations, done)[id := generations[id].(reserved := 0)]
  {
  }

  /** Take the reservations off the User's running generations. */
  method ZeroReservations(before: Db, user: Id) returns (ok: bool, tx: Db)
    ensures ok && tx == before.(generations := Zeroed(before.generations, RunningOfUser(before.generations, user)))
  {
    var ids := RunningOfUser(before.generations, user);
    var rest := ids;
    ghost var done: set<Id> := {};
    tx := before;
    ZeroFirst(before.generations);
    while rest != {}
      invariant rest <= ids && done == ids - rest && tx == before.(generations := Zeroed(before.generations, done))
      decreases |rest|
    {
      var id :| id in rest;
      var g := before.generations[id];
      ZeroStep(before.generations, done, id);
      var (zeroed, rows) := ReleaseReservationCas(tx, id, user, g.month, g.reserved);
      if rows != 1 {
        return false, before;
      }
      tx, rest, done := zeroed, rest - {id}, done + {id};
    }
    assert done == ids;
    return true, tx;
  }

  /** The months in `rest` are still to do. */
  ghost function PartlyMoved(months: map<int, Budget>, rest: set<int>, running: map<Id, Generation>,
                             released: map<Id, Usage>): map<int, Budget> {
    map m | m in months :: if m in rest then months[m]
      else Moved(months[m], Sum(running, ReservedIn(m)), Sum(released, ExposedIn(m)))
  }

  function Moved(b: Budget, running: int, released: int): Budget {
    b.(reserved := b.reserved - running, unattributed := b.unattributed + running + released)
  }

  lemma MovedFirst(months: map<int, Budget>, running: map<Id, Generation>, released: map<Id, Usage>)
    ensures PartlyMoved(months, months.Keys, running, released) == months
  {
  }

  lemma MovedStep(months: map<int, Budget>, rest: set<int>, running: map<Id, Generation>, released: map<Id, Usage>,
                  month: int)
    requires month in rest && month in months
    ensures var part := PartlyMoved(months, rest, running, released);
            && month in part && part[month] == months[month]
            && PartlyMoved(months, rest - {month}, running, released) ==
               part[month := Moved(months[month], Sum(running, ReservedIn(month)), Sum(released, ExposedIn(month)))]
  {
  }

  lemma MovedLast(db: Db, user: Id)
    ensures PartlyMoved(db.months, {}, Select(db.generations, RunningOfUser(db.generations, user)),
              Select(db.usages, ReleasedOfUser(db, user))) ==
            WriteOffMonths(db, user)
  {
    var running, released := Select(db.generations, RunningOfUser(db.generations, user)),
      Select(db.usages, ReleasedOfUser(db, user));
    var a, b := PartlyMoved(db.months, {}, running, released), WriteOffMonths(db, user);
    forall m | m in db.months ensures a[m] == b[m] {
      assert a[m] == Moved(db.months[m], Sum(running, ReservedIn(m)), Sum(released, ExposedIn(m)));
    }
    assert a.Keys == db.months.Keys == b.Keys;
  }

  /** One month's exposure becomes unattributed. */
  method MoveMonth(before: Db, running: map<Id, Generation>, released: map<Id, Usage>, month: int)
    returns (ok: bool, tx: Db)
    requires month in before.months && Sum(running, ReservedIn(month)) <= before.months[month].reserved
    ensures ok && tx == before.(months := before.months[month :=
                                  Moved(before.months[month], Sum(running, ReservedIn(month)),
                                        Sum(released, ExposedIn(month)))])
  {
    var release := Total(running, ReservedIn(month));
    var exposed := Total(released, ExposedIn(month));
    var (moved, rows) := MoveToUnattributedCas(before, month, release, release + exposed);
    return rows == 1, moved;
  }

  method MoveMonths(before: Db, running: map<Id, Generation>, released: map<Id, Usage>) returns (ok: bool, tx: Db)
    requires forall m :: m in before.months ==> Sum(running, ReservedIn(m)) <= before.months[m].reserved
    ensures ok && tx == before.(months := PartlyMoved(before.months, {}, running, released))
  {
    var rest: set<int> := before.months.Keys;
    tx := before;
    MovedFirst(before.months, running, released);
    while rest != {}
      invariant rest <= before.months.Keys
      invariant tx == before.(months := PartlyMoved(before.months, rest, running, released))
      decreases |rest|
    {
      var month := Pick(rest);
      MovedStep(before.months, rest, running, released, month);
      var next;
      ok, next := MoveMonth(tx, running, released, month);
      if !ok {
        return false, before;
      }
      tx, rest := next, rest - {month};
    }
    return true, tx;
  }

  lemma DropFirst(usages: map<Id, Usage>)
    ensures Without(usages, {}) == usages
  {
  }

  lemma DropStep(db: Db, user: Id, done: set<Id>, id: Id)
    requires id in ReleasedOfUser(db, user) && id !in done
    ensures var tx := db.(usages := Without(db.usages, done));
            id in ReleasedOfUser(tx, user) && tx.usages[id] == db.usages[id]
    ensures Without(Without(db.usages, done), {id}) == Without(db.usages, done + {id})
  {
  }

  method DropExposure(before: Db, user: Id, id: Id) returns (ok: bool, tx: Db)
    requires id in ReleasedOfUser(before, user) && before.usages[id].exposure.Some?
    ensures ok && tx == before.(usages := Without(before.usages, {id}))
  {
    var (dropped, rows) := DeleteReleasedExposureCas(before, id, user, before.usages[id].exposure.value);
    return rows == 1, dropped;
  }

  /** Delete the usages that still carried a released reservation. */
  method DropExposures(before: Db, user: Id, ids: set<Id>) returns (ok: bool, tx: Db)
    requires ids == ReleasedOfUser(before, user) && forall id :: id in ids ==> before.usages[id].exposure.Some?
    ensures ok && tx == before.(usages := Without(before.usages, ids))
  {
    var rest := ids;
    ghost var done: set<Id> := {};
    tx := before;
    DropFirst(before.usages);
    while rest != {}
      invariant rest <= ids && done == ids - rest && tx == before.(usages := Without(before.usages, done))
      decreases |rest|
    {
      var id :| id in rest;
      DropStep(before, user, done, id);
      var next;
      ok, next := DropExposure(tx, user, id);
      if !ok {
        return false, before;
      }
      tx, rest, done := next, rest - {id}, done + {id};
    }
    assert done == ids;
    return true, tx;
  }

  lemma OthersUntouched(generations: map<Id, Generation>, user: Id)
    ensures GenerationsOfOthers(Zeroed(generations, RunningOfUser(generations, user)), user) ==
              GenerationsOfOthers(generations, user)
  {
  }

  lemma OthersUsages(usages: map<Id, Usage>, user: Id, released: set<Id>)
    requires forall id :: id in released && id in usages ==> usages[id].user == user
    ensures UsagesOfOthers(Without(usages, released), user) == UsagesOfOthers(usages, user)
  {
  }

  lemma ZeroedReleases(db: Db, user: Id)
    ensures ReleasedOfUser(db.(generations := Zeroed(db.generations, RunningOfUser(db.generations, user))), user) ==
              ReleasedOfUser(db, user)
  {
  }

  method DeleteAccount(before: Db, ghost history: History, user: Id) returns (answer: Answer, tx: Db)
    requires Releasable(before, RunningOfUser(before.generations, user))
    requires forall id :: id in ReleasedOfUser(before, user) ==> before.usages[id].exposure.Some?
    ensures Does(UseCases.DeleteAccount(World(before, history), user), answer, tx)
  {
    if user !in before.users {
      return Refused(NotFound), before;
    }
    var running, released := RunningOfUser(before.generations, user), ReleasedOfUser(before, user);
    var ok;
    ok, tx := ZeroReservations(before, user);
    if !ok {
      return Refused(InvariantViolated), before;
    }
    ok, tx := MoveMonths(tx, Select(before.generations, running), Select(before.usages, released));
    if !ok {
      return Refused(InvariantViolated), before;
    }
    MovedLast(before, user);
    ZeroedReleases(before, user);
    ok, tx := DropExposures(tx, user, released);
    if !ok {
      return Refused(InvariantViolated), before;
    }
    OthersUntouched(before.generations, user);
    OthersUsages(before.usages, user, released);
    var (removed, rows) := DeleteUser(tx, user);
    return if rows == 1 then Done else Refused(InvariantViolated), removed;
  }
}
