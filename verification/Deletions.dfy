/** Exactly when something is deleted, and that it goes with all that belongs to it and nothing else. */
module Deletions {
  import opened Base
  import opened Rows
  import opened MapSum
  import opened Keys
  import opened Schema
  import opened Ledger
  import opened LedgerInvariant
  import opened Lifecycle
  import opened Targets
  import opened UseCases
  import opened Soundness
  import opened MoneySteps
  import opened Persistence
  import opened Runs
  import opened Transitions

  // A Goal.

  /** What is left of a User's usage of the Goal: no content, and nothing that still runs. */
  function Emptied(u: Usage): Usage {
    u.(goal := None, contentDeleted := true,
       status := if u.status == UsageStatus.Accepted then UsageFailed else u.status)
  }

  /** The Goal's rows, and no others, are gone. */
  ghost predicate RowsGone(db: Db, goal: Id, x: Db) {
    && x.users == db.users && x.goals == db.goals - {goal}
    && (forall id :: id in x.versions <==> id in db.versions && db.versions[id].goal != goal)
    && (forall id :: id in x.versions ==> x.versions[id] == db.versions[id])
    && (forall id :: id in x.cycles <==> id in db.cycles && db.cycles[id].goal != goal)
    && (forall id :: id in x.cycles ==> x.cycles[id] == db.cycles[id])
    && (forall id :: id in x.drafts <==>
          id in db.drafts && !(db.drafts[id].kind.Review? && db.drafts[id].kind.goal == goal))
    && (forall id :: id in x.drafts ==> x.drafts[id] == db.drafts[id])
  }

  ghost predicate OperationsGone(generations: map<Id, Generation>, goal: Id, left: map<Id, Generation>) {
    && (forall id :: id in left <==> id in generations && generations[id].goal != Some(goal))
    && (forall id :: id in left ==> left[id] == generations[id])
  }

  /** What is still needed of the User's usages stays without content; the usages of other Goals stay as they are. */
  ghost predicate UsagesGone(usages: map<Id, Usage>, user: Id, goal: Id, now: int, left: map<Id, Usage>) {
    && (forall id :: id in left ==> id in usages)
    && (forall id :: id in usages && usages[id].goal != Some(goal) ==> id in left && left[id] == usages[id])
    && (forall id :: id in usages && usages[id].goal == Some(goal) && usages[id].user == user ==>
          && (id in left <==> StillNeeded(usages[id], now))
          && (id in left ==> left[id] == Emptied(usages[id])))
  }

  ghost predicate GoalGone(db: Db, user: Id, goal: Id, now: int, x: Db) {
    && RowsGone(db, goal, x) && OperationsGone(db.generations, goal, x.generations)
    && UsagesGone(db.usages, user, goal, now, x.usages)
  }

  lemma DeleteGoalShape(w: World, i: DeleteInput)
    requires OwnsGoal(w.db, i.user, i.goal) ==> i.user in w.db.users
    requires (i.user, i.key) in w.db.receipts ==>
               var r := w.db.receipts[(i.user, i.key)].request; r.DeleteRequest? && r.goal !in w.db.goals
    ensures var s := DeleteGoal(w, i);
            && (s.answer == Done <==>
                  && i.confirmed && OwnsGoal(w.db, i.user, i.goal) && w.db.goals[i.goal].revision == i.expected
                  && (i.user, i.key) !in w.db.receipts)
            && (s.answer != Done ==> s.world == w)
            && (s.answer == Done ==>
                  && var r := Release(w, RunningOfGoal(w.db.generations, i.user, i.goal));
                  && var d := CascadeGoal(r.db.(usages := DropGoalUsages(r.db.usages, i.user, i.goal, i.now)), i.goal);
                  && s.world.db == d.(receipts := w.db.receipts[(i.user, i.key) :=
                         Receipt(i.goal, DeleteRequest(i.goal, i.expected), i.now + 86400)]))
  {
  }

  /** Every operation on the Goal is its owner's, and counts for it. */
  predicate GoalOperations(db: Db, user: Id, goal: Id) {
    forall id :: id in db.generations && db.generations[id].goal == Some(goal) ==>
      db.generations[id].user == user && id in db.usages && db.usages[id].goal == Some(goal)
  }

  lemma OperationsOfGoal(db: Db, log: map<Id, Entry>, user: Id, goal: Id)
    requires TargetsInv(db, log) && OwnsGoal(db, user, goal)
    ensures GoalOperations(db, user, goal)
  {
    forall id | id in db.generations && db.generations[id].goal == Some(goal)
      ensures db.generations[id].user == user && id in db.usages && db.usages[id].goal == Some(goal)
    {
      assert Aims(id, db.generations[id], db, log);
    }
  }

  predicate DeadlinesKept(usages: map<Id, Usage>) {
    forall id :: id in usages ==> usages[id].retainUntil == usages[id].acceptedAt + 86400 + 900
  }

  lemma UsageDeadlines(db: Db, log: map<Id, Entry>)
    requires RowsFit(db, log)
    ensures DeadlinesKept(db.usages)
  {
    forall id | id in db.usages ensures db.usages[id].retainUntil == db.usages[id].acceptedAt + 86400 + 900 {
      assert UsageFits(db.usages[id], log, id);
    }
  }

  lemma ReleasedUsages(w: World, user: Id, goal: Id)
    requires GoalOperations(w.db, user, goal) && RunningAccepted(w.db)
    ensures var u := Release(w, RunningOfGoal(w.db.generations, user, goal)).db.usages;
            && u.Keys == w.db.usages.Keys
            && (forall id :: id in u && w.db.usages[id].goal != Some(goal) ==> u[id] == w.db.usages[id])
            && (forall id :: id in u ==> u[id] == w.db.usages[id].(status := u[id].status))
            && (forall id :: id in u ==>
                  u[id].status == w.db.usages[id].status ||
                  (u[id].status == UsageFailed && w.db.usages[id].status == UsageStatus.Accepted))
  {
  }

  /** The usage of an operation that runs says so. */
  predicate RunningAccepted(db: Db) {
    forall id :: id in db.generations && db.generations[id].status == Running && id in db.usages ==>
      db.usages[id].status == UsageStatus.Accepted
  }

  lemma AcceptedWhileRunning(db: Db, log: map<Id, Entry>)
    requires RowsFit(db, log)
    ensures RunningAccepted(db)
  {
    forall id | id in db.generations && db.generations[id].status == Running && id in db.usages
      ensures db.usages[id].status == UsageStatus.Accepted
    {
      assert GenerationFits(db.generations[id], log, id) && UsageFits(db.usages[id], log, id);
    }
  }

  lemma CascadedOperations(generations: map<Id, Generation>, user: Id, goal: Id)
    ensures OperationsGone(generations, goal,
                           GenerationsOutside(FailedIn(generations, RunningOfGoal(generations, user, goal)), goal))
  {
  }

  lemma CascadedUsages(db: Db, user: Id, goal: Id, now: int, usages: map<Id, Usage>)
    requires DeadlinesKept(db.usages) && usages.Keys == db.usages.Keys
    requires forall id :: id in usages && db.usages[id].goal != Some(goal) ==> usages[id] == db.usages[id]
    requires forall id :: id in usages ==> usages[id] == db.usages[id].(status := usages[id].status)
    requires forall id :: id in usages ==>
               usages[id].status == db.usages[id].status ||
               (usages[id].status == UsageFailed && db.usages[id].status == UsageStatus.Accepted)
    ensures UsagesGone(db.usages, user, goal, now, DropGoalUsages(usages, user, goal, now))
  {
    var left := DropGoalUsages(usages, user, goal, now);
    forall id | id in db.usages && db.usages[id].goal == Some(goal) && db.usages[id].user == user
      ensures id in left <==> StillNeeded(db.usages[id], now)
      ensures id in left ==> left[id] == Emptied(db.usages[id])
    {
      assert Retained(usages[id], now) <==> StillNeeded(db.usages[id], now);
    }
  }

  lemma CascadedRows(db: Db, goal: Id)
    ensures RowsGone(db, goal, CascadeGoal(db, goal))
  {
  }

  lemma ReleasedRows(w: World, ids: set<Id>, goal: Id, usages: map<Id, Usage>, x: Db)
    requires RowsGone(Release(w, ids).db.(usages := usages), goal, x)
    ensures RowsGone(w.db, goal, x)
  {
  }

  lemma GoalCascades(w: World, user: Id, goal: Id, now: int)
    requires GoalOperations(w.db, user, goal) && DeadlinesKept(w.db.usages) && RunningAccepted(w.db)
    ensures var r := Release(w, RunningOfGoal(w.db.generations, user, goal)).db;
            GoalGone(w.db, user, goal, now, CascadeGoal(r.(usages := DropGoalUsages(r.usages, user, goal, now)), goal))
  {
    var ids := RunningOfGoal(w.db.generations, user, goal);
    var r := Release(w, ids).db;
    var usages := DropGoalUsages(r.usages, user, goal, now);
    ReleasedUsages(w, user, goal);
    CascadedUsages(w.db, user, goal, now, r.usages);
    CascadedOperations(w.db.generations, user, goal);
    CascadedRows(r.(usages := usages), goal);
    ReleasedRows(w, ids, goal, usages, CascadeGoal(r.(usages := usages), goal));
  }

  lemma UsersOfGoals(db: Db, user: Id, goal: Id)
    requires LifecycleInv(db) && OwnsGoal(db, user, goal)
    ensures user in db.users
  {
  }

  lemma DeleteFrom(w: World, i: DeleteInput)
    requires LifecycleInv(w.db) && RowsFit(w.db, w.history.log) && TargetsInv(w.db, w.history.log) && ReceiptsInv(w)
    ensures var s := DeleteGoal(w, i);
            && (s.answer == Done <==>
                  && i.confirmed && OwnsGoal(w.db, i.user, i.goal) && w.db.goals[i.goal].revision == i.expected
                  && (i.user, i.key) !in w.db.receipts)
            && (if s.answer == Done
                then GoalGone(w.db, i.user, i.goal, i.now, s.world.db) &&
                     s.world.db.receipts == w.db.receipts[(i.user, i.key) :=
                         Receipt(i.goal, DeleteRequest(i.goal, i.expected), i.now + 86400)]
                else s.world == w)
  {
    if OwnsGoal(w.db, i.user, i.goal) {
      UsersOfGoals(w.db, i.user, i.goal);
    }
    assert (i.user, i.key) in w.db.receipts ==>
      ReceiptFits((i.user, i.key), w.db.receipts[(i.user, i.key)], w.db, w.history.issued);
    DeleteGoalShape(w, i);
    if DeleteGoal(w, i).answer == Done {
      OperationsOfGoal(w.db, w.history.log, i.user, i.goal);
      UsageDeadlines(w.db, w.history.log);
      AcceptedWhileRunning(w.db, w.history.log);
      GoalCascades(w, i.user, i.goal, i.now);
    }
  }

  /**
   A Goal is deleted exactly when its User confirms it at its revision with a key not used before; it goes with all
   that belongs to it and nothing else, and the receipt stands for 24 hours.
   */
  lemma DeleteGoalIff(cfg: Config, w: World, i: DeleteInput)
    requires Inv(cfg, w)
    ensures var s := DeleteGoal(w, i);
            && (s.answer == Done <==>
                  && i.confirmed && OwnsGoal(w.db, i.user, i.goal) && w.db.goals[i.goal].revision == i.expected
                  && (i.user, i.key) !in w.db.receipts)
            && (if s.answer == Done
                then GoalGone(w.db, i.user, i.goal, i.now, s.world.db) &&
                     s.world.db.receipts == w.db.receipts[(i.user, i.key) :=
                         Receipt(i.goal, DeleteRequest(i.goal, i.expected), i.now + 86400)]
                else s.world == w)
  {
    DeleteFrom(w, i);
  }

  // An Account.

  /** Every row of the User, and no other, is gone. */
  ghost predicate AccountGone(db: Db, user: Id, x: Db) {
    && x.users == db.users - {user}
    && (forall id :: id in x.goals <==> id in db.goals && db.goals[id].user != user)
    && (forall id :: id in x.versions <==> id in db.versions && db.versions[id].user != user)
    && (forall id :: id in x.cycles <==> id in db.cycles && db.cycles[id].user != user)
    && (forall id :: id in x.drafts <==> id in db.drafts && db.drafts[id].user != user)
    && (forall id :: id in x.generations <==> id in db.generations && db.generations[id].user != user)
    && (forall id :: id in x.usages <==> id in db.usages && db.usages[id].user != user)
    && (forall k :: k in x.receipts <==> k in db.receipts && k.0 != user)
  }

  /** What is left is as it was. */
  ghost predicate OthersStay(db: Db, x: Db) {
    && (forall id :: id in x.goals ==> id in db.goals && x.goals[id] == db.goals[id])
    && (forall id :: id in x.versions ==> id in db.versions && x.versions[id] == db.versions[id])
    && (forall id :: id in x.cycles ==> id in db.cycles && x.cycles[id] == db.cycles[id])
    && (forall id :: id in x.drafts ==> id in db.drafts && x.drafts[id] == db.drafts[id])
    && (forall id :: id in x.generations ==> id in db.generations && x.generations[id] == db.generations[id])
    && (forall id :: id in x.usages ==> id in db.usages && x.usages[id] == db.usages[id])
    && (forall k :: k in x.receipts ==> k in db.receipts && x.receipts[k] == db.receipts[k])
  }

  lemma DeleteAccountIff(w: World, user: Id)
    ensures var s := DeleteAccount(w, user);
            && (s.answer == Done <==> user in w.db.users)
            && (if s.answer == Done then AccountGone(w.db, user, s.world.db) && OthersStay(w.db, s.world.db)
                else s.world == w)
  {
  }

  // The retention job.

  /** A usage goes exactly when it is listed, has lost its content, and nothing will ask for it again. */
  lemma CleanupIff(cfg: Config, w: World, ids: set<Id>, now: int, id: Id)
    requires Sound(cfg, w)
    ensures var x := Cleanup(w, ids, now).world.db;
            && (id in w.db.usages && id !in x.usages <==>
                  && id in ids && id in w.db.usages && w.db.usages[id].contentDeleted
                  && !StillNeeded(w.db.usages[id], now))
            && (id in x.usages ==> id in w.db.usages && x.usages[id] == w.db.usages[id])
            && x == w.db.(usages := x.usages)
  {
    UsageDeadlines(w.db, w.history.log);
  }
}
