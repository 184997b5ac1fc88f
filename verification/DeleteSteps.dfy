/** Deleting a Goal, deleting an Account and the retention job keep the invariant. */
module DeleteSteps {
  import opened Base
  import opened Rows
  import opened MapSum
  import opened Keys
  import opened Schema
  import opened Ledger
  import opened LedgerInvariant
  import opened Text
  import opened Views
  import opened Lifecycle
  import opened Targets
  import opened UseCases
  import opened Soundness
  import opened MoneySteps
  import opened DraftSteps

  // A Goal whose operations have all ended.

  function AfterDeleteGoal(db: Db, user: Id, goal: Id, now: int): Db {
    CascadeGoal(db.(usages := DropGoalUsages(db.usages, user, goal, now)), goal)
  }

  ghost predicate NothingRuns(generations: map<Id, Generation>, goal: Id) {
    forall id :: id in generations && generations[id].goal == Some(goal) ==> generations[id].status != Running
  }

  lemma GoalUsageFits(db: Db, log: map<Id, Entry>, user: Id, goal: Id, now: int, id: Id)
    requires RowsFit(db, log) && TargetsInv(db, log) && NothingRuns(db.generations, goal)
    requires id in AfterDeleteGoal(db, user, goal, now).usages
    ensures UsageFits(AfterDeleteGoal(db, user, goal, now).usages[id], log, id)
  {
    assert UsageFits(db.usages[id], log, id);
    assert EntryFits(log[id], db, id);
    if id in db.generations {
      assert GenerationFits(db.generations[id], log, id);
      assert Aims(id, db.generations[id], db, log);
    }
  }

  lemma DeleteGoalKeepsMoney(db: Db, log: map<Id, Entry>, user: Id, goal: Id, now: int)
    requires LedgerInv(db, log) && TargetsInv(db, log) && NothingRuns(db.generations, goal)
    ensures LedgerInv(AfterDeleteGoal(db, user, goal, now), log)
  {
    var db' := AfterDeleteGoal(db, user, goal, now);
    forall id | id in db'.generations && db'.generations[id].adopted.Some?
      ensures db'.generations[id].operation == GoalRefine && db'.generations[id].status == Succeeded
    {
      assert GenerationFits(db.generations[id], log, id);
    }
    forall id | id in db'.usages ensures UsageFits(db'.usages[id], log, id) {
      GoalUsageFits(db, log, user, goal, now, id);
    }
    TrimKeepsLedger(db, db', log);
  }

  lemma DeleteGoalPrunes(db: Db, user: Id, goal: Id, now: int)
    requires Rooted(db)
    ensures Prunes(db, AfterDeleteGoal(db, user, goal, now)) && Rooted(AfterDeleteGoal(db, user, goal, now))
  {
  }

  lemma DeletedGoalRows(cfg: Config, db: Db, user: Id, goal: Id, now: int)
    requires LifecycleInv(db) && GoalLimitInv(cfg.goalLimit, db.goals)
    ensures var db' := AfterDeleteGoal(db, user, goal, now); LifecycleInv(db') && GoalLimitInv(cfg.goalLimit, db'.goals)
  {
    DeleteGoalPrunes(db, user, goal, now);
    PruneKeepsLifecycle(db, AfterDeleteGoal(db, user, goal, now));
    GoalsKeepLimit(cfg.goalLimit, db.goals, AfterDeleteGoal(db, user, goal, now).goals);
  }

  function DeletedGoal(w: World, user: Id, goal: Id, now: int): World {
    w.(db := AfterDeleteGoal(w.db, user, goal, now))
  }

  function WithReceipts(w: World, receipts: map<(Id, Id), Receipt>): World {
    w.(db := w.db.(receipts := receipts))
  }

  lemma DeletedGoalKeepsSound(cfg: Config, w: World, user: Id, goal: Id, now: int)
    requires Sound(cfg, w) && NothingRuns(w.db.generations, goal)
    ensures Sound(cfg, DeletedGoal(w, user, goal, now))
  {
    DeleteGoalKeepsMoney(w.db, w.history.log, user, goal, now);
    DeletedGoalRows(cfg, w.db, user, goal, now);
    CascadeGoalKeepsTargets(w.db, w.history.log, user, goal, now);
  }

  lemma ReceiptsKeepSound(cfg: Config, w: World, receipts: map<(Id, Id), Receipt>, x: World)
    requires Sound(cfg, w) && x == WithReceipts(w, receipts)
    ensures Sound(cfg, x)
  {
    FrameLedger(w.db, x.db, w.history.log);
    FrameLifecycle(w.db, x.db);
    FrameTargets(w.db, x.db, w.history.log);
  }

  lemma ReleasedGoal(w: World, user: Id, goal: Id)
    requires TargetsInv(w.db, w.history.log) && OwnsGoal(w.db, user, goal)
    ensures NothingRuns(Release(w, RunningOfGoal(w.db.generations, user, goal)).db.generations, goal)
  {
    forall id | id in w.db.generations && w.db.generations[id].goal == Some(goal)
      ensures w.db.generations[id].user == user
    {
      assert Aims(id, w.db.generations[id], w.db, w.history.log);
    }
  }

  /** A deletion releases what runs on the Goal, removes its rows, and leaves a receipt. */
  ghost predicate DeletesInTurn(w: World, i: DeleteInput, x: World) {
    && OwnsGoal(w.db, i.user, i.goal)
    && x == WithReceipts(DeletedGoal(Release(w, RunningOfGoal(w.db.generations, i.user, i.goal)), i.user, i.goal,
                                     i.now), x.db.receipts)
  }

  lemma DeleteGoalInTurn(w: World, i: DeleteInput)
    ensures DeleteGoal(w, i).world == w || DeletesInTurn(w, i, DeleteGoal(w, i).world)
  {
  }

  lemma DeletesKeepsSound(cfg: Config, w: World, i: DeleteInput, x: World)
    requires Sound(cfg, w) && DeletesInTurn(w, i, x)
    ensures Sound(cfg, x)
  {
    var r := Release(w, RunningOfGoal(w.db.generations, i.user, i.goal));
    ReleaseKeepsSound(cfg, w, RunningOfGoal(w.db.generations, i.user, i.goal));
    ReleasedGoal(w, i.user, i.goal);
    DeletedGoalKeepsSound(cfg, r, i.user, i.goal, i.now);
    ReceiptsKeepSound(cfg, DeletedGoal(r, i.user, i.goal, i.now), x.db.receipts, x);
  }

  lemma DeleteGoalKeepsSound(cfg: Config, w: World, i: DeleteInput)
    requires Sound(cfg, w)
    ensures Sound(cfg, DeleteGoal(w, i).world)
  {
    DeleteGoalInTurn(w, i);
    if DeleteGoal(w, i).world != w {
      DeletesKeepsSound(cfg, w, i, DeleteGoal(w, i).world);
    }
  }

  // An Account.

  /** A row belongs to the User its Goal belongs to. */
  predicate RowsFollowGoals(db: Db) {
    && (forall id :: id in db.versions ==>
        db.versions[id].goal in db.goals && db.versions[id].user == db.goals[db.versions[id].goal].user)
    && (forall id :: id in db.cycles ==>
        db.cycles[id].goal in db.goals && db.cycles[id].user == db.goals[db.cycles[id].goal].user)
    && (forall id :: id in db.drafts && db.drafts[id].kind.Review? ==>
          db.drafts[id].kind.goal in db.goals && db.drafts[id].user == db.goals[db.drafts[id].kind.goal].user)
  }

  lemma LifecycleFollowsGoals(db: Db)
    requires LifecycleInv(db)
    ensures RowsFollowGoals(db)
  {
    forall id | id in db.versions
      ensures db.versions[id].goal in db.goals && db.versions[id].user == db.goals[db.versions[id].goal].user
    {
      assert GoalInv(db, db.versions[id].goal);
      assert VersionFits(db.versions[id], db.goals[db.versions[id].goal]);
    }
    forall id | id in db.cycles
      ensures db.cycles[id].goal in db.goals && db.cycles[id].user == db.goals[db.cycles[id].goal].user
    {
      assert GoalInv(db, db.cycles[id].goal);
      assert CycleFits(id, db.cycles[id], db.goals[db.cycles[id].goal], db.versions, db.cycles);
    }
    forall id | id in db.drafts && db.drafts[id].kind.Review?
      ensures db.drafts[id].kind.goal in db.goals && db.drafts[id].user == db.goals[db.drafts[id].kind.goal].user
    {
      ReviewOnCurrent(db, id);
    }
  }

  lemma CascadePrunes(db: Db, user: Id)
    requires Rooted(db) && RowsFollowGoals(db)
    ensures Prunes(db, CascadeUser(db, user)) && Rooted(CascadeUser(db, user))
  {
    var db' := CascadeUser(db, user);
    assert forall id :: id in db'.drafts ==> DraftRooted(db.drafts[id], db);
  }

  lemma OwnersAgree(db: Db, log: map<Id, Entry>)
    requires LifecycleInv(db) && TargetsInv(db, log) && RowsFit(db, log)
    ensures forall id :: id in db.generations ==> SameOwner(db, id, db.generations[id])
  {
    forall id | id in db.generations ensures SameOwner(db, id, db.generations[id]) {
      var g := db.generations[id];
      assert GenerationFits(g, log, id);
      assert id in db.usages ==> UsageFits(db.usages[id], log, id);
      assert Aims(id, g, db, log);
      if g.version.Some? {
        assert GoalInv(db, g.goal.value);
        assert VersionFits(db.versions[g.version.value], db.goals[g.goal.value]);
      }
    }
  }

  lemma DeletedAccountRows(cfg: Config, w: World, user: Id)
    requires LifecycleInv(w.db) && GoalLimitInv(cfg.goalLimit, w.db.goals)
    ensures var db := CascadeUser(w.db, user); LifecycleInv(db) && GoalLimitInv(cfg.goalLimit, db.goals)
  {
    LifecycleFollowsGoals(w.db);
    CascadePrunes(w.db, user);
    PruneKeepsLifecycle(w.db, CascadeUser(w.db, user));
    GoalsKeepLimit(cfg.goalLimit, w.db.goals, CascadeUser(w.db, user).goals);
  }

  lemma DeletedAccountTargets(w: World, user: Id)
    requires LifecycleInv(w.db) && TargetsInv(w.db, w.history.log) && RowsFit(w.db, w.history.log)
    ensures TargetsInv(CascadeUser(w.db, user), WriteOffLog(w.history.log, user))
  {
    OwnersAgree(w.db, w.history.log);
    CascadeUserKeepsTargets(w.db, w.history.log, user);
  }

  /** The months are the only table the write-off and the cascade share. */
  lemma CascadeFrame(db: Db, months: map<int, Budget>, user: Id)
    ensures CascadeUser(db.(months := months), user) == CascadeUser(db, user).(months := months)
  {
  }

  /** What the rows of the others say does not depend on the months. */
  lemma DeletedAccountRest(cfg: Config, w: World, user: Id)
    requires LifecycleInv(w.db) && TargetsInv(w.db, w.history.log) && RowsFit(w.db, w.history.log)
    requires GoalLimitInv(cfg.goalLimit, w.db.goals)
    ensures var x := WriteOff(w, user);
            var db := CascadeUser(x.db, user);
            LifecycleInv(db) && TargetsInv(db, x.history.log) && GoalLimitInv(cfg.goalLimit, db.goals)
  {
    var x := WriteOff(w, user);
    var before, db := CascadeUser(w.db, user), CascadeUser(x.db, user);
    CascadeFrame(w.db, x.db.months, user);
    DeletedAccountRows(cfg, w, user);
    FrameLifecycle(before, db);
    DeletedAccountTargets(w, user);
    FrameTargets(before, db, x.history.log);
  }

  lemma DeletedAccountIssued(w: World, user: Id)
    requires IssuedInv(w.db, w.history)
    ensures var x := WriteOff(w, user);
            IssuedInv(CascadeUser(x.db, user), x.history) && CascadeUser(x.db, user).months == x.db.months
  {
  }

  lemma DeletedAccountKeepsSound(cfg: Config, w: World, user: Id)
    requires Sound(cfg, w)
    ensures var x := WriteOff(w, user); Sound(cfg, x.(db := CascadeUser(x.db, user)))
  {
    WriteOffKeepsLedger(w, user);
    WriteOffKeepsBound(cfg.budget, w, user);
    DeletedAccountRest(cfg, w, user);
    DeletedAccountIssued(w, user);
  }

  lemma DeleteAccountKeepsSound(cfg: Config, w: World, user: Id)
    requires Sound(cfg, w)
    ensures Sound(cfg, DeleteAccount(w, user).world)
  {
    DeletedAccountKeepsSound(cfg, w, user);
  }

  // The retention job.

  lemma CleanupKeepsSound(cfg: Config, w: World, ids: set<Id>, now: int)
    requires Sound(cfg, w)
    ensures Sound(cfg, Cleanup(w, ids, now).world)
  {
    var x := Cleanup(w, ids, now).world;
    CleanupKeepsMoney(w.db, w.history.log, x.db);
    forall id | id in x.db.generations ensures UsageAgrees(id, x.db.generations[id], x.db.usages) {
      assert Aims(id, w.db.generations[id], w.db, w.history.log);
    }
    SameAimKeeps(w.db, w.history.log, x.db, w.history.log);
    FrameLifecycle(w.db, x.db);
  }

  lemma CleanupKeepsMoney(db: Db, log: map<Id, Entry>, db': Db)
    requires LedgerInv(db, log) && db' == db.(usages := db'.usages)
    requires forall id :: id in db'.usages ==> id in db.usages && db'.usages[id] == db.usages[id]
    requires forall id :: id in db.usages && id !in db'.usages ==> db.usages[id].finalizedAt.Some?
    ensures LedgerInv(db', log)
  {
    forall id | id in db'.generations && db'.generations[id].adopted.Some?
      ensures db'.generations[id].operation == GoalRefine && db'.generations[id].status == Succeeded
    {
      assert GenerationFits(db.generations[id], log, id);
    }
    forall id | id in db'.usages ensures UsageFits(db'.usages[id], log, id) {
      assert UsageFits(db.usages[id], log, id);
    }
    TrimKeepsLedger(db, db', log);
  }
}
