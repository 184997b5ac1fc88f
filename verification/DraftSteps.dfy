/** The use cases that use a Draft up, and deletion, keep the invariant. */
module DraftSteps {
  import opened Base
  import opened Rows
  import opened MapSum
  import opened Keys
  import opened Schema
  import opened Ledger
  import opened LedgerInvariant
  import opened Text
  import opened Views
  import opened Lifecycle
  import opened LifecycleSteps
  import opened LifecycleTransitions
  import opened LifecycleEdges
  import opened Targets
  import opened UseCases
  import opened Soundness
  import GoalDomain

  // Moving a Draft's generations to the Goal it became.

  lemma AttachKeepsMoney(db: Db, db': Db, log: map<Id, Entry>, ids: set<Id>, goal: Id, version: Id)
    requires LedgerInv(db, log) && db'.months == db.months && db'.users == db.users
    requires db'.generations == Attach(db.generations, ids, goal, version)
             && db'.usages == AttachUsages(db.usages, ids, goal)
    ensures LedgerInv(db', log)
  {
    forall id | id in db'.generations && db'.generations[id].adopted.Some?
      ensures db'.generations[id].operation == GoalRefine && db'.generations[id].status == Succeeded
    {
      assert GenerationFits(db.generations[id], log, id);
    }
    forall id | id in db'.usages ensures UsageFits(db'.usages[id], log, id) {
      assert UsageFits(db.usages[id], log, id);
    }
    TrimKeepsLedger(db, db', log);
  }

  /** The rest of the invariant once a Draft's generations have moved. */
  lemma AttachKeepsSound(cfg: Config, w: World, x: World, draft: Id, goal: Id, version: Id, user: Id)
    requires Sound(cfg, w) && x.history.log == w.history.log && x.db.months == w.db.months && x.db.users == w.db.users
    requires draft in w.db.drafts && w.db.drafts[draft].user == user && !RunsOnDraft(w.db.generations, draft)
    requires var ids := GenerationsOfDraft(w.db.generations, user, draft);
             x.db.generations == Attach(w.db.generations, ids, goal, version)
               && x.db.usages == AttachUsages(w.db.usages, ids, goal)
    requires KeepsTargets(w.db, w.db.(goals := x.db.goals, versions := x.db.versions, cycles := x.db.cycles))
    requires x.db.drafts == Without(w.db.drafts, {draft})
    requires goal in x.db.goals && x.db.goals[goal].user == user && version in x.db.versions
             && x.db.versions[version].goal == goal
    requires LifecycleInv(x.db) && IssuedInv(x.db, x.history) && GoalLimitInv(cfg.goalLimit, x.db.goals)
    ensures Sound(cfg, x)
  {
    var ids := GenerationsOfDraft(w.db.generations, user, draft);
    var db := w.db.(goals := x.db.goals, versions := x.db.versions, cycles := x.db.cycles);
    AttachKeepsMoney(w.db, x.db, w.history.log, ids, goal, version);
    KeepsTargetsInv(w.db, db, w.history.log);
    AttachKeepsTargets(db, w.history.log, user, draft, goal, version);
    FrameTargets(AfterAttach(db, draft, ids, goal, version), x.db, w.history.log);
  }

  lemma FrameTargets(db: Db, db': Db, log: map<Id, Entry>)
    requires TargetsInv(db, log) && SameTables(db, db') && db'.generations == db.generations && db'.usages == db.usages
    ensures TargetsInv(db', log)
  {
    forall id | id in db'.generations ensures UsageAgrees(id, db'.generations[id], db'.usages) {
      assert Aims(id, db.generations[id], db, log);
    }
    SameAimKeeps(db, log, db', log);
  }

  // Starting.

  lemma StartEffect(cfg: Config, w: World, i: StartInput)
    requires StartGoal(cfg, w, i).answer == Created(i.goal)
    requires i.goal !in w.db.goals && i.version !in w.db.versions && i.cycle !in w.db.cycles
    ensures i.draft in w.db.drafts && w.db.drafts[i.draft].user == i.user && !RunsOnDraft(w.db.generations, i.draft)
    ensures Sum(w.db.goals, ProgressingOf(i.user)) < cfg.goalLimit
    ensures var x := StartGoal(cfg, w, i).world;
            && i.goal in x.db.goals && i.version in x.db.versions && i.cycle in x.db.cycles
            && var g, v, c := x.db.goals[i.goal], x.db.versions[i.version], x.db.cycles[i.cycle];
            && var ids := GenerationsOfDraft(w.db.generations, i.user, i.draft);
            && g.user == i.user && Starts(w.db, i.goal, g, i.version, v, i.cycle, c, i.draft)
            && x == World(AfterStart(w.db, i.goal, g, i.version, v, i.cycle, c, i.draft).(
                            generations := Attach(w.db.generations, ids, i.goal, i.version),
                            usages := AttachUsages(w.db.usages, ids, i.goal)),
                          w.history.(issued := w.history.issued + {i.goal, i.version, i.cycle}))
  {
    if i.draft in w.db.drafts {
      NormalizeBodyFixpoint(w.db.drafts[i.draft].body, false);
      NormalizeSignalFixpoint(w.db.drafts[i.draft].signal);
    }
  }

  lemma StartElse(cfg: Config, w: World, i: StartInput)
    requires StartGoal(cfg, w, i).answer != Created(i.goal)
    ensures StartGoal(cfg, w, i).world == w
  {
  }

  lemma StartRest(w: World, x: World, goal: Id, g: Goal, version: Id, v: Version, cycle: Id, c: Cycle, draft: Id)
    requires Starts(w.db, goal, g, version, v, cycle, c, draft) && IssuedInv(w.db, w.history)
    requires SameLifecycleTables(AfterStart(w.db, goal, g, version, v, cycle, c, draft), x.db)
    requires x.history == w.history.(issued := w.history.issued + {goal, version, cycle})
    ensures IssuedInv(x.db, x.history)
    ensures KeepsTargets(w.db, w.db.(goals := x.db.goals, versions := x.db.versions, cycles := x.db.cycles))
  {
  }

  lemma StartKeepsSound(cfg: Config, w: World, i: StartInput)
    requires Sound(cfg, w) && i.goal !in w.history.issued && i.version !in w.history.issued
             && i.cycle !in w.history.issued
    ensures Sound(cfg, StartGoal(cfg, w, i).world)
  {
    if StartGoal(cfg, w, i).answer == Created(i.goal) {
      StartEffect(cfg, w, i);
      var x := StartGoal(cfg, w, i).world;
      StartedKeepsSound(cfg, w, x, i.goal, i.version, i.cycle, i.draft, i.user);
    } else {
      StartElse(cfg, w, i);
    }
  }

  lemma StartedKeepsSound(cfg: Config, w: World, x: World, goal: Id, version: Id, cycle: Id, draft: Id, user: Id)
    requires Sound(cfg, w)
    requires draft in w.db.drafts && w.db.drafts[draft].user == user && !RunsOnDraft(w.db.generations, draft)
    requires Sum(w.db.goals, ProgressingOf(user)) < cfg.goalLimit
    requires goal in x.db.goals && version in x.db.versions && cycle in x.db.cycles
    requires var g, v, c := x.db.goals[goal], x.db.versions[version], x.db.cycles[cycle];
             && var ids := GenerationsOfDraft(w.db.generations, user, draft);
             && g.user == user && Starts(w.db, goal, g, version, v, cycle, c, draft)
             && x == World(AfterStart(w.db, goal, g, version, v, cycle, c, draft).(
                             generations := Attach(w.db.generations, ids, goal, version), usages :=
                               AttachUsages(w.db.usages, ids, goal)),
                           w.history.(issued := w.history.issued + {goal, version, cycle}))
    ensures Sound(cfg, x)
  {
    var g, v, c := x.db.goals[goal], x.db.versions[version], x.db.cycles[cycle];
    StartKeepsLifecycle(w.db, goal, g, version, v, cycle, c, draft);
    FrameLifecycle(AfterStart(w.db, goal, g, version, v, cycle, c, draft), x.db);
    StartRest(w, x, goal, g, version, v, cycle, c, draft);
    StartKeepsLimit(cfg.goalLimit, w.db.goals, goal, g);
    AttachKeepsSound(cfg, w, x, draft, goal, version, user);
  }

  // Continuing.

  /** What continuing a review writes, in terms of the rows it leaves. */
  ghost predicate Continued(w: World, x: World, goal: Id, version: Id, v: Option<Version>, next: Id, draft: Id,
                            selected: Id, user: Id)
  {
    && draft in w.db.drafts && w.db.drafts[draft].user == user && !RunsOnDraft(w.db.generations, draft)
    && goal in x.db.goals && next in x.db.cycles
    && var g, n := x.db.goals[goal], x.db.cycles[next];
    && var ids := GenerationsOfDraft(w.db.generations, user, draft);
    && g.user == user && Continues(w.db, goal, g, version, v, next, n, draft)
    && selected == n.version
    && x == World(AfterContinue(w.db, goal, g, version, v, next, n, draft).(
                    generations := Attach(w.db.generations, ids, goal, selected), usages :=
                      AttachUsages(w.db.usages, ids, goal)),
                  w.history.(issued := w.history.issued + {version, next}))
  }

  /** What the domain makes of the reviewed Draft and the Goal's current Version. */
  ghost function ContinueOutcome(db: Db, i: ContinueInput): Result<GoalDomain.Continued, Error>
    requires i.goal in db.goals && ReviewDraft(db, i.user, i.goal).Some? && CurrentVersion(db, i.goal).Some?
  {
    var draft, versionId := ReviewDraft(db, i.user, i.goal).value, CurrentVersion(db, i.goal).value;
    GoalDomain.ContinueReview(i.goal, db.goals[i.goal], versionId, db.versions[versionId], db.drafts[draft], i.version,
                              ContinueClaim(i))
  }

  lemma ContinueShape(w: World, i: ContinueInput)
    requires ContinueReview(w, i).answer == Created(i.cycle)
    ensures OwnsGoal(w.db, i.user, i.goal) && ReviewDraft(w.db, i.user, i.goal).Some?
            && CurrentVersion(w.db, i.goal).Some?
    ensures !Has(w.db.cycles, StartKey, (i.user, i.operation))
    ensures ContinueOutcome(w.db, i).Ok?
    ensures var c, draft := ContinueOutcome(w.db, i).value, ReviewDraft(w.db, i.user, i.goal).value;
            var ids := GenerationsOfDraft(w.db.generations, i.user, draft);
            && draft in w.db.drafts && w.db.drafts[draft].user == i.user && !RunsOnDraft(w.db.generations, draft)
            && ContinueReview(w, i).world ==
                 World(AfterContinue(w.db, i.goal, c.goal, i.version, c.version, i.cycle, c.cycle, draft).(
                         generations := Attach(w.db.generations, ids, i.goal, c.cycle.version),
                         usages := AttachUsages(w.db.usages, ids, i.goal)),
                       w.history.(issued := w.history.issued + {i.version, i.cycle}))
  {
  }

  lemma ContinueDomain(db: Db, i: ContinueInput)
    requires OwnsGoal(db, i.user, i.goal) && ReviewDraft(db, i.user, i.goal).Some? && CurrentVersion(db, i.goal).Some?
    requires i.version !in db.versions && i.cycle !in db.cycles && !Has(db.cycles, StartKey, (i.user, i.operation))
    requires ContinueOutcome(db, i).Ok?
    ensures var c, draft := ContinueOutcome(db, i).value, ReviewDraft(db, i.user, i.goal).value;
            Continues(db, i.goal, c.goal, i.version, c.version, i.cycle, c.cycle, draft) && c.goal.user == i.user
  {
    var draft := ReviewDraft(db, i.user, i.goal).value;
    NormalizeBodyFixpoint(db.drafts[draft].body, false);
    NormalizeSignalFixpoint(db.drafts[draft].signal);
  }

  lemma ContinueEffect(w: World, i: ContinueInput)
    requires ContinueReview(w, i).answer == Created(i.cycle)
    requires i.version !in w.db.versions && i.cycle !in w.db.cycles
    ensures ReviewDraft(w.db, i.user, i.goal).Some?
    ensures var x := ContinueReview(w, i).world;
            i.cycle in x.db.cycles &&
            Continued(w, x, i.goal, i.version, if i.version in x.db.versions then Some(x.db.versions[i.version])
                      else None,
                      i.cycle, ReviewDraft(w.db, i.user, i.goal).value, x.db.cycles[i.cycle].version, i.user)
  {
    ContinueShape(w, i);
    ContinueDomain(w.db, i);
  }

  lemma ContinueElse(w: World, i: ContinueInput)
    requires ContinueReview(w, i).answer != Created(i.cycle)
    ensures ContinueReview(w, i).world == w
  {
  }

  lemma ContinueRest(w: World, x: World, goal: Id, version: Id, v: Option<Version>, next: Id, draft: Id, selected: Id,
                     user: Id)
    requires Continued(w, x, goal, version, v, next, draft, selected, user) && IssuedInv(w.db, w.history)
    requires DraftsOf(w.db, goal)
    ensures IssuedInv(x.db, x.history) && selected in x.db.versions && x.db.versions[selected].goal == goal
    ensures KeepsTargets(w.db, w.db.(goals := x.db.goals, versions := x.db.versions, cycles := x.db.cycles))
  {
    assert ReviewFits(w.db.drafts[draft], w.db.goals[goal], w.db.versions, w.db.cycles);
  }

  lemma ContinueLimit(limit: nat, w: World, x: World, goal: Id, version: Id, v: Option<Version>, next: Id, draft: Id,
                      selected: Id, user: Id)
    requires Continued(w, x, goal, version, v, next, draft, selected, user) && GoalLimitInv(limit, w.db.goals)
    requires DraftsOf(w.db, goal)
    ensures GoalLimitInv(limit, x.db.goals)
  {
    assert ReviewFits(w.db.drafts[draft], w.db.goals[goal], w.db.versions, w.db.cycles);
    GoalsKeepLimit(limit, w.db.goals, x.db.goals);
  }

  lemma ContinuedKeepsSound(cfg: Config, w: World, x: World, goal: Id, version: Id, v: Option<Version>, next: Id,
                            draft: Id,
                            selected: Id, user: Id)
    requires Sound(cfg, w) && Continued(w, x, goal, version, v, next, draft, selected, user)
    ensures Sound(cfg, x)
  {
    var g, n := x.db.goals[goal], x.db.cycles[next];
    assert GoalInv(w.db, goal);
    ContinueKeepsLifecycle(w.db, goal, g, version, v, next, n, draft);
    FrameLifecycle(AfterContinue(w.db, goal, g, version, v, next, n, draft), x.db);
    ContinueRest(w, x, goal, version, v, next, draft, selected, user);
    ContinueLimit(cfg.goalLimit, w, x, goal, version, v, next, draft, selected, user);
    AttachKeepsSound(cfg, w, x, draft, goal, selected, user);
  }

  lemma ContinueKeepsSound(cfg: Config, w: World, i: ContinueInput)
    requires Sound(cfg, w) && i.version !in w.history.issued && i.cycle !in w.history.issued
    ensures Sound(cfg, ContinueReview(w, i).world)
  {
    if ContinueReview(w, i).answer == Created(i.cycle) {
      ContinueEffect(w, i);
      var x := ContinueReview(w, i).world;
      ContinuedKeepsSound(cfg, w, x, i.goal, i.version, if i.version in x.db.versions
                          then Some(x.db.versions[i.version]) else None,
                          i.cycle, ReviewDraft(w.db, i.user, i.goal).value, x.db.cycles[i.cycle].version, i.user);
    } else {
      ContinueElse(w, i);
    }
  }

  // Dropping a Draft with its generations.

  lemma DropKeepsMoney(db: Db, db': Db, log: map<Id, Entry>, user: Id, draft: Id, now: int)
    requires LedgerInv(db, log) && db'.months == db.months && db'.users == db.users
             && !RunsOnDraft(db.generations, draft)
    requires var ids := GenerationsOfDraft(db.generations, user, draft);
             db'.generations == Without(db.generations, ids) && db'.usages == DropUsages(db.usages, ids, now)
    ensures LedgerInv(db', log)
  {
    forall id | id in db'.generations && db'.generations[id].adopted.Some?
      ensures db'.generations[id].operation == GoalRefine && db'.generations[id].status == Succeeded
    {
      assert GenerationFits(db.generations[id], log, id);
    }
    forall id | id in db'.usages ensures UsageFits(db'.usages[id], log, id) {
      assert UsageFits(db.usages[id], log, id);
    }
    TrimKeepsLedger(db, db', log);
  }

  lemma DropKeepsSound(cfg: Config, w: World, x: World, user: Id, draft: Id, now: int)
    requires Sound(cfg, w) && x.history == w.history && x.db.months == w.db.months && x.db.users == w.db.users
    requires draft in w.db.drafts && w.db.drafts[draft].user == user && !RunsOnDraft(w.db.generations, draft)
    requires var ids := GenerationsOfDraft(w.db.generations, user, draft);
             x.db.generations == Without(w.db.generations, ids) && x.db.usages == DropUsages(w.db.usages, ids, now)
    requires KeepsTargets(w.db, w.db.(goals := x.db.goals)) && x.db.versions == w.db.versions
             && x.db.cycles == w.db.cycles
    requires x.db.drafts == Without(w.db.drafts, {draft})
    requires LifecycleInv(x.db) && IssuedInv(x.db, x.history) && GoalLimitInv(cfg.goalLimit, x.db.goals)
    ensures Sound(cfg, x)
  {
    var db := w.db.(goals := x.db.goals);
    DropKeepsMoney(w.db, x.db, w.history.log, user, draft, now);
    KeepsTargetsInv(w.db, db, w.history.log);
    DropKeepsTargets(db, w.history.log, user, draft, now);
    var ids := GenerationsOfDraft(w.db.generations, user, draft);
    FrameTargets(db.(usages := DropUsages(db.usages, ids, now), generations := Without(db.generations, ids),
                     drafts := Without(db.drafts, {draft})), x.db, w.history.log);
  }

  lemma AbandonEffect(w: World, user: Id, id: Id, now: int)
    requires AbandonDraft(w, user, id, now).world != w && IssuedInv(w.db, w.history) && Rooted(w.db)
    ensures var x := AbandonDraft(w, user, id, now).world;
            && x.history == w.history && x.db.months == w.db.months
            && SameLifecycleTables(w.db, x.db.(drafts := w.db.drafts))
            && id in w.db.drafts && w.db.drafts[id].user == user && !RunsOnDraft(w.db.generations, id)
            && x.db.drafts == Without(w.db.drafts, {id})
            && var ids := GenerationsOfDraft(w.db.generations, user, id);
            && x.db.generations == Without(w.db.generations, ids) && x.db.usages == DropUsages(w.db.usages, ids, now)
            && Prunes(w.db, x.db) && Rooted(x.db) && IssuedInv(x.db, x.history)
            && KeepsTargets(w.db, w.db.(goals := x.db.goals))
  {
  }

  lemma AbandonKeepsSound(cfg: Config, w: World, user: Id, id: Id, now: int)
    requires Sound(cfg, w)
    ensures Sound(cfg, AbandonDraft(w, user, id, now).world)
  {
    var x := AbandonDraft(w, user, id, now).world;
    if x != w {
      AbandonEffect(w, user, id, now);
      PruneKeepsLifecycle(w.db, x.db);
      DropKeepsSound(cfg, w, x, user, id, now);
    }
  }

  /** What terminating a Goal in review writes. */
  ghost predicate TerminatedReview(w: World, x: World, goal: Id, draft: Id, user: Id, now: int) {
    && draft in w.db.drafts && w.db.drafts[draft].user == user && !RunsOnDraft(w.db.generations, draft)
    && goal in x.db.goals && TerminatesReview(w.db, goal, x.db.goals[goal], draft)
    && var ids := GenerationsOfDraft(w.db.generations, user, draft);
    x == w.(db := AfterTerminateReview(w.db, goal, x.db.goals[goal], draft).(
              generations := Without(w.db.generations, ids), usages := DropUsages(w.db.usages, ids, now)))
  }

  lemma TerminateReviewEffect(w: World, i: TerminateInput)
    requires i.state == GoalReview && Terminate(w, i).world != w
    ensures ReviewDraft(w.db, i.user, i.goal).Some?
    ensures TerminatedReview(w, Terminate(w, i).world, i.goal, ReviewDraft(w.db, i.user, i.goal).value, i.user, i.now)
  {
  }

  lemma TerminateReviewRest(cfg: Config, w: World, x: World, goal: Id, draft: Id, user: Id, now: int)
    requires TerminatedReview(w, x, goal, draft, user, now) && IssuedInv(w.db, w.history)
             && GoalLimitInv(cfg.goalLimit, w.db.goals)
    ensures IssuedInv(x.db, x.history) && GoalLimitInv(cfg.goalLimit, x.db.goals)
    ensures KeepsTargets(w.db, w.db.(goals := x.db.goals))
  {
    GoalsKeepLimit(cfg.goalLimit, w.db.goals, x.db.goals);
  }

  lemma TerminateReviewKeepsSound(cfg: Config, w: World, i: TerminateInput)
    requires Sound(cfg, w) && i.state == GoalReview
    ensures Sound(cfg, Terminate(w, i).world)
  {
    var x := Terminate(w, i).world;
    if x != w {
      TerminateReviewEffect(w, i);
      TerminatedKeepsSound(cfg, w, x, i.goal, ReviewDraft(w.db, i.user, i.goal).value, i.user, i.now);
    }
  }

  lemma TerminatedKeepsSound(cfg: Config, w: World, x: World, goal: Id, draft: Id, user: Id, now: int)
    requires Sound(cfg, w) && TerminatedReview(w, x, goal, draft, user, now)
    ensures Sound(cfg, x)
  {
    TerminateReviewKeepsLifecycle(w.db, goal, x.db.goals[goal], draft);
    FrameLifecycle(AfterTerminateReview(w.db, goal, x.db.goals[goal], draft), x.db);
    TerminateReviewRest(cfg, w, x, goal, draft, user, now);
    DropKeepsSound(cfg, w, x, user, draft, now);
  }
}
