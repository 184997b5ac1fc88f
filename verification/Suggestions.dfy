/** Exactly when a Goal text is refined and a suggestion adopted, and what either leaves. */
module Suggestions {
  import opened Base
  import opened Rows
  import opened Keys
  import opened Schema
  import opened Ledger
  import opened LedgerInvariant
  import opened Text
  import opened Lifecycle
  import opened Targets
  import opened UseCases
  import opened Soundness
  import opened MoneySteps
  import opened Edits
  import opened Transitions
  import opened Reviews
  import opened Admissions

  /** The Draft a command means: a Creation Draft by its name, or a Goal's Review Draft, with or without. */
  predicate Means(db: Db, user: Id, named: Option<Id>, goal: Option<Id>, draft: Id) {
    && (named == Some(draft) || (named.None? && goal.Some?)) && OwnsDraft(db, user, draft)
    && match goal
       case None => db.drafts[draft].kind == Creation
       case Some(g) => db.drafts[draft].kind.Review? && db.drafts[draft].kind.goal == g
  }

  /** The rows the command stands on. */
  ghost predicate Meant(db: Db, user: Id, named: Option<Id>, goal: Option<Id>, draft: Id) {
    && Means(db, user, named, goal, draft) && user in db.users
    && (goal.Some? ==> Reviewed(db, user, goal.value, draft))
  }

  lemma MeansMeant(db: Db, user: Id, named: Option<Id>, goal: Option<Id>, draft: Id)
    requires LifecycleInv(db) && Means(db, user, named, goal, draft)
    ensures Meant(db, user, named, goal, draft)
  {
    assert DraftRooted(db.drafts[draft], db);
    if goal.Some? {
      ReviewStands(db, user, goal.value, draft);
    }
  }

  // Refining.

  /** Nothing but the User's overdue operations runs on the Draft. */
  predicate DraftFree(generations: map<Id, Generation>, draft: Id, now: int) {
    forall id :: id in generations && generations[id].draft == Some(draft) && generations[id].status == Running ==>
      generations[id].lease.Some? && generations[id].lease.value <= now
  }

  lemma DraftFreeIff(w: World, user: Id, draft: Id, now: int)
    requires TargetsInv(w.db, w.history.log) && OwnsDraft(w.db, user, draft)
    ensures !RunsOnDraft(Recover(w, user, now).db.generations, draft) <==> DraftFree(w.db.generations, draft, now)
  {
    var r := Recover(w, user, now).db.generations;
    forall id | id in w.db.generations && w.db.generations[id].draft == Some(draft)
      ensures w.db.generations[id].user == user
    {
      assert Aims(id, w.db.generations[id], w.db, w.history.log);
    }
    if !DraftFree(w.db.generations, draft, now) {
      var id :| id in w.db.generations && w.db.generations[id].draft == Some(draft) &&
                w.db.generations[id].status == Running &&
                !(w.db.generations[id].lease.Some? && w.db.generations[id].lease.value <= now);
      assert r[id] == w.db.generations[id];
    }
  }

  predicate RefineReady(db: Db, i: RefineInput, draft: Id)
    requires draft in db.drafts
  {
    && db.drafts[draft].revision == i.expected && !Blank(db.drafts[draft].body)
    && (i.goal.Some? ==> i.goal.value in db.goals && i.goalRevision == Some(db.goals[i.goal.value].revision))
    && i.contextOk && i.rateOk
  }

  ghost predicate RefineOpen(cfg: Config, db: Db, i: RefineInput, draft: Id)
    requires draft in db.drafts
  {
    && KeyFree(db.generations, i.user, GoalRefine, i.key) && RefineReady(db, i, draft)
    && DraftFree(db.generations, draft, i.now) && Room(cfg, db, i.user, i.month, i.now)
  }

  /** The row of an accepted refinement. */
  predicate RefineRow(cfg: Config, db: Db, i: RefineInput, draft: Id, g: Generation)
    requires draft in db.drafts
  {
    var d := db.drafts[draft];
    && g.user == i.user && g.operation == GoalRefine && g.status == Running && g.draft == Some(draft)
    && g.goal == i.goal && g.version == (if d.kind.Review? then Some(d.kind.baseVersion) else None) && g.cycle == None
    && g.targetRevision == d.revision && g.key == i.key
    && g.request == RefineRequest(draft, i.goal, i.expected, i.goalRevision)
    && g.source == Some(d.body) && g.output == None && g.failure == None && g.adopted == None && !g.contextChanged
    && g.month == i.month && g.reserved == cfg.reservation && g.lease == Some(i.now + cfg.lease)
  }

  lemma RefineErrorIff(cfg: Config, w: World, i: RefineInput, draft: Id)
    requires Meant(w.db, i.user, i.draft, i.goal, draft)
    ensures var r := Recover(w, i.user, i.now).db;
            RefineError(cfg, r, i, draft).None? <==>
              && RefineReady(w.db, i, draft) && !RunsOnDraft(r.generations, draft)
              && |RollingUsage(r.usages, i.user, i.now - ROLLING_WINDOW)| < cfg.quota
              && !ExceedsBudget(r.months, i.month, cfg.reservation, cfg.budget)
  {
    if i.goal.Some? {
      SameCurrent(w, i.user, i.now, i.goal.value);
    }
  }

  lemma SameCurrent(w: World, user: Id, now: int, goal: Id)
    requires goal in w.db.goals
    ensures CurrentVersion(Recover(w, user, now).db, goal) == CurrentVersion(w.db, goal)
  {
  }

  lemma MeantDraft(db: Db, user: Id, named: Option<Id>, goal: Option<Id>, draft: Id)
    requires Meant(db, user, named, goal, draft)
    ensures RefineDraft(db, user, named, goal) == Some(draft) && DraftFits(db.drafts[draft], goal)
    ensures goal.Some? ==> CurrentVersion(db, goal.value) == Some(db.drafts[draft].kind.baseVersion)
  {
  }

  lemma RefineShape(cfg: Config, w: World, i: RefineInput, draft: Id)
    requires Meant(w.db, i.user, i.draft, i.goal, draft)
    ensures var s, r, d := BeginRefine(cfg, w, i), Recover(w, i.user, i.now), w.db.drafts[draft];
            var version := if i.goal.Some? then Some(d.kind.baseVersion) else None;
            && (s.answer == Begun(i.id) <==>
                  && Lookup(r.db.generations, ReplayKey, (i.user, GoalRefine, i.key)).None?
                  && RefineError(cfg, r.db, i, draft).None?)
            && (s.answer != Begun(i.id) ==> Refrains(w, i.user, i.now, s))
            && (s.answer == Begun(i.id) ==>
                  s.world == Accept(r, i.id, RefineGeneration(cfg, i, draft, d, version), i.now, d.body, d.revision))
  {
    MeantDraft(w.db, i.user, i.draft, i.goal, draft);
  }

  lemma RecoveredKeys(w: World, user: Id, now: int, operation: Operation, key: Id)
    ensures KeyFree(Recover(w, user, now).db.generations, user, operation, key) <==>
              KeyFree(w.db.generations, user, operation, key)
  {
    var r := Recover(w, user, now).db.generations;
    forall id | id in w.db.generations
      ensures id in r && r[id].user == w.db.generations[id].user && r[id].operation == w.db.generations[id].operation &&
              r[id].key == w.db.generations[id].key
    {
    }
  }

  lemma RefineRowIs(cfg: Config, db: Db, i: RefineInput, draft: Id)
    requires Meant(db, i.user, i.draft, i.goal, draft)
    ensures var d := db.drafts[draft];
            var version := if i.goal.Some? then Some(d.kind.baseVersion) else None;
            var g := RefineGeneration(cfg, i, draft, d, version);
            RefineRow(cfg, db, i, draft, g) && g.reserved == cfg.reservation
  {
  }

  ghost predicate RefineBegun(cfg: Config, w: World, i: RefineInput, draft: Id, x: World)
    requires draft in w.db.drafts
  {
    && i.id in x.db.generations && RefineRow(cfg, w.db, i, draft, x.db.generations[i.id])
    && AcceptedRow(cfg, Recover(w, i.user, i.now), i.id, x.db.generations[i.id], i.now, x)
  }

  lemma RefineOpenIff(cfg: Config, w: World, i: RefineInput, draft: Id)
    requires Meant(w.db, i.user, i.draft, i.goal, draft)
    requires TargetsInv(w.db, w.history.log) && RowsFit(w.db, w.history.log)
    ensures var r := Recover(w, i.user, i.now).db;
            RefineOpen(cfg, w.db, i, draft) <==>
              Lookup(r.generations, ReplayKey, (i.user, GoalRefine, i.key)).None? &&
              RefineError(cfg, r, i, draft).None?
  {
    KeyFreeIff(Recover(w, i.user, i.now).db.generations, i.user, GoalRefine, i.key);
    RecoveredKeys(w, i.user, i.now, GoalRefine, i.key);
    DraftFreeIff(w, i.user, draft, i.now);
    RoomIff(cfg, w, i.user, i.month, i.now);
    RefineErrorIff(cfg, w, i, draft);
  }

  lemma RefineLeaves(cfg: Config, w: World, i: RefineInput, draft: Id)
    requires Meant(w.db, i.user, i.draft, i.goal, draft)
    ensures var s := BeginRefine(cfg, w, i);
            if s.answer == Begun(i.id) then RefineBegun(cfg, w, i, draft, s.world) else Refrains(w, i.user, i.now, s)
  {
    var d := w.db.drafts[draft];
    var version := if i.goal.Some? then Some(d.kind.baseVersion) else None;
    RefineShape(cfg, w, i, draft);
    RefineRowIs(cfg, w.db, i, draft);
    AcceptRows(cfg, Recover(w, i.user, i.now), i.id, RefineGeneration(cfg, i, draft, d, version), i.now, d.body,
               d.revision);
  }

  /**
   A refinement of a Draft is let through exactly in such a state; its row, usage and reservation say what was asked.
   */
  lemma BeginRefineIff(cfg: Config, w: World, i: RefineInput, draft: Id)
    requires Sound(cfg, w) && Means(w.db, i.user, i.draft, i.goal, draft)
    ensures var s := BeginRefine(cfg, w, i);
            && (s.answer == Begun(i.id) <==> RefineOpen(cfg, w.db, i, draft))
            && (if s.answer == Begun(i.id) then RefineBegun(cfg, w, i, draft, s.world)
                else Refrains(w, i.user, i.now, s))
  {
    MeansMeant(w.db, i.user, i.draft, i.goal, draft);
    RefineOpenIff(cfg, w, i, draft);
    RefineShape(cfg, w, i, draft);
    RefineLeaves(cfg, w, i, draft);
  }

  /** Without such a Draft nothing is refined. */
  lemma RefineNeedsDraft(cfg: Config, w: World, i: RefineInput)
    requires forall d :: d in w.db.drafts ==> !Means(w.db, i.user, i.draft, i.goal, d)
    ensures BeginRefine(cfg, w, i).answer != Begun(i.id) && BeginRefine(cfg, w, i).world == w
  {
    var draft := RefineDraft(w.db, i.user, i.draft, i.goal);
    assert draft.Some? && DraftFits(w.db.drafts[draft.value], i.goal) ==>
      Means(w.db, i.user, i.draft, i.goal, draft.value);
  }

  lemma RefineFound(cfg: Config, w: World, i: RefineInput, draft: Id, id: Id)
    requires Meant(w.db, i.user, i.draft, i.goal, draft) && UniqueGenerations(Recover(w, i.user, i.now).db.generations)
    requires id in w.db.generations && GenerationFits(w.db.generations[id], w.history.log, id)
    requires ReplayKey(w.db.generations[id]) == Some((i.user, GoalRefine, i.key))
    ensures var s, g := BeginRefine(cfg, w, i), w.db.generations[id];
            && s.world == Recover(w, i.user, i.now)
            && if g.request == RefineRequest(draft, i.goal, i.expected, i.goalRevision)
               then Answers(id, g, i.now, s.answer) else s.answer == Refused(IdempotencyKeyReused)
  {
    MeantDraft(w.db, i.user, i.draft, i.goal, draft);
    LookupFinds(Recover(w, i.user, i.now).db.generations, ReplayKey, id);
  }

  /** A refinement with a key that was used answers from the row it made, once what is overdue has been given back. */
  lemma BeginRefineAgain(cfg: Config, w: World, i: RefineInput, draft: Id, id: Id)
    requires Sound(cfg, w) && Means(w.db, i.user, i.draft, i.goal, draft) && id in w.db.generations
    requires var g := w.db.generations[id]; g.user == i.user && g.operation == GoalRefine && g.key == i.key
    ensures var s, g := BeginRefine(cfg, w, i), w.db.generations[id];
            && s.world == Recover(w, i.user, i.now)
            && if g.request == RefineRequest(draft, i.goal, i.expected, i.goalRevision)
               then Answers(id, g, i.now, s.answer) else s.answer == Refused(IdempotencyKeyReused)
  {
    MeansMeant(w.db, i.user, i.draft, i.goal, draft);
    RecoverKeepsSound(cfg, w, i.user, i.now);
    assert GenerationFits(w.db.generations[id], w.history.log, id);
    RefineFound(cfg, w, i, draft, id);
  }

  // Adopting.

  /** A suggestion for the Draft. */
  predicate Suggests(db: Db, i: AdoptInput, draft: Id) {
    && i.generation in db.generations
    && var g := db.generations[i.generation];
    && g.user == i.user && g.operation == GoalRefine && g.draft == Some(draft) && g.status == Succeeded
    && (i.goal.Some? ==> i.goal.value in db.goals && i.goalRevision == Some(db.goals[i.goal.value].revision))
  }

  /** The Draft still holds the very text that was refined. */
  predicate AdoptOpen(db: Db, i: AdoptInput, draft: Id)
    requires draft in db.drafts
  {
    && Suggests(db, i, draft)
    && var d, g := db.drafts[draft], db.generations[i.generation];
    && g.adopted == None && d.revision == i.expected && g.targetRevision <= d.revision && g.source == Some(d.body)
  }

  /** The suggestion was adopted, and the Draft still is as the adoption left it. */
  predicate AdoptedAsIs(db: Db, i: AdoptInput, draft: Id)
    requires draft in db.drafts
  {
    && Suggests(db, i, draft)
    && var d, g := db.drafts[draft], db.generations[i.generation];
    && g.adopted == Some(d.revision) && g.output == Some(d.body)
  }

  /** The Draft holds the suggestion, and the suggestion its mark. */
  predicate AdoptMakes(db: Db, i: AdoptInput, draft: Id, x: Db)
    requires draft in db.drafts && i.generation in db.generations
  {
    var d, g := db.drafts[draft], db.generations[i.generation];
    && g.output.Some?
    && x == db.(drafts := db.drafts[draft := d.(body := g.output.value, revision := d.revision + 1)],
                generations := db.generations[i.generation := g.(adopted := Some(d.revision + 1))])
  }

  lemma AdoptFrom(w: World, i: AdoptInput, draft: Id)
    requires Meant(w.db, i.user, i.draft, i.goal, draft)
    requires Suggests(w.db, i, draft) ==> w.db.generations[i.generation].output.Some?
    ensures var s := AdoptSuggestion(w, i);
            && (s.answer == Done <==> AdoptOpen(w.db, i, draft))
            && (s.answer == Replayed <==> AdoptedAsIs(w.db, i, draft))
            && (s.answer == Refused(AlreadyAdopted) <==>
                  && Suggests(w.db, i, draft) && w.db.generations[i.generation].adopted.Some?
                  && !AdoptedAsIs(w.db, i, draft))
            && (if s.answer == Done
                then AdoptMakes(w.db, i, draft, s.world.db) && s.world.history == w.history
                else s.world == w)
  {
    MeantDraft(w.db, i.user, i.draft, i.goal, draft);
  }

  /**
   A suggestion is adopted exactly over the text it refines; repeated, it is a replay while the Draft is as the
   adoption left it, and refused as adopted otherwise.
   */
  lemma AdoptIff(cfg: Config, w: World, i: AdoptInput, draft: Id)
    requires Sound(cfg, w) && Means(w.db, i.user, i.draft, i.goal, draft)
    ensures var s := AdoptSuggestion(w, i);
            && (s.answer == Done <==> AdoptOpen(w.db, i, draft))
            && (s.answer == Replayed <==> AdoptedAsIs(w.db, i, draft))
            && (s.answer == Refused(AlreadyAdopted) <==>
                  && Suggests(w.db, i, draft) && w.db.generations[i.generation].adopted.Some?
                  && !AdoptedAsIs(w.db, i, draft))
            && (if s.answer == Done
                then i.generation in w.db.generations && AdoptMakes(w.db, i, draft, s.world.db) &&
                     s.world.history == w.history
                else s.world == w)
  {
    MeansMeant(w.db, i.user, i.draft, i.goal, draft);
    if i.generation in w.db.generations {
      assert GenerationFits(w.db.generations[i.generation], w.history.log, i.generation);
    }
    AdoptFrom(w, i, draft);
  }

  lemma AdoptNeedsDraft(w: World, i: AdoptInput)
    requires forall d :: d in w.db.drafts ==> !Means(w.db, i.user, i.draft, i.goal, d)
    ensures var s := AdoptSuggestion(w, i); s.answer != Done && s.answer != Replayed && s.world == w
  {
    var draft := RefineDraft(w.db, i.user, i.draft, i.goal);
    assert draft.Some? && DraftFits(w.db.drafts[draft.value], i.goal) ==>
      Means(w.db, i.user, i.draft, i.goal, draft.value);
  }
}
