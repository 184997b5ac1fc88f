/** The invariant of every reachable state, and the steps that only write rows. */
module Soundness {
  import opened Base
  import opened Rows
  import opened MapSum
  import opened Keys
  import opened Schema
  import opened Ledger
  import opened LedgerInvariant
  import opened Text
  import opened Views
  import opened Lifecycle
  import opened LifecycleSteps
  import opened LifecycleTransitions
  import opened LifecycleEdges
  import opened Targets
  import opened UseCases
  import opened Outcomes

  /** Identifiers are handed out once: every row's identifier has been issued. */
  ghost predicate IssuedInv(db: Db, history: History) {
    && db.users <= history.issued && db.goals.Keys <= history.issued && db.versions.Keys <= history.issued
    && db.cycles.Keys <= history.issued && db.drafts.Keys <= history.issued && history.log.Keys <= history.issued
    && (forall id :: id in history.log ==> history.log[id].user in history.issued)
  }

  ghost predicate WithinGoalLimit(limit: nat, goals: map<Id, Goal>, user: Id) {
    Sum(goals, ProgressingOf(user)) <= limit
  }

  /** No User has more Goals in progress than the limit. */
  ghost predicate GoalLimitInv(limit: nat, goals: map<Id, Goal>) {
    forall user :: WithinGoalLimit(limit, goals, user)
  }

  ghost predicate Sound(cfg: Config, w: World) {
    && IssuedInv(w.db, w.history)
    && LedgerInv(w.db, w.history.log) && Bounded(cfg.budget, w.db.months, w.history.log)
    && LifecycleInv(w.db) && TargetsInv(w.db, w.history.log)
    && GoalLimitInv(cfg.goalLimit, w.db.goals)
  }

  /** Goals that start no new progress keep the limit. */
  lemma GoalsKeepLimit(limit: nat, goals: map<Id, Goal>, goals': map<Id, Goal>)
    requires GoalLimitInv(limit, goals)
    requires forall id :: id in goals' ==> id in goals && goals'[id].user == goals[id].user &&
                                           (Progressing(goals'[id].status) ==> Progressing(goals[id].status))
    ensures GoalLimitInv(limit, goals')
  {
    forall user ensures WithinGoalLimit(limit, goals', user) {
      assert WithinGoalLimit(limit, goals, user);
      SumAtMost(goals', ProgressingOf(user), goals, ProgressingOf(user));
    }
  }

  lemma StartKeepsLimit(limit: nat, goals: map<Id, Goal>, id: Id, g: Goal)
    requires GoalLimitInv(limit, goals) && id !in goals && Sum(goals, ProgressingOf(g.user)) < limit
    ensures GoalLimitInv(limit, goals[id := g])
  {
    var goals' := goals[id := g];
    forall user ensures WithinGoalLimit(limit, goals', user) {
      assert WithinGoalLimit(limit, goals, user);
      SumWrite(goals, id, g, ProgressingOf(user));
    }
  }

  lemma SameSound(cfg: Config, w: World, x: World)
    requires Sound(cfg, w) && x == w
    ensures Sound(cfg, x)
  {
  }

  /** A step that moves no money and touches no generation. */
  ghost predicate MovesNothing(w: World, x: World) {
    && x.db.generations == w.db.generations && x.db.usages == w.db.usages && x.db.months == w.db.months
    && w.db.users <= x.db.users && x.history.log == w.history.log
  }

  lemma RowsKeepSound(cfg: Config, w: World, x: World)
    requires Sound(cfg, w) && MovesNothing(w, x) && KeepsTargets(w.db, x.db)
    requires LifecycleInv(x.db) && IssuedInv(x.db, x.history) && GoalLimitInv(cfg.goalLimit, x.db.goals)
    ensures Sound(cfg, x)
  {
    FrameLedger(w.db, x.db, w.history.log);
    KeepsTargetsInv(w.db, x.db, w.history.log);
  }

  /** An edit leaves the Action alone, or nothing runs on the Cycle. */
  ghost predicate LeavesAction(db: Db, id: Id, d: Cycle)
    requires id in db.cycles
  {
    || (d.action == db.cycles[id].action && d.revisions.action == db.cycles[id].revisions.action)
    || !RunsOnCycle(db.generations, d.user, d.goal, id)
  }

  lemma EditKeepsTargets(db: Db, id: Id, d: Cycle)
    requires id in db.cycles && Edits(db.cycles[id], d) && LeavesAction(db, id, d)
    ensures KeepsTargets(db, db.(cycles := db.cycles[id := d]))
  {
  }

  lemma EditKeepsSound(cfg: Config, w: World, id: Id, d: Cycle)
    requires Sound(cfg, w) && id in w.db.cycles && Edits(w.db.cycles[id], d)
    requires LeavesAction(w.db, id, d)
    ensures Sound(cfg, w.(db := w.db.(cycles := w.db.cycles[id := d])))
  {
    EditKeepsLifecycle(w.db, id, d);
    EditKeepsTargets(w.db, id, d);
    RowsKeepSound(cfg, w, w.(db := w.db.(cycles := w.db.cycles[id := d])));
  }

  lemma DraftKeepsSound(cfg: Config, w: World, id: Id, d: Draft)
    requires Sound(cfg, w) && WritesDraft(w.db, id, d)
    ensures Sound(cfg,
                  w.(db := w.db.(drafts := w.db.drafts[id := d]),
                     history := w.history.(issued := w.history.issued + {id})))
  {
    WriteDraftKeepsLifecycle(w.db, id, d);
    RowsKeepSound(cfg, w,
                  w.(db := w.db.(drafts := w.db.drafts[id := d]),
                     history := w.history.(issued := w.history.issued + {id})));
  }

  lemma OverwriteKeepsSound(cfg: Config, w: World, id: Id, d: Draft)
    requires Sound(cfg, w) && id in w.db.drafts && WritesDraft(w.db, id, d)
    ensures Sound(cfg, WithDraft(w, id, d))
  {
    WriteDraftKeepsLifecycle(w.db, id, d);
    RowsKeepSound(cfg, w, WithDraft(w, id, d));
  }
}
