/** The use cases that move no money keep the invariant. */
module RowSteps {
  import opened Base
  import opened Rows
  import opened MapSum
  import opened Keys
  import opened Schema
  import opened Text
  import opened Views
  import opened Lifecycle
  import opened LifecycleSteps
  import opened LifecycleTransitions
  import opened LifecycleEdges
  import opened Targets
  import opened UseCases
  import opened Soundness
  import CycleDomain

  // Cycle content.

  lemma RunningCycleShape(db: Db, cycle: Id)
    requires LifecycleInv(db) && cycle in db.cycles
    ensures CycleShape(db.cycles[cycle]) && db.cycles[cycle].goal in db.goals
  {
    var goal := db.cycles[cycle].goal;
    assert GoalInv(db, goal);
    assert CycleFits(cycle, db.cycles[cycle], db.goals[goal], db.versions, db.cycles);
  }

  lemma SaveFrameEdits(c: Cycle, frame: Frame, text: string, expected: int, running: bool)
    requires CycleShape(c) && CycleDomain.SaveFrame(c, frame, text, expected, running).Ok?
    ensures var d := CycleDomain.SaveFrame(c, frame, text, expected, running).value;
            && Edits(c, d)
            && (frame != ActionFrame || d == c ==> d.action == c.action && d.revisions.action == c.revisions.action)
  {
    NormalizeFrameFixpoint(text);
  }

  lemma SaveFrameKeepsSound(cfg: Config, w: World, user: Id, goal: Id, cycle: Id, frame: Frame, text: string,
                            expected: int)
    requires Sound(cfg, w)
    ensures Sound(cfg, SaveFrame(w, user, goal, cycle, frame, text, expected).world)
  {
    var x := SaveFrame(w, user, goal, cycle, frame, text, expected).world;
    if x != w {
      RunningCycleShape(w.db, cycle);
      SaveFrameEdits(w.db.cycles[cycle], frame, text, expected,
                     frame == ActionFrame && RunsOnCycle(w.db.generations, user, goal, cycle));
      EditKeepsSound(cfg, w, cycle, x.db.cycles[cycle]);
    }
  }

  lemma ChangeScheduleEdits(c: Cycle, date: Option<int>, expected: int)
    requires CycleShape(c) && CycleDomain.ChangeReviewSchedule(c, date, expected).Ok?
    ensures var d := CycleDomain.ChangeReviewSchedule(c, date, expected).value;
            Edits(c, d) && d.action == c.action && d.revisions.action == c.revisions.action
  {
  }

  lemma ChangeScheduleKeepsSound(cfg: Config, w: World, user: Id, goal: Id, cycle: Id, date: Option<int>, expected: int)
    requires Sound(cfg, w)
    ensures Sound(cfg, ChangeSchedule(w, user, goal, cycle, date, expected).world)
  {
    var x := ChangeSchedule(w, user, goal, cycle, date, expected).world;
    if x != w {
      RunningCycleShape(w.db, cycle);
      ChangeScheduleEdits(w.db.cycles[cycle], date, expected);
      EditKeepsSound(cfg, w, cycle, x.db.cycles[cycle]);
    }
  }

  // Drafts.

  lemma CreateDraftKeepsSound(cfg: Config, w: World, user: Id, body: string, id: Id)
    requires Sound(cfg, w) && id !in w.history.issued
    ensures Sound(cfg, CreateDraft(w, user, body, id).world)
  {
    var x := CreateDraft(w, user, body, id).world;
    if x != w {
      NormalizeBodyFixpoint(body, true);
      DraftKeepsSound(cfg, w, id, x.db.drafts[id]);
    }
  }

  lemma SaveDraftRowKeepsSound(cfg: Config, w: World, id: Id, body: string, patch: Patch, expected: int,
                               conflict: Error)
    requires Sound(cfg, w) && id in w.db.drafts
    ensures Sound(cfg, SaveDraftRow(w, id, body, patch, expected, conflict).world)
  {
    var x := SaveDraftRow(w, id, body, patch, expected, conflict).world;
    if x != w {
      NormalizeBodyFixpoint(body, true);
      NormalizeSignalFixpoint(Patched(w.db.drafts[id], patch));
      OverwriteKeepsSound(cfg, w, id, x.db.drafts[id]);
    }
  }

  // Users.

  lemma CreateUserEffect(w: World, user: Id)
    requires Rooted(w.db) && IssuedInv(w.db, w.history)
    ensures var x := CreateUser(w, user).world;
            && MovesNothing(w, x) && KeepsTargets(w.db, x.db) && Prunes(w.db, x.db) && Rooted(x.db)
            && IssuedInv(x.db, x.history)
            && x.db.goals == w.db.goals
  {
  }

  lemma CreateUserKeepsSound(cfg: Config, w: World, user: Id)
    requires Sound(cfg, w)
    ensures Sound(cfg, CreateUser(w, user).world)
  {
    var x := CreateUser(w, user).world;
    CreateUserEffect(w, user);
    PruneKeepsLifecycle(w.db, x.db);
    RowsKeepSound(cfg, w, x);
  }

  // Transitions of a Goal.

  /** What the five tables of the lifecycle do not show. */
  ghost predicate MovesGoal(w: World, x: World) {
    && MovesNothing(w, x) && IssuedInv(x.db, x.history)
    && forall id :: id in x.db.goals ==>
         && id in w.db.goals && x.db.goals[id].user == w.db.goals[id].user
         && (Progressing(x.db.goals[id].status) ==> Progressing(w.db.goals[id].status))
  }

  lemma MovesGoalKeepsSound(cfg: Config, w: World, x: World)
    requires Sound(cfg, w) && MovesGoal(w, x) && KeepsTargets(w.db, x.db) && LifecycleInv(x.db)
    ensures Sound(cfg, x)
  {
    GoalsKeepLimit(cfg.goalLimit, w.db.goals, x.db.goals);
    RowsKeepSound(cfg, w, x);
  }

  lemma CompleteEffect(w: World, i: CompleteInput)
    requires i.draft !in w.db.drafts && CompleteCycle(w, i).world != w
    ensures var x := CompleteCycle(w, i).world;
            && i.goal in x.db.goals && i.cycle in x.db.cycles && i.draft in x.db.drafts
            && var g, c, d := x.db.goals[i.goal], x.db.cycles[i.cycle], x.db.drafts[i.draft];
            && x == World(AfterComplete(w.db, i.goal, g, i.cycle, c, i.draft, d),
                          w.history.(issued := w.history.issued + {i.draft}))
            && Completes(w.db, i.goal, g, i.cycle, c, i.draft, d)
            && !RunsOnCycle(w.db.generations, i.user, i.goal, i.cycle) && c.user == i.user && c.goal == i.goal
  {
  }

  lemma CompleteMoves(w: World, goal: Id, g: Goal, cycle: Id, c: Cycle, draft: Id, d: Draft)
    requires Completes(w.db, goal, g, cycle, c, draft, d) && IssuedInv(w.db, w.history)
    ensures MovesGoal(w,
                      World(AfterComplete(w.db, goal, g, cycle, c, draft, d),
                            w.history.(issued := w.history.issued + {draft})))
  {
  }

  lemma CompleteTargets(db: Db, goal: Id, g: Goal, cycle: Id, c: Cycle, draft: Id, d: Draft)
    requires Completes(db, goal, g, cycle, c, draft, d) && !RunsOnCycle(db.generations, c.user, goal, cycle)
    ensures KeepsTargets(db, AfterComplete(db, goal, g, cycle, c, draft, d))
  {
  }

  lemma CompleteKeepsSound(cfg: Config, w: World, i: CompleteInput)
    requires Sound(cfg, w) && i.draft !in w.history.issued
    ensures Sound(cfg, CompleteCycle(w, i).world)
  {
    var x := CompleteCycle(w, i).world;
    if x != w {
      CompleteEffect(w, i);
      var g, c, d := x.db.goals[i.goal], x.db.cycles[i.cycle], x.db.drafts[i.draft];
      CompleteMoves(w, i.goal, g, i.cycle, c, i.draft, d);
      CompleteTargets(w.db, i.goal, g, i.cycle, c, i.draft, d);
      CompleteKeepsLifecycle(w.db, i.goal, g, i.cycle, c, i.draft, d);
      MovesGoalKeepsSound(cfg, w, x);
    }
  }

  lemma ReplanEffect(w: World, i: ReplanInput)
    requires i.next !in w.db.cycles && ReplanCycle(w, i).world != w
    ensures var x := ReplanCycle(w, i).world;
            && i.goal in x.db.goals && i.cycle in x.db.cycles && i.next in x.db.cycles
            && var g, c, n := x.db.goals[i.goal], x.db.cycles[i.cycle], x.db.cycles[i.next];
            && x == World(AfterReplan(w.db, i.goal, g, i.cycle, c, i.next, n),
                          w.history.(issued := w.history.issued + {i.next}))
            && Replans(w.db, i.goal, g, i.cycle, c, i.next, n)
            && !RunsOnCycle(w.db.generations, i.user, i.goal, i.cycle) && c.user == i.user && c.goal == i.goal
  {
  }

  lemma ReplanMoves(w: World, goal: Id, g: Goal, cycle: Id, c: Cycle, next: Id, n: Cycle)
    requires Replans(w.db, goal, g, cycle, c, next, n) && IssuedInv(w.db, w.history)
    ensures MovesGoal(w,
                      World(AfterReplan(w.db, goal, g, cycle, c, next, n),
                            w.history.(issued := w.history.issued + {next})))
  {
  }

  lemma ReplanTargets(db: Db, goal: Id, g: Goal, cycle: Id, c: Cycle, next: Id, n: Cycle)
    requires Replans(db, goal, g, cycle, c, next, n) && !RunsOnCycle(db.generations, c.user, goal, cycle)
    ensures KeepsTargets(db, AfterReplan(db, goal, g, cycle, c, next, n))
  {
  }

  lemma ReplanKeepsSound(cfg: Config, w: World, i: ReplanInput)
    requires Sound(cfg, w) && i.next !in w.history.issued
    ensures Sound(cfg, ReplanCycle(w, i).world)
  {
    var x := ReplanCycle(w, i).world;
    if x != w {
      ReplanEffect(w, i);
      var g, c, n := x.db.goals[i.goal], x.db.cycles[i.cycle], x.db.cycles[i.next];
      ReplanMoves(w, i.goal, g, i.cycle, c, i.next, n);
      ReplanTargets(w.db, i.goal, g, i.cycle, c, i.next, n);
      ReplanKeepsLifecycle(w.db, i.goal, g, i.cycle, c, i.next, n);
      MovesGoalKeepsSound(cfg, w, x);
    }
  }

  lemma TerminateActiveEffect(w: World, i: TerminateInput)
    requires i.state == ActiveCycle && Terminate(w, i).world != w
    ensures var x := Terminate(w, i).world;
            && i.goal in x.db.goals && i.cycle.Some? && i.cycle.value in x.db.cycles
            && var cycle := i.cycle.value;
            && var g, c := x.db.goals[i.goal], x.db.cycles[cycle];
            && x == w.(db := AfterTerminateActive(w.db, i.goal, g, cycle, c))
            && TerminatesActive(w.db, i.goal, g, cycle, c)
            && !RunsOnCycle(w.db.generations, i.user, i.goal, cycle) && c.user == i.user && c.goal == i.goal
  {
  }

  lemma TerminateActiveMoves(w: World, goal: Id, g: Goal, cycle: Id, c: Cycle)
    requires TerminatesActive(w.db, goal, g, cycle, c) && IssuedInv(w.db, w.history)
    ensures MovesGoal(w, w.(db := AfterTerminateActive(w.db, goal, g, cycle, c)))
  {
  }

  lemma TerminateActiveTargets(db: Db, goal: Id, g: Goal, cycle: Id, c: Cycle)
    requires TerminatesActive(db, goal, g, cycle, c) && !RunsOnCycle(db.generations, c.user, goal, cycle)
    ensures KeepsTargets(db, AfterTerminateActive(db, goal, g, cycle, c))
  {
  }

  lemma TerminateActiveKeepsSound(cfg: Config, w: World, i: TerminateInput)
    requires Sound(cfg, w) && i.state == ActiveCycle
    ensures Sound(cfg, Terminate(w, i).world)
  {
    var x := Terminate(w, i).world;
    if x != w {
      TerminateActiveEffect(w, i);
      var g, c := x.db.goals[i.goal], x.db.cycles[i.cycle.value];
      TerminateActiveMoves(w, i.goal, g, i.cycle.value, c);
      TerminateActiveTargets(w.db, i.goal, g, i.cycle.value, c);
      TerminateActiveKeepsLifecycle(w.db, i.goal, g, i.cycle.value, c);
      MovesGoalKeepsSound(cfg, w, x);
    }
  }
}
