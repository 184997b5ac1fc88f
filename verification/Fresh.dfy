/** What a command that changed something checks of its answer, read back, before it commits. */
module Fresh {
  import opened Base
  import opened Rows
  import opened Keys
  import opened Schema
  import opened Views
  import opened UseCases
  import opened Queries
  import GoalDomain

  predicate SameVersion(g: GoalView, c: CycleView) { g.versionId == c.row.version && g.version == c.version }

  predicate Unwritten(c: Cycle) {
    && c.plan == "" && c.doing == "" && c.check == "" && c.action == ""
    && c.revisions == Revisions(0, 0, 0, 0, 0)
  }

  predicate WorksOn(g: GoalView, cycle: Id, sequence: nat) {
    && g.row.status == ActiveCycle && ValidWork(g)
    && g.work.value.cycle == cycle && g.work.value.sequence == sequence
  }

  predicate FreshCompletion(g: GoalView, c: CycleView, d: Draft, i: CompleteInput) {
    && ValidCycleView(c, i.goal, i.cycle) && c.row.status == Completed && c.row.completedAt.Some?
    && g.id == i.goal && g.row.revision == i.goalRevision + 1 && SameVersion(g, c)
    && g.row.status == GoalReview && ValidWork(g)
    && g.work.value == ReviewWork(i.draft, i.cycle, c.row.sequence)
    && d == Draft(i.user, Review(i.goal, c.row.version, i.cycle), c.version.body, c.version.signal, 0)
  }

  ghost predicate CompletionReads(db: Db, i: CompleteInput) {
    && LoadGoalView(db, i.user, i.goal).Ok? && LoadCycleView(db, i.user, i.goal, i.cycle).Ok?
    && DraftOfCycle(db, i.user, i.goal, i.cycle) == Some(i.draft) && i.draft in db.drafts
    && FreshCompletion(LoadGoalView(db, i.user, i.goal).value, LoadCycleView(db, i.user, i.goal, i.cycle).value,
                       db.drafts[i.draft], i)
  }

  predicate FreshReplan(g: GoalView, c: CycleView, n: CycleView, i: ReplanInput, canceled: Cycle) {
    && ValidCycleView(c, i.goal, i.cycle) && ValidCycleView(n, i.goal, i.next)
    && c.row.status == Canceled && c.row.reason == Some(Replanned) && c.row.canceledAt.Some?
    && n.row.sequence == c.row.sequence + 1 && n.row.version == c.row.version && n.version == c.version
    && n.row.status == Active && Unwritten(n.row) && n.row.reviewDate == None && n.row.scheduleRevision == 0
    && n.previous == None
    && c.row.scheduleRevision == canceled.scheduleRevision && c.row.reviewDate == canceled.reviewDate
    && g.id == i.goal && g.row.revision == i.goalRevision + 1 && SameVersion(g, n)
    && g.row.nextSequence == n.row.sequence + 1 && WorksOn(g, i.next, n.row.sequence)
  }

  ghost predicate ReplanReads(db: Db, i: ReplanInput, canceled: Cycle) {
    && LoadGoalView(db, i.user, i.goal).Ok? && LoadCycleView(db, i.user, i.goal, i.cycle).Ok? &&
        LoadCycleView(db, i.user, i.goal, i.next).Ok?
    && FreshReplan(LoadGoalView(db, i.user, i.goal).value, LoadCycleView(db, i.user, i.goal, i.cycle).value,
                   LoadCycleView(db, i.user, i.goal, i.next).value, i, canceled)
  }

  predicate FreshContinue(g: GoalView, c: CycleView, i: ContinueInput, trigger: Id, goal: Goal, cycle: Cycle,
                          version: Version)
  {
    && ValidCycleView(c, i.goal, i.cycle) && c.row.status == Active
    && c.previous.Some? && c.previous.value.cycle == trigger
    && c.row.version == cycle.version && c.version == version && c.row.sequence == cycle.sequence && Unwritten(c.row)
    && g.id == i.goal && g.row.revision == i.goalRevision + 1 && SameVersion(g, c)
    && g.row.nextSequence == goal.nextSequence && WorksOn(g, i.cycle, cycle.sequence)
  }

  ghost predicate ContinueReads(db: Db, i: ContinueInput, trigger: Id, goal: Goal, cycle: Cycle, version: Version) {
    && LoadGoalView(db, i.user, i.goal).Ok? && LoadCycleView(db, i.user, i.goal, i.cycle).Ok?
    && FreshContinue(LoadGoalView(db, i.user, i.goal).value, LoadCycleView(db, i.user, i.goal, i.cycle).value, i,
        trigger, goal, cycle, version)
  }

  predicate FreshEnd(g: GoalView, i: TerminateInput, terminated: Goal) {
    && g.id == i.goal && g.row.status == i.outcome && g.row.revision == i.goalRevision + 1
    && g.row.terminalAt.Some? && g.row.terminalAt == terminated.terminalAt && g.work.None? && ValidWork(g)
    && g.row.nextSequence == terminated.nextSequence && g.version.number == terminated.currentVersion
  }

  predicate FreshCancel(g: GoalView, c: CycleView, i: TerminateInput, cycle: Id, canceled: Cycle) {
    && ValidCycleView(c, i.goal, cycle) && c.row.status == Canceled && c.row.canceledAt == g.row.terminalAt
    && c.row.reason == Some(ReasonOf(i.outcome)) && c.row == canceled && SameVersion(g, c)
  }

  /** A termination of an active Cycle shows the Cycle it canceled; one of a review keeps the Version it reviewed. */
  ghost predicate ActiveEndReads(db: Db, i: TerminateInput, cycle: Id, terminated: Goal, canceled: Cycle) {
    && LoadGoalView(db, i.user, i.goal).Ok? && LoadCycleView(db, i.user, i.goal, cycle).Ok?
    && FreshEnd(LoadGoalView(db, i.user, i.goal).value, i, terminated)
    && FreshCancel(LoadGoalView(db, i.user, i.goal).value, LoadCycleView(db, i.user, i.goal, cycle).value, i, cycle,
                   canceled)
  }

  ghost predicate ReviewEndReads(db: Db, i: TerminateInput, terminated: Goal, versionId: Id, version: Version) {
    && LoadGoalView(db, i.user, i.goal).Ok?
    && FreshEnd(LoadGoalView(db, i.user, i.goal).value, i, terminated)
    && LoadGoalView(db, i.user, i.goal).value.versionId == versionId
    && LoadGoalView(db, i.user, i.goal).value.version == version
  }

  // What a step leaves for its command to read back.

  /** A new Goal and its first Cycle can be read. */
  ghost predicate Readable(db: Db, user: Id, goal: Id, cycle: Id) {
    Indexed(db) && StartReplayOk(db, user, goal, cycle)
  }

  /** What a continuation leaves can be read back. */
  ghost predicate Continuable(db: Db, history: History, i: ContinueInput) {
    var step := UseCases.ContinueReview(World(db, history), i);
    step.answer == Created(i.cycle) && i.goal in db.goals && ReviewDraft(db, i.user, i.goal).Some?
      && CurrentVersion(db, i.goal).Some? ==>
      var d := db.drafts[ReviewDraft(db, i.user, i.goal).value];
      var current := CurrentVersion(db, i.goal).value;
      var continued :=
        GoalDomain.ContinueReview(i.goal, db.goals[i.goal], current, db.versions[current], d, i.version,
                                  ContinueClaim(i));
      && d.kind.Review? && continued.Ok? && Indexed(step.world.db)
      && ContinueReads(step.world.db, i, d.kind.cycle, continued.value.goal, continued.value.cycle,
                       if continued.value.version.Some? then continued.value.version.value else db.versions[current])
  }

  ghost predicate ActiveEndable(before: Db, after: Db, i: TerminateInput) {
    && Indexed(after) && i.goal in after.goals && i.cycle.Some? && i.cycle.value in after.cycles
    && ActiveEndReads(after, i, i.cycle.value, after.goals[i.goal], after.cycles[i.cycle.value])
  }

  ghost predicate ReviewEndable(before: Db, after: Db, i: TerminateInput) {
    && Indexed(after) && i.goal in after.goals && i.goal in before.goals && CurrentVersion(before, i.goal).Some?
    && ReviewEndReads(after, i, after.goals[i.goal], CurrentVersion(before, i.goal).value,
        before.versions[CurrentVersion(before, i.goal).value])
  }
}
