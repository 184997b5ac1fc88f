/**
 A command that changed something reads its answer back, and the answer passes its validator: no command fails at its
 end.
 */
module Answers {
  import opened Base
  import opened Rows
  import opened Keys
  import opened Schema
  import opened Text
  import opened Views
  import opened Lifecycle
  import opened UseCases
  import opened Reads
  import opened Fresh
  import opened Queries
  import GoalDomain

  // What the rows of a sound database say about the Goal read.

  lemma CurrentVersionIs(db: Db, goal: Id, version: Id)
    requires LifecycleInv(db) && goal in db.goals && version in db.versions
    requires db.versions[version].goal == goal && db.versions[version].number == db.goals[goal].currentVersion
    ensures CurrentVersion(db, goal) == Some(version)
  {
    LookupFinds(db.versions, VersionKey, version);
  }

  lemma ReadShowsActive(db: Db, user: Id, goal: Id, cycle: Id)
    requires LoadGoalView(db, user, goal).Ok? && Lookup(db.cycles, ActiveKey, goal) == Some(cycle)
    requires db.goals[goal].status == ActiveCycle && CurrentVersion(db, goal) == Some(db.cycles[cycle].version)
    ensures ShowsActive(LoadGoalView(db, user, goal).value, db, goal, cycle)
  {
  }

  /** The Goal read shows the active Cycle and its Version. */
  predicate ShowsActive(g: GoalView, db: Db, goal: Id, cycle: Id) {
    && goal in db.goals && cycle in db.cycles && db.cycles[cycle].version in db.versions
    && var c := db.cycles[cycle];
    && g.row == db.goals[goal] && g.row.status == ActiveCycle && g.versionId == c.version
    && g.version == db.versions[c.version]
    && g.work == Some(CycleWork(cycle, c.sequence, c.reviewDate, c.scheduleRevision))
  }

  lemma ActiveGoalView(db: Db, user: Id, goal: Id, cycle: Id)
    requires LifecycleInv(db) && OwnsGoal(db, user, goal) && cycle in db.cycles
    requires db.cycles[cycle].goal == goal && db.cycles[cycle].status == Active
    ensures LoadGoalView(db, user, goal).Ok? && GoalReadOk(db, user, goal)
    ensures ShowsActive(LoadGoalView(db, user, goal).value, db, goal, cycle)
  {
    GoalReadAccepted(db, user, goal);
    OnlyActive(db, cycle);
    CycleRow(db, cycle);
    CurrentVersionIs(db, goal, db.cycles[cycle].version);
    ReadShowsActive(db, user, goal, cycle);
  }

  lemma ReadShowsReview(db: Db, user: Id, goal: Id, draft: Id)
    requires LoadGoalView(db, user, goal).Ok? && ReviewDraft(db, user, goal) == Some(draft)
    requires db.goals[goal].status == GoalReview && CurrentVersion(db, goal) == Some(db.drafts[draft].kind.baseVersion)
    ensures ShowsReview(LoadGoalView(db, user, goal).value, db, goal, draft)
  {
  }

  /** The Goal read shows the Review Draft, the Cycle that opened it and the Version it is based on. */
  predicate ShowsReview(g: GoalView, db: Db, goal: Id, draft: Id) {
    && goal in db.goals && draft in db.drafts && db.drafts[draft].kind.Review?
    && var d := db.drafts[draft];
    && g.row == db.goals[goal] && g.row.status == GoalReview && g.versionId == d.kind.baseVersion
    && g.versionId in db.versions && g.version == db.versions[g.versionId] && d.kind.cycle in db.cycles
    && g.work == Some(ReviewWork(draft, d.kind.cycle, db.cycles[d.kind.cycle].sequence))
  }

  lemma ReviewGoalView(db: Db, user: Id, goal: Id, draft: Id)
    requires LifecycleInv(db) && OwnsGoal(db, user, goal) && draft in db.drafts
    requires db.drafts[draft].user == user && db.drafts[draft].kind.Review? && db.drafts[draft].kind.goal == goal
    ensures LoadGoalView(db, user, goal).Ok? && GoalReadOk(db, user, goal) && ReviewDraft(db, user, goal) == Some(draft)
    ensures ShowsReview(LoadGoalView(db, user, goal).value, db, goal, draft)
  {
    GoalReadAccepted(db, user, goal);
    LookupFinds(db.drafts, ReviewKey, draft);
    ReviewRow(db, goal);
    CurrentVersionIs(db, goal, db.drafts[draft].kind.baseVersion);
    ReadShowsReview(db, user, goal, draft);
  }

  lemma EndedGoalView(db: Db, user: Id, goal: Id)
    requires LifecycleInv(db) && OwnsGoal(db, user, goal) && !Progressing(db.goals[goal].status)
    ensures LoadGoalView(db, user, goal).Ok? && GoalReadOk(db, user, goal) && CurrentVersion(db, goal).Some?
    ensures var g := LoadGoalView(db, user, goal).value;
            && g.row == db.goals[goal] && g.work == None && g.row.terminalAt.Some?
            && g.versionId == CurrentVersion(db, goal).value && g.version == db.versions[g.versionId]
            && g.version.number == g.row.currentVersion
  {
    GoalReadAccepted(db, user, goal);
    CurrentRow(db, goal);
    ActiveRow(db, goal);
    ReviewRow(db, goal);
  }

  /** What the Cycle read shows of the rows it joins. */
  ghost predicate ShowsRows(c: CycleView, db: Db, cycle: Id) {
    && c.id == cycle && cycle in db.cycles && c.row == db.cycles[cycle] && c.row.version in db.versions
    && c.version == db.versions[c.row.version]
    && (c.row.status == Active && c.row.sequence > 1 ==> Predecessor(db, cycle).Some?)
    && if c.row.status == Active && c.row.sequence > 1
       then ShowsPredecessor(c, db, Predecessor(db, cycle).value)
       else c.predecessor == None && c.previous == None
  }

  /** The Cycle before, and its Action if it was completed. */
  predicate ShowsPredecessor(c: CycleView, db: Db, before: Id) {
    && before in db.cycles && db.cycles[before].version in db.versions
    && var p := db.cycles[before];
    && var number := db.versions[p.version].number;
    && c.predecessor == Some(PredecessorView(before, p.sequence, p.status, p.reason, number))
    && c.previous ==
         if p.status == Completed then Some(PreviousAction(before, p.sequence, number, p.action)) else None
  }

  lemma CycleReadShows(db: Db, user: Id, goal: Id, cycle: Id)
    requires LoadCycleView(db, user, goal, cycle).Ok?
    ensures ShowsRows(LoadCycleView(db, user, goal, cycle).value, db, cycle)
  {
  }

  lemma CycleViewIs(db: Db, user: Id, goal: Id, cycle: Id)
    requires LifecycleInv(db) && OwnsCycle(db, user, goal, cycle)
    ensures OwnsGoal(db, user, goal) && LoadCycleView(db, user, goal, cycle).Ok?
    ensures var c := LoadCycleView(db, user, goal, cycle).value;
            ValidCycleView(c, goal, cycle) && ShowsRows(c, db, cycle)
  {
    CycleReadAccepted(db, user, goal, cycle);
    CycleReadShows(db, user, goal, cycle);
  }

  // Rescheduling.

  lemma ScheduleLeaves(w: World, user: Id, goal: Id, cycle: Id, date: Option<int>, expected: int)
    requires ChangeSchedule(w, user, goal, cycle, date, expected).answer == Done
    ensures OwnsCycle(ChangeSchedule(w, user, goal, cycle, date, expected).world.db, user, goal, cycle)
  {
  }

  /** A new review date answers with the Cycle, which passes its validator. */
  lemma ScheduleReadsBack(w: World, user: Id, goal: Id, cycle: Id, date: Option<int>, expected: int)
    requires LifecycleInv(ChangeSchedule(w, user, goal, cycle, date, expected).world.db)
    requires ChangeSchedule(w, user, goal, cycle, date, expected).answer == Done
    ensures CycleReadOk(ChangeSchedule(w, user, goal, cycle, date, expected).world.db, user, goal, cycle)
  {
    ScheduleLeaves(w, user, goal, cycle, date, expected);
    CycleReadAccepted(ChangeSchedule(w, user, goal, cycle, date, expected).world.db, user, goal, cycle);
  }

  // Completing.

  lemma CompletionReadable(db: Db, i: CompleteInput)
    requires LifecycleInv(db) && OwnsGoal(db, i.user, i.goal) && OwnsCycle(db, i.user, i.goal, i.cycle)
             && i.draft in db.drafts
    requires db.goals[i.goal].revision == i.goalRevision + 1 && db.cycles[i.cycle].status == Completed
    requires var version := db.cycles[i.cycle].version;
             version in db.versions &&
             db.drafts[i.draft] == Draft(i.user, Review(i.goal, version, i.cycle), db.versions[version].body,
                 db.versions[version].signal, 0)
    ensures CompletionReads(db, i)
  {
    ReviewGoalView(db, i.user, i.goal, i.draft);
    CycleViewIs(db, i.user, i.goal, i.cycle);
  }

  lemma CompleteLeaves(w: World, i: CompleteInput)
    requires CompleteCycle(w, i).answer == Created(i.draft)
    ensures var db := CompleteCycle(w, i).world.db;
            && OwnsGoal(db, i.user, i.goal) && OwnsCycle(db, i.user, i.goal, i.cycle) && i.draft in db.drafts
            && db.goals[i.goal].revision == i.goalRevision + 1 && db.cycles[i.cycle].status == Completed
            && var version := db.cycles[i.cycle].version;
            version in db.versions &&
            db.drafts[i.draft] ==
              Draft(i.user, Review(i.goal, version, i.cycle), db.versions[version].body, db.versions[version].signal, 0)
  {
  }

  /** A completion answers with the completed Cycle, the Goal in review and its new Draft. */
  lemma CompleteReadsBack(w: World, i: CompleteInput)
    requires LifecycleInv(CompleteCycle(w, i).world.db) && CompleteCycle(w, i).answer == Created(i.draft)
    ensures CompletionReads(CompleteCycle(w, i).world.db, i)
  {
    CompleteLeaves(w, i);
    CompletionReadable(CompleteCycle(w, i).world.db, i);
  }

  // Replanning.

  lemma ReplanReadable(db: Db, i: ReplanInput)
    requires LifecycleInv(db) && OwnsGoal(db, i.user, i.goal) && OwnsCycle(db, i.user, i.goal, i.cycle) &&
               OwnsCycle(db, i.user, i.goal, i.next)
    requires var c, n := db.cycles[i.cycle], db.cycles[i.next];
             && db.goals[i.goal].revision == i.goalRevision + 1 && db.goals[i.goal].nextSequence == n.sequence + 1
             && c.status == Canceled && c.reason == Some(Replanned) && c.canceledAt.Some?
             && n.sequence == c.sequence + 1 && n.version == c.version
             && n.status == Active && Unwritten(n) && n.reviewDate == None && n.scheduleRevision == 0
    ensures ReplanReads(db, i, db.cycles[i.cycle])
  {
    ActiveGoalView(db, i.user, i.goal, i.next);
    CycleViewIs(db, i.user, i.goal, i.cycle);
    CycleViewIs(db, i.user, i.goal, i.next);
    CycleRow(db, i.cycle);
    SameSequence(db, Predecessor(db, i.next).value, i.cycle);
  }

  lemma ReplanLeaves(w: World, i: ReplanInput)
    requires ReplanCycle(w, i).answer == Created(i.next) && i.next !in w.db.cycles
    ensures var db := ReplanCycle(w, i).world.db;
            && OwnsGoal(db, i.user, i.goal) && OwnsCycle(db, i.user, i.goal, i.cycle)
            && OwnsCycle(db, i.user, i.goal, i.next)
            && var c, n := db.cycles[i.cycle], db.cycles[i.next];
            && db.goals[i.goal].revision == i.goalRevision + 1 && db.goals[i.goal].nextSequence == n.sequence + 1
            && c.status == Canceled && c.reason == Some(Replanned) && c.canceledAt.Some?
            && n.sequence == c.sequence + 1 && n.version == c.version
            && n.status == Active && Unwritten(n) && n.reviewDate == None && n.scheduleRevision == 0
  {
  }

  /** A replan answers with the canceled Cycle and its empty successor on the same Version. */
  lemma ReplanReadsBack(w: World, i: ReplanInput)
    requires LifecycleInv(ReplanCycle(w, i).world.db) && ReplanCycle(w, i).answer == Created(i.next)
             && i.next !in w.db.cycles
    ensures var db := ReplanCycle(w, i).world.db; i.cycle in db.cycles && ReplanReads(db, i, db.cycles[i.cycle])
  {
    ReplanLeaves(w, i);
    ReplanReadable(ReplanCycle(w, i).world.db, i);
  }

  // Continuing.

  ghost function ContinuedOf(w: World, i: ContinueInput): Result<GoalDomain.Continued, Error>
    requires i.goal in w.db.goals && ReviewDraft(w.db, i.user, i.goal).Some? && CurrentVersion(w.db, i.goal).Some?
  {
    var current := CurrentVersion(w.db, i.goal).value;
    GoalDomain.ContinueReview(i.goal, w.db.goals[i.goal], current, w.db.versions[current],
                              w.db.drafts[ReviewDraft(w.db, i.user, i.goal).value], i.version, ContinueClaim(i))
  }

  lemma ContinueReadable(db: Db, i: ContinueInput, trigger: Id, goal: Goal, cycle: Cycle, version: Version)
    requires LifecycleInv(db) && OwnsGoal(db, i.user, i.goal) && OwnsCycle(db, i.user, i.goal, i.cycle)
    requires db.goals[i.goal] == goal && goal.revision == i.goalRevision + 1
    requires db.cycles[i.cycle] == cycle && cycle.status == Active && Unwritten(cycle) && cycle.sequence > 1
    requires cycle.version in db.versions && db.versions[cycle.version] == version
    requires trigger in db.cycles && db.cycles[trigger].goal == i.goal
             && db.cycles[trigger].sequence == cycle.sequence - 1
    requires db.cycles[trigger].status == Completed
    ensures ContinueReads(db, i, trigger, goal, cycle, version)
  {
    ActiveGoalView(db, i.user, i.goal, i.cycle);
    CycleViewIs(db, i.user, i.goal, i.cycle);
    CycleRow(db, i.cycle);
    ActiveRow(db, i.goal);
    OnlyActive(db, i.cycle);
    SameSequence(db, Predecessor(db, i.cycle).value, trigger);
  }

  lemma ContinueLeaves(w: World, i: ContinueInput, trigger: Id)
    requires ContinueReview(w, i).answer == Created(i.cycle) && i.cycle !in w.db.cycles && i.version !in w.db.versions
    requires forall goal :: goal in w.db.goals ==> DraftsOf(w.db, goal)
    requires i.goal in w.db.goals && ReviewDraft(w.db, i.user, i.goal).Some? && CurrentVersion(w.db, i.goal).Some?
    requires trigger == w.db.drafts[ReviewDraft(w.db, i.user, i.goal).value].kind.cycle
             && w.db.goals[i.goal].nextSequence > 1
    ensures var db := ContinueReview(w, i).world.db;
            && OwnsGoal(db, i.user, i.goal) && OwnsCycle(db, i.user, i.goal, i.cycle) && ContinuedOf(w, i).Ok?
            && var c := ContinuedOf(w, i).value;
            && db.goals[i.goal] == c.goal && c.goal.revision == i.goalRevision + 1
            && db.cycles[i.cycle] == c.cycle && c.cycle.status == Active && Unwritten(c.cycle) && c.cycle.sequence > 1
            && c.cycle.version in db.versions
            && db.versions[c.cycle.version] ==
                (if c.version.Some? then c.version.value else w.db.versions[CurrentVersion(w.db, i.goal).value])
            && trigger in db.cycles && db.cycles[trigger].goal == i.goal
            && db.cycles[trigger].sequence == c.cycle.sequence - 1
            && db.cycles[trigger].status == Completed
  {
    assert DraftsOf(w.db, i.goal);
  }

  lemma EnoughCycles(db: Db, goal: Id)
    requires LifecycleInv(db) && goal in db.goals
    ensures db.goals[goal].nextSequence > 1
  {
    assert GoalInv(db, goal);
  }

  lemma ReviewsFit(db: Db)
    requires LifecycleInv(db)
    ensures forall goal :: goal in db.goals ==> DraftsOf(db, goal)
  {
    forall goal | goal in db.goals ensures DraftsOf(db, goal) {
      assert GoalInv(db, goal);
    }
  }

  /** A continuation answers with the next Cycle, after the very Cycle that was reviewed, on the Version it selected. */
  lemma ContinueReadsBack(w: World, i: ContinueInput)
    requires LifecycleInv(w.db) && i.cycle !in w.db.cycles && i.version !in w.db.versions
    requires LifecycleInv(ContinueReview(w, i).world.db) && Indexed(ContinueReview(w, i).world.db)
    ensures Continuable(w.db, w.history, i)
  {
    var db := ContinueReview(w, i).world.db;
    if ContinueReview(w, i).answer == Created(i.cycle) && i.goal in w.db.goals &&
      ReviewDraft(w.db, i.user, i.goal).Some? &&
       CurrentVersion(w.db, i.goal).Some? {
      var trigger := w.db.drafts[ReviewDraft(w.db, i.user, i.goal).value].kind.cycle;
      EnoughCycles(w.db, i.goal);
      ReviewsFit(w.db);
      ContinueLeaves(w, i, trigger);
      var c := ContinuedOf(w, i).value;
      ContinueReadable(db, i, trigger, c.goal, c.cycle, db.versions[c.cycle.version]);
    }
  }

  // Ending.

  lemma ActiveEndReadable(db: Db, i: TerminateInput, cycle: Id)
    requires LifecycleInv(db) && OwnsGoal(db, i.user, i.goal) && OwnsCycle(db, i.user, i.goal, cycle)
    requires var g, c := db.goals[i.goal], db.cycles[cycle];
             && g.status == i.outcome && !Progressing(i.outcome) && g.revision == i.goalRevision + 1
             && c.status == Canceled && c.reason == Some(ReasonOf(i.outcome)) && c.canceledAt == g.terminalAt
             && c.version in db.versions && db.versions[c.version].goal == i.goal
             && db.versions[c.version].number == g.currentVersion
    ensures ActiveEndReads(db, i, cycle, db.goals[i.goal], db.cycles[cycle])
  {
    EndedGoalView(db, i.user, i.goal);
    CycleViewIs(db, i.user, i.goal, cycle);
    CurrentVersionIs(db, i.goal, db.cycles[cycle].version);
  }

  lemma ActiveEndLeaves(w: World, i: TerminateInput)
    requires OwnsGoal(w.db, i.user, i.goal) && w.db.goals[i.goal].status == ActiveCycle && !Progressing(i.outcome)
    requires i.cycle.Some? && i.cycleRevision.Some? && TerminateActive(w, i).answer == Done
    requires i.cycle.value in w.db.cycles ==>
               var c := w.db.cycles[i.cycle.value];
               c.version in w.db.versions && w.db.versions[c.version].goal == c.goal &&
               (c.status == Active && c.goal == i.goal ==>
                w.db.versions[c.version].number == w.db.goals[i.goal].currentVersion)
    ensures var db := TerminateActive(w, i).world.db;
            && OwnsGoal(db, i.user, i.goal) && OwnsCycle(db, i.user, i.goal, i.cycle.value)
            && var g, c := db.goals[i.goal], db.cycles[i.cycle.value];
            && g.status == i.outcome && g.revision == i.goalRevision + 1
            && c.status == Canceled && c.reason == Some(ReasonOf(i.outcome)) && c.canceledAt == g.terminalAt
            && c.version in db.versions && db.versions[c.version].goal == i.goal
            && db.versions[c.version].number == g.currentVersion
  {
  }

  /** Ending an active Cycle answers with the ended Goal and the Cycle it canceled. */
  lemma ActiveEndReadsBack(w: World, i: TerminateInput)
    requires LifecycleInv(w.db) && OwnsGoal(w.db, i.user, i.goal) && w.db.goals[i.goal].status == ActiveCycle
    requires !Progressing(i.outcome) && i.cycle.Some? && i.cycleRevision.Some? && TerminateActive(w, i).answer == Done
    requires LifecycleInv(TerminateActive(w, i).world.db) && Indexed(TerminateActive(w, i).world.db)
    ensures ActiveEndable(w.db, TerminateActive(w, i).world.db, i)
  {
    if i.cycle.value in w.db.cycles {
      CycleRow(w.db, i.cycle.value);
    }
    ActiveEndLeaves(w, i);
    ActiveEndReadable(TerminateActive(w, i).world.db, i, i.cycle.value);
  }

  lemma ReviewEndLeaves(w: World, i: TerminateInput)
    requires OwnsGoal(w.db, i.user, i.goal) && w.db.goals[i.goal].status == GoalReview && !Progressing(i.outcome)
    requires TerminateReview(w, i).answer == Done
    ensures var db := TerminateReview(w, i).world.db;
            && OwnsGoal(db, i.user, i.goal) && db.goals[i.goal].status == i.outcome
            && db.goals[i.goal].revision == i.goalRevision + 1
            && db.versions == w.db.versions && db.goals[i.goal].currentVersion == w.db.goals[i.goal].currentVersion
            && CurrentVersion(w.db, i.goal).Some?
  {
  }

  /** Ending a review answers with the ended Goal on the Version it reviewed. */
  lemma ReviewEndReadsBack(w: World, i: TerminateInput)
    requires OwnsGoal(w.db, i.user, i.goal) && w.db.goals[i.goal].status == GoalReview && !Progressing(i.outcome)
    requires TerminateReview(w, i).answer == Done
    requires LifecycleInv(TerminateReview(w, i).world.db) && Indexed(TerminateReview(w, i).world.db)
    ensures ReviewEndable(w.db, TerminateReview(w, i).world.db, i)
  {
    ReviewEndLeaves(w, i);
    EndedGoalView(TerminateReview(w, i).world.db, i.user, i.goal);
  }

  // Starting.

  lemma StartLeaves(cfg: Config, w: World, i: StartInput)
    requires StartGoal(cfg, w, i).answer == Created(i.goal)
    ensures var db := StartGoal(cfg, w, i).world.db;
            OwnsGoal(db, i.user, i.goal) && OwnsCycle(db, i.user, i.goal, i.cycle)
  {
  }

  /** A start answers with the new Goal and its first Cycle. */
  lemma StartReadsBack(cfg: Config, w: World, i: StartInput)
    requires StartGoal(cfg, w, i).answer == Created(i.goal)
    requires LifecycleInv(StartGoal(cfg, w, i).world.db) && Indexed(StartGoal(cfg, w, i).world.db)
    ensures Readable(StartGoal(cfg, w, i).world.db, i.user, i.goal, i.cycle)
  {
    StartLeaves(cfg, w, i);
    GoalReadAccepted(StartGoal(cfg, w, i).world.db, i.user, i.goal);
    CycleReadAccepted(StartGoal(cfg, w, i).world.db, i.user, i.goal, i.cycle);
  }

  /** Ending a Goal answers with what its state calls for. */
  lemma TerminateBranch(w: World, i: TerminateInput)
    requires Terminate(w, i).answer == Done
    ensures OwnsGoal(w.db, i.user, i.goal) && w.db.goals[i.goal].status == i.state && !Progressing(i.outcome)
    ensures i.state == ActiveCycle || i.state == GoalReview
    ensures i.state == ActiveCycle ==>
              i.cycle.Some? && i.cycleRevision.Some? && Terminate(w, i) == TerminateActive(w, i)
    ensures i.state == GoalReview ==> Terminate(w, i) == TerminateReview(w, i)
  {
  }

  lemma TerminateReadsBack(w: World, i: TerminateInput)
    requires LifecycleInv(w.db) && LifecycleInv(Terminate(w, i).world.db) && Indexed(Terminate(w, i).world.db)
    ensures Terminate(w, i).answer == Done ==>
              if i.state == ActiveCycle then ActiveEndable(w.db, Terminate(w, i).world.db, i)
              else ReviewEndable(w.db, Terminate(w, i).world.db, i)
  {
    if Terminate(w, i).answer == Done {
      TerminateBranch(w, i);
      if i.state == ActiveCycle {
        ActiveEndReadsBack(w, i);
      } else {
        ReviewEndReadsBack(w, i);
      }
    }
  }
}
