/** The read models a command answers with, and the validators every answer must pass. */
module Views {
  import opened Base
  import opened Rows
  import opened Keys
  import opened Schema
  import opened Text

  datatype Work =
    | CycleWork(cycle: Id, sequence: int, date: Option<int>, scheduleRevision: int)
    | ReviewWork(draft: Id, trigger: Id, triggerSequence: int)

  datatype GoalView = GoalView(id: Id, row: Goal, version: Version, versionId: Id, work: Option<Work>)

  datatype PreviousAction = PreviousAction(cycle: Id, sequence: int, versionNumber: int, action: string)

  datatype PredecessorView = PredecessorView(
    cycle: Id, sequence: int, status: CycleStatus, reason: Option<Reason>, versionNumber: int)

  datatype CycleView = CycleView(
    id: Id, row: Cycle, version: Version, previous: Option<PreviousAction>, predecessor: Option<PredecessorView>)

  /** The Goal read: its joins, and the mapping that refuses rows that contradict the Goal's status. */
  ghost function LoadGoalView(db: Db, user: Id, goal: Id): Result<GoalView, Error> {
    if !OwnsGoal(db, user, goal) then Err(NotFound)
    else if CurrentVersion(db, goal).None? then Err(InvariantViolated)
    else
      var g, versionId := db.goals[goal], CurrentVersion(db, goal).value;
      var active, draft := Lookup(db.cycles, ActiveKey, goal), ReviewDraft(db, user, goal);
      var view := GoalView(goal, g, db.versions[versionId], versionId, None);
      match g.status
      case ActiveCycle =>
        if g.terminalAt.Some? || active.None? || draft.Some? then Err(InvariantViolated)
        else
          var c := db.cycles[active.value];
          Ok(view.(work := Some(CycleWork(active.value, c.sequence, c.reviewDate, c.scheduleRevision))))
      case GoalReview =>
        if g.terminalAt.Some? || active.Some? || draft.None? ||
          !OwnsCycle(db, user, goal, db.drafts[draft.value].kind.cycle) then
          Err(InvariantViolated)
        else
          var trigger := db.drafts[draft.value].kind.cycle;
          Ok(view.(work := Some(ReviewWork(draft.value, trigger, db.cycles[trigger].sequence))))
      case _ =>
        if g.terminalAt.None? || active.Some? || draft.Some? then Err(InvariantViolated) else Ok(view)
  }

  /** A review date that is set was set by some change of the schedule. */
  predicate ValidSchedule(date: Option<int>, revision: int) {
    revision >= 0 && (date.Some? ==> revision > 0)
  }

  /** The union rule on a Goal's current work. */
  predicate ValidWork(view: GoalView) {
    match view.row.status
    case ActiveCycle =>
      && view.work.Some? && view.work.value.CycleWork? && view.work.value.sequence > 0
      && ValidSchedule(view.work.value.date, view.work.value.scheduleRevision)
    case GoalReview => view.work.Some? && view.work.value.ReviewWork? && view.work.value.triggerSequence > 0
    case _ => view.work.None?
  }

  /** The Cycle just before another one of the same Goal. */
  ghost function Predecessor(db: Db, cycle: Id): Option<Id>
    requires cycle in db.cycles
  {
    Lookup(db.cycles, CycleKey, (db.cycles[cycle].goal, db.cycles[cycle].sequence - 1))
  }

  /** The Cycle read. Only an active Cycle after the first shows what came before it. */
  ghost function LoadCycleView(db: Db, user: Id, goal: Id, cycle: Id): Result<CycleView, Error> {
    if !OwnsGoal(db, user, goal) || !OwnsCycle(db, user, goal, cycle) then Err(NotFound)
    else
      var c := db.cycles[cycle];
      if c.version !in db.versions || db.versions[c.version].goal != goal then Err(InvariantViolated)
      else
        var view := CycleView(cycle, c, db.versions[c.version], None, None);
        if c.status != Active || c.sequence == 1 then Ok(view)
        else if Predecessor(db, cycle).None? ||
          db.cycles[Predecessor(db, cycle).value].version !in db.versions then Err(InvariantViolated)
        else
          var before := Predecessor(db, cycle).value;
          var p := db.cycles[before];
          var number := db.versions[p.version].number;
          var shown := Some(PredecessorView(before, p.sequence, p.status, p.reason, number));
          match p.status
          case Completed =>
            Ok(view.(predecessor := shown, previous := Some(PreviousAction(before, p.sequence, number, p.action))))
          case _ => Ok(view.(predecessor := shown))
  }

  predicate ValidStatusTimes(c: Cycle) {
    match c.status
    case Active => c.completedAt.None? && c.canceledAt.None? && c.reason.None?
    case Completed => c.completedAt.Some? && c.canceledAt.None? && c.reason.None?
    case Canceled => c.completedAt.None? && c.canceledAt.Some? && c.reason.Some?
  }

  predicate ValidRevisions(c: Cycle) {
    c.revisions.content == c.revisions.plan + c.revisions.doing + c.revisions.check + c.revisions.action
  }

  predicate ValidPrevious(view: CycleView) {
    if view.row.status != Active || view.row.sequence == 1 then view.previous.None? && view.predecessor.None?
    else
      && view.predecessor.Some?
      && var p := view.predecessor.value;
      && p.cycle != view.id && p.sequence == view.row.sequence - 1
      && 0 < p.versionNumber <= view.version.number <= p.versionNumber + 1
      && match p.status
         case Completed =>
           && p.reason.None? && view.previous.Some?
           && var a := view.previous.value;
           && a.cycle == p.cycle && a.sequence == p.sequence && a.versionNumber == p.versionNumber
           && !Blank(a.action) && |a.action| <= MAX_FRAME_CODE_POINTS
         case Canceled =>
           p.reason == Some(Replanned) && p.versionNumber == view.version.number && view.previous.None?
         case Active => false
  }

  /** The Cycle read validator. */
  predicate ValidCycleView(view: CycleView, goal: Id, cycle: Id) {
    && view.id == cycle && view.row.goal == goal && view.row.sequence > 0
    && ValidRevisions(view.row) && ValidStatusTimes(view.row) && view.version.number > 0
    && ValidPrevious(view)
  }

  ghost predicate CycleReadOk(db: Db, user: Id, goal: Id, cycle: Id) {
    && LoadCycleView(db, user, goal, cycle).Ok?
    && ValidCycleView(LoadCycleView(db, user, goal, cycle).value, goal, cycle)
  }

  ghost predicate GoalReadOk(db: Db, user: Id, goal: Id) {
    && LoadGoalView(db, user, goal).Ok?
    && LoadGoalView(db, user, goal).value.id == goal
    && ValidWork(LoadGoalView(db, user, goal).value)
  }

  // Replay validators: what a repeated command checks before it answers again.

  ghost predicate StartReplayOk(db: Db, user: Id, goal: Id, cycle: Id) {
    LoadGoalView(db, user, goal).Ok? && LoadCycleView(db, user, goal, cycle).Ok?
  }

  /** The Review Draft a completion opened, while it is still there. */
  ghost function DraftOfCycle(db: Db, user: Id, goal: Id, cycle: Id): Option<Id> {
    var draft := ReviewDraft(db, user, goal);
    if draft.Some? && db.drafts[draft.value].kind.cycle == cycle then draft else None
  }

  ghost predicate CompleteReplayOk(db: Db, user: Id, goal: Id, cycle: Id) {
    && GoalReadOk(db, user, goal) && CycleReadOk(db, user, goal, cycle)
    && var g, c := LoadGoalView(db, user, goal).value, LoadCycleView(db, user, goal, cycle).value;
    && var draft := DraftOfCycle(db, user, goal, cycle);
    && c.row.status == Completed
    && (draft.Some? ==>
          && var d := db.drafts[draft.value];
          && d.kind.baseVersion == c.row.version && d.signal == c.version.signal
          && g.row.status == GoalReview && g.work.Some? && g.work.value.ReviewWork?
          && g.work.value.draft == draft.value && g.work.value.trigger == cycle)
    && (draft.None? ==>
          !(g.row.status == GoalReview && g.work.Some? && g.work.value.ReviewWork? && g.work.value.trigger == cycle))
  }

  ghost predicate ReplanReplayOk(db: Db, user: Id, goal: Id, canceled: Id, next: Id) {
    && GoalReadOk(db, user, goal) && CycleReadOk(db, user, goal, canceled) && CycleReadOk(db, user, goal, next)
    && var g := LoadGoalView(db, user, goal).value;
    && var c, n := LoadCycleView(db, user, goal, canceled).value, LoadCycleView(db, user, goal, next).value;
    && (n.row.status == Active ==>
          && g.row.status == ActiveCycle && g.work.Some? && g.work.value.CycleWork?
          && g.work.value.cycle == next && g.work.value.sequence == n.row.sequence)
    && c.row.status == Canceled && c.row.reason == Some(Replanned) && c.row.canceledAt.Some?
    && n.row.sequence == c.row.sequence + 1 && n.row.version == c.row.version
  }

  ghost predicate ContinueReplayOk(db: Db, user: Id, goal: Id, cycle: Id) {
    GoalReadOk(db, user, goal) && CycleReadOk(db, user, goal, cycle)
  }

  function ReasonOf(outcome: GoalStatus): Reason { if outcome == Achieved then GoalAchieved else GoalEnded }

  ghost predicate TerminateReplayOk(db: Db, user: Id, goal: Id, outcome: GoalStatus, goalRevision: int,
                                    canceled: Option<Id>)
  {
    && GoalReadOk(db, user, goal)
    && var g := LoadGoalView(db, user, goal).value;
    && g.row.status == outcome && g.row.revision == goalRevision + 1 && g.row.terminalAt.Some? && g.work.None?
    && (canceled.Some? ==>
          && CycleReadOk(db, user, goal, canceled.value)
          && var c := LoadCycleView(db, user, goal, canceled.value).value.row;
          && c.status == Canceled && c.canceledAt == g.row.terminalAt && c.reason == Some(ReasonOf(outcome)))
  }
}
