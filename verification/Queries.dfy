/** The queries a transaction starts from: current Versions, Drafts, receipts, and the two read models. */
module Queries {
  import opened Base
  import opened Rows
  import opened Keys
  import opened Schema
  import opened Views
  import opened Lifecycle
  import opened UseCases
  import opened Statements

  /** Every unique index the queries rely on. */
  ghost predicate Indexed(db: Db) {
    && UniqueVersions(db.versions) && UniqueCycles(db.cycles) && Unique(db.cycles, ActiveKey) && UniqueGoals(db.goals)
    && UniqueDrafts(db.drafts) && UniqueGenerations(db.generations)
  }

  method FindVersion(db: Db, goal: Id) returns (found: Option<Id>)
    requires Indexed(db) && goal in db.goals
    ensures found == CurrentVersion(db, goal)
  {
    found := Query(db.versions, VersionKey, (goal, db.goals[goal].currentVersion));
  }

  method FindReview(db: Db, user: Id, goal: Id) returns (found: Option<Id>)
    requires Indexed(db)
    ensures found == ReviewDraft(db, user, goal)
  {
    found := Query(db.drafts, ReviewKey, (user, goal));
  }

  method FindCreation(db: Db, user: Id) returns (found: Option<Id>)
    requires Indexed(db)
    ensures found == Lookup(db.drafts, CreationKey, user)
  {
    found := Query(db.drafts, CreationKey, user);
  }

  method FindStart(db: Db, user: Id, operation: Id) returns (found: Option<Id>)
    requires Indexed(db)
    ensures found == Lookup(db.cycles, StartKey, (user, operation))
  {
    found := Query(db.cycles, StartKey, (user, operation));
  }

  method FindCompletion(db: Db, user: Id, operation: Id) returns (found: Option<Id>)
    requires Indexed(db)
    ensures found == Lookup(db.cycles, CompletionKey, (user, operation))
  {
    found := Query(db.cycles, CompletionKey, (user, operation));
  }

  method FindTermination(db: Db, user: Id, operation: Id) returns (found: Option<Id>)
    requires Indexed(db)
    ensures found == Lookup(db.goals, TerminalKey, (user, operation))
  {
    found := Query(db.goals, TerminalKey, (user, operation));
  }

  method FindReplay(db: Db, user: Id, operation: Operation, key: Id) returns (found: Option<Id>)
    requires Indexed(db)
    ensures found == Lookup(db.generations, ReplayKey, (user, operation, key))
  {
    found := Query(db.generations, ReplayKey, (user, operation, key));
  }

  method FindRefineDraft(db: Db, user: Id, draft: Option<Id>, goal: Option<Id>) returns (found: Option<Id>)
    requires Indexed(db)
    ensures found == RefineDraft(db, user, draft, goal)
  {
    if draft.Some? {
      return if OwnsDraft(db, user, draft.value) then draft else None;
    }
    if goal.Some? {
      found := FindReview(db, user, goal.value);
      return found;
    }
    return None;
  }

  /** The Goal read: the work a Goal has is decided by its status, and contradicting rows are an error. */
  method ReadGoal(db: Db, user: Id, goal: Id) returns (read: Result<GoalView, Error>)
    requires Indexed(db)
    ensures read == LoadGoalView(db, user, goal)
  {
    if !OwnsGoal(db, user, goal) {
      return Err(NotFound);
    }
    var version := FindVersion(db, goal);
    if version.None? {
      return Err(InvariantViolated);
    }
    var g := db.goals[goal];
    var view := GoalView(goal, g, db.versions[version.value], version.value, None);
    var active := Query(db.cycles, ActiveKey, goal);
    var draft := FindReview(db, user, goal);
    match g.status {
      case ActiveCycle =>
        if g.terminalAt.Some? || active.None? || draft.Some? {
          return Err(InvariantViolated);
        }
        var c := db.cycles[active.value];
        return Ok(view.(work := Some(CycleWork(active.value, c.sequence, c.reviewDate, c.scheduleRevision))));
      case GoalReview =>
        if g.terminalAt.Some? || active.Some? || draft.None? {
          return Err(InvariantViolated);
        }
        var trigger := db.drafts[draft.value].kind.cycle;
        if !OwnsCycle(db, user, goal, trigger) {
          return Err(InvariantViolated);
        }
        return Ok(view.(work := Some(ReviewWork(draft.value, trigger, db.cycles[trigger].sequence))));
      case _ =>
        return if g.terminalAt.None? || active.Some? || draft.Some? then Err(InvariantViolated) else Ok(view);
    }
  }

  method FindPredecessor(db: Db, cycle: Id) returns (found: Option<Id>)
    requires Indexed(db) && cycle in db.cycles
    ensures found == Predecessor(db, cycle)
  {
    found := Query(db.cycles, CycleKey, (db.cycles[cycle].goal, db.cycles[cycle].sequence - 1));
  }

  /** The Cycle read: an active Cycle after the first is shown with what came before it. */
  method ReadCycle(db: Db, user: Id, goal: Id, cycle: Id) returns (read: Result<CycleView, Error>)
    requires Indexed(db)
    ensures read == LoadCycleView(db, user, goal, cycle)
  {
    if !OwnsGoal(db, user, goal) || !OwnsCycle(db, user, goal, cycle) {
      return Err(NotFound);
    }
    var c := db.cycles[cycle];
    if c.version !in db.versions || db.versions[c.version].goal != goal {
      return Err(InvariantViolated);
    }
    var view := CycleView(cycle, c, db.versions[c.version], None, None);
    if c.status != Active || c.sequence == 1 {
      return Ok(view);
    }
    var before := FindPredecessor(db, cycle);
    if before.None? {
      return Err(InvariantViolated);
    }
    var p := db.cycles[before.value];
    if p.version !in db.versions {
      return Err(InvariantViolated);
    }
    var number := db.versions[p.version].number;
    var shown := Some(PredecessorView(before.value, p.sequence, p.status, p.reason, number));
    return Ok(if p.status == Completed
              then view.(predecessor := shown,
                         previous := Some(PreviousAction(before.value, p.sequence, number, p.action)))
              else view.(predecessor := shown));
  }

  method GoalRead(db: Db, user: Id, goal: Id) returns (ok: bool)
    requires Indexed(db)
    ensures ok == GoalReadOk(db, user, goal)
  {
    var read := ReadGoal(db, user, goal);
    return read.Ok? && read.value.id == goal && ValidWork(read.value);
  }

  method CycleRead(db: Db, user: Id, goal: Id, cycle: Id) returns (ok: bool)
    requires Indexed(db)
    ensures ok == CycleReadOk(db, user, goal, cycle)
  {
    var read := ReadCycle(db, user, goal, cycle);
    return read.Ok? && ValidCycleView(read.value, goal, cycle);
  }

  // Replay validators.

  method StartReplay(db: Db, user: Id, goal: Id, cycle: Id) returns (ok: bool)
    requires Indexed(db)
    ensures ok == StartReplayOk(db, user, goal, cycle)
  {
    var g := ReadGoal(db, user, goal);
    var c := ReadCycle(db, user, goal, cycle);
    return g.Ok? && c.Ok?;
  }

  method ContinueReplay(db: Db, user: Id, goal: Id, cycle: Id) returns (ok: bool)
    requires Indexed(db)
    ensures ok == ContinueReplayOk(db, user, goal, cycle)
  {
    var g := GoalRead(db, user, goal);
    var c := CycleRead(db, user, goal, cycle);
    return g && c;
  }

  method CompleteReplay(db: Db, user: Id, goal: Id, cycle: Id) returns (ok: bool)
    requires Indexed(db)
    ensures ok == CompleteReplayOk(db, user, goal, cycle)
  {
    var g := ReadGoal(db, user, goal);
    if g.Err? || g.value.id != goal || !ValidWork(g.value) {
      return false;
    }
    var c := ReadCycle(db, user, goal, cycle);
    if c.Err? || !ValidCycleView(c.value, goal, cycle) || c.value.row.status != Completed {
      return false;
    }
    var draft := FindReview(db, user, goal);
    var reviews := g.value.row.status == GoalReview && g.value.work.Some? && g.value.work.value.ReviewWork?;
    if draft.Some? && db.drafts[draft.value].kind.cycle == cycle {
      var d := db.drafts[draft.value];
      return d.kind.baseVersion == c.value.row.version && d.signal == c.value.version.signal && reviews &&
             g.value.work.value.draft == draft.value && g.value.work.value.trigger == cycle;
    }
    return !(reviews && g.value.work.value.trigger == cycle);
  }

  method ReplanReplay(db: Db, user: Id, goal: Id, canceled: Id, next: Id) returns (ok: bool)
    requires Indexed(db)
    ensures ok == ReplanReplayOk(db, user, goal, canceled, next)
  {
    var g := ReadGoal(db, user, goal);
    if g.Err? || g.value.id != goal || !ValidWork(g.value) {
      return false;
    }
    var c := ReadCycle(db, user, goal, canceled);
    if c.Err? || !ValidCycleView(c.value, goal, canceled) {
      return false;
    }
    var n := ReadCycle(db, user, goal, next);
    if n.Err? || !ValidCycleView(n.value, goal, next) {
      return false;
    }
    var before, after := c.value.row, n.value.row;
    if after.status == Active &&
       !(g.value.row.status == ActiveCycle && g.value.work.Some? && g.value.work.value.CycleWork? &&
         g.value.work.value.cycle == next && g.value.work.value.sequence == after.sequence) {
      return false;
    }
    return before.status == Canceled && before.reason == Some(Replanned) && before.canceledAt.Some? &&
           after.sequence == before.sequence + 1 && after.version == before.version;
  }

  method TerminateReplay(db: Db, user: Id, goal: Id, outcome: GoalStatus, goalRevision: int, canceled: Option<Id>)
    returns (ok: bool)
    requires Indexed(db)
    ensures ok == TerminateReplayOk(db, user, goal, outcome, goalRevision, canceled)
  {
    var g := ReadGoal(db, user, goal);
    if g.Err? || g.value.id != goal || !ValidWork(g.value) || g.value.row.status != outcome ||
       g.value.row.revision != goalRevision + 1 || g.value.row.terminalAt.None? || g.value.work.Some? {
      return false;
    }
    if canceled.None? {
      return true;
    }
    var c := ReadCycle(db, user, goal, canceled.value);
    return c.Ok? && ValidCycleView(c.value, goal, canceled.value) && c.value.row.status == Canceled &&
           c.value.row.canceledAt == g.value.row.terminalAt && c.value.row.reason == Some(ReasonOf(outcome));
  }
}
