/** The commands on an active Cycle as transactions: edit, reschedule, complete, replan. */
module CycleTransactions {
  import opened Base
  import opened Rows
  import opened Keys
  import opened Schema
  import opened Ledger
  import opened Text
  import opened Views
  import opened UseCases
  import opened Statements
  import opened Queries
  import opened Transactions
  import opened Fresh
  import CycleDomain
  import GoalDomain

  method SaveFrame(before: Db, ghost history: History, user: Id, goal: Id, cycle: Id, frame: Frame, text: string,
                   expected: int)
    returns (answer: Answer, tx: Db)
    ensures Does(UseCases.SaveFrame(World(before, history), user, goal, cycle, frame, text, expected), answer, tx)
  {
    if !OwnsGoal(before, user, goal) || !OwnsCycle(before, user, goal, cycle) {
      return Refused(NotFound), before;
    }
    if before.goals[goal].status != ActiveCycle {
      return Refused(GoalStateConflict), before;
    }
    var current := before.cycles[cycle];
    var running := frame == ActionFrame && RunsOnCycle(before.generations, user, goal, cycle);
    var saved := CycleDomain.SaveFrame(current, frame, text, expected, running);
    if saved.Err? {
      return Refused(saved.error), before;
    }
    if saved.value == current {
      return Done, before;
    }
    var (written, rows) := SaveFrameCas(before, cycle, saved.value, frame, expected);
    return if rows == 1 then Done else Refused(InvariantViolated), written;
  }

  method ChangeSchedule(before: Db, ghost history: History, user: Id, goal: Id, cycle: Id, date: Option<int>,
                        expected: int)
    returns (answer: Answer, tx: Db)
    requires var step := UseCases.ChangeSchedule(World(before, history), user, goal, cycle, date, expected);
             step.answer == Done ==> Indexed(step.world.db) && CycleReadOk(step.world.db, user, goal, cycle)
    ensures Does(UseCases.ChangeSchedule(World(before, history), user, goal, cycle, date, expected), answer, tx)
  {
    if !OwnsGoal(before, user, goal) || !OwnsCycle(before, user, goal, cycle) {
      return Refused(NotFound), before;
    }
    if before.goals[goal].status != ActiveCycle {
      return Refused(GoalStateConflict), before;
    }
    var current := before.cycles[cycle];
    var saved := CycleDomain.ChangeReviewSchedule(current, date, expected);
    if saved.Err? {
      return Refused(saved.error), before;
    }
    tx := before;
    if saved.value != current {
      var (written, rows) := SaveScheduleCas(before, cycle, saved.value, expected);
      if rows != 1 {
        return Refused(InvariantViolated), before;
      }
      tx := written;
    }
    assert tx == UseCases.ChangeSchedule(World(before, history), user, goal, cycle, date, expected).world.db by {
      assert before.cycles[cycle := current] == before.cycles;
    }
    var readable := CycleRead(tx, user, goal, cycle);
    return if readable then Done else Refused(InvariantViolated), tx;
  }

  // Completing.

  method ReadCompletion(tx: Db, i: CompleteInput) returns (ok: bool)
    requires Indexed(tx)
    ensures ok == CompletionReads(tx, i)
  {
    var c := ReadCycle(tx, i.user, i.goal, i.cycle);
    var g := ReadGoal(tx, i.user, i.goal);
    var draft := FindReview(tx, i.user, i.goal);
    if c.Err? || g.Err? || draft != Some(i.draft) {
      return false;
    }
    var d := tx.drafts[i.draft];
    return d.kind.cycle == i.cycle && FreshCompletion(g.value, c.value, d, i);
  }

  /** The Cycle ends, its Review Draft opens, and the Goal moves on. */
  method WriteCompletion(before: Db, i: CompleteInput, completed: Cycle, draft: Draft, reviewing: Goal)
    returns (ok: bool, tx: Db)
    requires i.goal in before.goals && i.draft !in before.drafts
    requires SameActiveCycle(before, i.cycle, completed)
             && before.cycles[i.cycle].revisions.content == i.contentRevision
    requires before.cycles[i.cycle].completion == None
    requires var g := before.goals[i.goal];
             && g.status == ActiveCycle && g.revision == i.goalRevision && reviewing.user == g.user
             && reviewing.currentVersion == g.currentVersion && reviewing.nextSequence == g.nextSequence
    ensures ok && tx ==
              before.(cycles := before.cycles[i.cycle := completed], goals := before.goals[i.goal := reviewing],
                                drafts := before.drafts[i.draft := draft])
  {
    var (closed, rows) := CompleteCycleCas(before, i.cycle, completed, i.contentRevision);
    if rows != 1 {
      return false, before;
    }
    var (drafted, rows') := InsertDraft(closed, i.draft, draft);
    if rows' != 1 {
      return false, before;
    }
    var (moved, rows'') := EnterGoalReviewCas(drafted, i.goal, reviewing, i.goalRevision);
    return rows'' == 1, moved;
  }

  method CompleteCycle(before: Db, ghost history: History, i: CompleteInput) returns (answer: Answer, tx: Db)
    requires Indexed(before) && i.draft !in before.drafts
    requires forall c :: c in before.cycles && before.cycles[c].status == Active ==> before.cycles[c].completion == None
    requires var step := UseCases.CompleteCycle(World(before, history), i);
             step.answer == Created(i.draft) ==> Indexed(step.world.db) && CompletionReads(step.world.db, i)
    ensures Does(UseCases.CompleteCycle(World(before, history), i), answer, tx)
  {
    if i.user !in before.users {
      return Refused(NotFound), before;
    }
    var receipt := FindCompletion(before, i.user, i.operation);
    if receipt.Some? {
      var c := before.cycles[receipt.value];
      if c.completion != Some(CompleteClaim(i)) || receipt.value != i.cycle || c.goal != i.goal {
        return Refused(IdempotencyKeyReused), before;
      }
    }
    if !OwnsGoal(before, i.user, i.goal) {
      return Refused(NotFound), before;
    }
    if receipt.Some? {
      var valid := CompleteReplay(before, i.user, i.goal, i.cycle);
      return if valid then Replayed else Refused(InvariantViolated), before;
    }
    if !OwnsCycle(before, i.user, i.goal, i.cycle) {
      return Refused(NotFound), before;
    }
    var target, current := before.goals[i.goal], before.cycles[i.cycle];
    if target.status != ActiveCycle {
      return Refused(GoalStateConflict), before;
    }
    if target.revision != i.goalRevision {
      return Refused(GoalRevisionConflict), before;
    }
    var version := FindVersion(before, i.goal);
    if version != Some(current.version) {
      return Refused(GoalVersionConflict), before;
    }
    var running := RunsOnCycle(before.generations, i.user, i.goal, i.cycle);
    var completed := CycleDomain.Complete(current, CompleteClaim(i), i.contentRevision, running, i.now);
    if completed.Err? {
      return Refused(completed.error), before;
    }
    var reviewing := GoalDomain.EnterReview(target);
    if reviewing.Err? {
      return Refused(GoalStateConflict), before;
    }
    var v := before.versions[version.value];
    var draft := Draft(i.user, Review(i.goal, version.value, i.cycle), v.body, v.signal, 0);
    var ok;
    ok, tx := WriteCompletion(before, i, completed.value, draft, reviewing.value);
    if !ok {
      return Refused(InvariantViolated), before;
    }
    assert tx == UseCases.CompleteCycle(World(before, history), i).world.db;
    var readable := ReadCompletion(tx, i);
    return if readable then Created(i.draft) else Refused(InvariantViolated), tx;
  }

  // Replanning.

  method ReadReplan(tx: Db, i: ReplanInput, canceled: Cycle) returns (ok: bool)
    requires Indexed(tx)
    ensures ok == ReplanReads(tx, i, canceled)
  {
    var c := ReadCycle(tx, i.user, i.goal, i.cycle);
    var g := ReadGoal(tx, i.user, i.goal);
    var n := ReadCycle(tx, i.user, i.goal, i.next);
    return c.Ok? && g.Ok? && n.Ok? && FreshReplan(g.value, c.value, n.value, i, canceled);
  }

  /** The Cycle is canceled, its successor claims the operation, and the Goal moves on. */
  method WriteReplan(before: Db, i: ReplanInput, r: GoalDomain.Replanning) returns (ok: bool, tx: Db)
    requires i.goal in before.goals && i.next !in before.cycles
    requires SameActiveCycle(before, i.cycle, r.canceled)
             && before.cycles[i.cycle].revisions.content == i.contentRevision
    requires r.canceled.start == before.cycles[i.cycle].start
    requires !Has(before.cycles, StartKey, (r.next.user, r.next.start.operation))
    requires var g := before.goals[i.goal];
             && g.status == ActiveCycle && g.revision == i.goalRevision && r.goal.user == g.user
             && r.goal.currentVersion == g.currentVersion && r.goal.nextSequence == g.nextSequence + 1
    ensures ok && tx ==
              before.(cycles := before.cycles[i.cycle := r.canceled][i.next := r.next],
                      goals := before.goals[i.goal := r.goal])
  {
    var (canceled, rows) := CancelCycleCas(before, i.cycle, r.canceled, i.contentRevision);
    if rows != 1 {
      return false, before;
    }
    assert forall id :: id in canceled.cycles ==>
      id in before.cycles && StartKey(canceled.cycles[id]) == StartKey(before.cycles[id]);
    var (claimed, rows') := TryInsertCycleClaim(canceled, i.next, r.next);
    if rows' != 1 {
      return false, before;
    }
    var (moved, rows'') := ReplanGoalCas(claimed, i.goal, r.goal, r.goal.nextSequence - 1, i.goalRevision);
    return rows'' == 1, moved;
  }

  /** A receipt must be this very command's. */
  method CheckReplanReceipt(before: Db, i: ReplanInput, receipt: Id) returns (same: bool)
    requires Indexed(before) && receipt in before.cycles
    ensures same == !(before.cycles[receipt].goal != i.goal || before.cycles[receipt].start != ReplanClaim(i) ||
                      Predecessor(before, receipt) != Some(i.cycle) || before.cycles[i.cycle].reason != Some(Replanned))
  {
    var c := before.cycles[receipt];
    if c.goal != i.goal || c.start != ReplanClaim(i) {
      return false;
    }
    var previous := FindPredecessor(before, receipt);
    return previous == Some(i.cycle) && before.cycles[i.cycle].reason == Some(Replanned);
  }

  /** A command that has not run yet, with its User and Goal locked. */
  method ReplanLocked(before: Db, ghost history: History, i: ReplanInput) returns (answer: Answer, tx: Db)
    requires Indexed(before) && i.next !in before.cycles
    requires i.confirmed && i.user in before.users && OwnsGoal(before, i.user, i.goal)
    requires Lookup(before.cycles, StartKey, (i.user, i.operation)).None?
    requires var step := UseCases.ReplanCycle(World(before, history), i);
             step.answer == Created(i.next) ==>
               Indexed(step.world.db) && i.cycle in step.world.db.cycles
                 && ReplanReads(step.world.db, i, step.world.db.cycles[i.cycle])
    ensures Does(UseCases.ReplanCycle(World(before, history), i), answer, tx)
  {
    if !OwnsCycle(before, i.user, i.goal, i.cycle) {
      return Refused(NotFound), before;
    }
    var target, current := before.goals[i.goal], before.cycles[i.cycle];
    if target.status != ActiveCycle {
      return Refused(GoalStateConflict), before;
    }
    if target.revision != i.goalRevision {
      return Refused(GoalRevisionConflict), before;
    }
    if current.status != Active {
      return Refused(CycleNotActive), before;
    }
    if target.nextSequence <= 1 || current.sequence != target.nextSequence - 1 {
      return Refused(InvariantViolated), before;
    }
    if current.revisions.content != i.contentRevision || current.scheduleRevision != i.scheduleRevision {
      return Refused(RevisionConflict), before;
    }
    var version := FindVersion(before, i.goal);
    if version != Some(current.version) {
      return Refused(GoalVersionConflict), before;
    }
    if RunsOnCycle(before.generations, i.user, i.goal, i.cycle) {
      return Refused(InProgress), before;
    }
    var replanned :=
      GoalDomain.Replan(i.goal, target, version.value, before.versions[version.value], current, ReplanClaim(i), i.now);
    if replanned.Err? {
      return Refused(replanned.error), before;
    }
    var ok;
    ok, tx := WriteReplan(before, i, replanned.value);
    if !ok {
      return Refused(InvariantViolated), before;
    }
    assert tx == UseCases.ReplanCycle(World(before, history), i).world.db;
    var readable := ReadReplan(tx, i, tx.cycles[i.cycle]);
    return if readable then Created(i.next) else Refused(InvariantViolated), tx;
  }

  method ReplanCycle(before: Db, ghost history: History, i: ReplanInput) returns (answer: Answer, tx: Db)
    requires Indexed(before) && i.next !in before.cycles
    requires var step := UseCases.ReplanCycle(World(before, history), i);
             step.answer == Created(i.next) ==>
               Indexed(step.world.db) && i.cycle in step.world.db.cycles
                 && ReplanReads(step.world.db, i, step.world.db.cycles[i.cycle])
    ensures Does(UseCases.ReplanCycle(World(before, history), i), answer, tx)
  {
    if !i.confirmed {
      return Refused(ConfirmationRequired), before;
    }
    if i.user !in before.users {
      return Refused(NotFound), before;
    }
    var receipt := FindStart(before, i.user, i.operation);
    if receipt.Some? {
      var same := CheckReplanReceipt(before, i, receipt.value);
      if !same {
        return Refused(IdempotencyKeyReused), before;
      }
    }
    if !OwnsGoal(before, i.user, i.goal) {
      return Refused(NotFound), before;
    }
    if receipt.Some? {
      var valid := ReplanReplay(before, i.user, i.goal, i.cycle, receipt.value);
      return if valid then Replayed else Refused(InvariantViolated), before;
    }
    answer, tx := ReplanLocked(before, history, i);
  }
}
