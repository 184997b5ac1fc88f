/** Leaving a review, and ending a Goal, as transactions. */
module ReviewTransactions {
  import opened Base
  import opened Rows
  import opened Keys
  import opened Schema
  import opened Ledger
  import opened Text
  import opened Views
  import opened UseCases
  import opened Statements
  import opened Queries
  import opened Transactions
  import opened DraftTransactions
  import opened Fresh
  import CycleDomain
  import GoalDomain

  // Continuing.

  method ReadContinued(tx: Db, i: ContinueInput, trigger: Id, goal: Goal, cycle: Cycle, version: Version)
    returns (ok: bool)
    requires Indexed(tx)
    ensures ok == ContinueReads(tx, i, trigger, goal, cycle, version)
  {
    var g := ReadGoal(tx, i.user, i.goal);
    var c := ReadCycle(tx, i.user, i.goal, i.cycle);
    return g.Ok? && c.Ok? && FreshContinue(g.value, c.value, i, trigger, goal, cycle, version);
  }

  /** The new Version if the text changed, the next Cycle, which claims the operation, and the Goal. */
  method WriteContinued(before: Db, i: ContinueInput, c: GoalDomain.Continued) returns (ok: bool, tx: Db)
    requires i.goal in before.goals && i.version !in before.versions && i.cycle !in before.cycles
    requires !Has(before.cycles, StartKey, (c.cycle.user, c.cycle.start.operation))
    requires var g := before.goals[i.goal];
             g.user == c.goal.user && g.status == GoalReview && g.revision == i.goalRevision
    ensures ok && tx == before.(goals := before.goals[i.goal := c.goal],
                                versions := if c.version.Some? then before.versions[i.version := c.version.value]
                                  else before.versions,
                                cycles := before.cycles[i.cycle := c.cycle])
  {
    tx := before;
    if c.version.Some? {
      var (named, rows) := InsertVersion(before, i.version, c.version.value);
      if rows != 1 {
        return false, before;
      }
      tx := named;
    }
    var (claimed, rows') := TryInsertCycleClaim(tx, i.cycle, c.cycle);
    if rows' != 1 {
      return false, before;
    }
    var (moved, rows'') := ContinueGoalCas(claimed, i.goal, c.goal, i.goalRevision);
    return rows'' == 1, moved;
  }

  /** A command that has not run yet, with its Goal locked. */
  method ContinueLocked(before: Db, ghost history: History, i: ContinueInput) returns (answer: Answer, tx: Db)
    requires Indexed(before) && i.version !in before.versions && i.cycle !in before.cycles
             && OwnsGoal(before, i.user, i.goal)
    requires Lookup(before.cycles, StartKey, (i.user, i.operation)).None?
    requires forall draft :: ReviewDraft(before, i.user, i.goal) == Some(draft) ==>
               OwnUsages(before, i.user, GenerationsOfDraft(before.generations, i.user, draft))
    requires Continuable(before, history, i)
    ensures Does(UseCases.ContinueReview(World(before, history), i), answer, tx)
  {
    var target := before.goals[i.goal];
    if target.status != GoalReview {
      return Refused(ReviewNotActive), before;
    }
    var located := FindReview(before, i.user, i.goal);
    if located.None? {
      return Refused(InvariantViolated), before;
    }
    var draft := located.value;
    var d := before.drafts[draft];
    if target.revision != i.goalRevision {
      return Refused(GoalRevisionConflict), before;
    }
    if d.revision != i.draftRevision {
      return Refused(ReviewRevisionConflict), before;
    }
    if RunsOnDraft(before.generations, draft) {
      return Refused(InProgress), before;
    }
    var version := FindVersion(before, i.goal);
    if version.None? {
      return Refused(GoalVersionConflict), before;
    }
    var v := before.versions[version.value];
    var continued := GoalDomain.ContinueReview(i.goal, target, version.value, v, d, i.version, ContinueClaim(i));
    if continued.Err? {
      return Refused(continued.error), before;
    }
    var ok;
    ok, tx := WriteContinued(before, i, continued.value);
    if !ok {
      return Refused(InvariantViolated), before;
    }
    var moved := GenerationsOfDraft(before.generations, i.user, draft);
    var usages := UsagesOf(before, i.user, moved);
    assert UsagesOf(tx, i.user, usages) == usages == UsagesOf(tx, i.user, moved);
    ok, tx := AttachToGoal(tx, i.user, draft, moved, usages, i.goal, continued.value.cycle.version);
    if !ok {
      return Refused(InvariantViolated), before;
    }
    var (removed, rows) := DeleteDraftCas(tx, draft, i.user, i.draftRevision);
    if rows != 1 {
      return Refused(InvariantViolated), before;
    }
    assert removed == UseCases.ContinueReview(World(before, history), i).world.db;
    var shown := if continued.value.version.Some? then continued.value.version.value else v;
    var readable := ReadContinued(removed, i, d.kind.cycle, continued.value.goal, continued.value.cycle, shown);
    return if readable then Created(i.cycle) else Refused(InvariantViolated), removed;
  }

  method ContinueReview(before: Db, ghost history: History, i: ContinueInput) returns (answer: Answer, tx: Db)
    requires Indexed(before) && i.version !in before.versions && i.cycle !in before.cycles
    requires forall draft :: ReviewDraft(before, i.user, i.goal) == Some(draft) ==>
               OwnUsages(before, i.user, GenerationsOfDraft(before.generations, i.user, draft))
    requires Continuable(before, history, i)
    ensures Does(UseCases.ContinueReview(World(before, history), i), answer, tx)
  {
    var receipt := FindStart(before, i.user, i.operation);
    if receipt.Some? {
      var c := before.cycles[receipt.value];
      if c.goal != i.goal || c.start != ContinueClaim(i) {
        return Refused(IdempotencyKeyReused), before;
      }
    }
    if !OwnsGoal(before, i.user, i.goal) {
      return Refused(NotFound), before;
    }
    if receipt.Some? {
      var valid := ContinueReplay(before, i.user, i.goal, receipt.value);
      return if valid then Replayed else Refused(InvariantViolated), before;
    }
    answer, tx := ContinueLocked(before, history, i);
  }

  // Ending.

  method ReadActiveEnd(tx: Db, i: TerminateInput, cycle: Id, terminated: Goal, canceled: Cycle) returns (ok: bool)
    requires Indexed(tx)
    ensures ok == ActiveEndReads(tx, i, cycle, terminated, canceled)
  {
    var g := ReadGoal(tx, i.user, i.goal);
    var c := ReadCycle(tx, i.user, i.goal, cycle);
    return g.Ok? && c.Ok? && FreshEnd(g.value, i, terminated) && FreshCancel(g.value, c.value, i, cycle, canceled);
  }

  method ReadReviewEnd(tx: Db, i: TerminateInput, terminated: Goal, versionId: Id, version: Version) returns (ok: bool)
    requires Indexed(tx)
    ensures ok == ReviewEndReads(tx, i, terminated, versionId, version)
  {
    var g := ReadGoal(tx, i.user, i.goal);
    return g.Ok? && FreshEnd(g.value, i, terminated) && g.value.versionId == versionId && g.value.version == version;
  }

  method EndActive(before: Db, ghost history: History, i: TerminateInput) returns (answer: Answer, tx: Db)
    requires OwnsGoal(before, i.user, i.goal) && before.goals[i.goal].status == ActiveCycle && !Progressing(i.outcome)
    requires i.cycle.Some? && i.cycleRevision.Some?
    requires var step := TerminateActive(World(before, history), i);
             step.answer == Done ==> ActiveEndable(before, step.world.db, i)
    ensures Does(TerminateActive(World(before, history), i), answer, tx)
  {
    var cycle := i.cycle.value;
    if !OwnsCycle(before, i.user, i.goal, cycle) || before.cycles[cycle].status != Active {
      return Refused(GoalStateConflict), before;
    }
    var target, current := before.goals[i.goal], before.cycles[cycle];
    if target.revision != i.goalRevision {
      return Refused(GoalStateConflict), before;
    }
    if current.revisions.content != i.cycleRevision.value {
      return Refused(RevisionConflict), before;
    }
    if RunsOnGoal(before.generations, i.user, i.goal) {
      return Refused(InProgress), before;
    }
    var canceled := CycleDomain.Cancel(current, ReasonOf(i.outcome), i.now).value;
    var terminated := GoalDomain.Terminate(target, i.outcome, TerminateClaim(i), i.now).value;
    var (closed, rows) := CancelCycleCas(before, cycle, canceled, i.cycleRevision.value);
    if rows != 1 {
      return Refused(InvariantViolated), before;
    }
    var (ended, rows') := TerminateGoalCas(closed, i.goal, terminated, i.goalRevision);
    if rows' != 1 {
      return Refused(InvariantViolated), before;
    }
    var readable := ReadActiveEnd(ended, i, cycle, terminated, canceled);
    return if readable then Done else Refused(InvariantViolated), ended;
  }

  method EndReview(before: Db, ghost history: History, i: TerminateInput) returns (answer: Answer, tx: Db)
    requires Indexed(before) && OwnsGoal(before, i.user, i.goal) && before.goals[i.goal].status == GoalReview
             && !Progressing(i.outcome)
    requires forall draft :: ReviewDraft(before, i.user, i.goal) == Some(draft) ==>
               OwnUsages(before, i.user, GenerationsOfDraft(before.generations, i.user, draft))
    requires var step := TerminateReview(World(before, history), i);
             step.answer == Done ==> ReviewEndable(before, step.world.db, i)
    ensures Does(TerminateReview(World(before, history), i), answer, tx)
  {
    var target := before.goals[i.goal];
    var located := FindReview(before, i.user, i.goal);
    if located.None? {
      return Refused(InvariantViolated), before;
    }
    var draft := located.value;
    var d := before.drafts[draft];
    if target.revision != i.goalRevision {
      return Refused(GoalStateConflict), before;
    }
    if RunsOnDraft(before.generations, draft) {
      return Refused(InProgress), before;
    }
    var version := FindVersion(before, i.goal);
    if version.None? {
      return Refused(InvariantViolated), before;
    }
    var v := before.versions[version.value];
    var signal := NormalizeSignal(d.signal);
    if !GoalDomain.ReviewReferences(i.goal, target, version.value, v, d) || signal.Err? {
      return Refused(InvariantViolated), before;
    }
    if GoalDomain.Differs(v, d.body, signal.value) && !i.discard {
      return Refused(DiscardRequired), before;
    }
    var terminated := GoalDomain.Terminate(target, i.outcome, TerminateClaim(i), i.now).value;
    var ok;
    ok, tx := RemoveDraft(before, i.user, draft, i.now);
    if !ok {
      return Refused(InvariantViolated), before;
    }
    var (ended, rows) := TerminateGoalCas(tx, i.goal, terminated, i.goalRevision);
    if rows != 1 {
      return Refused(InvariantViolated), before;
    }
    assert ended == TerminateReview(World(before, history), i).world.db;
    var readable := ReadReviewEnd(ended, i, terminated, version.value, v);
    return if readable then Done else Refused(InvariantViolated), ended;
  }

  method Terminate(before: Db, ghost history: History, i: TerminateInput) returns (answer: Answer, tx: Db)
    requires Indexed(before)
    requires forall draft :: ReviewDraft(before, i.user, i.goal) == Some(draft) ==>
               OwnUsages(before, i.user, GenerationsOfDraft(before.generations, i.user, draft))
    requires var step := UseCases.Terminate(World(before, history), i);
             step.answer == Done ==>
               if i.state == ActiveCycle then ActiveEndable(before, step.world.db, i)
                 else ReviewEndable(before, step.world.db, i)
    ensures Does(UseCases.Terminate(World(before, history), i), answer, tx)
  {
    if !TerminateInputValid(i) {
      return Refused(InvalidRequest), before;
    }
    if i.user !in before.users {
      return Refused(NotFound), before;
    }
    var receipt := FindTermination(before, i.user, i.operation);
    if receipt.Some? && (receipt.value != i.goal || before.goals[receipt.value].terminal != Some(TerminateClaim(i))) {
      return Refused(IdempotencyKeyReused), before;
    }
    if !OwnsGoal(before, i.user, i.goal) {
      return Refused(NotFound), before;
    }
    if receipt.Some? {
      var valid := TerminateReplay(before, i.user, i.goal, i.outcome, i.goalRevision, i.cycle);
      return if valid then Replayed else Refused(InvariantViolated), before;
    }
    if !Progressing(before.goals[i.goal].status) {
      return Refused(AlreadyTerminal), before;
    }
    if before.goals[i.goal].status != i.state {
      return Refused(GoalStateConflict), before;
    }
    if i.state == ActiveCycle {
      answer, tx := EndActive(before, history, i);
    } else {
      answer, tx := EndReview(before, history, i);
    }
  }
}
