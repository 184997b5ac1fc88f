/** The AI operations on an Action as transactions: begin reserves, finish applies and settles. */
module ActionTransactions {
  import opened Base
  import opened Rows
  import opened Keys
  import opened Schema
  import opened Ledger
  import opened Text
  import opened UseCases
  import opened Statements
  import opened Queries
  import opened Transactions
  import CycleDomain

  /**
   One more operation: reserving for it finds the month and leaves it within the limit, and the User within the quota.
   */
  predicate HasRoom(cfg: Config, tx: Db, user: Id, month: int, now: int) {
    var (reserved, rows) := ReserveCas(EnsureMonth(tx, month), month, cfg.reservation);
    && rows == 1 && Spent(reserved.months, month) <= cfg.budget
    && |RollingUsage(tx.usages, user, now - ROLLING_WINDOW)| + 1 <= cfg.quota
  }

  /** The checks between locking the target and reserving money. */
  method CheckAdmission(cfg: Config, tx: Db, user: Id, month: int, running: bool, rateOk: bool, now: int)
    returns (refusal: Option<Error>)
    ensures refusal == AdmissionError(cfg, tx, user, month, running, rateOk, now)
    ensures refusal.None? <==> !running && rateOk && HasRoom(cfg, tx, user, month, now)
  {
    if running {
      return Some(InProgress);
    }
    if |RollingUsage(tx.usages, user, now - ROLLING_WINDOW)| >= cfg.quota {
      return Some(UserLimit);
    }
    if !rateOk {
      return Some(RateLimited);
    }
    EnsuredMonth(tx, month, cfg.reservation);
    if Spent(tx.months, month) + cfg.reservation > cfg.budget {
      return Some(Error.OverBudget);
    }
    return None;
  }

  /**
   What an admitted Action operation starts from: nothing runs on the Cycle, its texts are the ones asked for, and no
   Action is lost unasked.
   */
  ghost predicate Startable(tx: Db, i: ActionInput)
    requires i.goal in tx.goals && i.cycle in tx.cycles
  {
    var c := tx.cycles[i.cycle];
    && !RunsOnCycle(tx.generations, i.user, i.goal, i.cycle)
    && CurrentVersion(tx, i.goal) == Some(c.version) && c.revisions.content == i.expected
    && !Blank(c.plan) && !Blank(c.doing) && !Blank(c.check)
    && match i.operation
       case ActionRefine => !Blank(c.action)
       case ActionGenerate => Blank(c.action) || i.replace
       case GoalRefine => true
  }

  method CheckAction(cfg: Config, tx: Db, i: ActionInput) returns (refusal: Option<Error>)
    requires Indexed(tx) && i.goal in tx.goals && i.cycle in tx.cycles
    ensures refusal == ActionError(cfg, tx, i)
    ensures refusal.None? <==> Startable(tx, i) && i.contextOk && i.rateOk && HasRoom(cfg, tx, i.user, i.month, i.now)
  {
    var current := tx.cycles[i.cycle];
    var version := FindVersion(tx, i.goal);
    if Some(current.version) != version {
      return Some(GoalVersionConflict);
    }
    if current.revisions.content != i.expected {
      return Some(RevisionConflict);
    }
    if Blank(current.plan) || Blank(current.doing) || Blank(current.check) {
      return Some(InputIncomplete);
    }
    if i.operation == ActionRefine && Blank(current.action) {
      return Some(InputIncomplete);
    }
    if i.operation == ActionGenerate && !Blank(current.action) && !i.replace {
      return Some(ReplacementRequired);
    }
    if !i.contextOk {
      return Some(ContextRejected);
    }
    var running := RunsOnCycle(tx.generations, i.user, i.goal, i.cycle);
    refusal := CheckAdmission(cfg, tx, i.user, i.month, running, i.rateOk, i.now);
  }

  method LockTarget(tx: Db, user: Id, goal: Id, cycle: Id) returns (found: bool)
    requires Indexed(tx)
    ensures found == (OwnsGoal(tx, user, goal) && CurrentVersion(tx, goal).Some? && OwnsCycle(tx, user, goal, cycle))
  {
    if !OwnsGoal(tx, user, goal) {
      return false;
    }
    var version := FindVersion(tx, goal);
    return version.Some? && OwnsCycle(tx, user, goal, cycle);
  }

  /** A repeated begin answers from its generation; an expired one is failed first. */
  method Replay(before: Db, ghost history: History, i: ActionInput, id: Id) returns (answer: Answer, tx: Db)
    requires Indexed(before) && id in before.generations
    requires Releasable(before, ExpiredIds(before.generations, i.user, i.now))
    ensures Does(ReplayAction(World(before, history), i, id), answer, tx)
  {
    var g := before.generations[id];
    if g.request != ActionRequestOf(i) {
      return Refused(IdempotencyKeyReused), before;
    }
    if g.status == Running && g.lease.Some? && g.lease.value <= i.now {
      var found := LockTarget(before, i.user, i.goal, i.cycle);
      if !found {
        return Refused(NotFound), before;
      }
      var ok;
      ok, tx := RecoverExpired(before, history, i.user, i.now);
      if !ok {
        return Refused(InvariantViolated), before;
      }
      return Refused(OperationFailed(LeaseExpired)), tx;
    }
    if g.status == Succeeded && g.output.Some? && g.output.value != "" {
      var found := LockTarget(before, i.user, i.goal, i.cycle);
      if !found {
        return Refused(NotFound), before;
      }
    }
    return ReplayAnswer(id, g), before;
  }

  lemma RecoveredIndexed(db: Db, history: History, user: Id, now: int)
    requires Indexed(db)
    ensures Indexed(Recover(World(db, history), user, now).db)
  {
    var after := Recover(World(db, history), user, now).db.generations;
    UniqueShrink(db.generations, after, ReplayKey);
    UniqueShrink(db.generations, after, RunningCycleKey);
    UniqueShrink(db.generations, after, RunningDraftKey);
  }

  method BeginAction(cfg: Config, before: Db, ghost history: History, i: ActionInput) returns (answer: Answer, tx: Db)
    requires Indexed(before) && Releasable(before, ExpiredIds(before.generations, i.user, i.now))
    requires i.id !in before.generations && i.id !in before.usages
    ensures Does(UseCases.BeginAction(cfg, World(before, history), i), answer, tx)
  {
    if i.operation == GoalRefine {
      return Refused(InputIncomplete), before;
    }
    if i.user !in before.users {
      return Refused(NotFound), before;
    }
    var replay := FindReplay(before, i.user, i.operation, i.key);
    if replay.Some? {
      answer, tx := Replay(before, history, i, replay.value);
      return;
    }
    var found := LockTarget(before, i.user, i.goal, i.cycle);
    if !found {
      return Refused(NotFound), before;
    }
    if before.goals[i.goal].status != ActiveCycle {
      return Refused(GoalStateConflict), before;
    }
    var current := before.cycles[i.cycle];
    if current.status != Active {
      return Refused(CycleNotActive), before;
    }
    var ok;
    ok, tx := RecoverExpired(before, history, i.user, i.now);
    if !ok {
      return Refused(InvariantViolated), before;
    }
    RecoveredIndexed(before, history, i.user, i.now);
    var refusal := CheckAction(cfg, tx, i);
    if refusal.Some? {
      return Refused(refusal.value), before;
    }
    ghost var recovered := Recover(World(before, history), i.user, i.now);
    ok, tx := AcceptOperation(tx, recovered.history, i.id, ActionGeneration(cfg, i, current), i.now, current.action,
        current.revisions.action);
    return if ok then Begun(i.id) else Refused(InvariantViolated), tx;
  }

  /** Apply the output to the Cycle, over exactly the revisions that were locked. */
  method ApplyOutput(before: Db, cycle: Id, output: string) returns (ok: bool, tx: Db)
    requires cycle in before.cycles
    ensures ok == CycleDomain.ApplyAiAction(before.cycles[cycle], output).Ok?
    ensures tx == if ok then before.(cycles :=
              before.cycles[cycle := CycleDomain.ApplyAiAction(before.cycles[cycle], output).value]) else before
  {
    var c := before.cycles[cycle];
    var updated := CycleDomain.ApplyAiAction(c, output);
    if updated.Err? {
      return false, before;
    }
    var (applied, rows) := ApplyActionCas(before, cycle, updated.value, c.revisions.content, c.revisions.action);
    return rows == 1, applied;
  }

  method FinishLate(before: Db, ghost history: History, f: FinishInput) returns (answer: Answer, tx: Db)
    requires Settleable(before, f.id)
    ensures Does(Late(World(before, history), f), answer, tx)
  {
    var ok;
    ok, tx := SettleLateUsage(before, history, f.id, f.cost, f.failure.Some?, f.now);
    return if ok then Refused(NotFound) else Refused(InvariantViolated), tx;
  }

  method FinishAction(before: Db, ghost history: History, f: FinishInput) returns (answer: Answer, tx: Db)
    requires Indexed(before) && Settleable(before, f.id)
    ensures Does(UseCases.FinishAction(World(before, history), f), answer, tx)
  {
    if f.id !in before.generations {
      answer, tx := FinishLate(before, history, f);
      return;
    }
    var g := before.generations[f.id];
    if g.operation == GoalRefine || g.operation != f.operation {
      return Refused(InvariantViolated), before;
    }
    if g.status != Running {
      answer, tx := FinishLate(before, history, f);
      return;
    }
    if g.user !in before.users {
      return Refused(NotFound), before;
    }
    if g.goal.None? || g.cycle.None? {
      answer, tx := FinishLate(before, history, f);
      return;
    }
    var found := LockTarget(before, g.user, g.goal.value, g.cycle.value);
    if !found {
      answer, tx := FinishLate(before, history, f);
      return;
    }
    if g.targetRevision != f.targetRevision || f.id !in before.usages {
      return Refused(InvariantViolated), before;
    }
    var current := before.cycles[g.cycle.value];
    var version := FindVersion(before, g.goal.value);
    var failure := f.failure;
    if before.goals[g.goal.value].status != ActiveCycle || current.status != Active {
      failure := Some(ProviderUnavailable);
    }
    if Some(current.version) != g.version || version != g.version {
      failure := Some(VersionConflict);
    }
    var changed := current.revisions.content != g.targetRevision;
    var ok;
    tx := before;
    if failure.None? {
      ok, tx := ApplyOutput(before, g.cycle.value, f.output);
      if !ok {
        return Refused(InvariantViolated), before;
      }
    }
    ok, tx := SettleOperation(tx, history, f.id, Terminal(g, f.output, failure, changed), f.cost, failure.Some?, f.now);
    if !ok {
      return Refused(InvariantViolated), before;
    }
    return FinishAnswer(f, failure, changed), tx;
  }
}
