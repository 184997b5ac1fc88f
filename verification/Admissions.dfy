/** Exactly when an AI operation is let through, what its begin leaves, and what a repeated begin answers. */
module Admissions {
  import opened Base
  import opened Rows
  import opened MapSum
  import opened Keys
  import opened Schema
  import opened Ledger
  import opened LedgerInvariant
  import opened Text
  import opened Lifecycle
  import opened Targets
  import opened UseCases
  import opened Soundness
  import opened MoneySteps
  import opened Edits
  import opened Transitions

  // Recovery.

  /** The User's operation still counts as running, though its lease is over. */
  predicate Overdue(g: Generation, user: Id, now: int) {
    g.user == user && g.status == Running && g.lease.Some? && g.lease.value <= now
  }

  /** What the User's overdue operations hold of a month. */
  ghost function Freed(generations: map<Id, Generation>, user: Id, now: int, month: int): int {
    Sum(map id | id in generations && Overdue(generations[id], user, now) && generations[id].month == month ::
          generations[id].reserved, (reserved: nat) => reserved)
  }

  lemma FreedIs(generations: map<Id, Generation>, user: Id, now: int, month: int)
    ensures Freed(generations, user, now, month) ==
              Sum(Select(generations, ExpiredIds(generations, user, now)), ReservedIn(month))
  {
    var freed := map id | id in generations && Overdue(generations[id], user, now) && generations[id].month == month ::
      generations[id].reserved;
    SumSame(freed, (reserved: nat) => reserved, Select(generations, ExpiredIds(generations, user, now)),
            ReservedIn(month));
  }

  /** Overdue operations fail, give back what they held, and free nothing else. */
  ghost predicate Recovers(w: World, user: Id, now: int, x: World) {
    && x.db == w.db.(generations := x.db.generations, usages := x.db.usages, months := x.db.months)
    && x.db.generations.Keys == w.db.generations.Keys && x.db.usages.Keys == w.db.usages.Keys
    && (forall id :: id in w.db.generations ==>
          var g := w.db.generations[id];
          x.db.generations[id] ==
            if Overdue(g, user, now)
              then g.(status := Failed, failure := Some(LeaseExpired), reserved := 0, lease := None)
            else g)
    && (forall id :: id in w.db.usages ==>
          x.db.usages[id] ==
            if id in w.db.generations && Overdue(w.db.generations[id], user, now)
            then w.db.usages[id].(status := UsageFailed)
            else w.db.usages[id])
    && (forall month ::
          var b := MonthOf(w.db.months, month);
          MonthOf(x.db.months, month) ==
            Budget(b.reserved - Freed(w.db.generations, user, now, month), b.actual, b.unattributed))
  }

  lemma RecoveredMonth(w: World, user: Id, now: int, month: int)
    requires RowsFit(w.db, w.history.log)
    ensures var b := MonthOf(w.db.months, month);
            MonthOf(Recover(w, user, now).db.months, month) ==
              Budget(b.reserved - Freed(w.db.generations, user, now, month), b.actual, b.unattributed)
  {
    var ids := ExpiredIds(w.db.generations, user, now);
    RunningHold(w.db, w.history.log, ids);
    ReleasedBudget(w.db.months, Select(w.db.generations, ids), month);
    FreedIs(w.db.generations, user, now, month);
  }

  lemma RecoverRows(w: World, user: Id, now: int)
    requires RowsFit(w.db, w.history.log)
    ensures Recovers(w, user, now, Recover(w, user, now))
  {
    forall month
      ensures var b := MonthOf(w.db.months, month);
              MonthOf(Recover(w, user, now).db.months, month) ==
                Budget(b.reserved - Freed(w.db.generations, user, now, month), b.actual, b.unattributed)
    {
      RecoveredMonth(w, user, now, month);
    }
  }

  // Room for one more operation.

  /** The operations of the User's last 24 hours. */
  function LastDay(usages: map<Id, Usage>, user: Id, now: int): set<Id> {
    set id | id in usages && usages[id].user == user && usages[id].acceptedAt > now - 86400
  }

  /** The day and the month have room for it. */
  ghost predicate Room(cfg: Config, db: Db, user: Id, month: int, now: int) {
    && |LastDay(db.usages, user, now)| < cfg.quota
    && var b := MonthOf(db.months, month);
    && b.reserved + b.actual + b.unattributed - Freed(db.generations, user, now, month) + cfg.reservation <= cfg.budget
  }

  lemma RoomIff(cfg: Config, w: World, user: Id, month: int, now: int)
    requires RowsFit(w.db, w.history.log)
    ensures var r := Recover(w, user, now).db;
            Room(cfg, w.db, user, month, now) <==>
              |RollingUsage(r.usages, user, now - ROLLING_WINDOW)| < cfg.quota &&
              !ExceedsBudget(r.months, month, cfg.reservation, cfg.budget)
  {
    var r := Recover(w, user, now).db;
    RecoverRows(w, user, now);
    assert RollingUsage(r.usages, user, now - ROLLING_WINDOW) == LastDay(w.db.usages, user, now);
  }

  /** The accepted operation's row, usage and reservation are there, and everything else is as after recovery. */
  ghost predicate AcceptedRow(cfg: Config, r: World, id: Id, g: Generation, now: int, x: World) {
    && x.db == r.db.(generations := r.db.generations[id := g], usages := x.db.usages, months := x.db.months)
    && x.db.usages == r.db.usages[id := Usage(g.user, g.goal, UsageStatus.Accepted, now, now + 86400 + 900, None,
                                              Some(Exposure(g.month, cfg.reservation)), false)]
    && (forall month ::
          var b := MonthOf(r.db.months, month);
          MonthOf(x.db.months, month) ==
            if month == g.month then b.(reserved := b.reserved + cfg.reservation) else b)
  }

  lemma AcceptRows(cfg: Config, r: World, id: Id, g: Generation, now: int, text: string, revision: nat)
    requires g.reserved == cfg.reservation
    ensures AcceptedRow(cfg, r, id, g, now, Accept(r, id, g, now, text, revision))
  {
  }

  /** No operation of the kind carries the key. */
  predicate KeyFree(generations: map<Id, Generation>, user: Id, operation: Operation, key: Id) {
    forall id :: id in generations ==>
      !(generations[id].user == user && generations[id].operation == operation && generations[id].key == key)
  }

  lemma KeyFreeIff(generations: map<Id, Generation>, user: Id, operation: Operation, key: Id)
    ensures Lookup(generations, ReplayKey, (user, operation, key)).None? <==> KeyFree(generations, user, operation, key)
  {
    if !KeyFree(generations, user, operation, key) {
      var id :| id in generations && generations[id].user == user && generations[id].operation == operation &&
                generations[id].key == key;
      assert ReplayKey(generations[id]) == Some((user, operation, key));
    }
    var found := Lookup(generations, ReplayKey, (user, operation, key));
    if found.Some? {
      assert generations[found.value].key == key;
    }
  }

  /** A begin that is not let through leaves the rows alone, or gives back what is overdue. */
  ghost predicate Refrains(w: World, user: Id, now: int, s: Step) {
    s.world == w || s.world == Recover(w, user, now)
  }

  // An Action operation.

  /** Nothing but overdue operations runs on the Cycle. */
  predicate CycleFree(generations: map<Id, Generation>, cycle: Id, now: int) {
    forall id :: id in generations && generations[id].cycle == Some(cycle) && generations[id].status == Running ==>
      generations[id].lease.Some? && generations[id].lease.value <= now
  }

  lemma CycleFreeIff(w: World, user: Id, goal: Id, cycle: Id, now: int)
    requires TargetsInv(w.db, w.history.log) && OwnsCycle(w.db, user, goal, cycle)
    ensures !RunsOnCycle(Recover(w, user, now).db.generations, user, goal, cycle) <==>
              CycleFree(w.db.generations, cycle, now)
  {
    var r := Recover(w, user, now).db.generations;
    forall id | id in w.db.generations && w.db.generations[id].cycle == Some(cycle)
      ensures w.db.generations[id].user == user && w.db.generations[id].goal == Some(goal)
    {
      assert Aims(id, w.db.generations[id], w.db, w.history.log);
    }
    if !CycleFree(w.db.generations, cycle, now) {
      var id :| id in w.db.generations && w.db.generations[id].cycle == Some(cycle) &&
                w.db.generations[id].status == Running &&
                !(w.db.generations[id].lease.Some? && w.db.generations[id].lease.value <= now);
      assert r[id] == w.db.generations[id];
    }
  }

  /** What the Cycle's texts must be for the operation. */
  predicate TextsReady(c: Cycle, operation: Operation, replace: bool) {
    && !Blank(c.plan) && !Blank(c.doing) && !Blank(c.check)
    && match operation
       case GoalRefine => false
       case ActionGenerate => Blank(c.action) || replace
       case ActionRefine => !Blank(c.action)
  }

  ghost predicate ActionOpen(cfg: Config, db: Db, i: ActionInput) {
    && KeyFree(db.generations, i.user, i.operation, i.key) && OwnsCycle(db, i.user, i.goal, i.cycle)
    && var c := db.cycles[i.cycle];
    && c.status == Active && c.revisions.content == i.expected && TextsReady(c, i.operation, i.replace)
    && i.contextOk && i.rateOk && CycleFree(db.generations, i.cycle, i.now) && Room(cfg, db, i.user, i.month, i.now)
  }

  /** The row of an accepted Action operation. */
  predicate ActionRow(cfg: Config, i: ActionInput, c: Cycle, g: Generation) {
    && g.user == i.user && g.operation == i.operation && g.status == Running && g.draft == None
    && g.goal == Some(i.goal) && g.version == Some(c.version) && g.cycle == Some(i.cycle)
    && g.targetRevision == c.revisions.content && g.key == i.key
    && g.request == ActionRequest(i.operation, i.goal, i.cycle, i.expected, i.replace)
    && g.source == (if i.operation == ActionRefine then Some(c.action) else None)
    && g.output == None && g.failure == None && g.adopted == None && !g.contextChanged
    && g.month == i.month && g.reserved == cfg.reservation && g.lease == Some(i.now + cfg.lease)
  }

  lemma ActionErrorIff(cfg: Config, db: Db, i: ActionInput)
    requires i.goal in db.goals && i.cycle in db.cycles && i.operation != GoalRefine
    requires CurrentVersion(db, i.goal) == Some(db.cycles[i.cycle].version)
    ensures ActionError(cfg, db, i).None? <==>
              var c := db.cycles[i.cycle];
              && c.revisions.content == i.expected && TextsReady(c, i.operation, i.replace) && i.contextOk && i.rateOk
              && !RunsOnCycle(db.generations, i.user, i.goal, i.cycle)
              && |RollingUsage(db.usages, i.user, i.now - ROLLING_WINDOW)| < cfg.quota
              && !ExceedsBudget(db.months, i.month, cfg.reservation, cfg.budget)
  {
  }

  lemma ActionRowIs(cfg: Config, i: ActionInput, c: Cycle)
    ensures ActionRow(cfg, i, c, ActionGeneration(cfg, i, c)) && ActionGeneration(cfg, i, c).reserved == cfg.reservation
  {
  }

  lemma ActionShape(cfg: Config, w: World, i: ActionInput)
    requires i.operation != GoalRefine && Stands(w.db, i.user, i.goal, i.cycle)
    ensures var s, r, c := BeginAction(cfg, w, i), Recover(w, i.user, i.now), w.db.cycles[i.cycle];
            && (s.answer == Begun(i.id) <==>
                  && Lookup(w.db.generations, ReplayKey, (i.user, i.operation, i.key)).None?
                  && ActionError(cfg, r.db, i).None?)
            && (s.answer != Begun(i.id) ==> Refrains(w, i.user, i.now, s))
            && (s.answer == Begun(i.id) ==>
                  s.world == Accept(r, i.id, ActionGeneration(cfg, i, c), i.now, c.action, c.revisions.action))
  {
  }

  lemma ActionElse(cfg: Config, w: World, i: ActionInput)
    requires i.operation == GoalRefine || !OwnsCycle(w.db, i.user, i.goal, i.cycle) ||
             w.db.cycles[i.cycle].status != Active
    ensures BeginAction(cfg, w, i).answer != Begun(i.id) && Refrains(w, i.user, i.now, BeginAction(cfg, w, i))
  {
  }

  /** What an accepted Action operation leaves. */
  ghost predicate ActionBegun(cfg: Config, w: World, i: ActionInput, x: World) {
    && i.cycle in w.db.cycles && i.id in x.db.generations
    && ActionRow(cfg, i, w.db.cycles[i.cycle], x.db.generations[i.id])
    && AcceptedRow(cfg, Recover(w, i.user, i.now), i.id, x.db.generations[i.id], i.now, x)
  }

  lemma ActionRecovered(cfg: Config, w: World, i: ActionInput)
    requires Stands(w.db, i.user, i.goal, i.cycle) && i.operation != GoalRefine
    requires TargetsInv(w.db, w.history.log) && RowsFit(w.db, w.history.log)
    ensures var r, c := Recover(w, i.user, i.now).db, w.db.cycles[i.cycle];
            ActionError(cfg, r, i).None? <==>
              && c.revisions.content == i.expected && TextsReady(c, i.operation, i.replace) && i.contextOk && i.rateOk
              && CycleFree(w.db.generations, i.cycle, i.now) && Room(cfg, w.db, i.user, i.month, i.now)
  {
    CycleFreeIff(w, i.user, i.goal, i.cycle, i.now);
    RoomIff(cfg, w, i.user, i.month, i.now);
    ActionErrorIff(cfg, Recover(w, i.user, i.now).db, i);
  }

  lemma BeginActionFrom(cfg: Config, w: World, i: ActionInput)
    requires Stands(w.db, i.user, i.goal, i.cycle) && i.operation != GoalRefine
    requires TargetsInv(w.db, w.history.log) && RowsFit(w.db, w.history.log)
    ensures var s := BeginAction(cfg, w, i);
            && (s.answer == Begun(i.id) <==> ActionOpen(cfg, w.db, i))
            && (if s.answer == Begun(i.id) then ActionBegun(cfg, w, i, s.world) else Refrains(w, i.user, i.now, s))
  {
    var r, c := Recover(w, i.user, i.now), w.db.cycles[i.cycle];
    KeyFreeIff(w.db.generations, i.user, i.operation, i.key);
    ActionRecovered(cfg, w, i);
    ActionShape(cfg, w, i);
    ActionRowIs(cfg, i, c);
    AcceptRows(cfg, r, i.id, ActionGeneration(cfg, i, c), i.now, c.action, c.revisions.action);
  }

  /** An Action operation is let through exactly in such a state; its row, usage and reservation say what was asked. */
  lemma BeginActionIff(cfg: Config, w: World, i: ActionInput)
    requires Sound(cfg, w)
    ensures var s := BeginAction(cfg, w, i);
            && (s.answer == Begun(i.id) <==> ActionOpen(cfg, w.db, i))
            && (if s.answer == Begun(i.id) then ActionBegun(cfg, w, i, s.world) else Refrains(w, i.user, i.now, s))
            && Recovers(w, i.user, i.now, Recover(w, i.user, i.now))
  {
    RecoverRows(w, i.user, i.now);
    if i.operation != GoalRefine && OwnsCycle(w.db, i.user, i.goal, i.cycle) && w.db.cycles[i.cycle].status == Active {
      ActiveStands(w.db, i.user, i.goal, i.cycle);
      BeginActionFrom(cfg, w, i);
    } else {
      ActionElse(cfg, w, i);
    }
  }

  /** What a row answers to the command that made it. */
  predicate Answers(id: Id, g: Generation, now: int, answer: Answer) {
    match g.status
    case Running =>
      if g.lease.Some? && g.lease.value <= now then answer == Refused(OperationFailed(LeaseExpired))
      else answer == Refused(InProgress)
    case Failed => g.failure.Some? && answer == Refused(OperationFailed(g.failure.value))
    case Succeeded =>
      && g.output.Some?
      && if g.output.value == "" then answer == Refused(OperationFailed(InvalidResponse))
         else answer == ReplayedOutput(id, g.output.value, g.contextChanged)
  }

  lemma GoalReadable(db: Db, user: Id, goal: Id, cycle: Id)
    requires LifecycleInv(db) && OwnsCycle(db, user, goal, cycle)
    ensures OwnsGoal(db, user, goal) && CurrentVersion(db, goal).Some? && user in db.users
  {
    assert GoalInv(db, goal);
    assert CycleFits(cycle, db.cycles[cycle], db.goals[goal], db.versions, db.cycles);
  }

  lemma BeginActionFound(cfg: Config, w: World, i: ActionInput, id: Id)
    requires UniqueGenerations(w.db.generations) && id in w.db.generations && i.operation != GoalRefine
    requires OwnsGoal(w.db, i.user, i.goal) && CurrentVersion(w.db, i.goal).Some? && i.user in w.db.users
    requires OwnsCycle(w.db, i.user, i.goal, i.cycle) && GenerationFits(w.db.generations[id], w.history.log, id)
    requires ReplayKey(w.db.generations[id]) == Some((i.user, i.operation, i.key))
    ensures var s, g := BeginAction(cfg, w, i), w.db.generations[id];
            if g.request == ActionRequest(i.operation, i.goal, i.cycle, i.expected, i.replace)
            then Answers(id, g, i.now, s.answer) &&
                 s.world == if Overdue(g, i.user, i.now) then Recover(w, i.user, i.now) else w
            else s == Step(w, Refused(IdempotencyKeyReused))
  {
    LookupFinds(w.db.generations, ReplayKey, id);
  }

  /**
   A begin with a key that was used answers from the row it made: in progress, the failure, or the output; another
   request with the key is refused.
   */
  lemma BeginActionAgain(cfg: Config, w: World, i: ActionInput, id: Id)
    requires Sound(cfg, w) && id in w.db.generations && i.operation != GoalRefine
    requires OwnsCycle(w.db, i.user, i.goal, i.cycle)
    requires var g := w.db.generations[id]; g.user == i.user && g.operation == i.operation && g.key == i.key
    ensures var s, g := BeginAction(cfg, w, i), w.db.generations[id];
            if g.request == ActionRequest(i.operation, i.goal, i.cycle, i.expected, i.replace)
            then Answers(id, g, i.now, s.answer) &&
                 s.world == if Overdue(g, i.user, i.now) then Recover(w, i.user, i.now) else w
            else s == Step(w, Refused(IdempotencyKeyReused))
  {
    GoalReadable(w.db, i.user, i.goal, i.cycle);
    assert GenerationFits(w.db.generations[id], w.history.log, id);
    BeginActionFound(cfg, w, i, id);
  }
}
