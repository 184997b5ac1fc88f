/** When a month goes above its limit: exactly which transactions do it, and a run in which one does. */
module Overrun {
  import opened Base
  import opened Rows
  import opened MapSum
  import opened Keys
  import opened Schema
  import opened Ledger
  import opened LedgerInvariant
  import opened Text
  import opened Lifecycle
  import opened Targets
  import opened UseCases
  import opened Outcomes
  import opened Soundness
  import opened MoneySteps
  import opened Runs
  import opened Quiet

  // The totals of the months.

  lemma ReleaseLowers(w: World, ids: set<Id>, month: int)
    ensures Spent(Release(w, ids).db.months, month) <= Spent(w.db.months, month)
  {
    SumNonNegative(Select(w.db.generations, ids), ReservedIn(month));
  }

  lemma AcceptStaysWithin(cfg: Config, w: World, x: World, user: Id, id: Id, now: int, month: int)
    requires Accepts(cfg, w, x, user, id, now) && Spent(Recover(w, user, now).db.months, month) <= cfg.budget
    ensures Spent(x.db.months, month) <= cfg.budget
  {
  }

  lemma BeganWithin(cfg: Config, w: World, x: World, user: Id, id: Id, now: int, month: int)
    requires Began(cfg, w, x, user, id, now) && Spent(w.db.months, month) <= cfg.budget
    ensures Spent(x.db.months, month) <= cfg.budget
  {
    ReleaseLowers(w, ExpiredIds(w.db.generations, user, now), month);
    if Accepts(cfg, w, x, user, id, now) {
      AcceptStaysWithin(cfg, w, x, user, id, now, month);
    }
  }

  lemma DeleteGoalWithin(w: World, i: DeleteInput, month: int)
    ensures Spent(DeleteGoal(w, i).world.db.months, month) <= Spent(w.db.months, month)
  {
    ReleaseLowers(w, RunningOfGoal(w.db.generations, i.user, i.goal), month);
  }

  /** A usage that is not settled still exposes the month. */
  predicate Exposes(db: Db, id: Id, month: int) {
    && id in db.usages && db.usages[id].user in db.users && db.usages[id].finalizedAt.None?
    && db.usages[id].exposure.Some? && db.usages[id].exposure.value.month == month
  }

  /**
   A report that comes too late for its generation: ended, or gone; and it is the report of that kind of operation.
   */
  predicate ComesLate(db: Db, e: Event) {
    match e
    case OnFinishAction(f) =>
      f.id in db.generations ==>
        var g := db.generations[f.id]; g.status != Running && g.operation == f.operation && g.operation != GoalRefine
    case OnFinishRefine(f) =>
      f.id in db.generations ==> db.generations[f.id].status != Running && db.generations[f.id].operation == GoalRefine
    case _ => false
  }

  /** What the released operations of a User still expose in a month. */
  ghost function ReleasedExposure(db: Db, user: Id, month: int): int {
    Sum(Select(db.usages, ReleasedOfUser(db, user)), ExposedIn(month))
  }

  /** The two transactions that charge more than was reserved: all rows a caller can look up. */
  ghost predicate Overruns(limit: int, db: Db, e: Event, month: int) {
    var headroom := limit - Spent(db.months, month);
    || (ComesLate(db, e) && Exposes(db, e.report.id, month) && e.report.cost > headroom)
    || (e.OnDeleteAccount? && e.user in db.users && ReleasedExposure(db, e.user, month) > headroom)
  }

  lemma SettlingLowers(w: World, f: FinishInput, changed: bool, month: int)
    requires f.id in w.db.generations && f.id in w.db.usages && f.id in w.history.log
    requires f.cost <= w.db.generations[f.id].reserved
    ensures Spent(Settling(w, f, changed).db.months, month) <= Spent(w.db.months, month)
  {
  }

  lemma LateSpends(w: World, f: FinishInput, month: int)
    requires Exposes(w.db, f.id, month) ||
               !(f.id in w.db.usages && w.db.usages[f.id].finalizedAt.None? && w.db.usages[f.id].exposure.Some?) ||
             Exposes(w.db, f.id, w.db.usages[f.id].exposure.value.month)
    ensures Spent(Late(w, f).world.db.months, month) == Spent(w.db.months, month) + if Exposes(w.db, f.id, month)
            then f.cost else 0
  {
  }

  /** A report that finds nothing running is late, or refused. */
  lemma FinishWithoutRow(w: World, f: FinishInput)
    ensures !RunsAction(w, f.id) ==>
              FinishAction(w, f).world == if ComesLate(w.db, OnFinishAction(f)) then Late(w, f).world else w
    ensures !RunsRefine(w, f.id) ==>
              FinishRefine(w, f).world == if ComesLate(w.db, OnFinishRefine(f)) then Late(w, f).world else w
  {
  }

  lemma UsageOwnerThere(w: World, id: Id)
    requires RowsFit(w.db, w.history.log) && id in w.db.usages && w.db.usages[id].finalizedAt.None?
    ensures w.db.usages[id].user in w.db.users && w.db.usages[id].exposure.Some?
  {
    assert UsageFits(w.db.usages[id], w.history.log, id);
    assert EntryFits(w.history.log[id], w.db, id);
  }

  lemma RunningCostFits(w: World, f: FinishInput)
    requires RowsFit(w.db, w.history.log) && Plausible(w, f) && f.id in w.db.generations
             && w.db.generations[f.id].status == Running
    ensures f.id in w.history.log && f.id in w.db.usages && f.cost <= w.db.generations[f.id].reserved
  {
    assert GenerationFits(w.db.generations[f.id], w.history.log, f.id);
    assert EntryFits(w.history.log[f.id], w.db, f.id);
  }

  lemma LateReportSpends(w: World, f: FinishInput, month: int)
    requires RowsFit(w.db, w.history.log)
    ensures Spent(Late(w, f).world.db.months, month) == Spent(w.db.months, month) + if Exposes(w.db, f.id, month)
            then f.cost else 0
  {
    if f.id in w.db.usages && w.db.usages[f.id].finalizedAt.None? {
      UsageOwnerThere(w, f.id);
    }
    LateSpends(w, f, month);
  }

  lemma FinishActionSpends(cfg: Config, w: World, f: FinishInput, month: int)
    requires Sound(cfg, w) && Plausible(w, f)
    ensures var spent := Spent(FinishAction(w, f).world.db.months, month);
            if ComesLate(w.db, OnFinishAction(f)) && Exposes(w.db, f.id, month)
              then spent == Spent(w.db.months, month) + f.cost
            else spent <= Spent(w.db.months, month)
  {
    FinishWithoutRow(w, f);
    LateReportSpends(w, f, month);
    if RunsAction(w, f.id) {
      RunningCostFits(w, f);
      RunningActionUntouched(cfg, w, f.id);
      FinishActionCases(w, f);
      if FinishAction(w, f).world != w {
        FinishActionEffect(w, f);
        SettlingLowers(w, f, ContextChanged(w, f), month);
      }
    }
  }

  lemma FinishRefineSpends(cfg: Config, w: World, f: FinishInput, month: int)
    requires Sound(cfg, w) && Plausible(w, f) && f.operation == GoalRefine
    ensures var spent := Spent(FinishRefine(w, f).world.db.months, month);
            if ComesLate(w.db, OnFinishRefine(f)) && Exposes(w.db, f.id, month)
              then spent == Spent(w.db.months, month) + f.cost
            else spent <= Spent(w.db.months, month)
  {
    FinishWithoutRow(w, f);
    LateReportSpends(w, f, month);
    if RunsRefine(w, f.id) {
      RunningCostFits(w, f);
      RunningRefineUntouched(cfg, w, f.id);
      FinishRefineCases(w, f);
      if FinishRefine(w, f).world != w {
        FinishRefineEffect(w, f);
        var g := w.db.generations[f.id];
        SettlingLowers(w, f, w.db.drafts[g.draft.value].revision != g.targetRevision, month);
      }
    }
  }

  /** Deleting an Account adds what its released operations expose; what is still reserved only changes its column. */
  lemma DeleteAccountSpends(w: World, user: Id, month: int)
    requires RowsFit(w.db, w.history.log) && user in w.db.users
    ensures Spent(DeleteAccount(w, user).world.db.months, month) ==
              Spent(w.db.months, month) + ReleasedExposure(w.db, user, month)
  {
    if month !in w.db.months {
      NothingMoved(w.db, w.history.log, user, month);
    }
  }

  /**
   A month within the limit is above it after a transaction exactly if a report comes too late for its
   reservation and costs more than there is room for, or an Account is deleted whose released operations
   still expose more than there is room for.
   */
  lemma OverrunIff(cfg: Config, w: World, e: Event, month: int)
    requires Reachable(cfg, w) && Enabled(w, e) && Spent(w.db.months, month) <= cfg.budget
    ensures Spent(Apply(cfg, w, e).db.months, month) > cfg.budget <==> Overruns(cfg.budget, w.db, e, month)
  {
    ReachableInv(cfg, w);
    ApplyRows(cfg, w, e);
    if MovesMoney(e) {
      MoneyOverrun(cfg, w, e, month);
    } else {
      OthersQuiet(cfg, w, e, 0);
    }
  }

  lemma ReportOverrun(cfg: Config, w: World, e: Event, month: int)
    requires Sound(cfg, w) && Enabled(w, e) && (e.OnFinishAction? || e.OnFinishRefine?)
             && Spent(w.db.months, month) <= cfg.budget
    ensures Spent(Perform(cfg, w, e).world.db.months, month) > cfg.budget <==> Overruns(cfg.budget, w.db, e, month)
  {
    if e.OnFinishAction? {
      FinishActionSpends(cfg, w, e.report, month);
    } else {
      FinishRefineSpends(cfg, w, e.report, month);
    }
  }

  lemma BeginWithin(cfg: Config, w: World, e: Event, month: int)
    requires (e.OnBeginAction? || e.OnBeginRefine?) && Spent(w.db.months, month) <= cfg.budget
    ensures Spent(Perform(cfg, w, e).world.db.months, month) <= cfg.budget
  {
    BeginBegan(cfg, w, e);
    BeganWithin(cfg, w, Perform(cfg, w, e).world, BeginUser(e), BeginId(e), ClockOf(e).value, month);
  }

  lemma DeletionOverrun(cfg: Config, w: World, e: Event, month: int)
    requires RowsFit(w.db, w.history.log) && (e.OnDeleteGoal? || e.OnDeleteAccount?)
             && Spent(w.db.months, month) <= cfg.budget
    ensures Spent(Perform(cfg, w, e).world.db.months, month) > cfg.budget <==> Overruns(cfg.budget, w.db, e, month)
  {
    if e.OnDeleteGoal? {
      DeleteGoalWithin(w, e.delete, month);
    } else if e.user in w.db.users {
      DeleteAccountSpends(w, e.user, month);
    }
  }

  lemma MoneyOverrun(cfg: Config, w: World, e: Event, month: int)
    requires Sound(cfg, w) && Enabled(w, e) && MovesMoney(e) && Spent(w.db.months, month) <= cfg.budget
    ensures Spent(Perform(cfg, w, e).world.db.months, month) > cfg.budget <==> Overruns(cfg.budget, w.db, e, month)
  {
    if e.OnBeginAction? || e.OnBeginRefine? {
      BeginWithin(cfg, w, e, month);
    } else if e.OnFinishAction? || e.OnFinishRefine? {
      ReportOverrun(cfg, w, e, month);
    } else {
      DeletionOverrun(cfg, w, e, month);
    }
  }

  // A month above the limit.

  const TIGHT: Config := Config(2, 1, 10, 10, 60)

  /** One User with one Draft. */
  function OneDraft(generations: map<Id, Generation>, usages: map<Id, Usage>, months: map<int, Budget>): Db {
    Db({1}, map[], map[], map[], map[2 := Draft(1, Creation, "a", None, 0)], generations, usages, months, map[])
  }

  function Attempt(id: Id, now: int): RefineInput { RefineInput(1, Some(2), None, 0, None, id, id, 1, true, true, now) }

  function AttemptRow(id: Id, now: int): Generation {
    RefineGeneration(TIGHT, Attempt(id, now), 2, Draft(1, Creation, "a", None, 0), None)
  }

  function AttemptUsage(now: int): Usage {
    Usage(1, None, UsageStatus.Accepted, now, QuotaRetainUntil(now), None, Some(Exposure(1, 10)), false)
  }

  const DRAFTED: World := World(OneDraft(map[], map[], map[]), History(map[], {1, 2}, 0))

  const RESERVED: World := World(
    OneDraft(map[3 := AttemptRow(3, 0)], map[3 := AttemptUsage(0)], map[1 := Budget(10, 0, 0)]),
    History(map[3 := Entry(1, 1, 10, 0, StillRunning, "a", 0)], {1, 2, 3}, 0))

  const RECOVERED: World := World(
    OneDraft(map[3 := FailGeneration(AttemptRow(3, 0), LeaseExpired)],
        map[3 := AttemptUsage(0).(status := UsageFailed)], map[1 := Budget(0, 0, 0)]),
    History(map[3 := Entry(1, 1, 10, 0, Released, "a", 0)], {1, 2, 3}, 0))

  const RESERVED_AGAIN: World := World(
    OneDraft(map[3 := FailGeneration(AttemptRow(3, 0), LeaseExpired), 4 := AttemptRow(4, 60)],
             map[3 := AttemptUsage(0).(status := UsageFailed), 4 := AttemptUsage(60)], map[1 := Budget(10, 0, 0)]),
    History(map[3 := Entry(1, 1, 10, 0, Released, "a", 0), 4 := Entry(1, 1, 10, 60, StillRunning, "a", 0)],
            {1, 2, 3, 4}, 60))

  const LATE: Event := OnFinishRefine(FinishInput(3, GoalRefine, 0, "b", 10, None, 61))

  lemma DraftedReachable()
    ensures Run(TIGHT, EMPTY, [OnCreateUser(1), OnCreateDraft(1, "a", 2)], DRAFTED)
  {
    NormalizeBodyFixpoint("a", true);
    var one := Apply(TIGHT, EMPTY, OnCreateUser(1));
    assert one == World(Db({1}, map[], map[], map[], map[], map[], map[], map[], map[]), History(map[], {1}, 0));
    assert Apply(TIGHT, one, OnCreateDraft(1, "a", 2)) == DRAFTED;
    var events := [OnCreateUser(1), OnCreateDraft(1, "a", 2)];
    assert events[1..] == [OnCreateDraft(1, "a", 2)] && events[1..][1..] == [];
    assert Run(TIGHT, DRAFTED, [], DRAFTED);
    assert Run(TIGHT, one, events[1..], DRAFTED);
  }

  lemma FirstBegins()
    ensures BeginRefine(TIGHT, DRAFTED, Attempt(3, 0)).world == RESERVED
  {
    assert ExpiredIds(DRAFTED.db.generations, 1, 0) == {};
    assert Recover(DRAFTED, 1, 0) == DRAFTED;
    assert 'a' in "a" && !Blank("a");
    assert RollingUsage(DRAFTED.db.usages, 1, 0 - ROLLING_WINDOW) == {};
    assert RefineError(TIGHT, DRAFTED.db, Attempt(3, 0), 2) == None;
  }

  lemma FirstAttempt()
    ensures Enabled(DRAFTED, OnBeginRefine(Attempt(3, 0)))
            && Apply(TIGHT, DRAFTED, OnBeginRefine(Attempt(3, 0))) == RESERVED
  {
    FirstBegins();
  }

  /** The second begin gives back what the first reserved. */
  lemma FirstRecovered()
    ensures Recover(RESERVED, 1, 60) == RECOVERED
  {
    assert ExpiredIds(RESERVED.db.generations, 1, 60) == {3};
    assert Select(RESERVED.db.generations, {3}) == map[3 := AttemptRow(3, 0)];
    SumSingle(3, AttemptRow(3, 0), ReservedIn(1));
    var r := Recover(RESERVED, 1, 60);
    assert r.db.months == RECOVERED.db.months && r.db.generations == RECOVERED.db.generations;
    assert r.db.usages == RECOVERED.db.usages && r.history.log == RECOVERED.history.log;
  }

  lemma SecondAdmitted()
    ensures RefineError(TIGHT, RECOVERED.db, Attempt(4, 60), 2) == None
  {
    assert 'a' in "a" && !Blank("a");
    assert RollingUsage(RECOVERED.db.usages, 1, 60 - ROLLING_WINDOW) == {3};
  }

  lemma SecondAccepted()
    ensures Accept(RECOVERED, 4, AttemptRow(4, 60), 60, "a", 0) ==
              RESERVED_AGAIN.(history := RESERVED_AGAIN.history.(clock := 0))
  {
    var x := Accept(RECOVERED, 4, AttemptRow(4, 60), 60, "a", 0);
    assert x.db.months == RESERVED_AGAIN.db.months && x.db.generations == RESERVED_AGAIN.db.generations;
    assert x.db.usages == RESERVED_AGAIN.db.usages && x.history.log == RESERVED_AGAIN.history.log;
    assert x.history.issued == RESERVED_AGAIN.history.issued;
  }

  lemma SecondBegins()
    ensures BeginRefine(TIGHT, RESERVED, Attempt(4, 60)).world ==
              RESERVED_AGAIN.(history := RESERVED_AGAIN.history.(clock := 0))
  {
    FirstRecovered();
    SecondAdmitted();
    SecondAccepted();
    assert !Has(RECOVERED.db.generations, ReplayKey, (1, GoalRefine, 4));
  }

  lemma SecondAttempt()
    ensures Enabled(RESERVED, OnBeginRefine(Attempt(4, 60)))
            && Apply(TIGHT, RESERVED, OnBeginRefine(Attempt(4, 60))) == RESERVED_AGAIN
  {
    SecondBegins();
  }

  lemma BothReachable()
    ensures Reachable(TIGHT, RESERVED_AGAIN)
  {
    DraftedReachable();
    assert Reachable(TIGHT, DRAFTED);
    FirstAttempt();
    ReachableThen(TIGHT, DRAFTED, OnBeginRefine(Attempt(3, 0)));
    SecondAttempt();
    ReachableThen(TIGHT, RESERVED, OnBeginRefine(Attempt(4, 60)));
  }

  lemma LateEnabled()
    ensures Enabled(RESERVED_AGAIN, LATE) && Overruns(10, RESERVED_AGAIN.db, LATE, 1)
  {
    assert 'b' in "b" && !Blank("b") && BodyText("b");
  }

  /** Two attempts on a limit for one: the first is recovered and reports late, when the second holds all there was. */
  lemma LimitIsExceeded() returns (w: World)
    ensures Reachable(TIGHT, RESERVED_AGAIN) && Enabled(RESERVED_AGAIN, LATE)
            && Spent(RESERVED_AGAIN.db.months, 1) == TIGHT.budget
    ensures w == Apply(TIGHT, RESERVED_AGAIN, LATE) && Reachable(TIGHT, w) && Spent(w.db.months, 1) > TIGHT.budget
  {
    BothReachable();
    LateEnabled();
    ReachableThen(TIGHT, RESERVED_AGAIN, LATE);
    w := Apply(TIGHT, RESERVED_AGAIN, LATE);
    OverrunIff(TIGHT, RESERVED_AGAIN, LATE, 1);
  }
}
