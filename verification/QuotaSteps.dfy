/** Every use case keeps the rolling quota countable. */
module QuotaSteps {
  import opened Base
  import opened Rows
  import opened Keys
  import opened Schema
  import opened Ledger
  import opened LedgerInvariant
  import opened Quota
  import opened Lifecycle
  import opened Targets
  import opened UseCases
  import opened Outcomes
  import opened Soundness
  import opened MoneySteps

  function Tick(w: World, now: Option<int>): World {
    if now.None? then w else w.(history := w.history.(clock := Max(w.history.clock, now.value)))
  }

  /** A step that accepts nothing: which usage rows it may remove. */
  ghost predicate KeepsUsages(w: World, x: World, now: Option<int>) {
    && SameAcceptances(w.history.log, x.history.log) && x.history.clock == w.history.clock
    && (forall id :: id in w.history.log && w.history.log[id].user in x.db.users ==>
        w.history.log[id].user in w.db.users)
    && (forall id ::
          id in w.db.usages && id in w.history.log && w.history.log[id].user in x.db.users && id !in x.db.usages ==>
            now.Some? && w.history.log[id].acceptedAt + RETENTION <= now.value)
  }

  lemma KeepsUsagesQuota(cfg: Config, w: World, x: World, now: Option<int>)
    requires QuotaInv(cfg.quota, w.db.users, w.db.usages, w.history.log, w.history.clock) && KeepsUsages(w, x, now)
    ensures var y := Tick(x, now); QuotaInv(cfg.quota, y.db.users, y.db.usages, y.history.log, y.history.clock)
  {
    var y := Tick(x, now);
    QuotaKept(cfg.quota, w.db.users, w.db.usages, w.history.log, w.history.clock,
              y.db.users, y.db.usages, y.history.log, y.history.clock);
  }

  lemma RetentionDeadlines(w: World)
    requires RowsFit(w.db, w.history.log)
    ensures Deadlines(w)
  {
    forall id | id in w.db.usages && id in w.history.log
      ensures w.db.usages[id].retainUntil == w.history.log[id].acceptedAt + RETENTION
              && w.db.usages[id].user == w.history.log[id].user
    {
      assert UsageFits(w.db.usages[id], w.history.log, id);
    }
  }

  ghost predicate Deadlines(w: World) {
    forall id :: id in w.db.usages && id in w.history.log ==>
      && w.db.usages[id].retainUntil == w.history.log[id].acceptedAt + RETENTION
      && w.db.usages[id].user == w.history.log[id].user
  }

  lemma CreateUserKeepsUsages(w: World, user: Id)
    requires IssuedInv(w.db, w.history) && user !in w.history.issued
    ensures KeepsUsages(w, CreateUser(w, user).world, None)
  {
  }

  lemma DeleteAccountKeepsUsages(w: World, user: Id)
    requires Deadlines(w)
    ensures KeepsUsages(w, DeleteAccount(w, user).world, None)
  {
  }

  /** Steps that leave the log alone and keep every usage row. */
  ghost predicate SameUsages(w: World, x: World) {
    && x.history.log == w.history.log && x.history.clock == w.history.clock
    && x.db.users == w.db.users && x.db.usages.Keys == w.db.usages.Keys
  }

  lemma DraftWritesKeepUsages(w: World, user: Id, id: Id, body: string, patch: Patch, expected: int)
    ensures SameUsages(w, CreateDraft(w, user, body, id).world)
    ensures SameUsages(w, SaveDraft(w, user, id, body, patch, expected).world)
  {
  }

  lemma SaveReviewKeepsUsages(w: World, user: Id, goal: Id, id: Id, body: string, patch: Patch, expected: int)
    ensures SameUsages(w, SaveReview(w, user, goal, id, body, patch, expected).world)
  {
  }

  lemma SaveFrameKeepsUsages(w: World, user: Id, goal: Id, cycle: Id, frame: Frame, text: string, expected: int)
    ensures SameUsages(w, SaveFrame(w, user, goal, cycle, frame, text, expected).world)
  {
  }

  lemma ChangeScheduleKeepsUsages(w: World, user: Id, goal: Id, cycle: Id, date: Option<int>, expected: int)
    ensures SameUsages(w, ChangeSchedule(w, user, goal, cycle, date, expected).world)
  {
  }

  lemma AdoptKeepsUsages(w: World, i: AdoptInput)
    ensures SameUsages(w, AdoptSuggestion(w, i).world)
  {
    AdoptAdopts(w, i);
  }

  lemma StartKeepsUsages(cfg: Config, w: World, i: StartInput)
    ensures SameUsages(w, StartGoal(cfg, w, i).world)
  {
    StartAttaches(cfg, w, i);
  }

  lemma CompleteKeepsUsages(w: World, i: CompleteInput)
    ensures SameUsages(w, CompleteCycle(w, i).world)
  {
  }

  lemma ReplanKeepsUsages(w: World, i: ReplanInput)
    ensures SameUsages(w, ReplanCycle(w, i).world)
  {
  }

  lemma ContinueKeepsUsages(w: World, i: ContinueInput)
    ensures SameUsages(w, ContinueReview(w, i).world)
  {
    ContinueAttaches(w, i);
  }

  lemma CloseKeepsUsages(w: World, f: FinishInput, x: World)
    requires Closes(w, f, x) && f.id in w.history.log && f.cost <= w.history.log[f.id].reservation
    requires w.history.log[f.id].fate == StillRunning
    ensures KeepsUsages(w, x, None)
  {
  }

  lemma LateKeepsUsages(w: World, f: FinishInput)
    requires f.id in w.db.usages && f.id in w.history.log ==>
               f.cost <= w.history.log[f.id].reservation &&
               (w.db.usages[f.id].finalizedAt.None? ==> Unsettled(w.history.log[f.id].fate))
    ensures KeepsUsages(w, Late(w, f).world, None)
  {
  }

  /** A report moves its own operation's fate forward, and no usage row goes. */
  lemma ReportedKeepsUsages(w: World, f: FinishInput, x: World)
    requires RowsFit(w.db, w.history.log) && Plausible(w, f) && Reported(w, f, x)
    ensures KeepsUsages(w, x, None)
  {
    assert f.id in w.db.usages ==> UsageFits(w.db.usages[f.id], w.history.log, f.id);
    assert f.id in w.db.generations ==> GenerationFits(w.db.generations[f.id], w.history.log, f.id);
    if Closes(w, f, x) {
      CloseKeepsUsages(w, f, x);
    } else {
      LateKeepsUsages(w, f);
    }
  }

  lemma AbandonKeepsUsages(w: World, user: Id, id: Id, now: int)
    requires Deadlines(w)
    ensures KeepsUsages(w, AbandonDraft(w, user, id, now).world, Some(now))
  {
    AbandonDrops(w, user, id, now);
  }

  lemma TerminateKeepsUsages(w: World, i: TerminateInput)
    requires Deadlines(w)
    ensures KeepsUsages(w, Terminate(w, i).world, Some(i.now))
  {
    TerminateDrops(w, i);
  }

  /** Giving reservations back removes no usage row. */
  lemma ReleaseKeepsUsages(w: World, ids: set<Id>)
    requires HoldReservations(w.db, w.history.log, ids)
    ensures KeepsUsages(w, Release(w, ids), None) && Release(w, ids).db.usages.Keys == w.db.usages.Keys
  {
  }

  lemma CascadeKeepsUsages(w: World, x: World, user: Id, goal: Id, now: int)
    requires Deadlines(w) && x.history == w.history && x.db.users == w.db.users
    requires x.db.usages == DropGoalUsages(w.db.usages, user, goal, now)
    ensures KeepsUsages(w, x, Some(now))
  {
  }

  lemma KeepsUsagesTransitive(w: World, r: World, x: World, now: int)
    requires KeepsUsages(w, r, None) && KeepsUsages(r, x, Some(now)) && r.db.usages.Keys == w.db.usages.Keys
             && r.db.users == w.db.users
    ensures KeepsUsages(w, x, Some(now))
  {
  }

  lemma DeleteGoalUsages(w: World, i: DeleteInput)
    requires DeleteGoal(w, i).world != w
    ensures var r, x := Release(w, RunningOfGoal(w.db.generations, i.user, i.goal)), DeleteGoal(w, i).world;
            x.history == r.history && x.db.users == r.db.users
              && x.db.usages == DropGoalUsages(r.db.usages, i.user, i.goal, i.now)
  {
  }

  lemma ReleaseDeadlines(w: World, ids: set<Id>)
    requires Deadlines(w)
    ensures Deadlines(Release(w, ids))
  {
  }

  lemma DeleteGoalKeepsUsages(w: World, i: DeleteInput)
    requires Deadlines(w) && HoldReservations(w.db, w.history.log, RunningOfGoal(w.db.generations, i.user, i.goal))
    ensures KeepsUsages(w, DeleteGoal(w, i).world, Some(i.now))
  {
    if DeleteGoal(w, i).world != w {
      var ids := RunningOfGoal(w.db.generations, i.user, i.goal);
      ReleaseKeepsUsages(w, ids);
      ReleaseDeadlines(w, ids);
      DeleteGoalUsages(w, i);
      CascadeKeepsUsages(Release(w, ids), DeleteGoal(w, i).world, i.user, i.goal, i.now);
      KeepsUsagesTransitive(w, Release(w, ids), DeleteGoal(w, i).world, i.now);
    }
  }

  lemma CleanupKeepsUsages(w: World, ids: set<Id>, now: int)
    requires Deadlines(w)
    ensures KeepsUsages(w, Cleanup(w, ids, now).world, Some(now))
  {
  }

  ghost predicate QuotaOk(cfg: Config, w: World) {
    QuotaInv(cfg.quota, w.db.users, w.db.usages, w.history.log, w.history.clock)
  }

  lemma RecoverKeepsQuota(cfg: Config, w: World, user: Id, now: int)
    requires QuotaOk(cfg, w) && HoldReservations(w.db, w.history.log, ExpiredIds(w.db.generations, user, now))
    ensures QuotaOk(cfg, Recover(w, user, now)) && QuotaOk(cfg, Tick(Recover(w, user, now), Some(now)))
  {
    ReleaseKeepsUsages(w, ExpiredIds(w.db.generations, user, now));
    KeepsUsagesQuota(cfg, w, Recover(w, user, now), None);
    KeepsUsagesQuota(cfg, w, Recover(w, user, now), Some(now));
  }

  /** What beginning an operation adds, seen from the state it began in. */
  ghost predicate Admits(cfg: Config, w: World, x: World, id: Id, now: int) {
    && Adds(w.history.log, x.history.log, id) && x.history.log[id].user in w.db.users
    && x.history.log[id].acceptedAt == now
    && x.db.users == w.db.users && w.db.usages.Keys + {id} <= x.db.usages.Keys && x.history.clock == w.history.clock
    && |RollingUsage(w.db.usages, x.history.log[id].user, now - ROLLING_WINDOW)| < cfg.quota
  }

  lemma AdmitsQuota(cfg: Config, w: World, x: World, id: Id, now: int)
    requires QuotaOk(cfg, w) && RowsFit(w.db, w.history.log) && Admits(cfg, w, x, id, now)
    requires w.history.clock - RETENTION_MARGIN <= now
    ensures QuotaOk(cfg, Tick(x, Some(now)))
  {
    RowsMatch(w.db, w.history.log);
    AcceptKeepsQuota(cfg.quota, w.db, w.history.log, w.history.clock, id, x.history.log, x.db.usages,
                     Tick(x, Some(now)).history.clock);
  }

  /** Recovery does not change what the quota counts. */
  lemma RecoverCounts(w: World, user: Id, now: int, after: int)
    ensures RollingUsage(Recover(w, user, now).db.usages, user, after) == RollingUsage(w.db.usages, user, after)
  {
  }

  lemma AcceptAdmits(cfg: Config, w: World, x: World, user: Id, id: Id, now: int)
    requires Accepts(cfg, w, x, user, id, now) && id !in w.history.log
    ensures Admits(cfg, w, x, id, now)
  {
    RecoverCounts(w, user, now, now - ROLLING_WINDOW);
  }

  /** A begin recovers, accepts within the quota, or leaves everything. */
  lemma BeganKeepsQuota(cfg: Config, w: World, x: World, user: Id, id: Id, now: int)
    requires QuotaOk(cfg, w) && RowsFit(w.db, w.history.log) && Began(cfg, w, x, user, id, now)
    requires id !in w.history.log && w.history.clock - RETENTION_MARGIN <= now
    ensures x == w || QuotaOk(cfg, Tick(x, Some(now)))
  {
    if Accepts(cfg, w, x, user, id, now) {
      AcceptAdmits(cfg, w, x, user, id, now);
      AdmitsQuota(cfg, w, x, id, now);
    } else {
      RunningHold(w.db, w.history.log, ExpiredIds(w.db.generations, user, now));
      RecoverKeepsQuota(cfg, w, user, now);
    }
  }
}
