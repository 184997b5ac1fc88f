/** What the ledger, the budget and the quota promise over every run. */
module Accounts {
  import opened Base
  import opened Rows
  import opened MapSum
  import opened Keys
  import opened Schema
  import opened Ledger
  import opened LedgerInvariant
  import opened Quota
  import opened Lifecycle
  import opened UseCases
  import opened Outcomes
  import opened Soundness
  import opened MoneySteps
  import opened QuotaSteps
  import opened Runs

  /** Each amount of a month is what the operations accepted in that month say, whatever was interleaved. */
  lemma LedgerConserved(cfg: Config, w: World, month: int)
    requires Reachable(cfg, w)
    ensures MonthOf(w.db.months, month) ==
              Budget(Sum(w.history.log, RunningIn(month)), Sum(w.history.log, SettledIn(month)),
                     Sum(w.history.log, WrittenIn(month)))
  {
    ReachableInv(cfg, w);
    assert MonthFits(w.db.months, w.db.generations, w.history.log, month);
    ReservedIsRunning(w.db, w.history.log, month);
  }

  /** What the month's operations reserved and released, and only later charged or wrote off. */
  lemma BudgetBound(cfg: Config, w: World, month: int)
    requires Reachable(cfg, w)
    ensures Spent(w.db.months, month) <= cfg.budget + Sum(w.history.log, LateIn(month))
  {
    ReachableInv(cfg, w);
    assert MonthBounded(cfg.budget, w.db.months, w.history.log, month);
  }

  ghost predicate WithinLimit(limit: nat, months: map<int, Budget>, month: int) {
    Spent(months, month) <= limit
  }

  lemma AcceptWithinLimit(cfg: Config, r: World, id: Id, g: Generation, now: int, text: string, revision: nat, x: World)
    requires Admissible(cfg, r, id, g, now, text, revision) && x == Accept(r, id, g, now, text, revision)
    ensures WithinLimit(cfg.budget, x.db.months, g.month)
  {
  }

  /** At the moment an operation is accepted, its month is within the plain limit. */
  lemma LimitAtAcceptance(cfg: Config, w: World, e: Event)
    requires Reachable(cfg, w) && Enabled(w, e)
    ensures e.OnBeginAction? && Perform(cfg, w, e).answer == Begun(e.action.id) ==>
              WithinLimit(cfg.budget, Perform(cfg, w, e).world.db.months, e.action.month)
    ensures e.OnBeginRefine? && Perform(cfg, w, e).answer == Begun(e.refine.id) ==>
              WithinLimit(cfg.budget, Perform(cfg, w, e).world.db.months, e.refine.month)
  {
    ReachableInv(cfg, w);
    if e.OnBeginAction? && Perform(cfg, w, e).answer == Begun(e.action.id) {
      ActionWithinLimit(cfg, w, e.action);
    }
    if e.OnBeginRefine? && Perform(cfg, w, e).answer == Begun(e.refine.id) {
      RefineWithinLimit(cfg, w, e.refine);
    }
  }

  lemma ActionWithinLimit(cfg: Config, w: World, i: ActionInput)
    requires i.id !in w.history.issued && BeginAction(cfg, w, i).answer == Begun(i.id)
    ensures WithinLimit(cfg.budget, BeginAction(cfg, w, i).world.db.months, i.month)
  {
    BeginActionEffect(cfg, w, i);
    var r, c := Recover(w, i.user, i.now), w.db.cycles[i.cycle];
    AcceptWithinLimit(cfg, r, i.id, ActionGeneration(cfg, i, c), i.now, c.action, c.revisions.action,
                      BeginAction(cfg, w, i).world);
  }

  lemma RefineWithinLimit(cfg: Config, w: World, i: RefineInput)
    requires i.id !in w.history.issued && BeginRefine(cfg, w, i).answer == Begun(i.id) && LifecycleInv(w.db)
    ensures WithinLimit(cfg.budget, BeginRefine(cfg, w, i).world.db.months, i.month)
  {
    DraftsFit(w.db);
    BeginRefineEffect(cfg, w, i);
    var r, draft := Recover(w, i.user, i.now), RefineDraft(w.db, i.user, i.draft, i.goal).value;
    var d := w.db.drafts[draft];
    var g := RefineGeneration(cfg, i, draft, d, if i.goal.Some? then CurrentVersion(w.db, i.goal.value) else None);
    AcceptWithinLimit(cfg, r, i.id, g, i.now, d.body, d.revision, BeginRefine(cfg, w, i).world);
  }

  /** In any rolling day a User has at most the quota of accepted operations. */
  lemma RollingQuota(cfg: Config, w: World, user: Id, from: int, to: int)
    requires Reachable(cfg, w) && to - from <= 86400
    ensures |set id | id in w.history.log && w.history.log[id].user == user
            && from < w.history.log[id].acceptedAt <= to| <= cfg.quota
  {
    ReachableInv(cfg, w);
    assert WindowFits(cfg.quota, w.history.log, user, to);
    SubsetSize(AcceptedIn(w.history.log, user, from, to), AcceptedIn(w.history.log, user, to - ROLLING_WINDOW, to));
    assert AcceptedIn(w.history.log, user, from, to) ==
           set id | id in w.history.log && w.history.log[id].user == user && from < w.history.log[id].acceptedAt <= to;
  }

  // One operation's money.

  lemma LogFollowsTransitive(a: map<Id, Entry>, b: map<Id, Entry>, c: map<Id, Entry>)
    requires LogFollows(a, b) && LogFollows(b, c)
    ensures LogFollows(a, c)
  {
    forall id | id in a ensures id in c && EntryFollows(a[id], c[id]) {
      assert EntryFollows(a[id], b[id]) && EntryFollows(b[id], c[id]);
    }
  }

  lemma RecoverFollows(w: World, user: Id, now: int)
    requires RowsFit(w.db, w.history.log)
    ensures LogFollows(w.history.log, Recover(w, user, now).history.log)
  {
    RunningHold(w.db, w.history.log, ExpiredIds(w.db.generations, user, now));
    ReleaseKeepsUsages(w, ExpiredIds(w.db.generations, user, now));
  }

  lemma AcceptFollows(cfg: Config, w: World, x: World, user: Id, id: Id, now: int)
    requires Accepts(cfg, w, x, user, id, now) && id !in w.history.log
    ensures LogFollows(Recover(w, user, now).history.log, x.history.log)
  {
  }

  /** Beginning an operation recovers expired ones, and adds its own entry if it is accepted. */
  lemma BeganFollows(cfg: Config, w: World, x: World, user: Id, id: Id, now: int)
    requires RowsFit(w.db, w.history.log) && Began(cfg, w, x, user, id, now) && id !in w.history.log
    ensures LogFollows(w.history.log, x.history.log)
  {
    RecoverFollows(w, user, now);
    if Accepts(cfg, w, x, user, id, now) {
      AcceptFollows(cfg, w, x, user, id, now);
      LogFollowsTransitive(w.history.log, Recover(w, user, now).history.log, x.history.log);
    }
  }

  lemma BeginFollows(cfg: Config, w: World, e: Event)
    requires RowsFit(w.db, w.history.log) && (e.OnBeginAction? || e.OnBeginRefine?) && BeginId(e) !in w.history.log
    ensures LogFollows(w.history.log, Perform(cfg, w, e).world.history.log)
  {
    BeginBegan(cfg, w, e);
    BeganFollows(cfg, w, Perform(cfg, w, e).world, BeginUser(e), BeginId(e), ClockOf(e).value);
  }

  lemma EventFollows(cfg: Config, w: World, e: Event)
    requires RowsFit(w.db, w.history.log) && IssuedInv(w.db, w.history) && Enabled(w, e)
    ensures LogFollows(w.history.log, Perform(cfg, w, e).world.history.log)
  {
    if e.OnBeginAction? || e.OnBeginRefine? {
      BeginFollows(cfg, w, e);
    } else {
      EventKeepsUsages(cfg, w, e);
    }
  }

  lemma StepFollows(cfg: Config, w: World, e: Event)
    requires Inv(cfg, w) && Enabled(w, e)
    ensures LogFollows(w.history.log, Apply(cfg, w, e).history.log)
  {
    EventFollows(cfg, w, e);
    ApplyRows(cfg, w, e);
  }

  /**
   An accepted operation stays accepted, with its owner, month and reservation; it is settled at most
   once or written off at most once, for at most what it reserved, and then never changes again.
   */
  lemma {:induction false} FateFinal(cfg: Config, w: World, events: seq<Event>, x: World)
    requires Inv(cfg, w) && Run(cfg, w, events, x)
    ensures LogFollows(w.history.log, x.history.log)
    decreases |events|
  {
    if events != [] {
      var y := Apply(cfg, w, events[0]);
      StepKeepsInv(cfg, w, events[0]);
      StepFollows(cfg, w, events[0]);
      FateFinal(cfg, y, events[1..], x);
      LogFollowsTransitive(w.history.log, y.history.log, x.history.log);
    }
  }
}
