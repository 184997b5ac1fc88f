/** The two halves of an AI operation keep the invariant. */
module MoneySteps {
  import opened Base
  import opened Rows
  import opened MapSum
  import opened Keys
  import opened Schema
  import opened Ledger
  import opened LedgerInvariant
  import opened Text
  import opened Views
  import opened Lifecycle
  import opened LifecycleSteps
  import opened LifecycleEdges
  import opened Targets
  import opened UseCases
  import opened Outcomes
  import opened Soundness
  import CycleDomain

  lemma ReleaseKeepsSound(cfg: Config, w: World, ids: set<Id>)
    requires Sound(cfg, w) && AllRunning(w.db, ids)
    ensures Sound(cfg, Release(w, ids))
  {
    var x := Release(w, ids);
    RunningHold(w.db, w.history.log, ids);
    ReleaseKeepsLedger(w, ids);
    ReleaseKeepsBound(cfg.budget, w, ids);
    ReleaseKeepsTargets(w, ids);
    FrameLifecycle(w.db, x.db);
  }

  lemma RecoverKeepsSound(cfg: Config, w: World, user: Id, now: int)
    requires Sound(cfg, w)
    ensures Sound(cfg, Recover(w, user, now))
  {
    ReleaseKeepsSound(cfg, w, ExpiredIds(w.db.generations, user, now));
  }

  /** A new operation whose target is as it says, on which nothing else runs, and which the budget has room for. */
  ghost predicate Admissible(cfg: Config, w: World, id: Id, g: Generation, acceptedAt: int, text: string,
                             revision: nat)
  {
    && id !in w.history.issued && g.user in w.db.users
    && g.status == Running && g.lease.Some? && g.output.None? && g.failure.None? && g.adopted.None?
    && !ExceedsBudget(w.db.months, g.month, g.reserved, cfg.budget)
    && DraftAgrees(g, w.db.drafts) && GoalAgrees(g, w.db.goals, w.db.versions)
    && CycleAgrees(g, Entry(g.user, g.month, g.reserved, acceptedAt, StillRunning, text, revision), w.db.cycles)
    && !Has(w.db.generations, ReplayKey, (g.user, g.operation, g.key))
    && (g.draft.Some? ==> !RunsOnDraft(w.db.generations, g.draft.value))
    && (g.cycle.Some? ==> g.goal.Some? && !RunsOnCycle(w.db.generations, g.user, g.goal.value, g.cycle.value))
  }

  lemma FreshOperation(w: World, id: Id)
    requires IssuedInv(w.db, w.history) && LedgerInv(w.db, w.history.log) && id !in w.history.issued
    ensures id !in w.history.log && id !in w.db.generations && id !in w.db.usages
  {
    assert id in w.db.generations ==> GenerationFits(w.db.generations[id], w.history.log, id);
    assert id in w.db.usages ==> UsageFits(w.db.usages[id], w.history.log, id);
  }

  lemma AcceptIssued(w: World, id: Id, g: Generation, acceptedAt: int, text: string, revision: nat)
    requires IssuedInv(w.db, w.history) && g.user in w.db.users
    ensures var x := Accept(w, id, g, acceptedAt, text, revision);
            IssuedInv(x.db, x.history) && SameLifecycleTables(w.db, x.db)
  {
  }

  lemma AcceptKeepsMoney(cfg: Config, w: World, id: Id, g: Generation, acceptedAt: int, text: string, revision: nat)
    requires LedgerInv(w.db, w.history.log) && Bounded(cfg.budget, w.db.months, w.history.log)
             && IssuedInv(w.db, w.history)
    requires Admissible(cfg, w, id, g, acceptedAt, text, revision)
    ensures var x := Accept(w, id, g, acceptedAt, text, revision);
            LedgerInv(x.db, x.history.log) && Bounded(cfg.budget, x.db.months, x.history.log)
  {
    FreshOperation(w, id);
    AcceptKeepsLedger(w, id, g, acceptedAt, text, revision);
    AcceptKeepsBound(cfg.budget, w, id, g, acceptedAt, text, revision);
  }

  lemma AcceptKeepsSound(cfg: Config, w: World, id: Id, g: Generation, acceptedAt: int, text: string, revision: nat)
    requires Sound(cfg, w) && Admissible(cfg, w, id, g, acceptedAt, text, revision)
    ensures Sound(cfg, Accept(w, id, g, acceptedAt, text, revision))
  {
    FreshOperation(w, id);
    AcceptKeepsMoney(cfg, w, id, g, acceptedAt, text, revision);
    AcceptKeepsTargets(w, id, g, acceptedAt, text, revision);
    AcceptIssued(w, id, g, acceptedAt, text, revision);
    FrameLifecycle(w.db, Accept(w, id, g, acceptedAt, text, revision).db);
  }

  lemma RecoverKeepsReplay(w: World, user: Id, now: int, k: (Id, Operation, Id))
    ensures Has(Recover(w, user, now).db.generations, ReplayKey, k) ==> Has(w.db.generations, ReplayKey, k)
  {
    var x := Recover(w, user, now).db.generations;
    if Has(x, ReplayKey, k) {
      var id :| id in x && ReplayKey(x[id]) == Some(k);
      assert ReplayKey(w.db.generations[id]) == Some(k);
    }
  }

  // Beginning to generate or refine an Action.

  lemma BeginActionEffect(cfg: Config, w: World, i: ActionInput)
    requires BeginAction(cfg, w, i).answer == Begun(i.id)
    ensures i.cycle in w.db.cycles && i.user in w.db.users
    ensures var r, c := Recover(w, i.user, i.now), w.db.cycles[i.cycle];
            && BeginAction(cfg, w, i).world ==
                 Accept(r, i.id, ActionGeneration(cfg, i, c), i.now, c.action, c.revisions.action)
            && (i.id !in w.history.issued ==>
                  Admissible(cfg, r, i.id, ActionGeneration(cfg, i, c), i.now, c.action, c.revisions.action))
            && |RollingUsage(r.db.usages, i.user, i.now - ROLLING_WINDOW)| < cfg.quota
  {
    RecoverKeepsReplay(w, i.user, i.now, (i.user, i.operation, i.key));
  }

  lemma BeginActionElse(cfg: Config, w: World, i: ActionInput)
    requires BeginAction(cfg, w, i).answer != Begun(i.id)
    ensures BeginAction(cfg, w, i).world in {w, Recover(w, i.user, i.now)}
  {
  }

  lemma BeginActionKeepsSound(cfg: Config, w: World, i: ActionInput)
    requires Sound(cfg, w) && i.id !in w.history.issued
    ensures Sound(cfg, BeginAction(cfg, w, i).world)
  {
    RecoverKeepsSound(cfg, w, i.user, i.now);
    if BeginAction(cfg, w, i).answer == Begun(i.id) {
      BeginActionEffect(cfg, w, i);
      var c := w.db.cycles[i.cycle];
      AcceptKeepsSound(cfg, Recover(w, i.user, i.now), i.id, ActionGeneration(cfg, i, c), i.now, c.action,
                       c.revisions.action);
    } else {
      BeginActionElse(cfg, w, i);
    }
  }

  // Beginning to refine a Goal.

  lemma BeginRefineShape(cfg: Config, w: World, i: RefineInput)
    requires BeginRefine(cfg, w, i).answer == Begun(i.id)
    ensures RefineDraft(w.db, i.user, i.draft, i.goal).Some? && i.user in w.db.users
    ensures var r, draft := Recover(w, i.user, i.now), RefineDraft(w.db, i.user, i.draft, i.goal).value;
            && OwnsDraft(w.db, i.user, draft) && DraftFits(w.db.drafts[draft], i.goal)
            && (i.goal.Some? ==> OwnsGoal(w.db, i.user, i.goal.value) && CurrentVersion(w.db, i.goal.value).Some?)
            && var d := w.db.drafts[draft];
            && var version := if i.goal.Some? then CurrentVersion(w.db, i.goal.value) else None;
            && BeginRefine(cfg, w, i).world ==
                 Accept(r, i.id, RefineGeneration(cfg, i, draft, d, version), i.now, d.body, d.revision)
            && Lookup(r.db.generations, ReplayKey, (i.user, GoalRefine, i.key)).None?
            && RefineError(cfg, r.db, i, draft).None?
  {
  }

  lemma BeginRefineEffect(cfg: Config, w: World, i: RefineInput)
    requires BeginRefine(cfg, w, i).answer == Begun(i.id)
    requires i.goal.Some? && i.goal.value in w.db.goals ==> DraftsOf(w.db, i.goal.value)
    ensures RefineDraft(w.db, i.user, i.draft, i.goal).Some? && i.user in w.db.users
    ensures var r, draft := Recover(w, i.user, i.now), RefineDraft(w.db, i.user, i.draft, i.goal).value;
            && draft in w.db.drafts && (i.goal.Some? ==> i.goal.value in w.db.goals)
            && var d := w.db.drafts[draft];
            && var g :=
                 RefineGeneration(cfg, i, draft, d, if i.goal.Some? then CurrentVersion(w.db, i.goal.value) else None);
            && BeginRefine(cfg, w, i).world == Accept(r, i.id, g, i.now, d.body, d.revision)
            && (i.id !in w.history.issued ==> Admissible(cfg, r, i.id, g, i.now, d.body, d.revision))
            && |RollingUsage(r.db.usages, i.user, i.now - ROLLING_WINDOW)| < cfg.quota
  {
    BeginRefineShape(cfg, w, i);
  }

  lemma BeginRefineElse(cfg: Config, w: World, i: RefineInput)
    requires BeginRefine(cfg, w, i).answer != Begun(i.id)
    ensures BeginRefine(cfg, w, i).world in {w, Recover(w, i.user, i.now)}
  {
  }

  lemma BeginRefineKeepsSound(cfg: Config, w: World, i: RefineInput)
    requires Sound(cfg, w) && i.id !in w.history.issued
    ensures Sound(cfg, BeginRefine(cfg, w, i).world)
  {
    RecoverKeepsSound(cfg, w, i.user, i.now);
    if BeginRefine(cfg, w, i).answer == Begun(i.id) {
      DraftsFit(w.db);
      BeginRefineEffect(cfg, w, i);
      var draft := RefineDraft(w.db, i.user, i.draft, i.goal).value;
      var d := w.db.drafts[draft];
      var version := if i.goal.Some? then CurrentVersion(w.db, i.goal.value) else None;
      AcceptKeepsSound(cfg, Recover(w, i.user, i.now), i.id, RefineGeneration(cfg, i, draft, d, version), i.now, d.body,
                       d.revision);
    } else {
      BeginRefineElse(cfg, w, i);
    }
  }

  lemma DraftsFit(db: Db)
    requires LifecycleInv(db)
    ensures forall goal :: goal in db.goals ==> DraftsOf(db, goal)
  {
    forall goal | goal in db.goals ensures DraftsOf(db, goal) {
      assert GoalInv(db, goal);
    }
  }

  // Finishing.

  /** What the provider may report: at most the reserved cost, and an output that passed its validator. */
  predicate Plausible(w: World, f: FinishInput) {
    && (f.id in w.history.log ==> f.cost <= w.history.log[f.id].reservation)
    && (f.failure.None? && f.operation == GoalRefine ==> BodyText(f.output) && !Blank(f.output))
    && (f.failure.None? && f.operation != GoalRefine ==> FrameText(f.output) && !Blank(f.output))
  }

  lemma LateIssued(w: World, f: FinishInput)
    requires IssuedInv(w.db, w.history)
    ensures var x := Late(w, f).world; IssuedInv(x.db, x.history) && SameLifecycleTables(w.db, x.db)
  {
  }

  lemma SettleLateKeepsSound(cfg: Config, w: World, f: FinishInput)
    requires Sound(cfg, w) && Plausible(w, f)
    requires f.id in w.db.generations ==> w.db.generations[f.id].status != Running
    ensures Sound(cfg, Late(w, f).world)
  {
    var x := Late(w, f).world;
    SettleLateKeepsLedger(w, f.id, f.cost, f.failure.Some?, f.now);
    SettleLateKeepsBound(cfg.budget, w, f.id, f.cost, f.failure.Some?, f.now);
    SettleLateKeepsTargets(w, f.id, f.cost, f.failure.Some?, f.now);
    LateIssued(w, f);
    FrameLifecycle(w.db, x.db);
  }

  lemma SettleKeepsMoney(limit: nat, w: World, f: FinishInput, failure: Option<Failure>, changed: bool)
    requires LedgerInv(w.db, w.history.log) && Bounded(limit, w.db.months, w.history.log)
    requires f.id in w.db.generations && w.db.generations[f.id].status == Running && f.id in w.db.usages
             && f.id in w.history.log
    requires f.cost <= w.history.log[f.id].reservation
    ensures var x :=
            Settle(w, f.id, Terminal(w.db.generations[f.id], f.output, failure, changed), f.cost, failure.Some?, f.now);
            LedgerInv(x.db, x.history.log) && Bounded(limit, x.db.months, x.history.log)
  {
    var terminal := Terminal(w.db.generations[f.id], f.output, failure, changed);
    assert GenerationFits(w.db.generations[f.id], w.history.log, f.id);
    SettleKeepsLedger(w, f.id, terminal, f.cost, failure.Some?, f.now);
    SettleKeepsBound(limit, w, f.id, terminal, f.cost, failure.Some?, f.now);
  }

  lemma SettleIssued(w: World, id: Id, terminal: Generation, cost: nat, failed: bool, now: int)
    requires IssuedInv(w.db, w.history) && id in w.db.generations && id in w.db.usages && id in w.history.log
    ensures var x := Settle(w, id, terminal, cost, failed, now);
            IssuedInv(x.db, x.history) && SameLifecycleTables(w.db, x.db)
  {
  }

  lemma SettleKeepsSound(cfg: Config, w: World, f: FinishInput, failure: Option<Failure>, changed: bool)
    requires Sound(cfg, w) && Plausible(w, f)
    requires f.id in w.db.generations && w.db.generations[f.id].status == Running && f.id in w.db.usages
             && f.id in w.history.log
    requires failure.None? ==> f.failure.None? && f.operation == w.db.generations[f.id].operation
    ensures Sound(cfg,
                  Settle(w, f.id, Terminal(w.db.generations[f.id], f.output, failure, changed), f.cost, failure.Some?,
                         f.now))
  {
    var terminal := Terminal(w.db.generations[f.id], f.output, failure, changed);
    var x := Settle(w, f.id, terminal, f.cost, failure.Some?, f.now);
    SettleKeepsMoney(cfg.budget, w, f, failure, changed);
    SettleKeepsTargets(w, f.id, f.output, failure, changed, f.cost, failure.Some?, f.now);
    SettleIssued(w, f.id, terminal, f.cost, failure.Some?, f.now);
    FrameLifecycle(w.db, x.db);
  }

  /** Where a running Action operation left off, it still is. */
  ghost predicate ActionUntouched(w: World, id: Id)
    requires id in w.db.generations && id in w.history.log
  {
    var db, g, e := w.db, w.db.generations[id], w.history.log[id];
    && g.goal.Some? && OwnsGoal(db, g.user, g.goal.value) && g.cycle.Some?
    && OwnsCycle(db, g.user, g.goal.value, g.cycle.value)
    && g.user in db.users && id in db.usages
    && db.goals[g.goal.value].status == ActiveCycle && CurrentVersion(db, g.goal.value) == g.version
    && var c := db.cycles[g.cycle.value];
    && c.status == Active && Some(c.version) == g.version && c.action == e.text && c.revisions.action == e.textRevision
  }

  lemma RunningActionUntouched(cfg: Config, w: World, id: Id)
    requires Sound(cfg, w) && id in w.db.generations
    requires w.db.generations[id].status == Running && w.db.generations[id].operation != GoalRefine
    ensures id in w.history.log && ActionUntouched(w, id)
  {
    var db, g := w.db, w.db.generations[id];
    assert Aims(id, g, db, w.history.log);
    var c := db.cycles[g.cycle.value];
    ActiveOnCurrent(db, g.cycle.value);
  }

  /** A running Cycle is on its Goal's current Version, and the join by number finds that Version. */
  lemma ActiveOnCurrent(db: Db, cycle: Id)
    requires LifecycleInv(db) && cycle in db.cycles && db.cycles[cycle].status == Active
    ensures var c := db.cycles[cycle];
            && c.goal in db.goals && db.goals[c.goal].status == ActiveCycle && db.goals[c.goal].user == c.user
            && db.goals[c.goal].user in db.users && CurrentVersion(db, c.goal) == Some(c.version)
  {
    var c := db.cycles[cycle];
    assert GoalInv(db, c.goal);
    assert CycleFits(cycle, c, db.goals[c.goal], db.versions, db.cycles);
    LookupFinds(db.versions, VersionKey, c.version);
  }

  lemma ApplyEdits(c: Cycle, output: string)
    requires CycleShape(c) && CycleDomain.ApplyAiAction(c, output).Ok?
    ensures Edits(c, CycleDomain.ApplyAiAction(c, output).value)
  {
    NormalizeFrameFixpoint(output);
  }

  /** A valid output can always be applied to an active Cycle. */
  lemma ApplySucceeds(c: Cycle, output: string)
    requires c.status == Active && FrameText(output) && !Blank(output)
    ensures CycleDomain.ApplyAiAction(c, output).Ok? && CycleDomain.ApplyAiAction(c, output).value.action == output
  {
    NormalizeFrameFixpoint(output);
  }

  ghost predicate RunsAction(w: World, id: Id) {
    id in w.db.generations && w.db.generations[id].status == Running && w.db.generations[id].operation != GoalRefine
  }

  /** A report for an operation that runs, on the target the operation found. */
  ghost predicate ReportsAction(w: World, f: FinishInput) {
    && Plausible(w, f) && RunsAction(w, f.id) && f.id in w.history.log && ActionUntouched(w, f.id)
    && w.db.generations[f.id].operation == f.operation && w.db.generations[f.id].targetRevision == f.targetRevision
  }

  ghost predicate ContextChanged(w: World, f: FinishInput)
    requires ReportsAction(w, f)
  {
    w.db.cycles[w.db.generations[f.id].cycle.value].revisions.content != w.db.generations[f.id].targetRevision
  }

  function Settling(w: World, f: FinishInput, changed: bool): World
    requires f.id in w.db.generations && f.id in w.db.usages && f.id in w.history.log
  {
    Settle(w, f.id, Terminal(w.db.generations[f.id], f.output, f.failure, changed), f.cost, f.failure.Some?, f.now)
  }

  /**
   While its operation runs, finishing it meets no conflict: the provider's own outcome is recorded, and a success is
   applied.
   */
  lemma FinishActionEffect(w: World, f: FinishInput)
    requires ReportsAction(w, f)
    ensures var cycle := w.db.generations[f.id].cycle.value;
            var x := Settling(w, f, ContextChanged(w, f));
            var applied := CycleDomain.ApplyAiAction(w.db.cycles[cycle], f.output);
            && FinishAction(w, f).answer == FinishAnswer(f, f.failure, ContextChanged(w, f))
            && (f.failure.None? ==> applied.Ok?)
            && FinishAction(w, f).world ==
                 (if f.failure.Some? then x else x.(db := x.db.(cycles := w.db.cycles[cycle := applied.value])))
  {
    if f.failure.None? {
      ApplySucceeds(w.db.cycles[w.db.generations[f.id].cycle.value], f.output);
    }
  }

  /** A world that differs is a late settlement of an operation that does not run, or the end of one that ran. */
  lemma FinishActionCases(w: World, f: FinishInput)
    requires RunsAction(w, f.id) ==> f.id in w.history.log && ActionUntouched(w, f.id)
    ensures FinishAction(w, f).world == w || (FinishAction(w, f) == Late(w, f) && !RunsAction(w, f.id)) ||
            (RunsAction(w, f.id) && w.db.generations[f.id].operation == f.operation &&
                w.db.generations[f.id].targetRevision == f.targetRevision)
    ensures FinishAction(w, f) == Late(w, f) && FinishAction(w, f).world != w && f.id in w.db.generations ==>
              w.db.generations[f.id].status != Running
  {
  }

  lemma FinishActionKeepsSound(cfg: Config, w: World, f: FinishInput)
    requires Sound(cfg, w) && Plausible(w, f)
    ensures Sound(cfg, FinishAction(w, f).world)
  {
    if RunsAction(w, f.id) {
      RunningActionUntouched(cfg, w, f.id);
    }
    FinishActionCases(w, f);
    if FinishAction(w, f).world == w {
    } else if RunsAction(w, f.id) {
      FinishRunningKeepsSound(cfg, w, f);
    } else {
      SettleLateKeepsSound(cfg, w, f);
    }
  }

  /** Writing the output of an operation that has just ended. */
  lemma ApplyKeepsSound(cfg: Config, generations: map<Id, Generation>, x: World, id: Id, cycle: Id, output: string)
    requires Sound(cfg, x) && UniqueGenerations(generations)
    requires id in generations && generations[id].status == Running && generations[id].cycle == Some(cycle)
    requires id in x.db.generations && x.db.generations[id].status != Running
    requires forall k :: k in x.db.generations && k != id ==> k in generations && x.db.generations[k] == generations[k]
    requires cycle in x.db.cycles && CycleDomain.ApplyAiAction(x.db.cycles[cycle], output).Ok?
    ensures Sound(cfg,
                  x.(db := x.db.(cycles := x.db.cycles[cycle := CycleDomain.ApplyAiAction(x.db.cycles[cycle],
                                                                                          output).value])))
  {
    var c := x.db.cycles[cycle];
    RunningCycleFits(x.db, cycle);
    ApplyEdits(c, output);
    OnlyOneRuns(generations, id, x.db.generations, c.user, c.goal, cycle);
    EditKeepsSound(cfg, x, cycle, CycleDomain.ApplyAiAction(c, output).value);
  }

  lemma SettlingEnds(w: World, f: FinishInput, changed: bool)
    requires RunsAction(w, f.id) && f.id in w.db.usages && f.id in w.history.log
    ensures var x := Settling(w, f, changed);
            && x.db.cycles == w.db.cycles && f.id in x.db.generations && x.db.generations[f.id].status != Running
            && forall k :: k in x.db.generations && k != f.id ==>
                 k in w.db.generations && x.db.generations[k] == w.db.generations[k]
  {
  }

  lemma FinishRunningKeepsSound(cfg: Config, w: World, f: FinishInput)
    requires Sound(cfg, w) && ReportsAction(w, f)
    ensures Sound(cfg, FinishAction(w, f).world)
  {
    var x := Settling(w, f, ContextChanged(w, f));
    SettleKeepsSound(cfg, w, f, f.failure, ContextChanged(w, f));
    FinishActionEffect(w, f);
    if f.failure.None? {
      SettlingEnds(w, f, ContextChanged(w, f));
      ApplyKeepsSound(cfg, w.db.generations, x, f.id, w.db.generations[f.id].cycle.value, f.output);
    }
  }

  lemma RunningCycleFits(db: Db, cycle: Id)
    requires LifecycleInv(db) && cycle in db.cycles
    ensures CycleShape(db.cycles[cycle]) && db.cycles[cycle].goal in db.goals
  {
    var goal := db.cycles[cycle].goal;
    assert GoalInv(db, goal);
    assert CycleFits(cycle, db.cycles[cycle], db.goals[goal], db.versions, db.cycles);
  }

  // Finishing a refinement.

  ghost predicate RunsRefine(w: World, id: Id) {
    id in w.db.generations && w.db.generations[id].status == Running && w.db.generations[id].operation == GoalRefine
  }

  /** A running refinement still has its Draft, and a Review Draft its Goal in review on the Version it is based on. */
  ghost predicate RefineUntouched(w: World, id: Id)
    requires id in w.db.generations
  {
    var db, g := w.db, w.db.generations[id];
    && g.user in db.users && id in db.usages && id in w.history.log
    && g.draft.Some? && OwnsDraft(db, g.user, g.draft.value) && DraftFits(db.drafts[g.draft.value], g.goal)
    && (g.goal.Some? ==>
          && OwnsGoal(db, g.user, g.goal.value) && db.goals[g.goal.value].status == GoalReview
          && CurrentVersion(db, g.goal.value) == g.version && g.version.Some?)
  }

  lemma ReviewOnCurrent(db: Db, draft: Id)
    requires LifecycleInv(db) && draft in db.drafts && db.drafts[draft].kind.Review?
    ensures var d := db.drafts[draft];
            && d.kind.goal in db.goals && db.goals[d.kind.goal].user == d.user && d.user in db.users
            && db.goals[d.kind.goal].status == GoalReview && CurrentVersion(db, d.kind.goal) == Some(d.kind.baseVersion)
  {
    var d := db.drafts[draft];
    assert GoalInv(db, d.kind.goal);
    assert ReviewFits(d, db.goals[d.kind.goal], db.versions, db.cycles);
    LookupFinds(db.versions, VersionKey, d.kind.baseVersion);
  }

  lemma RunningRefineUntouched(cfg: Config, w: World, id: Id)
    requires Sound(cfg, w) && RunsRefine(w, id)
    ensures RefineUntouched(w, id)
  {
    var g := w.db.generations[id];
    assert Aims(id, g, w.db, w.history.log);
    if g.goal.Some? {
      ReviewOnCurrent(w.db, g.draft.value);
    }
  }

  ghost predicate ReportsRefine(w: World, f: FinishInput) {
    && Plausible(w, f) && RunsRefine(w, f.id) && RefineUntouched(w, f.id)
    && f.operation == GoalRefine && w.db.generations[f.id].targetRevision == f.targetRevision
  }

  /** Finishing a running refinement meets no conflict either. */
  lemma FinishRefineEffect(w: World, f: FinishInput)
    requires ReportsRefine(w, f)
    ensures var g := w.db.generations[f.id];
            var changed := w.db.drafts[g.draft.value].revision != g.targetRevision;
            && FinishRefine(w, f).answer == FinishAnswer(f, f.failure, changed)
            && FinishRefine(w, f).world == Settling(w, f, changed)
  {
  }

  lemma FinishRefineCases(w: World, f: FinishInput)
    requires RunsRefine(w, f.id) ==> RefineUntouched(w, f.id)
    ensures FinishRefine(w, f).world == w || (FinishRefine(w, f) == Late(w, f) && !RunsRefine(w, f.id)) ||
            (RunsRefine(w, f.id) && w.db.generations[f.id].targetRevision == f.targetRevision)
    ensures FinishRefine(w, f) == Late(w, f) && FinishRefine(w, f).world != w && f.id in w.db.generations ==>
              w.db.generations[f.id].status != Running
  {
  }

  lemma FinishRefineKeepsSound(cfg: Config, w: World, f: FinishInput)
    requires Sound(cfg, w) && Plausible(w, f) && f.operation == GoalRefine
    ensures Sound(cfg, FinishRefine(w, f).world)
  {
    if RunsRefine(w, f.id) {
      RunningRefineUntouched(cfg, w, f.id);
    }
    FinishRefineCases(w, f);
    if FinishRefine(w, f).world == w {
    } else if RunsRefine(w, f.id) {
      FinishRefineEffect(w, f);
      var g := w.db.generations[f.id];
      SettleKeepsSound(cfg, w, f, f.failure, w.db.drafts[g.draft.value].revision != g.targetRevision);
    } else {
      SettleLateKeepsSound(cfg, w, f);
    }
  }

  // Adopting a suggestion.

  /** The output of a suggestion that can be adopted fits a Draft. */
  lemma AdoptedText(w: World, i: AdoptInput, x: World)
    requires TargetsInv(w.db, w.history.log) && Adopts(w, i, x)
    ensures var g := w.db.generations[i.generation]; g.output.Some? && BodyText(g.output.value)
  {
    assert Aims(i.generation, w.db.generations[i.generation], w.db, w.history.log);
  }

  lemma AdoptEffect(w: World, i: AdoptInput)
    requires AdoptSuggestion(w, i).answer == Done
    requires TargetsInv(w.db, w.history.log)
    ensures Adopts(w, i, AdoptSuggestion(w, i).world)
    ensures var g := w.db.generations[i.generation]; g.output.Some? && BodyText(g.output.value)
  {
    AdoptAdopts(w, i);
    AdoptedText(w, i, AdoptSuggestion(w, i).world);
  }

  lemma AdoptKeepsMoney(db: Db, log: map<Id, Entry>, id: Id, revision: nat)
    requires LedgerInv(db, log) && id in db.generations
    requires db.generations[id].operation == GoalRefine && db.generations[id].status == Succeeded
    ensures LedgerInv(db.(generations := db.generations[id := db.generations[id].(adopted := Some(revision))]), log)
  {
    var db' := db.(generations := db.generations[id := db.generations[id].(adopted := Some(revision))]);
    forall k | k in db'.generations && db'.generations[k].adopted.Some?
      ensures db'.generations[k].operation == GoalRefine && db'.generations[k].status == Succeeded
    {
      assert GenerationFits(db.generations[k], log, k);
    }
    TrimKeepsLedger(db, db', log);
  }

  lemma AdoptKeepsTargets(db: Db, log: map<Id, Entry>, id: Id, revision: nat)
    requires TargetsInv(db, log) && id in db.generations
    ensures TargetsInv(db.(generations := db.generations[id := db.generations[id].(adopted := Some(revision))]), log)
  {
    var db' := db.(generations := db.generations[id := db.generations[id].(adopted := Some(revision))]);
    forall k | k in db'.generations ensures UsageAgrees(k, db'.generations[k], db'.usages) {
      assert Aims(k, db.generations[k], db, log);
    }
    SameAimKeeps(db, log, db', log);
  }

  lemma MarkAdoptedKeepsSound(cfg: Config, w: World, id: Id, revision: nat, x: World)
    requires Sound(cfg, w) && id in w.db.generations && x == Marked(w, id, revision)
    requires w.db.generations[id].operation == GoalRefine && w.db.generations[id].status == Succeeded
    ensures Sound(cfg, x)
  {
    AdoptKeepsMoney(w.db, w.history.log, id, revision);
    AdoptKeepsTargets(w.db, w.history.log, id, revision);
    FrameLifecycle(w.db, x.db);
  }

  lemma DraftedWrites(db: Db, draft: Id, output: string)
    requires LifecycleInv(db) && draft in db.drafts && BodyText(output)
    ensures WritesDraft(db, draft, db.drafts[draft].(body := output, revision := db.drafts[draft].revision + 1))
  {
    assert DraftRooted(db.drafts[draft], db);
  }

  lemma DraftedKeepsSound(cfg: Config, w: World, draft: Id, output: string)
    requires Sound(cfg, w) && draft in w.db.drafts && BodyText(output)
    ensures Sound(cfg, Drafted(w, draft, output))
  {
    var d := w.db.drafts[draft].(body := output, revision := w.db.drafts[draft].revision + 1);
    DraftedWrites(w.db, draft, output);
    OverwriteKeepsSound(cfg, w, draft, d);
    SameSound(cfg, WithDraft(w, draft, d), Drafted(w, draft, output));
  }

  /** An adoption in its two writes. */
  ghost predicate WritesTwice(w: World, id: Id, draft: Id, output: string, x: World) {
    && draft in w.db.drafts && BodyText(output)
    && var y := Drafted(w, draft, output);
    && id in y.db.generations && y.db.generations[id].operation == GoalRefine
    && y.db.generations[id].status == Succeeded
    && x == Marked(y, id, w.db.drafts[draft].revision + 1)
  }

  lemma AdoptsTwice(w: World, i: AdoptInput, x: World)
    requires TargetsInv(w.db, w.history.log) && Adopts(w, i, x)
    ensures WritesTwice(w, i.generation, RefineDraft(w.db, i.user, i.draft, i.goal).value,
                        w.db.generations[i.generation].output.value, x)
  {
    AdoptedText(w, i, x);
  }

  lemma AdoptedKeepsSound(cfg: Config, w: World, id: Id, draft: Id, output: string, x: World)
    requires Sound(cfg, w) && WritesTwice(w, id, draft, output, x)
    ensures Sound(cfg, x)
  {
    DraftedKeepsSound(cfg, w, draft, output);
    MarkAdoptedKeepsSound(cfg, Drafted(w, draft, output), id, w.db.drafts[draft].revision + 1, x);
  }

  lemma AdoptKeepsSound(cfg: Config, w: World, i: AdoptInput)
    requires Sound(cfg, w)
    ensures Sound(cfg, AdoptSuggestion(w, i).world)
  {
    AdoptAdopts(w, i);
    if AdoptSuggestion(w, i).answer == Done {
      AdoptsTwice(w, i, AdoptSuggestion(w, i).world);
      AdoptedKeepsSound(cfg, w, i.generation, RefineDraft(w.db, i.user, i.draft, i.goal).value,
                        w.db.generations[i.generation].output.value, AdoptSuggestion(w, i).world);
    }
  }
}
