/** What happens between beginning an operation and finishing it cannot disturb either. */
module Landing {
  import opened Base
  import opened Rows
  import opened Keys
  import opened Schema
  import opened Ledger
  import opened LedgerInvariant
  import opened Text
  import opened Lifecycle
  import opened Targets
  import opened UseCases
  import opened Soundness
  import opened MoneySteps
  import opened Operations
  import opened Runs
  import opened Accounts

  // An Action operation.

  lemma BegunAction(cfg: Config, w: World, i: ActionInput)
    requires i.id !in w.history.issued && BeginAction(cfg, w, i).answer == Begun(i.id)
    ensures i.cycle in w.db.cycles
    ensures var c, y := w.db.cycles[i.cycle], Apply(cfg, w, OnBeginAction(i));
            && y.db.cycles == w.db.cycles && i.id in y.db.generations
            && y.db.generations[i.id] == ActionGeneration(cfg, i, c)
            && i.id in y.history.log && y.history.log[i.id].text == c.action
            && y.history.log[i.id].textRevision == c.revisions.action
  {
    BeginActionEffect(cfg, w, i);
  }

  /** An operation that is still running has its row, and the row is the one it was accepted with. */
  lemma StillRunningRow(cfg: Config, y: World, events: seq<Event>, x: World, id: Id)
    requires Inv(cfg, y) && Run(cfg, y, events, x) && id in y.db.generations && id in y.history.log
    requires id in x.history.log && x.history.log[id].fate == StillRunning
    ensures Inv(cfg, x) && id in x.db.generations && x.db.generations[id].status == Running
    ensures GenerationKept(y.db.generations[id], x.db.generations[id])
    ensures x.history.log[id].text == y.history.log[id].text
            && x.history.log[id].textRevision == y.history.log[id].textRevision
  {
    RunKeepsInv(cfg, y, events, x);
    RunKeepsGenerations(cfg, y, events, x);
    FateFinal(cfg, y, events, x);
    assert EntryFits(x.history.log[id], x.db, id);
    assert GenerationFits(x.db.generations[id], x.history.log, id);
  }

  /** The Cycle an operation left behind, and the one it comes back to. */
  predicate ActionAwaits(c: Cycle, d: Cycle) {
    d.status == Active && d.version == c.version && d.action == c.action && d.revisions.action == c.revisions.action
  }

  lemma AwaitingRow(cfg: Config, i: ActionInput, c: Cycle, x: World)
    requires i.operation != GoalRefine && i.id in x.db.generations && x.db.generations[i.id].status == Running
    requires GenerationKept(ActionGeneration(cfg, i, c), x.db.generations[i.id])
    requires i.id in x.history.log && x.history.log[i.id].text == c.action
             && x.history.log[i.id].textRevision == c.revisions.action
    requires ActionUntouched(x, i.id) && (i.cycle in x.db.cycles ==> x.db.cycles[i.cycle].version == c.version)
    ensures RunsAction(x, i.id) && i.cycle in x.db.cycles && ActionAwaits(c, x.db.cycles[i.cycle])
    ensures var g := x.db.generations[i.id];
            g.operation == i.operation && g.cycle == Some(i.cycle) && g.targetRevision == c.revisions.content
  {
  }

  lemma ActionStillThere(cfg: Config, w: World, i: ActionInput, events: seq<Event>, x: World)
    requires Inv(cfg, w) && Enabled(w, OnBeginAction(i)) && BeginAction(cfg, w, i).answer == Begun(i.id)
    requires Run(cfg, Apply(cfg, w, OnBeginAction(i)), events, x)
    requires i.id in x.history.log && x.history.log[i.id].fate == StillRunning
    ensures Inv(cfg, x) && i.cycle in w.db.cycles && i.cycle in x.db.cycles
    ensures ActionAwaits(w.db.cycles[i.cycle], x.db.cycles[i.cycle])
    ensures RunsAction(x, i.id) && ActionUntouched(x, i.id)
    ensures var g := x.db.generations[i.id];
            g.operation == i.operation && g.cycle == Some(i.cycle)
              && g.targetRevision == w.db.cycles[i.cycle].revisions.content
  {
    var y := Apply(cfg, w, OnBeginAction(i));
    BegunAction(cfg, w, i);
    BegunOperation(cfg, w, i);
    StepKeepsInv(cfg, w, OnBeginAction(i));
    StillRunningRow(cfg, y, events, x, i.id);
    RunningActionUntouched(cfg, x, i.id);
    if i.cycle in x.db.cycles {
      RunKeepsVersion(cfg, y, events, x, i.cycle);
    }
    AwaitingRow(cfg, i, w.db.cycles[i.cycle], x);
  }

  /** A Cycle never changes its Version. */
  lemma RunKeepsVersion(cfg: Config, y: World, events: seq<Event>, x: World, cycle: Id)
    requires Inv(cfg, y) && Run(cfg, y, events, x) && cycle in y.db.cycles && cycle in x.db.cycles
    ensures x.db.cycles[cycle].version == y.db.cycles[cycle].version
  {
    RunEndures(cfg, y, events, x);
  }

  lemma BegunOperation(cfg: Config, w: World, i: ActionInput)
    requires BeginAction(cfg, w, i).answer == Begun(i.id)
    ensures i.operation != GoalRefine
  {
  }

  /** The operation's row, its usage and its month say how it ended and what it cost. */
  predicate Records(x: World, f: FinishInput, changed: bool, z: World) {
    && f.id in x.db.generations && f.id in x.db.usages
    && var g := x.db.generations[f.id];
    && z.db.generations ==
         x.db.generations[f.id := g.(status := if f.failure.Some? then Failed else Succeeded,
             output := if f.failure.Some? then None else Some(f.output), failure := f.failure,
             reserved := 0, lease := None, contextChanged := changed)]
    && UsageClosed(x.db, f, z.db)
    && var b := MonthOf(x.db.months, g.month);
    && z.db.months == x.db.months[g.month := b.(reserved := b.reserved - g.reserved, actual := b.actual + f.cost)]
  }

  /** What a report does to the Cycle it lands on. */
  ghost predicate Lands(x: World, f: FinishInput, cycle: Id, z: World) {
    && f.id in z.history.log && z.history.log[f.id].fate == Settled(f.cost, false)
    && cycle in x.db.cycles
    && if f.failure.Some? then z.db.cycles == x.db.cycles
       else
         && cycle in z.db.cycles && z.db.cycles == x.db.cycles[cycle := z.db.cycles[cycle]]
         && var d, e := x.db.cycles[cycle], z.db.cycles[cycle];
         && e.action == f.output && e.plan == d.plan && e.doing == d.doing && e.check == d.check
         && e.revisions == d.revisions.(content := d.revisions.content + 1, action := d.revisions.action + 1)
         && e.lastAiRevision == Some(e.revisions.content) && !e.modifiedAfterAi
         && e == d.(action := e.action, revisions := e.revisions, lastAiRevision := e.lastAiRevision,
                    modifiedAfterAi := false)
  }

  /**
   However long the provider takes and whatever else commits meanwhile: if the operation was not
   recovered, its report finds the Cycle active on the same Version with the very Action text and
   revision the operation started from, and is recorded and applied without a conflict.
   */
  lemma FinishLands(cfg: Config, w: World, i: ActionInput, events: seq<Event>, x: World, f: FinishInput)
    requires Inv(cfg, w) && Enabled(w, OnBeginAction(i)) && BeginAction(cfg, w, i).answer == Begun(i.id)
    requires Run(cfg, Apply(cfg, w, OnBeginAction(i)), events, x)
    requires i.id in x.history.log && x.history.log[i.id].fate == StillRunning
    requires f.id == i.id && f.operation == i.operation && Plausible(x, f)
    requires i.cycle in w.db.cycles && f.targetRevision == w.db.cycles[i.cycle].revisions.content
    ensures i.cycle in x.db.cycles && ActionAwaits(w.db.cycles[i.cycle], x.db.cycles[i.cycle])
    ensures CurrentVersionOf(x.db, i.cycle)
    ensures FinishAction(x, f).answer ==
              if f.failure.Some? then Refused(ProviderFailed(f.failure.value))
              else ReplayedOutput(f.id, f.output, x.db.cycles[i.cycle].revisions.content != f.targetRevision)
    ensures Lands(x, f, i.cycle, FinishAction(x, f).world)
    ensures Records(x, f, x.db.cycles[i.cycle].revisions.content != f.targetRevision, FinishAction(x, f).world)
  {
    ActionStillThere(cfg, w, i, events, x);
    ActiveOnCurrent(x.db, i.cycle);
    ReportLands(x, f, i.cycle);
  }

  /** The Goal is in its active Cycle and on that Cycle's Version. */
  ghost predicate CurrentVersionOf(db: Db, cycle: Id)
    requires cycle in db.cycles
  {
    var c := db.cycles[cycle];
    c.goal in db.goals && db.goals[c.goal].status == ActiveCycle && CurrentVersion(db, c.goal) == Some(c.version)
  }

  lemma ReportLands(x: World, f: FinishInput, cycle: Id)
    requires ReportsAction(x, f) && x.db.generations[f.id].cycle == Some(cycle)
    ensures FinishAction(x, f).answer ==
              if f.failure.Some? then Refused(ProviderFailed(f.failure.value))
              else ReplayedOutput(f.id, f.output, x.db.cycles[cycle].revisions.content != f.targetRevision)
    ensures Lands(x, f, cycle, FinishAction(x, f).world)
    ensures Records(x, f, x.db.cycles[cycle].revisions.content != f.targetRevision, FinishAction(x, f).world)
  {
    FinishActionEffect(x, f);
    NormalizeFrameFixpoint(f.output);
  }

  lemma RefineRecords(w: World, f: FinishInput)
    requires ReportsRefine(w, f)
    ensures w.db.generations[f.id].draft.Some? && w.db.generations[f.id].draft.value in w.db.drafts
    ensures var g, z := w.db.generations[f.id], FinishRefine(w, f).world;
            && var changed := w.db.drafts[g.draft.value].revision != f.targetRevision;
            && FinishRefine(w, f).answer ==
                 (if f.failure.Some? then Refused(ProviderFailed(f.failure.value))
                  else ReplayedOutput(f.id, f.output, changed))
            && Records(w, f, changed, z)
            && f.id in z.history.log && z.history.log[f.id].fate == Settled(f.cost, false)
            && z.db.drafts == w.db.drafts && z.db.cycles == w.db.cycles && z.db.goals == w.db.goals
            && f.id in z.db.generations
            && z.db.generations[f.id].output == (if f.failure.Some? then None else Some(f.output))
  {
    FinishRefineEffect(w, f);
  }

  /** The same for a refinement: while it runs, its report is recorded as it is. */
  lemma RefineReportLands(cfg: Config, w: World, f: FinishInput)
    requires Inv(cfg, w) && Plausible(w, f) && RunsRefine(w, f.id)
    requires f.operation == GoalRefine && f.targetRevision == w.db.generations[f.id].targetRevision
    ensures w.db.generations[f.id].draft.Some? && w.db.generations[f.id].draft.value in w.db.drafts
    ensures var g, z := w.db.generations[f.id], FinishRefine(w, f).world;
            && var changed := w.db.drafts[g.draft.value].revision != f.targetRevision;
            && FinishRefine(w, f).answer ==
                 (if f.failure.Some? then Refused(ProviderFailed(f.failure.value))
                  else ReplayedOutput(f.id, f.output, changed))
            && Records(w, f, changed, z)
            && f.id in z.history.log && z.history.log[f.id].fate == Settled(f.cost, false)
            && z.db.drafts == w.db.drafts && z.db.cycles == w.db.cycles && z.db.goals == w.db.goals
            && f.id in z.db.generations
            && z.db.generations[f.id].output == (if f.failure.Some? then None else Some(f.output))
  {
    RunningRefineUntouched(cfg, w, f.id);
    RefineRecords(w, f);
  }

  // Reports that come late, or twice.

  /** The finishing use case of the report's operation. */
  ghost function Finishing(w: World, f: FinishInput): Step {
    if f.operation == GoalRefine then FinishRefine(w, f) else FinishAction(w, f)
  }

  ghost function Finished(w: World, f: FinishInput): World { Finishing(w, f).world }

  /** The usage is final, says how the call ended, and no longer exposes a month. */
  predicate UsageClosed(x: Db, f: FinishInput, z: Db) {
    && f.id in x.usages
    && z.usages ==
         x.usages[f.id := x.usages[f.id].(status := if f.failure.Some? then UsageFailed else UsageSucceeded,
                                          finalizedAt := Some(f.now), exposure := None)]
  }

  /**
   A report for an operation that was released is charged once, to the month of its acceptance, whatever became of its
   rows.
   */
  lemma LateReportSettles(cfg: Config, w: World, f: FinishInput)
    requires Inv(cfg, w) && f.id in w.history.log && w.history.log[f.id].fate == Released
    requires f.id in w.db.generations ==> w.db.generations[f.id].operation == f.operation
    ensures var e, z := w.history.log[f.id], Finished(w, f);
            && z.history.log == w.history.log[f.id := e.(fate := Settled(f.cost, true))]
            && MonthOf(z.db.months, e.month).actual == MonthOf(w.db.months, e.month).actual + f.cost
            && (forall month :: month != e.month ==> MonthOf(z.db.months, month) == MonthOf(w.db.months, month))
            && MonthOf(z.db.months, e.month).reserved == MonthOf(w.db.months, e.month).reserved
            && Finishing(w, f).answer == Refused(NotFound) && UsageClosed(w.db, f, z.db)
            && z.db == w.db.(months := z.db.months, usages := z.db.usages)
  {
    assert EntryFits(w.history.log[f.id], w.db, f.id);
    assert UsageFits(w.db.usages[f.id], w.history.log, f.id);
    if f.id in w.db.generations {
      assert GenerationFits(w.db.generations[f.id], w.history.log, f.id);
    }
    LateReport(w, f);
  }

  lemma LateReport(w: World, f: FinishInput)
    requires f.id in w.history.log && f.id in w.db.usages && w.db.usages[f.id].user in w.db.users
    requires w.db.usages[f.id].finalizedAt.None?
    requires w.db.usages[f.id].exposure == Some(Exposure(w.history.log[f.id].month, w.history.log[f.id].reservation))
    requires f.id in w.db.generations ==>
               w.db.generations[f.id].operation == f.operation && w.db.generations[f.id].status != Running
    ensures var e, z := w.history.log[f.id], Finished(w, f);
            && z.history.log == w.history.log[f.id := e.(fate := Settled(f.cost, true))]
            && z.db.months == w.db.months[e.month :=
                MonthOf(w.db.months, e.month).(actual := MonthOf(w.db.months, e.month).actual + f.cost)]
            && Finishing(w, f).answer == Refused(NotFound) && UsageClosed(w.db, f, z.db)
            && z.db == w.db.(months := z.db.months, usages := z.db.usages)
  {
  }

  /** Once an operation is charged or written off, any further report changes nothing. */
  lemma RepeatedReport(cfg: Config, w: World, f: FinishInput)
    requires Inv(cfg, w) && f.id in w.history.log
             && (w.history.log[f.id].fate.Settled? || w.history.log[f.id].fate.Written?)
    ensures FinishAction(w, f).world == w && FinishRefine(w, f).world == w
  {
    if f.id in w.db.generations {
      assert GenerationFits(w.db.generations[f.id], w.history.log, f.id);
    }
    if f.id in w.db.usages {
      assert UsageFits(w.db.usages[f.id], w.history.log, f.id);
    }
    FinalReport(w, f);
  }

  lemma FinalReport(w: World, f: FinishInput)
    requires f.id in w.db.generations ==> w.db.generations[f.id].status != Running
    requires f.id in w.db.usages ==> w.db.usages[f.id].finalizedAt.Some?
    ensures FinishAction(w, f).world == w && FinishRefine(w, f).world == w
  {
  }

  // A suggestion.

  /** A suggestion replaces exactly the text its refinement started from. */
  lemma AdoptsExactText(cfg: Config, w: World, i: AdoptInput)
    requires Inv(cfg, w) && AdoptSuggestion(w, i).answer == Done
    ensures i.generation in w.history.log && i.generation in w.db.generations
            && w.db.generations[i.generation].draft.Some?
    ensures var draft := w.db.generations[i.generation].draft.value;
            && draft in w.db.drafts && w.db.drafts[draft].body == w.history.log[i.generation].text
            && draft in AdoptSuggestion(w, i).world.db.drafts
            && Some(AdoptSuggestion(w, i).world.db.drafts[draft].body) == w.db.generations[i.generation].output
  {
    AdoptEffect(w, i);
    assert Aims(i.generation, w.db.generations[i.generation], w.db, w.history.log);
  }

  /** A suggestion is adopted at most once, whatever happens afterwards. */
  lemma AdoptedOnce(cfg: Config, w: World, i: AdoptInput, events: seq<Event>, x: World, j: AdoptInput)
    requires Inv(cfg, w) && AdoptSuggestion(w, i).answer == Done && j.generation == i.generation
    requires Run(cfg, Apply(cfg, w, OnAdopt(i)), events, x)
    ensures AdoptSuggestion(x, j).answer != Done && AdoptSuggestion(x, j).world == x
  {
    AdoptMarks(cfg, w, i);
    StepKeepsInv(cfg, w, OnAdopt(i));
    MarkEndures(cfg, Apply(cfg, w, OnAdopt(i)), events, x, i.generation);
    AdoptedRefused(x, j);
  }

  lemma AdoptMarks(cfg: Config, w: World, i: AdoptInput)
    requires TargetsInv(w.db, w.history.log) && AdoptSuggestion(w, i).answer == Done
    ensures var y := Apply(cfg, w, OnAdopt(i));
            i.generation in y.db.generations && y.db.generations[i.generation].adopted.Some?
  {
    AdoptEffect(w, i);
  }

  /** An adoption is never undone. */
  lemma MarkEndures(cfg: Config, y: World, events: seq<Event>, x: World, id: Id)
    requires Inv(cfg, y) && Run(cfg, y, events, x) && id in y.db.generations && y.db.generations[id].adopted.Some?
    ensures id in x.db.generations ==> x.db.generations[id].adopted == y.db.generations[id].adopted
  {
    RunKeepsGenerations(cfg, y, events, x);
  }

  lemma AdoptedRefused(x: World, j: AdoptInput)
    requires j.generation in x.db.generations ==> x.db.generations[j.generation].adopted.Some?
    ensures AdoptSuggestion(x, j).answer != Done && AdoptSuggestion(x, j).world == x
  {
  }
}
