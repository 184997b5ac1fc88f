/** What a generation row keeps for as long as it is there. */
module Operations {
  import opened Base
  import opened Rows
  import opened Keys
  import opened Schema
  import opened Ledger
  import opened LedgerInvariant
  import opened Lifecycle
  import opened Targets
  import opened UseCases
  import opened Outcomes
  import opened Soundness
  import opened RowSteps
  import opened MoneySteps
  import opened DraftSteps
  import opened DeleteSteps

  /** Its command, its Cycle and its source never change; its outcome and its adoption are written once. */
  predicate GenerationKept(g: Generation, h: Generation) {
    && h.user == g.user && h.operation == g.operation && h.cycle == g.cycle && h.targetRevision == g.targetRevision
    && h.key == g.key && h.request == g.request && h.source == g.source && h.month == g.month
    && (g.status != Running ==> h.status == g.status && h.output == g.output && h.failure == g.failure)
    && (g.adopted.Some? ==> h.adopted == g.adopted)
  }

  /** A row is an old one, or belongs to an operation that was not known before. */
  predicate GenerationsKept(w: World, x: World) {
    && w.history.log.Keys <= x.history.log.Keys
    && (forall id :: id in x.db.generations ==>
          if id in w.db.generations then GenerationKept(w.db.generations[id], x.db.generations[id])
            else id !in w.history.log)
  }

  predicate SameGenerations(w: World, x: World) {
    x.db.generations == w.db.generations && x.history.log == w.history.log
  }

  lemma SameKeeps(w: World, x: World)
    requires SameGenerations(w, x)
    ensures GenerationsKept(w, x)
  {
  }

  lemma GenerationsKeptTransitive(a: World, b: World, c: World)
    requires GenerationsKept(a, b) && GenerationsKept(b, c) && a.db.generations.Keys <= a.history.log.Keys
    ensures GenerationsKept(a, c)
  {
    forall id | id in c.db.generations
      ensures if id in a.db.generations then GenerationKept(a.db.generations[id], c.db.generations[id])
              else id !in a.history.log
    {
      assert id in b.db.generations ==> (id in a.db.generations || id !in a.history.log);
    }
  }

  lemma WritesKeepGenerations(w: World, user: Id, goal: Id, id: Id, body: string, patch: Patch, expected: int)
    ensures SameGenerations(w, CreateUser(w, user).world)
    ensures SameGenerations(w, CreateDraft(w, user, body, id).world)
    ensures SameGenerations(w, SaveDraft(w, user, id, body, patch, expected).world)
    ensures SameGenerations(w, SaveReview(w, user, goal, id, body, patch, expected).world)
  {
  }

  lemma SaveFrameKeepsGenerations(w: World, user: Id, goal: Id, cycle: Id, frame: Frame, text: string, expected: int)
    ensures SameGenerations(w, SaveFrame(w, user, goal, cycle, frame, text, expected).world)
  {
  }

  lemma ChangeScheduleKeepsGenerations(w: World, user: Id, goal: Id, cycle: Id, date: Option<int>, expected: int)
    ensures SameGenerations(w, ChangeSchedule(w, user, goal, cycle, date, expected).world)
  {
  }

  lemma CompleteKeepsGenerations(w: World, i: CompleteInput)
    ensures SameGenerations(w, CompleteCycle(w, i).world)
  {
  }

  lemma ReplanKeepsGenerations(w: World, i: ReplanInput)
    ensures SameGenerations(w, ReplanCycle(w, i).world)
  {
  }

  lemma StartKeepsGenerations(cfg: Config, w: World, i: StartInput)
    ensures GenerationsKept(w, StartGoal(cfg, w, i).world)
  {
    StartAttaches(cfg, w, i);
  }

  lemma ContinueKeepsGenerations(w: World, i: ContinueInput)
    ensures GenerationsKept(w, ContinueReview(w, i).world)
  {
    ContinueAttaches(w, i);
  }

  lemma AbandonKeepsGenerations(w: World, user: Id, id: Id, now: int)
    ensures GenerationsKept(w, AbandonDraft(w, user, id, now).world)
  {
    AbandonDrops(w, user, id, now);
  }

  lemma TerminateKeepsGenerations(w: World, i: TerminateInput)
    ensures GenerationsKept(w, Terminate(w, i).world)
  {
    TerminateDrops(w, i);
  }

  lemma AdoptKeepsGenerations(w: World, i: AdoptInput)
    ensures GenerationsKept(w, AdoptSuggestion(w, i).world)
  {
    AdoptAdopts(w, i);
    if AdoptSuggestion(w, i).answer == Done {
      MarkKeepsGenerations(w, AdoptSuggestion(w, i).world, i.generation);
    }
  }

  lemma MarkKeepsGenerations(w: World, x: World, id: Id)
    requires id in w.db.generations && id in x.db.generations && w.db.generations[id].adopted.None?
             && x.history == w.history
    requires x.db.generations[id] == w.db.generations[id].(adopted := x.db.generations[id].adopted)
    requires x.db.generations == w.db.generations[id := x.db.generations[id]]
    ensures GenerationsKept(w, x)
  {
  }

  lemma ReleaseKeepsGenerations(w: World, ids: set<Id>)
    requires AllRunning(w.db, ids)
    ensures GenerationsKept(w, Release(w, ids))
  {
  }

  lemma AcceptKeepsGenerations(r: World, id: Id, g: Generation, now: int, text: string, revision: nat)
    requires id !in r.history.log && id !in r.db.generations
    ensures GenerationsKept(r, Accept(r, id, g, now, text, revision))
  {
  }

  lemma CloseKeepsGenerations(w: World, f: FinishInput, x: World)
    requires Closes(w, f, x)
    ensures GenerationsKept(w, x)
  {
  }

  lemma ReportedKeepsGenerations(w: World, f: FinishInput, x: World)
    requires Reported(w, f, x)
    ensures GenerationsKept(w, x)
  {
    if Closes(w, f, x) {
      CloseKeepsGenerations(w, f, x);
    }
  }

  lemma DeleteGoalGenerations(w: World, i: DeleteInput)
    requires DeleteGoal(w, i).world != w
    ensures var r, x := Release(w, RunningOfGoal(w.db.generations, i.user, i.goal)), DeleteGoal(w, i).world;
            && x.history == r.history
            && (forall id :: id in x.db.generations ==>
                id in r.db.generations && x.db.generations[id] == r.db.generations[id])
  {
  }

  lemma DeleteGoalKeepsGenerations(w: World, i: DeleteInput)
    ensures GenerationsKept(w, DeleteGoal(w, i).world)
  {
    if DeleteGoal(w, i).world != w {
      DeleteGoalGenerations(w, i);
      ReleaseKeepsGenerations(w, RunningOfGoal(w.db.generations, i.user, i.goal));
    }
  }

  lemma DeleteAccountKeepsGenerations(w: World, user: Id)
    ensures GenerationsKept(w, DeleteAccount(w, user).world)
  {
  }

  lemma BeganKeepsGenerations(cfg: Config, w: World, x: World, user: Id, id: Id, now: int)
    requires id !in w.history.log && w.db.generations.Keys <= w.history.log.Keys && Began(cfg, w, x, user, id, now)
    ensures GenerationsKept(w, x)
  {
    var r := Recover(w, user, now);
    ReleaseKeepsGenerations(w, ExpiredIds(w.db.generations, user, now));
    if Accepts(cfg, w, x, user, id, now) {
      AcceptKeepsGenerations(r, id, x.db.generations[id], now, x.history.log[id].text, x.history.log[id].textRevision);
      GenerationsKeptTransitive(w, r, x);
    }
  }
}
