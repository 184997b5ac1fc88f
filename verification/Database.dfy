/**
 The database and its commands. Each command runs one transaction on a copy of the rows and keeps the
 copy only at its end, so that what other commands see is always a state of a run.
 */
module Database {
  import opened Base
  import opened Rows
  import opened Keys
  import opened Schema
  import opened Ledger
  import opened LedgerInvariant
  import opened Lifecycle
  import opened Targets
  import opened Views
  import opened UseCases
  import opened Soundness
  import opened Persistence
  import opened Runs
  import opened Grounds
  import opened Answers
  import opened Statements
  import opened Queries
  import opened Fresh
  import opened Transactions
  import A = ActionTransactions
  import C = CycleTransactions
  import D = DraftTransactions
  import F = RefineTransactions
  import V = ReviewTransactions
  import X = DeletionTransactions

  /** This very command, and nothing else, happened. */
  ghost predicate Took(cfg: Config, w: World, e: Event, answer: Answer, x: World) {
    x == Apply(cfg, w, e) && answer == Perform(cfg, w, e).answer
  }

  /** A transaction that did its step leaves the next state of the run. */
  lemma Commits(cfg: Config, w: World, e: Event, step: Step, answer: Answer, tx: Db) returns (x: World)
    requires Reachable(cfg, w) && Enabled(w, e) && step == Perform(cfg, w, e) && Does(step, answer, tx)
    ensures x.db == tx && Reachable(cfg, x) && Took(cfg, w, e, answer, x)
  {
    ReachableThen(cfg, w, e);
    x := Apply(cfg, w, e);
  }

  /** What the invariant gives every transaction. */
  lemma ReachableGrounds(cfg: Config, w: World)
    requires Reachable(cfg, w)
    ensures Indexed(w.db) && LifecycleInv(w.db)
  {
    ReachableInv(cfg, w);
    IndexedRows(w.db, w.history.log);
  }

  lemma StepGrounds(cfg: Config, w: World, e: Event, step: Step)
    requires Reachable(cfg, w) && Enabled(w, e) && step == Perform(cfg, w, e)
    ensures Indexed(step.world.db) && LifecycleInv(step.world.db)
  {
    ReachableInv(cfg, w);
    PerformKeepsSound(cfg, w, e);
    IndexedRows(step.world.db, step.world.history.log);
  }

  lemma BeginGrounds(cfg: Config, w: World, user: Id, now: int, id: Id)
    requires Reachable(cfg, w) && id !in w.history.issued
    ensures Releasable(w.db, ExpiredIds(w.db.generations, user, now)) && id !in w.db.generations && id !in w.db.usages
  {
    ReachableInv(cfg, w);
    RunningReleasable(w.db, w.history.log, ExpiredIds(w.db.generations, user, now));
    UnusedOperation(w, id);
  }

  lemma FinishGrounds(cfg: Config, w: World, id: Id)
    requires Reachable(cfg, w)
    ensures Settleable(w.db, id)
  {
    ReachableInv(cfg, w);
    OperationSettleable(w.db, w.history.log, id);
  }

  lemma IssuedGrounds(cfg: Config, w: World)
    requires Reachable(cfg, w)
    ensures IssuedInv(w.db, w.history)
  {
    ReachableInv(cfg, w);
  }

  lemma UsageGrounds(cfg: Config, w: World, user: Id)
    requires Reachable(cfg, w)
    ensures forall draft {:trigger GenerationsOfDraft(w.db.generations, user, draft)} ::
              D.Charged(w.db, user, GenerationsOfDraft(w.db.generations, user, draft)) &&
              D.OwnUsages(w.db, user, GenerationsOfDraft(w.db.generations, user, draft))
  {
    ReachableInv(cfg, w);
    forall draft
      ensures D.Charged(w.db, user, GenerationsOfDraft(w.db.generations, user, draft)) &&
              D.OwnUsages(w.db, user, GenerationsOfDraft(w.db.generations, user, draft))
    {
      DraftCharged(w.db, w.history.log, user, draft);
    }
  }

  lemma DeleteGrounds(cfg: Config, w: World, user: Id, goal: Id)
    requires Reachable(cfg, w)
    ensures var ids := RunningOfGoal(w.db.generations, user, goal);
            Releasable(w.db, ids) && X.GoalFailable(w.db, user, goal, ids)
    ensures forall k :: k in w.db.receipts ==>
              w.db.receipts[k].request.DeleteRequest? && w.db.receipts[k].request.goal !in w.db.goals
  {
    ReachableInv(cfg, w);
    RunningReleasable(w.db, w.history.log, RunningOfGoal(w.db.generations, user, goal));
    GoalCharged(w.db, w.history.log, user, goal);
    forall k | k in w.db.receipts
      ensures w.db.receipts[k].request.DeleteRequest? && w.db.receipts[k].request.goal !in w.db.goals
    {
      ReceiptGone(w, k);
    }
  }

  lemma AccountGrounds(cfg: Config, w: World, user: Id)
    requires Reachable(cfg, w)
    ensures Releasable(w.db, RunningOfUser(w.db.generations, user))
    ensures forall id :: id in ReleasedOfUser(w.db, user) ==> w.db.usages[id].exposure.Some?
  {
    ReachableInv(cfg, w);
    RunningReleasable(w.db, w.history.log, RunningOfUser(w.db.generations, user));
    ReleasedExposed(w.db, w.history.log, user);
  }

  lemma StartGrounds(cfg: Config, w: World, i: StartInput)
    requires Reachable(cfg, w) && Enabled(w, OnStart(i))
    ensures Indexed(w.db) && i.goal !in w.db.goals && i.version !in w.db.versions && i.cycle !in w.db.cycles
    ensures D.Charged(w.db, i.user, GenerationsOfDraft(w.db.generations, i.user, i.draft))
    ensures var step := UseCases.StartGoal(cfg, w, i);
            step.answer == Created(i.goal) ==> Readable(step.world.db, i.user, i.goal, i.cycle)
  {
    ReachableGrounds(cfg, w);
    IssuedGrounds(cfg, w);
    UsageGrounds(cfg, w, i.user);
    StepGrounds(cfg, w, OnStart(i), UseCases.StartGoal(cfg, w, i));
    if UseCases.StartGoal(cfg, w, i).answer == Created(i.goal) {
      StartReadsBack(cfg, w, i);
    }
  }

  lemma ScheduleGrounds(cfg: Config, w: World, user: Id, goal: Id, cycle: Id, date: Option<int>, expected: int)
    requires Reachable(cfg, w)
    ensures var step := UseCases.ChangeSchedule(w, user, goal, cycle, date, expected);
            step.answer == Done ==> Indexed(step.world.db) && CycleReadOk(step.world.db, user, goal, cycle)
  {
    var step := UseCases.ChangeSchedule(w, user, goal, cycle, date, expected);
    StepGrounds(cfg, w, OnChangeSchedule(user, goal, cycle, date, expected), step);
    if step.answer == Done {
      ScheduleReadsBack(w, user, goal, cycle, date, expected);
    }
  }

  lemma ReplanGrounds(cfg: Config, w: World, i: ReplanInput)
    requires Reachable(cfg, w) && Enabled(w, OnReplan(i))
    ensures Indexed(w.db) && i.next !in w.db.cycles
    ensures var step := UseCases.ReplanCycle(w, i);
            step.answer == Created(i.next) ==>
              Indexed(step.world.db) && i.cycle in step.world.db.cycles
                && ReplanReads(step.world.db, i, step.world.db.cycles[i.cycle])
  {
    ReachableGrounds(cfg, w);
    IssuedGrounds(cfg, w);
    StepGrounds(cfg, w, OnReplan(i), UseCases.ReplanCycle(w, i));
    if UseCases.ReplanCycle(w, i).answer == Created(i.next) {
      ReplanReadsBack(w, i);
    }
  }

  lemma ContinueGrounds(cfg: Config, w: World, i: ContinueInput)
    requires Reachable(cfg, w) && Enabled(w, OnContinue(i))
    ensures Indexed(w.db) && i.version !in w.db.versions && i.cycle !in w.db.cycles
    ensures forall draft :: ReviewDraft(w.db, i.user, i.goal) == Some(draft) ==>
              D.OwnUsages(w.db, i.user, GenerationsOfDraft(w.db.generations, i.user, draft))
    ensures Continuable(w.db, w.history, i)
  {
    ReachableGrounds(cfg, w);
    IssuedGrounds(cfg, w);
    UsageGrounds(cfg, w, i.user);
    StepGrounds(cfg, w, OnContinue(i), UseCases.ContinueReview(w, i));
    ContinueReadsBack(w, i);
  }

  lemma TerminateGrounds(cfg: Config, w: World, i: TerminateInput)
    requires Reachable(cfg, w)
    ensures Indexed(w.db)
    ensures forall draft :: ReviewDraft(w.db, i.user, i.goal) == Some(draft) ==>
              D.OwnUsages(w.db, i.user, GenerationsOfDraft(w.db.generations, i.user, draft))
    ensures var step := UseCases.Terminate(w, i);
            step.answer == Done ==>
              if i.state == ActiveCycle then ActiveEndable(w.db, step.world.db, i)
                else ReviewEndable(w.db, step.world.db, i)
  {
    ReachableGrounds(cfg, w);
    UsageGrounds(cfg, w, i.user);
    StepGrounds(cfg, w, OnTerminate(i), UseCases.Terminate(w, i));
    TerminateReadsBack(w, i);
  }

  lemma CompleteGrounds(cfg: Config, w: World, i: CompleteInput)
    requires Reachable(cfg, w) && Enabled(w, OnComplete(i))
    ensures Indexed(w.db) && i.draft !in w.db.drafts
    ensures forall c :: c in w.db.cycles && w.db.cycles[c].status == Active ==> w.db.cycles[c].completion == None
    ensures var step := UseCases.CompleteCycle(w, i);
            step.answer == Created(i.draft) ==> Indexed(step.world.db) && CompletionReads(step.world.db, i)
  {
    ReachableGrounds(cfg, w);
    IssuedGrounds(cfg, w);
    ActiveNotCompleted(w.db);
    StepGrounds(cfg, w, OnComplete(i), UseCases.CompleteCycle(w, i));
    if UseCases.CompleteCycle(w, i).answer == Created(i.draft) {
      CompleteReadsBack(w, i);
    }
  }

  class Store {
    const cfg: Config
    var db: Db
    ghost var history: History

    ghost function Now(): World
      reads this
    {
      World(db, history)
    }

    ghost predicate Valid()
      reads this
    {
      Reachable(cfg, Now())
    }

    constructor (cfg: Config)
      ensures Valid() && this.cfg == cfg && Now() == EMPTY
    {
      this.cfg := cfg;
      db := EMPTY.db;
      history := EMPTY.history;
      new;
      assert Run(cfg, EMPTY, [], Now());
    }

    method CreateUser(user: Id) returns (answer: Answer)
      requires Valid() && Enabled(Now(), OnCreateUser(user))
      modifies this
      ensures Valid() && Took(cfg, old(Now()), OnCreateUser(user), answer, Now())
    {
      ghost var w, e := Now(), OnCreateUser(user);
      var tx := db.(users := db.users + {user});
      answer := Created(user);
      ghost var x := Commits(cfg, w, e, Perform(cfg, w, e), answer, tx);
      db, history := tx, x.history;
    }

    method CreateDraft(user: Id, body: string, id: Id) returns (answer: Answer)
      requires Valid() && Enabled(Now(), OnCreateDraft(user, body, id))
      modifies this
      ensures Valid() && Took(cfg, old(Now()), OnCreateDraft(user, body, id), answer, Now())
    {
      ghost var w, e := Now(), OnCreateDraft(user, body, id);
      ReachableGrounds(cfg, w);
      IssuedGrounds(cfg, w);
      var tx;
      answer, tx := D.CreateDraft(db, history, user, body, id);
      ghost var x := Commits(cfg, w, e, UseCases.CreateDraft(w, user, body, id), answer, tx);
      db, history := tx, x.history;
    }

    method SaveDraft(user: Id, id: Id, body: string, patch: Patch, expected: int) returns (answer: Answer)
      requires Valid()
      modifies this
      ensures Valid() && Took(cfg, old(Now()), OnSaveDraft(user, id, body, patch, expected), answer, Now())
    {
      ghost var w, e := Now(), OnSaveDraft(user, id, body, patch, expected);
      var tx;
      answer, tx := D.SaveDraft(db, history, user, id, body, patch, expected);
      ghost var x := Commits(cfg, w, e, UseCases.SaveDraft(w, user, id, body, patch, expected), answer, tx);
      db, history := tx, x.history;
    }

    method SaveReview(user: Id, goal: Id, id: Id, body: string, patch: Patch, expected: int) returns (answer: Answer)
      requires Valid()
      modifies this
      ensures Valid() && Took(cfg, old(Now()), OnSaveReview(user, goal, id, body, patch, expected), answer, Now())
    {
      ghost var w, e := Now(), OnSaveReview(user, goal, id, body, patch, expected);
      ReachableGrounds(cfg, w);
      var tx;
      answer, tx := D.SaveReview(db, history, user, goal, id, body, patch, expected);
      ghost var x := Commits(cfg, w, e, UseCases.SaveReview(w, user, goal, id, body, patch, expected), answer, tx);
      db, history := tx, x.history;
    }

    method AbandonDraft(user: Id, id: Id, now: int) returns (answer: Answer)
      requires Valid()
      modifies this
      ensures Valid() && Took(cfg, old(Now()), OnAbandon(user, id, now), answer, Now())
    {
      ghost var w, e := Now(), OnAbandon(user, id, now);
      UsageGrounds(cfg, w, user);
      var tx;
      answer, tx := D.AbandonDraft(db, history, user, id, now);
      ghost var x := Commits(cfg, w, e, UseCases.AbandonDraft(w, user, id, now), answer, tx);
      db, history := tx, x.history;
    }

    method StartGoal(i: StartInput) returns (answer: Answer)
      requires Valid() && Enabled(Now(), OnStart(i))
      modifies this
      ensures Valid() && Took(cfg, old(Now()), OnStart(i), answer, Now())
    {
      ghost var w, e := Now(), OnStart(i);
      ghost var step := UseCases.StartGoal(cfg, w, i);
      StartGrounds(cfg, w, i);
      var tx;
      answer, tx := D.StartGoal(cfg, db, history, i);
      ghost var x := Commits(cfg, w, e, step, answer, tx);
      db, history := tx, x.history;
    }

    method BeginAction(i: ActionInput) returns (answer: Answer)
      requires Valid() && Enabled(Now(), OnBeginAction(i))
      modifies this
      ensures Valid() && Took(cfg, old(Now()), OnBeginAction(i), answer, Now())
    {
      ghost var w, e := Now(), OnBeginAction(i);
      ReachableGrounds(cfg, w);
      BeginGrounds(cfg, w, i.user, i.now, i.id);
      var tx;
      answer, tx := A.BeginAction(cfg, db, history, i);
      ghost var x := Commits(cfg, w, e, UseCases.BeginAction(cfg, w, i), answer, tx);
      db, history := tx, x.history;
    }

    method FinishAction(f: FinishInput) returns (answer: Answer)
      requires Valid() && Enabled(Now(), OnFinishAction(f))
      modifies this
      ensures Valid() && Took(cfg, old(Now()), OnFinishAction(f), answer, Now())
    {
      ghost var w, e := Now(), OnFinishAction(f);
      ReachableGrounds(cfg, w);
      FinishGrounds(cfg, w, f.id);
      var tx;
      answer, tx := A.FinishAction(db, history, f);
      ghost var x := Commits(cfg, w, e, UseCases.FinishAction(w, f), answer, tx);
      db, history := tx, x.history;
    }

    method BeginRefine(i: RefineInput) returns (answer: Answer)
      requires Valid() && Enabled(Now(), OnBeginRefine(i))
      modifies this
      ensures Valid() && Took(cfg, old(Now()), OnBeginRefine(i), answer, Now())
    {
      ghost var w, e := Now(), OnBeginRefine(i);
      ReachableGrounds(cfg, w);
      BeginGrounds(cfg, w, i.user, i.now, i.id);
      var tx;
      answer, tx := F.BeginRefine(cfg, db, history, i);
      ghost var x := Commits(cfg, w, e, UseCases.BeginRefine(cfg, w, i), answer, tx);
      db, history := tx, x.history;
    }

    method FinishRefine(f: FinishInput) returns (answer: Answer)
      requires Valid() && Enabled(Now(), OnFinishRefine(f))
      modifies this
      ensures Valid() && Took(cfg, old(Now()), OnFinishRefine(f), answer, Now())
    {
      ghost var w, e := Now(), OnFinishRefine(f);
      ReachableGrounds(cfg, w);
      FinishGrounds(cfg, w, f.id);
      var tx;
      answer, tx := F.FinishRefine(db, history, f);
      ghost var x := Commits(cfg, w, e, UseCases.FinishRefine(w, f), answer, tx);
      db, history := tx, x.history;
    }

    method AdoptSuggestion(i: AdoptInput) returns (answer: Answer)
      requires Valid()
      modifies this
      ensures Valid() && Took(cfg, old(Now()), OnAdopt(i), answer, Now())
    {
      ghost var w, e := Now(), OnAdopt(i);
      ReachableGrounds(cfg, w);
      var tx;
      answer, tx := F.AdoptSuggestion(db, history, i);
      ghost var x := Commits(cfg, w, e, UseCases.AdoptSuggestion(w, i), answer, tx);
      db, history := tx, x.history;
    }

    method SaveFrame(user: Id, goal: Id, cycle: Id, frame: Frame, text: string, expected: int) returns (answer: Answer)
      requires Valid()
      modifies this
      ensures Valid() && Took(cfg, old(Now()), OnSaveFrame(user, goal, cycle, frame, text, expected), answer, Now())
    {
      ghost var w, e := Now(), OnSaveFrame(user, goal, cycle, frame, text, expected);
      var tx;
      answer, tx := C.SaveFrame(db, history, user, goal, cycle, frame, text, expected);
      ghost var x := Commits(cfg, w, e, UseCases.SaveFrame(w, user, goal, cycle, frame, text, expected), answer, tx);
      db, history := tx, x.history;
    }

    method ChangeSchedule(user: Id, goal: Id, cycle: Id, date: Option<int>, expected: int) returns (answer: Answer)
      requires Valid()
      modifies this
      ensures Valid() && Took(cfg, old(Now()), OnChangeSchedule(user, goal, cycle, date, expected), answer, Now())
    {
      ghost var w, e := Now(), OnChangeSchedule(user, goal, cycle, date, expected);
      ScheduleGrounds(cfg, w, user, goal, cycle, date, expected);
      var tx;
      answer, tx := C.ChangeSchedule(db, history, user, goal, cycle, date, expected);
      ghost var x := Commits(cfg, w, e, UseCases.ChangeSchedule(w, user, goal, cycle, date, expected), answer, tx);
      db, history := tx, x.history;
    }

    method CompleteCycle(i: CompleteInput) returns (answer: Answer)
      requires Valid() && Enabled(Now(), OnComplete(i))
      modifies this
      ensures Valid() && Took(cfg, old(Now()), OnComplete(i), answer, Now())
    {
      ghost var w, e := Now(), OnComplete(i);
      ghost var step := UseCases.CompleteCycle(w, i);
      CompleteGrounds(cfg, w, i);
      var tx;
      answer, tx := C.CompleteCycle(db, history, i);
      ghost var x := Commits(cfg, w, e, step, answer, tx);
      db, history := tx, x.history;
    }

    method ReplanCycle(i: ReplanInput) returns (answer: Answer)
      requires Valid() && Enabled(Now(), OnReplan(i))
      modifies this
      ensures Valid() && Took(cfg, old(Now()), OnReplan(i), answer, Now())
    {
      ghost var w, e := Now(), OnReplan(i);
      ghost var step := UseCases.ReplanCycle(w, i);
      ReplanGrounds(cfg, w, i);
      var tx;
      answer, tx := C.ReplanCycle(db, history, i);
      ghost var x := Commits(cfg, w, e, step, answer, tx);
      db, history := tx, x.history;
    }

    method ContinueReview(i: ContinueInput) returns (answer: Answer)
      requires Valid() && Enabled(Now(), OnContinue(i))
      modifies this
      ensures Valid() && Took(cfg, old(Now()), OnContinue(i), answer, Now())
    {
      ghost var w, e := Now(), OnContinue(i);
      ghost var step := UseCases.ContinueReview(w, i);
      ContinueGrounds(cfg, w, i);
      var tx;
      answer, tx := V.ContinueReview(db, history, i);
      ghost var x := Commits(cfg, w, e, step, answer, tx);
      db, history := tx, x.history;
    }

    method Terminate(i: TerminateInput) returns (answer: Answer)
      requires Valid()
      modifies this
      ensures Valid() && Took(cfg, old(Now()), OnTerminate(i), answer, Now())
    {
      ghost var w, e := Now(), OnTerminate(i);
      ghost var step := UseCases.Terminate(w, i);
      TerminateGrounds(cfg, w, i);
      var tx;
      answer, tx := V.Terminate(db, history, i);
      ghost var x := Commits(cfg, w, e, step, answer, tx);
      db, history := tx, x.history;
    }

    method DeleteGoal(i: DeleteInput) returns (answer: Answer)
      requires Valid()
      modifies this
      ensures Valid() && Took(cfg, old(Now()), OnDeleteGoal(i), answer, Now())
    {
      ghost var w, e := Now(), OnDeleteGoal(i);
      DeleteGrounds(cfg, w, i.user, i.goal);
      var tx;
      answer, tx := X.DeleteGoal(db, history, i);
      ghost var x := Commits(cfg, w, e, UseCases.DeleteGoal(w, i), answer, tx);
      db, history := tx, x.history;
    }

    method DeleteAccount(user: Id) returns (answer: Answer)
      requires Valid()
      modifies this
      ensures Valid() && Took(cfg, old(Now()), OnDeleteAccount(user), answer, Now())
    {
      ghost var w, e := Now(), OnDeleteAccount(user);
      AccountGrounds(cfg, w, user);
      var tx;
      answer, tx := X.DeleteAccount(db, history, user);
      ghost var x := Commits(cfg, w, e, UseCases.DeleteAccount(w, user), answer, tx);
      db, history := tx, x.history;
    }
  }
}
