/** What most transactions leave alone: the money of every month, and the operations that are still running. */
module Quiet {
  import opened Base
  import opened Rows
  import opened Keys
  import opened Schema
  import opened Ledger
  import opened UseCases
  import opened Outcomes
  import opened Runs

  predicate RunsHere(w: World, id: Id) {
    id in w.db.generations && w.db.generations[id].status == Running && id in w.history.log
  }

  /** A running operation's row and its entry are as they were. */
  predicate Alone(w: World, x: World, id: Id) {
    RunsHere(w, id) ==>
      && id in x.db.generations && x.db.generations[id] == w.db.generations[id]
      && id in x.history.log && x.history.log[id] == w.history.log[id]
  }

  /** No money moves, and what runs goes on. */
  predicate LeavesMoney(w: World, x: World, id: Id) {
    x.db.months == w.db.months && Alone(w, x, id)
  }

  // Commands that only write texts and states.

  lemma CreateQuiet(w: World, user: Id, draft: Id, body: string, id: Id)
    ensures LeavesMoney(w, CreateUser(w, user).world, id)
    ensures LeavesMoney(w, CreateDraft(w, user, body, draft).world, id)
  {
  }

  lemma SaveDraftQuiet(w: World, user: Id, draft: Id, body: string, patch: Patch, expected: int, id: Id)
    ensures LeavesMoney(w, SaveDraft(w, user, draft, body, patch, expected).world, id)
  {
  }

  lemma SaveReviewQuiet(w: World, user: Id, goal: Id, draft: Id, body: string, patch: Patch, expected: int, id: Id)
    ensures LeavesMoney(w, SaveReview(w, user, goal, draft, body, patch, expected).world, id)
  {
  }

  lemma AbandonQuiet(w: World, user: Id, draft: Id, now: int, id: Id)
    ensures LeavesMoney(w, AbandonDraft(w, user, draft, now).world, id)
  {
    AbandonDrops(w, user, draft, now);
  }

  lemma StartQuiet(cfg: Config, w: World, i: StartInput, id: Id)
    ensures LeavesMoney(w, StartGoal(cfg, w, i).world, id)
  {
    StartAttaches(cfg, w, i);
  }

  lemma AdoptQuiet(w: World, i: AdoptInput, id: Id)
    ensures LeavesMoney(w, AdoptSuggestion(w, i).world, id)
  {
    AdoptAdopts(w, i);
  }

  lemma SaveFrameQuiet(w: World, user: Id, goal: Id, cycle: Id, frame: Frame, text: string, expected: int, id: Id)
    ensures LeavesMoney(w, SaveFrame(w, user, goal, cycle, frame, text, expected).world, id)
  {
  }

  lemma ChangeScheduleQuiet(w: World, user: Id, goal: Id, cycle: Id, date: Option<int>, expected: int, id: Id)
    ensures LeavesMoney(w, ChangeSchedule(w, user, goal, cycle, date, expected).world, id)
  {
  }

  lemma CompleteQuiet(w: World, i: CompleteInput, id: Id)
    ensures LeavesMoney(w, CompleteCycle(w, i).world, id)
  {
  }

  lemma ReplanQuiet(w: World, i: ReplanInput, id: Id)
    ensures LeavesMoney(w, ReplanCycle(w, i).world, id)
  {
  }

  lemma ContinueQuiet(w: World, i: ContinueInput, id: Id)
    ensures LeavesMoney(w, ContinueReview(w, i).world, id)
  {
    ContinueAttaches(w, i);
  }

  lemma TerminateQuiet(w: World, i: TerminateInput, id: Id)
    ensures LeavesMoney(w, Terminate(w, i).world, id)
  {
    TerminateDrops(w, i);
  }

  predicate MovesMoney(e: Event) {
    e.OnBeginAction? || e.OnFinishAction? || e.OnBeginRefine? || e.OnFinishRefine? || e.OnDeleteGoal? ||
      e.OnDeleteAccount?
  }

  lemma OthersQuiet(cfg: Config, w: World, e: Event, id: Id)
    requires !MovesMoney(e)
    ensures LeavesMoney(w, Perform(cfg, w, e).world, id)
  {
    if DraftWrite(e) {
      DraftEventQuiet(cfg, w, e, id);
    } else if CycleEdit(e) {
      CycleEditQuiet(cfg, w, e, id);
    } else if CycleTurn(e) {
      CycleTurnQuiet(cfg, w, e, id);
    } else {
      match e
      case OnAdopt(i) => AdoptQuiet(w, i, id);
      case OnContinue(i) => ContinueQuiet(w, i, id);
      case OnTerminate(i) => TerminateQuiet(w, i, id);
      case OnCleanup(_, _) =>
    }
  }

  lemma DraftEventQuiet(cfg: Config, w: World, e: Event, id: Id)
    requires DraftWrite(e)
    ensures LeavesMoney(w, Perform(cfg, w, e).world, id)
  {
    match e
    case OnCreateUser(user) => CreateQuiet(w, user, 0, "", id);
    case OnCreateDraft(user, body, draft) => CreateQuiet(w, user, draft, body, id);
    case OnSaveDraft(user, draft, body, patch, expected) => SaveDraftQuiet(w, user, draft, body, patch, expected, id);
    case OnSaveReview(user, goal, draft, body, patch, expected) =>
      SaveReviewQuiet(w, user, goal, draft, body, patch, expected, id);
    case OnAbandon(user, draft, now) => AbandonQuiet(w, user, draft, now, id);
  }

  lemma CycleEditQuiet(cfg: Config, w: World, e: Event, id: Id)
    requires CycleEdit(e)
    ensures LeavesMoney(w, Perform(cfg, w, e).world, id)
  {
    match e
    case OnSaveFrame(user, goal, cycle, frame, text, expected) =>
      SaveFrameQuiet(w, user, goal, cycle, frame, text, expected, id);
    case OnChangeSchedule(user, goal, cycle, date, expected) =>
      ChangeScheduleQuiet(w, user, goal, cycle, date, expected, id);
  }

  lemma CycleTurnQuiet(cfg: Config, w: World, e: Event, id: Id)
    requires CycleTurn(e)
    ensures LeavesMoney(w, Perform(cfg, w, e).world, id)
  {
    match e
    case OnStart(i) => StartQuiet(cfg, w, i, id);
    case OnComplete(i) => CompleteQuiet(w, i, id);
    case OnReplan(i) => ReplanQuiet(w, i, id);
  }
}
