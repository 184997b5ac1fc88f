/** Runs of the whole system: any interleaving of the use cases, from the empty database. */
module Runs {
  import opened Base
  import opened Rows
  import opened MapSum
  import opened Keys
  import opened Schema
  import opened Ledger
  import opened LedgerInvariant
  import opened Quota
  import opened Lifecycle
  import opened Targets
  import opened UseCases
  import opened Outcomes
  import opened Soundness
  import opened QuotaSteps
  import opened Persistence
  import opened Operations
  import opened RowSteps
  import opened MoneySteps
  import opened DraftSteps
  import opened DeleteSteps

  /** One transaction. */
  datatype Event =
    | OnCreateUser(user: Id)
    | OnCreateDraft(user: Id, body: string, id: Id)
    | OnSaveDraft(user: Id, id: Id, body: string, patch: Patch, expected: int)
    | OnSaveReview(user: Id, goal: Id, id: Id, body: string, patch: Patch, expected: int)
    | OnAbandon(user: Id, id: Id, now: int)
    | OnStart(start: StartInput)
    | OnBeginAction(action: ActionInput)
    | OnFinishAction(report: FinishInput)
    | OnBeginRefine(refine: RefineInput)
    | OnFinishRefine(report: FinishInput)
    | OnAdopt(adopt: AdoptInput)
    | OnSaveFrame(user: Id, goal: Id, cycle: Id, frame: Frame, text: string, expected: int)
    | OnChangeSchedule(user: Id, goal: Id, cycle: Id, date: Option<int>, expected: int)
    | OnComplete(complete: CompleteInput)
    | OnReplan(replan: ReplanInput)
    | OnContinue(next: ContinueInput)
    | OnTerminate(terminate: TerminateInput)
    | OnDeleteGoal(delete: DeleteInput)
    | OnDeleteAccount(user: Id)
    | OnCleanup(ids: set<Id>, now: int)

  ghost function Perform(cfg: Config, w: World, e: Event): Step {
    match e
    case OnCreateUser(user) => CreateUser(w, user)
    case OnCreateDraft(user, body, id) => CreateDraft(w, user, body, id)
    case OnSaveDraft(user, id, body, patch, expected) => SaveDraft(w, user, id, body, patch, expected)
    case OnSaveReview(user, goal, id, body, patch, expected) => SaveReview(w, user, goal, id, body, patch, expected)
    case OnAbandon(user, id, now) => AbandonDraft(w, user, id, now)
    case OnStart(i) => StartGoal(cfg, w, i)
    case OnBeginAction(i) => BeginAction(cfg, w, i)
    case OnFinishAction(f) => FinishAction(w, f)
    case OnBeginRefine(i) => BeginRefine(cfg, w, i)
    case OnFinishRefine(f) => FinishRefine(w, f)
    case OnAdopt(i) => AdoptSuggestion(w, i)
    case OnSaveFrame(user, goal, cycle, frame, text, expected) => SaveFrame(w, user, goal, cycle, frame, text, expected)
    case OnChangeSchedule(user, goal, cycle, date, expected) => ChangeSchedule(w, user, goal, cycle, date, expected)
    case OnComplete(i) => CompleteCycle(w, i)
    case OnReplan(i) => ReplanCycle(w, i)
    case OnContinue(i) => ContinueReview(w, i)
    case OnTerminate(i) => Terminate(w, i)
    case OnDeleteGoal(i) => DeleteGoal(w, i)
    case OnDeleteAccount(user) => DeleteAccount(w, user)
    case OnCleanup(ids, now) => Cleanup(w, ids, now)
  }

  /** The clock a transaction that may remove usage rows, or accept an operation, has read. */
  function ClockOf(e: Event): Option<int> {
    match e
    case OnAbandon(_, _, now) => Some(now)
    case OnBeginAction(i) => Some(i.now)
    case OnBeginRefine(i) => Some(i.now)
    case OnTerminate(i) => Some(i.now)
    case OnDeleteGoal(i) => Some(i.now)
    case OnCleanup(_, now) => Some(now)
    case _ => None
  }

  /**
   What the environment guarantees: generated identifiers are new, a provider's cost stays within the
   reservation and its output has passed its validator, and an operation is accepted with a clock at
   most the safety margin behind the latest committed one.
   */
  ghost predicate Enabled(w: World, e: Event) {
    var issued := w.history.issued;
    match e
    case OnCreateUser(user) => user !in issued
    case OnCreateDraft(_, _, id) => id !in issued
    case OnStart(i) => i.goal !in issued && i.version !in issued && i.cycle !in issued
    case OnBeginAction(i) => i.id !in issued && w.history.clock - RETENTION_MARGIN <= i.now
    case OnBeginRefine(i) => i.id !in issued && w.history.clock - RETENTION_MARGIN <= i.now
    case OnFinishAction(f) => Plausible(w, f)
    case OnFinishRefine(f) => Plausible(w, f) && f.operation == GoalRefine
    case OnComplete(i) => i.draft !in issued
    case OnReplan(i) => i.next !in issued
    case OnContinue(i) => i.version !in issued && i.cycle !in issued
    case _ => true
  }

  /** A transaction that commits a change moves the committed clock; any other leaves everything as it was. */
  ghost function Apply(cfg: Config, w: World, e: Event): World {
    var x := Perform(cfg, w, e).world;
    if x == w then w else Tick(x, ClockOf(e))
  }

  lemma ApplyRows(cfg: Config, w: World, e: Event)
    ensures var x := Perform(cfg, w, e).world;
            Apply(cfg, w, e).db == x.db && Apply(cfg, w, e).history.log == x.history.log
  {
  }

  ghost predicate Run(cfg: Config, w: World, events: seq<Event>, x: World)
    decreases |events|
  {
    if events == [] then x == w
    else Enabled(w, events[0]) && Run(cfg, Apply(cfg, w, events[0]), events[1..], x)
  }

  const EMPTY: World := World(Db({}, map[], map[], map[], map[], map[], map[], map[], map[]), History(map[], {}, 0))

  ghost predicate Reachable(cfg: Config, x: World) {
    exists events :: Run(cfg, EMPTY, events, x)
  }

  ghost predicate Inv(cfg: Config, w: World) {
    Sound(cfg, w) && QuotaOk(cfg, w) && ReceiptsInv(w)
  }

  // Kinds of transactions.

  predicate DraftWrite(e: Event) {
    e.OnCreateUser? || e.OnCreateDraft? || e.OnSaveDraft? || e.OnSaveReview? || e.OnAbandon?
  }

  /** Edits of the running Cycle. */
  predicate CycleEdit(e: Event) { e.OnSaveFrame? || e.OnChangeSchedule? }

  /** Transitions that open or close a Cycle. */
  predicate CycleTurn(e: Event) { e.OnStart? || e.OnComplete? || e.OnReplan? }

  predicate ReviewEnd(e: Event) { e.OnContinue? || e.OnTerminate? }

  predicate Deletion(e: Event) { e.OnDeleteGoal? || e.OnDeleteAccount? }

  predicate RunsOperation(e: Event) {
    e.OnBeginAction? || e.OnFinishAction? || e.OnBeginRefine? || e.OnFinishRefine?
  }

  // The halves of an operation, by what they leave.

  function BeginUser(e: Event): Id
    requires e.OnBeginAction? || e.OnBeginRefine?
  {
    if e.OnBeginAction? then e.action.user else e.refine.user
  }

  function BeginId(e: Event): Id
    requires e.OnBeginAction? || e.OnBeginRefine?
  {
    if e.OnBeginAction? then e.action.id else e.refine.id
  }

  lemma BeginBegan(cfg: Config, w: World, e: Event)
    requires e.OnBeginAction? || e.OnBeginRefine?
    ensures Began(cfg, w, Perform(cfg, w, e).world, BeginUser(e), BeginId(e), ClockOf(e).value)
  {
    if e.OnBeginAction? {
      BeginActionBegan(cfg, w, e.action);
    } else {
      BeginRefineBegan(cfg, w, e.refine);
    }
  }

  lemma ReportReported(cfg: Config, w: World, e: Event)
    requires e.OnFinishAction? || e.OnFinishRefine?
    ensures Reported(w, e.report, Perform(cfg, w, e).world)
  {
    if e.OnFinishAction? {
      FinishActionReported(w, e.report);
    } else {
      FinishRefineReported(w, e.report);
    }
  }

  // One step keeps the invariant.

  lemma TickKeepsSound(cfg: Config, w: World, now: Option<int>)
    requires Sound(cfg, w)
    ensures Sound(cfg, Tick(w, now))
  {
  }

  lemma SaveDraftKeepsSound(cfg: Config, w: World, user: Id, id: Id, body: string, patch: Patch, expected: int)
    requires Sound(cfg, w)
    ensures Sound(cfg, SaveDraft(w, user, id, body, patch, expected).world)
  {
    if id in w.db.drafts {
      SaveDraftRowKeepsSound(cfg, w, id, body, patch, expected, DraftRevisionConflict);
    }
  }

  lemma SaveReviewKeepsSound(cfg: Config, w: World, user: Id, goal: Id, id: Id, body: string, patch: Patch,
                             expected: int)
    requires Sound(cfg, w)
    ensures Sound(cfg, SaveReview(w, user, goal, id, body, patch, expected).world)
  {
    if id in w.db.drafts {
      SaveDraftRowKeepsSound(cfg, w, id, body, patch, expected, ReviewRevisionConflict);
    }
  }

  lemma TerminateKeepsSound(cfg: Config, w: World, i: TerminateInput)
    requires Sound(cfg, w)
    ensures Sound(cfg, Terminate(w, i).world)
  {
    if i.state == ActiveCycle {
      TerminateActiveKeepsSound(cfg, w, i);
    } else if i.state == GoalReview {
      TerminateReviewKeepsSound(cfg, w, i);
    }
  }

  lemma DraftWriteKeepsSound(cfg: Config, w: World, e: Event)
    requires Sound(cfg, w) && Enabled(w, e) && DraftWrite(e)
    ensures Sound(cfg, Perform(cfg, w, e).world)
  {
    match e
    case OnCreateUser(user) => CreateUserKeepsSound(cfg, w, user);
    case OnCreateDraft(user, body, id) => CreateDraftKeepsSound(cfg, w, user, body, id);
    case OnSaveDraft(user, id, body, patch, expected) => SaveDraftKeepsSound(cfg, w, user, id, body, patch, expected);
    case OnSaveReview(user, goal, id, body, patch, expected) =>
      SaveReviewKeepsSound(cfg, w, user, goal, id, body, patch, expected);
    case OnAbandon(user, id, now) => AbandonKeepsSound(cfg, w, user, id, now);
  }

  lemma CycleEditKeepsSound(cfg: Config, w: World, e: Event)
    requires Sound(cfg, w) && CycleEdit(e)
    ensures Sound(cfg, Perform(cfg, w, e).world)
  {
    match e
    case OnSaveFrame(user, goal, cycle, frame, text, expected) =>
      SaveFrameKeepsSound(cfg, w, user, goal, cycle, frame, text, expected);
    case OnChangeSchedule(user, goal, cycle, date, expected) =>
      ChangeScheduleKeepsSound(cfg, w, user, goal, cycle, date, expected);
  }

  lemma CycleTurnKeepsSound(cfg: Config, w: World, e: Event)
    requires Sound(cfg, w) && Enabled(w, e) && CycleTurn(e)
    ensures Sound(cfg, Perform(cfg, w, e).world)
  {
    match e
    case OnStart(i) => StartKeepsSound(cfg, w, i);
    case OnComplete(i) => CompleteKeepsSound(cfg, w, i);
    case OnReplan(i) => ReplanKeepsSound(cfg, w, i);
  }

  lemma ReviewEndKeepsSound(cfg: Config, w: World, e: Event)
    requires Sound(cfg, w) && Enabled(w, e) && ReviewEnd(e)
    ensures Sound(cfg, Perform(cfg, w, e).world)
  {
    if e.OnContinue? {
      ContinueKeepsSound(cfg, w, e.next);
    } else {
      TerminateKeepsSound(cfg, w, e.terminate);
    }
  }

  lemma OperationKeepsSound(cfg: Config, w: World, e: Event)
    requires Sound(cfg, w) && Enabled(w, e) && RunsOperation(e)
    ensures Sound(cfg, Perform(cfg, w, e).world)
  {
    match e
    case OnBeginAction(i) => BeginActionKeepsSound(cfg, w, i);
    case OnFinishAction(f) => FinishActionKeepsSound(cfg, w, f);
    case OnBeginRefine(i) => BeginRefineKeepsSound(cfg, w, i);
    case OnFinishRefine(f) => FinishRefineKeepsSound(cfg, w, f);
  }

  lemma PerformKeepsSound(cfg: Config, w: World, e: Event)
    requires Sound(cfg, w) && Enabled(w, e)
    ensures Sound(cfg, Perform(cfg, w, e).world)
  {
    if DraftWrite(e) {
      DraftWriteKeepsSound(cfg, w, e);
    } else if CycleEdit(e) {
      CycleEditKeepsSound(cfg, w, e);
    } else if CycleTurn(e) {
      CycleTurnKeepsSound(cfg, w, e);
    } else if ReviewEnd(e) {
      ReviewEndKeepsSound(cfg, w, e);
    } else if e.OnDeleteGoal? {
      DeleteGoalKeepsSound(cfg, w, e.delete);
    } else if e.OnDeleteAccount? {
      DeleteAccountKeepsSound(cfg, w, e.user);
    } else if RunsOperation(e) {
      OperationKeepsSound(cfg, w, e);
    } else if e.OnAdopt? {
      AdoptKeepsSound(cfg, w, e.adopt);
    } else {
      CleanupKeepsSound(cfg, w, e.ids, e.now);
    }
  }

  // What a step never takes back.

  lemma CreateUserPersists(w: World, user: Id)
    requires ReceiptsInv(w) && user !in w.history.issued
    ensures Persists(w, CreateUser(w, user).world)
  {
    forall k | k in w.db.receipts ensures k.0 in w.db.users {
      assert ReceiptFits(k, w.db.receipts[k], w.db, w.history.issued);
    }
  }

  lemma WritesPersist(w: World, user: Id, goal: Id, id: Id, body: string, patch: Patch, expected: int, now: int)
    requires ReceiptsInv(w)
    ensures Persists(w, CreateDraft(w, user, body, id).world)
    ensures Persists(w, SaveDraft(w, user, id, body, patch, expected).world)
    ensures Persists(w, SaveReview(w, user, goal, id, body, patch, expected).world)
    ensures Persists(w, AbandonDraft(w, user, id, now).world)
  {
    DraftWritesFrame(w, user, id, body, patch, expected);
    AbandonFrame(w, user, id, now);
    ReviewWritesFrame(w, user, goal, id, body, patch, expected);
    FramePersists(w, CreateDraft(w, user, body, id).world);
    FramePersists(w, SaveDraft(w, user, id, body, patch, expected).world);
    FramePersists(w, SaveReview(w, user, goal, id, body, patch, expected).world);
    FramePersists(w, AbandonDraft(w, user, id, now).world);
  }

  lemma BeginPersists(cfg: Config, w: World, e: Event)
    requires ReceiptsInv(w) && (e.OnBeginAction? || e.OnBeginRefine?)
    ensures Persists(w, Perform(cfg, w, e).world)
  {
    BeginBegan(cfg, w, e);
    BeganFrame(cfg, w, Perform(cfg, w, e).world, BeginUser(e), BeginId(e), ClockOf(e).value);
    FramePersists(w, Perform(cfg, w, e).world);
  }

  lemma RowWritePersists(cfg: Config, w: World, e: Event)
    requires ReceiptsInv(w) && (e.OnAdopt? || e.OnCleanup?)
    ensures Persists(w, Perform(cfg, w, e).world)
  {
    if e.OnAdopt? {
      AdoptFrame(w, e.adopt);
    }
    FramePersists(w, Perform(cfg, w, e).world);
  }

  lemma ReportPersists(cfg: Config, w: World, e: Event)
    requires Sound(cfg, w) && ReceiptsInv(w) && Enabled(w, e) && (e.OnFinishRefine? || e.OnFinishAction?)
    ensures Persists(w, Perform(cfg, w, e).world)
  {
    if e.OnFinishAction? {
      FinishActionPersists(cfg, w, e.report);
    } else {
      FinishRefineFrame(cfg, w, e.report);
      FramePersists(w, Perform(cfg, w, e).world);
    }
  }

  lemma DraftWritePersists(cfg: Config, w: World, e: Event)
    requires ReceiptsInv(w) && Enabled(w, e) && DraftWrite(e)
    ensures Persists(w, Perform(cfg, w, e).world)
  {
    match e
    case OnCreateUser(user) => CreateUserPersists(w, user);
    case OnCreateDraft(user, body, id) => WritesPersist(w, user, 0, id, body, Keep, 0, 0);
    case OnSaveDraft(user, id, body, patch, expected) => WritesPersist(w, user, 0, id, body, patch, expected, 0);
    case OnSaveReview(user, goal, id, body, patch, expected) =>
      WritesPersist(w, user, goal, id, body, patch, expected, 0);
    case OnAbandon(user, id, now) => WritesPersist(w, user, 0, id, "", Keep, 0, now);
  }

  lemma CycleEditPersists(cfg: Config, w: World, e: Event)
    requires ReceiptsInv(w) && CycleEdit(e)
    ensures Persists(w, Perform(cfg, w, e).world)
  {
    match e
    case OnSaveFrame(user, goal, cycle, frame, text, expected) =>
      SaveFramePersists(w, user, goal, cycle, frame, text, expected);
    case OnChangeSchedule(user, goal, cycle, date, expected) =>
      ChangeSchedulePersists(w, user, goal, cycle, date, expected);
  }

  lemma CycleTurnPersists(cfg: Config, w: World, e: Event)
    requires IssuedInv(w.db, w.history) && ReceiptsInv(w) && Enabled(w, e) && CycleTurn(e)
    ensures Persists(w, Perform(cfg, w, e).world)
  {
    match e
    case OnStart(i) => StartPersists(cfg, w, i);
    case OnComplete(i) => CompletePersists(w, i);
    case OnReplan(i) => ReplanPersists(w, i);
  }

  lemma ReviewEndPersists(cfg: Config, w: World, e: Event)
    requires IssuedInv(w.db, w.history) && ReceiptsInv(w) && Enabled(w, e) && ReviewEnd(e)
    ensures Persists(w, Perform(cfg, w, e).world)
  {
    if e.OnContinue? {
      ContinuePersists(w, e.next);
    } else {
      TerminatePersists(w, e.terminate);
    }
  }

  lemma DeletionPersists(cfg: Config, w: World, e: Event)
    requires IssuedInv(w.db, w.history) && LifecycleInv(w.db) && ReceiptsInv(w) && Deletion(e)
    ensures Persists(w, Perform(cfg, w, e).world)
  {
    if e.OnDeleteGoal? {
      DeleteGoalPersists(w, e.delete);
    } else {
      LifecycleFollowsGoals(w.db);
      DeleteAccountPersists(w, e.user);
    }
  }

  lemma PerformPersists(cfg: Config, w: World, e: Event)
    requires Sound(cfg, w) && ReceiptsInv(w) && Enabled(w, e)
    ensures Persists(w, Perform(cfg, w, e).world)
  {
    if DraftWrite(e) {
      DraftWritePersists(cfg, w, e);
    } else if CycleEdit(e) {
      CycleEditPersists(cfg, w, e);
    } else if CycleTurn(e) {
      CycleTurnPersists(cfg, w, e);
    } else if ReviewEnd(e) {
      ReviewEndPersists(cfg, w, e);
    } else if Deletion(e) {
      DeletionPersists(cfg, w, e);
    } else if e.OnBeginAction? || e.OnBeginRefine? {
      BeginPersists(cfg, w, e);
    } else if e.OnFinishAction? || e.OnFinishRefine? {
      ReportPersists(cfg, w, e);
    } else {
      RowWritePersists(cfg, w, e);
    }
  }

  lemma StepPersists(cfg: Config, w: World, e: Event)
    requires Inv(cfg, w) && Enabled(w, e)
    ensures Persists(w, Apply(cfg, w, e)) && ReceiptsInv(Apply(cfg, w, e))
  {
    var x := Perform(cfg, w, e).world;
    PerformPersists(cfg, w, e);
    PersistsKeepsReceipts(w, x);
    TickPersists(w, x, ClockOf(e));
  }

  lemma TickPersists(w: World, x: World, now: Option<int>)
    requires Persists(w, x) && ReceiptsInv(x)
    ensures Persists(w, Tick(x, now)) && ReceiptsInv(Tick(x, now))
  {
    forall k | k in x.db.receipts ensures ReceiptFits(k, x.db.receipts[k], x.db, x.history.issued) {
    }
  }

  /** Every step keeps everything. */
  lemma StepKeepsInv(cfg: Config, w: World, e: Event)
    requires Inv(cfg, w) && Enabled(w, e)
    ensures Inv(cfg, Apply(cfg, w, e))
  {
    PerformKeepsSound(cfg, w, e);
    TickKeepsSound(cfg, Perform(cfg, w, e).world, ClockOf(e));
    StepKeepsQuota(cfg, w, e);
    StepPersists(cfg, w, e);
  }

  predicate OnlyWrites(e: Event) {
    e.OnCreateDraft? || e.OnSaveDraft? || e.OnSaveReview? || e.OnStart? || e.OnAdopt? || e.OnSaveFrame? ||
    e.OnChangeSchedule? || e.OnComplete? || e.OnReplan? || e.OnContinue?
  }

  lemma CycleEditKeepsUsages(cfg: Config, w: World, e: Event)
    requires CycleEdit(e)
    ensures SameUsages(w, Perform(cfg, w, e).world)
  {
    match e
    case OnSaveFrame(user, goal, cycle, frame, text, expected) =>
      SaveFrameKeepsUsages(w, user, goal, cycle, frame, text, expected);
    case OnChangeSchedule(user, goal, cycle, date, expected) =>
      ChangeScheduleKeepsUsages(w, user, goal, cycle, date, expected);
  }

  lemma CycleTurnKeepsUsages(cfg: Config, w: World, e: Event)
    requires CycleTurn(e)
    ensures SameUsages(w, Perform(cfg, w, e).world)
  {
    match e
    case OnStart(i) => StartKeepsUsages(cfg, w, i);
    case OnComplete(i) => CompleteKeepsUsages(w, i);
    case OnReplan(i) => ReplanKeepsUsages(w, i);
  }

  lemma TextKeepsUsages(cfg: Config, w: World, e: Event)
    requires e.OnCreateDraft? || e.OnSaveDraft? || e.OnSaveReview? || e.OnAdopt? || e.OnContinue?
    ensures SameUsages(w, Perform(cfg, w, e).world)
  {
    match e
    case OnCreateDraft(user, body, id) => DraftWritesKeepUsages(w, user, id, body, Keep, 0);
    case OnSaveDraft(user, id, body, patch, expected) => DraftWritesKeepUsages(w, user, id, body, patch, expected);
    case OnSaveReview(user, goal, id, body, patch, expected) =>
      SaveReviewKeepsUsages(w, user, goal, id, body, patch, expected);
    case OnAdopt(i) => AdoptKeepsUsages(w, i);
    case OnContinue(i) => ContinueKeepsUsages(w, i);
  }

  lemma EditKeepsUsages(cfg: Config, w: World, e: Event)
    requires OnlyWrites(e)
    ensures SameUsages(w, Perform(cfg, w, e).world)
  {
    if CycleEdit(e) {
      CycleEditKeepsUsages(cfg, w, e);
    } else if CycleTurn(e) {
      CycleTurnKeepsUsages(cfg, w, e);
    } else {
      TextKeepsUsages(cfg, w, e);
    }
  }

  lemma ReportKeepsUsages(cfg: Config, w: World, e: Event)
    requires RowsFit(w.db, w.history.log) && (e.OnFinishAction? || e.OnFinishRefine?) && Plausible(w, e.report)
    ensures KeepsUsages(w, Perform(cfg, w, e).world, None)
  {
    ReportReported(cfg, w, e);
    ReportedKeepsUsages(w, e.report, Perform(cfg, w, e).world);
  }

  lemma DraftGoesKeepsUsages(cfg: Config, w: World, e: Event)
    requires Deadlines(w) && (e.OnAbandon? || e.OnTerminate?)
    ensures KeepsUsages(w, Perform(cfg, w, e).world, ClockOf(e))
  {
    if e.OnAbandon? {
      AbandonKeepsUsages(w, e.user, e.id, e.now);
    } else {
      TerminateKeepsUsages(w, e.terminate);
    }
  }

  lemma AccountKeepsUsages(cfg: Config, w: World, e: Event)
    requires Deadlines(w) && RowsFit(w.db, w.history.log) && IssuedInv(w.db, w.history) && Enabled(w, e)
    requires e.OnCreateUser? || e.OnDeleteGoal? || e.OnDeleteAccount?
    ensures KeepsUsages(w, Perform(cfg, w, e).world, ClockOf(e))
  {
    match e
    case OnCreateUser(user) => CreateUserKeepsUsages(w, user);
    case OnDeleteGoal(i) =>
      RunningHold(w.db, w.history.log, RunningOfGoal(w.db.generations, i.user, i.goal));
      DeleteGoalKeepsUsages(w, i);
    case OnDeleteAccount(user) => DeleteAccountKeepsUsages(w, user);
  }

  lemma EventKeepsUsages(cfg: Config, w: World, e: Event)
    requires RowsFit(w.db, w.history.log) && IssuedInv(w.db, w.history) && Enabled(w, e) && !e.OnBeginAction?
             && !e.OnBeginRefine?
    ensures KeepsUsages(w, Perform(cfg, w, e).world, ClockOf(e))
  {
    RetentionDeadlines(w);
    if OnlyWrites(e) {
      EditKeepsUsages(cfg, w, e);
    } else if e.OnFinishAction? || e.OnFinishRefine? {
      ReportKeepsUsages(cfg, w, e);
    } else if e.OnAbandon? || e.OnTerminate? {
      DraftGoesKeepsUsages(cfg, w, e);
    } else if e.OnCleanup? {
      CleanupKeepsUsages(w, e.ids, e.now);
    } else {
      AccountKeepsUsages(cfg, w, e);
    }
  }

  lemma BeginKeepsQuota(cfg: Config, w: World, e: Event)
    requires QuotaOk(cfg, w) && RowsFit(w.db, w.history.log) && Enabled(w, e) && (e.OnBeginAction? || e.OnBeginRefine?)
    requires BeginId(e) !in w.history.log
    ensures Perform(cfg, w, e).world == w || QuotaOk(cfg, Tick(Perform(cfg, w, e).world, ClockOf(e)))
  {
    BeginBegan(cfg, w, e);
    BeganKeepsQuota(cfg, w, Perform(cfg, w, e).world, BeginUser(e), BeginId(e), ClockOf(e).value);
  }

  lemma StepKeepsQuota(cfg: Config, w: World, e: Event)
    requires Inv(cfg, w) && Enabled(w, e)
    ensures QuotaOk(cfg, Apply(cfg, w, e))
  {
    if e.OnBeginAction? || e.OnBeginRefine? {
      BeginKeepsQuota(cfg, w, e);
    } else {
      EventKeepsUsages(cfg, w, e);
      KeepsUsagesQuota(cfg, w, Perform(cfg, w, e).world, ClockOf(e));
    }
  }

  lemma EmptyInv(cfg: Config)
    ensures Inv(cfg, EMPTY)
  {
    forall month ensures MonthFits(EMPTY.db.months, EMPTY.db.generations, EMPTY.history.log, month) {
      SumEmpty(ReservedIn(month));
      SumEmpty(SettledIn(month));
      SumEmpty(WrittenIn(month));
    }
    forall month ensures MonthBounded(cfg.budget, EMPTY.db.months, EMPTY.history.log, month) {
      SumEmpty(LateIn(month));
    }
    forall user ensures WithinGoalLimit(cfg.goalLimit, EMPTY.db.goals, user) {
      SumEmpty(ProgressingOf(user));
    }
    forall user, to ensures WindowFits(cfg.quota, EMPTY.history.log, user, to) {
      assert AcceptedIn(EMPTY.history.log, user, to - ROLLING_WINDOW, to) == {};
    }
  }

  /** Every run keeps everything. */
  lemma {:induction false} RunKeepsInv(cfg: Config, w: World, events: seq<Event>, x: World)
    requires Inv(cfg, w) && Run(cfg, w, events, x)
    ensures Inv(cfg, x)
    decreases |events|
  {
    if events != [] {
      StepKeepsInv(cfg, w, events[0]);
      RunKeepsInv(cfg, Apply(cfg, w, events[0]), events[1..], x);
    }
  }

  lemma ReachableInv(cfg: Config, w: World)
    requires Reachable(cfg, w)
    ensures Inv(cfg, w)
  {
    var events :| Run(cfg, EMPTY, events, w);
    EmptyInv(cfg);
    RunKeepsInv(cfg, EMPTY, events, w);
  }

  lemma EnduresSelf(w: World)
    ensures Endures(w, w)
  {
  }

  lemma StepEndures(cfg: Config, w: World, e: Event)
    requires Inv(cfg, w) && Enabled(w, e)
    ensures Inv(cfg, Apply(cfg, w, e)) && Endures(w, Apply(cfg, w, e)) && Anchored(w)
  {
    StepKeepsInv(cfg, w, e);
    StepPersists(cfg, w, e);
  }

  /** What endures a step endures a run. */
  lemma {:induction false} RunEndures(cfg: Config, w: World, events: seq<Event>, x: World)
    requires Inv(cfg, w) && Run(cfg, w, events, x)
    ensures Endures(w, x)
    decreases |events|
  {
    if events != [] {
      var y := Apply(cfg, w, events[0]);
      StepEndures(cfg, w, events[0]);
      RunEndures(cfg, y, events[1..], x);
      EnduresTransitive(w, y, x);
    } else {
      EnduresSelf(w);
    }
  }

  lemma KnownOperations(w: World)
    requires RowsFit(w.db, w.history.log)
    ensures w.db.generations.Keys <= w.history.log.Keys
  {
    forall id | id in w.db.generations ensures id in w.history.log {
      assert GenerationFits(w.db.generations[id], w.history.log, id);
    }
  }

  lemma WritesSameGenerations(cfg: Config, w: World, e: Event)
    requires e.OnCreateUser? || e.OnCreateDraft? || e.OnSaveDraft? || e.OnSaveReview? || e.OnCleanup?
    ensures SameGenerations(w, Perform(cfg, w, e).world)
  {
    match e
    case OnCreateUser(user) => WritesKeepGenerations(w, user, 0, 0, "", Keep, 0);
    case OnCreateDraft(user, body, id) => WritesKeepGenerations(w, user, 0, id, body, Keep, 0);
    case OnSaveDraft(user, id, body, patch, expected) => WritesKeepGenerations(w, user, 0, id, body, patch, expected);
    case OnSaveReview(user, goal, id, body, patch, expected) =>
      WritesKeepGenerations(w, user, goal, id, body, patch, expected);
    case OnCleanup(_, _) =>
  }

  lemma CycleEditKeepsGenerations(cfg: Config, w: World, e: Event)
    requires CycleEdit(e)
    ensures SameGenerations(w, Perform(cfg, w, e).world)
  {
    match e
    case OnSaveFrame(user, goal, cycle, frame, text, expected) =>
      SaveFrameKeepsGenerations(w, user, goal, cycle, frame, text, expected);
    case OnChangeSchedule(user, goal, cycle, date, expected) =>
      ChangeScheduleKeepsGenerations(w, user, goal, cycle, date, expected);
  }

  lemma CycleTurnKeepsGenerations(cfg: Config, w: World, e: Event)
    requires CycleTurn(e)
    ensures GenerationsKept(w, Perform(cfg, w, e).world)
  {
    match e
    case OnStart(i) => StartKeepsGenerations(cfg, w, i);
    case OnComplete(i) => CompleteKeepsGenerations(w, i);
    case OnReplan(i) => ReplanKeepsGenerations(w, i);
  }

  lemma ReviewEndKeepsGenerations(cfg: Config, w: World, e: Event)
    requires ReviewEnd(e)
    ensures GenerationsKept(w, Perform(cfg, w, e).world)
  {
    if e.OnContinue? {
      ContinueKeepsGenerations(w, e.next);
    } else {
      TerminateKeepsGenerations(w, e.terminate);
    }
  }

  lemma DeletionKeepsGenerations(cfg: Config, w: World, e: Event)
    requires Deletion(e)
    ensures GenerationsKept(w, Perform(cfg, w, e).world)
  {
    if e.OnDeleteGoal? {
      DeleteGoalKeepsGenerations(w, e.delete);
    } else {
      DeleteAccountKeepsGenerations(w, e.user);
    }
  }

  lemma OperationKeepsGenerations(cfg: Config, w: World, e: Event)
    requires w.db.generations.Keys <= w.history.log.Keys && RunsOperation(e)
    requires (e.OnBeginAction? || e.OnBeginRefine?) ==> BeginId(e) !in w.history.log
    ensures GenerationsKept(w, Perform(cfg, w, e).world)
  {
    var x := Perform(cfg, w, e).world;
    if e.OnBeginAction? || e.OnBeginRefine? {
      BeginBegan(cfg, w, e);
      BeganKeepsGenerations(cfg, w, x, BeginUser(e), BeginId(e), ClockOf(e).value);
    } else {
      ReportReported(cfg, w, e);
      ReportedKeepsGenerations(w, e.report, x);
    }
  }

  lemma PerformKeepsGenerations(cfg: Config, w: World, e: Event)
    requires Sound(cfg, w) && Enabled(w, e)
    ensures GenerationsKept(w, Perform(cfg, w, e).world)
  {
    KnownOperations(w);
    if RunsOperation(e) {
      OperationKeepsGenerations(cfg, w, e);
    } else if CycleEdit(e) {
      CycleEditKeepsGenerations(cfg, w, e);
      SameKeeps(w, Perform(cfg, w, e).world);
    } else if CycleTurn(e) {
      CycleTurnKeepsGenerations(cfg, w, e);
    } else if ReviewEnd(e) {
      ReviewEndKeepsGenerations(cfg, w, e);
    } else if Deletion(e) {
      DeletionKeepsGenerations(cfg, w, e);
    } else if e.OnAbandon? {
      AbandonKeepsGenerations(w, e.user, e.id, e.now);
    } else if e.OnAdopt? {
      AdoptKeepsGenerations(w, e.adopt);
    } else {
      WritesSameGenerations(cfg, w, e);
      SameKeeps(w, Perform(cfg, w, e).world);
    }
  }

  lemma StepKeepsGenerations(cfg: Config, w: World, e: Event)
    requires Inv(cfg, w) && Enabled(w, e)
    ensures GenerationsKept(w, Apply(cfg, w, e)) && w.db.generations.Keys <= w.history.log.Keys
  {
    PerformKeepsGenerations(cfg, w, e);
    ApplyRows(cfg, w, e);
    KnownOperations(w);
  }

  /** A generation row keeps its command and its outcome over every run, and its identifier is not used again. */
  lemma {:induction false} RunKeepsGenerations(cfg: Config, w: World, events: seq<Event>, x: World)
    requires Inv(cfg, w) && Run(cfg, w, events, x)
    ensures GenerationsKept(w, x)
    decreases |events|
  {
    if events == [] {
      SameKeeps(w, x);
    } else {
      var y := Apply(cfg, w, events[0]);
      StepKeepsInv(cfg, w, events[0]);
      StepKeepsGenerations(cfg, w, events[0]);
      RunKeepsGenerations(cfg, y, events[1..], x);
      GenerationsKeptTransitive(w, y, x);
    }
  }

  // A run goes on.

  lemma {:induction false} RunThen(cfg: Config, w: World, events: seq<Event>, x: World, e: Event)
    requires Run(cfg, w, events, x) && Enabled(x, e)
    ensures Run(cfg, w, events + [e], Apply(cfg, x, e))
    decreases |events|
  {
    if events == [] {
      assert Run(cfg, Apply(cfg, w, e), [], Apply(cfg, w, e));
      assert [e][1..] == [];
    } else {
      RunThen(cfg, Apply(cfg, w, events[0]), events[1..], x, e);
      assert (events + [e])[1..] == events[1..] + [e];
    }
  }

  lemma ReachableThen(cfg: Config, w: World, e: Event)
    requires Reachable(cfg, w) && Enabled(w, e)
    ensures Reachable(cfg, Apply(cfg, w, e))
  {
    var events :| Run(cfg, EMPTY, events, w);
    RunThen(cfg, EMPTY, events, w, e);
  }
}
