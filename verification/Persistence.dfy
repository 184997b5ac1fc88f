/** What a step never takes back while the Goal exists: the facts a repeated command relies on. */
module Persistence {
  import opened Base
  import opened Rows
  import opened Keys
  import opened Schema
  import opened Ledger
  import opened LedgerInvariant
  import opened Lifecycle
  import opened Targets
  import opened UseCases
  import opened Outcomes
  import opened Soundness
  import opened RowSteps
  import opened MoneySteps
  import opened DraftSteps
  import opened DeleteSteps
  import CycleDomain

  /** A Cycle keeps who started it and, once it is closed, everything else. */
  predicate CycleKept(c: Cycle, d: Cycle) {
    && d.user == c.user && d.goal == c.goal && d.version == c.version && d.sequence == c.sequence && d.start == c.start
    && (c.status != Active ==> d == c)
  }

  /** A receipt names a Goal that is gone for good, and the command that deleted it. */
  predicate ReceiptFits(k: (Id, Id), r: Receipt, db: Db, issued: set<Id>) {
    && k.0 in db.users && r.goal in issued && r.goal !in db.goals
    && r.request.DeleteRequest? && r.request.goal == r.goal
  }

  predicate ReceiptsInv(w: World) {
    forall k :: k in w.db.receipts ==> ReceiptFits(k, w.db.receipts[k], w.db, w.history.issued)
  }

  predicate GoalsPersist(w: World, x: World) {
    && w.history.issued <= x.history.issued
    && (forall id :: id in x.db.goals ==> id in w.db.goals || id !in w.history.issued)
    && (forall id :: id in w.db.goals && id in x.db.goals ==>
          && x.db.goals[id].user == w.db.goals[id].user
          && (!Progressing(w.db.goals[id].status) ==> x.db.goals[id] == w.db.goals[id]))
  }

  predicate CyclesPersist(w: World, x: World) {
    && (forall id :: id in w.db.cycles && w.db.cycles[id].goal in x.db.goals ==> id in x.db.cycles)
    && (forall id :: id in x.db.cycles ==>
          if id in w.db.cycles then CycleKept(w.db.cycles[id], x.db.cycles[id]) else id !in w.history.issued)
  }

  /** Receipts are kept as long as their User, and a User that is gone does not come back. */
  predicate ReceiptsPersist(w: World, x: World) {
    && (forall user :: user in x.db.users ==> user in w.db.users || user !in w.history.issued)
    && (forall k :: k in w.db.receipts && k.0 in x.db.users ==>
        k in x.db.receipts && x.db.receipts[k] == w.db.receipts[k])
  }

  /** A new receipt names a Goal that has just gone. */
  predicate ReceiptsAdded(w: World, x: World) {
    forall k :: k in x.db.receipts ==>
      && k.0 in x.db.users
      && ((k in w.db.receipts && x.db.receipts[k] == w.db.receipts[k]) ||
          ReceiptFits(k, x.db.receipts[k], x.db, w.history.issued))
  }

  /** Rows of a Goal stay while the Goal does; a Goal that is gone does not come back. */
  predicate Endures(w: World, x: World) {
    GoalsPersist(w, x) && CyclesPersist(w, x) && ReceiptsPersist(w, x)
  }

  predicate Persists(w: World, x: World) {
    Endures(w, x) && ReceiptsAdded(w, x)
  }

  /** Rows have been issued, receipts name what is gone, and a Cycle has its Goal. */
  ghost predicate Anchored(w: World) {
    && IssuedInv(w.db, w.history) && ReceiptsInv(w)
    && forall id :: id in w.db.cycles ==> w.db.cycles[id].goal in w.db.goals
  }

  lemma EnduresTransitive(a: World, b: World, c: World)
    requires Endures(a, b) && Endures(b, c) && Anchored(a)
    ensures Endures(a, c)
  {
    forall id | id in a.db.cycles && a.db.cycles[id].goal in c.db.goals ensures id in c.db.cycles {
      assert a.db.cycles[id].goal in b.db.goals;
    }
    forall id | id in c.db.cycles
      ensures if id in a.db.cycles then CycleKept(a.db.cycles[id], c.db.cycles[id]) else id !in a.history.issued
    {
      assert id in b.db.cycles || id !in b.history.issued;
    }
    forall k | k in a.db.receipts && k.0 in c.db.users
      ensures k in c.db.receipts && c.db.receipts[k] == a.db.receipts[k]
    {
      assert ReceiptFits(k, a.db.receipts[k], a.db, a.history.issued);
      assert k.0 in b.db.users;
    }
  }

  lemma PersistsKeepsReceipts(w: World, x: World)
    requires ReceiptsInv(w) && Persists(w, x)
    ensures ReceiptsInv(x)
  {
    forall k | k in x.db.receipts ensures ReceiptFits(k, x.db.receipts[k], x.db, x.history.issued) {
      assert k in w.db.receipts && x.db.receipts[k] == w.db.receipts[k] ==>
        ReceiptFits(k, w.db.receipts[k], w.db, w.history.issued);
    }
  }

  // Steps of one kind.

  /** Tables that most steps leave alone. */
  predicate SameRoots(w: World, x: World) {
    x.db.receipts == w.db.receipts && x.db.users == w.db.users && w.history.issued <= x.history.issued
  }

  predicate SameTop(w: World, x: World) {
    SameRoots(w, x) && x.db.goals == w.db.goals && x.db.cycles == w.db.cycles
  }

  lemma FramePersists(w: World, x: World)
    requires SameTop(w, x) && ReceiptsInv(w)
    ensures Persists(w, x)
  {
  }

  lemma DraftWritesFrame(w: World, user: Id, id: Id, body: string, patch: Patch, expected: int)
    ensures SameTop(w, CreateDraft(w, user, body, id).world)
    ensures SameTop(w, SaveDraft(w, user, id, body, patch, expected).world)
  {
  }

  lemma AbandonFrame(w: World, user: Id, id: Id, now: int)
    ensures SameTop(w, AbandonDraft(w, user, id, now).world)
  {
  }

  lemma ReviewWritesFrame(w: World, user: Id, goal: Id, id: Id, body: string, patch: Patch, expected: int)
    ensures SameTop(w, SaveReview(w, user, goal, id, body, patch, expected).world)
  {
  }

  lemma AdoptFrame(w: World, i: AdoptInput)
    ensures SameTop(w, AdoptSuggestion(w, i).world)
  {
    AdoptAdopts(w, i);
  }

  lemma BeganFrame(cfg: Config, w: World, x: World, user: Id, id: Id, now: int)
    requires Began(cfg, w, x, user, id, now)
    ensures SameTop(w, x)
  {
  }

  lemma LateFrame(w: World, f: FinishInput)
    ensures SameTop(w, Late(w, f).world)
  {
  }

  lemma SettlingFrame(w: World, f: FinishInput, changed: bool)
    requires f.id in w.db.generations && f.id in w.db.usages && f.id in w.history.log
    ensures SameTop(w, Settling(w, f, changed))
  {
  }

  lemma FinishRefineFrame(cfg: Config, w: World, f: FinishInput)
    requires Sound(cfg, w) && Plausible(w, f) && f.operation == GoalRefine
    ensures SameTop(w, FinishRefine(w, f).world)
  {
    if RunsRefine(w, f.id) {
      RunningRefineUntouched(cfg, w, f.id);
    }
    FinishRefineCases(w, f);
    LateFrame(w, f);
    if FinishRefine(w, f).world != w && RunsRefine(w, f.id) {
      FinishRefineEffect(w, f);
      var g := w.db.generations[f.id];
      SettlingFrame(w, f, w.db.drafts[g.draft.value].revision != g.targetRevision);
    }
  }

  /** One Cycle row is written. */
  lemma EditPersists(w: World, x: World, id: Id, d: Cycle)
    requires id in w.db.cycles && CycleKept(w.db.cycles[id], d) && ReceiptsInv(w)
    requires SameRoots(w, x) && x.db.goals == w.db.goals && x.db.cycles == w.db.cycles[id := d]
    ensures Persists(w, x)
  {
  }

  lemma FinishRunningPersists(w: World, f: FinishInput)
    requires ReceiptsInv(w) && ReportsAction(w, f)
    ensures Persists(w, FinishAction(w, f).world)
  {
    var x := FinishAction(w, f).world;
    FinishActionEffect(w, f);
    SettlingFrame(w, f, ContextChanged(w, f));
    if f.failure.None? {
      var id := w.db.generations[f.id].cycle.value;
      EditPersists(w, x, id, CycleDomain.ApplyAiAction(w.db.cycles[id], f.output).value);
    } else {
      FramePersists(w, x);
    }
  }

  lemma FinishActionPersists(cfg: Config, w: World, f: FinishInput)
    requires ReceiptsInv(w) && Sound(cfg, w) && Plausible(w, f)
    ensures Persists(w, FinishAction(w, f).world)
  {
    if RunsAction(w, f.id) {
      RunningActionUntouched(cfg, w, f.id);
    }
    FinishActionCases(w, f);
    LateFrame(w, f);
    FramePersists(w, w);
    FramePersists(w, Late(w, f).world);
    if FinishAction(w, f).world != w && RunsAction(w, f.id) {
      FinishRunningPersists(w, f);
    }
  }

  lemma PutCyclePersists(w: World, cycle: Id, changed: Result<Cycle, Error>)
    requires cycle in w.db.cycles && (changed.Ok? ==> CycleKept(w.db.cycles[cycle], changed.value)) && ReceiptsInv(w)
    ensures Persists(w, PutCycle(w, cycle, changed).world)
  {
    if changed.Ok? {
      EditPersists(w, PutCycle(w, cycle, changed).world, cycle, changed.value);
    } else {
      FramePersists(w, w);
    }
  }

  lemma SaveFramePersists(w: World, user: Id, goal: Id, cycle: Id, frame: Frame, text: string, expected: int)
    requires ReceiptsInv(w)
    ensures Persists(w, SaveFrame(w, user, goal, cycle, frame, text, expected).world)
  {
    FramePersists(w, w);
    if OwnsCycle(w.db, user, goal, cycle) {
      PutCyclePersists(w, cycle, CycleDomain.SaveFrame(w.db.cycles[cycle], frame, text, expected,
                                   frame == ActionFrame && RunsOnCycle(w.db.generations, user, goal, cycle)));
    }
  }

  lemma ChangeSchedulePersists(w: World, user: Id, goal: Id, cycle: Id, date: Option<int>, expected: int)
    requires ReceiptsInv(w)
    ensures Persists(w, ChangeSchedule(w, user, goal, cycle, date, expected).world)
  {
    FramePersists(w, w);
    if OwnsCycle(w.db, user, goal, cycle) {
      PutCyclePersists(w, cycle, CycleDomain.ChangeReviewSchedule(w.db.cycles[cycle], date, expected));
    }
  }

  /** A Goal in progress moves on: it, its last Cycle, and perhaps a new Cycle are written. */
  lemma MovePersists(w: World, x: World, goal: Id, g: Goal)
    requires goal in w.db.goals ==> g.user == w.db.goals[goal].user && Progressing(w.db.goals[goal].status)
    requires goal !in w.db.goals ==> goal !in w.history.issued
    requires SameRoots(w, x) && x.db.goals == w.db.goals[goal := g] && ReceiptsInv(w)
    requires forall id :: id in w.db.cycles ==> id in x.db.cycles && CycleKept(w.db.cycles[id], x.db.cycles[id])
    requires forall id :: id in x.db.cycles ==> id in w.db.cycles || id !in w.history.issued
    ensures Persists(w, x)
  {
  }

  lemma CompletePersists(w: World, i: CompleteInput)
    requires ReceiptsInv(w)
    requires i.draft !in w.db.drafts
    ensures Persists(w, CompleteCycle(w, i).world)
  {
    var x := CompleteCycle(w, i).world;
    if x != w {
      CompleteEffect(w, i);
      MovePersists(w, x, i.goal, x.db.goals[i.goal]);
    } else {
      FramePersists(w, x);
    }
  }

  lemma ReplanPersists(w: World, i: ReplanInput)
    requires ReceiptsInv(w)
    requires i.next !in w.db.cycles && i.next !in w.history.issued
    ensures Persists(w, ReplanCycle(w, i).world)
  {
    var x := ReplanCycle(w, i).world;
    if x != w {
      ReplanEffect(w, i);
      MovePersists(w, x, i.goal, x.db.goals[i.goal]);
    } else {
      FramePersists(w, x);
    }
  }

  lemma StartPersists(cfg: Config, w: World, i: StartInput)
    requires ReceiptsInv(w)
    requires i.goal !in w.db.goals && i.version !in w.db.versions && i.cycle !in w.db.cycles
    requires i.goal !in w.history.issued && i.cycle !in w.history.issued
    ensures Persists(w, StartGoal(cfg, w, i).world)
  {
    var x := StartGoal(cfg, w, i).world;
    if StartGoal(cfg, w, i).answer == Created(i.goal) {
      StartEffect(cfg, w, i);
      MovePersists(w, x, i.goal, x.db.goals[i.goal]);
    } else {
      StartElse(cfg, w, i);
    }
  }

  lemma ContinuePersists(w: World, i: ContinueInput)
    requires ReceiptsInv(w)
    requires i.version !in w.db.versions && i.cycle !in w.db.cycles && i.cycle !in w.history.issued
    ensures Persists(w, ContinueReview(w, i).world)
  {
    var x := ContinueReview(w, i).world;
    if ContinueReview(w, i).answer == Created(i.cycle) {
      ContinueMoves(w, i);
      MovePersists(w, x, i.goal, x.db.goals[i.goal]);
    } else {
      ContinueElse(w, i);
    }
  }

  lemma ContinueMoves(w: World, i: ContinueInput)
    requires ContinueReview(w, i).answer == Created(i.cycle)
    ensures SameRoots(w, ContinueReview(w, i).world)
    ensures var db' := ContinueReview(w, i).world.db;
            && i.goal in w.db.goals && w.db.goals[i.goal].status == GoalReview && i.goal in db'.goals
            && i.cycle in db'.cycles
            && db'.goals == w.db.goals[i.goal := db'.goals[i.goal]] && db'.goals[i.goal].user == w.db.goals[i.goal].user
            && db'.cycles == w.db.cycles[i.cycle := db'.cycles[i.cycle]] && db'.receipts == w.db.receipts
  {
  }

  lemma TerminatePersists(w: World, i: TerminateInput)
    requires ReceiptsInv(w)
    ensures Persists(w, Terminate(w, i).world)
  {
    var x := Terminate(w, i).world;
    if x != w {
      if i.state == ActiveCycle {
        TerminateActiveEffect(w, i);
      } else {
        TerminateReviewEffect(w, i);
      }
      MovePersists(w, x, i.goal, x.db.goals[i.goal]);
    } else {
      FramePersists(w, x);
    }
  }

  lemma DeleteGoalShape(w: World, i: DeleteInput)
    requires DeleteGoal(w, i).world != w
    ensures var db' := DeleteGoal(w, i).world.db;
            && DeleteGoal(w, i).world.history.issued == w.history.issued
            && db'.goals == Without(w.db.goals, {i.goal})
            && db'.cycles == Without(w.db.cycles, set id | id in w.db.cycles && w.db.cycles[id].goal == i.goal)
            && db'.receipts == w.db.receipts[(i.user, i.key) :=
                Receipt(i.goal, DeleteRequest(i.goal, i.expected), i.now + RECEIPT_LIFETIME)]
            && i.goal in w.db.goals && db'.users == w.db.users && i.user in w.db.users
            && ((i.user, i.key) in w.db.receipts ==>
                w.db.receipts[(i.user, i.key)].request == DeleteRequest(i.goal, i.expected))
  {
  }

  lemma DeleteGoalPersists(w: World, i: DeleteInput)
    requires ReceiptsInv(w) && IssuedInv(w.db, w.history)
    ensures Persists(w, DeleteGoal(w, i).world)
  {
    var x := DeleteGoal(w, i).world;
    if x != w {
      DeleteGoalShape(w, i);
      DeletedPersists(w, x, i.goal, (i.user, i.key), x.db.receipts[(i.user, i.key)]);
    } else {
      FramePersists(w, w);
    }
  }

  lemma DeletedPersists(w: World, x: World, goal: Id, k: (Id, Id), r: Receipt)
    requires ReceiptsInv(w) && IssuedInv(w.db, w.history) && goal in w.db.goals && x.history.issued == w.history.issued
    requires x.db.users == w.db.users && k.0 in w.db.users && x.db.goals == Without(w.db.goals, {goal})
    requires x.db.cycles == Without(w.db.cycles, set id | id in w.db.cycles && w.db.cycles[id].goal == goal)
    requires x.db.receipts == w.db.receipts[k := r] && r.goal == goal && r.request.DeleteRequest?
             && r.request.goal == goal
    requires k in w.db.receipts ==> w.db.receipts[k].request == r.request
    ensures Persists(w, x)
  {
    assert k in w.db.receipts ==> ReceiptFits(k, w.db.receipts[k], w.db, w.history.issued);
  }

  lemma DeleteAccountPersists(w: World, user: Id)
    requires ReceiptsInv(w)
    requires RowsFollowGoals(w.db)
    ensures Persists(w, DeleteAccount(w, user).world)
  {
  }
}
