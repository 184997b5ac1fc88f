/** Exactly when a Goal moves on, and what its rows then hold. */
module Transitions {
  import opened Base
  import opened Rows
  import opened MapSum
  import opened Keys
  import opened Schema
  import opened Ledger
  import opened LedgerInvariant
  import opened Text
  import opened Views
  import opened Lifecycle
  import opened Targets
  import opened UseCases
  import opened Soundness
  import opened MoneySteps
  import opened Edits
  import CycleDomain
  import GoalDomain

  // What several transitions have in common.

  /** No Cycle was started by this operation of the User. */
  predicate Unclaimed(cycles: map<Id, Cycle>, user: Id, operation: Id) {
    forall c :: c in cycles ==> !(cycles[c].user == user && cycles[c].start.operation == operation)
  }

  lemma UnclaimedIff(cycles: map<Id, Cycle>, user: Id, operation: Id)
    ensures Lookup(cycles, StartKey, (user, operation)).None? <==> Unclaimed(cycles, user, operation)
  {
    if !Unclaimed(cycles, user, operation) {
      var c :| c in cycles && cycles[c].user == user && cycles[c].start.operation == operation;
      assert StartKey(cycles[c]) == Some((user, operation));
    }
    if Lookup(cycles, StartKey, (user, operation)).Some? {
      assert cycles[Lookup(cycles, StartKey, (user, operation)).value].start.operation == operation;
    }
  }

  /** Nothing runs on the Draft. */
  predicate DraftIdle(generations: map<Id, Generation>, draft: Id) {
    forall id :: id in generations && generations[id].draft == Some(draft) ==> generations[id].status != Running
  }

  predicate CycleIdle(generations: map<Id, Generation>, cycle: Id) {
    forall id :: id in generations && generations[id].cycle == Some(cycle) ==> generations[id].status != Running
  }

  predicate GoalIdle(generations: map<Id, Generation>, goal: Id) {
    forall id :: id in generations && generations[id].goal == Some(goal) ==> generations[id].status != Running
  }

  /** A Cycle that was just opened: nothing written, nothing scheduled. */
  predicate Opened(c: Cycle, user: Id, goal: Id, version: Id, sequence: nat, start: Claim) {
    && c.user == user && c.goal == goal && c.version == version && c.sequence == sequence && c.start == start
    && c.status == Active && c.completedAt == None && c.canceledAt == None && c.reason == None && c.completion == None
    && c.plan == "" && c.doing == "" && c.check == "" && c.action == "" && c.revisions == Revisions(0, 0, 0, 0, 0)
    && c.reviewDate == None && c.scheduleRevision == 0 && c.lastAiRevision == None && !c.modifiedAfterAi
  }

  /** Only these tables may differ. */
  predicate KeepsOthers(db: Db, x: Db) {
    x.users == db.users && x.months == db.months && x.receipts == db.receipts
  }

  predicate KeepsOperations(db: Db, x: Db) {
    KeepsOthers(db, x) && x.generations == db.generations && x.usages == db.usages
  }

  // Drafts that are used up.

  predicate WorkedOn(generations: map<Id, Generation>, draft: Id, id: Id) {
    id in generations && generations[id].draft == Some(draft)
  }

  /** The operations of the Draft now belong to the Goal Version it became, and so do their usages. */
  predicate MovesOperations(db: Db, x: Db, draft: Id, goal: Id, version: Id) {
    && x.drafts == db.drafts - {draft} && x.generations.Keys == db.generations.Keys && x.usages.Keys == db.usages.Keys
    && (forall id :: id in db.generations ==>
          x.generations[id] == if WorkedOn(db.generations, draft, id)
            then db.generations[id].(draft := None, goal := Some(goal), version := Some(version))
            else db.generations[id])
    && (forall id :: id in db.usages ==>
          x.usages[id] == if WorkedOn(db.generations, draft, id) then db.usages[id].(goal := Some(goal))
            else db.usages[id])
  }

  /** A usage is needed while a window or a settlement may still ask for it. */
  predicate StillNeeded(u: Usage, now: int) { now < u.acceptedAt + 86400 + 900 || u.finalizedAt == None }

  /** The operations of the Draft go with it; what is still needed of their usages stays without content. */
  ghost predicate TakesOperations(db: Db, x: Db, draft: Id, now: int) {
    && x.drafts == db.drafts - {draft}
    && (forall id :: id in x.generations <==> id in db.generations && !WorkedOn(db.generations, draft, id))
    && (forall id :: id in x.generations ==> x.generations[id] == db.generations[id])
    && (forall id :: id in x.usages <==>
          id in db.usages && (WorkedOn(db.generations, draft, id) ==> StillNeeded(db.usages[id], now)))
    && (forall id :: id in x.usages ==>
          x.usages[id] == if WorkedOn(db.generations, draft, id)
            then db.usages[id].(goal := None, contentDeleted := true)
            else db.usages[id])
  }

  lemma DraftOperations(db: Db, log: map<Id, Entry>, user: Id, draft: Id)
    requires TargetsInv(db, log) && OwnsDraft(db, user, draft)
    ensures forall id :: id in GenerationsOfDraft(db.generations, user, draft) <==> WorkedOn(db.generations, draft, id)
    ensures RunsOnDraft(db.generations, draft) <==> !DraftIdle(db.generations, draft)
  {
    forall id | WorkedOn(db.generations, draft, id) ensures db.generations[id].user == user {
      assert Aims(id, db.generations[id], db, log);
    }
  }

  lemma MovedOperations(db: Db, x: Db, user: Id, draft: Id, goal: Id, version: Id)
    requires forall id :: id in GenerationsOfDraft(db.generations, user, draft) <==> WorkedOn(db.generations, draft, id)
    requires x.drafts == Without(db.drafts, {draft})
    requires x.generations == Attach(db.generations, GenerationsOfDraft(db.generations, user, draft), goal, version)
    requires x.usages == AttachUsages(db.usages, GenerationsOfDraft(db.generations, user, draft), goal)
    ensures MovesOperations(db, x, draft, goal, version)
  {
  }

  lemma TakenOperations(db: Db, log: map<Id, Entry>, x: Db, user: Id, draft: Id, now: int)
    requires RowsFit(db, log)
    requires forall id :: id in GenerationsOfDraft(db.generations, user, draft) <==> WorkedOn(db.generations, draft, id)
    requires x.drafts == Without(db.drafts, {draft})
    requires x.generations == Without(db.generations, GenerationsOfDraft(db.generations, user, draft))
    requires x.usages == DropUsages(db.usages, GenerationsOfDraft(db.generations, user, draft), now)
    ensures TakesOperations(db, x, draft, now)
  {
    forall id | id in db.usages ensures Retained(db.usages[id], now) <==> StillNeeded(db.usages[id], now) {
      assert UsageFits(db.usages[id], log, id);
    }
  }

  // Abandoning.

  lemma AbandonShape(w: World, user: Id, id: Id, now: int)
    ensures var s := AbandonDraft(w, user, id, now);
            && (s.answer == Done <==>
                  && user in w.db.users && OwnsDraft(w.db, user, id) && w.db.drafts[id].kind == Creation
                  && !RunsOnDraft(w.db.generations, id))
            && (s.answer != Done ==> s.world == w)
            && (s.answer == Done ==>
                  && s.world.history == w.history
                  && s.world.db == w.db.(drafts := s.world.db.drafts, generations := s.world.db.generations,
                                         usages := s.world.db.usages)
                  && s.world.db.drafts == Without(w.db.drafts, {id})
                  && var gone := GenerationsOfDraft(w.db.generations, user, id);
                  && s.world.db.generations == Without(w.db.generations, gone)
                  && s.world.db.usages == DropUsages(w.db.usages, gone, now))
  {
  }

  /**
   A Creation Draft is abandoned exactly by its User and while nothing runs on it, and only what belongs to it goes.
   */
  lemma AbandonIff(cfg: Config, w: World, user: Id, id: Id, now: int)
    requires Sound(cfg, w)
    ensures var s := AbandonDraft(w, user, id, now);
            && (s.answer == Done <==>
                  && OwnsDraft(w.db, user, id) && w.db.drafts[id].kind == Creation && DraftIdle(w.db.generations, id))
            && (if s.answer == Done
                then TakesOperations(w.db, s.world.db, id, now) && KeepsOthers(w.db, s.world.db) &&
                     s.world.db.goals == w.db.goals && s.world.db.versions == w.db.versions &&
                     s.world.db.cycles == w.db.cycles
                else s.world == w)
  {
    AbandonShape(w, user, id, now);
    if OwnsDraft(w.db, user, id) {
      DraftOperations(w.db, w.history.log, user, id);
      assert DraftRooted(w.db.drafts[id], w.db);
      if AbandonDraft(w, user, id, now).answer == Done {
        TakenOperations(w.db, w.history.log, AbandonDraft(w, user, id, now).world.db, user, id, now);
      }
    }
  }

  // Starting.

  lemma {:induction false} CountOver(ids: set<Id>, weight: Id -> int)
    requires forall id :: id in ids ==> weight(id) == 1
    ensures SumOver(ids, weight) == |ids|
    decreases |ids|
  {
    if id :| id in ids {
      SumOverTake(ids, weight, id);
      CountOver(ids - {id}, weight);
    }
  }

  /** The Goals a User has under way. */
  function UnderWay(goals: map<Id, Goal>, user: Id): set<Id> {
    set id | id in goals && goals[id].user == user &&
             (goals[id].status == ActiveCycle || goals[id].status == GoalReview)
  }

  lemma GoalsUnderWay(goals: map<Id, Goal>, user: Id)
    ensures Sum(goals, ProgressingOf(user)) == |UnderWay(goals, user)|
  {
    var ids, weight := UnderWay(goals, user), Parts(goals, ProgressingOf(user));
    SumOverGrow(ids, goals.Keys, weight);
    CountOver(ids, weight);
  }

  /** The Draft is the User's, unchanged, with a text, at rest, and there is room for another Goal. */
  predicate StartOpen(cfg: Config, db: Db, i: StartInput) {
    && Unclaimed(db.cycles, i.user, i.operation) && i.rateOk
    && OwnsDraft(db, i.user, i.draft) && db.drafts[i.draft].kind == Creation
    && db.drafts[i.draft].revision == i.expected && !Blank(db.drafts[i.draft].body)
    && DraftIdle(db.generations, i.draft) && |UnderWay(db.goals, i.user)| < cfg.goalLimit
  }

  /** The first Version holds the Draft's own texts, the first Cycle stands on it, and the Draft is used up. */
  predicate StartMakes(db: Db, i: StartInput, x: Db)
    requires i.draft in db.drafts
  {
    var d := db.drafts[i.draft];
    && x.goals == db.goals[i.goal := Goal(i.user, ActiveCycle, 1, 2, 0, None, None)]
    && x.versions == db.versions[i.version := Version(i.user, i.goal, 1, d.body, d.signal, i.operation)]
    && i.cycle in x.cycles && x.cycles == db.cycles[i.cycle := x.cycles[i.cycle]]
    && Opened(x.cycles[i.cycle], i.user, i.goal, i.version, 1, Claim(i.operation, StartRequest(i.draft, i.expected)))
    && MovesOperations(db, x, i.draft, i.goal, i.version) && KeepsOthers(db, x)
  }

  lemma StartedRows(d: Draft, goal: Id, version: Id, cycle: Id, claim: Claim)
    requires d.kind == Creation && BodyText(d.body) && SignalText(d.signal)
    ensures var s := GoalDomain.StartInitial(d, goal, version, claim);
            && (s.Ok? <==> !Blank(d.body))
            && (s.Ok? ==>
                  && s.value.goal == Goal(d.user, ActiveCycle, 1, 2, 0, None, None)
                  && s.value.version == Version(d.user, goal, 1, d.body, d.signal, claim.operation)
                  && Opened(s.value.cycle, d.user, goal, version, 1, claim))
  {
    NormalizeLineEndingsStable(d.body);
    NormalizeBodyFixpoint(d.body, false);
    NormalizeSignalFixpoint(d.signal);
  }

  lemma StartShape(cfg: Config, w: World, i: StartInput)
    ensures var s, claim := StartGoal(cfg, w, i), Claim(i.operation, StartRequest(i.draft, i.expected));
            && (s.answer == Created(i.goal) <==>
                  && i.user in w.db.users && Lookup(w.db.cycles, StartKey, (i.user, i.operation)).None?
                  && OwnsDraft(w.db, i.user, i.draft) && w.db.drafts[i.draft].kind == Creation
                  && w.db.drafts[i.draft].revision == i.expected
                  && GoalDomain.StartInitial(w.db.drafts[i.draft], i.goal, i.version, claim).Ok?
                  && !RunsOnDraft(w.db.generations, i.draft)
                  && Sum(w.db.goals, ProgressingOf(i.user)) < cfg.goalLimit && i.rateOk)
            && (s.answer != Created(i.goal) ==> s.world == w)
            && (s.answer == Created(i.goal) ==>
                  && var made := GoalDomain.StartInitial(w.db.drafts[i.draft], i.goal, i.version, claim).value;
                  && var ids, x := GenerationsOfDraft(w.db.generations, i.user, i.draft), s.world.db;
                  && x.goals == w.db.goals[i.goal := made.goal]
                  && x.versions == w.db.versions[i.version := made.version]
                  && x.cycles == w.db.cycles[i.cycle := made.cycle] && x.drafts == Without(w.db.drafts, {i.draft})
                  && x.generations == Attach(w.db.generations, ids, i.goal, i.version)
                  && x.usages == AttachUsages(w.db.usages, ids, i.goal) && KeepsOthers(w.db, x))
  {
  }

  /** A Goal is started exactly from such a Draft, and keeps both of its texts. */
  lemma StartIff(cfg: Config, w: World, i: StartInput)
    requires Sound(cfg, w)
    ensures var s := StartGoal(cfg, w, i);
            && (s.answer == Created(i.goal) <==> StartOpen(cfg, w.db, i))
            && (if s.answer == Created(i.goal) then i.draft in w.db.drafts && StartMakes(w.db, i, s.world.db)
                else s.world == w)
  {
    StartShape(cfg, w, i);
    UnclaimedIff(w.db.cycles, i.user, i.operation);
    GoalsUnderWay(w.db.goals, i.user);
    if OwnsDraft(w.db, i.user, i.draft) && w.db.drafts[i.draft].kind == Creation {
      StartFrom(cfg, w, i);
    }
  }

  lemma StartFrom(cfg: Config, w: World, i: StartInput)
    requires Sound(cfg, w) && OwnsDraft(w.db, i.user, i.draft) && w.db.drafts[i.draft].kind == Creation
    ensures i.user in w.db.users && (RunsOnDraft(w.db.generations, i.draft) <==> !DraftIdle(w.db.generations, i.draft))
    ensures var claim := Claim(i.operation, StartRequest(i.draft, i.expected));
            var made := GoalDomain.StartInitial(w.db.drafts[i.draft], i.goal, i.version, claim);
            made.Ok? <==> !Blank(w.db.drafts[i.draft].body)
    ensures StartGoal(cfg, w, i).answer == Created(i.goal) ==> StartMakes(w.db, i, StartGoal(cfg, w, i).world.db)
  {
    var claim := Claim(i.operation, StartRequest(i.draft, i.expected));
    DraftStored(cfg, w, i.draft);
    DraftOperations(w.db, w.history.log, i.user, i.draft);
    StartedRows(w.db.drafts[i.draft], i.goal, i.version, i.cycle, claim);
    StartShape(cfg, w, i);
    if StartGoal(cfg, w, i).answer == Created(i.goal) {
      MovedOperations(w.db, StartGoal(cfg, w, i).world.db, i.user, i.draft, i.goal, i.version);
    }
  }

  lemma DraftStored(cfg: Config, w: World, draft: Id)
    requires Sound(cfg, w) && draft in w.db.drafts
    ensures BodyText(w.db.drafts[draft].body) && SignalText(w.db.drafts[draft].signal)
    ensures w.db.drafts[draft].kind.Creation? ==> w.db.drafts[draft].user in w.db.users
  {
    assert DraftRooted(w.db.drafts[draft], w.db);
  }

  // Completing.

  predicate Uncompleted(cycles: map<Id, Cycle>, user: Id, operation: Id) {
    forall c :: c in cycles && cycles[c].user == user && cycles[c].completion.Some? ==>
      cycles[c].completion.value.operation != operation
  }

  lemma UncompletedIff(cycles: map<Id, Cycle>, user: Id, operation: Id)
    ensures Lookup(cycles, CompletionKey, (user, operation)).None? <==> Uncompleted(cycles, user, operation)
  {
    if !Uncompleted(cycles, user, operation) {
      var c :| c in cycles && cycles[c].user == user && cycles[c].completion.Some? &&
               cycles[c].completion.value.operation == operation;
      assert CompletionKey(cycles[c]) == Some((user, operation));
    }
    var found := Lookup(cycles, CompletionKey, (user, operation));
    if found.Some? {
      assert cycles[found.value].completion.value.operation == operation;
    }
  }

  /** The Cycle is the User's and runs, all four of its texts are written, and nothing works on it. */
  predicate CompleteOpen(db: Db, i: CompleteInput) {
    && Uncompleted(db.cycles, i.user, i.operation) && OwnsCycle(db, i.user, i.goal, i.cycle)
    && var c := db.cycles[i.cycle];
    && c.status == Active && i.goal in db.goals && db.goals[i.goal].revision == i.goalRevision
    && c.revisions.content == i.contentRevision
    && !Blank(c.plan) && !Blank(c.doing) && !Blank(c.check) && !Blank(c.action)
    && CycleIdle(db.generations, i.cycle)
  }

  /** The Cycle is closed as it was, the Goal is in review, and the Review Draft starts from the Cycle's Version. */
  predicate CompleteMakes(db: Db, i: CompleteInput, x: Db)
    requires i.cycle in db.cycles && i.goal in db.goals && db.cycles[i.cycle].version in db.versions
  {
    var c, g, v := db.cycles[i.cycle], db.goals[i.goal], db.versions[db.cycles[i.cycle].version];
    var claim := Claim(i.operation, CompleteRequest(i.goal, i.cycle, i.goalRevision, i.contentRevision));
    && x.cycles ==
         db.cycles[i.cycle := c.(status := Completed, completedAt := Some(i.now), completion := Some(claim))]
    && x.goals == db.goals[i.goal := g.(status := GoalReview, revision := g.revision + 1)]
    && x.drafts == db.drafts[i.draft := Draft(i.user, Review(i.goal, c.version, i.cycle), v.body, v.signal, 0)]
    && x.versions == db.versions && KeepsOperations(db, x)
  }

  lemma CompletedRow(c: Cycle, claim: Claim, expected: int, running: bool, now: int)
    ensures var s := CycleDomain.Complete(c, claim, expected, running, now);
            && (s.Ok? <==>
                  && c.status == Active && c.revisions.content == expected && !running
                  && !Blank(c.plan) && !Blank(c.doing) && !Blank(c.check) && !Blank(c.action))
            && (s.Ok? ==> s.value == c.(status := Completed, completedAt := Some(now), completion := Some(claim)))
  {
  }

  lemma ReviewedGoal(g: Goal)
    requires g.status == ActiveCycle
    ensures GoalDomain.EnterReview(g) == Ok(g.(status := GoalReview, revision := g.revision + 1))
  {
  }

  lemma CompleteShape(w: World, i: CompleteInput)
    requires OwnsCycle(w.db, i.user, i.goal, i.cycle) && OwnsGoal(w.db, i.user, i.goal) && i.user in w.db.users
    requires w.db.goals[i.goal].status == ActiveCycle && w.db.cycles[i.cycle].version in w.db.versions
    requires CurrentVersion(w.db, i.goal) == Some(w.db.cycles[i.cycle].version)
    ensures var s, x := CompleteCycle(w, i), CompleteCycle(w, i).world.db;
            var c, v := w.db.cycles[i.cycle], w.db.versions[w.db.cycles[i.cycle].version];
            var claim := Claim(i.operation, CompleteRequest(i.goal, i.cycle, i.goalRevision, i.contentRevision));
            var closed := CycleDomain.Complete(c, claim, i.contentRevision,
                              RunsOnCycle(w.db.generations, i.user, i.goal, i.cycle), i.now);
            && (s.answer == Created(i.draft) <==>
                  && Lookup(w.db.cycles, CompletionKey, (i.user, i.operation)).None?
                  && w.db.goals[i.goal].revision == i.goalRevision && closed.Ok?)
            && (s.answer != Created(i.draft) ==> s.world == w)
            && (s.answer == Created(i.draft) ==>
                  && x.cycles == w.db.cycles[i.cycle := closed.value]
                  && x.goals == w.db.goals[i.goal := GoalDomain.EnterReview(w.db.goals[i.goal]).value]
                  && x.drafts ==
                       w.db.drafts[i.draft := Draft(i.user, Review(i.goal, c.version, i.cycle), v.body, v.signal, 0)]
                  && x.versions == w.db.versions && KeepsOperations(w.db, x))
  {
  }

  lemma CompleteElse(w: World, i: CompleteInput)
    requires !OwnsCycle(w.db, i.user, i.goal, i.cycle) || w.db.cycles[i.cycle].status != Active
    ensures CompleteCycle(w, i).answer != Created(i.draft) && CompleteCycle(w, i).world == w
  {
  }

  /** A Cycle is completed exactly in such a state. */
  lemma CompleteIff(cfg: Config, w: World, i: CompleteInput)
    requires Sound(cfg, w)
    ensures var s := CompleteCycle(w, i);
            && (s.answer == Created(i.draft) <==> CompleteOpen(w.db, i))
            && (if s.answer == Created(i.draft)
                then i.cycle in w.db.cycles && i.goal in w.db.goals &&
                     w.db.cycles[i.cycle].version in w.db.versions && CompleteMakes(w.db, i, s.world.db)
                else s.world == w)
  {
    if OwnsCycle(w.db, i.user, i.goal, i.cycle) && w.db.cycles[i.cycle].status == Active {
      OwnerOfActive(w.db, i.user, i.goal, i.cycle);
      RunsOnCycleIff(w.db, w.history.log, i.user, i.goal, i.cycle);
      CompleteFrom(w, i);
    } else {
      CompleteElse(w, i);
    }
  }

  lemma CompleteFrom(w: World, i: CompleteInput)
    requires OwnsCycle(w.db, i.user, i.goal, i.cycle) && OwnsGoal(w.db, i.user, i.goal) && i.user in w.db.users
    requires w.db.goals[i.goal].status == ActiveCycle && w.db.cycles[i.cycle].version in w.db.versions
    requires CurrentVersion(w.db, i.goal) == Some(w.db.cycles[i.cycle].version)
    requires RunsOnCycle(w.db.generations, i.user, i.goal, i.cycle) <==> !CycleIdle(w.db.generations, i.cycle)
    ensures var s := CompleteCycle(w, i);
            && (s.answer == Created(i.draft) <==> CompleteOpen(w.db, i))
            && (if s.answer == Created(i.draft) then CompleteMakes(w.db, i, s.world.db) else s.world == w)
  {
    UncompletedIff(w.db.cycles, i.user, i.operation);
    CompletedRow(w.db.cycles[i.cycle],
                 Claim(i.operation, CompleteRequest(i.goal, i.cycle, i.goalRevision, i.contentRevision)),
                 i.contentRevision, RunsOnCycle(w.db.generations, i.user, i.goal, i.cycle), i.now);
    ReviewedGoal(w.db.goals[i.goal]);
    CompleteShape(w, i);
  }

  // Replanning.

  predicate ReplanOpen(db: Db, i: ReplanInput) {
    && i.confirmed && Unclaimed(db.cycles, i.user, i.operation) && OwnsCycle(db, i.user, i.goal, i.cycle)
    && var c := db.cycles[i.cycle];
    && c.status == Active && i.goal in db.goals && db.goals[i.goal].revision == i.goalRevision
    && c.revisions.content == i.contentRevision && c.scheduleRevision == i.scheduleRevision
    && CycleIdle(db.generations, i.cycle)
  }

  /** The Cycle is canceled as it was, and an empty one on the same Version follows it. */
  predicate ReplanMakes(db: Db, i: ReplanInput, x: Db)
    requires i.cycle in db.cycles && i.goal in db.goals
  {
    var c, g := db.cycles[i.cycle], db.goals[i.goal];
    && i.next in x.cycles
    && x.cycles == db.cycles[i.cycle := c.(status := Canceled, canceledAt := Some(i.now), reason := Some(Replanned))]
                            [i.next := x.cycles[i.next]]
    && Opened(x.cycles[i.next], i.user, i.goal, c.version, c.sequence + 1,
              Claim(i.operation, ReplanRequest(i.goal, i.cycle, i.goalRevision, i.contentRevision, i.scheduleRevision)))
    && x.goals == db.goals[i.goal := g.(nextSequence := g.nextSequence + 1, revision := g.revision + 1)]
    && x.versions == db.versions && x.drafts == db.drafts && KeepsOperations(db, x)
  }

  lemma ReplannedRows(goal: Id, g: Goal, versionId: Id, v: Version, c: Cycle, claim: Claim, now: int)
    requires g.status == ActiveCycle && g.user == v.user && goal == v.goal && g.currentVersion == v.number
    requires c.user == g.user && c.goal == goal && c.version == versionId && c.sequence == g.nextSequence - 1
    requires c.status == Active
    ensures var s := GoalDomain.Replan(goal, g, versionId, v, c, claim, now);
            && s.Ok? && s.value.goal == g.(nextSequence := g.nextSequence + 1, revision := g.revision + 1)
            && s.value.canceled == c.(status := Canceled, canceledAt := Some(now), reason := Some(Replanned))
            && Opened(s.value.next, c.user, goal, c.version, c.sequence + 1, claim)
  {
  }

  /** The rows a running Cycle stands on agree with it. */
  ghost predicate Stands(db: Db, user: Id, goal: Id, cycle: Id) {
    && OwnsCycle(db, user, goal, cycle) && OwnsGoal(db, user, goal) && user in db.users
    && var c, g := db.cycles[cycle], db.goals[goal];
    && c.status == Active && g.status == ActiveCycle && c.version in db.versions
    && CurrentVersion(db, goal) == Some(c.version) && c.sequence == g.nextSequence - 1 && g.nextSequence > 1
    && db.versions[c.version].user == user && db.versions[c.version].goal == goal
    && db.versions[c.version].number == g.currentVersion
  }

  lemma ActiveStands(db: Db, user: Id, goal: Id, cycle: Id)
    requires LifecycleInv(db) && OwnsCycle(db, user, goal, cycle) && db.cycles[cycle].status == Active
    ensures Stands(db, user, goal, cycle)
  {
    OwnerOfActive(db, user, goal, cycle);
    var c := db.cycles[cycle];
    assert GoalInv(db, goal);
    assert CycleFits(cycle, c, db.goals[goal], db.versions, db.cycles);
    assert VersionFits(db.versions[c.version], db.goals[goal]);
  }

  lemma ReplanShape(w: World, i: ReplanInput)
    requires Stands(w.db, i.user, i.goal, i.cycle)
    ensures var s, x, c := ReplanCycle(w, i), ReplanCycle(w, i).world.db, w.db.cycles[i.cycle];
            var claim := Claim(i.operation,
                               ReplanRequest(i.goal, i.cycle, i.goalRevision, i.contentRevision, i.scheduleRevision));
            var r :=
              GoalDomain.Replan(i.goal, w.db.goals[i.goal], c.version, w.db.versions[c.version], c, claim, i.now);
            && (s.answer == Created(i.next) <==>
                  && i.confirmed && Lookup(w.db.cycles, StartKey, (i.user, i.operation)).None?
                  && w.db.goals[i.goal].revision == i.goalRevision && c.revisions.content == i.contentRevision
                  && c.scheduleRevision == i.scheduleRevision
                  && !RunsOnCycle(w.db.generations, i.user, i.goal, i.cycle) && r.Ok?)
            && (s.answer != Created(i.next) ==> s.world == w)
            && (s.answer == Created(i.next) ==>
                  && x.cycles == w.db.cycles[i.cycle := r.value.canceled][i.next := r.value.next]
                  && x.goals == w.db.goals[i.goal := r.value.goal]
                  && x.versions == w.db.versions && x.drafts == w.db.drafts && KeepsOperations(w.db, x))
  {
  }

  lemma ReplanElse(w: World, i: ReplanInput)
    requires !OwnsCycle(w.db, i.user, i.goal, i.cycle) || w.db.cycles[i.cycle].status != Active
    ensures ReplanCycle(w, i).answer != Created(i.next) && ReplanCycle(w, i).world == w
  {
  }

  lemma ReplanFrom(w: World, i: ReplanInput)
    requires Stands(w.db, i.user, i.goal, i.cycle)
    requires RunsOnCycle(w.db.generations, i.user, i.goal, i.cycle) <==> !CycleIdle(w.db.generations, i.cycle)
    ensures var s := ReplanCycle(w, i);
            && (s.answer == Created(i.next) <==> ReplanOpen(w.db, i))
            && (if s.answer == Created(i.next) then ReplanMakes(w.db, i, s.world.db) else s.world == w)
  {
    var c := w.db.cycles[i.cycle];
    UnclaimedIff(w.db.cycles, i.user, i.operation);
    ReplannedRows(i.goal, w.db.goals[i.goal], c.version, w.db.versions[c.version], c,
                  Claim(i.operation,
                        ReplanRequest(i.goal, i.cycle, i.goalRevision, i.contentRevision, i.scheduleRevision)), i.now);
    ReplanShape(w, i);
  }

  /** A Cycle is replanned exactly in such a state. */
  lemma ReplanIff(cfg: Config, w: World, i: ReplanInput)
    requires Sound(cfg, w)
    ensures var s := ReplanCycle(w, i);
            && (s.answer == Created(i.next) <==> ReplanOpen(w.db, i))
            && (if s.answer == Created(i.next)
                then i.cycle in w.db.cycles && i.goal in w.db.goals && ReplanMakes(w.db, i, s.world.db)
                else s.world == w)
  {
    if OwnsCycle(w.db, i.user, i.goal, i.cycle) && w.db.cycles[i.cycle].status == Active {
      ActiveStands(w.db, i.user, i.goal, i.cycle);
      RunsOnCycleIff(w.db, w.history.log, i.user, i.goal, i.cycle);
      ReplanFrom(w, i);
    } else {
      ReplanElse(w, i);
    }
  }
}
