/** A command that succeeded can be sent again: nothing changes, and the answer passes its validator. */
module Replays {
  import opened Base
  import opened Rows
  import opened Keys
  import opened Schema
  import opened Text
  import opened Views
  import opened Lifecycle
  import opened UseCases
  import opened Soundness
  import opened RowSteps
  import opened DraftSteps
  import opened Persistence
  import opened Runs
  import opened Reads

  // The validators accept what is recorded.

  lemma StartReplayAccepted(db: Db, user: Id, goal: Id, cycle: Id)
    requires LifecycleInv(db) && OwnsCycle(db, user, goal, cycle)
    ensures OwnsGoal(db, user, goal) && user in db.users && StartReplayOk(db, user, goal, cycle)
            && ContinueReplayOk(db, user, goal, cycle)
  {
    CycleReadAccepted(db, user, goal, cycle);
    GoalReadAccepted(db, user, goal);
  }

  /** How a replanned Cycle and its successor fit together, from their rows alone. */
  predicate Pair(c: Cycle, n: Cycle) {
    && c.goal == n.goal && c.status == Canceled && c.reason == Some(Replanned) && c.canceledAt.Some?
    && n.sequence == c.sequence + 1 && n.version == c.version
  }

  lemma ReplanPair(db: Db, next: Id)
    requires LifecycleInv(db) && next in db.cycles && db.cycles[next].start.request.ReplanRequest?
    ensures var canceled := db.cycles[next].start.request.cycle;
            && canceled in db.cycles && Predecessor(db, next) == Some(canceled)
            && Pair(db.cycles[canceled], db.cycles[next]) && db.cycles[canceled].user == db.cycles[next].user
  {
    var canceled := db.cycles[next].start.request.cycle;
    CycleRow(db, next);
    CycleRow(db, canceled);
    PredecessorRow(db, next);
    SameSequence(db, Predecessor(db, next).value, canceled);
    PairRows(db, canceled, next);
  }

  lemma PairRows(db: Db, canceled: Id, next: Id)
    requires canceled in db.cycles && next in db.cycles
    requires StartFits(db.cycles[next], db.cycles) && db.cycles[next].start.request.ReplanRequest?
    requires db.cycles[next].start.request.cycle == canceled
    requires ValidStatusTimes(db.cycles[canceled]) && Follows(db.cycles[canceled], db.cycles[next], db.versions)
    ensures Pair(db.cycles[canceled], db.cycles[next])
  {
  }

  /** What the replay validator compares, given the reads. */
  lemma ReplanReplayRows(db: Db, user: Id, goal: Id, canceled: Id, next: Id)
    requires GoalReadOk(db, user, goal) && CycleReadOk(db, user, goal, canceled) && CycleReadOk(db, user, goal, next)
    requires canceled in db.cycles && next in db.cycles && Pair(db.cycles[canceled], db.cycles[next])
    requires db.cycles[next].status == Active ==>
               Lookup(db.cycles, ActiveKey, goal) == Some(next) && db.goals[goal].status == ActiveCycle
    ensures ReplanReplayOk(db, user, goal, canceled, next)
  {
  }

  lemma ReplanReplayAccepted(db: Db, user: Id, goal: Id, canceled: Id, next: Id)
    requires LifecycleInv(db) && OwnsCycle(db, user, goal, next)
    requires db.cycles[next].start.request.ReplanRequest? && db.cycles[next].start.request.cycle == canceled
    ensures ReplanReplayOk(db, user, goal, canceled, next)
  {
    ReplanPair(db, next);
    CycleReadAccepted(db, user, goal, canceled);
    CycleReadAccepted(db, user, goal, next);
    GoalReadAccepted(db, user, goal);
    if db.cycles[next].status == Active {
      OnlyActive(db, next);
    }
    ReplanReplayRows(db, user, goal, canceled, next);
  }

  /** The success signal of the Review Draft that a completion opened is still the Version's. */
  ghost predicate SignalKept(db: Db, user: Id, goal: Id, cycle: Id) {
    var draft := DraftOfCycle(db, user, goal, cycle);
    draft.Some? && cycle in db.cycles && db.cycles[cycle].version in db.versions ==>
      db.drafts[draft.value].signal == db.versions[db.cycles[cycle].version].signal
  }

  lemma CompleteReplayRows(db: Db, user: Id, goal: Id, cycle: Id)
    requires OwnsGoal(db, user, goal) && OwnsCycle(db, user, goal, cycle) && db.cycles[cycle].status == Completed
    requires GoalReadOk(db, user, goal) && CycleReadOk(db, user, goal, cycle) && db.cycles[cycle].version in db.versions
    requires var draft := ReviewDraft(db, user, goal);
             && (draft.Some? <==> db.goals[goal].status == GoalReview)
             && (draft.Some? ==> ReviewFits(db.drafts[draft.value], db.goals[goal], db.versions, db.cycles))
    ensures CompleteReplayOk(db, user, goal, cycle) <==> SignalKept(db, user, goal, cycle)
  {
  }

  /** The completion replay validator accepts exactly the states in which that signal was not edited. */
  lemma CompleteReplayIff(db: Db, user: Id, goal: Id, cycle: Id)
    requires LifecycleInv(db) && OwnsCycle(db, user, goal, cycle) && db.cycles[cycle].status == Completed
    ensures CompleteReplayOk(db, user, goal, cycle) <==> SignalKept(db, user, goal, cycle)
  {
    CycleReadAccepted(db, user, goal, cycle);
    GoalReadAccepted(db, user, goal);
    CycleRow(db, cycle);
    ReviewRow(db, goal);
    CompleteReplayRows(db, user, goal, cycle);
  }

  lemma TerminateReplayAccepted(db: Db, user: Id, goal: Id)
    requires LifecycleInv(db) && OwnsGoal(db, user, goal) && db.goals[goal].terminal.Some?
    ensures var r := db.goals[goal].terminal.value.request;
            && r.TerminateRequest? && r.goal == goal
            && TerminateReplayOk(db, user, goal, r.outcome, r.goalRevision, r.activeCycle)
  {
    CurrentRow(db, goal);
    GoalReadAccepted(db, user, goal);
    var r := db.goals[goal].terminal.value.request;
    if r.activeCycle.Some? {
      CycleRow(db, r.activeCycle.value);
      CycleReadAccepted(db, user, goal, r.activeCycle.value);
    }
  }

  // A claimed operation id answers one command only.

  /** The Cycle holds the claim, and is the one a query by operation id finds. */
  lemma StartClaimFound(db: Db, cycle: Id)
    requires LifecycleInv(db) && cycle in db.cycles
    ensures Lookup(db.cycles, StartKey, (db.cycles[cycle].user, db.cycles[cycle].start.operation)) == Some(cycle)
  {
    LookupFinds(db.cycles, StartKey, cycle);
  }

  /** Whichever of the three commands comes back with a claimed id: the same one is replayed, any other refused. */
  ghost predicate StartAnswers(cfg: Config, w: World, cycle: Id)
    requires cycle in w.db.cycles
  {
    var c := w.db.cycles[cycle];
    && (forall i: StartInput :: i.user == c.user && i.operation == c.start.operation ==>
          StartGoal(cfg, w, i) == Step(w, if StartRequest(i.draft, i.expected) == c.start.request then Replayed
              else Refused(IdempotencyKeyReused)))
    && (forall i: ReplanInput :: i.user == c.user && i.operation == c.start.operation && i.confirmed ==>
          ReplanCycle(w, i) == Step(w, if ReplanClaim(i) == c.start then Replayed else Refused(IdempotencyKeyReused)))
    && (forall i: ContinueInput :: i.user == c.user && i.operation == c.start.operation ==>
          ContinueReview(w, i) ==
            Step(w, if ContinueClaim(i) == c.start then Replayed else Refused(IdempotencyKeyReused)))
  }

  lemma StartAgain(cfg: Config, w: World, cycle: Id, i: StartInput)
    requires cycle in w.db.cycles && i.user == w.db.cycles[cycle].user
             && i.operation == w.db.cycles[cycle].start.operation
    requires Lookup(w.db.cycles, StartKey, (i.user, i.operation)) == Some(cycle) && i.user in w.db.users
    requires StartReplayOk(w.db, i.user, w.db.cycles[cycle].goal, cycle)
    ensures StartGoal(cfg, w, i) ==
              Step(w, if StartRequest(i.draft, i.expected) == w.db.cycles[cycle].start.request then Replayed
                  else Refused(IdempotencyKeyReused))
  {
  }

  lemma ReplanAgain(w: World, cycle: Id, i: ReplanInput)
    requires cycle in w.db.cycles && i.user == w.db.cycles[cycle].user
             && i.operation == w.db.cycles[cycle].start.operation && i.confirmed
    requires Lookup(w.db.cycles, StartKey, (i.user, i.operation)) == Some(cycle) && i.user in w.db.users
    requires OwnsGoal(w.db, i.user, w.db.cycles[cycle].goal)
    requires w.db.cycles[cycle].start == ReplanClaim(i) ==>
               && w.db.cycles[cycle].goal == i.goal && Predecessor(w.db, cycle) == Some(i.cycle)
               && i.cycle in w.db.cycles && w.db.cycles[i.cycle].reason == Some(Replanned)
               && ReplanReplayOk(w.db, i.user, i.goal, i.cycle, cycle)
    ensures ReplanCycle(w, i) ==
              Step(w, if ReplanClaim(i) == w.db.cycles[cycle].start then Replayed else Refused(IdempotencyKeyReused))
  {
  }

  lemma ContinueAgain(w: World, cycle: Id, i: ContinueInput)
    requires cycle in w.db.cycles && i.user == w.db.cycles[cycle].user
             && i.operation == w.db.cycles[cycle].start.operation
    requires Lookup(w.db.cycles, StartKey, (i.user, i.operation)) == Some(cycle)
    requires OwnsGoal(w.db, i.user, w.db.cycles[cycle].goal)
             && ContinueReplayOk(w.db, i.user, w.db.cycles[cycle].goal, cycle)
    requires w.db.cycles[cycle].start == ContinueClaim(i) ==> w.db.cycles[cycle].goal == i.goal
    ensures ContinueReview(w, i) == Step(w, if ContinueClaim(i) == w.db.cycles[cycle].start then Replayed
              else Refused(IdempotencyKeyReused))
  {
  }

  lemma ClaimAnswers(cfg: Config, w: World, cycle: Id)
    requires Inv(cfg, w) && cycle in w.db.cycles
    ensures StartAnswers(cfg, w, cycle)
  {
    var c := w.db.cycles[cycle];
    StartClaimFound(w.db, cycle);
    CycleRow(w.db, cycle);
    StartReplayAccepted(w.db, c.user, c.goal, cycle);
    if c.start.request.ReplanRequest? {
      ReplanPair(w.db, cycle);
      ReplanReplayAccepted(w.db, c.user, c.goal, c.start.request.cycle, cycle);
    }
    ClaimRows(cfg, w, cycle);
  }

  lemma ClaimRows(cfg: Config, w: World, cycle: Id)
    requires cycle in w.db.cycles
    requires var c := w.db.cycles[cycle];
             && Lookup(w.db.cycles, StartKey, (c.user, c.start.operation)) == Some(cycle) && c.user in w.db.users
             && OwnsGoal(w.db, c.user, c.goal) && StartFits(c, w.db.cycles)
             && StartReplayOk(w.db, c.user, c.goal, cycle) && ContinueReplayOk(w.db, c.user, c.goal, cycle)
             && (c.start.request.ReplanRequest? ==>
                   && var canceled := c.start.request.cycle;
                   && canceled in w.db.cycles && Predecessor(w.db, cycle) == Some(canceled) &&
                       w.db.cycles[canceled].reason == Some(Replanned)
                   && ReplanReplayOk(w.db, c.user, c.goal, canceled, cycle))
    ensures StartAnswers(cfg, w, cycle)
  {
    var c := w.db.cycles[cycle];
    forall i: StartInput | i.user == c.user && i.operation == c.start.operation
      ensures StartGoal(cfg, w, i) == Step(w, if StartRequest(i.draft, i.expected) == c.start.request then Replayed
                else Refused(IdempotencyKeyReused))
    {
      StartAgain(cfg, w, cycle, i);
    }
    forall i: ReplanInput | i.user == c.user && i.operation == c.start.operation && i.confirmed
      ensures ReplanCycle(w, i) ==
                Step(w, if ReplanClaim(i) == c.start then Replayed else Refused(IdempotencyKeyReused))
    {
      ReplanAgain(w, cycle, i);
    }
    forall i: ContinueInput | i.user == c.user && i.operation == c.start.operation
      ensures ContinueReview(w, i) ==
                Step(w, if ContinueClaim(i) == c.start then Replayed else Refused(IdempotencyKeyReused))
    {
      ContinueAgain(w, cycle, i);
    }
  }

  /** What an identical completion answers, now and later. */
  ghost predicate CompleteAnswers(w: World, cycle: Id)
    requires cycle in w.db.cycles && w.db.cycles[cycle].completion.Some?
  {
    var c := w.db.cycles[cycle];
    forall i: CompleteInput :: i.user == c.user && i.operation == c.completion.value.operation ==>
      CompleteCycle(w, i) == Step(w,
        if CompleteClaim(i) != c.completion.value then Refused(IdempotencyKeyReused)
        else if SignalKept(w.db, c.user, c.goal, cycle) then Replayed else Refused(InvariantViolated))
  }

  lemma CompleteAgain(w: World, cycle: Id, i: CompleteInput)
    requires cycle in w.db.cycles && w.db.cycles[cycle].completion.Some?
    requires var c := w.db.cycles[cycle];
             && i.user == c.user && i.operation == c.completion.value.operation && CompletionFits(cycle, c)
             && Lookup(w.db.cycles, CompletionKey, (i.user, i.operation)) == Some(cycle) && i.user in w.db.users
             && OwnsGoal(w.db, c.user, c.goal)
             && (CompleteReplayOk(w.db, c.user, c.goal, cycle) <==> SignalKept(w.db, c.user, c.goal, cycle))
    ensures var c := w.db.cycles[cycle];
            CompleteCycle(w, i) == Step(w,
              if CompleteClaim(i) != c.completion.value then Refused(IdempotencyKeyReused)
              else if SignalKept(w.db, c.user, c.goal, cycle) then Replayed else Refused(InvariantViolated))
  {
  }

  lemma CompletionAnswers(cfg: Config, w: World, cycle: Id)
    requires Inv(cfg, w) && cycle in w.db.cycles && w.db.cycles[cycle].completion.Some?
    ensures CompleteAnswers(w, cycle)
  {
    var c := w.db.cycles[cycle];
    CycleRow(w.db, cycle);
    StartReplayAccepted(w.db, c.user, c.goal, cycle);
    CompleteReplayIff(w.db, c.user, c.goal, cycle);
    LookupFinds(w.db.cycles, CompletionKey, cycle);
    CompletionRows(w, cycle);
  }

  lemma CompletionRows(w: World, cycle: Id)
    requires cycle in w.db.cycles && w.db.cycles[cycle].completion.Some?
    requires var c := w.db.cycles[cycle];
             && CompletionFits(cycle, c) && c.user in w.db.users && OwnsGoal(w.db, c.user, c.goal)
             && Lookup(w.db.cycles, CompletionKey, (c.user, c.completion.value.operation)) == Some(cycle)
             && (CompleteReplayOk(w.db, c.user, c.goal, cycle) <==> SignalKept(w.db, c.user, c.goal, cycle))
    ensures CompleteAnswers(w, cycle)
  {
    var c := w.db.cycles[cycle];
    forall i: CompleteInput | i.user == c.user && i.operation == c.completion.value.operation
      ensures CompleteCycle(w, i) == Step(w,
                if CompleteClaim(i) != c.completion.value then Refused(IdempotencyKeyReused)
                else if SignalKept(w.db, c.user, c.goal, cycle) then Replayed else Refused(InvariantViolated))
    {
      CompleteAgain(w, cycle, i);
    }
  }

  /** What an identical termination answers, now and later. */
  ghost predicate TerminateAnswers(w: World, goal: Id)
    requires goal in w.db.goals && w.db.goals[goal].terminal.Some?
  {
    var g := w.db.goals[goal];
    forall i: TerminateInput ::
      i.user == g.user && i.operation == g.terminal.value.operation && TerminateInputValid(i) ==>
      Terminate(w, i) ==
        Step(w, if TerminateClaim(i) == g.terminal.value then Replayed else Refused(IdempotencyKeyReused))
  }

  lemma TerminateAgain(w: World, goal: Id, i: TerminateInput)
    requires goal in w.db.goals && w.db.goals[goal].terminal.Some? && TerminateInputValid(i)
    requires var g := w.db.goals[goal];
             var r := g.terminal.value.request;
             && i.user == g.user && i.operation == g.terminal.value.operation && i.user in w.db.users
             && Lookup(w.db.goals, TerminalKey, (i.user, i.operation)) == Some(goal)
             && r.TerminateRequest? && r.goal == goal
             && TerminateReplayOk(w.db, g.user, goal, r.outcome, r.goalRevision, r.activeCycle)
    ensures Terminate(w, i) ==
              Step(w, if TerminateClaim(i) == w.db.goals[goal].terminal.value then Replayed
                   else Refused(IdempotencyKeyReused))
  {
  }

  lemma TerminationAnswers(cfg: Config, w: World, goal: Id)
    requires Inv(cfg, w) && goal in w.db.goals && w.db.goals[goal].terminal.Some?
    ensures TerminateAnswers(w, goal)
  {
    var g := w.db.goals[goal];
    TerminateReplayAccepted(w.db, g.user, goal);
    LookupFinds(w.db.goals, TerminalKey, goal);
    TerminationRows(w, goal);
  }

  lemma TerminationRows(w: World, goal: Id)
    requires goal in w.db.goals && w.db.goals[goal].terminal.Some?
    requires var g := w.db.goals[goal];
             var r := g.terminal.value.request;
             && g.user in w.db.users && Lookup(w.db.goals, TerminalKey, (g.user, g.terminal.value.operation)) ==
                  Some(goal)
             && r.TerminateRequest? && r.goal == goal
             && TerminateReplayOk(w.db, g.user, goal, r.outcome, r.goalRevision, r.activeCycle)
    ensures TerminateAnswers(w, goal)
  {
    var g := w.db.goals[goal];
    forall i: TerminateInput | i.user == g.user && i.operation == g.terminal.value.operation && TerminateInputValid(i)
      ensures Terminate(w, i) ==
                Step(w, if TerminateClaim(i) == g.terminal.value then Replayed else Refused(IdempotencyKeyReused))
    {
      TerminateAgain(w, goal, i);
    }
  }

  // Over runs.

  /** A start claim is answered the same way as long as its Goal exists. */
  lemma ClaimEndures(cfg: Config, w: World, cycle: Id, events: seq<Event>, x: World)
    requires Inv(cfg, w) && cycle in w.db.cycles && Run(cfg, w, events, x) && w.db.cycles[cycle].goal in x.db.goals
    ensures Inv(cfg, x) && cycle in x.db.cycles && CycleKept(w.db.cycles[cycle], x.db.cycles[cycle])
            && StartAnswers(cfg, x, cycle)
  {
    RunKeepsInv(cfg, w, events, x);
    RunEndures(cfg, w, events, x);
    ClaimAnswers(cfg, x, cycle);
  }

  /** A Goal started once is not started again: the same command is replayed, and its id is refused to any other. */
  lemma StartOnce(cfg: Config, w: World, i: StartInput, events: seq<Event>, x: World)
    requires Inv(cfg, w) && Enabled(w, OnStart(i)) && StartGoal(cfg, w, i).answer == Created(i.goal)
    requires Run(cfg, Apply(cfg, w, OnStart(i)), events, x) && i.goal in x.db.goals
    ensures i.cycle in x.db.cycles && x.db.cycles[i.cycle].user == i.user
    ensures x.db.cycles[i.cycle].start == Claim(i.operation, StartRequest(i.draft, i.expected))
            && StartAnswers(cfg, x, i.cycle)
  {
    StartRecords(cfg, w, i);
    StepKeepsInv(cfg, w, OnStart(i));
    ClaimEndures(cfg, Apply(cfg, w, OnStart(i)), i.cycle, events, x);
  }

  /** A Cycle's row says whose it is and which command started it. */
  predicate Started(db: Db, user: Id, goal: Id, cycle: Id, claim: Claim) {
    OwnsCycle(db, user, goal, cycle) && db.cycles[cycle].start == claim
  }

  lemma StartedRow(cfg: Config, w: World, i: StartInput)
    requires StartGoal(cfg, w, i).answer == Created(i.goal)
    ensures Started(StartGoal(cfg, w, i).world.db, i.user, i.goal, i.cycle,
                    Claim(i.operation, StartRequest(i.draft, i.expected)))
  {
  }

  lemma StartRecords(cfg: Config, w: World, i: StartInput)
    requires StartGoal(cfg, w, i).answer == Created(i.goal)
    ensures Started(Apply(cfg, w, OnStart(i)).db, i.user, i.goal, i.cycle,
                    Claim(i.operation, StartRequest(i.draft, i.expected)))
  {
    StartedRow(cfg, w, i);
    ApplyRows(cfg, w, OnStart(i));
  }

  lemma ReplanOnce(cfg: Config, w: World, i: ReplanInput, events: seq<Event>, x: World)
    requires Inv(cfg, w) && Enabled(w, OnReplan(i)) && ReplanCycle(w, i).answer == Created(i.next)
    requires Run(cfg, Apply(cfg, w, OnReplan(i)), events, x) && i.goal in x.db.goals
    ensures i.next in x.db.cycles && x.db.cycles[i.next].user == i.user
    ensures x.db.cycles[i.next].start == ReplanClaim(i) && StartAnswers(cfg, x, i.next)
  {
    ReplanRecords(cfg, w, i);
    StepKeepsInv(cfg, w, OnReplan(i));
    ClaimEndures(cfg, Apply(cfg, w, OnReplan(i)), i.next, events, x);
  }

  lemma ReplanRecords(cfg: Config, w: World, i: ReplanInput)
    requires ReplanCycle(w, i).answer == Created(i.next) && i.next !in w.db.cycles
    ensures var x := Apply(cfg, w, OnReplan(i));
            && i.next in x.db.cycles && x.db.cycles[i.next].user == i.user && x.db.cycles[i.next].goal == i.goal
            && x.db.cycles[i.next].start == ReplanClaim(i)
  {
  }

  lemma ContinueOnce(cfg: Config, w: World, i: ContinueInput, events: seq<Event>, x: World)
    requires Inv(cfg, w) && Enabled(w, OnContinue(i)) && ContinueReview(w, i).answer == Created(i.cycle)
    requires Run(cfg, Apply(cfg, w, OnContinue(i)), events, x) && i.goal in x.db.goals
    ensures i.cycle in x.db.cycles && x.db.cycles[i.cycle].user == i.user
    ensures x.db.cycles[i.cycle].start == ContinueClaim(i) && StartAnswers(cfg, x, i.cycle)
  {
    ContinueRecords(cfg, w, i);
    StepKeepsInv(cfg, w, OnContinue(i));
    ClaimEndures(cfg, Apply(cfg, w, OnContinue(i)), i.cycle, events, x);
  }

  lemma ContinuedRow(w: World, i: ContinueInput)
    requires ContinueReview(w, i).answer == Created(i.cycle)
    ensures Started(ContinueReview(w, i).world.db, i.user, i.goal, i.cycle, ContinueClaim(i))
  {
  }

  lemma ContinueRecords(cfg: Config, w: World, i: ContinueInput)
    requires ContinueReview(w, i).answer == Created(i.cycle)
    ensures Started(Apply(cfg, w, OnContinue(i)).db, i.user, i.goal, i.cycle, ContinueClaim(i))
  {
    ContinuedRow(w, i);
    ApplyRows(cfg, w, OnContinue(i));
  }

  /** After a step and a run, everything holds, and what the step left has endured. */
  lemma StepThenRun(cfg: Config, w: World, e: Event, events: seq<Event>, x: World)
    requires Inv(cfg, w) && Enabled(w, e) && Run(cfg, Apply(cfg, w, e), events, x)
    ensures Inv(cfg, x) && Endures(Apply(cfg, w, e), x)
  {
    StepKeepsInv(cfg, w, e);
    RunKeepsInv(cfg, Apply(cfg, w, e), events, x);
    RunEndures(cfg, Apply(cfg, w, e), events, x);
  }

  lemma CompletionEndures(y: World, x: World, cycle: Id)
    requires Endures(y, x) && cycle in y.db.cycles && y.db.cycles[cycle].status == Completed
             && y.db.cycles[cycle].goal in x.db.goals
    ensures cycle in x.db.cycles && x.db.cycles[cycle].completion == y.db.cycles[cycle].completion
    ensures x.db.cycles[cycle].user == y.db.cycles[cycle].user && x.db.cycles[cycle].goal == y.db.cycles[cycle].goal
  {
  }

  /** A Cycle completed once is not completed again. */
  lemma CompleteOnce(cfg: Config, w: World, i: CompleteInput, events: seq<Event>, x: World)
    requires Inv(cfg, w) && Enabled(w, OnComplete(i)) && CompleteCycle(w, i).answer == Created(i.draft)
    requires Run(cfg, Apply(cfg, w, OnComplete(i)), events, x) && i.goal in x.db.goals
    ensures i.cycle in x.db.cycles && x.db.cycles[i.cycle].completion == Some(CompleteClaim(i))
            && CompleteAnswers(x, i.cycle)
    ensures CompleteCycle(x, i).world == x
            && (CompleteCycle(x, i).answer == Replayed <==> SignalKept(x.db, i.user, i.goal, i.cycle))
  {
    CompleteRecords(cfg, w, i);
    StepThenRun(cfg, w, OnComplete(i), events, x);
    CompletionEndures(Apply(cfg, w, OnComplete(i)), x, i.cycle);
    CompletionAnswers(cfg, x, i.cycle);
    CompletionAnswersOne(x, i);
  }

  lemma CompletionAnswersOne(x: World, i: CompleteInput)
    requires i.cycle in x.db.cycles && x.db.cycles[i.cycle].completion == Some(CompleteClaim(i))
             && CompleteAnswers(x, i.cycle)
    requires x.db.cycles[i.cycle].user == i.user && x.db.cycles[i.cycle].goal == i.goal
    ensures CompleteCycle(x, i).world == x
            && (CompleteCycle(x, i).answer == Replayed <==> SignalKept(x.db, i.user, i.goal, i.cycle))
  {
  }

  lemma CompleteRecords(cfg: Config, w: World, i: CompleteInput)
    requires CompleteCycle(w, i).answer == Created(i.draft)
    ensures var x := Apply(cfg, w, OnComplete(i));
            && i.cycle in x.db.cycles && x.db.cycles[i.cycle].user == i.user && x.db.cycles[i.cycle].goal == i.goal
            && x.db.cycles[i.cycle].completion == Some(CompleteClaim(i)) && x.db.cycles[i.cycle].status == Completed
  {
  }

  /** A Goal terminated once is not terminated again. */
  lemma TerminateOnce(cfg: Config, w: World, i: TerminateInput, events: seq<Event>, x: World)
    requires Inv(cfg, w) && Terminate(w, i).answer == Done
    requires Run(cfg, Apply(cfg, w, OnTerminate(i)), events, x) && i.goal in x.db.goals
    ensures x.db.goals[i.goal].terminal == Some(TerminateClaim(i)) && TerminateAnswers(x, i.goal)
    ensures Terminate(x, i) == Step(x, Replayed)
  {
    TerminateRecords(cfg, w, i);
    StepThenRun(cfg, w, OnTerminate(i), events, x);
    TerminationAnswers(cfg, x, i.goal);
    TerminationAnswersOne(x, i);
  }

  lemma TerminationAnswersOne(x: World, i: TerminateInput)
    requires i.goal in x.db.goals && x.db.goals[i.goal].terminal == Some(TerminateClaim(i))
             && TerminateAnswers(x, i.goal)
    requires x.db.goals[i.goal].user == i.user && TerminateInputValid(i)
    ensures Terminate(x, i) == Step(x, Replayed)
  {
  }

  lemma TerminateWrites(w: World, i: TerminateInput)
    requires Terminate(w, i).answer == Done
    ensures var x := Terminate(w, i).world;
            && i.goal in x.db.goals && x.db.goals[i.goal].user == i.user && TerminateInputValid(i)
            && x.db.goals[i.goal].terminal == Some(TerminateClaim(i)) && !Progressing(x.db.goals[i.goal].status)
  {
  }

  lemma TerminateRecords(cfg: Config, w: World, i: TerminateInput)
    requires Terminate(w, i).answer == Done
    ensures var x := Apply(cfg, w, OnTerminate(i));
            && i.goal in x.db.goals && x.db.goals[i.goal].user == i.user && TerminateInputValid(i)
            && x.db.goals[i.goal].terminal == Some(TerminateClaim(i)) && !Progressing(x.db.goals[i.goal].status)
  {
    TerminateWrites(w, i);
    ApplyRows(cfg, w, OnTerminate(i));
  }

  /** Within a day, a deleted Goal is not deleted again, and the key is refused to any other deletion for good. */
  lemma DeleteOnce(cfg: Config, w: World, i: DeleteInput, events: seq<Event>, x: World, again: DeleteInput)
    requires Inv(cfg, w) && DeleteGoal(w, i).answer == Done
    requires Run(cfg, Apply(cfg, w, OnDeleteGoal(i)), events, x) && i.user in x.db.users
    requires again.user == i.user && again.key == i.key && again.confirmed
    ensures DeleteRequest(again.goal, again.expected) == DeleteRequest(i.goal, i.expected)
            && again.now < i.now + RECEIPT_LIFETIME ==>
              DeleteGoal(x, again) == Step(x, Replayed)
    ensures DeleteRequest(again.goal, again.expected) != DeleteRequest(i.goal, i.expected) ==>
              DeleteGoal(x, again) == Step(x, Refused(IdempotencyKeyReused))
    ensures i.goal !in x.db.goals
  {
    var y := Apply(cfg, w, OnDeleteGoal(i));
    StepKeepsInv(cfg, w, OnDeleteGoal(i));
    RunKeepsInv(cfg, y, events, x);
    RunEndures(cfg, y, events, x);
    DeleteRecords(cfg, w, i);
    assert ReceiptFits((i.user, i.key), x.db.receipts[(i.user, i.key)], x.db, x.history.issued);
    DeleteAgain(x, again, x.db.receipts[(i.user, i.key)]);
  }

  lemma DeleteRecords(cfg: Config, w: World, i: DeleteInput)
    requires DeleteGoal(w, i).answer == Done
    ensures var x := Apply(cfg, w, OnDeleteGoal(i));
            && (i.user, i.key) in x.db.receipts && i.user in x.db.users
            && x.db.receipts[(i.user, i.key)] ==
                 Receipt(i.goal, DeleteRequest(i.goal, i.expected), i.now + RECEIPT_LIFETIME)
  {
  }

  lemma DeleteAgain(x: World, i: DeleteInput, r: Receipt)
    requires (i.user, i.key) in x.db.receipts && x.db.receipts[(i.user, i.key)] == r && i.confirmed
             && i.user in x.db.users
    ensures DeleteRequest(i.goal, i.expected) == r.request && i.now < r.expiresAt ==>
              DeleteGoal(x, i) == Step(x, Replayed)
    ensures DeleteRequest(i.goal, i.expected) != r.request ==>
              DeleteGoal(x, i) == Step(x, Refused(IdempotencyKeyReused))
  {
  }

  /**
   The exception is real: complete a Cycle whose Version has no success signal, give the Review Draft
   one, and the very same completion command, replayed a moment ago, is refused.
   */
  lemma EditedSignalRefusesReplay(cfg: Config, w: World, i: CompleteInput, x: World, y: World)
    requires Inv(cfg, w) && Enabled(w, OnComplete(i)) && CompleteCycle(w, i).answer == Created(i.draft)
    requires x == Apply(cfg, w, OnComplete(i)) && i.draft in x.db.drafts && x.db.drafts[i.draft].signal == None
    requires y ==
               Apply(cfg, x, OnSaveReview(i.user, i.goal, i.draft, x.db.drafts[i.draft].body, Replace(Some("met")), 0))
    ensures CompleteCycle(x, i) == Step(x, Replayed) && CompleteCycle(y, i) == Step(y, Refused(InvariantViolated))
  {
    CompleteRecords(cfg, w, i);
    CompleteOpens(cfg, w, i);
    StepKeepsInv(cfg, w, OnComplete(i));
    BeforeEdit(cfg, x, i);
    AfterEdit(cfg, x, y, i);
  }

  /** A completed Cycle and the Review Draft it opened, untouched. */
  predicate JustCompleted(x: World, i: CompleteInput) {
    && i.draft in x.db.drafts && OwnsDraft(x.db, i.user, i.draft) && x.db.drafts[i.draft].revision == 0
    && i.cycle in x.db.cycles && x.db.cycles[i.cycle].user == i.user && x.db.cycles[i.cycle].goal == i.goal
    && x.db.cycles[i.cycle].completion == Some(CompleteClaim(i)) && x.db.cycles[i.cycle].version in x.db.versions
    && x.db.drafts[i.draft].kind == Review(i.goal, x.db.cycles[i.cycle].version, i.cycle)
    && x.db.drafts[i.draft].signal == x.db.versions[x.db.cycles[i.cycle].version].signal
    && OwnsGoal(x.db, i.user, i.goal) && x.db.goals[i.goal].status == GoalReview
  }

  lemma CompleteOpens(cfg: Config, w: World, i: CompleteInput)
    requires CompleteCycle(w, i).answer == Created(i.draft)
    ensures JustCompleted(Apply(cfg, w, OnComplete(i)), i)
  {
  }

  lemma BeforeEdit(cfg: Config, x: World, i: CompleteInput)
    requires Inv(cfg, x) && JustCompleted(x, i)
    ensures CompleteCycle(x, i) == Step(x, Replayed)
  {
    CompletionAnswers(cfg, x, i.cycle);
    SignalOf(x.db, i.user, i.goal, i.cycle, i.draft);
  }

  lemma AfterEdit(cfg: Config, x: World, y: World, i: CompleteInput)
    requires Inv(cfg, x) && JustCompleted(x, i) && x.db.drafts[i.draft].signal == None
    requires y ==
               Apply(cfg, x, OnSaveReview(i.user, i.goal, i.draft, x.db.drafts[i.draft].body, Replace(Some("met")), 0))
    ensures CompleteCycle(y, i) == Step(y, Refused(InvariantViolated))
  {
    CurrentRow(x.db, i.goal);
    assert DraftRooted(x.db.drafts[i.draft], x.db);
    SaveSignal(cfg, x, i);
    StepKeepsInv(cfg, x, OnSaveReview(i.user, i.goal, i.draft, x.db.drafts[i.draft].body, Replace(Some("met")), 0));
    EditRefused(cfg, x, y, i);
  }

  lemma EditRefused(cfg: Config, x: World, y: World, i: CompleteInput)
    requires Inv(cfg, y) && JustCompleted(x, i) && x.db.drafts[i.draft].signal == None
    requires y ==
               x.(db := x.db.(drafts := x.db.drafts[i.draft := x.db.drafts[i.draft].(signal := Some("met"),
                                                                                     revision := 1)]))
    ensures CompleteCycle(y, i) == Step(y, Refused(InvariantViolated))
  {
    CompletionAnswers(cfg, y, i.cycle);
    SignalOf(y.db, i.user, i.goal, i.cycle, i.draft);
  }

  /** Whether the signal was kept is read off the one Review Draft of the Goal. */
  lemma SignalOf(db: Db, user: Id, goal: Id, cycle: Id, draft: Id)
    requires UniqueDrafts(db.drafts) && draft in db.drafts && db.drafts[draft].user == user && cycle in db.cycles
    requires db.drafts[draft].kind == Review(goal, db.cycles[cycle].version, cycle)
             && db.cycles[cycle].version in db.versions
    ensures SignalKept(db, user, goal, cycle) <==>
              db.drafts[draft].signal == db.versions[db.cycles[cycle].version].signal
  {
    LookupFinds(db.drafts, ReviewKey, draft);
  }

  lemma SavedSignal(x: World, i: CompleteInput)
    requires JustCompleted(x, i) && x.db.drafts[i.draft].signal == None && CurrentVersion(x.db, i.goal).Some?
    requires BodyText(x.db.drafts[i.draft].body)
    ensures var d := x.db.drafts[i.draft];
            SaveReview(x, i.user, i.goal, i.draft, d.body, Replace(Some("met")), 0).world ==
              x.(db := x.db.(drafts := x.db.drafts[i.draft := d.(signal := Some("met"), revision := 1)]))
  {
    var d := x.db.drafts[i.draft];
    NormalizeBodyFixpoint(d.body, true);
    assert "met"[0] in "met" && !Space('m');
    NormalizeSignalFixpoint(Some("met"));
  }

  lemma SaveSignal(cfg: Config, x: World, i: CompleteInput)
    requires JustCompleted(x, i) && x.db.drafts[i.draft].signal == None && CurrentVersion(x.db, i.goal).Some?
    requires BodyText(x.db.drafts[i.draft].body)
    ensures var d := x.db.drafts[i.draft];
            Apply(cfg, x, OnSaveReview(i.user, i.goal, i.draft, d.body, Replace(Some("met")), 0)) ==
              x.(db := x.db.(drafts := x.db.drafts[i.draft := d.(signal := Some("met"), revision := 1)]))
  {
    SavedSignal(x, i);
  }
}
