/** An operation keeps running until its lease runs out: what may end it, and why its own report comes in time. */
module Leases {
  import opened Base
  import opened Rows
  import opened Keys
  import opened Schema
  import opened Ledger
  import opened LedgerInvariant
  import opened Lifecycle
  import opened Targets
  import opened UseCases
  import opened Outcomes
  import opened Soundness
  import opened MoneySteps
  import opened Runs
  import opened Quiet
  import opened Landing
  import opened Attempts

  /**
   The transactions that may end a running operation: a begin of its User once the lease is over, its report, a
   deletion.
   */
  predicate MayEnd(g: Generation, id: Id, e: Event) {
    match e
    case OnBeginAction(i) => i.user == g.user && g.lease.Some? && g.lease.value <= i.now
    case OnBeginRefine(i) => i.user == g.user && g.lease.Some? && g.lease.value <= i.now
    case OnFinishAction(f) => f.id == id
    case OnFinishRefine(f) => f.id == id
    case OnDeleteGoal(i) => i.user == g.user && g.goal == Some(i.goal)
    case OnDeleteAccount(user) => user == g.user
    case _ => false
  }

  lemma RecoverLeaves(w: World, user: Id, now: int, id: Id)
    requires id in w.db.generations ==> !Expired(w.db.generations[id], user, now)
    ensures Alone(w, Recover(w, user, now), id)
  {
  }

  lemma AcceptLeaves(w: World, r: World, operation: Id, g: Generation, now: int, text: string, revision: nat, id: Id)
    requires Alone(w, r, id) && operation != id
    ensures Alone(w, Accept(r, operation, g, now, text, revision), id)
  {
  }

  lemma BeganLeaves(cfg: Config, w: World, x: World, user: Id, operation: Id, now: int, id: Id)
    requires Began(cfg, w, x, user, operation, now)
    requires operation != id && (id in w.db.generations ==> !Expired(w.db.generations[id], user, now))
    ensures Alone(w, x, id)
  {
    RecoverLeaves(w, user, now, id);
    if Accepts(cfg, w, x, user, operation, now) {
      var e := x.history.log[operation];
      AcceptLeaves(w, Recover(w, user, now), operation, x.db.generations[operation], now, e.text, e.textRevision, id);
    }
  }

  lemma ReportedLeaves(w: World, f: FinishInput, x: World, id: Id)
    requires Reported(w, f, x) && f.id != id
    ensures Alone(w, x, id)
  {
  }

  /** A Goal that is deleted takes its own operations only. */
  lemma DeleteGoalLeaves(w: World, i: DeleteInput, id: Id)
    requires id in w.db.generations ==>
               var g := w.db.generations[id];
               && !(i.user == g.user && g.goal == Some(i.goal))
               && (g.goal.Some? && g.goal.value in w.db.goals ==> w.db.goals[g.goal.value].user == g.user)
    ensures Alone(w, DeleteGoal(w, i).world, id)
  {
  }

  lemma DeleteAccountLeaves(w: World, user: Id, id: Id)
    requires id in w.db.generations ==> w.db.generations[id].user != user
    requires id in w.db.generations && id in w.history.log ==> w.history.log[id].user == w.db.generations[id].user
    ensures Alone(w, DeleteAccount(w, user).world, id)
  {
  }

  lemma RunningRow(cfg: Config, w: World, id: Id)
    requires Sound(cfg, w) && RunsHere(w, id)
    ensures w.history.log[id].user == w.db.generations[id].user && id in w.history.issued
    ensures var g := w.db.generations[id];
            g.goal.Some? && g.goal.value in w.db.goals ==> w.db.goals[g.goal.value].user == g.user
  {
    assert GenerationFits(w.db.generations[id], w.history.log, id);
    assert Aims(id, w.db.generations[id], w.db, w.history.log);
  }

  lemma BeginLeaves(cfg: Config, w: World, e: Event, id: Id)
    requires Enabled(w, e) && RunsHere(w, id) && !MayEnd(w.db.generations[id], id, e) && id in w.history.issued
    requires e.OnBeginAction? || e.OnBeginRefine?
    ensures Alone(w, Perform(cfg, w, e).world, id)
  {
    BeginBegan(cfg, w, e);
    BeganLeaves(cfg, w, Perform(cfg, w, e).world, BeginUser(e), BeginId(e), ClockOf(e).value, id);
  }

  lemma ReportLeaves(cfg: Config, w: World, e: Event, id: Id)
    requires (e.OnFinishAction? || e.OnFinishRefine?) && e.report.id != id
    ensures Alone(w, Perform(cfg, w, e).world, id)
  {
    ReportReported(cfg, w, e);
    ReportedLeaves(w, e.report, Perform(cfg, w, e).world, id);
  }

  lemma DeletionLeaves(cfg: Config, w: World, e: Event, id: Id)
    requires (e.OnDeleteGoal? || e.OnDeleteAccount?) && RunsHere(w, id) && !MayEnd(w.db.generations[id], id, e)
    requires w.history.log[id].user == w.db.generations[id].user
    requires var g := w.db.generations[id];
             g.goal.Some? && g.goal.value in w.db.goals ==> w.db.goals[g.goal.value].user == g.user
    ensures Alone(w, Perform(cfg, w, e).world, id)
  {
    if e.OnDeleteGoal? {
      DeleteGoalLeaves(w, e.delete, id);
    } else {
      DeleteAccountLeaves(w, e.user, id);
    }
  }

  /** What the invariant says of a running row that the steps rely on. */
  predicate Owned(w: World, id: Id) {
    && RunsHere(w, id) && id in w.history.issued && w.history.log[id].user == w.db.generations[id].user
    && var g := w.db.generations[id];
         g.goal.Some? && g.goal.value in w.db.goals ==> w.db.goals[g.goal.value].user == g.user
  }

  lemma MoneyLeaves(cfg: Config, w: World, e: Event, id: Id)
    requires Enabled(w, e) && Owned(w, id) && !MayEnd(w.db.generations[id], id, e) && MovesMoney(e)
    ensures Alone(w, Perform(cfg, w, e).world, id)
  {
    if e.OnBeginAction? || e.OnBeginRefine? {
      BeginLeaves(cfg, w, e, id);
    } else if e.OnDeleteGoal? || e.OnDeleteAccount? {
      DeletionLeaves(cfg, w, e, id);
    } else {
      ReportLeaves(cfg, w, e, id);
    }
  }

  lemma StepLeaves(cfg: Config, w: World, e: Event, id: Id)
    requires Sound(cfg, w) && Enabled(w, e) && RunsHere(w, id) && !MayEnd(w.db.generations[id], id, e)
    ensures Alone(w, Perform(cfg, w, e).world, id)
  {
    RunningRow(cfg, w, id);
    if MovesMoney(e) {
      MoneyLeaves(cfg, w, e, id);
    } else {
      OthersQuiet(cfg, w, e, id);
    }
  }

  lemma ApplyLeaves(cfg: Config, w: World, e: Event, id: Id)
    requires RunsHere(w, id) && Alone(w, Perform(cfg, w, e).world, id)
    ensures RunsHere(Apply(cfg, w, e), id) && Alone(w, Apply(cfg, w, e), id)
  {
  }

  /**
   Over any run, as long as nothing happens that may end it, a running operation goes on: no edit, no
   transition and no recovery of anybody else ends it, and its row and its entry stay as they are.
   */
  lemma {:induction false} StaysRunning(cfg: Config, w: World, events: seq<Event>, x: World, id: Id)
    requires Inv(cfg, w) && Run(cfg, w, events, x) && RunsHere(w, id)
    requires forall e :: e in events ==> !MayEnd(w.db.generations[id], id, e)
    ensures RunsHere(x, id) && x.db.generations[id] == w.db.generations[id] && x.history.log[id] == w.history.log[id]
    decreases |events|
  {
    if events != [] {
      assert events[0] in events;
      StepKeepsInv(cfg, w, events[0]);
      StepLeaves(cfg, w, events[0], id);
      ApplyLeaves(cfg, w, events[0], id);
      StaysRunning(cfg, Apply(cfg, w, events[0]), events[1..], x, id);
    }
  }

  function ActionBegin(i: ActionInput): Begin { Begin(i.id, i.user, Some(i.goal), i.now) }

  function RefineBegin(i: RefineInput): Begin { Begin(i.id, i.user, i.goal, i.now) }

  predicate Begins(y: World, cfg: Config, o: Begin) {
    && RunsHere(y, o.id) && y.history.log[o.id].fate == StillRunning
    && var g := y.db.generations[o.id];
         g.user == o.user && g.goal == o.goal && g.lease == Some(o.acceptedAt + cfg.lease)
  }

  lemma AcceptBegins(cfg: Config, w: World, y: World, goal: Option<Id>, user: Id, id: Id, now: int)
    requires Accepts(cfg, w, y, user, id, now) && y.db.generations[id].goal == goal
    ensures Begins(y, cfg, Begin(id, user, goal, now))
  {
  }

  lemma BegunRow(cfg: Config, w: World, i: ActionInput)
    requires BeginAction(cfg, w, i).answer == Begun(i.id)
    ensures Begins(BeginAction(cfg, w, i).world, cfg, ActionBegin(i))
  {
    BeginActionBegan(cfg, w, i);
    BeginActionEffect(cfg, w, i);
    AcceptBegins(cfg, w, BeginAction(cfg, w, i).world, Some(i.goal), i.user, i.id, i.now);
  }

  lemma SameBegins(y: World, z: World, cfg: Config, o: Begin)
    requires Begins(y, cfg, o) && z.db == y.db && z.history.log == y.history.log
    ensures Begins(z, cfg, o)
  {
  }

  lemma BegunRuns(cfg: Config, w: World, i: ActionInput)
    requires BeginAction(cfg, w, i).answer == Begun(i.id)
    ensures Begins(Apply(cfg, w, OnBeginAction(i)), cfg, ActionBegin(i))
  {
    BegunRow(cfg, w, i);
    ApplyRows(cfg, w, OnBeginAction(i));
    SameBegins(BeginAction(cfg, w, i).world, Apply(cfg, w, OnBeginAction(i)), cfg, ActionBegin(i));
  }

  /** An accepted operation as its begin leaves it. */
  datatype Begin = Begin(id: Id, user: Id, goal: Option<Id>, acceptedAt: int)

  /** What no transaction of the run is: another report of the operation, or a deletion of its Goal or its Account. */
  predicate LeavesTarget(o: Begin, e: Event) {
    match e
    case OnFinishAction(f) => f.id != o.id
    case OnFinishRefine(f) => f.id != o.id
    case OnDeleteGoal(d) => d.user != o.user || Some(d.goal) != o.goal
    case OnDeleteAccount(user) => user != o.user
    case _ => true
  }

  /** A begin of the same User has read a clock at most so many milliseconds after the operation was accepted. */
  predicate Within(o: Begin, elapsed: int, e: Event) {
    match e
    case OnBeginAction(j) => j.user == o.user ==> 1000 * (j.now - o.acceptedAt) <= elapsed
    case OnBeginRefine(j) => j.user == o.user ==> 1000 * (j.now - o.acceptedAt) <= elapsed
    case _ => true
  }

  /** What the provider call and its finalization may take: attempts, pauses and grace. */
  function Elapsed(t: Timing, answers: seq<Attempt>): int
    requires |answers| >= AttemptLimit(t.maxAttempts)
  {
    var made := Made(answers, AttemptLimit(t.maxAttempts));
    Durations(answers[..made]) + Pauses(made, t.maxBackoff) + t.grace
  }

  /**
   The provider call keeps to a validated configuration, and what commits meanwhile has read clocks no later than it
   may take.
   */
  ghost predicate OnTime(cfg: Config, o: Begin, events: seq<Event>, t: Timing, answers: seq<Attempt>) {
    && Validated(t) && t.lease == 1000 * cfg.lease && |answers| >= t.maxAttempts
    && (forall a :: a in answers ==> a.duration <= t.timeout)
    && (forall e :: e in events ==> LeavesTarget(o, e) && Within(o, Elapsed(t, answers), e))
  }

  lemma NothingEnds(cfg: Config, o: Begin, events: seq<Event>, t: Timing, answers: seq<Attempt>, g: Generation)
    requires OnTime(cfg, o, events, t, answers)
    requires g.user == o.user && g.goal == o.goal && g.lease == Some(o.acceptedAt + cfg.lease)
    ensures forall e :: e in events ==> !MayEnd(g, o.id, e)
  {
    LeaseOutlives(t, answers);
    forall e | e in events ensures !MayEnd(g, o.id, e) {
      assert LeavesTarget(o, e) && Within(o, Elapsed(t, answers), e);
    }
  }

  /**
   An operation whose provider call keeps to the configuration is still running when it reports, and its row is the one
   it began with.
   */
  lemma RunsUntilReport(cfg: Config, y: World, o: Begin, events: seq<Event>, x: World, t: Timing, answers: seq<Attempt>)
    requires Inv(cfg, y) && Begins(y, cfg, o) && Run(cfg, y, events, x) && OnTime(cfg, o, events, t, answers)
    ensures RunsHere(x, o.id) && x.history.log[o.id].fate == StillRunning
            && x.db.generations[o.id] == y.db.generations[o.id]
  {
    NothingEnds(cfg, o, events, t, answers, y.db.generations[o.id]);
    StaysRunning(cfg, y, events, x, o.id);
  }

  /** So the report of an Action operation lands on exactly the Action it started from. */
  lemma ReportsInTime(cfg: Config, w: World, i: ActionInput, events: seq<Event>, x: World, f: FinishInput, t: Timing,
                      answers: seq<Attempt>)
    requires Inv(cfg, w) && Enabled(w, OnBeginAction(i)) && BeginAction(cfg, w, i).answer == Begun(i.id)
    requires Run(cfg, Apply(cfg, w, OnBeginAction(i)), events, x) && OnTime(cfg, ActionBegin(i), events, t, answers)
    requires f.id == i.id && f.operation == i.operation && Plausible(x, f)
    requires i.cycle in w.db.cycles && f.targetRevision == w.db.cycles[i.cycle].revisions.content
    ensures i.cycle in x.db.cycles && ActionAwaits(w.db.cycles[i.cycle], x.db.cycles[i.cycle])
    ensures FinishAction(x, f).answer ==
              if f.failure.Some? then Refused(ProviderFailed(f.failure.value))
              else ReplayedOutput(f.id, f.output, x.db.cycles[i.cycle].revisions.content != f.targetRevision)
    ensures Lands(x, f, i.cycle, FinishAction(x, f).world)
  {
    StepKeepsInv(cfg, w, OnBeginAction(i));
    BegunRuns(cfg, w, i);
    RunsUntilReport(cfg, Apply(cfg, w, OnBeginAction(i)), ActionBegin(i), events, x, t, answers);
    FinishLands(cfg, w, i, events, x, f);
  }

  /** A refinement's row, as its begin leaves it. */
  predicate RefineBegins(w: World, y: World, cfg: Config, i: RefineInput, draft: Id) {
    && Begins(y, cfg, RefineBegin(i)) && draft in w.db.drafts
    && RefinesDraft(y.db.generations[i.id], draft, w.db.drafts[draft].revision)
  }

  predicate RefinesDraft(g: Generation, draft: Id, revision: nat) {
    g.operation == GoalRefine && g.status == Running && g.draft == Some(draft) && g.targetRevision == revision
  }

  lemma RefineRow(cfg: Config, w: World, i: RefineInput)
    requires BeginRefine(cfg, w, i).answer == Begun(i.id) && forall goal :: goal in w.db.goals ==> DraftsOf(w.db, goal)
    ensures RefineDraft(w.db, i.user, i.draft, i.goal).Some?
    ensures RefineBegins(w, BeginRefine(cfg, w, i).world, cfg, i, RefineDraft(w.db, i.user, i.draft, i.goal).value)
  {
    BeginRefineBegan(cfg, w, i);
    BeginRefineEffect(cfg, w, i);
    AcceptBegins(cfg, w, BeginRefine(cfg, w, i).world, i.goal, i.user, i.id, i.now);
  }

  lemma SameRefineBegins(w: World, y: World, z: World, cfg: Config, i: RefineInput, draft: Id)
    requires RefineBegins(w, y, cfg, i, draft) && z.db == y.db && z.history.log == y.history.log
    ensures RefineBegins(w, z, cfg, i, draft)
  {
    SameBegins(y, z, cfg, RefineBegin(i));
  }

  lemma RefineRuns(cfg: Config, w: World, i: RefineInput)
    requires BeginRefine(cfg, w, i).answer == Begun(i.id) && forall goal :: goal in w.db.goals ==> DraftsOf(w.db, goal)
    ensures RefineDraft(w.db, i.user, i.draft, i.goal).Some?
    ensures RefineBegins(w, Apply(cfg, w, OnBeginRefine(i)), cfg, i, RefineDraft(w.db, i.user, i.draft, i.goal).value)
  {
    RefineRow(cfg, w, i);
    ApplyRows(cfg, w, OnBeginRefine(i));
    SameRefineBegins(w, BeginRefine(cfg, w, i).world, Apply(cfg, w, OnBeginRefine(i)), cfg, i,
                     RefineDraft(w.db, i.user, i.draft, i.goal).value);
  }

  /** What the report of a refinement leaves: its outcome as it came, and every text untouched. */
  ghost predicate RefineLands(x: World, f: FinishInput, draft: Id, z: World) {
    && draft in x.db.drafts && z.db.drafts == x.db.drafts && z.db.cycles == x.db.cycles && z.db.goals == x.db.goals
    && f.id in z.history.log && z.history.log[f.id].fate == Settled(f.cost, false)
    && f.id in z.db.generations && z.db.generations[f.id].output == (if f.failure.Some? then None else Some(f.output))
  }

  /** And the report of a refinement finds its Draft, and is recorded as it came. */
  lemma RefinementReportsInTime(cfg: Config, w: World, i: RefineInput, draft: Id, events: seq<Event>, x: World,
                                f: FinishInput,
                                t: Timing, answers: seq<Attempt>)
    requires Inv(cfg, w) && Enabled(w, OnBeginRefine(i)) && BeginRefine(cfg, w, i).answer == Begun(i.id)
    requires RefineDraft(w.db, i.user, i.draft, i.goal) == Some(draft)
    requires Run(cfg, Apply(cfg, w, OnBeginRefine(i)), events, x) && OnTime(cfg, RefineBegin(i), events, t, answers)
    requires f.id == i.id && f.operation == GoalRefine && Plausible(x, f)
    requires draft in w.db.drafts && f.targetRevision == w.db.drafts[draft].revision
    ensures draft in x.db.drafts
    ensures FinishRefine(x, f).answer ==
              if f.failure.Some? then Refused(ProviderFailed(f.failure.value))
              else ReplayedOutput(f.id, f.output, x.db.drafts[draft].revision != f.targetRevision)
    ensures RefineLands(x, f, draft, FinishRefine(x, f).world)
  {
    var y := Apply(cfg, w, OnBeginRefine(i));
    DraftsFit(w.db);
    RefineRuns(cfg, w, i);
    StepKeepsInv(cfg, w, OnBeginRefine(i));
    RunsUntilReport(cfg, y, RefineBegin(i), events, x, t, answers);
    RunKeepsInv(cfg, y, events, x);
    RefineReportLands(cfg, x, f);
  }

  /**
   The ledger's assumption on a report's cost holds of every provider call within the token caps, reservation and cost
   being rounded alike.
   */
  lemma CostIsPlausible(w: World, f: FinishInput, round: real -> int, answers: seq<Attempt>, maxAttempts: int,
                        maxInput: nat, maxOutput: nat, inputPrice: real, outputPrice: real)
    requires Rounds(round) && maxAttempts >= 1 && |answers| >= maxAttempts && inputPrice >= 0.0 && outputPrice >= 0.0
    requires forall a :: a in answers ==> WithinCaps(a, maxInput, maxOutput, inputPrice, outputPrice)
    requires f.id in w.history.log ==>
               w.history.log[f.id].reservation ==
                   Units(round, MaximumReservation(maxInput, maxOutput, maxAttempts, inputPrice, outputPrice))
    requires f.cost == Units(round, TotalCost(answers[..Made(answers, AttemptLimit(maxAttempts))]))
    ensures f.id in w.history.log ==> f.cost <= w.history.log[f.id].reservation
  {
    CostWithinUnits(round, answers, maxAttempts, maxInput, maxOutput, inputPrice, outputPrice);
  }
}
