/** Exactly when a review or a Goal ends, and what its rows then hold. */
module Reviews {
  import opened Base
  import opened Rows
  import opened Keys
  import opened Schema
  import opened Ledger
  import opened LedgerInvariant
  import opened Text
  import opened Views
  import opened Lifecycle
  import opened Targets
  import opened UseCases
  import opened Soundness
  import opened MoneySteps
  import opened Edits
  import opened Transitions
  import CycleDomain
  import GoalDomain

  /** The Draft of a Goal's review. */
  predicate ReviewOf(db: Db, user: Id, goal: Id, draft: Id) {
    OwnsDraft(db, user, draft) && db.drafts[draft].kind.Review? && db.drafts[draft].kind.goal == goal
  }

  /** The rows a review stands on agree with its Draft. */
  ghost predicate Reviewed(db: Db, user: Id, goal: Id, draft: Id) {
    && ReviewOf(db, user, goal, draft) && OwnsGoal(db, user, goal) && user in db.users
    && ReviewDraft(db, user, goal) == Some(draft)
    && var d, g := db.drafts[draft], db.goals[goal];
    && g.status == GoalReview && d.kind.baseVersion in db.versions
    && CurrentVersion(db, goal) == Some(d.kind.baseVersion)
    && var v := db.versions[d.kind.baseVersion];
    && v.user == user && v.goal == goal && v.number == g.currentVersion
    && BodyText(d.body) && SignalText(d.signal) && BodyText(v.body) && SignalText(v.signal)
  }

  lemma ReviewStands(db: Db, user: Id, goal: Id, draft: Id)
    requires LifecycleInv(db) && ReviewOf(db, user, goal, draft)
    ensures Reviewed(db, user, goal, draft)
  {
    ReviewOwner(db, user, goal, draft);
    ReviewOnCurrent(db, draft);
    var d := db.drafts[draft];
    assert DraftRooted(d, db);
    assert GoalInv(db, goal);
    assert ReviewFits(d, db.goals[goal], db.versions, db.cycles);
    assert VersionFits(db.versions[d.kind.baseVersion], db.goals[goal]);
  }

  /** A Goal in review has a Review Draft, and any other has none. */
  lemma NoReview(db: Db, user: Id, goal: Id)
    requires LifecycleInv(db) && OwnsGoal(db, user, goal) && forall d :: d in db.drafts ==> !ReviewOf(db, user, goal, d)
    ensures db.goals[goal].status != GoalReview
  {
    assert GoalInv(db, goal);
    if db.goals[goal].status == GoalReview {
      var d :| d in db.drafts && ReviewKey(db.drafts[d]) == Some((user, goal));
      assert ReviewOf(db, user, goal, d);
    }
  }

  /** Both texts of the Draft are the Version's. */
  predicate TextsAgree(v: Version, d: Draft) { v.body == d.body && v.signal == d.signal }

  // Continuing.

  predicate ContinueOpen(db: Db, i: ContinueInput, draft: Id) {
    && Unclaimed(db.cycles, i.user, i.operation) && ReviewOf(db, i.user, i.goal, draft)
    && db.drafts[draft].revision == i.draftRevision && !Blank(db.drafts[draft].body)
    && i.goal in db.goals && db.goals[i.goal].revision == i.goalRevision && DraftIdle(db.generations, draft)
  }

  /**
   The new Cycle stands on a Version with exactly the Draft's body and signal: the current one if it has both, and
   otherwise a new one.
   */
  predicate ContinueMakes(db: Db, i: ContinueInput, draft: Id, x: Db)
    requires ReviewOf(db, i.user, i.goal, draft) && i.goal in db.goals
             && db.drafts[draft].kind.baseVersion in db.versions
  {
    var d, g := db.drafts[draft], db.goals[i.goal];
    var kept := TextsAgree(db.versions[d.kind.baseVersion], d);
    var version := if kept then d.kind.baseVersion else i.version;
    && i.cycle in x.cycles && x.cycles == db.cycles[i.cycle := x.cycles[i.cycle]]
    && Opened(x.cycles[i.cycle], i.user, i.goal, version, g.nextSequence,
              Claim(i.operation, ContinueRequest(i.goal, i.goalRevision, i.draftRevision)))
    && version in x.versions && TextsAgree(x.versions[version], d)
    && (kept ==> x.versions == db.versions)
    && (!kept ==>
          x.versions ==
            db.versions[i.version := Version(i.user, i.goal, g.currentVersion + 1, d.body, d.signal, i.operation)])
    && x.goals == db.goals[i.goal := g.(status := ActiveCycle, revision := g.revision + 1,
                                        nextSequence := g.nextSequence + 1,
                                        currentVersion := g.currentVersion + (if kept then 0 else 1))]
    && MovesOperations(db, x, draft, i.goal, version) && KeepsOthers(db, x)
  }

  lemma TextsDiffer(v: Version, d: Draft)
    requires BodyText(v.body) && BodyText(d.body)
    ensures GoalDomain.Differs(v, d.body, d.signal) <==> !TextsAgree(v, d)
  {
    NormalizeLineEndingsStable(v.body);
    NormalizeLineEndingsStable(d.body);
  }

  lemma ContinuedRows(db: Db, i: ContinueInput, draft: Id, claim: Claim)
    requires Reviewed(db, i.user, i.goal, draft)
    ensures var d, g := db.drafts[draft], db.goals[i.goal];
            var v := db.versions[d.kind.baseVersion];
            var s := GoalDomain.ContinueReview(i.goal, g, d.kind.baseVersion, v, d, i.version, claim);
            && (s.Ok? <==> !Blank(d.body))
            && (s.Ok? ==>
                  && s.value.goal == g.(status := ActiveCycle, revision := g.revision + 1,
                                        nextSequence := g.nextSequence + 1,
                                        currentVersion := g.currentVersion + (if TextsAgree(v, d) then 0 else 1))
                  && s.value.version ==
                       (if TextsAgree(v, d) then None
                        else Some(Version(i.user, i.goal, g.currentVersion + 1, d.body, d.signal, claim.operation)))
                  && Opened(s.value.cycle, i.user, i.goal, if TextsAgree(v, d) then d.kind.baseVersion else i.version,
                            g.nextSequence, claim))
  {
    var d := db.drafts[draft];
    NormalizeLineEndingsStable(d.body);
    NormalizeBodyFixpoint(d.body, false);
    NormalizeSignalFixpoint(d.signal);
    TextsDiffer(db.versions[d.kind.baseVersion], d);
  }

  lemma ContinueShape(w: World, i: ContinueInput, draft: Id)
    requires Reviewed(w.db, i.user, i.goal, draft)
    ensures var s, x, d, g :=
            ContinueReview(w, i), ContinueReview(w, i).world.db, w.db.drafts[draft], w.db.goals[i.goal];
            var claim := Claim(i.operation, ContinueRequest(i.goal, i.goalRevision, i.draftRevision));
            var c := GoalDomain.ContinueReview(i.goal, g, d.kind.baseVersion, w.db.versions[d.kind.baseVersion], d,
                                               i.version, claim);
            && (s.answer == Created(i.cycle) <==>
                  && Lookup(w.db.cycles, StartKey, (i.user, i.operation)).None? && g.revision == i.goalRevision
                  && d.revision == i.draftRevision && !RunsOnDraft(w.db.generations, draft) && c.Ok?)
            && (s.answer != Created(i.cycle) ==> s.world == w)
            && (s.answer == Created(i.cycle) ==>
                  && var ids := GenerationsOfDraft(w.db.generations, i.user, draft);
                  && x.goals == w.db.goals[i.goal := c.value.goal]
                  && x.versions ==
                       (if c.value.version.Some? then w.db.versions[i.version := c.value.version.value]
                        else w.db.versions)
                  && x.cycles == w.db.cycles[i.cycle := c.value.cycle] && x.drafts == Without(w.db.drafts, {draft})
                  && x.generations == Attach(w.db.generations, ids, i.goal, c.value.cycle.version)
                  && x.usages == AttachUsages(w.db.usages, ids, i.goal) && KeepsOthers(w.db, x))
  {
  }

  lemma ContinueFrom(w: World, i: ContinueInput, draft: Id)
    requires Reviewed(w.db, i.user, i.goal, draft) && TargetsInv(w.db, w.history.log)
    ensures var s := ContinueReview(w, i);
            && (s.answer == Created(i.cycle) <==> ContinueOpen(w.db, i, draft))
            && (if s.answer == Created(i.cycle) then ContinueMakes(w.db, i, draft, s.world.db) else s.world == w)
  {
    var d := w.db.drafts[draft];
    var version := if TextsAgree(w.db.versions[d.kind.baseVersion], d) then d.kind.baseVersion else i.version;
    UnclaimedIff(w.db.cycles, i.user, i.operation);
    DraftOperations(w.db, w.history.log, i.user, draft);
    ContinuedRows(w.db, i, draft, Claim(i.operation, ContinueRequest(i.goal, i.goalRevision, i.draftRevision)));
    ContinueShape(w, i, draft);
    if ContinueReview(w, i).answer == Created(i.cycle) {
      MovedOperations(w.db, ContinueReview(w, i).world.db, i.user, draft, i.goal, version);
    }
  }

  /** A review is continued exactly in such a state, and loses none of its Draft's texts. */
  lemma ContinueIff(cfg: Config, w: World, i: ContinueInput, draft: Id)
    requires Sound(cfg, w) && ReviewOf(w.db, i.user, i.goal, draft)
    ensures var s := ContinueReview(w, i);
            && (s.answer == Created(i.cycle) <==> ContinueOpen(w.db, i, draft))
            && (if s.answer == Created(i.cycle)
                then i.goal in w.db.goals && w.db.drafts[draft].kind.baseVersion in w.db.versions &&
                     ContinueMakes(w.db, i, draft, s.world.db)
                else s.world == w)
  {
    ReviewStands(w.db, i.user, i.goal, draft);
    ContinueFrom(w, i, draft);
  }

  lemma ContinueNotInReview(w: World, i: ContinueInput)
    requires OwnsGoal(w.db, i.user, i.goal) ==> w.db.goals[i.goal].status != GoalReview
    ensures ContinueReview(w, i).answer != Created(i.cycle) && ContinueReview(w, i).world == w
  {
  }

  /** Without a Review Draft there is nothing to continue. */
  lemma ContinueNeedsReview(cfg: Config, w: World, i: ContinueInput)
    requires Sound(cfg, w) && forall d :: d in w.db.drafts ==> !ReviewOf(w.db, i.user, i.goal, d)
    ensures ContinueReview(w, i).answer != Created(i.cycle) && ContinueReview(w, i).world == w
  {
    if OwnsGoal(w.db, i.user, i.goal) {
      NoReview(w.db, i.user, i.goal);
    }
    ContinueNotInReview(w, i);
  }

  // Terminating.

  predicate Unterminated(goals: map<Id, Goal>, user: Id, operation: Id) {
    forall g :: g in goals && goals[g].user == user && goals[g].terminal.Some? ==>
      goals[g].terminal.value.operation != operation
  }

  lemma UnterminatedIff(goals: map<Id, Goal>, user: Id, operation: Id)
    ensures Lookup(goals, TerminalKey, (user, operation)).None? <==> Unterminated(goals, user, operation)
  {
    if !Unterminated(goals, user, operation) {
      var g :| g in goals && goals[g].user == user && goals[g].terminal.Some? &&
               goals[g].terminal.value.operation == operation;
      assert TerminalKey(goals[g]) == Some((user, operation));
    }
    var found := Lookup(goals, TerminalKey, (user, operation));
    if found.Some? {
      assert goals[found.value].terminal.value.operation == operation;
    }
  }

  /** The request is one that can be asked: an outcome that ends, and what belongs to the state it names. */
  predicate Askable(i: TerminateInput) {
    && (i.outcome == Achieved || i.outcome == Ended)
    && if i.state == ActiveCycle then i.cycle.Some? && i.cycleRevision.Some? && !i.discard
       else i.state == GoalReview && i.cycle.None? && i.cycleRevision.None?
  }

  function EndClaim(i: TerminateInput): Claim {
    Claim(i.operation,
          TerminateRequest(i.goal, i.outcome, i.state, i.goalRevision, i.cycle, i.cycleRevision, i.discard))
  }

  /** The Goal has ended as asked, at that time, by that command. */
  predicate EndsGoal(db: Db, i: TerminateInput, x: Db)
    requires i.goal in db.goals
  {
    var g := db.goals[i.goal];
    x.goals == db.goals[i.goal := g.(status := i.outcome, revision := g.revision + 1, terminalAt := Some(i.now),
                                     terminal := Some(EndClaim(i)))]
  }

  lemma EndedRow(g: Goal, i: TerminateInput)
    requires g.status == ActiveCycle || g.status == GoalReview
    requires i.outcome == Achieved || i.outcome == Ended
    ensures GoalDomain.Terminate(g, i.outcome, EndClaim(i), i.now) ==
              Ok(g.(status := i.outcome, revision := g.revision + 1, terminalAt := Some(i.now),
                    terminal := Some(EndClaim(i))))
  {
  }

  predicate EndCycleOpen(db: Db, i: TerminateInput) {
    && Askable(i) && i.state == ActiveCycle && Unterminated(db.goals, i.user, i.operation)
    && OwnsCycle(db, i.user, i.goal, i.cycle.value) && i.goal in db.goals
    && var c := db.cycles[i.cycle.value];
    && c.status == Active && db.goals[i.goal].revision == i.goalRevision && c.revisions.content == i.cycleRevision.value
    && GoalIdle(db.generations, i.goal)
  }

  /** The running Cycle is canceled for the very reason the Goal ends. */
  predicate EndCycleMakes(db: Db, i: TerminateInput, x: Db)
    requires i.goal in db.goals && i.cycle.Some? && i.cycle.value in db.cycles
  {
    var c := db.cycles[i.cycle.value];
    && EndsGoal(db, i, x)
    && x.cycles == db.cycles[i.cycle.value := c.(status := Canceled, canceledAt := Some(i.now),
           reason := Some(if i.outcome == Achieved then GoalAchieved else Reason.GoalEnded))]
    && x.versions == db.versions && x.drafts == db.drafts && KeepsOperations(db, x)
  }

  /** Whoever runs for a Goal runs for its owner. */
  lemma RunsOnGoalIff(db: Db, log: map<Id, Entry>, user: Id, goal: Id)
    requires TargetsInv(db, log) && OwnsGoal(db, user, goal)
    ensures RunsOnGoal(db.generations, user, goal) <==> !GoalIdle(db.generations, goal)
  {
    forall id | id in db.generations && db.generations[id].goal == Some(goal) ensures db.generations[id].user == user {
      assert Aims(id, db.generations[id], db, log);
    }
  }

  lemma EndCycleShape(w: World, i: TerminateInput)
    requires i.state == ActiveCycle && i.cycle.Some? && Stands(w.db, i.user, i.goal, i.cycle.value)
    ensures var s, x, c, g := Terminate(w, i), Terminate(w, i).world.db, w.db.cycles[i.cycle.value], w.db.goals[i.goal];
            && (s.answer == Done <==>
                  && TerminateInputValid(i) && Lookup(w.db.goals, TerminalKey, (i.user, i.operation)).None?
                  && g.revision == i.goalRevision && c.revisions.content == i.cycleRevision.value
                  && !RunsOnGoal(w.db.generations, i.user, i.goal))
            && (s.answer != Done ==> s.world == w)
            && (s.answer == Done ==>
                  && x.cycles == w.db.cycles[i.cycle.value := CycleDomain.Cancel(c, ReasonOf(i.outcome), i.now).value]
                  && x.goals == w.db.goals[i.goal := GoalDomain.Terminate(g, i.outcome, EndClaim(i), i.now).value]
                  && x.versions == w.db.versions && x.drafts == w.db.drafts && KeepsOperations(w.db, x))
  {
  }

  lemma AskableIff(i: TerminateInput)
    ensures TerminateInputValid(i) <==> Askable(i)
  {
  }

  lemma CanceledRow(c: Cycle, outcome: GoalStatus, now: int)
    requires c.status == Active && (outcome == Achieved || outcome == Ended)
    ensures CycleDomain.Cancel(c, ReasonOf(outcome), now) ==
              Ok(c.(status := Canceled, canceledAt := Some(now),
                    reason := Some(if outcome == Achieved then GoalAchieved else Reason.GoalEnded)))
  {
  }

  lemma EndCycleFrom(w: World, i: TerminateInput)
    requires i.state == ActiveCycle && i.cycle.Some? && Stands(w.db, i.user, i.goal, i.cycle.value)
    requires TargetsInv(w.db, w.history.log)
    ensures var s := Terminate(w, i);
            && (s.answer == Done <==> EndCycleOpen(w.db, i))
            && (if s.answer == Done then EndCycleMakes(w.db, i, s.world.db) else s.world == w)
  {
    AskableIff(i);
    UnterminatedIff(w.db.goals, i.user, i.operation);
    RunsOnGoalIff(w.db, w.history.log, i.user, i.goal);
    EndCycleShape(w, i);
    if Terminate(w, i).answer == Done {
      CanceledRow(w.db.cycles[i.cycle.value], i.outcome, i.now);
      EndedRow(w.db.goals[i.goal], i);
    }
  }

  lemma EndCycleElse(w: World, i: TerminateInput)
    requires i.state == ActiveCycle
    requires i.cycle.None? || !OwnsCycle(w.db, i.user, i.goal, i.cycle.value) ||
             w.db.cycles[i.cycle.value].status != Active
    ensures Terminate(w, i).answer != Done && Terminate(w, i).world == w
  {
  }

  /** A Goal in a Cycle is ended exactly in such a state. */
  lemma EndCycleIff(cfg: Config, w: World, i: TerminateInput)
    requires Sound(cfg, w) && i.state == ActiveCycle
    ensures var s := Terminate(w, i);
            && (s.answer == Done <==> EndCycleOpen(w.db, i))
            && (if s.answer == Done
                then i.goal in w.db.goals && i.cycle.Some? && i.cycle.value in w.db.cycles &&
                     EndCycleMakes(w.db, i, s.world.db)
                else s.world == w)
  {
    if i.cycle.Some? && OwnsCycle(w.db, i.user, i.goal, i.cycle.value) &&
      w.db.cycles[i.cycle.value].status == Active
    {
      ActiveStands(w.db, i.user, i.goal, i.cycle.value);
      EndCycleFrom(w, i);
    } else {
      EndCycleElse(w, i);
    }
  }

  /** A review is ended unread only if that is asked for, or there is nothing to lose. */
  predicate EndReviewOpen(db: Db, i: TerminateInput, draft: Id)
    requires ReviewOf(db, i.user, i.goal, draft)
  {
    && Askable(i) && i.state == GoalReview && Unterminated(db.goals, i.user, i.operation)
    && i.goal in db.goals && db.goals[i.goal].revision == i.goalRevision && DraftIdle(db.generations, draft)
    && var d := db.drafts[draft];
    && d.kind.baseVersion in db.versions && (i.discard || TextsAgree(db.versions[d.kind.baseVersion], d))
  }

  lemma EndReviewShape(w: World, i: TerminateInput, draft: Id)
    requires i.state == GoalReview && Reviewed(w.db, i.user, i.goal, draft)
    ensures var s, x, d, g := Terminate(w, i), Terminate(w, i).world.db, w.db.drafts[draft], w.db.goals[i.goal];
            && (s.answer == Done <==>
                  && TerminateInputValid(i) && Lookup(w.db.goals, TerminalKey, (i.user, i.operation)).None?
                  && g.revision == i.goalRevision && !RunsOnDraft(w.db.generations, draft)
                  && NormalizeSignal(d.signal).Ok?
                  && (i.discard || !GoalDomain.Differs(w.db.versions[d.kind.baseVersion], d.body,
                                                       NormalizeSignal(d.signal).value)))
            && (s.answer != Done ==> s.world == w)
            && (s.answer == Done ==>
                  && var ids := GenerationsOfDraft(w.db.generations, i.user, draft);
                  && x.goals == w.db.goals[i.goal := GoalDomain.Terminate(g, i.outcome, EndClaim(i), i.now).value]
                  && x.versions == w.db.versions && x.cycles == w.db.cycles && x.drafts == Without(w.db.drafts, {draft})
                  && x.generations == Without(w.db.generations, ids)
                  && x.usages == DropUsages(w.db.usages, ids, i.now) && KeepsOthers(w.db, x))
  {
  }

  lemma EndReviewFrom(w: World, i: TerminateInput, draft: Id)
    requires i.state == GoalReview && Reviewed(w.db, i.user, i.goal, draft)
    requires TargetsInv(w.db, w.history.log) && RowsFit(w.db, w.history.log)
    ensures var s := Terminate(w, i);
            && (s.answer == Done <==> EndReviewOpen(w.db, i, draft))
            && (if s.answer == Done
                then EndsGoal(w.db, i, s.world.db) && TakesOperations(w.db, s.world.db, draft, i.now) &&
                     s.world.db.versions == w.db.versions && s.world.db.cycles == w.db.cycles &&
                     KeepsOthers(w.db, s.world.db)
                else s.world == w)
  {
    var d := w.db.drafts[draft];
    AskableIff(i);
    UnterminatedIff(w.db.goals, i.user, i.operation);
    DraftOperations(w.db, w.history.log, i.user, draft);
    NormalizeSignalFixpoint(d.signal);
    TextsDiffer(w.db.versions[d.kind.baseVersion], d);
    EndReviewShape(w, i, draft);
    if Terminate(w, i).answer == Done {
      EndedRow(w.db.goals[i.goal], i);
      TakenOperations(w.db, w.history.log, Terminate(w, i).world.db, i.user, draft, i.now);
    }
  }

  /** A Goal in review is ended exactly in such a state. */
  lemma EndReviewIff(cfg: Config, w: World, i: TerminateInput, draft: Id)
    requires Sound(cfg, w) && i.state == GoalReview && ReviewOf(w.db, i.user, i.goal, draft)
    ensures var s := Terminate(w, i);
            && (s.answer == Done <==> EndReviewOpen(w.db, i, draft))
            && (if s.answer == Done
                then i.goal in w.db.goals && EndsGoal(w.db, i, s.world.db) &&
                     TakesOperations(w.db, s.world.db, draft, i.now) &&
                     s.world.db.versions == w.db.versions && s.world.db.cycles == w.db.cycles &&
                     KeepsOthers(w.db, s.world.db)
                else s.world == w)
  {
    ReviewStands(w.db, i.user, i.goal, draft);
    EndReviewFrom(w, i, draft);
  }

  lemma EndNotInReview(w: World, i: TerminateInput)
    requires i.state == GoalReview && (OwnsGoal(w.db, i.user, i.goal) ==> w.db.goals[i.goal].status != GoalReview)
    ensures Terminate(w, i).answer != Done && Terminate(w, i).world == w
  {
  }

  lemma EndReviewNeedsReview(cfg: Config, w: World, i: TerminateInput)
    requires Sound(cfg, w) && i.state == GoalReview
             && forall d :: d in w.db.drafts ==> !ReviewOf(w.db, i.user, i.goal, d)
    ensures Terminate(w, i).answer != Done && Terminate(w, i).world == w
  {
    if OwnsGoal(w.db, i.user, i.goal) {
      NoReview(w.db, i.user, i.goal);
    }
    EndNotInReview(w, i);
  }
}
