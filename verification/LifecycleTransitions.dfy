/** The five transitions of a Goal, as the use cases write them, keep the lifecycle. */
module LifecycleTransitions {
  import opened Base
  import opened Rows
  import opened MapSum
  import opened Keys
  import opened Schema
  import opened Text
  import opened Views
  import opened Lifecycle
  import opened LifecycleSteps
  import CycleDomain
  import GoalDomain

  // Completing the running Cycle.

  function AfterComplete(db: Db, goal: Id, g: Goal, cycle: Id, c: Cycle, draft: Id, d: Draft): Db {
    db.(goals := db.goals[goal := g], cycles := db.cycles[cycle := c], drafts := db.drafts[draft := d])
  }

  /** What the use case has checked before it completes a Cycle. */
  ghost predicate Completes(db: Db, goal: Id, g: Goal, cycle: Id, c: Cycle, draft: Id, d: Draft) {
    && goal in db.goals && cycle in db.cycles && db.cycles[cycle].goal == goal && draft !in db.drafts
    && GoalDomain.EnterReview(db.goals[goal]) == Ok(g)
    && var o := db.cycles[cycle];
    && o.status == Active && !CycleDomain.FramesMissing(o)
    && c.completion.Some? && c.completedAt.Some? && CompletionFits(cycle, c)
    && c == o.(status := Completed, completedAt := c.completedAt, completion := c.completion)
    && !Has(db.cycles, CompletionKey, (c.user, c.completion.value.operation))
    && c.version in db.versions
    && d == Draft(c.user, Review(goal, c.version, cycle), db.versions[c.version].body, db.versions[c.version].signal, 0)
  }

  lemma CompleteAdvances(db: Db, goal: Id, g: Goal, cycle: Id, c: Cycle, draft: Id, d: Draft)
    requires Completes(db, goal, g, cycle, c, draft, d) && CyclesOf(db, goal)
    ensures Advances(db, AfterComplete(db, goal, g, cycle, c, draft, d), goal, cycle, None)
  {
    assert CycleFits(cycle, db.cycles[cycle], db.goals[goal], db.versions, db.cycles);
  }

  lemma CompleteCounts(db: Db, goal: Id, g: Goal, cycle: Id, c: Cycle, draft: Id, d: Draft)
    requires Completes(db, goal, g, cycle, c, draft, d) && TerminalFits(goal, db.goals[goal], db.cycles)
    requires RevisionFits(goal, db.goals[goal], db.cycles)
    ensures var db' := AfterComplete(db, goal, g, cycle, c, draft, d);
            TerminalFits(goal, g, db'.cycles) && RevisionFits(goal, g, db'.cycles)
  {
    SumWrite(db.cycles, cycle, c, CompletedOf(goal));
  }

  lemma CompleteFits(db: Db, goal: Id, g: Goal, cycle: Id, c: Cycle, draft: Id, d: Draft)
    requires Completes(db, goal, g, cycle, c, draft, d) && CyclesOf(db, goal) && DraftsOf(db, goal)
    ensures var db' := AfterComplete(db, goal, g, cycle, c, draft, d);
            && CycleFits(cycle, c, g, db'.versions, db'.cycles) && DraftsOf(db', goal)
            && Has(db'.drafts, ReviewKey, (g.user, goal))
  {
    var db' := AfterComplete(db, goal, g, cycle, c, draft, d);
    assert CycleFits(cycle, db.cycles[cycle], db.goals[goal], db.versions, db.cycles);
    assert ReviewKey(db'.drafts[draft]) == Some((g.user, goal));
  }

  lemma CompleteUnique(db: Db, goal: Id, g: Goal, cycle: Id, c: Cycle, draft: Id, d: Draft)
    requires Completes(db, goal, g, cycle, c, draft, d) && DraftsOf(db, goal) && UniqueRows(db)
    ensures UniqueRows(AfterComplete(db, goal, g, cycle, c, draft, d))
  {
    UniqueWrite(db.cycles, CycleKey, cycle, c);
    UniqueWrite(db.cycles, StartKey, cycle, c);
    UniqueWrite(db.cycles, CompletionKey, cycle, c);
    UniqueWrite(db.goals, TerminalKey, goal, g);
    UniqueWrite(db.drafts, CreationKey, draft, d);
    UniqueWrite(db.drafts, ReviewKey, draft, d);
  }

  lemma CompleteRooted(db: Db, goal: Id, g: Goal, cycle: Id, c: Cycle, draft: Id, d: Draft)
    requires Completes(db, goal, g, cycle, c, draft, d) && VersionsOf(db, goal) && CyclesOf(db, goal) && Rooted(db)
    ensures Rooted(AfterComplete(db, goal, g, cycle, c, draft, d))
  {
    assert CycleFits(cycle, db.cycles[cycle], db.goals[goal], db.versions, db.cycles);
    assert VersionFits(db.versions[c.version], db.goals[goal]);
  }

  lemma CompleteKeepsLifecycle(db: Db, goal: Id, g: Goal, cycle: Id, c: Cycle, draft: Id, d: Draft)
    requires LifecycleInv(db) && Completes(db, goal, g, cycle, c, draft, d)
    ensures LifecycleInv(AfterComplete(db, goal, g, cycle, c, draft, d))
  {
    assert GoalInv(db, goal);
    CompleteAdvances(db, goal, g, cycle, c, draft, d);
    CompleteFits(db, goal, g, cycle, c, draft, d);
    CompleteCounts(db, goal, g, cycle, c, draft, d);
    CompleteUnique(db, goal, g, cycle, c, draft, d);
    CompleteRooted(db, goal, g, cycle, c, draft, d);
    AdvanceKeeps(db, AfterComplete(db, goal, g, cycle, c, draft, d), goal, cycle, None);
  }

  // Replanning: the running Cycle is canceled and its successor opened on the same Version.

  function AfterReplan(db: Db, goal: Id, g: Goal, cycle: Id, c: Cycle, next: Id, n: Cycle): Db {
    db.(goals := db.goals[goal := g], cycles := db.cycles[cycle := c][next := n])
  }

  ghost predicate Replans(db: Db, goal: Id, g: Goal, cycle: Id, c: Cycle, next: Id, n: Cycle) {
    && goal in db.goals && cycle in db.cycles && db.cycles[cycle].goal == goal && next !in db.cycles
    && var o := db.cycles[cycle];
    && o.status == Active && c.canceledAt.Some?
    && c == o.(status := Canceled, canceledAt := c.canceledAt, reason := Some(Replanned))
    && g == db.goals[goal].(nextSequence := db.goals[goal].nextSequence + 1, revision := db.goals[goal].revision + 1)
    && n == CycleDomain.NewCycle(c.user, goal, c.version, db.goals[goal].nextSequence, n.start)
    && n.start.request.ReplanRequest? && n.start.request.goal == goal && n.start.request.cycle == cycle
    && !Has(db.cycles, StartKey, (c.user, n.start.operation))
  }

  lemma ReplanAdvances(db: Db, goal: Id, g: Goal, cycle: Id, c: Cycle, next: Id, n: Cycle)
    requires Replans(db, goal, g, cycle, c, next, n) && CyclesOf(db, goal)
    ensures Advances(db, AfterReplan(db, goal, g, cycle, c, next, n), goal, cycle, Some(next))
  {
    assert CycleFits(cycle, db.cycles[cycle], db.goals[goal], db.versions, db.cycles);
  }

  lemma ReplanFits(db: Db, goal: Id, g: Goal, cycle: Id, c: Cycle, next: Id, n: Cycle)
    requires Replans(db, goal, g, cycle, c, next, n)
    requires CyclesOf(db, goal) && DraftsOf(db, goal) && RevisionFits(goal, db.goals[goal], db.cycles)
    requires TerminalFits(goal, db.goals[goal], db.cycles)
    ensures var db' := AfterReplan(db, goal, g, cycle, c, next, n);
            && CycleFits(cycle, c, g, db'.versions, db'.cycles) && CycleFits(next, n, g, db'.versions, db'.cycles)
            && DraftsOf(db', goal) && TerminalFits(goal, g, db'.cycles) && RevisionFits(goal, g, db'.cycles)
  {
    assert CycleFits(cycle, db.cycles[cycle], db.goals[goal], db.versions, db.cycles);
    SumWrite(db.cycles, cycle, c, CompletedOf(goal));
    SumWrite(db.cycles[cycle := c], next, n, CompletedOf(goal));
  }

  lemma ReplanUnique(db: Db, goal: Id, g: Goal, cycle: Id, c: Cycle, next: Id, n: Cycle)
    requires Replans(db, goal, g, cycle, c, next, n) && CyclesOf(db, goal) && UniqueRows(db)
    ensures UniqueRows(AfterReplan(db, goal, g, cycle, c, next, n))
  {
    NewSequence(db, goal, cycle, c);
    var cycles := db.cycles[cycle := c];
    UniqueWrite(db.cycles, CycleKey, cycle, c);
    UniqueWrite(db.cycles, StartKey, cycle, c);
    UniqueWrite(db.cycles, CompletionKey, cycle, c);
    UniqueWrite(cycles, CycleKey, next, n);
    UniqueWrite(cycles, StartKey, next, n);
    UniqueWrite(cycles, CompletionKey, next, n);
    UniqueWrite(db.goals, TerminalKey, goal, g);
  }

  /** The next sequence number is not taken. */
  lemma NewSequence(db: Db, goal: Id, cycle: Id, c: Cycle)
    requires goal in db.goals && CyclesOf(db, goal) && cycle in db.cycles && CycleKey(c) == CycleKey(db.cycles[cycle])
    ensures !Has(db.cycles, CycleKey, (goal, db.goals[goal].nextSequence))
    ensures !Has(db.cycles[cycle := c], CycleKey, (goal, db.goals[goal].nextSequence))
  {
    forall id | id in db.cycles ensures CycleKey(db.cycles[id]) != Some((goal, db.goals[goal].nextSequence)) {
      assert db.cycles[id].goal == goal ==> CycleFits(id, db.cycles[id], db.goals[goal], db.versions, db.cycles);
    }
  }

  lemma ReplanRooted(db: Db, goal: Id, g: Goal, cycle: Id, c: Cycle, next: Id, n: Cycle)
    requires Replans(db, goal, g, cycle, c, next, n) && Rooted(db)
    ensures Rooted(AfterReplan(db, goal, g, cycle, c, next, n))
  {
  }

  lemma ReplanReady(db: Db, goal: Id, g: Goal, cycle: Id, c: Cycle, next: Id, n: Cycle)
    requires goal in db.goals && GoalInv(db, goal) && Rooted(db) && UniqueRows(db)
             && Replans(db, goal, g, cycle, c, next, n)
    ensures var db' := AfterReplan(db, goal, g, cycle, c, next, n);
            && Advances(db, db', goal, cycle, Some(next)) && AdvanceFits(db, db', goal, cycle, Some(next))
            && UniqueRows(db') && Rooted(db')
  {
    ReplanAdvances(db, goal, g, cycle, c, next, n);
    ReplanFits(db, goal, g, cycle, c, next, n);
    ReplanUnique(db, goal, g, cycle, c, next, n);
    ReplanRooted(db, goal, g, cycle, c, next, n);
  }

  lemma ReplanKeepsLifecycle(db: Db, goal: Id, g: Goal, cycle: Id, c: Cycle, next: Id, n: Cycle)
    requires LifecycleInv(db) && Replans(db, goal, g, cycle, c, next, n)
    ensures LifecycleInv(AfterReplan(db, goal, g, cycle, c, next, n))
  {
    assert GoalInv(db, goal);
    ReplanReady(db, goal, g, cycle, c, next, n);
    AdvanceKeeps(db, AfterReplan(db, goal, g, cycle, c, next, n), goal, cycle, Some(next));
  }

  // Continuing after a review: the Review Draft becomes a new Version, if it differs, and the next Cycle is opened.

  function AfterContinue(db: Db, goal: Id, g: Goal, version: Id, v: Option<Version>, next: Id, n: Cycle, draft: Id)
    : Db
  {
    db.(goals := db.goals[goal := g], versions := if v.Some? then db.versions[version := v.value] else db.versions,
        cycles := db.cycles[next := n], drafts := Without(db.drafts, {draft}))
  }

  ghost predicate Continues(db: Db, goal: Id, g: Goal, version: Id, v: Option<Version>, next: Id, n: Cycle, draft: Id) {
    && goal in db.goals && draft in db.drafts && version !in db.versions && next !in db.cycles
    && var d, o := db.drafts[draft], db.goals[goal];
    && d.kind.Review? && d.kind.goal == goal
    && (v.Some? ==>
          && v.value == Version(o.user, goal, o.currentVersion + 1, v.value.body, v.value.signal, v.value.createdBy)
          && BodyText(v.value.body) && !Blank(v.value.body) && SignalText(v.value.signal))
    && g == o.(status := ActiveCycle, revision := o.revision + 1, nextSequence := o.nextSequence + 1,
               currentVersion := if v.Some? then o.currentVersion + 1 else o.currentVersion)
    && n == CycleDomain.NewCycle(o.user, goal, if v.Some? then version else d.kind.baseVersion, o.nextSequence, n.start)
    && n.start.request.ContinueRequest? && n.start.request.goal == goal
    && !Has(db.cycles, StartKey, (o.user, n.start.operation))
  }

  lemma ContinueAdvances(db: Db, goal: Id, g: Goal, version: Id, v: Option<Version>, next: Id, n: Cycle, draft: Id)
    requires Continues(db, goal, g, version, v, next, n, draft) && DraftsOf(db, goal)
    ensures Advances(db, AfterContinue(db, goal, g, version, v, next, n, draft), goal, db.drafts[draft].kind.cycle,
                     Some(next))
  {
    assert ReviewFits(db.drafts[draft], db.goals[goal], db.versions, db.cycles);
  }

  /** A Goal has one Review Draft. */
  lemma OnlyReview(db: Db, goal: Id, draft: Id)
    requires goal in db.goals && DraftsOf(db, goal) && UniqueDrafts(db.drafts)
    requires draft in db.drafts && db.drafts[draft].kind.Review? && db.drafts[draft].kind.goal == goal
    ensures forall id :: id in db.drafts && db.drafts[id].kind.Review? && db.drafts[id].kind.goal == goal ==>
              id == draft
  {
    assert ReviewFits(db.drafts[draft], db.goals[goal], db.versions, db.cycles);
    forall id | id in db.drafts && db.drafts[id].kind.Review? && db.drafts[id].kind.goal == goal ensures id == draft {
      assert ReviewFits(db.drafts[id], db.goals[goal], db.versions, db.cycles);
      assert ReviewKey(db.drafts[id]) == ReviewKey(db.drafts[draft]);
    }
  }

  lemma ContinueFits(db: Db, goal: Id, g: Goal, version: Id, v: Option<Version>, next: Id, n: Cycle, draft: Id)
    requires Continues(db, goal, g, version, v, next, n, draft)
    requires CyclesOf(db, goal) && DraftsOf(db, goal) && UniqueDrafts(db.drafts)
    ensures var db' := AfterContinue(db, goal, g, version, v, next, n, draft);
            var last := db.drafts[draft].kind.cycle;
            && last in db.cycles && Follows(db'.cycles[last], n, db'.versions)
            && CycleFits(last, db'.cycles[last], g, db'.versions, db'.cycles)
            && CycleFits(next, n, g, db'.versions, db'.cycles)
            && DraftsOf(db', goal)
  {
    var last := db.drafts[draft].kind.cycle;
    assert ReviewFits(db.drafts[draft], db.goals[goal], db.versions, db.cycles);
    assert CycleFits(last, db.cycles[last], db.goals[goal], db.versions, db.cycles);
    OnlyReview(db, goal, draft);
  }

  lemma ContinueCounts(db: Db, goal: Id, g: Goal, version: Id, v: Option<Version>, next: Id, n: Cycle, draft: Id)
    requires Continues(db, goal, g, version, v, next, n, draft) && DraftsOf(db, goal)
    requires RevisionFits(goal, db.goals[goal], db.cycles) && TerminalFits(goal, db.goals[goal], db.cycles)
    ensures var db' := AfterContinue(db, goal, g, version, v, next, n, draft);
            && RevisionFits(goal, g, db'.cycles) && TerminalFits(goal, g, db'.cycles)
            && (v.Some? ==> VersionFits(v.value, g) && Has(db'.versions, VersionKey, (goal, g.currentVersion)))
  {
    var db' := AfterContinue(db, goal, g, version, v, next, n, draft);
    assert ReviewFits(db.drafts[draft], db.goals[goal], db.versions, db.cycles);
    SumWrite(db.cycles, next, n, CompletedOf(goal));
    if v.Some? {
      assert VersionKey(db'.versions[version]) == Some((goal, g.currentVersion));
    }
  }

  lemma ContinueUnique(db: Db, goal: Id, g: Goal, version: Id, v: Option<Version>, next: Id, n: Cycle, draft: Id)
    requires Continues(db, goal, g, version, v, next, n, draft)
    requires VersionsOf(db, goal) && CyclesOf(db, goal) && DraftsOf(db, goal) && UniqueRows(db)
    ensures UniqueRows(AfterContinue(db, goal, g, version, v, next, n, draft))
  {
    var db' := AfterContinue(db, goal, g, version, v, next, n, draft);
    var last := db.drafts[draft].kind.cycle;
    assert ReviewFits(db.drafts[draft], db.goals[goal], db.versions, db.cycles);
    NewSequence(db, goal, last, db.cycles[last]);
    UniqueWrite(db.cycles, CycleKey, next, n);
    UniqueWrite(db.cycles, StartKey, next, n);
    UniqueWrite(db.cycles, CompletionKey, next, n);
    UniqueWrite(db.goals, TerminalKey, goal, g);
    UniqueShrink(db.drafts, db'.drafts, CreationKey);
    UniqueShrink(db.drafts, db'.drafts, ReviewKey);
    if v.Some? {
      NewNumber(db, goal);
      UniqueWrite(db.versions, VersionKey, version, v.value);
    }
  }

  lemma NewNumber(db: Db, goal: Id)
    requires goal in db.goals && VersionsOf(db, goal)
    ensures !Has(db.versions, VersionKey, (goal, db.goals[goal].currentVersion + 1))
  {
    forall id | id in db.versions
      ensures VersionKey(db.versions[id]) != Some((goal, db.goals[goal].currentVersion + 1))
    {
      assert db.versions[id].goal == goal ==> VersionFits(db.versions[id], db.goals[goal]);
    }
  }

  lemma ContinueRooted(db: Db, goal: Id, g: Goal, version: Id, v: Option<Version>, next: Id, n: Cycle, draft: Id)
    requires Continues(db, goal, g, version, v, next, n, draft) && Rooted(db)
    ensures Rooted(AfterContinue(db, goal, g, version, v, next, n, draft))
  {
  }

  lemma ContinueReady(db: Db, goal: Id, g: Goal, version: Id, v: Option<Version>, next: Id, n: Cycle, draft: Id)
    requires Continues(db, goal, g, version, v, next, n, draft) && GoalInv(db, goal) && UniqueRows(db)
    ensures var db', last := AfterContinue(db, goal, g, version, v, next, n, draft), db.drafts[draft].kind.cycle;
            Advances(db, db', goal, last, Some(next)) && AdvanceFits(db, db', goal, last, Some(next))
  {
    ContinueAdvances(db, goal, g, version, v, next, n, draft);
    ContinueFits(db, goal, g, version, v, next, n, draft);
    ContinueCounts(db, goal, g, version, v, next, n, draft);
  }

  lemma ContinueKeepsLifecycle(db: Db, goal: Id, g: Goal, version: Id, v: Option<Version>, next: Id, n: Cycle,
                               draft: Id)
    requires LifecycleInv(db) && Continues(db, goal, g, version, v, next, n, draft)
    ensures LifecycleInv(AfterContinue(db, goal, g, version, v, next, n, draft))
  {
    var db' := AfterContinue(db, goal, g, version, v, next, n, draft);
    assert GoalInv(db, goal);
    ContinueReady(db, goal, g, version, v, next, n, draft);
    ContinueUnique(db, goal, g, version, v, next, n, draft);
    ContinueRooted(db, goal, g, version, v, next, n, draft);
    AdvanceKeeps(db, db', goal, db.drafts[draft].kind.cycle, Some(next));
  }

  // Terminating.

  predicate Ends(id: Id, o: Goal, g: Goal) {
    && Progressing(o.status) && !Progressing(g.status) && g.terminal.Some? && g.terminalAt.Some?
    && g == o.(status := g.status, revision := o.revision + 1, terminalAt := g.terminalAt, terminal := g.terminal)
    && var r := g.terminal.value.request;
    r.TerminateRequest? && r.goal == id && r.outcome == g.status && r.goalRevision == o.revision
  }

  function AfterTerminateActive(db: Db, goal: Id, g: Goal, cycle: Id, c: Cycle): Db {
    db.(goals := db.goals[goal := g], cycles := db.cycles[cycle := c])
  }

  ghost predicate TerminatesActive(db: Db, goal: Id, g: Goal, cycle: Id, c: Cycle) {
    && goal in db.goals && cycle in db.cycles && db.cycles[cycle].goal == goal && Ends(goal, db.goals[goal], g)
    && db.cycles[cycle].status == Active && g.terminal.value.request.activeCycle == Some(cycle)
    && c == db.cycles[cycle].(status := Canceled, canceledAt := g.terminalAt, reason := Some(ReasonOf(g.status)))
    && !Has(db.goals, TerminalKey, (g.user, g.terminal.value.operation))
  }

  lemma TerminateActiveFits(db: Db, goal: Id, g: Goal, cycle: Id, c: Cycle)
    requires TerminatesActive(db, goal, g, cycle, c)
    requires CyclesOf(db, goal) && DraftsOf(db, goal) && RevisionFits(goal, db.goals[goal], db.cycles)
    ensures var db' := AfterTerminateActive(db, goal, g, cycle, c);
            && CycleFits(cycle, c, g, db'.versions, db'.cycles) && DraftsOf(db', goal)
            && TerminalFits(goal, g, db'.cycles) && RevisionFits(goal, g, db'.cycles)
  {
    assert CycleFits(cycle, db.cycles[cycle], db.goals[goal], db.versions, db.cycles);
    SumWrite(db.cycles, cycle, c, CompletedOf(goal));
  }

  lemma TerminateActiveAdvances(db: Db, goal: Id, g: Goal, cycle: Id, c: Cycle)
    requires TerminatesActive(db, goal, g, cycle, c) && CyclesOf(db, goal)
    ensures Advances(db, AfterTerminateActive(db, goal, g, cycle, c), goal, cycle, None)
  {
    assert CycleFits(cycle, db.cycles[cycle], db.goals[goal], db.versions, db.cycles);
  }

  lemma TerminateActiveUnique(db: Db, goal: Id, g: Goal, cycle: Id, c: Cycle)
    requires TerminatesActive(db, goal, g, cycle, c) && UniqueRows(db)
    ensures UniqueRows(AfterTerminateActive(db, goal, g, cycle, c))
  {
    UniqueWrite(db.cycles, CycleKey, cycle, c);
    UniqueWrite(db.cycles, StartKey, cycle, c);
    UniqueWrite(db.cycles, CompletionKey, cycle, c);
    UniqueWrite(db.goals, TerminalKey, goal, g);
  }

  lemma TerminateActiveRooted(db: Db, goal: Id, g: Goal, cycle: Id, c: Cycle)
    requires TerminatesActive(db, goal, g, cycle, c) && Rooted(db)
    ensures Rooted(AfterTerminateActive(db, goal, g, cycle, c))
  {
  }

  lemma TerminateActiveKeepsLifecycle(db: Db, goal: Id, g: Goal, cycle: Id, c: Cycle)
    requires LifecycleInv(db) && TerminatesActive(db, goal, g, cycle, c)
    ensures LifecycleInv(AfterTerminateActive(db, goal, g, cycle, c))
  {
    assert GoalInv(db, goal);
    TerminateActiveFits(db, goal, g, cycle, c);
    TerminateActiveAdvances(db, goal, g, cycle, c);
    TerminateActiveUnique(db, goal, g, cycle, c);
    TerminateActiveRooted(db, goal, g, cycle, c);
    AdvanceKeeps(db, AfterTerminateActive(db, goal, g, cycle, c), goal, cycle, None);
  }

  function AfterTerminateReview(db: Db, goal: Id, g: Goal, draft: Id): Db {
    db.(goals := db.goals[goal := g], drafts := Without(db.drafts, {draft}))
  }

  ghost predicate TerminatesReview(db: Db, goal: Id, g: Goal, draft: Id) {
    && goal in db.goals && draft in db.drafts && db.drafts[draft].kind.Review? && db.drafts[draft].kind.goal == goal
    && Ends(goal, db.goals[goal], g) && g.terminal.value.request.activeCycle == None
    && !Has(db.goals, TerminalKey, (g.user, g.terminal.value.operation))
  }

  lemma TerminateReviewAdvances(db: Db, goal: Id, g: Goal, draft: Id)
    requires TerminatesReview(db, goal, g, draft) && DraftsOf(db, goal)
    ensures Advances(db, AfterTerminateReview(db, goal, g, draft), goal, db.drafts[draft].kind.cycle, None)
  {
    assert ReviewFits(db.drafts[draft], db.goals[goal], db.versions, db.cycles);
  }

  lemma TerminateReviewFits(db: Db, goal: Id, g: Goal, draft: Id)
    requires TerminatesReview(db, goal, g, draft) && UniqueDrafts(db.drafts)
    requires CyclesOf(db, goal) && DraftsOf(db, goal) && RevisionFits(goal, db.goals[goal], db.cycles)
    ensures var db' := AfterTerminateReview(db, goal, g, draft);
            var last := db.drafts[draft].kind.cycle;
            && last in db'.cycles && CycleFits(last, db'.cycles[last], g, db'.versions, db'.cycles)
            && DraftsOf(db', goal) && TerminalFits(goal, g, db'.cycles) && RevisionFits(goal, g, db'.cycles)
  {
    var last := db.drafts[draft].kind.cycle;
    assert ReviewFits(db.drafts[draft], db.goals[goal], db.versions, db.cycles);
    assert CycleFits(last, db.cycles[last], db.goals[goal], db.versions, db.cycles);
    OnlyReview(db, goal, draft);
  }

  lemma TerminateReviewUnique(db: Db, goal: Id, g: Goal, draft: Id)
    requires TerminatesReview(db, goal, g, draft) && UniqueRows(db)
    ensures UniqueRows(AfterTerminateReview(db, goal, g, draft))
  {
    var drafts := Without(db.drafts, {draft});
    UniqueShrink(db.drafts, drafts, CreationKey);
    UniqueShrink(db.drafts, drafts, ReviewKey);
    UniqueWrite(db.goals, TerminalKey, goal, g);
  }

  lemma TerminateReviewRooted(db: Db, goal: Id, g: Goal, draft: Id)
    requires TerminatesReview(db, goal, g, draft) && Rooted(db)
    ensures Rooted(AfterTerminateReview(db, goal, g, draft))
  {
  }

  lemma TerminateReviewKeepsLifecycle(db: Db, goal: Id, g: Goal, draft: Id)
    requires LifecycleInv(db) && TerminatesReview(db, goal, g, draft)
    ensures LifecycleInv(AfterTerminateReview(db, goal, g, draft))
  {
    assert GoalInv(db, goal);
    TerminateReviewAdvances(db, goal, g, draft);
    TerminateReviewFits(db, goal, g, draft);
    TerminateReviewUnique(db, goal, g, draft);
    TerminateReviewRooted(db, goal, g, draft);
    AdvanceKeeps(db, AfterTerminateReview(db, goal, g, draft), goal, db.drafts[draft].kind.cycle, None);
  }
}
