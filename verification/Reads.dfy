/** Every row of every reachable state passes the read validators. */
module Reads {
  import opened Base
  import opened Rows
  import opened MapSum
  import opened Keys
  import opened Schema
  import opened Text
  import opened Views
  import opened Lifecycle
  import opened Soundness
  import opened MoneySteps
  import opened Runs

  /** The rows a Cycle read joins are there: its Goal, its Version, and what came before it. */
  lemma CycleRow(db: Db, cycle: Id)
    requires LifecycleInv(db) && cycle in db.cycles
    ensures var c := db.cycles[cycle];
            && c.goal in db.goals && db.goals[c.goal].user == c.user
            && CycleFits(cycle, c, db.goals[c.goal], db.versions, db.cycles)
            && VersionFits(db.versions[c.version], db.goals[c.goal])
  {
    var c := db.cycles[cycle];
    assert GoalInv(db, c.goal);
    assert CycleFits(cycle, c, db.goals[c.goal], db.versions, db.cycles);
    assert VersionFits(db.versions[c.version], db.goals[c.goal]);
  }

  lemma PredecessorRow(db: Db, cycle: Id)
    requires LifecycleInv(db) && cycle in db.cycles && db.cycles[cycle].sequence > 1
    ensures Predecessor(db, cycle).Some?
    ensures var c := db.cycles[cycle];
            var before := Predecessor(db, cycle).value;
            && before in db.cycles && db.cycles[before].goal == c.goal && db.cycles[before].sequence == c.sequence - 1
            && Follows(db.cycles[before], c, db.versions)
  {
    var c := db.cycles[cycle];
    CycleRow(db, cycle);
    assert GoalInv(db, c.goal);
    assert Has(db.cycles, CycleKey, (c.goal, c.sequence - 1));
    var before := Predecessor(db, cycle).value;
    assert NextTo(db.cycles[before], c);
  }

  /** A Cycle row joined with its own rows and its predecessor's passes. */
  lemma CycleViewPasses(db: Db, user: Id, goal: Id, cycle: Id)
    requires OwnsGoal(db, user, goal) && OwnsCycle(db, user, goal, cycle)
    requires var c := db.cycles[cycle];
             && CycleFits(cycle, c, db.goals[goal], db.versions, db.cycles)
             && VersionFits(db.versions[c.version], db.goals[goal])
             && (c.status == Active && c.sequence > 1 ==>
                   && Predecessor(db, cycle).Some?
                   && var p := db.cycles[Predecessor(db, cycle).value];
                   && p.sequence == c.sequence - 1 && Follows(p, c, db.versions) && CycleShape(p)
                   && db.versions[p.version].number >= 1)
    ensures CycleReadOk(db, user, goal, cycle)
  {
  }

  /** The Cycle read validator accepts every Cycle. */
  lemma CycleReadAccepted(db: Db, user: Id, goal: Id, cycle: Id)
    requires LifecycleInv(db) && OwnsCycle(db, user, goal, cycle)
    ensures OwnsGoal(db, user, goal) && CycleReadOk(db, user, goal, cycle)
  {
    var c := db.cycles[cycle];
    CycleRow(db, cycle);
    if c.status == Active && c.sequence > 1 {
      PredecessorRow(db, cycle);
      CycleRow(db, Predecessor(db, cycle).value);
    }
    CycleViewPasses(db, user, goal, cycle);
  }

  lemma ActiveRow(db: Db, goal: Id)
    requires LifecycleInv(db) && goal in db.goals
    ensures Lookup(db.cycles, ActiveKey, goal).Some? <==> db.goals[goal].status == ActiveCycle
    ensures db.goals[goal].status == ActiveCycle ==>
              db.cycles[Lookup(db.cycles, ActiveKey, goal).value].sequence == db.goals[goal].nextSequence - 1
  {
    assert GoalInv(db, goal);
    var g := db.goals[goal];
    if g.status == ActiveCycle {
      assert Has(db.cycles, CycleKey, (goal, g.nextSequence - 1));
      var last := Lookup(db.cycles, CycleKey, (goal, g.nextSequence - 1)).value;
      assert CycleFits(last, db.cycles[last], g, db.versions, db.cycles);
      assert ActiveKey(db.cycles[last]) == Some(goal);
    }
    var active := Lookup(db.cycles, ActiveKey, goal);
    if active.Some? {
      assert CycleFits(active.value, db.cycles[active.value], g, db.versions, db.cycles);
    }
  }

  lemma SameSequence(db: Db, a: Id, b: Id)
    requires Unique(db.cycles, CycleKey) && a in db.cycles && b in db.cycles
    requires db.cycles[a].goal == db.cycles[b].goal && db.cycles[a].sequence == db.cycles[b].sequence
    ensures a == b
  {
    assert CycleKey(db.cycles[a]) == CycleKey(db.cycles[b]);
  }

  lemma OnlyActive(db: Db, cycle: Id)
    requires LifecycleInv(db) && cycle in db.cycles && db.cycles[cycle].status == Active
    ensures Lookup(db.cycles, ActiveKey, db.cycles[cycle].goal) == Some(cycle)
    ensures db.cycles[cycle].goal in db.goals && db.goals[db.cycles[cycle].goal].status == ActiveCycle
  {
    var goal := db.cycles[cycle].goal;
    CycleRow(db, cycle);
    ActiveRow(db, goal);
    SameSequence(db, Lookup(db.cycles, ActiveKey, goal).value, cycle);
  }

  lemma ReviewRow(db: Db, goal: Id)
    requires LifecycleInv(db) && goal in db.goals
    ensures var draft := ReviewDraft(db, db.goals[goal].user, goal);
            && (draft.Some? <==> db.goals[goal].status == GoalReview)
            && (draft.Some? ==> ReviewFits(db.drafts[draft.value], db.goals[goal], db.versions, db.cycles))
  {
    assert GoalInv(db, goal);
    var draft := ReviewDraft(db, db.goals[goal].user, goal);
    if draft.Some? {
      assert ReviewFits(db.drafts[draft.value], db.goals[goal], db.versions, db.cycles);
    }
  }

  lemma CurrentRow(db: Db, goal: Id)
    requires LifecycleInv(db) && goal in db.goals
    ensures CurrentVersion(db, goal).Some? && TerminalFits(goal, db.goals[goal], db.cycles)
  {
    assert GoalInv(db, goal);
    assert Has(db.versions, VersionKey, (goal, db.goals[goal].currentVersion));
  }

  lemma GoalViewPasses(db: Db, user: Id, goal: Id)
    requires OwnsGoal(db, user, goal) && CurrentVersion(db, goal).Some? && TerminalFits(goal, db.goals[goal], db.cycles)
    requires var active, g := Lookup(db.cycles, ActiveKey, goal), db.goals[goal];
             && (active.Some? <==> g.status == ActiveCycle) && (active.Some? ==>
                   && db.cycles[active.value].sequence > 0
                   && ValidSchedule(db.cycles[active.value].reviewDate, db.cycles[active.value].scheduleRevision))
    requires var draft, g := ReviewDraft(db, user, goal), db.goals[goal];
             && (draft.Some? <==> g.status == GoalReview)
             && (draft.Some? ==> OwnsCycle(db, user, goal, db.drafts[draft.value].kind.cycle) &&
                                 db.cycles[db.drafts[draft.value].kind.cycle].sequence > 0)
    ensures GoalReadOk(db, user, goal)
  {
  }

  /** The Goal read succeeds on every Goal and shows the work its status calls for. */
  lemma GoalReadAccepted(db: Db, user: Id, goal: Id)
    requires LifecycleInv(db) && OwnsGoal(db, user, goal)
    ensures GoalReadOk(db, user, goal)
  {
    CurrentRow(db, goal);
    ActiveRow(db, goal);
    ReviewRow(db, goal);
    var draft, active := ReviewDraft(db, user, goal), Lookup(db.cycles, ActiveKey, goal);
    if draft.Some? {
      CycleRow(db, db.drafts[draft.value].kind.cycle);
    }
    if active.Some? {
      CycleRow(db, active.value);
    }
    GoalViewPasses(db, user, goal);
  }

  /** Reachable states never make a read fail. */
  lemma ReachableReads(cfg: Config, w: World, user: Id, goal: Id, cycle: Id)
    requires Reachable(cfg, w)
    ensures OwnsGoal(w.db, user, goal) ==> GoalReadOk(w.db, user, goal)
    ensures OwnsCycle(w.db, user, goal, cycle) ==> CycleReadOk(w.db, user, goal, cycle)
  {
    ReachableInv(cfg, w);
    if OwnsGoal(w.db, user, goal) {
      GoalReadAccepted(w.db, user, goal);
    }
    if OwnsCycle(w.db, user, goal, cycle) {
      CycleReadAccepted(w.db, user, goal, cycle);
    }
  }

  // The lifecycle of one Goal, spelled out.

  /** A Goal's Cycles carry the numbers 1..next-1, each once, and its Versions 1..current. */
  ghost predicate NumbersExact(db: Db, goal: Id)
    requires goal in db.goals
  {
    var g := db.goals[goal];
    && (forall n :: Has(db.cycles, CycleKey, (goal, n)) <==> 1 <= n < g.nextSequence)
    && (forall n :: Has(db.versions, VersionKey, (goal, n)) <==> 1 <= n <= g.currentVersion)
    && (forall a, b ::
          IsCycle(db, goal, a) && IsCycle(db, goal, b) && db.cycles[a].sequence == db.cycles[b].sequence ==> a == b)
    && (forall a, b ::
          IsVersion(db, goal, a) && IsVersion(db, goal, b) && db.versions[a].number == db.versions[b].number ==> a == b)
  }

  predicate IsCycle(db: Db, goal: Id, id: Id) { id in db.cycles && db.cycles[id].goal == goal }

  predicate IsVersion(db: Db, goal: Id, id: Id) { id in db.versions && db.versions[id].goal == goal }

  predicate IsActive(db: Db, goal: Id, id: Id) { IsCycle(db, goal, id) && db.cycles[id].status == Active }

  predicate IsReview(db: Db, goal: Id, id: Id) {
    id in db.drafts && db.drafts[id].kind.Review? && db.drafts[id].kind.goal == goal
  }

  /** The one piece of current work: an active Cycle, or a Review Draft on the last, completed Cycle, or nothing. */
  ghost predicate WorkExact(db: Db, goal: Id)
    requires goal in db.goals
  {
    var g := db.goals[goal];
    && (g.status == ActiveCycle <==> exists id :: IsActive(db, goal, id))
    && (g.status == GoalReview <==> exists id :: IsReview(db, goal, id))
    && (forall a, b :: IsActive(db, goal, a) && IsActive(db, goal, b) ==> a == b)
    && (forall a, b :: IsReview(db, goal, a) && IsReview(db, goal, b) ==> a == b)
    && (forall id :: IsActive(db, goal, id) ==> OnCurrent(db, goal, id))
    && (forall id :: IsReview(db, goal, id) ==> ReviewFits(db.drafts[id], g, db.versions, db.cycles))
  }

  /** The last Cycle, on the current Version. */
  predicate OnCurrent(db: Db, goal: Id, id: Id)
    requires goal in db.goals && id in db.cycles
  {
    var c := db.cycles[id];
    && c.sequence == db.goals[goal].nextSequence - 1
    && c.version in db.versions && db.versions[c.version].number == db.goals[goal].currentVersion
  }

  lemma NumbersAreExact(db: Db, goal: Id)
    requires LifecycleInv(db) && goal in db.goals
    ensures NumbersExact(db, goal)
  {
    assert GoalInv(db, goal);
    forall n | Has(db.cycles, CycleKey, (goal, n)) ensures 1 <= n < db.goals[goal].nextSequence {
      var id := Lookup(db.cycles, CycleKey, (goal, n)).value;
      assert CycleFits(id, db.cycles[id], db.goals[goal], db.versions, db.cycles);
    }
    forall n | Has(db.versions, VersionKey, (goal, n)) ensures 1 <= n <= db.goals[goal].currentVersion {
      var id := Lookup(db.versions, VersionKey, (goal, n)).value;
      assert VersionFits(db.versions[id], db.goals[goal]);
    }
    forall a, b | IsCycle(db, goal, a) && IsCycle(db, goal, b) && db.cycles[a].sequence == db.cycles[b].sequence
      ensures a == b
    {
      SameSequence(db, a, b);
    }
    forall a, b | IsVersion(db, goal, a) && IsVersion(db, goal, b) && db.versions[a].number == db.versions[b].number
      ensures a == b
    {
      assert VersionKey(db.versions[a]) == VersionKey(db.versions[b]);
    }
  }

  lemma ActiveIsExact(db: Db, goal: Id, a: Id)
    requires LifecycleInv(db) && IsActive(db, goal, a)
    ensures goal in db.goals && db.goals[goal].status == ActiveCycle
    ensures Lookup(db.cycles, ActiveKey, goal) == Some(a) && OnCurrent(db, goal, a)
  {
    CycleRow(db, a);
    OnlyActive(db, a);
  }

  lemma ReviewIsExact(db: Db, goal: Id, a: Id)
    requires LifecycleInv(db) && IsReview(db, goal, a)
    ensures goal in db.goals && db.goals[goal].status == GoalReview
    ensures ReviewFits(db.drafts[a], db.goals[goal], db.versions, db.cycles)
            && ReviewDraft(db, db.goals[goal].user, goal) == Some(a)
  {
    assert DraftRooted(db.drafts[a], db);
    assert GoalInv(db, goal);
    assert ReviewFits(db.drafts[a], db.goals[goal], db.versions, db.cycles);
    LookupFinds(db.drafts, ReviewKey, a);
  }

  lemma WorkFromRows(db: Db, goal: Id)
    requires goal in db.goals
    requires Lookup(db.cycles, ActiveKey, goal).Some? <==> db.goals[goal].status == ActiveCycle
    requires ReviewDraft(db, db.goals[goal].user, goal).Some? <==> db.goals[goal].status == GoalReview
    requires forall a: Id :: IsActive(db, goal, a) ==>
               Lookup(db.cycles, ActiveKey, goal) == Some(a) && OnCurrent(db, goal, a)
    requires forall a: Id :: IsReview(db, goal, a) ==>
               ReviewDraft(db, db.goals[goal].user, goal) == Some(a)
                 && ReviewFits(db.drafts[a], db.goals[goal], db.versions, db.cycles)
    ensures WorkExact(db, goal)
  {
    var active, draft := Lookup(db.cycles, ActiveKey, goal), ReviewDraft(db, db.goals[goal].user, goal);
    assert active.Some? ==> IsActive(db, goal, active.value);
    assert draft.Some? ==> IsReview(db, goal, draft.value);
  }

  lemma WorkIsExact(db: Db, goal: Id)
    requires LifecycleInv(db) && goal in db.goals
    ensures WorkExact(db, goal)
  {
    ActiveRow(db, goal);
    ReviewRow(db, goal);
    forall a: Id | IsActive(db, goal, a)
      ensures Lookup(db.cycles, ActiveKey, goal) == Some(a) && OnCurrent(db, goal, a)
    {
      ActiveIsExact(db, goal, a);
    }
    forall a: Id | IsReview(db, goal, a)
      ensures ReviewDraft(db, db.goals[goal].user, goal) == Some(a)
              && ReviewFits(db.drafts[a], db.goals[goal], db.versions, db.cycles)
    {
      ReviewIsExact(db, goal, a);
    }
    WorkFromRows(db, goal);
  }

  /** The lifecycle of every Goal in every reachable state. */
  lemma ReachableLifecycle(cfg: Config, w: World, goal: Id)
    requires Reachable(cfg, w) && goal in w.db.goals
    ensures NumbersExact(w.db, goal) && WorkExact(w.db, goal)
    ensures var g := w.db.goals[goal];
            g.revision == (g.nextSequence - 2) + Sum(w.db.cycles, CompletedOf(goal)) +
              (if Progressing(g.status) then 0 else 1)
    ensures Sum(w.db.goals, ProgressingOf(w.db.goals[goal].user)) <= cfg.goalLimit
  {
    ReachableInv(cfg, w);
    NumbersAreExact(w.db, goal);
    WorkIsExact(w.db, goal);
    assert GoalInv(w.db, goal);
    assert WithinGoalLimit(cfg.goalLimit, w.db.goals, w.db.goals[goal].user);
  }
}
