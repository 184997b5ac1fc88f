/** What every reachable state says about Goals, Versions, Cycles and Drafts. */
module Lifecycle {
  import opened Base
  import opened Rows
  import opened MapSum
  import opened Keys
  import opened Schema
  import opened Text
  import opened Views
  import CycleDomain

  /** A Cycle row on its own: its revisions add up, its texts are storable, its status and times agree. */
  predicate CycleShape(c: Cycle) {
    && ValidRevisions(c) && ValidStatusTimes(c) && ValidSchedule(c.reviewDate, c.scheduleRevision)
    && FrameText(c.plan) && FrameText(c.doing) && FrameText(c.check) && FrameText(c.action)
    && (c.status == Completed <==> c.completion.Some?)
    && (c.status == Completed ==> !CycleDomain.FramesMissing(c))
  }

  /** A completion can be repeated by the command that made it, and only by that. */
  predicate CompletionFits(id: Id, c: Cycle) {
    c.completion.Some? ==>
      var r := c.completion.value.request;
      r.CompleteRequest? && r.goal == c.goal && r.cycle == id
  }

  /** How a Cycle was started says what came before it. */
  predicate StartFits(c: Cycle, cycles: map<Id, Cycle>) {
    match c.start.request
    case StartRequest(_, _) => c.sequence == 1
    case ContinueRequest(goal, _, _) => goal == c.goal
    case ReplanRequest(goal, cycle, _, _, _) =>
      && goal == c.goal && cycle in cycles && cycles[cycle].goal == c.goal
      && cycles[cycle].sequence + 1 == c.sequence && cycles[cycle].reason == Some(Replanned)
    case _ => false
  }

  predicate VersionFits(v: Version, g: Goal) {
    && v.user == g.user && 1 <= v.number <= g.currentVersion
    && BodyText(v.body) && !Blank(v.body) && SignalText(v.signal)
  }

  /** The Cycle that runs is the Goal's last one, on its current Version. */
  predicate CycleFits(id: Id, c: Cycle, g: Goal, versions: map<Id, Version>, cycles: map<Id, Cycle>) {
    && c.user == g.user && 1 <= c.sequence < g.nextSequence
    && c.version in versions && versions[c.version].goal == c.goal
    && (c.status == Active <==> g.status == ActiveCycle && c.sequence == g.nextSequence - 1)
    && (c.status == Active ==> versions[c.version].number == g.currentVersion)
    && CycleShape(c) && CompletionFits(id, c) && StartFits(c, cycles)
  }

  /** A Review Draft is based on the current Version and triggered by the last Cycle, which is completed. */
  predicate ReviewFits(d: Draft, g: Goal, versions: map<Id, Version>, cycles: map<Id, Cycle>)
    requires d.kind.Review?
  {
    var version, cycle := d.kind.baseVersion, d.kind.cycle;
    && g.user == d.user && g.status == GoalReview
    && version in versions && versions[version].goal == d.kind.goal && versions[version].number == g.currentVersion
    && cycle in cycles && cycles[cycle].goal == d.kind.goal && cycles[cycle].version == version
    && cycles[cycle].sequence == g.nextSequence - 1 && cycles[cycle].status == Completed
  }

  /** A terminated Goal remembers the command that ended it, and what that command canceled. */
  predicate TerminalFits(id: Id, g: Goal, cycles: map<Id, Cycle>) {
    && (g.terminal.Some? <==> !Progressing(g.status))
    && (g.terminalAt.Some? <==> !Progressing(g.status))
    && (g.terminal.Some? ==>
          var r := g.terminal.value.request;
          && r.TerminateRequest? && r.goal == id && r.outcome == g.status && r.goalRevision + 1 == g.revision
          && (r.activeCycle.Some? ==>
                && r.activeCycle.value in cycles
                && var c := cycles[r.activeCycle.value];
                c.goal == id && c.status == Canceled && c.canceledAt == g.terminalAt
                  && c.reason == Some(ReasonOf(g.status))))
  }

  /** Versions are numbered 1..current and Cycles 1..next-1, without gaps; a Goal in review has its Draft. */
  ghost predicate Numbered(id: Id, g: Goal, db: Db) {
    && 1 <= g.currentVersion && 2 <= g.nextSequence
    && (forall n :: 1 <= n <= g.currentVersion ==> Has(db.versions, VersionKey, (id, n)))
    && (forall n :: 1 <= n < g.nextSequence ==> Has(db.cycles, CycleKey, (id, n)))
    && (g.status == GoalReview ==> Has(db.drafts, ReviewKey, (g.user, id)))
  }

  predicate VersionsOf(db: Db, goal: Id)
    requires goal in db.goals
  {
    forall id :: id in db.versions && db.versions[id].goal == goal ==> VersionFits(db.versions[id], db.goals[goal])
  }

  predicate CyclesOf(db: Db, goal: Id)
    requires goal in db.goals
  {
    forall id :: id in db.cycles && db.cycles[id].goal == goal ==>
      CycleFits(id, db.cycles[id], db.goals[goal], db.versions, db.cycles)
  }

  predicate DraftsOf(db: Db, goal: Id)
    requires goal in db.goals
  {
    forall id :: id in db.drafts && db.drafts[id].kind.Review? && db.drafts[id].kind.goal == goal ==>
      ReviewFits(db.drafts[id], db.goals[goal], db.versions, db.cycles)
  }

  /** What a Cycle may follow: a completed one, at most one Version back, or a replanned one on the same Version. */
  predicate Follows(p: Cycle, c: Cycle, versions: map<Id, Version>) {
    && p.version in versions && c.version in versions
    && (|| (p.status == Completed
            && versions[p.version].number <= versions[c.version].number <= versions[p.version].number + 1)
        || (p.status == Canceled && p.reason == Some(Replanned) && p.version == c.version))
  }

  predicate NextTo(p: Cycle, c: Cycle) { p.goal == c.goal && p.sequence + 1 == c.sequence }

  predicate ChainOf(db: Db, goal: Id) {
    forall a, c {:trigger NextTo(db.cycles[a], db.cycles[c])} ::
      a in db.cycles && c in db.cycles && db.cycles[a].goal == goal && NextTo(db.cycles[a], db.cycles[c]) ==>
        Follows(db.cycles[a], db.cycles[c], db.versions)
  }

  ghost function CompletedOf(goal: Id): Cycle -> int {
    (c: Cycle) => if c.goal == goal && c.status == Completed then 1 else 0
  }

  /** The revision of a Goal counts its transitions. */
  ghost predicate RevisionFits(id: Id, g: Goal, cycles: map<Id, Cycle>) {
    g.revision == g.nextSequence - 2 + Sum(cycles, CompletedOf(id)) + (if Progressing(g.status) then 0 else 1)
  }

  /** Everything about one Goal. */
  ghost predicate GoalInv(db: Db, goal: Id)
    requires goal in db.goals
  {
    && Numbered(goal, db.goals[goal], db) && TerminalFits(goal, db.goals[goal], db.cycles)
    && VersionsOf(db, goal) && CyclesOf(db, goal) && DraftsOf(db, goal) && ChainOf(db, goal)
    && RevisionFits(goal, db.goals[goal], db.cycles)
  }

  /** Every row belongs to a User and a Goal that exist. */
  predicate Rooted(db: Db) {
    && (forall id :: id in db.goals ==> db.goals[id].user in db.users)
    && (forall id :: id in db.versions ==> db.versions[id].goal in db.goals)
    && (forall id :: id in db.cycles ==> db.cycles[id].goal in db.goals)
    && (forall id :: id in db.drafts ==> DraftRooted(db.drafts[id], db))
  }

  predicate DraftRooted(d: Draft, db: Db) {
    && BodyText(d.body) && SignalText(d.signal)
    && (d.kind.Review? ==> d.kind.goal in db.goals)
    && (d.kind.Creation? ==> d.user in db.users)
  }

  ghost predicate UniqueRows(db: Db) {
    UniqueVersions(db.versions) && UniqueCycles(db.cycles) && UniqueGoals(db.goals) && UniqueDrafts(db.drafts)
  }

  ghost predicate GoalsInv(db: Db) {
    forall goal :: goal in db.goals ==> GoalInv(db, goal)
  }

  ghost predicate LifecycleInv(db: Db) {
    Rooted(db) && UniqueRows(db) && GoalsInv(db)
  }

  // One Goal's rows are all that its invariant reads.

  predicate SameVersionsOf(db: Db, db': Db, goal: Id) {
    && (forall id :: id in db.versions && db.versions[id].goal == goal ==>
        id in db'.versions && db'.versions[id] == db.versions[id])
    && (forall id :: id in db'.versions && db'.versions[id].goal == goal ==>
        id in db.versions && db.versions[id] == db'.versions[id])
  }

  predicate SameCyclesOf(db: Db, db': Db, goal: Id) {
    && (forall id :: id in db.cycles && db.cycles[id].goal == goal ==>
        id in db'.cycles && db'.cycles[id] == db.cycles[id])
    && (forall id :: id in db'.cycles && db'.cycles[id].goal == goal ==>
        id in db.cycles && db.cycles[id] == db'.cycles[id])
  }

  predicate SameDraftsOf(db: Db, db': Db, goal: Id) {
    && (forall id :: id in db.drafts && db.drafts[id].kind.Review? && db.drafts[id].kind.goal == goal ==>
          id in db'.drafts && db'.drafts[id] == db.drafts[id])
    && (forall id :: id in db'.drafts && db'.drafts[id].kind.Review? && db'.drafts[id].kind.goal == goal ==>
          id in db.drafts && db.drafts[id] == db'.drafts[id])
  }

  predicate SameGoal(db: Db, db': Db, goal: Id) {
    && goal in db.goals && goal in db'.goals && db.goals[goal] == db'.goals[goal]
    && SameVersionsOf(db, db', goal) && SameCyclesOf(db, db', goal) && SameDraftsOf(db, db', goal)
  }

  /** The rows of every Goal but one are the same. */
  predicate OthersSame(db: Db, db': Db, changed: Id) {
    forall goal :: goal in db'.goals && goal != changed ==> SameGoal(db, db', goal)
  }

  lemma SameNumbers(db: Db, db': Db, goal: Id)
    requires SameGoal(db, db', goal) && Numbered(goal, db.goals[goal], db)
    ensures Numbered(goal, db'.goals[goal], db')
  {
    var g := db.goals[goal];
    forall n | 1 <= n <= g.currentVersion ensures Has(db'.versions, VersionKey, (goal, n)) {
      HasKept(db.versions, db'.versions, VersionKey, (goal, n));
    }
    forall n | 1 <= n < g.nextSequence ensures Has(db'.cycles, CycleKey, (goal, n)) {
      HasKept(db.cycles, db'.cycles, CycleKey, (goal, n));
    }
    if g.status == GoalReview {
      HasKept(db.drafts, db'.drafts, ReviewKey, (g.user, goal));
    }
  }

  lemma SameRows(db: Db, db': Db, goal: Id)
    requires SameGoal(db, db', goal)
    requires VersionsOf(db, goal) && CyclesOf(db, goal) && DraftsOf(db, goal)
    ensures VersionsOf(db', goal) && CyclesOf(db', goal) && DraftsOf(db', goal)
  {
  }

  lemma SameChain(db: Db, db': Db, goal: Id)
    requires SameGoal(db, db', goal) && CyclesOf(db, goal) && ChainOf(db, goal)
    ensures ChainOf(db', goal)
  {
    forall a, c | a in db'.cycles && c in db'.cycles && db'.cycles[a].goal == goal
      && NextTo(db'.cycles[a], db'.cycles[c])
      ensures Follows(db'.cycles[a], db'.cycles[c], db'.versions)
    {
      assert NextTo(db.cycles[a], db.cycles[c]);
    }
  }

  lemma SameRevision(db: Db, db': Db, goal: Id)
    requires SameGoal(db, db', goal) && RevisionFits(goal, db.goals[goal], db.cycles)
    ensures RevisionFits(goal, db'.goals[goal], db'.cycles)
  {
    SumSame(db.cycles, CompletedOf(goal), db'.cycles, CompletedOf(goal));
  }

  lemma SameGoalInv(db: Db, db': Db, goal: Id)
    requires SameGoal(db, db', goal) && GoalInv(db, goal)
    ensures GoalInv(db', goal)
  {
    SameNumbers(db, db', goal);
    SameRows(db, db', goal);
    SameChain(db, db', goal);
    SameRevision(db, db', goal);
  }

  /** A step that touches the rows of one Goal only has to restore that Goal. */
  lemma GoalsKept(db: Db, db': Db, changed: Id)
    requires GoalsInv(db)
    requires OthersSame(db, db', changed)
    requires changed in db'.goals ==> GoalInv(db', changed)
    ensures GoalsInv(db')
  {
    forall goal | goal in db'.goals ensures GoalInv(db', goal) {
      if goal != changed {
        SameGoalInv(db, db', goal);
      }
    }
  }

  lemma StepKeeps(db: Db, db': Db, changed: Id)
    requires GoalsInv(db) && OthersSame(db, db', changed) && UniqueRows(db') && Rooted(db')
    requires changed in db'.goals ==> GoalInv(db', changed)
    ensures LifecycleInv(db')
  {
    GoalsKept(db, db', changed);
  }

  /** Fewer Goals, each with its rows as they were. */
  lemma GoalsShrink(db: Db, db': Db)
    requires GoalsInv(db) && forall goal :: goal in db'.goals ==> SameGoal(db, db', goal)
    ensures GoalsInv(db')
  {
    forall goal | goal in db'.goals ensures GoalInv(db', goal) {
      SameGoalInv(db, db', goal);
    }
  }

  ghost predicate Restricts<V>(rows: map<Id, V>, rest: map<Id, V>) {
    forall id :: id in rest ==> id in rows && rest[id] == rows[id]
  }

  /** Rows were only removed, and a Goal that is still there has kept all of its rows. */
  ghost predicate Prunes(db: Db, db': Db) {
    && Restricts(db.goals, db'.goals) && Restricts(db.versions, db'.versions)
    && Restricts(db.cycles, db'.cycles) && Restricts(db.drafts, db'.drafts)
    && (forall id :: id in db.versions && db.versions[id].goal in db'.goals ==> id in db'.versions)
    && (forall id :: id in db.cycles && db.cycles[id].goal in db'.goals ==> id in db'.cycles)
    && (forall id :: id in db.drafts && db.drafts[id].kind.Review? && db.drafts[id].kind.goal in db'.goals ==>
        id in db'.drafts)
  }

  lemma PruneGoals(db: Db, db': Db)
    requires Prunes(db, db')
    ensures forall goal :: goal in db'.goals ==> SameGoal(db, db', goal)
  {
  }

  lemma PruneUnique(db: Db, db': Db)
    requires Prunes(db, db') && UniqueRows(db)
    ensures UniqueRows(db')
  {
    UniqueShrink(db.versions, db'.versions, VersionKey);
    UniqueShrink(db.cycles, db'.cycles, CycleKey);
    UniqueShrink(db.cycles, db'.cycles, StartKey);
    UniqueShrink(db.cycles, db'.cycles, CompletionKey);
    UniqueShrink(db.goals, db'.goals, TerminalKey);
    UniqueShrink(db.drafts, db'.drafts, CreationKey);
    UniqueShrink(db.drafts, db'.drafts, ReviewKey);
  }

  lemma PruneKeepsLifecycle(db: Db, db': Db)
    requires LifecycleInv(db) && Prunes(db, db') && Rooted(db')
    ensures LifecycleInv(db')
  {
    PruneGoals(db, db');
    PruneUnique(db, db');
    GoalsShrink(db, db');
  }

  predicate SameLifecycleTables(db: Db, db': Db) {
    && db'.users == db.users && db'.goals == db.goals && db'.versions == db.versions
    && db'.cycles == db.cycles && db'.drafts == db.drafts
  }

  /** The lifecycle reads five tables only. */
  lemma FrameLifecycle(db: Db, db': Db)
    requires LifecycleInv(db) && SameLifecycleTables(db, db')
    ensures LifecycleInv(db')
  {
    PruneKeepsLifecycle(db, db');
  }
}
