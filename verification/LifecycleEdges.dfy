/** Where a Goal's life begins, and the Drafts beside it. */
module LifecycleEdges {
  import opened Base
  import opened Rows
  import opened MapSum
  import opened Keys
  import opened Schema
  import opened Text
  import opened Views
  import opened Lifecycle
  import CycleDomain

  // Starting a Goal from its Creation Draft.

  function AfterStart(db: Db, goal: Id, g: Goal, version: Id, v: Version, cycle: Id, c: Cycle, draft: Id): Db {
    db.(goals := db.goals[goal := g], versions := db.versions[version := v], cycles := db.cycles[cycle := c],
        drafts := Without(db.drafts, {draft}))
  }

  ghost predicate Starts(db: Db, goal: Id, g: Goal, version: Id, v: Version, cycle: Id, c: Cycle, draft: Id) {
    && goal !in db.goals && version !in db.versions && cycle !in db.cycles
    && draft in db.drafts && db.drafts[draft].kind == Creation
    && g.user in db.users && g == Goal(g.user, ActiveCycle, 1, 2, 0, None, None)
    && v == Version(g.user, goal, 1, v.body, v.signal, v.createdBy) && BodyText(v.body) && !Blank(v.body)
    && SignalText(v.signal)
    && c == CycleDomain.NewCycle(g.user, goal, version, 1, c.start) && c.start.request.StartRequest?
    && !Has(db.cycles, StartKey, (g.user, c.start.operation))
  }

  lemma StartOther(db: Db, goal: Id, g: Goal, version: Id, v: Version, cycle: Id, c: Cycle, draft: Id, h: Id)
    requires Starts(db, goal, g, version, v, cycle, c, draft) && h in db.goals
    ensures SameGoal(db, AfterStart(db, goal, g, version, v, cycle, c, draft), h)
  {
  }

  lemma StartOthers(db: Db, goal: Id, g: Goal, version: Id, v: Version, cycle: Id, c: Cycle, draft: Id)
    requires Starts(db, goal, g, version, v, cycle, c, draft)
    ensures OthersSame(db, AfterStart(db, goal, g, version, v, cycle, c, draft), goal)
  {
    var db' := AfterStart(db, goal, g, version, v, cycle, c, draft);
    forall h | h in db'.goals && h != goal ensures SameGoal(db, db', h) {
      StartOther(db, goal, g, version, v, cycle, c, draft, h);
    }
  }

  lemma StartNumbers(db: Db, goal: Id, g: Goal, version: Id, v: Version, cycle: Id, c: Cycle, draft: Id)
    requires Starts(db, goal, g, version, v, cycle, c, draft) && Rooted(db)
    ensures var db' := AfterStart(db, goal, g, version, v, cycle, c, draft);
            Numbered(goal, g, db') && RevisionFits(goal, g, db'.cycles)
  {
    var db' := AfterStart(db, goal, g, version, v, cycle, c, draft);
    assert VersionKey(db'.versions[version]) == Some((goal, 1));
    assert CycleKey(db'.cycles[cycle]) == Some((goal, 1));
    SumSame(db'.cycles, CompletedOf(goal), map[], CompletedOf(goal));
    SumEmpty(CompletedOf(goal));
  }

  lemma StartRows(db: Db, goal: Id, g: Goal, version: Id, v: Version, cycle: Id, c: Cycle, draft: Id)
    requires Starts(db, goal, g, version, v, cycle, c, draft) && Rooted(db)
    ensures var db' := AfterStart(db, goal, g, version, v, cycle, c, draft);
            VersionsOf(db', goal) && CyclesOf(db', goal) && DraftsOf(db', goal) && ChainOf(db', goal)
              && TerminalFits(goal, g, db'.cycles)
  {
  }

  lemma StartUnique(db: Db, goal: Id, g: Goal, version: Id, v: Version, cycle: Id, c: Cycle, draft: Id)
    requires Starts(db, goal, g, version, v, cycle, c, draft) && Rooted(db) && UniqueRows(db)
    ensures UniqueRows(AfterStart(db, goal, g, version, v, cycle, c, draft))
  {
    var drafts := Without(db.drafts, {draft});
    UniqueWrite(db.versions, VersionKey, version, v);
    UniqueWrite(db.cycles, CycleKey, cycle, c);
    UniqueWrite(db.cycles, StartKey, cycle, c);
    UniqueWrite(db.cycles, CompletionKey, cycle, c);
    UniqueWrite(db.goals, TerminalKey, goal, g);
    UniqueShrink(db.drafts, drafts, CreationKey);
    UniqueShrink(db.drafts, drafts, ReviewKey);
  }

  lemma StartRooted(db: Db, goal: Id, g: Goal, version: Id, v: Version, cycle: Id, c: Cycle, draft: Id)
    requires Starts(db, goal, g, version, v, cycle, c, draft) && Rooted(db)
    ensures Rooted(AfterStart(db, goal, g, version, v, cycle, c, draft))
  {
  }

  lemma StartKeepsLifecycle(db: Db, goal: Id, g: Goal, version: Id, v: Version, cycle: Id, c: Cycle, draft: Id)
    requires LifecycleInv(db) && Starts(db, goal, g, version, v, cycle, c, draft)
    ensures LifecycleInv(AfterStart(db, goal, g, version, v, cycle, c, draft))
  {
    StartOthers(db, goal, g, version, v, cycle, c, draft);
    StartNumbers(db, goal, g, version, v, cycle, c, draft);
    StartRows(db, goal, g, version, v, cycle, c, draft);
    StartUnique(db, goal, g, version, v, cycle, c, draft);
    StartRooted(db, goal, g, version, v, cycle, c, draft);
    StepKeeps(db, AfterStart(db, goal, g, version, v, cycle, c, draft), goal);
  }

  // Writing a Draft.

  /** A new Creation Draft, or new text in a Draft of either kind. */
  ghost predicate WritesDraft(db: Db, id: Id, d: Draft) {
    && BodyText(d.body) && SignalText(d.signal)
    && if id in db.drafts then d.user == db.drafts[id].user && d.kind == db.drafts[id].kind
       else d.kind == Creation && d.user in db.users && !Has(db.drafts, CreationKey, d.user)
  }

  lemma DraftOthers(db: Db, id: Id, d: Draft)
    requires WritesDraft(db, id, d)
    ensures var db' := db.(drafts := db.drafts[id := d]);
            forall goal :: goal in db.goals && !(d.kind.Review? && d.kind.goal == goal) ==> SameGoal(db, db', goal)
  {
  }

  lemma DraftNumbered(db: Db, id: Id, d: Draft, goal: Id)
    requires WritesDraft(db, id, d) && d.kind.Review? && goal in db.goals && Numbered(goal, db.goals[goal], db)
    ensures Numbered(goal, db.goals[goal], db.(drafts := db.drafts[id := d]))
  {
    if db.goals[goal].status == GoalReview {
      HasKept(db.drafts, db.drafts[id := d], ReviewKey, (db.goals[goal].user, goal));
    }
  }

  lemma DraftRows(db: Db, id: Id, d: Draft, goal: Id)
    requires WritesDraft(db, id, d) && d.kind.Review? && goal in db.goals && DraftsOf(db, goal)
    ensures DraftsOf(db.(drafts := db.drafts[id := d]), goal)
  {
    assert d.kind.goal == goal ==> ReviewFits(db.drafts[id], db.goals[goal], db.versions, db.cycles);
  }

  lemma DraftGoalKept(db: Db, id: Id, d: Draft)
    requires WritesDraft(db, id, d) && d.kind.Review? && d.kind.goal in db.goals && GoalInv(db, d.kind.goal)
    ensures GoalInv(db.(drafts := db.drafts[id := d]), d.kind.goal)
  {
    DraftNumbered(db, id, d, d.kind.goal);
    DraftRows(db, id, d, d.kind.goal);
  }

  lemma DraftUnique(db: Db, id: Id, d: Draft)
    requires WritesDraft(db, id, d) && UniqueRows(db)
    ensures UniqueRows(db.(drafts := db.drafts[id := d]))
  {
    UniqueWrite(db.drafts, CreationKey, id, d);
    UniqueWrite(db.drafts, ReviewKey, id, d);
  }

  lemma DraftStands(db: Db, id: Id, d: Draft)
    requires WritesDraft(db, id, d) && Rooted(db)
    ensures Rooted(db.(drafts := db.drafts[id := d]))
  {
  }

  lemma WriteDraftKeepsLifecycle(db: Db, id: Id, d: Draft)
    requires LifecycleInv(db) && WritesDraft(db, id, d)
    ensures LifecycleInv(db.(drafts := db.drafts[id := d]))
  {
    var db' := db.(drafts := db.drafts[id := d]);
    DraftOthers(db, id, d);
    DraftUnique(db, id, d);
    DraftStands(db, id, d);
    if d.kind.Review? {
      DraftGoalKept(db, id, d);
      GoalsKept(db, db', d.kind.goal);
    } else {
      GoalsShrink(db, db');
    }
  }
}
