/** Each transition of a Goal keeps the lifecycle. */
module LifecycleSteps {
  import opened Base
  import opened Rows
  import opened MapSum
  import opened Keys
  import opened Schema
  import opened Text
  import opened Views
  import opened Lifecycle

  // Editing the running Cycle.

  /** An edit keeps what identifies a running Cycle. */
  predicate Edits(c: Cycle, d: Cycle) {
    && c.status == Active && d.status == Active && d.user == c.user && d.goal == c.goal && d.version == c.version
    && d.sequence == c.sequence && d.start == c.start && c.completion.None? && d.completion.None? && CycleShape(d)
  }

  lemma EditKeepsRows(db: Db, id: Id, d: Cycle, goal: Id)
    requires id in db.cycles && Edits(db.cycles[id], d) && goal in db.goals
    requires VersionsOf(db, goal) && CyclesOf(db, goal) && DraftsOf(db, goal)
             && TerminalFits(goal, db.goals[goal], db.cycles)
    requires db.cycles[id].goal == goal
    ensures var db' := db.(cycles := db.cycles[id := d]);
            VersionsOf(db', goal) && CyclesOf(db', goal) && DraftsOf(db', goal)
              && TerminalFits(goal, db'.goals[goal], db'.cycles)
  {
    assert CycleFits(id, db.cycles[id], db.goals[goal], db.versions, db.cycles);
  }

  lemma EditKeepsChain(db: Db, id: Id, d: Cycle, goal: Id)
    requires id in db.cycles && Edits(db.cycles[id], d) && db.cycles[id].goal == goal && ChainOf(db, goal)
    ensures ChainOf(db.(cycles := db.cycles[id := d]), goal)
  {
    var cycles := db.cycles[id := d];
    forall a, c | a in cycles && c in cycles && cycles[a].goal == goal && NextTo(cycles[a], cycles[c])
      ensures Follows(cycles[a], cycles[c], db.versions)
    {
      assert NextTo(db.cycles[a], db.cycles[c]);
    }
  }

  lemma EditKeepsCounts(db: Db, id: Id, d: Cycle, goal: Id)
    requires id in db.cycles && Edits(db.cycles[id], d) && db.cycles[id].goal == goal && goal in db.goals
    requires Numbered(goal, db.goals[goal], db) && RevisionFits(goal, db.goals[goal], db.cycles)
    ensures var db' := db.(cycles := db.cycles[id := d]);
            Numbered(goal, db.goals[goal], db') && RevisionFits(goal, db.goals[goal], db'.cycles)
  {
    var db' := db.(cycles := db.cycles[id := d]);
    SumWrite(db.cycles, id, d, CompletedOf(goal));
    forall n | 1 <= n < db.goals[goal].nextSequence ensures Has(db'.cycles, CycleKey, (goal, n)) {
      HasKept(db.cycles, db'.cycles, CycleKey, (goal, n));
    }
  }

  lemma EditKeepsGoal(db: Db, id: Id, d: Cycle, goal: Id)
    requires id in db.cycles && Edits(db.cycles[id], d) && db.cycles[id].goal == goal && goal in db.goals
             && GoalInv(db, goal)
    ensures GoalInv(db.(cycles := db.cycles[id := d]), goal)
  {
    EditKeepsRows(db, id, d, goal);
    EditKeepsChain(db, id, d, goal);
    EditKeepsCounts(db, id, d, goal);
  }

  lemma EditKeepsUnique(db: Db, id: Id, d: Cycle)
    requires UniqueRows(db) && id in db.cycles && Edits(db.cycles[id], d)
    ensures UniqueRows(db.(cycles := db.cycles[id := d]))
  {
    UniqueWrite(db.cycles, CycleKey, id, d);
    UniqueWrite(db.cycles, StartKey, id, d);
    UniqueWrite(db.cycles, CompletionKey, id, d);
  }

  lemma EditKeepsOthers(db: Db, id: Id, d: Cycle)
    requires id in db.cycles && Edits(db.cycles[id], d)
    ensures OthersSame(db, db.(cycles := db.cycles[id := d]), d.goal)
  {
  }

  lemma EditKeepsRooted(db: Db, id: Id, d: Cycle)
    requires Rooted(db) && id in db.cycles && Edits(db.cycles[id], d)
    ensures Rooted(db.(cycles := db.cycles[id := d]))
  {
  }

  lemma EditKeepsLifecycle(db: Db, id: Id, d: Cycle)
    requires LifecycleInv(db) && id in db.cycles && Edits(db.cycles[id], d)
    ensures LifecycleInv(db.(cycles := db.cycles[id := d]))
  {
    EditKeepsUnique(db, id, d);
    EditKeepsGoal(db, id, d, d.goal);
    EditKeepsRooted(db, id, d);
    EditKeepsOthers(db, id, d);
    StepKeeps(db, db.(cycles := db.cycles[id := d]), d.goal);
  }

  // Moving a Goal on: its last Cycle is closed, and perhaps a new one opened.

  /** `db'` differs from `db` in one Goal's rows: its last Cycle, and rows added to it. */
  ghost predicate Advances(db: Db, db': Db, goal: Id, last: Id, next: Option<Id>) {
    && goal in db.goals && db'.goals.Keys == db.goals.Keys
    && (forall h :: h in db.goals && h != goal ==> db'.goals[h] == db.goals[h])
    && db'.goals[goal].user == db.goals[goal].user && db'.goals[goal].nextSequence >= db.goals[goal].nextSequence
    && (forall id :: id in db.versions ==> id in db'.versions && db'.versions[id] == db.versions[id])
    && (forall id :: id in db'.versions && id !in db.versions ==> db'.versions[id].goal == goal)
    && (forall id :: id in db.cycles ==> id in db'.cycles && (id != last ==> db'.cycles[id] == db.cycles[id]))
    && (forall id :: id in db'.cycles && id !in db.cycles ==> next == Some(id) && db'.cycles[id].goal == goal)
    && (next.Some? ==>
          next.value !in db.cycles && next.value in db'.cycles &&
          db'.cycles[next.value].sequence == db.goals[goal].nextSequence)
    && last in db.cycles && db.cycles[last].goal == goal && db.cycles[last].sequence == db.goals[goal].nextSequence - 1
    && (db.cycles[last].status != Active ==> db'.cycles[last] == db.cycles[last])
    && var l, l' := db.cycles[last], db'.cycles[last];
    && l'.user == l.user && l'.goal == l.goal && l'.version == l.version && l'.sequence == l.sequence
    && l'.start == l.start
    && (forall id :: id in db.drafts && !(db.drafts[id].kind.Review? && db.drafts[id].kind.goal == goal) ==>
          id in db'.drafts && db'.drafts[id] == db.drafts[id])
    && (forall id :: id in db'.drafts && !(db'.drafts[id].kind.Review? && db'.drafts[id].kind.goal == goal) ==>
          id in db.drafts && db.drafts[id] == db'.drafts[id])
  }

  lemma AdvanceOther(db: Db, db': Db, goal: Id, last: Id, next: Option<Id>, h: Id)
    requires Advances(db, db', goal, last, next) && h in db'.goals && h != goal
    ensures SameGoal(db, db', h)
  {
  }

  lemma AdvanceOthers(db: Db, db': Db, goal: Id, last: Id, next: Option<Id>)
    requires Advances(db, db', goal, last, next)
    ensures OthersSame(db, db', goal)
  {
    forall h | h in db'.goals && h != goal ensures SameGoal(db, db', h) {
      AdvanceOther(db, db', goal, last, next, h);
    }
  }

  lemma AdvanceOldCycles(db: Db, db': Db, goal: Id, last: Id, next: Option<Id>)
    requires Advances(db, db', goal, last, next) && CyclesOf(db, goal) && Unique(db.cycles, CycleKey)
    ensures forall id :: id in db.cycles && id != last && db.cycles[id].goal == goal ==>
              CycleFits(id, db'.cycles[id], db'.goals[goal], db'.versions, db'.cycles)
  {
    forall id | id in db.cycles && id != last && db.cycles[id].goal == goal
      ensures CycleFits(id, db'.cycles[id], db'.goals[goal], db'.versions, db'.cycles)
    {
      assert CycleFits(id, db.cycles[id], db.goals[goal], db.versions, db.cycles);
      assert CycleFits(last, db.cycles[last], db.goals[goal], db.versions, db.cycles);
      assert CycleKey(db.cycles[id]) != CycleKey(db.cycles[last]);
    }
  }

  lemma AdvanceSequence(db: Db, db': Db, goal: Id, last: Id, next: Option<Id>, n: int)
    requires Advances(db, db', goal, last, next) && Numbered(goal, db.goals[goal], db)
    requires 1 <= n < (if next.Some? then db.goals[goal].nextSequence + 1 else db.goals[goal].nextSequence)
    ensures Has(db'.cycles, CycleKey, (goal, n))
  {
    if n < db.goals[goal].nextSequence {
      HasKept(db.cycles, db'.cycles, CycleKey, (goal, n));
    } else {
      assert CycleKey(db'.cycles[next.value]) == Some((goal, n));
    }
  }

  lemma AdvanceNumbers(db: Db, db': Db, goal: Id, last: Id, next: Option<Id>)
    requires Advances(db, db', goal, last, next) && Numbered(goal, db.goals[goal], db)
    requires var g, g' := db.goals[goal], db'.goals[goal];
             && (g'.currentVersion == g.currentVersion ||
                 (g'.currentVersion == g.currentVersion + 1
                  && Has(db'.versions, VersionKey, (goal, g'.currentVersion))))
             && g'.nextSequence == (if next.Some? then g.nextSequence + 1 else g.nextSequence)
             && (g'.status == GoalReview ==> Has(db'.drafts, ReviewKey, (g'.user, goal)))
    ensures Numbered(goal, db'.goals[goal], db')
  {
    var g, g' := db.goals[goal], db'.goals[goal];
    forall n | 1 <= n <= g.currentVersion ensures Has(db'.versions, VersionKey, (goal, n)) {
      HasKept(db.versions, db'.versions, VersionKey, (goal, n));
    }
    forall n | 1 <= n < g'.nextSequence ensures Has(db'.cycles, CycleKey, (goal, n)) {
      AdvanceSequence(db, db', goal, last, next, n);
    }
  }

  lemma AdvanceChain(db: Db, db': Db, goal: Id, last: Id, next: Option<Id>)
    requires Advances(db, db', goal, last, next) && CyclesOf(db, goal) && ChainOf(db, goal)
             && Unique(db.cycles, CycleKey)
    requires next.Some? ==> Follows(db'.cycles[last], db'.cycles[next.value], db'.versions)
    ensures ChainOf(db', goal)
  {
    forall a, c | a in db'.cycles && c in db'.cycles && db'.cycles[a].goal == goal
      && NextTo(db'.cycles[a], db'.cycles[c])
      ensures Follows(db'.cycles[a], db'.cycles[c], db'.versions)
    {
      assert a in db.cycles ==> CycleFits(a, db.cycles[a], db.goals[goal], db.versions, db.cycles);
      assert c in db.cycles ==> CycleFits(c, db.cycles[c], db.goals[goal], db.versions, db.cycles);
      if a in db.cycles && c in db.cycles {
        assert NextTo(db.cycles[a], db.cycles[c]);
      } else if a in db.cycles {
        assert CycleKey(db.cycles[a]) == CycleKey(db.cycles[last]);
      }
    }
  }

  /** What is left to show for one kind of step: the rows it writes. */
  ghost predicate AdvanceFits(db: Db, db': Db, goal: Id, last: Id, next: Option<Id>)
    requires Advances(db, db', goal, last, next)
  {
    var g, g' := db.goals[goal], db'.goals[goal];
    && (g'.currentVersion == g.currentVersion ||
        (g'.currentVersion == g.currentVersion + 1 && Has(db'.versions, VersionKey, (goal, g'.currentVersion))))
    && g'.nextSequence == (if next.Some? then g.nextSequence + 1 else g.nextSequence)
    && (g'.status == GoalReview ==> Has(db'.drafts, ReviewKey, (g'.user, goal)))
    && (next.Some? ==>
          && Follows(db'.cycles[last], db'.cycles[next.value], db'.versions)
          && CycleFits(next.value, db'.cycles[next.value], g', db'.versions, db'.cycles))
    && CycleFits(last, db'.cycles[last], g', db'.versions, db'.cycles)
    && (forall id :: id in db'.versions && id !in db.versions ==> VersionFits(db'.versions[id], g'))
    && DraftsOf(db', goal) && TerminalFits(goal, g', db'.cycles) && RevisionFits(goal, g', db'.cycles)
  }

  lemma AdvanceVersions(db: Db, db': Db, goal: Id, last: Id, next: Option<Id>)
    requires Advances(db, db', goal, last, next) && AdvanceFits(db, db', goal, last, next) && VersionsOf(db, goal)
    ensures VersionsOf(db', goal)
  {
  }

  lemma AdvanceCycles(db: Db, db': Db, goal: Id, last: Id, next: Option<Id>)
    requires Advances(db, db', goal, last, next) && AdvanceFits(db, db', goal, last, next)
    requires CyclesOf(db, goal) && Unique(db.cycles, CycleKey)
    ensures CyclesOf(db', goal)
  {
    AdvanceOldCycles(db, db', goal, last, next);
  }

  lemma AdvanceGoal(db: Db, db': Db, goal: Id, last: Id, next: Option<Id>)
    requires Advances(db, db', goal, last, next) && AdvanceFits(db, db', goal, last, next)
    requires GoalInv(db, goal) && Unique(db.cycles, CycleKey)
    ensures GoalInv(db', goal)
  {
    AdvanceVersions(db, db', goal, last, next);
    AdvanceCycles(db, db', goal, last, next);
    AdvanceNumbers(db, db', goal, last, next);
    AdvanceChain(db, db', goal, last, next);
  }

  lemma AdvanceKeeps(db: Db, db': Db, goal: Id, last: Id, next: Option<Id>)
    requires GoalsInv(db) && UniqueRows(db)
    requires Advances(db, db', goal, last, next) && AdvanceFits(db, db', goal, last, next)
    requires UniqueRows(db') && Rooted(db')
    ensures LifecycleInv(db')
  {
    AdvanceGoal(db, db', goal, last, next);
    AdvanceOthers(db, db', goal, last, next);
    StepKeeps(db, db', goal);
  }
}
