/** Why no transaction fails halfway: what the invariant gives each of them before it starts. */
module Grounds {
  import opened Base
  import opened Rows
  import opened MapSum
  import opened Keys
  import opened Schema
  import opened Ledger
  import opened LedgerInvariant
  import opened Views
  import opened Lifecycle
  import opened Targets
  import opened UseCases
  import opened Soundness
  import opened Persistence
  import opened Reads
  import opened Statements
  import opened Queries
  import opened Transactions
  import opened DraftTransactions
  import opened DeletionTransactions

  lemma ActiveUnique(db: Db)
    requires LifecycleInv(db)
    ensures Unique(db.cycles, ActiveKey)
  {
    forall a, b | a in db.cycles && b in db.cycles && ActiveKey(db.cycles[a]).Some?
      && ActiveKey(db.cycles[a]) == ActiveKey(db.cycles[b])
      ensures a == b
    {
      OnlyActive(db, a);
      OnlyActive(db, b);
    }
  }

  lemma IndexedRows(db: Db, log: map<Id, Entry>)
    requires LifecycleInv(db) && TargetsInv(db, log)
    ensures Indexed(db)
  {
    ActiveUnique(db);
  }

  // Money.

  lemma RunningAccepted(db: Db, log: map<Id, Entry>, id: Id)
    requires RowsFit(db, log) && id in db.generations && db.generations[id].status == Running
    ensures id in log && log[id].fate == StillRunning && log[id].user == db.generations[id].user
    ensures id in db.usages && StillAccepted(db.usages[id], db.generations[id].month, db.generations[id].reserved)
    ensures db.usages[id].user == db.generations[id].user && db.generations[id].month in db.months
  {
    assert GenerationFits(db.generations[id], log, id);
    assert EntryFits(log[id], db, id);
    assert UsageFits(db.usages[id], log, id);
  }

  lemma SelectedReserved(generations: map<Id, Generation>, ids: set<Id>, month: int)
    ensures Sum(Select(generations, ids), ReservedIn(month)) <= Sum(generations, ReservedIn(month))
  {
    SumAtMost(Select(generations, ids), ReservedIn(month), generations, ReservedIn(month));
  }

  lemma ReservedCovers(db: Db, log: map<Id, Entry>, ids: set<Id>, month: int)
    requires Balanced(db, log) && month in db.months
    ensures Sum(Select(db.generations, ids), ReservedIn(month)) <= db.months[month].reserved
  {
    assert MonthFits(db.months, db.generations, log, month);
    SelectedReserved(db.generations, ids, month);
  }

  lemma RunningReleasable(db: Db, log: map<Id, Entry>, ids: set<Id>)
    requires LedgerInv(db, log)
             && forall id :: id in ids ==> id in db.generations && db.generations[id].status == Running
    ensures Releasable(db, ids)
  {
    forall id | id in ids ensures id in db.usages
      && StillAccepted(db.usages[id], db.generations[id].month, db.generations[id].reserved)
    {
      RunningAccepted(db, log, id);
    }
    forall m | m in db.months ensures Sum(Select(db.generations, ids), ReservedIn(m)) <= db.months[m].reserved {
      ReservedCovers(db, log, ids, m);
    }
  }

  lemma OperationSettleable(db: Db, log: map<Id, Entry>, id: Id)
    requires LedgerInv(db, log)
    ensures Settleable(db, id)
  {
    if id in db.generations && db.generations[id].status == Running {
      RunningAccepted(db, log, id);
      var g := db.generations[id];
      ReservedCovers(db, log, {id}, g.month);
      assert Select(db.generations, {id}) == map[id := g];
      SumSingle(id, g, ReservedIn(g.month));
    }
  }

  lemma ReleasedExposed(db: Db, log: map<Id, Entry>, user: Id)
    requires RowsFit(db, log)
    ensures forall id :: id in ReleasedOfUser(db, user) ==> db.usages[id].exposure.Some?
  {
    forall id | id in ReleasedOfUser(db, user) ensures db.usages[id].exposure.Some? {
      assert UsageFits(db.usages[id], log, id);
    }
  }

  // Identifiers.

  lemma RowsLogged(db: Db, log: map<Id, Entry>)
    requires RowsFit(db, log)
    ensures db.generations.Keys <= log.Keys && db.usages.Keys <= log.Keys
  {
    forall id | id in db.generations ensures id in log {
      assert GenerationFits(db.generations[id], log, id);
    }
    forall id | id in db.usages ensures id in log {
      assert UsageFits(db.usages[id], log, id);
    }
  }

  lemma UnusedOperation(w: World, id: Id)
    requires IssuedInv(w.db, w.history) && RowsFit(w.db, w.history.log) && id !in w.history.issued
    ensures id !in w.db.generations && id !in w.db.usages
  {
    RowsLogged(w.db, w.history.log);
  }

  // Usages.

  lemma UsageOwner(db: Db, log: map<Id, Entry>, id: Id)
    requires RowsFit(db, log) && id in db.generations && id in db.usages
    ensures db.usages[id].user == db.generations[id].user
  {
    assert GenerationFits(db.generations[id], log, id);
    assert UsageFits(db.usages[id], log, id);
  }

  lemma DraftCharged(db: Db, log: map<Id, Entry>, user: Id, draft: Id)
    requires RowsFit(db, log) && TargetsInv(db, log)
    ensures Charged(db, user, GenerationsOfDraft(db.generations, user, draft))
    ensures OwnUsages(db, user, GenerationsOfDraft(db.generations, user, draft))
  {
    forall id | id in GenerationsOfDraft(db.generations, user, draft)
      ensures id in db.usages && db.usages[id].user == user
    {
      assert Aims(id, db.generations[id], db, log);
      UsageOwner(db, log, id);
    }
  }

  lemma GoalCharged(db: Db, log: map<Id, Entry>, user: Id, goal: Id)
    requires RowsFit(db, log) && TargetsInv(db, log)
    ensures GoalFailable(db, user, goal, RunningOfGoal(db.generations, user, goal))
  {
    forall id | id in RunningOfGoal(db.generations, user, goal)
      ensures id in db.usages && ForGoal(db.usages[id], user, goal) && db.usages[id].status == UsageStatus.Accepted &&
                db.usages[id].finalizedAt == None
    {
      assert Aims(id, db.generations[id], db, log);
      RunningAccepted(db, log, id);
    }
  }

  // Cycles and receipts.

  lemma ActiveNotCompleted(db: Db)
    requires LifecycleInv(db)
    ensures forall c :: c in db.cycles && db.cycles[c].status == Active ==> db.cycles[c].completion == None
  {
    forall c | c in db.cycles && db.cycles[c].status == Active ensures db.cycles[c].completion == None {
      CycleRow(db, c);
    }
  }

  lemma ReceiptGone(w: World, k: (Id, Id))
    requires ReceiptsInv(w) && k in w.db.receipts
    ensures w.db.receipts[k].request.DeleteRequest? && w.db.receipts[k].request.goal !in w.db.goals
  {
    assert ReceiptFits(k, w.db.receipts[k], w.db, w.history.issued);
  }
}
