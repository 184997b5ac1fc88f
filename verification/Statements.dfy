/**
 The statements a transaction issues. An update answers with the rows it leaves and how many it
 affected; its guard is the statement's own WHERE clause.
 */
module Statements {
  import opened Base
  import opened Rows
  import opened Keys
  import opened Schema
  import opened MapSum
  import opened Ledger
  import opened UseCases
  import CycleDomain

  type Affected = (Db, nat)

  // Queries.

  /** The row with a unique key. */
  method Query<V, K(==)>(rows: map<Id, V>, key: V -> Option<K>, k: K) returns (found: Option<Id>)
    requires Unique(rows, key)
    ensures found == Lookup(rows, key, k)
  {
    var rest := rows.Keys;
    while rest != {}
      invariant rest <= rows.Keys && forall id :: id in rows && id !in rest ==> key(rows[id]) != Some(k)
      decreases |rest|
    {
      var id :| id in rest;
      if key(rows[id]) == Some(k) {
        LookupFinds(rows, key, id);
        return Some(id);
      }
      rest := rest - {id};
    }
    return None;
  }

  /** The identifiers of the rows a condition selects. */
  method Ids<V>(rows: map<Id, V>, selects: (Id, V) -> bool) returns (ids: set<Id>)
    ensures ids == set id | id in rows && selects(id, rows[id])
  {
    ids := {};
    var rest := rows.Keys;
    while rest != {}
      invariant rest <= rows.Keys && ids == set id | id in rows && id !in rest && selects(id, rows[id])
      decreases |rest|
    {
      var id :| id in rest;
      if selects(id, rows[id]) {
        ids := ids + {id};
      }
      rest := rest - {id};
    }
  }

  /** `SUM`, with 0 for no rows. */
  method Total<V>(rows: map<Id, V>, weight: V -> int) returns (total: int)
    ensures total == Sum(rows, weight)
  {
    total := 0;
    var rest := rows.Keys;
    ghost var seen: map<Id, V> := map[];
    SumEmpty(weight);
    while rest != {}
      invariant rest <= rows.Keys && seen == map id | id in rows && id !in rest :: rows[id]
      invariant total == Sum(seen, weight)
      decreases |rest|
    {
      var id :| id in rest;
      SumWrite(seen, id, rows[id], weight);
      total := total + weight(rows[id]);
      seen := seen[id := rows[id]];
      rest := rest - {id};
    }
    assert seen == rows;
  }

  // Goals.

  function PutGoal(tx: Db, id: Id, g: Goal): Db { tx.(goals := tx.goals[id := g]) }

  function InsertGoal(tx: Db, id: Id, g: Goal): Affected {
    if id in tx.goals then (tx, 0) else (PutGoal(tx, id, g), 1)
  }

  function EnterGoalReviewCas(tx: Db, id: Id, g: Goal, expectedRevision: int): Affected {
    if id in tx.goals && tx.goals[id].user == g.user && tx.goals[id].status == ActiveCycle &&
      tx.goals[id].revision == expectedRevision &&
       tx.goals[id].currentVersion == g.currentVersion && tx.goals[id].nextSequence == g.nextSequence
    then (PutGoal(tx, id, g), 1) else (tx, 0)
  }

  function ReplanGoalCas(tx: Db, id: Id, g: Goal, expectedNext: int, expectedRevision: int): Affected {
    if id in tx.goals && tx.goals[id].user == g.user && tx.goals[id].status == ActiveCycle &&
      tx.goals[id].revision == expectedRevision &&
       tx.goals[id].currentVersion == g.currentVersion && tx.goals[id].nextSequence == expectedNext
    then (PutGoal(tx, id, g), 1) else (tx, 0)
  }

  function ContinueGoalCas(tx: Db, id: Id, g: Goal, expectedRevision: int): Affected {
    if id in tx.goals && tx.goals[id].user == g.user && tx.goals[id].status == GoalReview
      && tx.goals[id].revision == expectedRevision
    then (PutGoal(tx, id, g), 1) else (tx, 0)
  }

  function TerminateGoalCas(tx: Db, id: Id, g: Goal, expectedRevision: int): Affected {
    if id in tx.goals && tx.goals[id].user == g.user && Progressing(tx.goals[id].status)
      && tx.goals[id].revision == expectedRevision
    then (PutGoal(tx, id, g), 1) else (tx, 0)
  }

  function ForgetGoal(usages: map<Id, Usage>, goal: Id): map<Id, Usage> {
    map id | id in usages :: if usages[id].goal == Some(goal) then usages[id].(goal := None) else usages[id]
  }

  /** Deleting a Goal takes its Versions, Cycles, Drafts and generations along; usages only forget it. */
  function DeleteGoalCas(tx: Db, id: Id, user: Id, expectedRevision: int): Affected {
    if id in tx.goals && tx.goals[id].user == user && tx.goals[id].revision == expectedRevision
    then (CascadeGoal(tx.(usages := ForgetGoal(tx.usages, id)), id), 1) else (tx, 0)
  }

  function InsertReceipt(tx: Db, key: (Id, Id), receipt: Receipt): Affected {
    if key in tx.receipts then (tx, 0) else (tx.(receipts := tx.receipts[key := receipt]), 1)
  }

  function DeleteUser(tx: Db, user: Id): Affected {
    if user in tx.users then (CascadeUser(tx, user), 1) else (tx, 0)
  }

  function InsertVersion(tx: Db, id: Id, v: Version): Affected {
    if id in tx.versions then (tx, 0) else (tx.(versions := tx.versions[id := v]), 1)
  }

  // Cycles.

  function PutCycleRow(tx: Db, id: Id, c: Cycle): Db { tx.(cycles := tx.cycles[id := c]) }

  predicate SameActiveCycle(tx: Db, id: Id, c: Cycle) {
    id in tx.cycles && tx.cycles[id].user == c.user && tx.cycles[id].goal == c.goal && tx.cycles[id].status == Active
  }

  /** A start operation claims at most one Cycle: a second insert affects no row. */
  function TryInsertCycleClaim(tx: Db, id: Id, c: Cycle): Affected {
    if id in tx.cycles || (exists other :: other in tx.cycles && StartKey(tx.cycles[other]) == StartKey(c))
    then (tx, 0) else (PutCycleRow(tx, id, c), 1)
  }

  function SaveFrameCas(tx: Db, id: Id, c: Cycle, frame: Frame, expectedRevision: int): Affected {
    if SameActiveCycle(tx, id, c) && CycleDomain.FrameRevision(tx.cycles[id], frame) == expectedRevision
        then (PutCycleRow(tx, id, c), 1) else (tx, 0)
  }

  function SaveScheduleCas(tx: Db, id: Id, c: Cycle, expectedRevision: int): Affected {
    if id in tx.cycles && tx.cycles[id].scheduleRevision == expectedRevision
    then (PutCycleRow(tx, id, c), 1) else (tx, 0)
  }

  function CompleteCycleCas(tx: Db, id: Id, c: Cycle, expectedContent: int): Affected {
    if SameActiveCycle(tx, id, c) && tx.cycles[id].revisions.content == expectedContent
      && tx.cycles[id].completion == None
    then (PutCycleRow(tx, id, c), 1) else (tx, 0)
  }

  function CancelCycleCas(tx: Db, id: Id, c: Cycle, expectedContent: int): Affected {
    if SameActiveCycle(tx, id, c) && tx.cycles[id].revisions.content == expectedContent then (PutCycleRow(tx, id, c), 1)
      else (tx, 0)
  }

  function ApplyActionCas(tx: Db, id: Id, c: Cycle, expectedContent: int, expectedAction: int): Affected {
    if SameActiveCycle(tx, id, c) && tx.cycles[id].version == c.version &&
      tx.cycles[id].revisions.content == expectedContent &&
       tx.cycles[id].revisions.action == expectedAction
    then (PutCycleRow(tx, id, c), 1) else (tx, 0)
  }

  // Drafts.

  function InsertDraft(tx: Db, id: Id, d: Draft): Affected {
    if id in tx.drafts then (tx, 0) else (tx.(drafts := tx.drafts[id := d]), 1)
  }

  function SaveDraftCas(tx: Db, id: Id, d: Draft, expectedRevision: int): Affected {
    if id in tx.drafts && tx.drafts[id].user == d.user && tx.drafts[id].kind == d.kind
      && tx.drafts[id].revision == expectedRevision
    then (tx.(drafts := tx.drafts[id := d]), 1) else (tx, 0)
  }

  function DeleteDraftCas(tx: Db, id: Id, user: Id, expectedRevision: int): Affected {
    if id in tx.drafts && tx.drafts[id].user == user && tx.drafts[id].revision == expectedRevision
    then (tx.(drafts := Without(tx.drafts, {id})), 1) else (tx, 0)
  }

  // Generations and usages.

  function InsertGeneration(tx: Db, id: Id, g: Generation): Affected {
    if id in tx.generations then (tx, 0) else (tx.(generations := tx.generations[id := g]), 1)
  }

  function InsertUsage(tx: Db, id: Id, u: Usage): Affected {
    if id in tx.usages then (tx, 0) else (tx.(usages := tx.usages[id := u]), 1)
  }

  function TerminalizeGenerationCas(tx: Db, id: Id, g: Generation, expectedReservation: int): Affected {
    if id in tx.generations && tx.generations[id].operation == g.operation && tx.generations[id].status == Running &&
       tx.generations[id].reserved == expectedReservation
    then (tx.(generations := tx.generations[id := g]), 1) else (tx, 0)
  }

  function ExpireGenerationCas(tx: Db, id: Id, expectedReservation: int): Affected {
    if id in tx.generations && tx.generations[id].status == Running
      && tx.generations[id].reserved == expectedReservation
    then (tx.(generations := tx.generations[id := FailGeneration(tx.generations[id], LeaseExpired)]), 1) else (tx, 0)
  }

  predicate StillAccepted(u: Usage, month: int, reservation: int) {
    u.status == UsageStatus.Accepted && u.finalizedAt == None && u.exposure.Some? && u.exposure.value.month == month &&
    u.exposure.value.amount == reservation
  }

  function ExpireUsageCas(tx: Db, id: Id, month: int, reservation: int): Affected {
    if id in tx.usages && StillAccepted(tx.usages[id], month, reservation)
    then (tx.(usages := tx.usages[id := tx.usages[id].(status := UsageFailed)]), 1) else (tx, 0)
  }

  function FinalizeUsageCas(tx: Db, id: Id, month: int, reservation: int, failed: bool, now: int): Affected {
    if id in tx.usages && StillAccepted(tx.usages[id], month, reservation)
    then (tx.(usages := tx.usages[id := FinalizeUsage(tx.usages[id], failed, now)]), 1) else (tx, 0)
  }

  function FinalizeLateUsageCas(tx: Db, id: Id, month: int, reservation: int, failed: bool, now: int): Affected {
    if id in tx.usages && tx.usages[id].finalizedAt == None &&
        tx.usages[id].exposure == Some(Exposure(month, if reservation < 0 then 0 else reservation))
    then (tx.(usages := tx.usages[id := FinalizeUsage(tx.usages[id], failed, now)]), 1) else (tx, 0)
  }

  function MarkAdoptedCas(tx: Db, id: Id, revision: nat): Affected {
    if id in tx.generations && tx.generations[id].operation == GoalRefine && tx.generations[id].status == Succeeded &&
        tx.generations[id].adopted == None
    then (tx.(generations := tx.generations[id := tx.generations[id].(adopted := Some(revision))]), 1) else (tx, 0)
  }

  // Deletion.

  function TerminalizeGoalGenerationCas(tx: Db, id: Id, user: Id, goal: Id, expectedReservation: int): Affected {
    if id in tx.generations && tx.generations[id].user == user && tx.generations[id].goal == Some(goal) &&
       tx.generations[id].status == Running && tx.generations[id].reserved == expectedReservation
    then (tx.(generations := tx.generations[id := FailGeneration(tx.generations[id], TargetDeleted)]), 1) else (tx, 0)
  }

  function FailRunningGoalUsageCas(tx: Db, id: Id, user: Id, goal: Id): Affected {
    if id in tx.usages && ForGoal(tx.usages[id], user, goal) && tx.usages[id].status == UsageStatus.Accepted &&
        tx.usages[id].finalizedAt == None
    then (tx.(usages := tx.usages[id := Redact(tx.usages[id]).(status := UsageFailed)]), 1) else (tx, 0)
  }

  function ReleaseReservationCas(tx: Db, id: Id, user: Id, month: int, expectedReservation: int): Affected {
    if id in tx.generations && tx.generations[id].user == user && tx.generations[id].status == Running &&
       tx.generations[id].month == month && tx.generations[id].reserved == expectedReservation
    then (tx.(generations := tx.generations[id := tx.generations[id].(reserved := 0)]), 1) else (tx, 0)
  }

  function DeleteReleasedExposureCas(tx: Db, id: Id, user: Id, exposure: Exposure): Affected {
    if id in tx.usages && tx.usages[id].user == user && tx.usages[id].finalizedAt == None &&
      tx.usages[id].exposure == Some(exposure) &&
       !(id in tx.generations && tx.generations[id].user == user && tx.generations[id].status == Running)
    then (tx.(usages := Without(tx.usages, {id})), 1) else (tx, 0)
  }

  // Many rows at once.

  function GoalUsagesOf(tx: Db, user: Id, goal: Id, ids: set<Id>): set<Id> {
    set id | id in ids && id in tx.usages && ForGoal(tx.usages[id], user, goal)
  }

  function RedactGoalUsages(tx: Db, user: Id, goal: Id, ids: set<Id>): Affected {
    var hit := GoalUsagesOf(tx, user, goal, ids);
    (tx.(usages := map id | id in tx.usages :: if id in hit then RedactGoalUsage(tx.usages[id]) else tx.usages[id]),
     |hit|)
  }

  function ExpiredGoalUsagesOf(tx: Db, user: Id, goal: Id, ids: set<Id>, now: int): set<Id> {
    set id | id in GoalUsagesOf(tx, user, goal, ids) && !Retained(tx.usages[id], now)
  }

  function DeleteExpiredGoalUsages(tx: Db, user: Id, goal: Id, ids: set<Id>, now: int): Affected {
    var hit := ExpiredGoalUsagesOf(tx, user, goal, ids, now);
    (tx.(usages := Without(tx.usages, hit)), |hit|)
  }

  /** The usages of a User among some operations. */
  function UsagesOf(tx: Db, user: Id, ids: set<Id>): set<Id> {
    set id | id in ids && id in tx.usages && tx.usages[id].user == user
  }

  function RedactUsages(tx: Db, user: Id, ids: set<Id>): Affected {
    var hit := UsagesOf(tx, user, ids);
    (tx.(usages := map id | id in tx.usages :: if id in hit then Redact(tx.usages[id]) else tx.usages[id]), |hit|)
  }

  function ExpiredUsagesOf(tx: Db, user: Id, ids: set<Id>, now: int): set<Id> {
    set id | id in UsagesOf(tx, user, ids) && !Retained(tx.usages[id], now)
  }

  function DeleteExpiredUsages(tx: Db, user: Id, ids: set<Id>, now: int): Affected {
    var hit := ExpiredUsagesOf(tx, user, ids, now);
    (tx.(usages := Without(tx.usages, hit)), |hit|)
  }

  function AttachUsageToGoal(tx: Db, user: Id, ids: set<Id>, goal: Id): Affected {
    var hit := UsagesOf(tx, user, ids);
    (tx.(usages := AttachUsages(tx.usages, hit, goal)), |hit|)
  }

  function GenerationsAmong(tx: Db, user: Id, draft: Id, ids: set<Id>): set<Id> {
    set id | id in ids && id in GenerationsOfDraft(tx.generations, user, draft)
  }

  function FinishedAmong(tx: Db, user: Id, draft: Id, ids: set<Id>): set<Id> {
    set id | id in GenerationsAmong(tx, user, draft, ids) && tx.generations[id].status != Running
  }

  function DeleteDraftGenerations(tx: Db, user: Id, draft: Id, ids: set<Id>): Affected {
    var hit := FinishedAmong(tx, user, draft, ids);
    (tx.(generations := Without(tx.generations, hit)), |hit|)
  }

  function AttachDraftGenerations(tx: Db, user: Id, draft: Id, ids: set<Id>, goal: Id, version: Id): Affected {
    var hit := GenerationsAmong(tx, user, draft, ids);
    (tx.(generations := Attach(tx.generations, hit, goal, version)), |hit|)
  }

  // Budget.

  function EnsureMonth(tx: Db, month: int): Db {
    if month in tx.months then tx else tx.(months := tx.months[month := Budget(0, 0, 0)])
  }

  function ReserveCas(tx: Db, month: int, amount: int): Affected {
    if month in tx.months
      then (tx.(months := tx.months[month := tx.months[month].(reserved := tx.months[month].reserved + amount)]), 1)
    else (tx, 0)
  }

  function ReleaseCas(tx: Db, month: int, amount: int): Affected {
    if month in tx.months && tx.months[month].reserved >= amount
    then (tx.(months := tx.months[month := tx.months[month].(reserved := tx.months[month].reserved - amount)]), 1)
    else (tx, 0)
  }

  function SettleCas(tx: Db, month: int, reservation: int, actual: int): Affected {
    if month in tx.months && tx.months[month].reserved >= reservation
    then (tx.(months := tx.months[month := tx.months[month].(reserved := tx.months[month].reserved - reservation,
                                                               actual := tx.months[month].actual + actual)]), 1)
    else (tx, 0)
  }

  function AddLateCostCas(tx: Db, month: int, actual: int): Affected {
    if month in tx.months
      then (tx.(months := tx.months[month := tx.months[month].(actual := tx.months[month].actual + actual)]), 1)
    else (tx, 0)
  }

  function MoveToUnattributedCas(tx: Db, month: int, release: int, add: int): Affected {
    if month in tx.months && tx.months[month].reserved >= release
    then (tx.(months := tx.months[month := tx.months[month].(reserved := tx.months[month].reserved - release,
                                                               unattributed := tx.months[month].unattributed + add)]),
                                                                 1)
    else (tx, 0)
  }
}
