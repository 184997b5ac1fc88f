/** Drafts as transactions: create, save, abandon, start a Goal, and adopt a suggestion. */
module DraftTransactions {
  import opened Base
  import opened Rows
  import opened MapSum
  import opened Keys
  import opened Schema
  import opened Ledger
  import opened Text
  import opened Views
  import opened UseCases
  import opened Statements
  import opened Queries
  import opened Transactions
  import opened Fresh
  import GoalDomain

  method CreateDraft(before: Db, ghost history: History, user: Id, body: string, id: Id)
    returns (answer: Answer, tx: Db)
    requires Indexed(before) && id !in before.drafts
    ensures Does(UseCases.CreateDraft(World(before, history), user, body, id), answer, tx)
  {
    var normalized := NormalizeBody(body, true);
    if normalized.Err? {
      return Refused(InvalidText), before;
    }
    if user !in before.users {
      return Refused(NotFound), before;
    }
    var existing := FindCreation(before, user);
    if existing.Some? {
      return Refused(DraftAlreadyExists), before;
    }
    var (inserted, rows) := InsertDraft(before, id, Draft(user, Creation, normalized.value, None, 0));
    return if rows == 1 then Created(id) else Refused(InvariantViolated), inserted;
  }

  /** Save over the locked row; saving the same text writes nothing. */
  method SaveLocked(before: Db, ghost history: History, id: Id, body: string, patch: Patch, expected: int,
                    conflict: Error)
    returns (answer: Answer, tx: Db)
    requires id in before.drafts
    ensures Does(SaveDraftRow(World(before, history), id, body, patch, expected, conflict), answer, tx)
  {
    var current := before.drafts[id];
    var saved := GoalDomain.SaveDraft(current, body, Patched(current, patch), expected);
    if saved.Err? {
      return Refused(if saved.error == DraftRevisionConflict then conflict else saved.error), before;
    }
    if saved.value == current {
      return Done, before;
    }
    var (written, rows) := SaveDraftCas(before, id, saved.value, current.revision);
    return if rows == 1 then Done else Refused(InvariantViolated), written;
  }

  method SaveDraft(before: Db, ghost history: History, user: Id, id: Id, body: string, patch: Patch, expected: int)
    returns (answer: Answer, tx: Db)
    ensures Does(UseCases.SaveDraft(World(before, history), user, id, body, patch, expected), answer, tx)
  {
    if !OwnsDraft(before, user, id) || before.drafts[id].kind != Creation {
      return Refused(NotFound), before;
    }
    answer, tx := SaveLocked(before, history, id, body, patch, expected, DraftRevisionConflict);
  }

  method SaveReview(before: Db, ghost history: History, user: Id, goal: Id, id: Id, body: string, patch: Patch,
                    expected: int)
    returns (answer: Answer, tx: Db)
    requires Indexed(before)
    ensures Does(UseCases.SaveReview(World(before, history), user, goal, id, body, patch, expected), answer, tx)
  {
    if !OwnsGoal(before, user, goal) {
      return Refused(NotFound), before;
    }
    var version := FindVersion(before, goal);
    if version.None? {
      return Refused(NotFound), before;
    }
    if before.goals[goal].status != GoalReview {
      return Refused(ReviewNotActive), before;
    }
    if !OwnsDraft(before, user, id) {
      return Refused(ReviewRevisionConflict), before;
    }
    var kind := before.drafts[id].kind;
    if !kind.Review? || kind.goal != goal {
      return Refused(ReviewRevisionConflict), before;
    }
    answer, tx := SaveLocked(before, history, id, body, patch, expected, ReviewRevisionConflict);
  }

  // The generations and usages of a Draft that goes.

  /** Those that must be kept without content, and those that may go. */
  method PartitionUsages(tx: Db, usages: set<Id>, now: int) returns (retained: set<Id>, expired: set<Id>)
    requires usages <= tx.usages.Keys
    ensures forall id :: id in retained <==> id in usages && Retained(tx.usages[id], now)
    ensures forall id :: id in expired <==> id in usages && !Retained(tx.usages[id], now)
  {
    retained, expired := {}, {};
    var rest := usages;
    while rest != {}
      invariant rest <= usages
      invariant forall id :: id in retained <==> id in usages && id !in rest && Retained(tx.usages[id], now)
      invariant forall id :: id in expired <==> id in usages && id !in rest && !Retained(tx.usages[id], now)
      decreases |rest|
    {
      var id :| id in rest;
      if now < tx.usages[id].retainUntil || tx.usages[id].finalizedAt.None? {
        retained := retained + {id};
      } else {
        expired := expired + {id};
      }
      rest := rest - {id};
    }
  }

  /** The usages of a User's generations are the User's own. */
  ghost predicate OwnUsages(db: Db, user: Id, ids: set<Id>) {
    forall id :: id in ids && id in db.usages ==> db.usages[id].user == user
  }

  /** Redact what the quota or a settlement still needs, delete the rest. */
  method RemoveUsages(before: Db, user: Id, ids: set<Id>, now: int) returns (ok: bool, tx: Db)
    requires OwnUsages(before, user, ids)
    ensures ok && tx == before.(usages := DropUsages(before.usages, ids, now))
  {
    var usages := UsagesOf(before, user, ids);
    var retained, expired := PartitionUsages(before, usages, now);
    var (redacted, rows) := RedactUsages(before, user, retained);
    assert UsagesOf(before, user, retained) == retained;
    if rows != |retained| {
      return false, before;
    }
    var (removed, rows') := DeleteExpiredUsages(redacted, user, expired, now);
    assert ExpiredUsagesOf(redacted, user, expired, now) == expired;
    assert removed.usages == DropUsages(before.usages, ids, now);
    return rows' == |expired|, removed;
  }

  /** The finished generations of a Draft go, with or without their usages, and then the Draft. */
  method RemoveDraft(before: Db, user: Id, draft: Id, now: int) returns (ok: bool, tx: Db)
    requires OwnsDraft(before, user, draft) && !RunsOnDraft(before.generations, draft)
    requires OwnUsages(before, user, GenerationsOfDraft(before.generations, user, draft))
    ensures var gone := GenerationsOfDraft(before.generations, user, draft);
            ok && tx ==
              before.(usages := DropUsages(before.usages, gone, now), generations := Without(before.generations, gone),
                                drafts := Without(before.drafts, {draft}))
  {
    var gone := GenerationsOfDraft(before.generations, user, draft);
    var dropped;
    ok, dropped := RemoveUsages(before, user, gone, now);
    if !ok {
      return false, before;
    }
    var (deleted, rows) := DeleteDraftGenerations(dropped, user, draft, gone);
    assert FinishedAmong(dropped, user, draft, gone) == gone;
    if rows != |gone| {
      return false, before;
    }
    var (removed, rows') := DeleteDraftCas(deleted, draft, user, before.drafts[draft].revision);
    return rows' == 1, removed;
  }

  method AbandonDraft(before: Db, ghost history: History, user: Id, id: Id, now: int) returns (answer: Answer, tx: Db)
    requires OwnUsages(before, user, GenerationsOfDraft(before.generations, user, id))
    ensures Does(UseCases.AbandonDraft(World(before, history), user, id, now), answer, tx)
  {
    if user !in before.users || !OwnsDraft(before, user, id) || before.drafts[id].kind != Creation {
      return Refused(NotFound), before;
    }
    if RunsOnDraft(before.generations, id) {
      return Refused(InProgress), before;
    }
    var ok;
    ok, tx := RemoveDraft(before, user, id, now);
    return if ok then Done else Refused(InvariantViolated), tx;
  }

  // A Draft that becomes a Goal.

  /** Every generation of the Draft still has its usage, and it is the User's. */
  ghost predicate Charged(db: Db, user: Id, ids: set<Id>) {
    forall id :: id in ids ==> id in db.usages && db.usages[id].user == user
  }

  /** The generations of a consumed Draft, and the usages that are still there, move to the Goal. */
  method AttachToGoal(before: Db, user: Id, draft: Id, moved: set<Id>, usages: set<Id>, goal: Id, version: Id)
    returns (ok: bool, tx: Db)
    requires moved == GenerationsOfDraft(before.generations, user, draft)
    requires OwnUsages(before, user, moved)
    requires UsagesOf(before, user, moved) <= usages <= moved
    ensures ok == (UsagesOf(before, user, usages) == usages)
    ensures ok ==> tx == before.(generations := Attach(before.generations, moved, goal, version),
                                 usages := AttachUsages(before.usages, moved, goal))
  {
    var (attached, rows) := AttachDraftGenerations(before, user, draft, moved, goal, version);
    assert GenerationsAmong(before, user, draft, moved) == moved;
    if rows != |moved| {
      assert false;
      return false, before;
    }
    var (charged, rows') := AttachUsageToGoal(attached, user, usages, goal);
    SameCount(UsagesOf(attached, user, usages), usages);
    assert UsagesOf(attached, user, usages) == UsagesOf(before, user, usages);
    if rows' != |usages| {
      return false, before;
    }
    assert charged.usages == AttachUsages(before.usages, moved, goal);
    return true, charged;
  }

  lemma {:induction false} SameCount(some: set<Id>, all: set<Id>)
    requires some <= all
    ensures |some| == |all| <==> some == all
  {
    if some != all {
      assert |all| == |some| + |all - some| by {
        assert some + (all - some) == all;
      }
      assert all - some != {};
    }
  }

  /** Insert the Goal, its first Version and its first Cycle, which claims the operation. */
  method InsertAggregate(before: Db, i: StartInput, s: GoalDomain.Started) returns (ok: bool, tx: Db)
    requires i.goal !in before.goals && i.version !in before.versions && i.cycle !in before.cycles
    requires !Has(before.cycles, StartKey, (s.cycle.user, s.cycle.start.operation))
    ensures ok && tx ==
              before.(goals := before.goals[i.goal := s.goal], versions := before.versions[i.version := s.version],
                                cycles := before.cycles[i.cycle := s.cycle])
  {
    var (entered, rows) := InsertGoal(before, i.goal, s.goal);
    if rows != 1 {
      return false, before;
    }
    var (named, rows') := InsertVersion(entered, i.version, s.version);
    if rows' != 1 {
      return false, before;
    }
    var (claimed, rows'') := TryInsertCycleClaim(named, i.cycle, s.cycle);
    return rows'' == 1, claimed;
  }

  method StartGoal(cfg: Config, before: Db, ghost history: History, i: StartInput) returns (answer: Answer, tx: Db)
    requires Indexed(before) && i.goal !in before.goals && i.version !in before.versions && i.cycle !in before.cycles
    requires Charged(before, i.user, GenerationsOfDraft(before.generations, i.user, i.draft))
    requires var step := UseCases.StartGoal(cfg, World(before, history), i);
             step.answer == Created(i.goal) ==> Readable(step.world.db, i.user, i.goal, i.cycle)
    ensures Does(UseCases.StartGoal(cfg, World(before, history), i), answer, tx)
  {
    var claim := Claim(i.operation, StartRequest(i.draft, i.expected));
    if i.user !in before.users {
      return Refused(NotFound), before;
    }
    var replay := FindStart(before, i.user, i.operation);
    if replay.Some? {
      var c := before.cycles[replay.value];
      if c.start.request != claim.request {
        return Refused(IdempotencyKeyReused), before;
      }
      var valid := StartReplay(before, i.user, c.goal, replay.value);
      return if valid then Replayed else Refused(InvariantViolated), before;
    }
    if !OwnsDraft(before, i.user, i.draft) || before.drafts[i.draft].kind != Creation {
      return Refused(NotFound), before;
    }
    var draft := before.drafts[i.draft];
    if draft.revision != i.expected {
      return Refused(DraftRevisionConflict), before;
    }
    var started := GoalDomain.StartInitial(draft, i.goal, i.version, claim);
    if started.Err? {
      return Refused(InvalidText), before;
    }
    if RunsOnDraft(before.generations, i.draft) {
      return Refused(InProgress), before;
    }
    var progressing := Total(before.goals, ProgressingOf(i.user));
    if progressing >= cfg.goalLimit {
      return Refused(ActiveGoalLimit), before;
    }
    if !i.rateOk {
      return Refused(RateLimited), before;
    }
    var ok;
    ok, tx := InsertAggregate(before, i, started.value);
    if !ok {
      return Refused(InvariantViolated), before;
    }
    var moved := GenerationsOfDraft(before.generations, i.user, i.draft);
    assert UsagesOf(tx, i.user, moved) == moved;
    ok, tx := AttachToGoal(tx, i.user, i.draft, moved, moved, i.goal, i.version);
    if !ok {
      return Refused(InvariantViolated), before;
    }
    var (removed, rows) := DeleteDraftCas(tx, i.draft, i.user, draft.revision);
    if rows != 1 {
      return Refused(InvariantViolated), before;
    }
    assert removed == UseCases.StartGoal(cfg, World(before, history), i).world.db;
    var readable := StartReplay(removed, i.user, i.goal, i.cycle);
    return if readable then Created(i.goal) else Refused(InvariantViolated), removed;
  }
}
