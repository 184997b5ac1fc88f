/** Goal refinement as transactions: begin, finish, and adopting what was suggested. */
module RefineTransactions {
  import opened Base
  import opened Rows
  import opened Keys
  import opened Schema
  import opened Ledger
  import opened Text
  import opened UseCases
  import opened Statements
  import opened Queries
  import opened Transactions
  import opened ActionTransactions

  /** The Goal a refinement names is there, with its current Version. */
  method LockGoal(tx: Db, user: Id, goal: Option<Id>) returns (found: bool)
    requires Indexed(tx)
    ensures found == (goal.Some? ==> OwnsGoal(tx, user, goal.value) && CurrentVersion(tx, goal.value).Some?)
  {
    if goal.None? {
      return true;
    }
    if !OwnsGoal(tx, user, goal.value) {
      return false;
    }
    var version := FindVersion(tx, goal.value);
    return version.Some?;
  }

  method VersionOf(tx: Db, goal: Option<Id>) returns (version: Option<Id>)
    requires Indexed(tx) && (goal.Some? ==> goal.value in tx.goals)
    ensures version == if goal.Some? then CurrentVersion(tx, goal.value) else None
  {
    if goal.None? {
      return None;
    }
    version := FindVersion(tx, goal.value);
  }

  method CheckRefine(cfg: Config, tx: Db, i: RefineInput, draft: Id) returns (refusal: Option<Error>)
    requires Indexed(tx) && draft in tx.drafts && (i.goal.Some? ==> i.goal.value in tx.goals)
    ensures refusal == RefineError(cfg, tx, i, draft)
  {
    var d := tx.drafts[draft];
    if d.revision != i.expected {
      return Some(if i.goal.Some? then ReviewRevisionConflict else DraftRevisionConflict);
    }
    if Blank(d.body) {
      return Some(InputIncomplete);
    }
    if i.goal.Some? {
      if i.goalRevision.None? {
        return Some(GoalStateConflict);
      }
      var version := FindVersion(tx, i.goal.value);
      if tx.goals[i.goal.value].revision != i.goalRevision.value || !d.kind.Review? ||
        Some(d.kind.baseVersion) != version {
        return Some(GoalRevisionConflict);
      }
    }
    if !i.contextOk {
      return Some(ContextRejected);
    }
    var running := RunsOnDraft(tx.generations, draft);
    refusal := CheckAdmission(cfg, tx, i.user, i.month, running, i.rateOk, i.now);
  }

  /** Once expired reservations are back: refuse and drop what was written so far, or accept. */
  method AcceptRefine(cfg: Config, before: Db, recovered: Db, ghost history: History, i: RefineInput, draft: Id)
    returns (answer: Answer, tx: Db)
    requires Indexed(before) && draft in before.drafts && (i.goal.Some? ==> i.goal.value in before.goals)
    requires Indexed(recovered) && draft in recovered.drafts && (i.goal.Some? ==> i.goal.value in recovered.goals)
    requires i.id !in recovered.generations && i.id !in recovered.usages
    ensures var refusal, d := RefineError(cfg, recovered, i, draft), before.drafts[draft];
            var version := if i.goal.Some? then CurrentVersion(before, i.goal.value) else None;
            if refusal.Some? then answer == Refused(refusal.value) && tx == before
            else
              && answer == Begun(i.id)
              && tx == Accept(World(recovered, history), i.id, RefineGeneration(cfg, i, draft, d, version), i.now,
                              d.body, d.revision).db
  {
    var refusal := CheckRefine(cfg, recovered, i, draft);
    if refusal.Some? {
      return Refused(refusal.value), before;
    }
    var version := VersionOf(before, i.goal);
    var d := before.drafts[draft];
    var ok;
    ok, tx := AcceptOperation(recovered, history, i.id, RefineGeneration(cfg, i, draft, d, version), i.now, d.body,
                              d.revision);
    return if ok then Begun(i.id) else Refused(InvariantViolated), tx;
  }

  method BeginRefine(cfg: Config, before: Db, ghost history: History, i: RefineInput) returns (answer: Answer, tx: Db)
    requires Indexed(before) && Releasable(before, ExpiredIds(before.generations, i.user, i.now))
    requires i.id !in before.generations && i.id !in before.usages
    ensures Does(UseCases.BeginRefine(cfg, World(before, history), i), answer, tx)
  {
    if i.user !in before.users {
      return Refused(NotFound), before;
    }
    var found := LockGoal(before, i.user, i.goal);
    if !found {
      return Refused(NotFound), before;
    }
    if i.goal.Some? && before.goals[i.goal.value].status != GoalReview {
      return Refused(ReviewNotActive), before;
    }
    var located := FindRefineDraft(before, i.user, i.draft, i.goal);
    if located.None? {
      return Refused(NotFound), before;
    }
    var draft := located.value;
    var d := before.drafts[draft];
    if !DraftFits(d, i.goal) {
      return Refused(DraftTypeMismatch), before;
    }
    var ok;
    ok, tx := RecoverExpired(before, history, i.user, i.now);
    if !ok {
      return Refused(InvariantViolated), before;
    }
    RecoveredIndexed(before, history, i.user, i.now);
    var replay := FindReplay(tx, i.user, GoalRefine, i.key);
    if replay.Some? {
      var g := tx.generations[replay.value];
      return if g.request != RefineRequestOf(i, draft) then Refused(IdempotencyKeyReused)
        else ReplayAnswer(replay.value, g), tx;
    }
    answer, tx := AcceptRefine(cfg, before, tx, Recover(World(before, history), i.user, i.now).history, i, draft);
  }

  method FinishRefine(before: Db, ghost history: History, f: FinishInput) returns (answer: Answer, tx: Db)
    requires Indexed(before) && Settleable(before, f.id)
    ensures Does(UseCases.FinishRefine(World(before, history), f), answer, tx)
  {
    if f.id !in before.generations {
      answer, tx := FinishLate(before, history, f);
      return;
    }
    var g := before.generations[f.id];
    if g.operation != GoalRefine {
      return Refused(InvariantViolated), before;
    }
    if g.status != Running {
      answer, tx := FinishLate(before, history, f);
      return;
    }
    if g.user !in before.users {
      return Refused(NotFound), before;
    }
    var found := LockGoal(before, g.user, g.goal);
    if !found {
      answer, tx := FinishLate(before, history, f);
      return;
    }
    var located := FindRefineDraft(before, g.user, g.draft, g.goal);
    if located.None? {
      answer, tx := FinishLate(before, history, f);
      return;
    }
    var d := before.drafts[located.value];
    if !DraftFits(d, g.goal) {
      return Refused(InvariantViolated), before;
    }
    if g.draft != located {
      answer, tx := FinishLate(before, history, f);
      return;
    }
    if g.targetRevision != f.targetRevision || f.id !in before.usages {
      return Refused(InvariantViolated), before;
    }
    var failure := f.failure;
    if g.goal.Some? && before.goals[g.goal.value].status != GoalReview {
      failure := Some(ProviderUnavailable);
    }
    var changed := d.revision != g.targetRevision;
    var ok;
    ok, tx :=
      SettleOperation(before, history, f.id, Terminal(g, f.output, failure, changed), f.cost, failure.Some?, f.now);
    if !ok {
      return Refused(InvariantViolated), before;
    }
    return FinishAnswer(f, failure, changed), tx;
  }

  /** Write the suggestion over exactly the revision that was locked, then mark it adopted, once. */
  method WriteSuggestion(before: Db, draft: Id, generation: Id, output: string) returns (ok: bool, tx: Db)
    requires draft in before.drafts && generation in before.generations
    requires var g := before.generations[generation];
             g.operation == GoalRefine && g.status == Succeeded && g.adopted.None?
    ensures var d := before.drafts[draft].(body := output, revision := before.drafts[draft].revision + 1);
            ok && tx == before.(drafts := before.drafts[draft := d],
                                generations := before.generations[generation :=
                                    before.generations[generation].(adopted := Some(d.revision))])
  {
    var d := before.drafts[draft];
    var (written, rows) := SaveDraftCas(before, draft, d.(body := output, revision := d.revision + 1), d.revision);
    if rows != 1 {
      return false, before;
    }
    var (marked, rows') := MarkAdoptedCas(written, generation, d.revision + 1);
    return rows' == 1, marked;
  }

  method AdoptSuggestion(before: Db, ghost history: History, i: AdoptInput) returns (answer: Answer, tx: Db)
    requires Indexed(before)
    ensures Does(UseCases.AdoptSuggestion(World(before, history), i), answer, tx)
  {
    if i.user !in before.users {
      return Refused(NotFound), before;
    }
    if i.goal.Some? && i.goalRevision.None? {
      return Refused(GoalRevisionConflict), before;
    }
    var found := LockGoal(before, i.user, i.goal);
    if !found {
      return Refused(NotFound), before;
    }
    if i.goal.Some? && before.goals[i.goal.value].status != GoalReview {
      return Refused(ReviewNotActive), before;
    }
    if i.goal.Some? && before.goals[i.goal.value].revision != i.goalRevision.value {
      return Refused(GoalRevisionConflict), before;
    }
    var located := FindRefineDraft(before, i.user, i.draft, i.goal);
    if located.None? {
      return Refused(NotFound), before;
    }
    var d := before.drafts[located.value];
    if !DraftFits(d, i.goal) {
      return Refused(DraftTypeMismatch), before;
    }
    if i.generation !in before.generations {
      return Refused(SuggestionNotFound), before;
    }
    var g := before.generations[i.generation];
    if g.user != i.user || g.operation != GoalRefine || g.draft != located || g.status != Succeeded {
      return Refused(SuggestionNotFound), before;
    }
    var output := if g.output.Some? then g.output.value else "";
    if g.adopted.Some? {
      return if d.revision == g.adopted.value && d.body == output then Replayed else Refused(AlreadyAdopted), before;
    }
    if d.revision != i.expected || g.targetRevision > d.revision || Some(d.body) != g.source {
      return Refused(ContextStale), before;
    }
    var ok;
    ok, tx := WriteSuggestion(before, located.value, i.generation, output);
    return if ok then Done else Refused(InvariantViolated), tx;
  }
}
