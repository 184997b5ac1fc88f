/**
 What each use case does: the world it leaves and what it answers. A use case is one transaction, so
 a refusal that the source reports before committing leaves the world as it was.
 */
module UseCases {
  import opened Base
  import opened Rows
  import opened Ledger
  import opened MapSum
  import opened Keys
  import opened Schema
  import opened Text
  import opened Views
  import CycleDomain
  import GoalDomain

  function Refuse(w: World, error: Error): Step { Step(w, Refused(error)) }

  /** A repeated command changes nothing; its answer must pass the replay validator. */
  function Repeated(w: World, valid: bool): Step {
    if valid then Step(w, Replayed) else Refuse(w, InvariantViolated)
  }

  predicate ExceedsBudget(months: map<int, Budget>, month: int, amount: int, limit: int) {
    Spent(months, month) + amount > limit
  }

  /**
   The usages of removed generations: kept without content while the quota or a settlement needs them, else deleted.
   */
  predicate Retained(u: Usage, now: int) { now < u.retainUntil || u.finalizedAt == None }

  function Redact(u: Usage): Usage { u.(goal := None, contentDeleted := true) }

  function DropUsages(usages: map<Id, Usage>, ids: set<Id>, now: int): map<Id, Usage> {
    map id | id in usages && (id in ids ==> Retained(usages[id], now)) :: if id in ids then Redact(usages[id])
      else usages[id]
  }

  // Drafts.

  ghost function CreateDraft(w: World, user: Id, body: string, id: Id): Step {
    if NormalizeBody(body, true).Err? then Refuse(w, InvalidText)
    else if user !in w.db.users then Refuse(w, NotFound)
    else if Has(w.db.drafts, CreationKey, user) then Refuse(w, DraftAlreadyExists)
    else Step(w.(db := w.db.(drafts := w.db.drafts[id := Draft(user, Creation, NormalizeBody(body, true).value, None,
                                                               0)]),
                 history := w.history.(issued := w.history.issued + {id})), Created(id))
  }

  datatype Patch = Keep | Replace(signal: Option<string>)

  function Patched(d: Draft, patch: Patch): Option<string> {
    match patch case Keep => d.signal case Replace(s) => s
  }

  function SaveDraftRow(w: World, id: Id, body: string, patch: Patch, expected: int, conflict: Error): Step
    requires id in w.db.drafts
  {
    var d := w.db.drafts[id];
    match GoalDomain.SaveDraft(d, body, Patched(d, patch), expected)
    case Err(e) => Refuse(w, if e == DraftRevisionConflict then conflict else e)
    case Ok(saved) => Step(w.(db := w.db.(drafts := w.db.drafts[id := saved])), Done)
  }

  function SaveDraft(w: World, user: Id, id: Id, body: string, patch: Patch, expected: int): Step {
    if !OwnsDraft(w.db, user, id) || w.db.drafts[id].kind != Creation then Refuse(w, NotFound)
    else SaveDraftRow(w, id, body, patch, expected, DraftRevisionConflict)
  }

  ghost function SaveReview(w: World, user: Id, goal: Id, id: Id, body: string, patch: Patch, expected: int): Step {
    if !OwnsGoal(w.db, user, goal) || CurrentVersion(w.db, goal).None? then Refuse(w, NotFound)
    else if w.db.goals[goal].status != GoalReview then Refuse(w, ReviewNotActive)
    else if !OwnsDraft(w.db, user, id) || !w.db.drafts[id].kind.Review? || w.db.drafts[id].kind.goal != goal then
      Refuse(w, ReviewRevisionConflict)
    else SaveDraftRow(w, id, body, patch, expected, ReviewRevisionConflict)
  }

  ghost function AbandonDraft(w: World, user: Id, id: Id, now: int): Step {
    var db := w.db;
    if user !in db.users || !OwnsDraft(db, user, id) || db.drafts[id].kind != Creation then Refuse(w, NotFound)
    else if RunsOnDraft(db.generations, id) then Refuse(w, InProgress)
    else
      var gone := GenerationsOfDraft(db.generations, user, id);
      Step(w.(db := db.(usages := DropUsages(db.usages, gone, now),
                        generations := Without(db.generations, gone),
                        drafts := Without(db.drafts, {id}))), Done)
  }

  /** Generations of a consumed Draft move to the Goal Version it became. */
  function Attach(generations: map<Id, Generation>, ids: set<Id>, goal: Id, version: Id): map<Id, Generation> {
    map id | id in generations ::
      if id in ids then generations[id].(draft := None, goal := Some(goal), version := Some(version))
        else generations[id]
  }

  function AttachUsages(usages: map<Id, Usage>, ids: set<Id>, goal: Id): map<Id, Usage> {
    map id | id in usages :: if id in ids then usages[id].(goal := Some(goal)) else usages[id]
  }

  datatype StartInput = StartInput(
    user: Id, draft: Id, operation: Id, expected: int, goal: Id, version: Id, cycle: Id, rateOk: bool)

  ghost function StartGoal(cfg: Config, w: World, i: StartInput): Step {
    var db := w.db;
    var claim := Claim(i.operation, StartRequest(i.draft, i.expected));
    if i.user !in db.users then Refuse(w, NotFound) else
    var replay := Lookup(db.cycles, StartKey, (i.user, i.operation));
    if replay.Some? then
      if db.cycles[replay.value].start.request != claim.request then Refuse(w, IdempotencyKeyReused)
      else Repeated(w, StartReplayOk(db, i.user, db.cycles[replay.value].goal, replay.value))
    else if !OwnsDraft(db, i.user, i.draft) || db.drafts[i.draft].kind != Creation then Refuse(w, NotFound)
    else if db.drafts[i.draft].revision != i.expected then Refuse(w, DraftRevisionConflict)
    else if GoalDomain.StartInitial(db.drafts[i.draft], i.goal, i.version, claim).Err? then Refuse(w, InvalidText)
    else if RunsOnDraft(db.generations, i.draft) then Refuse(w, InProgress)
    else if Sum(db.goals, ProgressingOf(i.user)) >= cfg.goalLimit then Refuse(w, ActiveGoalLimit)
    else if !i.rateOk then Refuse(w, RateLimited)
    else
      var s := GoalDomain.StartInitial(db.drafts[i.draft], i.goal, i.version, claim).value;
      var moved := GenerationsOfDraft(db.generations, i.user, i.draft);
      Step(w.(db := db.(goals := db.goals[i.goal := s.goal], versions := db.versions[i.version := s.version],
                        cycles := db.cycles[i.cycle := s.cycle],
                        generations := Attach(db.generations, moved, i.goal, i.version),
                        usages := AttachUsages(db.usages, moved, i.goal),
                        drafts := Without(db.drafts, {i.draft})),
              history := w.history.(issued := w.history.issued + {i.goal, i.version, i.cycle})), Created(i.goal))
  }

  // Action generation and refinement.

  datatype ActionInput = ActionInput(
    user: Id, goal: Id, cycle: Id, operation: Operation, expected: int, replace: bool, key: Id, id: Id,
    month: int, contextOk: bool, rateOk: bool, now: int)

  function ActionRequestOf(i: ActionInput): Request {
    ActionRequest(i.operation, i.goal, i.cycle, i.expected, i.replace)
  }

  function ReplayAnswer(id: Id, g: Generation): Answer {
    match g.status
    case Running => Refused(InProgress)
    case Failed => Refused(OperationFailed(if g.failure.Some? then g.failure.value else ProviderUnavailable))
    case Succeeded =>
      if g.output.None? || g.output.value == "" then Refused(OperationFailed(InvalidResponse))
      else ReplayedOutput(id, g.output.value, g.contextChanged)
  }

  ghost function ReplayAction(w: World, i: ActionInput, id: Id): Step
    requires id in w.db.generations
  {
    var db := w.db;
    var g := db.generations[id];
    if g.request != ActionRequestOf(i) then Refuse(w, IdempotencyKeyReused)
    else if g.status == Running && g.lease.Some? && g.lease.value <= i.now then
      if !OwnsGoal(db, i.user, i.goal) || CurrentVersion(db, i.goal).None? ||
        !OwnsCycle(db, i.user, i.goal, i.cycle) then
        Refuse(w, NotFound)
      else Step(Recover(w, i.user, i.now), Refused(OperationFailed(LeaseExpired)))
    else if g.status == Succeeded && g.output.Some? && g.output.value != "" &&
            (!OwnsGoal(db, i.user, i.goal) || CurrentVersion(db, i.goal).None? ||
             !OwnsCycle(db, i.user, i.goal, i.cycle)) then
      Refuse(w, NotFound)
    else Step(w, ReplayAnswer(id, g))
  }

  /** What may still refuse an operation once expired leases are recovered; None when it is accepted. */
  ghost function AdmissionError(cfg: Config, db: Db, user: Id, month: int, running: bool, rateOk: bool, now: int)
    : Option<Error>
  {
    if running then Some(InProgress)
    else if |RollingUsage(db.usages, user, now - ROLLING_WINDOW)| >= cfg.quota then Some(UserLimit)
    else if !rateOk then Some(RateLimited)
    else if ExceedsBudget(db.months, month, cfg.reservation, cfg.budget) then Some(Error.OverBudget)
    else None
  }

  ghost function ActionError(cfg: Config, db: Db, i: ActionInput): Option<Error>
    requires i.goal in db.goals && i.cycle in db.cycles
  {
    var c := db.cycles[i.cycle];
    if Some(c.version) != CurrentVersion(db, i.goal) then Some(GoalVersionConflict)
    else if c.revisions.content != i.expected then Some(RevisionConflict)
    else if Blank(c.plan) || Blank(c.doing) || Blank(c.check) then Some(InputIncomplete)
    else if i.operation == ActionRefine && Blank(c.action) then Some(InputIncomplete)
    else if i.operation == ActionGenerate && !Blank(c.action) && !i.replace then Some(ReplacementRequired)
    else if !i.contextOk then Some(ContextRejected)
    else AdmissionError(cfg, db, i.user, i.month, RunsOnCycle(db.generations, i.user, i.goal, i.cycle), i.rateOk, i.now)
  }

  function ActionGeneration(cfg: Config, i: ActionInput, c: Cycle): Generation {
    Generation(i.user, i.operation, Running, None, Some(i.goal), Some(c.version), Some(i.cycle), c.revisions.content,
               i.key,
               ActionRequestOf(i), if i.operation == ActionRefine then Some(c.action) else None, None,
               i.month, cfg.reservation, Some(i.now + cfg.lease), false, None, None)
  }

  ghost function BeginAction(cfg: Config, w: World, i: ActionInput): Step {
    var db := w.db;
    if i.operation == GoalRefine then Refuse(w, InputIncomplete)
    else if i.user !in db.users then Refuse(w, NotFound) else
    var replay := Lookup(db.generations, ReplayKey, (i.user, i.operation, i.key));
    if replay.Some? then ReplayAction(w, i, replay.value)
    else if !OwnsGoal(db, i.user, i.goal) || CurrentVersion(db, i.goal).None? ||
      !OwnsCycle(db, i.user, i.goal, i.cycle) then
      Refuse(w, NotFound)
    else if db.goals[i.goal].status != ActiveCycle then Refuse(w, GoalStateConflict)
    else if db.cycles[i.cycle].status != Active then Refuse(w, CycleNotActive)
    else
      var r := Recover(w, i.user, i.now);
      var c := db.cycles[i.cycle];
      match ActionError(cfg, r.db, i)
      case Some(e) => Refuse(w, e)
      case None => Step(Accept(r, i.id, ActionGeneration(cfg, i, c), i.now, c.action, c.revisions.action), Begun(i.id))
  }

  datatype FinishInput = FinishInput(
    id: Id, operation: Operation, targetRevision: nat, output: string, cost: nat, failure: Option<Failure>, now: int)

  function Late(w: World, f: FinishInput): Step {
    Step(SettleLate(w, f.id, f.cost, f.failure.Some?, f.now), Refused(NotFound))
  }

  function FinishAnswer(f: FinishInput, failure: Option<Failure>, changed: bool): Answer {
    if failure.Some? then Refused(ProviderFailed(failure.value)) else ReplayedOutput(f.id, f.output, changed)
  }

  ghost function FinishAction(w: World, f: FinishInput): Step {
    var db := w.db;
    if f.id !in db.generations then Late(w, f) else
    var g := db.generations[f.id];
    if g.operation == GoalRefine || g.operation != f.operation then Refuse(w, InvariantViolated)
    else if g.status != Running then Late(w, f)
    else if g.user !in db.users then Refuse(w, NotFound)
    else if g.goal.None? || !OwnsGoal(db, g.user, g.goal.value) || CurrentVersion(db, g.goal.value).None? ||
            g.cycle.None? || !OwnsCycle(db, g.user, g.goal.value, g.cycle.value) then Late(w, f)
    else if g.targetRevision != f.targetRevision || f.id !in db.usages then Refuse(w, InvariantViolated)
    else
      var c := db.cycles[g.cycle.value];
      var failure :=
        if Some(c.version) != g.version || CurrentVersion(db, g.goal.value) != g.version then Some(VersionConflict)
        else if db.goals[g.goal.value].status != ActiveCycle || c.status != Active then Some(ProviderUnavailable)
        else f.failure;
      var changed := c.revisions.content != g.targetRevision;
      if failure.None? && CycleDomain.ApplyAiAction(c, f.output).Err? then Refuse(w, InvariantViolated)
      else
        var settled := Settle(w, f.id, Terminal(g, f.output, failure, changed), f.cost, failure.Some?, f.now);
        var applied := if failure.Some? then db.cycles
          else db.cycles[g.cycle.value := CycleDomain.ApplyAiAction(c, f.output).value];
        Step(settled.(db := settled.db.(cycles := applied)), FinishAnswer(f, failure, changed))
  }

  // Goal refinement.

  datatype RefineInput = RefineInput(
    user: Id, draft: Option<Id>, goal: Option<Id>, expected: int, goalRevision: Option<int>, key: Id, id: Id,
    month: int, contextOk: bool, rateOk: bool, now: int)

  /** The Draft a refinement works on: named, or the Goal's Review Draft. */
  ghost function RefineDraft(db: Db, user: Id, draft: Option<Id>, goal: Option<Id>): Option<Id> {
    if draft.Some? then if OwnsDraft(db, user, draft.value) then draft else None
    else if goal.Some? then ReviewDraft(db, user, goal.value)
    else None
  }

  predicate DraftFits(d: Draft, goal: Option<Id>) {
    match goal
    case None => d.kind == Creation
    case Some(g) => d.kind.Review? && d.kind.goal == g
  }

  function RefineRequestOf(i: RefineInput, draft: Id): Request {
    RefineRequest(draft, i.goal, i.expected, i.goalRevision)
  }

  ghost function RefineError(cfg: Config, db: Db, i: RefineInput, draft: Id): Option<Error>
    requires draft in db.drafts && (i.goal.Some? ==> i.goal.value in db.goals)
  {
    var d := db.drafts[draft];
    if d.revision != i.expected then Some(if i.goal.Some? then ReviewRevisionConflict else DraftRevisionConflict)
    else if Blank(d.body) then Some(InputIncomplete)
    else if i.goal.Some? && i.goalRevision.None? then Some(GoalStateConflict)
    else if i.goal.Some? && (db.goals[i.goal.value].revision != i.goalRevision.value ||
                             !d.kind.Review? || Some(d.kind.baseVersion) != CurrentVersion(db, i.goal.value))
                                 then Some(GoalRevisionConflict)
    else if !i.contextOk then Some(ContextRejected)
    else AdmissionError(cfg, db, i.user, i.month, RunsOnDraft(db.generations, draft), i.rateOk, i.now)
  }

  function RefineGeneration(cfg: Config, i: RefineInput, draft: Id, d: Draft, version: Option<Id>): Generation {
    Generation(i.user, GoalRefine, Running, Some(draft), i.goal, version, None, d.revision, i.key,
               RefineRequestOf(i, draft), Some(d.body), None, i.month, cfg.reservation, Some(i.now + cfg.lease), false,
                 None, None)
  }

  ghost function BeginRefine(cfg: Config, w: World, i: RefineInput): Step {
    var db := w.db;
    if i.user !in db.users then Refuse(w, NotFound)
    else if i.goal.Some? && (!OwnsGoal(db, i.user, i.goal.value) || CurrentVersion(db, i.goal.value).None?)
      then Refuse(w, NotFound)
    else if i.goal.Some? && db.goals[i.goal.value].status != GoalReview then Refuse(w, ReviewNotActive)
    else if RefineDraft(db, i.user, i.draft, i.goal).None? then Refuse(w, NotFound)
    else
      var draft := RefineDraft(db, i.user, i.draft, i.goal).value;
      var d := db.drafts[draft];
      if !DraftFits(d, i.goal) then Refuse(w, DraftTypeMismatch)
      else
        var r := Recover(w, i.user, i.now);
        var replay := Lookup(r.db.generations, ReplayKey, (i.user, GoalRefine, i.key));
        if replay.Some? then
          var g := r.db.generations[replay.value];
          Step(r, if g.request != RefineRequestOf(i, draft) then Refused(IdempotencyKeyReused)
               else ReplayAnswer(replay.value, g))
        else
          match RefineError(cfg, r.db, i, draft)
          case Some(e) => Refuse(w, e)
          case None =>
            var version := if i.goal.Some? then CurrentVersion(db, i.goal.value) else None;
            Step(Accept(r, i.id, RefineGeneration(cfg, i, draft, d, version), i.now, d.body, d.revision), Begun(i.id))
  }

  ghost function FinishRefine(w: World, f: FinishInput): Step {
    var db := w.db;
    if f.id !in db.generations then Late(w, f) else
    var g := db.generations[f.id];
    if g.operation != GoalRefine then Refuse(w, InvariantViolated)
    else if g.status != Running then Late(w, f)
    else if g.user !in db.users then Refuse(w, NotFound)
    else if g.goal.Some? && (!OwnsGoal(db, g.user, g.goal.value) || CurrentVersion(db, g.goal.value).None?)
      then Late(w, f)
    else if RefineDraft(db, g.user, g.draft, g.goal).None? then Late(w, f)
    else
      var draft := RefineDraft(db, g.user, g.draft, g.goal).value;
      var d := db.drafts[draft];
      if !DraftFits(d, g.goal) then Refuse(w, InvariantViolated)
      else if g.draft != Some(draft) then Late(w, f)
      else if g.targetRevision != f.targetRevision || f.id !in db.usages then Refuse(w, InvariantViolated)
      else
        var failure := if g.goal.Some? && db.goals[g.goal.value].status != GoalReview then Some(ProviderUnavailable)
          else f.failure;
        var changed := d.revision != g.targetRevision;
        Step(Settle(w, f.id, Terminal(g, f.output, failure, changed), f.cost, failure.Some?, f.now),
             FinishAnswer(f, failure, changed))
  }

  datatype AdoptInput = AdoptInput(user: Id, draft: Option<Id>, goal: Option<Id>, generation: Id, expected: int,
                                   goalRevision: Option<int>)

  ghost function AdoptSuggestion(w: World, i: AdoptInput): Step {
    var db := w.db;
    if i.user !in db.users then Refuse(w, NotFound)
    else if i.goal.Some? && i.goalRevision.None? then Refuse(w, GoalRevisionConflict)
    else if i.goal.Some? && (!OwnsGoal(db, i.user, i.goal.value) || CurrentVersion(db, i.goal.value).None?)
      then Refuse(w, NotFound)
    else if i.goal.Some? && db.goals[i.goal.value].status != GoalReview then Refuse(w, ReviewNotActive)
    else if i.goal.Some? && db.goals[i.goal.value].revision != i.goalRevision.value then Refuse(w, GoalRevisionConflict)
    else if RefineDraft(db, i.user, i.draft, i.goal).None? then Refuse(w, NotFound)
    else
      var draft := RefineDraft(db, i.user, i.draft, i.goal).value;
      var d := db.drafts[draft];
      if !DraftFits(d, i.goal) then Refuse(w, DraftTypeMismatch)
      else if i.generation !in db.generations || db.generations[i.generation].user != i.user ||
              db.generations[i.generation].operation != GoalRefine ||
                db.generations[i.generation].draft != Some(draft) ||
              db.generations[i.generation].status != Succeeded then Refuse(w, SuggestionNotFound)
      else
        var g := db.generations[i.generation];
        var output := if g.output.Some? then g.output.value else "";
        if g.adopted.Some? then
          if d.revision == g.adopted.value && d.body == output then Step(w, Replayed) else Refuse(w, AlreadyAdopted)
        else if d.revision != i.expected || g.targetRevision > d.revision ||
          Some(d.body) != g.source then Refuse(w, ContextStale)
        else
          var d' := d.(body := output, revision := d.revision + 1);
          Step(w.(db := db.(drafts := db.drafts[draft := d'],
                            generations := db.generations[i.generation := g.(adopted := Some(d'.revision))])), Done)
  }

  // Cycles.

  function PutCycle(w: World, cycle: Id, changed: Result<Cycle, Error>): Step {
    match changed
    case Err(e) => Refuse(w, e)
    case Ok(c) => Step(w.(db := w.db.(cycles := w.db.cycles[cycle := c])), Done)
  }

  ghost function SaveFrame(w: World, user: Id, goal: Id, cycle: Id, frame: Frame, text: string, expected: int): Step {
    var db := w.db;
    if !OwnsGoal(db, user, goal) || !OwnsCycle(db, user, goal, cycle) then Refuse(w, NotFound)
    else if db.goals[goal].status != ActiveCycle then Refuse(w, GoalStateConflict)
    else PutCycle(w, cycle, CycleDomain.SaveFrame(db.cycles[cycle], frame, text, expected,
                                                  frame == ActionFrame
                                                    && RunsOnCycle(db.generations, user, goal, cycle)))
  }

  function ChangeSchedule(w: World, user: Id, goal: Id, cycle: Id, date: Option<int>, expected: int): Step {
    var db := w.db;
    if !OwnsGoal(db, user, goal) || !OwnsCycle(db, user, goal, cycle) then Refuse(w, NotFound)
    else if db.goals[goal].status != ActiveCycle then Refuse(w, GoalStateConflict)
    else PutCycle(w, cycle, CycleDomain.ChangeReviewSchedule(db.cycles[cycle], date, expected))
  }

  datatype CompleteInput = CompleteInput(
    user: Id, goal: Id, cycle: Id, operation: Id, goalRevision: int, contentRevision: int, draft: Id, now: int)

  function CompleteClaim(i: CompleteInput): Claim {
    Claim(i.operation, CompleteRequest(i.goal, i.cycle, i.goalRevision, i.contentRevision))
  }

  ghost function CompleteCycle(w: World, i: CompleteInput): Step {
    var db := w.db;
    var receipt := Lookup(db.cycles, CompletionKey, (i.user, i.operation));
    if i.user !in db.users then Refuse(w, NotFound)
    else if receipt.Some? && db.cycles[receipt.value].completion != Some(CompleteClaim(i))
      then Refuse(w, IdempotencyKeyReused)
    else if receipt.Some? && (receipt.value != i.cycle || db.cycles[receipt.value].goal != i.goal)
      then Refuse(w, IdempotencyKeyReused)
    else if !OwnsGoal(db, i.user, i.goal) then Refuse(w, NotFound)
    else if receipt.Some? then Repeated(w, CompleteReplayOk(db, i.user, i.goal, i.cycle))
    else if !OwnsCycle(db, i.user, i.goal, i.cycle) then Refuse(w, NotFound)
    else if db.goals[i.goal].status != ActiveCycle then Refuse(w, GoalStateConflict)
    else if db.goals[i.goal].revision != i.goalRevision then Refuse(w, GoalRevisionConflict)
    else if CurrentVersion(db, i.goal) != Some(db.cycles[i.cycle].version) then Refuse(w, GoalVersionConflict)
    else
      var versionId := CurrentVersion(db, i.goal).value;
      match CycleDomain.Complete(db.cycles[i.cycle], CompleteClaim(i), i.contentRevision,
          RunsOnCycle(db.generations, i.user, i.goal, i.cycle), i.now)
      case Err(e) => Refuse(w, e)
      case Ok(completed) =>
        var v := db.versions[versionId];
        Step(w.(db := db.(cycles := db.cycles[i.cycle := completed],
                          goals := db.goals[i.goal := GoalDomain.EnterReview(db.goals[i.goal]).value],
                          drafts :=
                            db.drafts[i.draft := Draft(i.user, Review(i.goal, versionId, i.cycle), v.body, v.signal,
                                                       0)]),
                history := w.history.(issued := w.history.issued + {i.draft})), Created(i.draft))
  }

  datatype ReplanInput = ReplanInput(
    user: Id, goal: Id, cycle: Id, operation: Id, goalRevision: int, contentRevision: int, scheduleRevision: int,
    confirmed: bool, next: Id, now: int)

  function ReplanClaim(i: ReplanInput): Claim {
    Claim(i.operation, ReplanRequest(i.goal, i.cycle, i.goalRevision, i.contentRevision, i.scheduleRevision))
  }

  ghost function ReplanCycle(w: World, i: ReplanInput): Step {
    var db := w.db;
    var receipt := Lookup(db.cycles, StartKey, (i.user, i.operation));
    if !i.confirmed then Refuse(w, ConfirmationRequired)
    else if i.user !in db.users then Refuse(w, NotFound)
    else if receipt.Some?
      && (db.cycles[receipt.value].goal != i.goal || db.cycles[receipt.value].start != ReplanClaim(i) ||
                              Predecessor(db, receipt.value) != Some(i.cycle) ||
                                db.cycles[i.cycle].reason != Some(Replanned)) then
      Refuse(w, IdempotencyKeyReused)
    else if !OwnsGoal(db, i.user, i.goal) then Refuse(w, NotFound)
    else if receipt.Some? then Repeated(w, ReplanReplayOk(db, i.user, i.goal, i.cycle, receipt.value))
    else if !OwnsCycle(db, i.user, i.goal, i.cycle) then Refuse(w, NotFound)
    else if db.goals[i.goal].status != ActiveCycle then Refuse(w, GoalStateConflict)
    else if db.goals[i.goal].revision != i.goalRevision then Refuse(w, GoalRevisionConflict)
    else if db.cycles[i.cycle].status != Active then Refuse(w, CycleNotActive)
    else if db.goals[i.goal].nextSequence <= 1 || db.cycles[i.cycle].sequence != db.goals[i.goal].nextSequence - 1
        then Refuse(w, InvariantViolated)
    else if db.cycles[i.cycle].revisions.content != i.contentRevision ||
      db.cycles[i.cycle].scheduleRevision != i.scheduleRevision then
      Refuse(w, RevisionConflict)
    else if CurrentVersion(db, i.goal) != Some(db.cycles[i.cycle].version) then Refuse(w, GoalVersionConflict)
    else if RunsOnCycle(db.generations, i.user, i.goal, i.cycle) then Refuse(w, InProgress)
    else
      var versionId := CurrentVersion(db, i.goal).value;
      match GoalDomain.Replan(i.goal, db.goals[i.goal], versionId, db.versions[versionId], db.cycles[i.cycle],
                              ReplanClaim(i), i.now)
      case Err(e) => Refuse(w, e)
      case Ok(r) =>
        Step(w.(db := db.(cycles := db.cycles[i.cycle := r.canceled][i.next := r.next],
                          goals := db.goals[i.goal := r.goal]),
                history := w.history.(issued := w.history.issued + {i.next})), Created(i.next))
  }

  datatype ContinueInput = ContinueInput(
    user: Id, goal: Id, operation: Id, goalRevision: int, draftRevision: int, version: Id, cycle: Id)

  function ContinueClaim(i: ContinueInput): Claim {
    Claim(i.operation, ContinueRequest(i.goal, i.goalRevision, i.draftRevision))
  }

  ghost function ContinueReview(w: World, i: ContinueInput): Step {
    var db := w.db;
    var receipt := Lookup(db.cycles, StartKey, (i.user, i.operation));
    if receipt.Some?
      && (db.cycles[receipt.value].goal != i.goal || db.cycles[receipt.value].start != ContinueClaim(i)) then
      Refuse(w, IdempotencyKeyReused)
    else if !OwnsGoal(db, i.user, i.goal) then Refuse(w, NotFound)
    else if receipt.Some? then Repeated(w, ContinueReplayOk(db, i.user, i.goal, receipt.value))
    else if db.goals[i.goal].status != GoalReview then Refuse(w, ReviewNotActive)
    else if ReviewDraft(db, i.user, i.goal).None? then Refuse(w, InvariantViolated)
    else
      var draft := ReviewDraft(db, i.user, i.goal).value;
      var d := db.drafts[draft];
      var moved := GenerationsOfDraft(db.generations, i.user, draft);
      if db.goals[i.goal].revision != i.goalRevision then Refuse(w, GoalRevisionConflict)
      else if d.revision != i.draftRevision then Refuse(w, ReviewRevisionConflict)
      else if RunsOnDraft(db.generations, draft) then Refuse(w, InProgress)
      else if CurrentVersion(db, i.goal).None? then Refuse(w, GoalVersionConflict)
      else
        var versionId := CurrentVersion(db, i.goal).value;
        match GoalDomain.ContinueReview(i.goal, db.goals[i.goal], versionId, db.versions[versionId], d, i.version,
                                        ContinueClaim(i))
        case Err(e) => Refuse(w, e)
        case Ok(c) =>
          var selected := c.cycle.version;
          Step(w.(db := db.(goals := db.goals[i.goal := c.goal],
                            versions := if c.version.Some? then db.versions[i.version := c.version.value]
                              else db.versions,
                            cycles := db.cycles[i.cycle := c.cycle],
                            generations := Attach(db.generations, moved, i.goal, selected),
                            usages := AttachUsages(db.usages, moved, i.goal),
                            drafts := Without(db.drafts, {draft})),
                  history := w.history.(issued := w.history.issued + {i.version, i.cycle})), Created(i.cycle))
  }

  datatype TerminateInput = TerminateInput(
    user: Id, goal: Id, operation: Id, outcome: GoalStatus, state: GoalStatus, goalRevision: int,
    cycle: Option<Id>, cycleRevision: Option<int>, discard: bool, now: int)

  function TerminateClaim(i: TerminateInput): Claim {
    Claim(i.operation,
          TerminateRequest(i.goal, i.outcome, i.state, i.goalRevision, i.cycle, i.cycleRevision, i.discard))
  }

  predicate TerminateInputValid(i: TerminateInput) {
    && !Progressing(i.outcome)
    && (i.state == ActiveCycle || i.state == GoalReview)
    && (i.state == ActiveCycle ==> i.cycle.Some? && i.cycleRevision.Some? && !i.discard)
    && (i.state == GoalReview ==> i.cycle.None? && i.cycleRevision.None?)
  }

  ghost function Terminate(w: World, i: TerminateInput): Step {
    var db := w.db;
    var receipt := Lookup(db.goals, TerminalKey, (i.user, i.operation));
    if !TerminateInputValid(i) then Refuse(w, InvalidRequest)
    else if i.user !in db.users then Refuse(w, NotFound)
    else if receipt.Some?
      && (receipt.value != i.goal || db.goals[receipt.value].terminal != Some(TerminateClaim(i))) then
      Refuse(w, IdempotencyKeyReused)
    else if !OwnsGoal(db, i.user, i.goal) then Refuse(w, NotFound)
    else if receipt.Some? then Repeated(w, TerminateReplayOk(db, i.user, i.goal, i.outcome, i.goalRevision, i.cycle))
    else if !Progressing(db.goals[i.goal].status) then Refuse(w, AlreadyTerminal)
    else if db.goals[i.goal].status != i.state then Refuse(w, GoalStateConflict)
    else if i.state == ActiveCycle then TerminateActive(w, i) else TerminateReview(w, i)
  }

  ghost function TerminateActive(w: World, i: TerminateInput): Step
    requires i.goal in w.db.goals && Progressing(w.db.goals[i.goal].status) && !Progressing(i.outcome)
    requires i.cycle.Some? && i.cycleRevision.Some?
  {
    var db := w.db;
    var cycle := i.cycle.value;
    if !OwnsCycle(db, i.user, i.goal, cycle) || db.cycles[cycle].status != Active then Refuse(w, GoalStateConflict)
    else if db.goals[i.goal].revision != i.goalRevision then Refuse(w, GoalStateConflict)
    else if db.cycles[cycle].revisions.content != i.cycleRevision.value then Refuse(w, RevisionConflict)
    else if RunsOnGoal(db.generations, i.user, i.goal) then Refuse(w, InProgress)
    else
      var reason := ReasonOf(i.outcome);
      Step(w.(db := db.(cycles := db.cycles[cycle := CycleDomain.Cancel(db.cycles[cycle], reason, i.now).value],
                        goals :=
                          db.goals[i.goal := GoalDomain.Terminate(db.goals[i.goal], i.outcome, TerminateClaim(i),
                                                                  i.now).value])),
           Done)
  }

  ghost function TerminateReview(w: World, i: TerminateInput): Step
    requires i.goal in w.db.goals && Progressing(w.db.goals[i.goal].status) && !Progressing(i.outcome)
  {
    var db := w.db;
    if ReviewDraft(db, i.user, i.goal).None? then Refuse(w, InvariantViolated)
    else
      var draft := ReviewDraft(db, i.user, i.goal).value;
      var d := db.drafts[draft];
      var gone := GenerationsOfDraft(db.generations, i.user, draft);
      if db.goals[i.goal].revision != i.goalRevision then Refuse(w, GoalStateConflict)
      else if RunsOnDraft(db.generations, draft) then Refuse(w, InProgress)
      else if CurrentVersion(db, i.goal).None? then Refuse(w, InvariantViolated)
      else
        var versionId := CurrentVersion(db, i.goal).value;
        var v := db.versions[versionId];
        if !GoalDomain.ReviewReferences(i.goal, db.goals[i.goal], versionId, v, d) || NormalizeSignal(d.signal).Err?
            then Refuse(w, InvariantViolated)
        else if GoalDomain.Differs(v, d.body, NormalizeSignal(d.signal).value) && !i.discard
          then Refuse(w, DiscardRequired)
        else Step(w.(db := db.(usages := DropUsages(db.usages, gone, i.now),
                               generations := Without(db.generations, gone),
                               drafts := Without(db.drafts, {draft}),
                               goals := db.goals[i.goal := GoalDomain.Terminate(db.goals[i.goal], i.outcome,
                                   TerminateClaim(i), i.now).value])),
                  Done)
  }

  // Deletion.

  function RowsOfGoal<V>(rows: map<Id, V>, goalOf: V -> Option<Id>, goal: Id): set<Id> {
    set id | id in rows && goalOf(rows[id]) == Some(goal)
  }

  function DraftGoal(d: Draft): Option<Id> { if d.kind.Review? then Some(d.kind.goal) else None }

  /** Delete a Goal row; the foreign keys take its Versions, Cycles, Drafts and generations with it. */
  function CascadeGoal(db: Db, goal: Id): Db {
    db.(goals := Without(db.goals, {goal}),
        versions := Without(db.versions, RowsOfGoal(db.versions, (v: Version) => Some(v.goal), goal)),
        cycles := Without(db.cycles, RowsOfGoal(db.cycles, (c: Cycle) => Some(c.goal), goal)),
        drafts := Without(db.drafts, RowsOfGoal(db.drafts, d => DraftGoal(d), goal)),
        generations := GenerationsOutside(db.generations, goal))
  }

  function GenerationsOutside(generations: map<Id, Generation>, goal: Id): map<Id, Generation> {
    Without(generations, RowsOfGoal(generations, (g: Generation) => g.goal, goal))
  }

  predicate ForGoal(u: Usage, user: Id, goal: Id) { u.user == user && u.goal == Some(goal) }

  function RedactGoalUsage(u: Usage): Usage {
    Redact(u).(status := if u.status == UsageStatus.Accepted then UsageFailed else u.status)
  }

  /** A User's usages of a Goal are redacted or deleted; the foreign key forgets the Goal in any other. */
  function DropGoalUsages(usages: map<Id, Usage>, user: Id, goal: Id, now: int): map<Id, Usage> {
    map id | id in usages && (ForGoal(usages[id], user, goal) ==> Retained(usages[id], now)) ::
      if ForGoal(usages[id], user, goal) then RedactGoalUsage(usages[id])
      else if usages[id].goal == Some(goal) then usages[id].(goal := None)
      else usages[id]
  }

  datatype DeleteInput = DeleteInput(user: Id, goal: Id, confirmed: bool, expected: int, key: Id, now: int)

  ghost function DeleteGoal(w: World, i: DeleteInput): Step {
    var db := w.db;
    var request := DeleteRequest(i.goal, i.expected);
    if !i.confirmed then Refuse(w, ConfirmationRequired)
    else if i.user !in db.users then Refuse(w, NotFound)
    else if (i.user, i.key) in db.receipts && db.receipts[(i.user, i.key)].request != request
      then Refuse(w, IdempotencyKeyReused)
    else if (i.user, i.key) in db.receipts && db.receipts[(i.user, i.key)].expiresAt > i.now then Step(w, Replayed)
    else if !OwnsGoal(db, i.user, i.goal) then Refuse(w, NotFound)
    else if db.goals[i.goal].revision != i.expected then Refuse(w, DeleteConflict)
    else
      var r := Release(w, RunningOfGoal(db.generations, i.user, i.goal));
      var d := CascadeGoal(r.db.(usages := DropGoalUsages(r.db.usages, i.user, i.goal, i.now)), i.goal);
      Step(r.(db := d.(receipts := d.receipts[(i.user, i.key) := Receipt(i.goal, request, i.now + RECEIPT_LIFETIME)])),
           Done)
  }

  /** Delete a User row and, by foreign keys, everything the User owns. */
  function CascadeUser(db: Db, user: Id): Db {
    db.(users := db.users - {user},
        goals := map id | id in db.goals && db.goals[id].user != user :: db.goals[id],
        versions := map id | id in db.versions && db.versions[id].user != user :: db.versions[id],
        cycles := map id | id in db.cycles && db.cycles[id].user != user :: db.cycles[id],
        drafts := map id | id in db.drafts && db.drafts[id].user != user :: db.drafts[id],
        generations := GenerationsOfOthers(db.generations, user),
        usages := UsagesOfOthers(db.usages, user),
        receipts := map k | k in db.receipts && k.0 != user :: db.receipts[k])
  }

  function UsagesOfOthers(usages: map<Id, Usage>, user: Id): map<Id, Usage> {
    map id | id in usages && usages[id].user != user :: usages[id]
  }

  ghost function DeleteAccount(w: World, user: Id): Step {
    if user !in w.db.users then Refuse(w, NotFound)
    else
      var x := WriteOff(w, user);
      Step(x.(db := CascadeUser(x.db, user)), Done)
  }

  /** The retention job: redacted usages past their deadline go once they are settled. */
  function Cleanup(w: World, ids: set<Id>, now: int): Step {
    var gone := set id | id in ids && id in w.db.usages && w.db.usages[id].contentDeleted
      && !Retained(w.db.usages[id], now);
    Step(w.(db := w.db.(usages := Without(w.db.usages, gone))), Done)
  }

  function CreateUser(w: World, user: Id): Step {
    Step(w.(db := w.db.(users := w.db.users + {user}), history := w.history.(issued := w.history.issued + {user})),
         Created(user))
  }
}
