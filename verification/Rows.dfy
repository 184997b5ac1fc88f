/** The rows of the database, one datatype a table, and the history that the proofs keep beside them. */
module Rows {
  import opened Base

  datatype GoalStatus = ActiveCycle | GoalReview | Achieved | Ended

  datatype CycleStatus = Active | Completed | Canceled

  datatype Reason = GoalAchieved | GoalEnded | Replanned

  datatype Frame = PlanFrame | DoFrame | CheckFrame | ActionFrame

  datatype Operation = GoalRefine | ActionGenerate | ActionRefine

  datatype GenerationStatus = Running | Succeeded | Failed

  /**
   What a command asked for. The source stores the SHA-256 of the command's JSON and compares hashes;
   the model stores the command, so that equal hashes mean equal commands.
   */
  datatype Request =
    | StartRequest(draft: Id, draftRevision: int)
    | CompleteRequest(goal: Id, cycle: Id, goalRevision: int, contentRevision: int)
    | ReplanRequest(goal: Id, cycle: Id, goalRevision: int, contentRevision: int, scheduleRevision: int)
    | ContinueRequest(goal: Id, goalRevision: int, draftRevision: int)
    | TerminateRequest(goal: Id, outcome: GoalStatus, state: GoalStatus, goalRevision: int,
                       activeCycle: Option<Id>, cycleRevision: Option<int>, discard: bool)
    | DeleteRequest(goal: Id, goalRevision: int)
    | ActionRequest(operation: Operation, goal: Id, cycle: Id, contentRevision: int, replace: bool)
    | RefineRequest(draft: Id, reviewed: Option<Id>, draftRevision: int, expectedGoalRevision: Option<int>)

  datatype Claim = Claim(operation: Id, request: Request)

  datatype Goal = Goal(
    user: Id, status: GoalStatus, currentVersion: nat, nextSequence: nat, revision: nat,
    terminalAt: Option<int>, terminal: Option<Claim>)

  datatype Version = Version(
    user: Id, goal: Id, number: nat, body: string, signal: Option<string>, createdBy: Id)

  datatype Revisions = Revisions(content: nat, plan: nat, doing: nat, check: nat, action: nat)

  datatype Cycle = Cycle(
    user: Id, goal: Id, version: Id, sequence: nat, status: CycleStatus,
    completedAt: Option<int>, canceledAt: Option<int>, reason: Option<Reason>,
    plan: string, doing: string, check: string, action: string, revisions: Revisions,
    reviewDate: Option<int>, scheduleRevision: nat,
    lastAiRevision: Option<nat>, modifiedAfterAi: bool,
    start: Claim, completion: Option<Claim>)

  datatype DraftKind = Creation | Review(goal: Id, baseVersion: Id, cycle: Id)

  datatype Draft = Draft(user: Id, kind: DraftKind, body: string, signal: Option<string>, revision: nat)

  datatype Generation = Generation(
    user: Id, operation: Operation, status: GenerationStatus,
    draft: Option<Id>, goal: Option<Id>, version: Option<Id>, cycle: Option<Id>,
    targetRevision: nat, key: Id, request: Request, source: Option<string>, output: Option<string>,
    month: int, reserved: nat, lease: Option<int>, contextChanged: bool,
    failure: Option<Failure>, adopted: Option<nat>)

  datatype Failure = InvalidResponse | ProviderTimeout | TargetDeleted | VersionConflict | LeaseExpired
    | ProviderUnavailable

  datatype UsageStatus = Accepted | UsageSucceeded | UsageFailed

  /** The month and amount an unsettled operation is still charged to. */
  datatype Exposure = Exposure(month: int, amount: nat)

  datatype Usage = Usage(
    user: Id, goal: Option<Id>, status: UsageStatus, acceptedAt: int, retainUntil: int,
    finalizedAt: Option<int>, exposure: Option<Exposure>, contentDeleted: bool)

  /** Money is counted in units of 1e-8 USD, the precision of the budget columns. */
  datatype Budget = Budget(reserved: int, actual: int, unattributed: int)

  datatype Receipt = Receipt(goal: Id, request: Request, expiresAt: int)

  datatype Db = Db(
    users: set<Id>, goals: map<Id, Goal>, versions: map<Id, Version>, cycles: map<Id, Cycle>,
    drafts: map<Id, Draft>, generations: map<Id, Generation>, usages: map<Id, Usage>,
    months: map<int, Budget>, receipts: map<(Id, Id), Receipt>)

  /** What became of the money reserved for an accepted AI operation. */
  datatype Fate =
    | StillRunning                              // still reserved
    | Released                                  // reservation given back, cost not yet known
    | Settled(cost: int, late: bool)            // charged once; late if it was released before
    | Written(late: bool)                       // moved once to the unattributed amount

  /** One accepted AI operation, kept for ever; `text` is the Action or Draft body it started from. */
  datatype Entry = Entry(
    user: Id, month: int, reservation: nat, acceptedAt: int, fate: Fate, text: string, textRevision: nat)

  /** The accepted operations, every identifier ever handed out, and the latest clock of a committed step. */
  datatype History = History(log: map<Id, Entry>, issued: set<Id>, clock: int)

  datatype World = World(db: Db, history: History)

  datatype Config = Config(quota: nat, goalLimit: nat, reservation: nat, budget: nat, lease: int)

  // Times are in seconds.
  const HOUR: int := 3600
  const ROLLING_WINDOW: int := 86400      // 24 hours
  const RETENTION_MARGIN: int := 900      // 15 minutes
  const RETENTION: int := 87300           // the window and the margin
  const RECEIPT_LIFETIME: int := 86400    // 24 hours

  function QuotaRetainUntil(acceptedAt: int): int { acceptedAt + RETENTION }

  predicate Progressing(status: GoalStatus) { status == ActiveCycle || status == GoalReview }

  function MonthOf(months: map<int, Budget>, month: int): Budget {
    if month in months then months[month] else Budget(0, 0, 0)
  }

  datatype Error =
    | NotFound | GoalStateConflict | CycleNotActive | GoalVersionConflict | RevisionConflict
    | InputIncomplete | ReplacementRequired | InProgress | UserLimit | OverBudget | RateLimited
    | ContextRejected | IdempotencyKeyReused | OperationFailed(failure: Failure) | InvariantViolated
    | DraftAlreadyExists | DraftRevisionConflict | ReviewRevisionConflict | ReviewNotActive
    | DraftTypeMismatch | GoalRevisionConflict | SuggestionNotFound | AlreadyAdopted | ContextStale
    | ActiveGoalLimit | CycleIncomplete | ConfirmationRequired | AlreadyTerminal | DiscardRequired
    | InvalidRequest | DeleteConflict | InvalidText | ProviderFailed(cause: Failure)

  /** What a command answers. */
  datatype Answer =
    | Done
    | Created(id: Id)
    | Begun(id: Id)
    | Replayed
    | ReplayedOutput(id: Id, output: string, changed: bool)
    | Refused(error: Error)

  /** A command's effect: the world it leaves and what it answers. */
  datatype Step = Step(world: World, answer: Answer)
}
