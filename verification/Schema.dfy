/** The database's unique indexes, and the sets of generations its use cases lock. */
module Schema {
  import opened Base
  import opened Rows
  import opened Keys

  function VersionKey(v: Version): Option<(Id, int)> { Some((v.goal, v.number)) }

  function CycleKey(c: Cycle): Option<(Id, int)> { Some((c.goal, c.sequence)) }

  function ActiveKey(c: Cycle): Option<Id> { if c.status == Active then Some(c.goal) else None }

  function StartKey(c: Cycle): Option<(Id, Id)> { Some((c.user, c.start.operation)) }

  function CompletionKey(c: Cycle): Option<(Id, Id)> {
    if c.completion.Some? then Some((c.user, c.completion.value.operation)) else None
  }

  function TerminalKey(g: Goal): Option<(Id, Id)> {
    if g.terminal.Some? then Some((g.user, g.terminal.value.operation)) else None
  }

  function CreationKey(d: Draft): Option<Id> { if d.kind == Creation then Some(d.user) else None }

  function ReviewKey(d: Draft): Option<(Id, Id)> { if d.kind.Review? then Some((d.user, d.kind.goal)) else None }

  function ReplayKey(g: Generation): Option<(Id, Operation, Id)> { Some((g.user, g.operation, g.key)) }

  function RunningCycleKey(g: Generation): Option<Id> { if g.status == Running then g.cycle else None }

  function RunningDraftKey(g: Generation): Option<Id> { if g.status == Running then g.draft else None }

  ghost predicate UniqueVersions(versions: map<Id, Version>) { Unique(versions, VersionKey) }

  ghost predicate UniqueCycles(cycles: map<Id, Cycle>) {
    Unique(cycles, CycleKey) && Unique(cycles, StartKey) && Unique(cycles, CompletionKey)
  }

  ghost predicate UniqueGoals(goals: map<Id, Goal>) { Unique(goals, TerminalKey) }

  ghost predicate UniqueDrafts(drafts: map<Id, Draft>) { Unique(drafts, CreationKey) && Unique(drafts, ReviewKey) }

  ghost predicate UniqueGenerations(generations: map<Id, Generation>) {
    Unique(generations, ReplayKey) && Unique(generations, RunningCycleKey) && Unique(generations, RunningDraftKey)
  }

  predicate OwnsGoal(db: Db, user: Id, goal: Id) {
    goal in db.goals && db.goals[goal].user == user
  }

  predicate OwnsCycle(db: Db, user: Id, goal: Id, cycle: Id) {
    cycle in db.cycles && db.cycles[cycle].user == user && db.cycles[cycle].goal == goal
  }

  predicate OwnsDraft(db: Db, user: Id, draft: Id) {
    draft in db.drafts && db.drafts[draft].user == user
  }

  /** The Goal's current Version, joined by number. */
  ghost function CurrentVersion(db: Db, goal: Id): Option<Id>
    requires goal in db.goals
  {
    Lookup(db.versions, VersionKey, (goal, db.goals[goal].currentVersion))
  }

  ghost function ReviewDraft(db: Db, user: Id, goal: Id): Option<Id> {
    Lookup(db.drafts, ReviewKey, (user, goal))
  }

  function GenerationsOfDraft(generations: map<Id, Generation>, user: Id, draft: Id): set<Id> {
    set id | id in generations && generations[id].user == user && generations[id].draft == Some(draft)
  }

  predicate RunsOnDraft(generations: map<Id, Generation>, draft: Id) {
    exists id :: id in generations && generations[id].draft == Some(draft) && generations[id].status == Running
  }

  predicate RunsOnCycle(generations: map<Id, Generation>, user: Id, goal: Id, cycle: Id) {
    exists id :: id in generations && generations[id].user == user && generations[id].goal == Some(goal) &&
                 generations[id].cycle == Some(cycle) && generations[id].status == Running
  }

  predicate RunsOnGoal(generations: map<Id, Generation>, user: Id, goal: Id) {
    exists id :: id in generations && generations[id].user == user && generations[id].goal == Some(goal) &&
                 generations[id].status == Running
  }

  function ProgressingOf(user: Id): Goal -> int {
    (g: Goal) => if g.user == user && Progressing(g.status) then 1 else 0
  }

  /** Usages accepted after an instant, the count the quota is checked against. */
  function RollingUsage(usages: map<Id, Usage>, user: Id, after: int): set<Id> {
    set id | id in usages && usages[id].user == user && usages[id].acceptedAt > after
  }
}
