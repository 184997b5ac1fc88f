/**
 The money side of an AI operation: reserve, settle once, settle late, release, write off.
 Each function is the whole effect of the statements that one transaction issues for it.
 */
module Ledger {
  import opened Base
  import opened Rows
  import opened MapSum

  // Weights: what one row contributes to a month.

  function ReservedIn(month: int): Generation -> int {
    (g: Generation) => if g.status == Running && g.month == month then g.reserved else 0
  }

  ghost function RunningIn(month: int): Entry -> int {
    (e: Entry) => if e.fate == StillRunning && e.month == month then e.reservation else 0
  }

  ghost function SettledIn(month: int): Entry -> int {
    (e: Entry) => if e.fate.Settled? && e.month == month then e.fate.cost else 0
  }

  ghost function WrittenIn(month: int): Entry -> int {
    (e: Entry) => if e.fate.Written? && e.month == month then e.reservation else 0
  }

  /** What may push a month above its limit: reservations released first and charged afterwards. */
  ghost function LateIn(month: int): Entry -> int {
    (e: Entry) =>
      if e.month == month && ((e.fate.Settled? && e.fate.late) || (e.fate.Written? && e.fate.late)) then e.reservation
        else 0
  }

  /** The exposure an unsettled usage still carries for a month. */
  function ExposedIn(month: int): Usage -> int {
    (u: Usage) => if u.exposure.Some? && u.exposure.value.month == month then u.exposure.value.amount else 0
  }

  /** What a month holds in all. */
  function Spent(months: map<int, Budget>, month: int): int {
    var b := MonthOf(months, month); b.reserved + b.actual + b.unattributed
  }

  function Select<V>(rows: map<Id, V>, ids: set<Id>): map<Id, V> {
    map id | id in rows && id in ids :: rows[id]
  }

  // Sets of operations.

  predicate Expired(g: Generation, user: Id, now: int) {
    g.user == user && g.status == Running && g.lease.Some? && g.lease.value <= now
  }

  function ExpiredIds(generations: map<Id, Generation>, user: Id, now: int): set<Id> {
    set id | id in generations && Expired(generations[id], user, now)
  }

  function RunningOfGoal(generations: map<Id, Generation>, user: Id, goal: Id): set<Id> {
    set id | id in generations && generations[id].user == user && generations[id].goal == Some(goal)
      && generations[id].status == Running
  }

  function RunningOfUser(generations: map<Id, Generation>, user: Id): set<Id> {
    set id | id in generations && generations[id].user == user && generations[id].status == Running
  }

  /** Usages of a user that are neither settled nor covered by a running generation. */
  function ReleasedOfUser(db: Db, user: Id): set<Id> {
    set id | id in db.usages && db.usages[id].user == user && db.usages[id].finalizedAt == None &&
             !(id in db.generations && db.generations[id].user == user && db.generations[id].status == Running)
  }

  /** What an operation's fate may become: settled once or moved once, and then never again. */
  predicate FateFollows(a: Fate, b: Fate) {
    match a
    case StillRunning => true
    case Released => b == a || (b.Settled? && b.late) || b == Written(true)
    case _ => b == a
  }

  /** An operation keeps its owner, its month and its reservation, and is charged at most that. */
  predicate EntryFollows(e: Entry, f: Entry) {
    && f == e.(fate := f.fate) && FateFollows(e.fate, f.fate)
    && (f.fate.Settled? && f.fate != e.fate ==> f.fate.cost <= e.reservation)
  }

  predicate LogFollows(log: map<Id, Entry>, log': map<Id, Entry>) {
    forall id :: id in log ==> id in log' && EntryFollows(log[id], log'[id])
  }

  // Transitions.

  function FailGeneration(g: Generation, failure: Failure): Generation {
    g.(status := Failed, failure := Some(failure), reserved := 0, lease := None)
  }

  ghost function ReleaseMonths(months: map<int, Budget>, released: map<Id, Generation>): map<int, Budget> {
    map m | m in months :: months[m].(reserved := months[m].reserved - Sum(released, ReservedIn(m)))
  }

  function Mark(log: map<Id, Entry>, ids: set<Id>, fate: Fate): map<Id, Entry> {
    map id | id in log :: if id in ids then log[id].(fate := fate) else log[id]
  }

  function FailedIn(generations: map<Id, Generation>, ids: set<Id>): map<Id, Generation> {
    map id | id in generations :: if id in ids then FailGeneration(generations[id], LeaseExpired) else generations[id]
  }

  function FailedUsages(usages: map<Id, Usage>, ids: set<Id>): map<Id, Usage> {
    map id | id in usages :: if id in ids then usages[id].(status := UsageFailed) else usages[id]
  }

  /** Give back the reservations of running generations and fail them; their usages stay exposed. */
  ghost function Release(w: World, ids: set<Id>): World {
    var db := w.db;
    w.(db := db.(
         months := ReleaseMonths(db.months, Select(db.generations, ids)),
         generations := FailedIn(db.generations, ids),
         usages := FailedUsages(db.usages, ids)),
       history := w.history.(log := Mark(w.history.log, ids, Released)))
  }

  /** Fail every running generation of a user whose lease has run out. */
  ghost function Recover(w: World, user: Id, now: int): World {
    Release(w, ExpiredIds(w.db.generations, user, now))
  }

  /** Reserve money for a new operation and record its generation and usage. */
  function Accept(w: World, id: Id, g: Generation, acceptedAt: int, text: string, textRevision: nat): World {
    var db := w.db;
    var budget := MonthOf(db.months, g.month);
    w.(db := db.(
         months := db.months[g.month := budget.(reserved := budget.reserved + g.reserved)],
         generations := db.generations[id := g],
         usages :=
           db.usages[id := Usage(g.user, g.goal, UsageStatus.Accepted, acceptedAt, QuotaRetainUntil(acceptedAt), None,
                                         Some(Exposure(g.month, g.reserved)), false)]),
       history := w.history.(
         log := w.history.log[id := Entry(g.user, g.month, g.reserved, acceptedAt, StillRunning, text, textRevision)],
         issued := w.history.issued + {id}))
  }

  function FinalizeUsage(u: Usage, failed: bool, now: int): Usage {
    u.(status := if failed then UsageFailed else UsageSucceeded, finalizedAt := Some(now), exposure := None)
  }

  /** The terminal row a generation becomes. */
  function Terminal(g: Generation, output: string, failure: Option<Failure>, changed: bool): Generation {
    g.(status := if failure.Some? then Failed else Succeeded,
       output := if failure.Some? then None else Some(output),
       failure := failure, reserved := 0, lease := None, contextChanged := changed)
  }

  /** The history notes what became of an operation. */
  function Fated(log: map<Id, Entry>, id: Id, fate: Fate): map<Id, Entry> {
    if id in log then log[id := log[id].(fate := fate)] else log
  }

  /** A month's reservation gives way to a cost. */
  function Converted(months: map<int, Budget>, month: int, reserved: int, cost: nat): map<int, Budget> {
    var b := MonthOf(months, month);
    months[month := b.(reserved := b.reserved - reserved, actual := b.actual + cost)]
  }

  /** Settle a running generation: its reservation goes, its cost is charged, its usage is final. */
  function Settle(w: World, id: Id, terminal: Generation, cost: nat, failed: bool, now: int): World
    requires id in w.db.generations && id in w.db.usages
  {
    var db := w.db;
    var g := db.generations[id];
    w.(db := db.(
         months := Converted(db.months, g.month, g.reserved, cost),
         generations := db.generations[id := terminal],
         usages := db.usages[id := FinalizeUsage(db.usages[id], failed, now)]),
       history := w.history.(log := Fated(w.history.log, id, Settled(cost, false))))
  }

  /**
   Settle an operation whose reservation was released before its cost was known; nothing to do if it is final or gone.
   */
  function SettleLate(w: World, id: Id, cost: nat, failed: bool, now: int): World {
    var db := w.db;
    if id !in db.usages || db.usages[id].user !in db.users || db.usages[id].finalizedAt.Some? ||
       db.usages[id].exposure.None? then w else
      var month := db.usages[id].exposure.value.month;
      var budget := MonthOf(db.months, month);
      w.(db := db.(
           months := db.months[month := budget.(actual := budget.actual + cost)],
           usages := db.usages[id := FinalizeUsage(db.usages[id], failed, now)]),
         history := w.history.(log := Fated(w.history.log, id, Settled(cost, true))))
  }

  function GenerationsOfOthers(generations: map<Id, Generation>, user: Id): map<Id, Generation> {
    map id | id in generations && generations[id].user != user :: generations[id]
  }

  /** Everything a deleted user's operations still owed is moved, once. */
  function WriteOffLog(log: map<Id, Entry>, user: Id): map<Id, Entry> {
    map id | id in log ::
      if log[id].user != user then log[id]
      else if log[id].fate == StillRunning then log[id].(fate := Written(false))
      else if log[id].fate == Released then log[id].(fate := Written(true))
      else log[id]
  }

  /** What a user's operations still expose moves to the unattributed amount of their months. */
  ghost function WriteOffMonths(db: Db, user: Id): map<int, Budget> {
    var running := Select(db.generations, RunningOfUser(db.generations, user));
    var released := Select(db.usages, ReleasedOfUser(db, user));
    map m | m in db.months ::
      db.months[m].(reserved := db.months[m].reserved - Sum(running, ReservedIn(m)),
                    unattributed := db.months[m].unattributed + Sum(running, ReservedIn(m)) +
                      Sum(released, ExposedIn(m)))
  }

  ghost function WriteOff(w: World, user: Id): World {
    w.(db := w.db.(months := WriteOffMonths(w.db, user)),
       history := w.history.(log := WriteOffLog(w.history.log, user)))
  }
}
