/** What a generation aims at stays as its operation found it while the operation runs. */
module Targets {
  import opened Base
  import opened Rows
  import opened Keys
  import opened Schema
  import opened Ledger
  import opened LedgerInvariant
  import opened Text
  import opened UseCases

  /** Its usage row counts for the same Goal and still shows its content. */
  predicate UsageAgrees(id: Id, g: Generation, usages: map<Id, Usage>) {
    id in usages && usages[id].goal == g.goal && !usages[id].contentDeleted
  }

  predicate DraftAgrees(g: Generation, drafts: map<Id, Draft>) {
    g.draft.Some? ==>
      && g.operation == GoalRefine && g.draft.value in drafts
      && var d := drafts[g.draft.value];
      && d.user == g.user && DraftFits(d, g.goal) && (g.goal.Some? ==> g.version == Some(d.kind.baseVersion))
  }

  predicate GoalAgrees(g: Generation, goals: map<Id, Goal>, versions: map<Id, Version>) {
    if g.goal.None? then g.draft.Some? && g.version.None?
    else
      && g.goal.value in goals && goals[g.goal.value].user == g.user
      && g.version.Some? && g.version.value in versions && versions[g.version.value].goal == g.goal.value
  }

  /** While it runs, the Cycle is active on the generation's Version and its Action is untouched. */
  predicate CycleAgrees(g: Generation, e: Entry, cycles: map<Id, Cycle>) {
    if g.operation == GoalRefine then g.cycle.None? && (g.status == Running ==> g.draft.Some?)
      && g.source == Some(e.text)
    else
      && g.cycle.Some? && g.goal.Some? && g.cycle.value in cycles
      && var c := cycles[g.cycle.value];
      && Some(c.goal) == g.goal && c.user == g.user && Some(c.version) == g.version
      && (g.operation == ActionRefine ==> g.source == Some(e.text))
      && (g.status == Running ==> c.status == Active && c.action == e.text && c.revisions.action == e.textRevision)
  }

  predicate OutputAgrees(g: Generation) {
    g.status == Succeeded && g.operation == GoalRefine ==>
      g.output.Some? && BodyText(g.output.value) && !Blank(g.output.value)
  }

  predicate Aims(id: Id, g: Generation, db: Db, log: map<Id, Entry>) {
    && id in log && UsageAgrees(id, g, db.usages) && DraftAgrees(g, db.drafts) && GoalAgrees(g, db.goals, db.versions)
    && CycleAgrees(g, log[id], db.cycles) && OutputAgrees(g)
  }

  ghost predicate TargetsInv(db: Db, log: map<Id, Entry>) {
    && (forall id :: id in db.generations ==> Aims(id, db.generations[id], db, log))
    && UniqueGenerations(db.generations)
  }

  // Steps on the targets: the generations are as they were.

  /** The generations of `db` keep what they aim at: rows may be added, and changed where nothing runs. */
  ghost predicate KeepsTargets(db: Db, db': Db) {
    && db'.usages == db.usages
    && (forall id :: id in db.goals ==> id in db'.goals && db'.goals[id].user == db.goals[id].user)
    && (forall id :: id in db.versions ==> id in db'.versions && db'.versions[id] == db.versions[id])
    && (forall id :: id in db.drafts ==>
          id in db'.drafts && db'.drafts[id].user == db.drafts[id].user &&
          db'.drafts[id].kind == db.drafts[id].kind)
    && (forall id :: id in db.cycles ==>
          && id in db'.cycles
          && var c, c' := db.cycles[id], db'.cycles[id];
          && c'.user == c.user && c'.goal == c.goal && c'.version == c.version
          && ((c'.status == c.status && c'.action == c.action && c'.revisions.action == c.revisions.action) ||
              !RunsOnCycle(db.generations, c.user, c.goal, id)))
  }

  lemma KeepsAims(id: Id, g: Generation, db: Db, db': Db, log: map<Id, Entry>)
    requires id in db.generations && db.generations[id] == g && Aims(id, g, db, log) && KeepsTargets(db, db')
    ensures Aims(id, g, db', log)
  {
  }

  lemma KeepsTargetsInv(db: Db, db': Db, log: map<Id, Entry>)
    requires TargetsInv(db, log) && KeepsTargets(db, db') && db'.generations == db.generations
    ensures TargetsInv(db', log)
  {
    forall id | id in db'.generations ensures Aims(id, db'.generations[id], db', log) {
      KeepsAims(id, db.generations[id], db, db', log);
    }
  }

  /** Fewer generations, or generations that stopped running. */
  lemma FewerRunning(generations: map<Id, Generation>, rest: map<Id, Generation>)
    requires UniqueGenerations(generations)
    requires forall id :: id in rest ==>
               && id in generations && ReplayKey(rest[id]) == ReplayKey(generations[id])
               && (rest[id].status == Running ==> generations[id].status == Running)
               && (rest[id].cycle == generations[id].cycle || rest[id].cycle.None?)
               && (rest[id].draft == generations[id].draft || rest[id].draft.None?)
    ensures UniqueGenerations(rest)
  {
    UniqueShrink(generations, rest, ReplayKey);
    UniqueShrink(generations, rest, RunningCycleKey);
    UniqueShrink(generations, rest, RunningDraftKey);
  }

  // Steps on the generations.

  /** The text an operation started from never changes. */
  predicate SameTexts(log: map<Id, Entry>, log': map<Id, Entry>) {
    forall id :: id in log ==>
      id in log' && log'[id].text == log[id].text && log'[id].textRevision == log[id].textRevision
  }

  predicate SameTables(db: Db, db': Db) {
    db'.goals == db.goals && db'.versions == db.versions && db'.cycles == db.cycles && db'.drafts == db.drafts
  }

  /** The same target, and no longer running unless it was. */
  predicate SameAim(g: Generation, h: Generation) {
    && h.user == g.user && h.operation == g.operation && h.key == g.key
    && h.draft == g.draft && h.goal == g.goal && h.version == g.version && h.cycle == g.cycle
    && h.source == g.source && (h.status == Running ==> g.status == Running)
    && (h.status == Succeeded ==> g.status == Succeeded && h.output == g.output)
  }

  /** Generations that stay, run less and keep their usage rows keep their aim. */
  lemma SameAimKeeps(db: Db, log: map<Id, Entry>, db': Db, log': map<Id, Entry>)
    requires TargetsInv(db, log) && SameTables(db, db') && SameTexts(log, log')
    requires forall id :: id in db'.generations ==>
               id in db.generations && SameAim(db.generations[id], db'.generations[id])
    requires forall id :: id in db'.generations ==> UsageAgrees(id, db'.generations[id], db'.usages)
    ensures TargetsInv(db', log')
  {
    forall id | id in db'.generations ensures Aims(id, db'.generations[id], db', log') {
      assert Aims(id, db.generations[id], db, log);
    }
    FewerRunning(db.generations, db'.generations);
  }

  lemma ReleaseKeepsTargets(w: World, ids: set<Id>)
    requires TargetsInv(w.db, w.history.log)
    ensures var x := Release(w, ids); TargetsInv(x.db, x.history.log)
  {
    var x := Release(w, ids);
    forall id | id in x.db.generations ensures UsageAgrees(id, x.db.generations[id], x.db.usages) {
      assert Aims(id, w.db.generations[id], w.db, w.history.log);
    }
    SameAimKeeps(w.db, w.history.log, x.db, x.history.log);
  }

  lemma SettleLateKeepsTargets(w: World, id: Id, cost: nat, failed: bool, now: int)
    requires TargetsInv(w.db, w.history.log)
    ensures var x := SettleLate(w, id, cost, failed, now); TargetsInv(x.db, x.history.log)
  {
    var x := SettleLate(w, id, cost, failed, now);
    forall k | k in x.db.generations ensures UsageAgrees(k, x.db.generations[k], x.db.usages) {
      assert Aims(k, w.db.generations[k], w.db, w.history.log);
    }
    SameAimKeeps(w.db, w.history.log, x.db, x.history.log);
  }

  lemma SettleAims(w: World, id: Id, terminal: Generation, cost: nat, failed: bool, now: int, k: Id)
    requires id in w.db.generations && id in w.db.usages && id in w.history.log
    requires k in w.db.generations && Aims(k, w.db.generations[k], w.db, w.history.log)
    requires k == id ==> Aims(id, terminal, w.db, w.history.log)
    ensures var x := Settle(w, id, terminal, cost, failed, now); Aims(k, x.db.generations[k], x.db, x.history.log)
  {
  }

  lemma SettleUnique(w: World, id: Id, output: string, failure: Option<Failure>, changed: bool)
    requires UniqueGenerations(w.db.generations) && id in w.db.generations
    ensures UniqueGenerations(w.db.generations[id := Terminal(w.db.generations[id], output, failure, changed)])
  {
    FewerRunning(w.db.generations, w.db.generations[id := Terminal(w.db.generations[id], output, failure, changed)]);
  }

  lemma TerminalAims(db: Db, log: map<Id, Entry>, id: Id, output: string, failure: Option<Failure>, changed: bool)
    requires id in db.generations && Aims(id, db.generations[id], db, log)
    requires failure.None? && db.generations[id].operation == GoalRefine ==> BodyText(output) && !Blank(output)
    ensures Aims(id, Terminal(db.generations[id], output, failure, changed), db, log)
  {
  }

  lemma SettleKeepsTargets(w: World, id: Id, output: string, failure: Option<Failure>, changed: bool, cost: nat,
                           failed: bool, now: int)
    requires TargetsInv(w.db, w.history.log) && id in w.db.generations && id in w.db.usages && id in w.history.log
    requires failure.None? && w.db.generations[id].operation == GoalRefine ==> BodyText(output) && !Blank(output)
    ensures var x := Settle(w, id, Terminal(w.db.generations[id], output, failure, changed), cost, failed, now);
            TargetsInv(x.db, x.history.log)
  {
    var terminal := Terminal(w.db.generations[id], output, failure, changed);
    var x := Settle(w, id, terminal, cost, failed, now);
    assert Aims(id, w.db.generations[id], w.db, w.history.log);
    TerminalAims(w.db, w.history.log, id, output, failure, changed);
    forall k | k in x.db.generations ensures Aims(k, x.db.generations[k], x.db, x.history.log) {
      SettleAims(w, id, terminal, cost, failed, now, k);
    }
    SettleUnique(w, id, output, failure, changed);
  }

  /** The generation's own Cycle is free once it has ended: no other one runs there. */
  lemma OnlyOneRuns(generations: map<Id, Generation>, id: Id, rest: map<Id, Generation>, user: Id, goal: Id, cycle: Id)
    requires UniqueGenerations(generations) && id in generations && generations[id].status == Running
    requires generations[id].cycle == Some(cycle)
    requires forall k :: k in rest && k != id ==> k in generations && rest[k] == generations[k]
    requires id in rest ==> rest[id].status != Running
    ensures !RunsOnCycle(rest, user, goal, cycle)
  {
    forall k | k in rest && rest[k].cycle == Some(cycle) ensures rest[k].status != Running {
      assert k != id && rest[k].status == Running ==>
        RunningCycleKey(generations[k]) == RunningCycleKey(generations[id]);
    }
  }

  lemma AcceptKeepsTargets(w: World, id: Id, g: Generation, acceptedAt: int, text: string, revision: nat)
    requires TargetsInv(w.db, w.history.log) && id !in w.history.log
    requires g.status == Running && DraftAgrees(g, w.db.drafts) && GoalAgrees(g, w.db.goals, w.db.versions)
    requires CycleAgrees(g, Entry(g.user, g.month, g.reserved, acceptedAt, StillRunning, text, revision), w.db.cycles)
    requires !Has(w.db.generations, ReplayKey, (g.user, g.operation, g.key))
    requires g.draft.Some? ==> !RunsOnDraft(w.db.generations, g.draft.value)
    requires g.cycle.Some? ==> g.goal.Some? && !RunsOnCycle(w.db.generations, g.user, g.goal.value, g.cycle.value)
    ensures var x := Accept(w, id, g, acceptedAt, text, revision); TargetsInv(x.db, x.history.log)
  {
    var x := Accept(w, id, g, acceptedAt, text, revision);
    forall k | k in x.db.generations ensures Aims(k, x.db.generations[k], x.db, x.history.log) {
      assert k != id ==> Aims(k, w.db.generations[k], w.db, w.history.log);
    }
    AcceptUnique(w.db, w.history.log, id, g);
  }

  lemma AcceptUnique(db: Db, log: map<Id, Entry>, id: Id, g: Generation)
    requires TargetsInv(db, log) && g.status == Running && id !in db.generations
    requires !Has(db.generations, ReplayKey, (g.user, g.operation, g.key))
    requires g.draft.Some? ==> !RunsOnDraft(db.generations, g.draft.value)
    requires g.cycle.Some? ==>
               && g.goal.Some? && !RunsOnCycle(db.generations, g.user, g.goal.value, g.cycle.value)
               && g.cycle.value in db.cycles
               && db.cycles[g.cycle.value].user == g.user && db.cycles[g.cycle.value].goal == g.goal.value
    ensures UniqueGenerations(db.generations[id := g])
  {
    UniqueWrite(db.generations, ReplayKey, id, g);
    forall k | k in db.generations ensures g.cycle.Some? ==> RunningCycleKey(db.generations[k]) != g.cycle {
      assert Aims(k, db.generations[k], db, log);
    }
    UniqueWrite(db.generations, RunningCycleKey, id, g);
    UniqueWrite(db.generations, RunningDraftKey, id, g);
  }

  // Steps that use a Draft up.

  function AfterAttach(db: Db, draft: Id, ids: set<Id>, goal: Id, version: Id): Db {
    db.(generations := Attach(db.generations, ids, goal, version), usages := AttachUsages(db.usages, ids, goal),
        drafts := Without(db.drafts, {draft}))
  }

  lemma AttachAims(db: Db, log: map<Id, Entry>, user: Id, draft: Id, goal: Id, version: Id, id: Id)
    requires id in db.generations && Aims(id, db.generations[id], db, log)
    requires draft in db.drafts && db.drafts[draft].user == user
    requires db.generations[id].draft == Some(draft) ==> db.generations[id].status != Running
    requires goal in db.goals && db.goals[goal].user == user && version in db.versions
             && db.versions[version].goal == goal
    ensures var db' := AfterAttach(db, draft, GenerationsOfDraft(db.generations, user, draft), goal, version);
            Aims(id, db'.generations[id], db', log)
  {
  }

  lemma AttachUnique(generations: map<Id, Generation>, ids: set<Id>, goal: Id, version: Id)
    requires UniqueGenerations(generations)
    ensures UniqueGenerations(Attach(generations, ids, goal, version))
  {
    FewerRunning(generations, Attach(generations, ids, goal, version));
  }

  lemma AttachKeepsTargets(db: Db, log: map<Id, Entry>, user: Id, draft: Id, goal: Id, version: Id)
    requires TargetsInv(db, log) && draft in db.drafts && db.drafts[draft].user == user
             && !RunsOnDraft(db.generations, draft)
    requires goal in db.goals && db.goals[goal].user == user && version in db.versions
             && db.versions[version].goal == goal
    ensures TargetsInv(AfterAttach(db, draft, GenerationsOfDraft(db.generations, user, draft), goal, version), log)
  {
    var db' := AfterAttach(db, draft, GenerationsOfDraft(db.generations, user, draft), goal, version);
    forall id | id in db'.generations ensures Aims(id, db'.generations[id], db', log) {
      AttachAims(db, log, user, draft, goal, version, id);
    }
    AttachUnique(db.generations, GenerationsOfDraft(db.generations, user, draft), goal, version);
  }

  lemma DropKeepsTargets(db: Db, log: map<Id, Entry>, user: Id, draft: Id, now: int)
    requires TargetsInv(db, log) && draft in db.drafts && db.drafts[draft].user == user
    ensures var ids := GenerationsOfDraft(db.generations, user, draft);
            TargetsInv(db.(usages := DropUsages(db.usages, ids, now), generations := Without(db.generations, ids),
                           drafts := Without(db.drafts, {draft})), log)
  {
    var ids := GenerationsOfDraft(db.generations, user, draft);
    var db' := db.(usages := DropUsages(db.usages, ids, now), generations := Without(db.generations, ids),
                   drafts := Without(db.drafts, {draft}));
    forall id | id in db'.generations ensures Aims(id, db'.generations[id], db', log) {
      assert Aims(id, db.generations[id], db, log);
    }
    FewerRunning(db.generations, db'.generations);
  }

  // Deletion.

  lemma CascadeGoalKeepsTargets(db: Db, log: map<Id, Entry>, user: Id, goal: Id, now: int)
    requires TargetsInv(db, log)
    ensures TargetsInv(CascadeGoal(db.(usages := DropGoalUsages(db.usages, user, goal, now)), goal), log)
  {
    var db' := CascadeGoal(db.(usages := DropGoalUsages(db.usages, user, goal, now)), goal);
    forall id | id in db'.generations ensures Aims(id, db'.generations[id], db', log) {
      assert Aims(id, db.generations[id], db, log);
    }
    FewerRunning(db.generations, db'.generations);
  }

  predicate SameOwner(db: Db, id: Id, g: Generation) {
    && (id in db.usages ==> db.usages[id].user == g.user)
    && (g.version.Some? && g.version.value in db.versions ==> db.versions[g.version.value].user == g.user)
  }

  lemma CascadeUserAims(db: Db, log: map<Id, Entry>, user: Id, id: Id)
    requires id in db.generations && Aims(id, db.generations[id], db, log) && db.generations[id].user != user
    requires SameOwner(db, id, db.generations[id])
    ensures Aims(id, db.generations[id], CascadeUser(db, user), WriteOffLog(log, user))
  {
  }

  lemma CascadeUserKeepsTargets(db: Db, log: map<Id, Entry>, user: Id)
    requires TargetsInv(db, log) && forall id :: id in db.generations ==> SameOwner(db, id, db.generations[id])
    ensures TargetsInv(CascadeUser(db, user), WriteOffLog(log, user))
  {
    var db' := CascadeUser(db, user);
    forall id | id in db'.generations ensures Aims(id, db'.generations[id], db', WriteOffLog(log, user)) {
      CascadeUserAims(db, log, user, id);
    }
    FewerRunning(db.generations, db'.generations);
  }
}
