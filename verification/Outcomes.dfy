/** What the halves of an AI operation leave, whatever state they find: one of a few worlds. */
module Outcomes {
  import opened Base
  import opened Rows
  import opened Keys
  import opened Schema
  import opened Ledger
  import opened UseCases
  import CycleDomain

  // Beginning.

  /** What an accepted operation has passed and how its row starts out. */
  ghost predicate Admitted(cfg: Config, r: Db, g: Generation, user: Id, now: int) {
    && g.user == user && user in r.users && g.status == Running && g.lease == Some(now + cfg.lease)
    && !ExceedsBudget(r.months, g.month, g.reserved, cfg.budget)
    && |RollingUsage(r.usages, user, now - ROLLING_WINDOW)| < cfg.quota
  }

  /** Expired operations were recovered, and one operation of the User was accepted. */
  ghost predicate Accepts(cfg: Config, w: World, x: World, user: Id, id: Id, now: int) {
    var r := Recover(w, user, now);
    && id in x.db.generations && id in x.history.log && Admitted(cfg, r.db, x.db.generations[id], user, now)
    && x == Accept(r, id, x.db.generations[id], now, x.history.log[id].text, x.history.log[id].textRevision)
  }

  /** A begin leaves everything, recovers, or recovers and accepts. */
  ghost predicate Began(cfg: Config, w: World, x: World, user: Id, id: Id, now: int) {
    x == w || x == Recover(w, user, now) || Accepts(cfg, w, x, user, id, now)
  }

  lemma AcceptAccepts(cfg: Config, w: World, user: Id, id: Id, g: Generation, now: int, text: string, revision: nat)
    requires Admitted(cfg, Recover(w, user, now).db, g, user, now)
    ensures Accepts(cfg, w, Accept(Recover(w, user, now), id, g, now, text, revision), user, id, now)
  {
  }

  lemma BeginActionBegan(cfg: Config, w: World, i: ActionInput)
    ensures Began(cfg, w, BeginAction(cfg, w, i).world, i.user, i.id, i.now)
    ensures BeginAction(cfg, w, i).answer == Begun(i.id) ==>
              Accepts(cfg, w, BeginAction(cfg, w, i).world, i.user, i.id, i.now)
  {
    if BeginAction(cfg, w, i).answer == Begun(i.id) {
      var c := w.db.cycles[i.cycle];
      AcceptAccepts(cfg, w, i.user, i.id, ActionGeneration(cfg, i, c), i.now, c.action, c.revisions.action);
    }
  }

  lemma BeginRefineBegan(cfg: Config, w: World, i: RefineInput)
    ensures Began(cfg, w, BeginRefine(cfg, w, i).world, i.user, i.id, i.now)
    ensures BeginRefine(cfg, w, i).answer == Begun(i.id) ==>
              Accepts(cfg, w, BeginRefine(cfg, w, i).world, i.user, i.id, i.now)
  {
    if BeginRefine(cfg, w, i).answer == Begun(i.id) {
      var draft := RefineDraft(w.db, i.user, i.draft, i.goal).value;
      var d := w.db.drafts[draft];
      var g := RefineGeneration(cfg, i, draft, d, if i.goal.Some? then CurrentVersion(w.db, i.goal.value) else None);
      AcceptAccepts(cfg, w, i.user, i.id, g, i.now, d.body, d.revision);
    }
  }

  // Reporting.

  /** The operation is over: its row becomes `h`, it is settled, and a Cycle may have been written. */
  function Over(w: World, f: FinishInput, h: Generation, cycles: map<Id, Cycle>): World
    requires f.id in w.db.generations && f.id in w.db.usages
  {
    var x := Settle(w, f.id, h, f.cost, h.failure.Some?, f.now);
    x.(db := x.db.(cycles := cycles))
  }

  predicate Closes(w: World, f: FinishInput, x: World) {
    && f.id in w.db.generations && w.db.generations[f.id].status == Running && f.id in w.db.usages
    && f.id in x.db.generations
    && var h := x.db.generations[f.id];
    && h == Terminal(w.db.generations[f.id], f.output, h.failure, h.contextChanged)
    && x == Over(w, f, h, x.db.cycles)
  }

  /** A report leaves everything, settles late, or closes its running operation. */
  predicate Reported(w: World, f: FinishInput, x: World) {
    x == w || x == Late(w, f).world || Closes(w, f, x)
  }

  lemma OverCloses(w: World, f: FinishInput, failure: Option<Failure>, changed: bool, cycles: map<Id, Cycle>)
    requires f.id in w.db.generations && w.db.generations[f.id].status == Running && f.id in w.db.usages
    ensures Closes(w, f, Over(w, f, Terminal(w.db.generations[f.id], f.output, failure, changed), cycles))
  {
  }

  lemma FinishActionReported(w: World, f: FinishInput)
    ensures Reported(w, f, FinishAction(w, f).world)
  {
    var x := FinishAction(w, f).world;
    if x != w && x != Late(w, f).world {
      var h := x.db.generations[f.id];
      OverCloses(w, f, h.failure, h.contextChanged, x.db.cycles);
    }
  }

  lemma FinishRefineReported(w: World, f: FinishInput)
    ensures Reported(w, f, FinishRefine(w, f).world)
  {
    var x := FinishRefine(w, f).world;
    if x != w && x != Late(w, f).world {
      var h := x.db.generations[f.id];
      OverCloses(w, f, h.failure, h.contextChanged, w.db.cycles);
    }
  }

  // Adopting a suggestion.

  function WithDraft(w: World, id: Id, d: Draft): World {
    w.(db := w.db.(drafts := w.db.drafts[id := d]))
  }

  function Drafted(w: World, draft: Id, output: string): World
    requires draft in w.db.drafts
  {
    var o := w.db.drafts[draft];
    WithDraft(w, draft, o.(body := output, revision := o.revision + 1))
  }

  function Marked(w: World, id: Id, revision: nat): World
    requires id in w.db.generations
  {
    w.(db := w.db.(generations := w.db.generations[id := w.db.generations[id].(adopted := Some(revision))]))
  }

  /** A suggestion that nobody has adopted is: the Draft is written, and then the mark. */
  ghost predicate Adopts(w: World, i: AdoptInput, x: World) {
    && RefineDraft(w.db, i.user, i.draft, i.goal).Some? && i.generation in w.db.generations
    && var draft, g := RefineDraft(w.db, i.user, i.draft, i.goal).value, w.db.generations[i.generation];
    && draft in w.db.drafts && g.adopted.None? && g.status == Succeeded && g.operation == GoalRefine
    && g.draft == Some(draft) && g.source == Some(w.db.drafts[draft].body)
    && x == Marked(Drafted(w, draft, if g.output.Some? then g.output.value else ""), i.generation,
                   w.db.drafts[draft].revision + 1)
  }

  lemma AdoptAdopts(w: World, i: AdoptInput)
    ensures var s := AdoptSuggestion(w, i); if s.answer == Done then Adopts(w, i, s.world) else s.world == w
  {
  }

  // Consuming a Draft.

  /** No money moves, and no User comes or goes. */
  predicate Still(w: World, x: World) {
    && x.db.months == w.db.months && x.db.users == w.db.users
    && x.history.log == w.history.log && x.history.clock == w.history.clock
  }

  /** The operations of a Draft move to a Goal Version. */
  predicate Attaches(w: World, x: World, ids: set<Id>, goal: Id, version: Id) {
    && Still(w, x) && x.db.generations == Attach(w.db.generations, ids, goal, version)
    && x.db.usages == AttachUsages(w.db.usages, ids, goal)
  }

  /** The operations of a Draft, none of which runs, go with it. */
  predicate Drops(w: World, x: World, ids: set<Id>, now: int) {
    && Still(w, x) && x.db.generations == Without(w.db.generations, ids)
    && x.db.usages == DropUsages(w.db.usages, ids, now)
    && forall id :: id in ids && id in w.db.generations ==> w.db.generations[id].status != Running
  }

  /** The operations of the reviewed Draft of a Goal. */
  ghost function ReviewOperations(db: Db, user: Id, goal: Id): set<Id> {
    var draft := ReviewDraft(db, user, goal);
    if draft.Some? then GenerationsOfDraft(db.generations, user, draft.value) else {}
  }

  lemma StartAttaches(cfg: Config, w: World, i: StartInput)
    ensures var x := StartGoal(cfg, w, i).world;
            x == w || Attaches(w, x, GenerationsOfDraft(w.db.generations, i.user, i.draft), i.goal, i.version)
  {
  }

  lemma ContinueAttaches(w: World, i: ContinueInput)
    ensures var x := ContinueReview(w, i).world;
            x == w || (i.cycle in x.db.cycles &&
                       Attaches(w, x, ReviewOperations(w.db, i.user, i.goal), i.goal, x.db.cycles[i.cycle].version))
  {
  }

  lemma AbandonDrops(w: World, user: Id, id: Id, now: int)
    ensures var x := AbandonDraft(w, user, id, now).world;
            x == w || Drops(w, x, GenerationsOfDraft(w.db.generations, user, id), now)
  {
  }

  lemma TerminateReviewDrops(w: World, i: TerminateInput)
    requires i.goal in w.db.goals && Progressing(w.db.goals[i.goal].status) && !Progressing(i.outcome)
    ensures var x := TerminateReview(w, i).world; x == w || Drops(w, x, ReviewOperations(w.db, i.user, i.goal), i.now)
  {
  }

  lemma TerminateDrops(w: World, i: TerminateInput)
    ensures var x := Terminate(w, i).world;
            || (Still(w, x) && x.db.generations == w.db.generations && x.db.usages == w.db.usages)
            || Drops(w, x, ReviewOperations(w.db, i.user, i.goal), i.now)
  {
    if i.state == GoalReview && Terminate(w, i).world != w {
      TerminateReviewDrops(w, i);
    }
  }
}
