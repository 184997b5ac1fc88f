/** The context a begin is given: the candidate it builds from its rows, and when it is refused. */
module Contexts {
  import opened Base
  import opened Rows
  import opened Schema
  import opened UseCases
  import opened Truncation
  import opened Selection
  import opened ContextCheck

  /** What a begin asks of its context: the selector answers, and the check accepts the answer. */
  ghost predicate ContextOk(settings: Settings, s: Snapshot, limit: int) {
    Selected(settings, s, limit).Ok? && Accepts(settings.marker, s, Selected(settings, s, limit).value)
  }

  predicate OfGoal(past: seq<ContextCycle>, goal: Option<Id>) {
    forall c :: c in past ==> goal == Some(c.goal)
  }

  /** The candidate of an Action operation: the Cycle's texts under its Goal's current Version, and past Cycles. */
  ghost function ActionContext(db: Db, i: ActionInput, past: seq<ContextCycle>): Snapshot
    requires i.goal in db.goals && i.cycle in db.cycles && CurrentVersion(db, i.goal).Some?
  {
    var c, body := db.cycles[i.cycle], db.versions[CurrentVersion(db, i.goal).value].body;
    Snapshot(i.id, i.operation, Some(i.goal), body, if i.operation == ActionRefine then c.action else "",
             Some(ContextCycle(i.cycle, i.goal, c.sequence, c.status, body, c.plan, c.doing, c.check, c.action)), past,
               false)
  }

  /** The candidate of a refinement: the Draft's body, and for a review the Goal's current text. */
  ghost function RefineContext(db: Db, i: RefineInput, draft: Id, past: seq<ContextCycle>): Snapshot
    requires draft in db.drafts && (i.goal.Some? ==> i.goal.value in db.goals && CurrentVersion(db, i.goal.value).Some?)
  {
    var body := if i.goal.Some? then db.versions[CurrentVersion(db, i.goal.value).value].body else "";
    Snapshot(i.id, GoalRefine, i.goal, body, db.drafts[draft].body, None, past, false)
  }

  /** Field by field: the provider is shown the Cycle's own texts and its Version's body. */
  lemma ActionSources(db: Db, i: ActionInput, past: seq<ContextCycle>)
    requires i.goal in db.goals && i.cycle in db.cycles && CurrentVersion(db, i.goal).Some?
    ensures var s, c := ActionContext(db, i, past), db.cycles[i.cycle];
            && s.identity == i.id && s.operation == i.operation && s.past == past && !s.truncated
            && s.goal == Some(i.goal) && Get(s, GoalText) == db.versions[CurrentVersion(db, i.goal).value].body
            && Get(s, SourceText) == (if i.operation == ActionRefine then c.action else "")
            && Get(s, PlanText) == c.plan && Get(s, DoText) == c.doing && Get(s, CheckText) == c.check
            && Get(s, ActionText) == c.action && s.current.Some? && s.current.value.id == i.cycle
            && s.current.value.sequence == c.sequence && s.current.value.status == c.status
  {
  }

  /** A refinement shows the Draft's body, and the Goal's if there is one. */
  lemma RefineSources(db: Db, i: RefineInput, draft: Id, past: seq<ContextCycle>)
    requires draft in db.drafts && (i.goal.Some? ==> i.goal.value in db.goals && CurrentVersion(db, i.goal.value).Some?)
    ensures var s := RefineContext(db, i, draft, past);
            && s.identity == i.id && s.operation == GoalRefine && s.goal == i.goal && s.past == past && !s.truncated
            && Get(s, SourceText) == db.drafts[draft].body && s.current == None
            && (i.goal.None? ==> Get(s, GoalText) == "")
            && (i.goal.Some? ==> Get(s, GoalText) == db.versions[CurrentVersion(db, i.goal.value).value].body)
  {
  }

  lemma {:induction false} ShrinkingRefusesBudget(settings: Settings, s: Snapshot, shares: seq<Share>, limit: nat,
                                                  allocations: seq<int>, rounds: nat)
    requires |allocations| == |shares|
    ensures Shrinking(settings, s, shares, limit, allocations, rounds).Err? ==>
              Shrinking(settings, s, shares, limit, allocations, rounds) == Err(InputBudget)
    decreases rounds
  {
    if rounds > 0 && Largest(allocations).Some? {
      var t := ApplyCuts(settings.count, settings.marker, s, shares, allocations);
      if settings.size(t) > limit {
        ShrinkingRefusesBudget(settings, s, shares, limit, Lowered(allocations, settings.size(t) - limit), rounds - 1);
      }
    }
  }

  lemma SelectedRefusesBudget(settings: Settings, s: Snapshot, limit: int)
    requires SameGoal(s) && Selected(settings, s, limit).Err?
    ensures Selected(settings, s, limit) == Err(InputBudget)
  {
    if limit > 0 {
      var b, shares := Stripped(s), Shares(s.operation);
      if limit > settings.size(Emptied(b, shares)) {
        ShrinkingRefusesBudget(settings, b, shares, limit, Division(settings, b, shares, limit), settings.rounds);
      }
    }
  }

  /**
   If the marker makes no text cheaper, the check never decides: a context is in order exactly if one can be selected.
   */
  lemma SelectorDecides(settings: Settings, s: Snapshot, limit: int)
    requires Proper(s) && AllMarkerCosts(settings.count, settings.marker, s)
    ensures ContextOk(settings, s, limit) <==> Selected(settings, s, limit).Ok?
  {
    if Selected(settings, s, limit).Ok? {
      SelectorAgrees(settings, s, limit);
    }
  }

  /** Then an Action operation is refused for its context only when its texts cannot be cut to the budget. */
  lemma ActionContextRejected(cfg: Config, w: World, i: ActionInput, settings: Settings, past: seq<ContextCycle>,
                              limit: int)
    requires i.operation != GoalRefine && i.goal in w.db.goals && i.cycle in w.db.cycles
             && CurrentVersion(w.db, i.goal).Some?
    requires OfGoal(past, Some(i.goal)) && AllMarkerCosts(settings.count, settings.marker, ActionContext(w.db, i, past))
    requires i.contextOk <==> ContextOk(settings, ActionContext(w.db, i, past), limit)
    ensures BeginAction(cfg, w, i).answer == Refused(ContextRejected) ==>
              Selected(settings, ActionContext(w.db, i, past), limit) == Err(InputBudget)
  {
    var s := ActionContext(w.db, i, past);
    SelectorDecides(settings, s, limit);
    if Selected(settings, s, limit).Err? {
      SelectedRefusesBudget(settings, s, limit);
    }
    ContextInput(cfg, w, i);
  }

  /** The context input decides that refusal. */
  lemma ContextInput(cfg: Config, w: World, i: ActionInput)
    ensures BeginAction(cfg, w, i).answer == Refused(ContextRejected) ==> !i.contextOk
  {
  }

  lemma RefineContextInput(cfg: Config, w: World, i: RefineInput)
    ensures BeginRefine(cfg, w, i).answer == Refused(ContextRejected) ==> !i.contextOk
  {
  }

  /** So is a refinement. */
  lemma RefineContextRejected(cfg: Config, w: World, i: RefineInput, draft: Id, settings: Settings,
                              past: seq<ContextCycle>, limit: int)
    requires draft in w.db.drafts
             && (i.goal.Some? ==> i.goal.value in w.db.goals && CurrentVersion(w.db, i.goal.value).Some?)
    requires OfGoal(past, i.goal)
             && AllMarkerCosts(settings.count, settings.marker, RefineContext(w.db, i, draft, past))
    requires i.contextOk <==> ContextOk(settings, RefineContext(w.db, i, draft, past), limit)
    ensures BeginRefine(cfg, w, i).answer == Refused(ContextRejected) ==>
              Selected(settings, RefineContext(w.db, i, draft, past), limit) == Err(InputBudget)
  {
    var s := RefineContext(w.db, i, draft, past);
    SelectorDecides(settings, s, limit);
    if Selected(settings, s, limit).Err? {
      SelectedRefusesBudget(settings, s, limit);
    }
    RefineContextInput(cfg, w, i);
  }
}
