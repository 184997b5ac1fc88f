/** What an edit leaves of the rows it names, and exactly when it is let through. */
module Edits {
  import opened Base
  import opened Rows
  import opened Keys
  import opened Schema
  import opened Ledger
  import opened LedgerInvariant
  import opened Text
  import opened Lifecycle
  import opened Targets
  import opened UseCases
  import opened Soundness
  import opened MoneySteps
  import CycleDomain
  import GoalDomain

  // The running Cycle.

  /** The frame already holds the text. */
  predicate Holds(c: Cycle, frame: Frame, text: string) {
    match frame
    case PlanFrame => c.plan == text
    case DoFrame => c.doing == text
    case CheckFrame => c.check == text
    case ActionFrame => c.action == text
  }

  /** The frame is at the revision the edit was made on. */
  predicate AtRevision(c: Cycle, frame: Frame, revision: int) {
    match frame
    case PlanFrame => c.revisions.plan == revision
    case DoFrame => c.revisions.doing == revision
    case CheckFrame => c.revisions.check == revision
    case ActionFrame => c.revisions.action == revision
  }

  function One(b: bool): nat { if b then 1 else 0 }

  /** The named frame holds the text; its own and the content revision count the change; nothing else is touched. */
  predicate FrameSaved(c: Cycle, frame: Frame, text: string, d: Cycle) {
    && d.plan == (if frame == PlanFrame then text else c.plan)
    && d.doing == (if frame == DoFrame then text else c.doing)
    && d.check == (if frame == CheckFrame then text else c.check)
    && d.action == (if frame == ActionFrame then text else c.action)
    && d.revisions.plan == c.revisions.plan + One(d.plan != c.plan)
    && d.revisions.doing == c.revisions.doing + One(d.doing != c.doing)
    && d.revisions.check == c.revisions.check + One(d.check != c.check)
    && d.revisions.action == c.revisions.action + One(d.action != c.action)
    && d.revisions.content == c.revisions.content + One(!Holds(c, frame, text))
    && d.modifiedAfterAi == (if d.action != c.action then c.lastAiRevision.Some? else c.modifiedAfterAi)
    && d == c.(plan := d.plan, doing := d.doing, check := d.check, action := d.action, revisions := d.revisions,
               modifiedAfterAi := d.modifiedAfterAi)
  }

  /** The Cycle runs, the text is storable, and nothing works on the Action that would be overwritten. */
  predicate FrameOpen(db: Db, user: Id, goal: Id, cycle: Id, frame: Frame, text: string) {
    && OwnsCycle(db, user, goal, cycle) && db.cycles[cycle].status == Active && NormalizeFrame(text).Ok?
    && (frame == ActionFrame ==>
          forall id :: id in db.generations && db.generations[id].cycle == Some(cycle) ==>
            db.generations[id].status != Running)
  }

  /** Whoever runs on a Cycle runs for its owner and its Goal. */
  lemma RunsOnCycleIff(db: Db, log: map<Id, Entry>, user: Id, goal: Id, cycle: Id)
    requires TargetsInv(db, log) && OwnsCycle(db, user, goal, cycle)
    ensures RunsOnCycle(db.generations, user, goal, cycle) <==>
              exists id :: id in db.generations && db.generations[id].cycle == Some(cycle) &&
                           db.generations[id].status == Running
  {
    forall id | id in db.generations && db.generations[id].cycle == Some(cycle)
      ensures db.generations[id].user == user && db.generations[id].goal == Some(goal)
    {
      assert Aims(id, db.generations[id], db, log);
    }
  }

  lemma OwnerOfActive(db: Db, user: Id, goal: Id, cycle: Id)
    requires LifecycleInv(db) && OwnsCycle(db, user, goal, cycle) && db.cycles[cycle].status == Active
    ensures OwnsGoal(db, user, goal) && db.goals[goal].status == ActiveCycle && user in db.users
    ensures CurrentVersion(db, goal) == Some(db.cycles[cycle].version) && db.cycles[cycle].version in db.versions
  {
    ActiveOnCurrent(db, cycle);
  }

  lemma FrameRow(c: Cycle, frame: Frame, text: string, expected: int, running: bool)
    requires running ==> frame == ActionFrame
    ensures var saved := CycleDomain.SaveFrame(c, frame, text, expected, running);
            var open := c.status == Active && !running && NormalizeFrame(text).Ok?;
            && (saved.Ok? <==>
                  open && (Holds(c, frame, NormalizeFrame(text).value) || AtRevision(c, frame, expected)))
            && (saved == Err(RevisionConflict) <==>
                  open && !Holds(c, frame, NormalizeFrame(text).value) && !AtRevision(c, frame, expected))
            && (saved.Ok? ==> FrameSaved(c, frame, NormalizeFrame(text).value, saved.value))
  {
  }

  /** Only one Cycle's row was written. */
  predicate OnlyCycle(w: World, x: World, cycle: Id) {
    cycle in x.db.cycles && x == w.(db := w.db.(cycles := w.db.cycles[cycle := x.db.cycles[cycle]]))
  }

  lemma PutWrites(w: World, cycle: Id, changed: Result<Cycle, Error>)
    ensures var s := PutCycle(w, cycle, changed);
            if changed.Ok? then s.answer == Done && OnlyCycle(w, s.world, cycle)
              && s.world.db.cycles[cycle] == changed.value
            else s.world == w && s.answer == Refused(changed.error)
  {
  }

  lemma FramePut(w: World, user: Id, goal: Id, cycle: Id, frame: Frame, text: string, expected: int)
    ensures var s := SaveFrame(w, user, goal, cycle, frame, text, expected);
            if OwnsGoal(w.db, user, goal) && OwnsCycle(w.db, user, goal, cycle)
              && w.db.goals[goal].status == ActiveCycle
            then s == PutCycle(w, cycle, CycleDomain.SaveFrame(w.db.cycles[cycle], frame, text, expected,
                                 frame == ActionFrame && RunsOnCycle(w.db.generations, user, goal, cycle)))
            else s.world == w && (s.answer == Refused(NotFound) || s.answer == Refused(GoalStateConflict))
  {
  }

  /**
   A frame is saved exactly if its Cycle is the User's and runs, the text is storable, no operation works on an Action
   to be written, and the text is the stored one or was written over the stored revision; a different text over a stale
   revision is a conflict.
   */
  lemma SaveFrameIff(cfg: Config, w: World, user: Id, goal: Id, cycle: Id, frame: Frame, text: string, expected: int)
    requires Sound(cfg, w)
    ensures var s, open := SaveFrame(w, user, goal, cycle, frame, text, expected),
                           FrameOpen(w.db, user, goal, cycle, frame, text);
            && (s.answer == Done <==>
                  && open
                  && (Holds(w.db.cycles[cycle], frame, NormalizeFrame(text).value) ||
                      AtRevision(w.db.cycles[cycle], frame, expected)))
            && (s.answer == Refused(RevisionConflict) <==>
                  && open && !Holds(w.db.cycles[cycle], frame, NormalizeFrame(text).value)
                  && !AtRevision(w.db.cycles[cycle], frame, expected))
  {
    FramePut(w, user, goal, cycle, frame, text, expected);
    if OwnsCycle(w.db, user, goal, cycle) {
      var running := frame == ActionFrame && RunsOnCycle(w.db.generations, user, goal, cycle);
      RunsOnCycleIff(w.db, w.history.log, user, goal, cycle);
      FrameRow(w.db.cycles[cycle], frame, text, expected, running);
      PutWrites(w, cycle, CycleDomain.SaveFrame(w.db.cycles[cycle], frame, text, expected, running));
      if w.db.cycles[cycle].status == Active {
        OwnerOfActive(w.db, user, goal, cycle);
      }
    }
  }

  /**
   Then the named frame holds the normalized text, the revisions count the change, and no other text, revision or row
   is touched; what is refused writes nothing.
   */
  lemma SaveFrameWrites(w: World, user: Id, goal: Id, cycle: Id, frame: Frame, text: string, expected: int)
    ensures var s := SaveFrame(w, user, goal, cycle, frame, text, expected);
            if s.answer == Done
            then cycle in w.db.cycles && NormalizeFrame(text).Ok? && OnlyCycle(w, s.world, cycle) &&
                 FrameSaved(w.db.cycles[cycle], frame, NormalizeFrame(text).value, s.world.db.cycles[cycle])
            else s.world == w
  {
    FramePut(w, user, goal, cycle, frame, text, expected);
    if OwnsCycle(w.db, user, goal, cycle) {
      var running := frame == ActionFrame && RunsOnCycle(w.db.generations, user, goal, cycle);
      FrameRow(w.db.cycles[cycle], frame, text, expected, running);
      PutWrites(w, cycle, CycleDomain.SaveFrame(w.db.cycles[cycle], frame, text, expected, running));
    }
  }

  /** The Cycle shows the date; its schedule revision counts the change; nothing else is touched. */
  predicate Rescheduled(c: Cycle, date: Option<int>, d: Cycle) {
    && d.reviewDate == date && d.scheduleRevision == c.scheduleRevision + One(c.reviewDate != date)
    && d == c.(reviewDate := d.reviewDate, scheduleRevision := d.scheduleRevision)
  }

  /**
   A review date is changed exactly if the Cycle is the User's and runs, and the date or the revision is the stored
   one; then the Cycle shows that date.
   */
  lemma ChangeScheduleIff(cfg: Config, w: World, user: Id, goal: Id, cycle: Id, date: Option<int>, expected: int)
    requires Sound(cfg, w)
    ensures var s := ChangeSchedule(w, user, goal, cycle, date, expected);
            && (s.answer == Done <==>
                  && OwnsCycle(w.db, user, goal, cycle) && w.db.cycles[cycle].status == Active && expected >= 0
                  && (w.db.cycles[cycle].reviewDate == date || w.db.cycles[cycle].scheduleRevision == expected))
            && (if s.answer == Done
                then OnlyCycle(w, s.world, cycle) && Rescheduled(w.db.cycles[cycle], date, s.world.db.cycles[cycle])
                else s.world == w)
  {
    if OwnsCycle(w.db, user, goal, cycle) && w.db.cycles[cycle].status == Active {
      OwnerOfActive(w.db, user, goal, cycle);
    }
    ScheduleWritten(w, user, goal, cycle, date, expected);
  }

  lemma ScheduleWritten(w: World, user: Id, goal: Id, cycle: Id, date: Option<int>, expected: int)
    requires OwnsCycle(w.db, user, goal, cycle) && w.db.cycles[cycle].status == Active ==>
               OwnsGoal(w.db, user, goal) && w.db.goals[goal].status == ActiveCycle
    ensures var s := ChangeSchedule(w, user, goal, cycle, date, expected);
            && (s.answer == Done <==>
                  && OwnsCycle(w.db, user, goal, cycle) && w.db.cycles[cycle].status == Active && expected >= 0
                  && (w.db.cycles[cycle].reviewDate == date || w.db.cycles[cycle].scheduleRevision == expected))
            && (if s.answer == Done
                then OnlyCycle(w, s.world, cycle) && Rescheduled(w.db.cycles[cycle], date, s.world.db.cycles[cycle])
                else s.world == w)
  {
  }

  // Drafts.

  /** A Draft is opened exactly for a User who has no Creation Draft, with a storable text. */
  lemma CreateDraftIff(w: World, user: Id, body: string, id: Id)
    ensures var s := CreateDraft(w, user, body, id);
            && (s.answer == Created(id) <==>
                  && user in w.db.users && NormalizeBody(body, true).Ok?
                  && forall d :: d in w.db.drafts ==> !(w.db.drafts[d].user == user && w.db.drafts[d].kind == Creation))
            && (s.answer != Created(id) ==> s.world == w)
            && (s.answer == Created(id) ==>
                  && s.world.db == w.db.(drafts := s.world.db.drafts)
                  && s.world.db.drafts ==
                       w.db.drafts[id := Draft(user, Creation, NormalizeBody(body, true).value, None, 0)])
  {
    var none := forall d :: d in w.db.drafts ==> !(w.db.drafts[d].user == user && w.db.drafts[d].kind == Creation);
    if none {
      assert forall d :: d in w.db.drafts ==> CreationKey(w.db.drafts[d]) != Some(user);
    } else {
      var d :| d in w.db.drafts && w.db.drafts[d].user == user && w.db.drafts[d].kind == Creation;
      assert CreationKey(w.db.drafts[d]) == Some(user);
    }
  }

  /** The signal a save leaves: the stored one, or the new text, where a blank one is none. */
  function SignalLeft(stored: Option<string>, patch: Patch): Option<string> {
    match patch
    case Keep => stored
    case Replace(None) => None
    case Replace(Some(text)) =>
      if Blank(NormalizeLineEndings(text)) then None else Some(NormalizeLineEndings(text))
  }

  /** Line endings apart, the texts are stored as they came; a new signal within its limit. */
  predicate Storable(body: string, patch: Patch) {
    && Clean(NormalizeLineEndings(body)) && |NormalizeLineEndings(body)| <= 80
    && match patch
       case Keep => true
       case Replace(None) => true
       case Replace(Some(text)) =>
         && Clean(NormalizeLineEndings(text))
         && (Blank(NormalizeLineEndings(text)) || |NormalizeLineEndings(text)| <= 120)
  }

  /** The two texts are written, and a change is counted. */
  predicate DraftSaved(d: Draft, body: string, signal: Option<string>, e: Draft) {
    e == Draft(d.user, d.kind, body, signal, d.revision + One(d.body != body || d.signal != signal))
  }

  /** The texts and the revision let a save through. */
  predicate DraftOpen(d: Draft, body: string, patch: Patch, expected: int) {
    && Storable(body, patch)
    && ((NormalizeLineEndings(body) == d.body && SignalLeft(d.signal, patch) == d.signal) || d.revision == expected)
  }

  lemma SignalRow(stored: Option<string>, patch: Patch)
    requires SignalText(stored)
    ensures var signal := NormalizeSignal(match patch case Keep => stored case Replace(s) => s);
            && (signal.Ok? ==> signal.value == SignalLeft(stored, patch))
            && (forall body :: NormalizeBody(body, true).Ok? && signal.Ok? <==> Storable(body, patch))
  {
    NormalizeSignalFixpoint(stored);
  }

  lemma DraftRow(d: Draft, body: string, patch: Patch, expected: int)
    requires SignalText(d.signal)
    ensures var saved := GoalDomain.SaveDraft(d, body, Patched(d, patch), expected);
            && (saved.Ok? <==> DraftOpen(d, body, patch, expected))
            && (saved == Err(DraftRevisionConflict) <==> Storable(body, patch) && !DraftOpen(d, body, patch, expected))
            && (saved.Ok? ==> DraftSaved(d, NormalizeLineEndings(body), SignalLeft(d.signal, patch), saved.value))
  {
    SignalRow(d.signal, patch);
  }

  predicate OnlyDraft(w: World, x: World, id: Id) {
    id in x.db.drafts && x == w.(db := w.db.(drafts := w.db.drafts[id := x.db.drafts[id]]))
  }

  lemma DraftWritten(w: World, id: Id, body: string, patch: Patch, expected: int, conflict: Error)
    requires id in w.db.drafts && SignalText(w.db.drafts[id].signal)
    requires conflict == DraftRevisionConflict || conflict == ReviewRevisionConflict
    ensures var s, d := SaveDraftRow(w, id, body, patch, expected, conflict), w.db.drafts[id];
            && (s.answer == Done <==> DraftOpen(d, body, patch, expected))
            && (s.answer == Refused(conflict) <==> Storable(body, patch) && !DraftOpen(d, body, patch, expected))
            && (if s.answer == Done
                then OnlyDraft(w, s.world, id) &&
                     DraftSaved(d, NormalizeLineEndings(body), SignalLeft(d.signal, patch), s.world.db.drafts[id])
                else s.world == w)
  {
    DraftRow(w.db.drafts[id], body, patch, expected);
  }

  lemma DraftSignal(db: Db, id: Id)
    requires LifecycleInv(db) && id in db.drafts
    ensures SignalText(db.drafts[id].signal)
  {
    assert DraftRooted(db.drafts[id], db);
  }

  /**
   A Creation Draft is saved exactly if it is the User's, the texts are storable, and they or the revision are the
   stored ones; then it holds just those texts.
   */
  lemma SaveDraftIff(cfg: Config, w: World, user: Id, id: Id, body: string, patch: Patch, expected: int)
    requires Sound(cfg, w)
    ensures var s := SaveDraft(w, user, id, body, patch, expected);
            && (s.answer == Done <==>
                  && OwnsDraft(w.db, user, id) && w.db.drafts[id].kind == Creation
                  && DraftOpen(w.db.drafts[id], body, patch, expected))
            && (if s.answer == Done
                then OnlyDraft(w, s.world, id) &&
                     DraftSaved(w.db.drafts[id], NormalizeLineEndings(body), SignalLeft(w.db.drafts[id].signal, patch),
                                s.world.db.drafts[id])
                else s.world == w)
  {
    if id in w.db.drafts {
      DraftSignal(w.db, id);
      DraftWritten(w, id, body, patch, expected, DraftRevisionConflict);
    }
  }

  lemma ReviewOwner(db: Db, user: Id, goal: Id, id: Id)
    requires LifecycleInv(db) && OwnsDraft(db, user, id) && db.drafts[id].kind.Review?
             && db.drafts[id].kind.goal == goal
    ensures OwnsGoal(db, user, goal) && db.goals[goal].status == GoalReview
    ensures CurrentVersion(db, goal) == Some(db.drafts[id].kind.baseVersion) && ReviewDraft(db, user, goal) == Some(id)
    ensures db.drafts[id].kind.baseVersion in db.versions
  {
    ReviewOnCurrent(db, id);
    LookupFinds(db.drafts, ReviewKey, id);
  }

  lemma ReviewPut(w: World, user: Id, goal: Id, id: Id, body: string, patch: Patch, expected: int)
    ensures var s := SaveReview(w, user, goal, id, body, patch, expected);
            if OwnsGoal(w.db, user, goal) && CurrentVersion(w.db, goal).Some? &&
              w.db.goals[goal].status == GoalReview &&
               OwnsDraft(w.db, user, id) && w.db.drafts[id].kind.Review? && w.db.drafts[id].kind.goal == goal
            then s == SaveDraftRow(w, id, body, patch, expected, ReviewRevisionConflict)
            else s.world == w && s.answer.Refused?
  {
  }

  /** A Review Draft likewise. */
  lemma SaveReviewIff(cfg: Config, w: World, user: Id, goal: Id, id: Id, body: string, patch: Patch, expected: int)
    requires Sound(cfg, w)
    ensures var s := SaveReview(w, user, goal, id, body, patch, expected);
            && (s.answer == Done <==>
                  && OwnsDraft(w.db, user, id) && w.db.drafts[id].kind.Review? && w.db.drafts[id].kind.goal == goal
                  && DraftOpen(w.db.drafts[id], body, patch, expected))
            && (if s.answer == Done
                then OnlyDraft(w, s.world, id) &&
                     DraftSaved(w.db.drafts[id], NormalizeLineEndings(body), SignalLeft(w.db.drafts[id].signal, patch),
                                s.world.db.drafts[id])
                else s.world == w)
  {
    ReviewPut(w, user, goal, id, body, patch, expected);
    if OwnsDraft(w.db, user, id) && w.db.drafts[id].kind.Review? && w.db.drafts[id].kind.goal == goal {
      ReviewOwner(w.db, user, goal, id);
      DraftSignal(w.db, id);
      DraftWritten(w, id, body, patch, expected, ReviewRevisionConflict);
    }
  }
}
