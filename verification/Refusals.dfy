/** Which refusal a command is answered with, in the order in which the source asks. */
module Refusals {
  import opened Base
  import opened Rows
  import opened Keys
  import opened Schema
  import opened Text
  import opened UseCases
  import opened Edits
  import opened Transitions

  /** A command on the running Cycle of a Goal: what refuses it before its own rules are asked. */
  function NotRunning(db: Db, user: Id, goal: Id, cycle: Id): Option<Error> {
    if !OwnsGoal(db, user, goal) || !OwnsCycle(db, user, goal, cycle) then Some(NotFound)
    else if db.goals[goal].status != ActiveCycle then Some(GoalStateConflict)
    else None
  }

  /** A frame: the Cycle, then an operation on its Action, then the text, then the revision. */
  lemma SaveFrameAnswer(w: World, user: Id, goal: Id, cycle: Id, frame: Frame, text: string, expected: int)
    ensures SaveFrame(w, user, goal, cycle, frame, text, expected).answer ==
              if NotRunning(w.db, user, goal, cycle).Some? then Refused(NotRunning(w.db, user, goal, cycle).value)
              else if w.db.cycles[cycle].status != Active then Refused(CycleNotActive)
              else if frame == ActionFrame && RunsOnCycle(w.db.generations, user, goal, cycle) then Refused(InProgress)
              else if NormalizeFrame(text).Err? then Refused(InvalidText)
              else if Holds(w.db.cycles[cycle], frame, NormalizeFrame(text).value) then Done
              else if !AtRevision(w.db.cycles[cycle], frame, expected) then Refused(RevisionConflict)
              else Done
  {
  }

  lemma ChangeScheduleAnswer(w: World, user: Id, goal: Id, cycle: Id, date: Option<int>, expected: int)
    ensures ChangeSchedule(w, user, goal, cycle, date, expected).answer ==
              if NotRunning(w.db, user, goal, cycle).Some? then Refused(NotRunning(w.db, user, goal, cycle).value)
              else if w.db.cycles[cycle].status != Active then Refused(CycleNotActive)
              else if expected < 0 then Refused(RevisionConflict)
              else if w.db.cycles[cycle].reviewDate == date then Done
              else if w.db.cycles[cycle].scheduleRevision != expected then Refused(RevisionConflict)
              else Done
  {
  }

  /** A completion of a Goal's current work: the Goal's revision, the texts' revision, an operation, the texts. */
  lemma CompleteAnswer(w: World, i: CompleteInput)
    requires i.user in w.db.users && Uncompleted(w.db.cycles, i.user, i.operation)
    requires NotRunning(w.db, i.user, i.goal, i.cycle).None?
    requires CurrentVersion(w.db, i.goal) == Some(w.db.cycles[i.cycle].version)
    ensures var c := w.db.cycles[i.cycle];
            CompleteCycle(w, i).answer ==
              if w.db.goals[i.goal].revision != i.goalRevision then Refused(GoalRevisionConflict)
              else if c.status != Active then Refused(CycleNotActive)
              else if c.revisions.content != i.contentRevision then Refused(RevisionConflict)
              else if RunsOnCycle(w.db.generations, i.user, i.goal, i.cycle) then Refused(InProgress)
              else if Blank(c.plan) || Blank(c.doing) || Blank(c.check) || Blank(c.action) then Refused(CycleIncomplete)
              else Created(i.draft)
  {
    UncompletedIff(w.db.cycles, i.user, i.operation);
  }

  /** A Draft: the text, then the revision. */
  lemma SaveDraftAnswer(w: World, user: Id, id: Id, body: string, patch: Patch, expected: int)
    ensures SaveDraft(w, user, id, body, patch, expected).answer ==
              if !OwnsDraft(w.db, user, id) || w.db.drafts[id].kind != Creation then Refused(NotFound)
              else if NormalizeBody(body, true).Err? || NormalizeSignal(Patched(w.db.drafts[id], patch)).Err?
              then Refused(InvalidText)
              else if w.db.drafts[id].body == NormalizeBody(body, true).value &&
                      w.db.drafts[id].signal == NormalizeSignal(Patched(w.db.drafts[id], patch)).value then Done
              else if w.db.drafts[id].revision != expected then Refused(DraftRevisionConflict)
              else Done
  {
  }

  /** A review that is at rest and at its revisions is only refused for a Draft without a text. */
  lemma ContinueAnswer(w: World, i: ContinueInput, draft: Id)
    requires Unclaimed(w.db.cycles, i.user, i.operation) && OwnsGoal(w.db, i.user, i.goal)
    requires w.db.goals[i.goal].status == GoalReview && ReviewDraft(w.db, i.user, i.goal) == Some(draft)
    requires CurrentVersion(w.db, i.goal).Some?
    requires var current := CurrentVersion(w.db, i.goal).value;
             && w.db.drafts[draft].kind == Review(i.goal, current, w.db.drafts[draft].kind.cycle)
             && w.db.versions[current].user == i.user
    requires NormalizeSignal(w.db.drafts[draft].signal).Ok? && NormalizeBody(w.db.drafts[draft].body, true).Ok?
    ensures ContinueReview(w, i).answer ==
              if w.db.goals[i.goal].revision != i.goalRevision then Refused(GoalRevisionConflict)
              else if w.db.drafts[draft].revision != i.draftRevision then Refused(ReviewRevisionConflict)
              else if RunsOnDraft(w.db.generations, draft) then Refused(InProgress)
              else if Blank(NormalizeLineEndings(w.db.drafts[draft].body)) then Refused(InvalidText)
              else Created(i.cycle)
  {
    UnclaimedIff(w.db.cycles, i.user, i.operation);
  }
}
