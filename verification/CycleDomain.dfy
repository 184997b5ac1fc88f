/** The PDCA Cycle's transitions, each on a copy of the row. */
module CycleDomain {
  import opened Base
  import opened Rows
  import opened Text

  function NewCycle(user: Id, goal: Id, version: Id, sequence: nat, start: Claim): Cycle {
    Cycle(user, goal, version, sequence, Active, None, None, None, "", "", "", "",
          Revisions(0, 0, 0, 0, 0), None, 0, None, false, start, None)
  }

  function FrameContent(c: Cycle, frame: Frame): string {
    match frame
    case PlanFrame => c.plan
    case DoFrame => c.doing
    case CheckFrame => c.check
    case ActionFrame => c.action
  }

  function FrameRevision(c: Cycle, frame: Frame): nat {
    match frame
    case PlanFrame => c.revisions.plan
    case DoFrame => c.revisions.doing
    case CheckFrame => c.revisions.check
    case ActionFrame => c.revisions.action
  }

  function WriteFrame(c: Cycle, frame: Frame, content: string): Cycle {
    var r := c.revisions.(content := c.revisions.content + 1);
    match frame
    case PlanFrame => c.(plan := content, revisions := r.(plan := r.plan + 1))
    case DoFrame => c.(doing := content, revisions := r.(doing := r.doing + 1))
    case CheckFrame => c.(check := content, revisions := r.(check := r.check + 1))
    case ActionFrame =>
      c.(action := content, revisions := r.(action := r.action + 1), modifiedAfterAi := c.lastAiRevision.Some?)
  }

  function SaveFrame(c: Cycle, frame: Frame, text: string, expectedRevision: int, aiRunning: bool)
    : Result<Cycle, Error>
  {
    if c.status != Active then Err(CycleNotActive)
    else if aiRunning && frame == ActionFrame then Err(InProgress)
    else if NormalizeFrame(text).Err? then Err(InvalidText)
    else if FrameContent(c, frame) == NormalizeFrame(text).value then Ok(c)
    else if FrameRevision(c, frame) != expectedRevision then Err(RevisionConflict)
    else Ok(WriteFrame(c, frame, NormalizeFrame(text).value))
  }

  function ApplyAiAction(c: Cycle, output: string): Result<Cycle, Error> {
    if c.status != Active then Err(CycleNotActive)
    else if NormalizeFrame(output).Err? then Err(InvalidText)
    else if Blank(NormalizeFrame(output).value) then Err(CycleIncomplete)
    else
      var content := c.revisions.content + 1;
      Ok(c.(action := NormalizeFrame(output).value,
            revisions := c.revisions.(content := content, action := c.revisions.action + 1),
            lastAiRevision := Some(content), modifiedAfterAi := false))
  }

  predicate FramesMissing(c: Cycle) {
    Blank(c.plan) || Blank(c.doing) || Blank(c.check) || Blank(c.action)
  }

  function Complete(c: Cycle, completion: Claim, expectedContent: int, aiRunning: bool, now: int)
    : Result<Cycle, Error>
  {
    if c.status != Active then Err(CycleNotActive)
    else if c.revisions.content != expectedContent then Err(RevisionConflict)
    else if aiRunning then Err(InProgress)
    else if FramesMissing(c) then Err(CycleIncomplete)
    else Ok(c.(status := Completed, completedAt := Some(now), completion := Some(completion)))
  }

  function Cancel(c: Cycle, reason: Reason, now: int): Result<Cycle, Error> {
    if c.status != Active then Err(CycleNotActive)
    else Ok(c.(status := Canceled, canceledAt := Some(now), reason := Some(reason)))
  }

  function ChangeReviewSchedule(c: Cycle, target: Option<int>, expectedRevision: int): Result<Cycle, Error> {
    if c.status != Active then Err(CycleNotActive)
    else if expectedRevision < 0 then Err(RevisionConflict)
    else if c.reviewDate == target then Ok(c)
    else if c.scheduleRevision != expectedRevision then Err(RevisionConflict)
    else Ok(c.(reviewDate := target, scheduleRevision := c.scheduleRevision + 1))
  }
}
