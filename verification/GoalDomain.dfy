/** The Goal's transitions, each on a copy of the row. */
module GoalDomain {
  import opened Base
  import opened Rows
  import opened Text
  import CycleDomain

  datatype Started = Started(goal: Goal, version: Version, cycle: Cycle)
  datatype Continued = Continued(goal: Goal, version: Option<Version>, cycle: Cycle)
  datatype Replanning = Replanning(goal: Goal, canceled: Cycle, next: Cycle)

  function SaveDraft(d: Draft, body: string, signal: Option<string>, expectedRevision: int): Result<Draft, Error> {
    if NormalizeBody(body, true).Err? || NormalizeSignal(signal).Err? then Err(InvalidText)
    else
      var body', signal' := NormalizeBody(body, true).value, NormalizeSignal(signal).value;
      if d.body == body' && d.signal == signal' then Ok(d)
      else if d.revision != expectedRevision then Err(DraftRevisionConflict)
      else Ok(d.(body := body', signal := signal', revision := d.revision + 1))
  }

  function StartInitial(d: Draft, goal: Id, version: Id, claim: Claim): Result<Started, Error> {
    if d.kind != Creation then Err(GoalStateConflict)
    else if NormalizeBody(d.body, false).Err? || NormalizeSignal(d.signal).Err? then Err(InvalidText)
    else Ok(Started(
      Goal(d.user, ActiveCycle, 1, 2, 0, None, None),
      Version(d.user, goal, 1, NormalizeBody(d.body, false).value, NormalizeSignal(d.signal).value, claim.operation),
      CycleDomain.NewCycle(d.user, goal, version, 1, claim)))
  }

  function EnterReview(g: Goal): Result<Goal, Error> {
    if g.status != ActiveCycle then Err(GoalStateConflict)
    else Ok(g.(status := GoalReview, revision := g.revision + 1))
  }

  /** Whether a Review Draft still refers to its Goal and the Goal's current Version. */
  predicate ReviewReferences(id: Id, g: Goal, versionId: Id, v: Version, d: Draft) {
    && g.status == GoalReview && v.user == g.user && v.goal == id && v.number == g.currentVersion
    && d.user == g.user && d.kind.Review? && d.kind.goal == id && d.kind.baseVersion == versionId
  }

  predicate Differs(v: Version, body: string, signal: Option<string>) {
    NormalizeLineEndings(v.body) != NormalizeLineEndings(body) || v.signal != signal
  }

  function ContinueReview(id: Id, g: Goal, versionId: Id, v: Version, d: Draft, newVersionId: Id, claim: Claim)
    : Result<Continued, Error>
  {
    if !ReviewReferences(id, g, versionId, v, d) then Err(GoalVersionConflict)
    else if NormalizeBody(d.body, false).Err? || NormalizeSignal(d.signal).Err? then Err(InvalidText)
    else
      var body, signal := NormalizeBody(d.body, false).value, NormalizeSignal(d.signal).value;
      var changed := Differs(v, body, signal);
      var g' := g.(status := ActiveCycle, revision := g.revision + 1, nextSequence := g.nextSequence + 1,
                   currentVersion := if changed then g.currentVersion + 1 else g.currentVersion);
      Ok(Continued(
        g',
        if changed then Some(Version(g.user, id, g.currentVersion + 1, body, signal, claim.operation)) else None,
        CycleDomain.NewCycle(g.user, id, if changed then newVersionId else versionId, g.nextSequence, claim)))
  }

  function Replan(id: Id, g: Goal, versionId: Id, v: Version, c: Cycle, claim: Claim, now: int)
    : Result<Replanning, Error>
  {
    if g.status != ActiveCycle || g.user != v.user || id != v.goal || g.currentVersion != v.number ||
       c.status != Active || c.user != g.user || c.goal != id || c.version != versionId ||
       c.sequence != g.nextSequence - 1 then Err(InvariantViolated)
    else
      match CycleDomain.Cancel(c, Replanned, now)
      case Err(e) => Err(e)
      case Ok(canceled) => Ok(Replanning(
        g.(nextSequence := g.nextSequence + 1, revision := g.revision + 1),
        canceled,
        CycleDomain.NewCycle(g.user, id, versionId, g.nextSequence, claim)))
  }

  function Terminate(g: Goal, outcome: GoalStatus, claim: Claim, now: int): Result<Goal, Error> {
    if !Progressing(g.status) then Err(AlreadyTerminal)
    else if Progressing(outcome) then Err(GoalStateConflict)
    else Ok(g.(status := outcome, revision := g.revision + 1, terminalAt := Some(now), terminal := Some(claim)))
  }
}
