/** What every stored row says, in the rows' own terms, and what no read validator lets through. */
module Laws {
  import opened Base
  import opened Rows
  import opened Schema
  import opened Text
  import opened Views
  import opened Lifecycle
  import opened Reads
  import opened Runs

  predicate Storable(text: string, limit: nat) { PlainText(text) && |text| <= limit }

  /** A Cycle row: revisions add up, status and times agree, and what is completed was written in full. */
  predicate CycleLaw(c: Cycle) {
    && c.revisions.content == c.revisions.plan + c.revisions.doing + c.revisions.check + c.revisions.action
    && (c.completedAt.Some? <==> c.status == Completed) && (c.canceledAt.Some? <==> c.status == Canceled)
    && (c.reason.Some? <==> c.status == Canceled) && (c.reviewDate.Some? ==> c.scheduleRevision > 0)
    && Storable(c.plan, 200) && Storable(c.doing, 200) && Storable(c.check, 200) && Storable(c.action, 200)
    && (c.status == Completed ==> !Blank(c.plan) && !Blank(c.doing) && !Blank(c.check) && !Blank(c.action))
  }

  /** What came before: a completed Cycle, at most one Version back, or one that was replanned on the same Version. */
  predicate Precedes(db: Db, p: Id, c: Id) {
    && p in db.cycles && c in db.cycles && db.cycles[p].version in db.versions && db.cycles[c].version in db.versions
    && var earlier, later := db.cycles[p], db.cycles[c];
    && earlier.goal == later.goal && earlier.sequence == later.sequence - 1
    && if earlier.status == Completed
       then 0 <= db.versions[later.version].number - db.versions[earlier.version].number <= 1
       else earlier.status == Canceled && earlier.reason == Some(Replanned) && earlier.version == later.version
  }

  predicate VersionLaw(v: Version) {
    && Storable(v.body, 80) && !Blank(v.body)
    && (v.signal.Some? ==> Storable(v.signal.value, 120) && !Blank(v.signal.value))
  }

  lemma CycleLawOf(c: Cycle)
    requires CycleShape(c)
    ensures CycleLaw(c)
  {
    PlainIsClean(c.plan);
    PlainIsClean(c.doing);
    PlainIsClean(c.check);
    PlainIsClean(c.action);
  }

  lemma VersionLawOf(v: Version, g: Goal)
    requires VersionFits(v, g)
    ensures VersionLaw(v)
  {
    PlainIsClean(v.body);
    if v.signal.Some? {
      PlainIsClean(v.signal.value);
    }
  }

  lemma CyclePrecedes(db: Db, cycle: Id)
    requires LifecycleInv(db) && cycle in db.cycles && db.cycles[cycle].sequence > 1
    ensures exists p :: Precedes(db, p, cycle)
  {
    PredecessorRow(db, cycle);
    assert Precedes(db, Predecessor(db, cycle).value, cycle);
  }

  /** A Cycle keeps to its law, stands on a Version of its Goal that keeps to its own, and follows another Cycle. */
  ghost predicate CycleStands(db: Db, cycle: Id)
    requires cycle in db.cycles
  {
    var c := db.cycles[cycle];
    && CycleLaw(c) && c.sequence >= 1 && c.version in db.versions && db.versions[c.version].goal == c.goal
    && VersionLaw(db.versions[c.version]) && (c.sequence > 1 ==> exists p :: Precedes(db, p, cycle))
  }

  lemma CycleStandsOf(db: Db, cycle: Id)
    requires LifecycleInv(db) && cycle in db.cycles
    ensures CycleStands(db, cycle)
  {
    var c := db.cycles[cycle];
    CycleRow(db, cycle);
    CycleLawOf(c);
    VersionLawOf(db.versions[c.version], db.goals[c.goal]);
    if c.sequence > 1 {
      CyclePrecedes(db, cycle);
    }
  }

  /** So does every Cycle of every reachable state. */
  lemma ReachableCycles(cfg: Config, w: World, cycle: Id)
    requires Reachable(cfg, w) && cycle in w.db.cycles
    ensures CycleStands(w.db, cycle)
  {
    ReachableInv(cfg, w);
    CycleStandsOf(w.db, cycle);
  }

  // What the validators do not let through.

  /** A Cycle read that passes would not if it showed anything else of its identity, revisions, status or times. */
  lemma CycleReadRefuses(view: CycleView, goal: Id, cycle: Id, id: Id, n: nat, at: int, reason: Reason)
    requires ValidCycleView(view, goal, cycle)
    ensures var c := view.row;
            && (id != goal ==> !ValidCycleView(view, id, cycle)) && (id != cycle ==> !ValidCycleView(view, goal, id))
            && (n != c.revisions.content ==>
                  !ValidCycleView(view.(row := c.(revisions := c.revisions.(content := n))), goal, cycle))
            && !ValidCycleView(view.(row := c.(sequence := 0)), goal, cycle)
            && !ValidCycleView(view.(version := view.version.(number := 0)), goal, cycle)
            && !ValidCycleView(view.(row := c.(completedAt := if c.completedAt.Some? then None else Some(at))), goal,
                  cycle)
            && !ValidCycleView(view.(row := c.(canceledAt := if c.canceledAt.Some? then None else Some(at))), goal,
                  cycle)
            && !ValidCycleView(view.(row := c.(reason := if c.reason.Some? then None else Some(reason))), goal, cycle)
  {
  }

  /** Nor if it showed a Cycle before it that cannot be the one, whatever Action it showed. */
  lemma PredecessorRefuses(view: CycleView, goal: Id, cycle: Id, other: PredecessorView, shown: Option<PreviousAction>)
    requires ValidCycleView(view, goal, cycle)
    requires view.row.status != Active || view.row.sequence == 1 || other.cycle == cycle ||
             other.sequence != view.row.sequence - 1 || other.versionNumber > view.version.number ||
             other.versionNumber < view.version.number - 1 || other.versionNumber <= 0 || other.status == Active ||
             (other.status == Completed && other.reason.Some?) ||
             (other.status == Canceled &&
                (other.reason != Some(Replanned) || other.versionNumber != view.version.number))
    ensures !ValidCycleView(view.(predecessor := Some(other), previous := shown), goal, cycle)
    ensures view.predecessor.Some? ==> !ValidCycleView(view.(predecessor := None, previous := shown), goal, cycle)
  {
  }

  /** Nor with an Action that is not that Cycle's own, or blank, or too long, or where none was completed. */
  lemma PreviousRefuses(view: CycleView, goal: Id, cycle: Id, other: PreviousAction)
    requires ValidCycleView(view, goal, cycle)
    requires match view.predecessor
             case None => true
             case Some(p) =>
               p.status != Completed || other.cycle != p.cycle || other.sequence != p.sequence ||
               other.versionNumber != p.versionNumber || Blank(other.action) || |other.action| > 200
    ensures !ValidCycleView(view.(previous := Some(other)), goal, cycle)
    ensures view.previous.Some? ==> !ValidCycleView(view.(previous := None), goal, cycle)
  {
  }

  /** A Goal read shows one piece of work, of the kind its status calls for, and none once it has ended. */
  lemma GoalReadRefuses(view: GoalView, work: Work)
    requires ValidWork(view)
    requires match view.row.status
             case ActiveCycle =>
               work.ReviewWork? || work.sequence <= 0 || work.scheduleRevision < 0 ||
               (work.date.Some? && work.scheduleRevision == 0)
             case GoalReview => work.CycleWork? || work.triggerSequence <= 0
             case _ => true
    ensures !ValidWork(view.(work := Some(work)))
    ensures view.row.status == ActiveCycle || view.row.status == GoalReview ==> !ValidWork(view.(work := None))
  {
  }
}
