/** The independent check of a selected context, and that it accepts whatever the selector returns. */
module ContextCheck {
  import opened Base
  import opened Rows
  import opened Truncation
  import opened Selection

  /** What the check demands of one text: whole, empty, or a strictly shorter prefix followed by the marker. */
  predicate AcceptsText(marker: string, original: string, selected: string) {
    || selected == original || selected == ""
    || (&& |selected| >= |marker| && selected[|selected| - |marker|..] == marker
        && |selected| - |marker| < |original| && original[..|selected| - |marker|] == selected[..|selected| - |marker|])
  }

  lemma AcceptsShortened(marker: string, original: string, selected: string)
    ensures AcceptsText(marker, original, selected) <==> Shortened(marker, original, selected)
  {
    if AcceptsText(marker, original, selected) && selected != original && selected != "" {
      var k: nat := |selected| - |marker|;
      assert selected == selected[..k] + selected[k..];
      assert selected == Cut(original, k, marker);
    }
  }

  /** `part` occurs in `whole` in the same order: positions in `whole` that increase. */
  ghost predicate OccursAt<T>(part: seq<T>, whole: seq<T>, at: seq<nat>) {
    && |at| == |part|
    && (forall i :: 0 <= i < |at| ==> at[i] < |whole| && whole[at[i]] == part[i])
    && (forall i, j :: 0 <= i < j < |at| ==> at[i] < at[j])
  }

  ghost predicate InOrder<T>(part: seq<T>, whole: seq<T>) {
    exists at: seq<nat> :: OccursAt(part, whole, at)
  }

  /** The greedy scan: for each element, skip to its next occurrence. */
  method Scan<T(==)>(part: seq<T>, whole: seq<T>) returns (found: bool)
    ensures found <==> InOrder(part, whole)
  {
    var next := 0;
    ghost var at: seq<nat> := [];
    for i := 0 to |part|
      invariant i == 0 ==> next == 0
      invariant next <= |whole| && OccursAt(part[..i], whole, at) && (forall j :: 0 <= j < i ==> at[j] < next)
      invariant forall other: seq<nat> :: OccursAt(part, whole, other) && i > 0 ==> next <= other[i - 1] + 1
    {
      var from := next;
      while next < |whole| && whole[next] != part[i]
        invariant from <= next <= |whole| && forall j :: from <= j < next ==> whole[j] != part[i]
      {
        next := next + 1;
      }
      forall other: seq<nat> | OccursAt(part, whole, other) ensures next <= other[i] {
        assert i > 0 ==> other[i - 1] < other[i];
        assert from <= other[i];
      }
      if next == |whole| {
        forall other: seq<nat> ensures !OccursAt(part, whole, other) {
        }
        return false;
      }
      at := at + [next];
      next := next + 1;
    }
    assert part[..|part|] == part;
    return true;
  }

  // The two checks.

  predicate SameTarget(candidate: Snapshot, selected: Snapshot) {
    selected.identity == candidate.identity && selected.operation == candidate.operation
      && selected.goal == candidate.goal
  }

  ghost predicate AcceptsRefine(marker: string, candidate: Snapshot, selected: Snapshot) {
    && SameTarget(candidate, selected) && candidate.current.None? && selected.current.None?
    && AcceptsText(marker, candidate.source, selected.source)
    && AcceptsText(marker, candidate.goalBody, selected.goalBody)
    && (selected.truncated <==> selected.source != candidate.source || selected.goalBody != candidate.goalBody)
    && InOrder(selected.past, candidate.past) && SameGoal(selected)
  }

  predicate AcceptsActionText(marker: string, operation: Operation, original: string, selected: string) {
    (operation == ActionGenerate && selected == "") || AcceptsText(marker, original, selected)
  }

  predicate AcceptsCurrent(marker: string, candidate: Snapshot, selected: Snapshot)
    requires candidate.current.Some? && selected.current.Some?
  {
    var o, c := candidate.current.value, selected.current.value;
    && c.id == o.id && c.goal == o.goal && c.sequence == o.sequence && c.status == o.status && c.goalBody == o.goalBody
    && AcceptsText(marker, candidate.goalBody, selected.goalBody)
    && AcceptsText(marker, o.plan, c.plan) && AcceptsText(marker, o.doing, c.doing)
    && AcceptsText(marker, o.check, c.check)
    && AcceptsActionText(marker, candidate.operation, o.action, c.action)
  }

  predicate TextsChanged(candidate: Snapshot, selected: Snapshot)
    requires candidate.current.Some? && selected.current.Some?
  {
    var o, c := candidate.current.value, selected.current.value;
    || selected.goalBody != candidate.goalBody || c.plan != o.plan || c.doing != o.doing || c.check != o.check
    || (candidate.operation == ActionRefine && c.action != o.action)
  }

  ghost predicate AcceptsAction(marker: string, candidate: Snapshot, selected: Snapshot) {
    && candidate.current.Some? && selected.current.Some?
    && SameTarget(candidate, selected) && selected.source == candidate.source
    && AcceptsCurrent(marker, candidate, selected) && (selected.truncated <==> TextsChanged(candidate, selected))
    && InOrder(selected.past, candidate.past) && SameGoal(selected)
  }

  ghost predicate Accepts(marker: string, candidate: Snapshot, selected: Snapshot) {
    if candidate.operation == GoalRefine then AcceptsRefine(marker, candidate, selected)
      else AcceptsAction(marker, candidate, selected)
  }

  method Check(marker: string, candidate: Snapshot, selected: Snapshot) returns (ok: bool)
    ensures ok <==> Accepts(marker, candidate, selected)
  {
    if candidate.operation == GoalRefine {
      var changed := selected.source != candidate.source || selected.goalBody != candidate.goalBody;
      if !SameTarget(candidate, selected) || candidate.current.Some? || selected.current.Some? ||
         !AcceptsText(marker, candidate.source, selected.source) ||
           !AcceptsText(marker, candidate.goalBody, selected.goalBody) ||
         selected.truncated != changed {
        return false;
      }
    } else {
      if candidate.current.None? || selected.current.None? || !SameTarget(candidate, selected) ||
         selected.source != candidate.source || !AcceptsCurrent(marker, candidate, selected) ||
         selected.truncated != TextsChanged(candidate, selected) {
        return false;
      }
    }
    var found := Scan(selected.past, candidate.past);
    return found && SameGoal(selected);
  }

  // Agreement.

  /** A candidate snapshot as the use cases build it. */
  predicate Proper(s: Snapshot) {
    !s.truncated && (s.operation == GoalRefine <==> s.current.None?)
  }

  predicate AllMarkerCosts(count: Counter, marker: string, s: Snapshot) {
    forall i :: 0 <= i < |Shares(s.operation)| ==> MarkerCosts(count, marker, Get(s, Shares(s.operation)[i].field))
  }

  predicate Distinct(shares: seq<Share>) {
    forall i, j :: 0 <= i < j < |shares| ==> shares[i].field != shares[j].field
  }

  predicate Writable(s: Snapshot, f: Field) { f == GoalText || f == SourceText || s.current.Some? }

  lemma PutGet(s: Snapshot, f: Field, text: string, changed: bool)
    requires Writable(s, f)
    ensures var t := Put(s, f, text).(truncated := changed);
            && Get(t, f) == text && (forall h: Field :: h != f ==> Get(t, h) == Get(s, h))
            && SameTarget(s, t) && (t.current.Some? <==> s.current.Some?)
            && (t.current.Some? ==> SameFrame(s.current.value, t.current.value))
  {
  }

  /** A cut writes its fields and nothing else. */
  lemma {:induction false} CutKeeps(count: Counter, marker: string, s: Snapshot, shares: seq<Share>,
                                    allocations: seq<int>, f: Field)
    requires |allocations| == |shares| && forall i :: 0 <= i < |shares| ==> Writable(s, shares[i].field)
    ensures var t := ApplyCuts(count, marker, s, shares, allocations);
            && SameTarget(s, t) && (t.current.Some? <==> s.current.Some?)
            && (t.current.Some? ==> SameFrame(s.current.value, t.current.value))
            && ((forall i :: 0 <= i < |shares| ==> shares[i].field != f) ==> Get(t, f) == Get(s, f))
    decreases |shares|
  {
    if shares != [] {
      var n := |shares| - 1;
      CutKeeps(count, marker, s, shares[..n], allocations[..n], f);
      var before := ApplyCuts(count, marker, s, shares[..n], allocations[..n]);
      var text := Truncated(count, marker, Get(s, shares[n].field), allocations[n]);
      PutGet(before, shares[n].field, text, before.truncated || text != Get(s, shares[n].field));
      assert (forall i :: 0 <= i < |shares| ==> shares[i].field != f) ==>
        forall i :: 0 <= i < n ==> shares[..n][i].field != f;
    }
  }

  function PutCut(before: Snapshot, s: Snapshot, field: Field, text: string): Snapshot {
    Put(before, field, text).(truncated := before.truncated || text != Get(s, field))
  }

  lemma LastPut(count: Counter, marker: string, s: Snapshot, shares: seq<Share>, allocations: seq<int>)
    requires |allocations| == |shares| > 0
    ensures var n := |shares| - 1;
            ApplyCuts(count, marker, s, shares, allocations) ==
              PutCut(ApplyCuts(count, marker, s, shares[..n], allocations[..n]), s, shares[n].field,
                     Truncated(count, marker, Get(s, shares[n].field), allocations[n]))
  {
  }

  lemma PutCutGet(before: Snapshot, s: Snapshot, field: Field, text: string, f: Field)
    requires Writable(before, field)
    ensures Get(PutCut(before, s, field, text), f) == if f == field then text else Get(before, f)
  {
  }

  lemma StillWritable(count: Counter, marker: string, s: Snapshot, shares: seq<Share>, allocations: seq<int>, f: Field)
    requires |allocations| == |shares| && Writable(s, f)
             && forall i :: 0 <= i < |shares| ==> Writable(s, shares[i].field)
    ensures Writable(ApplyCuts(count, marker, s, shares, allocations), f)
  {
    CutKeeps(count, marker, s, shares, allocations, f);
  }

  /** The last field holds its cut text, and what was cut before is as it was. */
  lemma LastCut(count: Counter, marker: string, s: Snapshot, shares: seq<Share>, allocations: seq<int>, f: Field)
    requires |allocations| == |shares| > 0 && forall i :: 0 <= i < |shares| ==> Writable(s, shares[i].field)
    ensures var n := |shares| - 1;
            var field := shares[n].field;
            Get(ApplyCuts(count, marker, s, shares, allocations), f) ==
              if f == field then Truncated(count, marker, Get(s, field), allocations[n])
              else Get(ApplyCuts(count, marker, s, shares[..n], allocations[..n]), f)
  {
    var n := |shares| - 1;
    var before := ApplyCuts(count, marker, s, shares[..n], allocations[..n]);
    StillWritable(count, marker, s, shares[..n], allocations[..n], shares[n].field);
    LastPut(count, marker, s, shares, allocations);
    PutCutGet(before, s, shares[n].field, Truncated(count, marker, Get(s, shares[n].field), allocations[n]), f);
  }

  predicate HoldsCut(count: Counter, marker: string, s: Snapshot, shares: seq<Share>, allocations: seq<int>, k: nat)
    requires |allocations| == |shares| && k < |shares|
  {
    Get(ApplyCuts(count, marker, s, shares, allocations), shares[k].field) ==
      Truncated(count, marker, Get(s, shares[k].field), allocations[k])
  }

  lemma CutStays(count: Counter, marker: string, s: Snapshot, shares: seq<Share>, allocations: seq<int>, k: nat)
    requires |allocations| == |shares| && Distinct(shares) && k < |shares| - 1
    requires forall i :: 0 <= i < |shares| ==> Writable(s, shares[i].field)
    requires HoldsCut(count, marker, s, shares[..|shares| - 1], allocations[..|shares| - 1], k)
    ensures HoldsCut(count, marker, s, shares, allocations, k)
  {
    LastCut(count, marker, s, shares, allocations, shares[k].field);
  }

  /** The cut fields hold the cut texts. */
  lemma {:induction false} CutWrites(count: Counter, marker: string, s: Snapshot, shares: seq<Share>,
                                     allocations: seq<int>, k: nat)
    requires |allocations| == |shares| && Distinct(shares) && k < |shares|
    requires forall i :: 0 <= i < |shares| ==> Writable(s, shares[i].field)
    ensures HoldsCut(count, marker, s, shares, allocations, k)
    decreases |shares|
  {
    var n := |shares| - 1;
    if k < n {
      CutWrites(count, marker, s, shares[..n], allocations[..n], k);
      CutStays(count, marker, s, shares, allocations, k);
    } else {
      LastCut(count, marker, s, shares, allocations, shares[k].field);
    }
  }

  predicate Changes(count: Counter, marker: string, s: Snapshot, share: Share, allocation: int) {
    Truncated(count, marker, Get(s, share.field), allocation) != Get(s, share.field)
  }

  /** Some share is changed by its allocation. */
  ghost predicate AnyOf(changes: (Share, int) -> bool, shares: seq<Share>, allocations: seq<int>)
    requires |allocations| == |shares|
  {
    exists i :: 0 <= i < |shares| && changes(shares[i], allocations[i])
  }

  lemma AnyOfStep(changes: (Share, int) -> bool, shares: seq<Share>, allocations: seq<int>)
    requires |allocations| == |shares| > 0
    ensures var n := |shares| - 1;
            AnyOf(changes, shares, allocations) <==>
              AnyOf(changes, shares[..n], allocations[..n]) || changes(shares[n], allocations[n])
  {
    var n := |shares| - 1;
    assert forall i :: 0 <= i < n ==> shares[..n][i] == shares[i] && allocations[..n][i] == allocations[i];
  }

  ghost function ChangesOf(count: Counter, marker: string, s: Snapshot): (Share, int) -> bool {
    (share: Share, allocation: int) => Changes(count, marker, s, share, allocation)
  }

  /** The flag says whether any text was changed. */
  lemma {:induction false} CutFlags(count: Counter, marker: string, s: Snapshot, shares: seq<Share>,
                                    allocations: seq<int>)
    requires |allocations| == |shares|
    ensures ApplyCuts(count, marker, s, shares, allocations).truncated <==>
              AnyOf(ChangesOf(count, marker, s), shares, allocations)
    decreases |shares|
  {
    if shares != [] {
      CutFlags(count, marker, s, shares[..|shares| - 1], allocations[..|shares| - 1]);
      CutFlagStep(count, marker, s, shares, allocations);
      AnyOfStep(ChangesOf(count, marker, s), shares, allocations);
    }
  }

  lemma CutFlagStep(count: Counter, marker: string, s: Snapshot, shares: seq<Share>, allocations: seq<int>)
    requires |allocations| == |shares| > 0
    ensures var n := |shares| - 1;
            ApplyCuts(count, marker, s, shares, allocations).truncated ==
            (ApplyCuts(count, marker, s, shares[..n], allocations[..n]).truncated ||
             Changes(count, marker, s, shares[n], allocations[n]))
  {
  }

  predicate SameFrame(o: ContextCycle, c: ContextCycle) {
    c.id == o.id && c.goal == o.goal && c.sequence == o.sequence && c.status == o.status && c.goalBody == o.goalBody
  }

  lemma SharesDistinct(operation: Operation)
    ensures Distinct(Shares(operation))
  {
  }

  /** One cut text passes the check. */
  lemma CutPasses(count: Counter, marker: string, s: Snapshot, shares: seq<Share>, allocations: seq<int>, k: nat)
    requires |allocations| == |shares| && Distinct(shares) && k < |shares|
    requires forall i :: 0 <= i < |shares| ==> Writable(s, shares[i].field)
    requires MarkerCosts(count, marker, Get(s, shares[k].field))
    ensures AcceptsText(marker, Get(s, shares[k].field),
                        Get(ApplyCuts(count, marker, s, shares, allocations), shares[k].field))
  {
    CutWrites(count, marker, s, shares, allocations, k);
    TruncatedShortens(count, marker, Get(s, shares[k].field), allocations[k]);
    AcceptsShortened(marker, Get(s, shares[k].field),
                     Truncated(count, marker, Get(s, shares[k].field), allocations[k]));
  }

  lemma PrefixInOrder<T>(candidates: seq<T>, k: nat, whole: seq<T>)
    requires k <= |candidates| <= |whole| && candidates == whole[..|candidates|]
    ensures InOrder(candidates[..k], whole)
  {
    var at := seq<nat>(k, i requires 0 <= i < k => i);
    assert OccursAt(candidates[..k], whole, at);
  }

  // What cutting leaves of a snapshot, field by field.

  ghost predicate CutFrom(count: Counter, marker: string, b: Snapshot, t: Snapshot) {
    var shares := Shares(b.operation);
    && SameTarget(b, t) && (t.current.Some? <==> b.current.Some?) && t.past == []
    && (t.current.Some? ==> SameFrame(b.current.value, t.current.value))
    && (forall k :: 0 <= k < |shares| ==> AcceptsText(marker, Get(b, shares[k].field), Get(t, shares[k].field)))
    && (forall f: Field :: (forall k :: 0 <= k < |shares| ==> shares[k].field != f) ==> Get(t, f) == Get(b, f))
    && (t.truncated <==> exists k :: 0 <= k < |shares| && Get(t, shares[k].field) != Get(b, shares[k].field))
  }

  lemma CutsAre(count: Counter, marker: string, b: Snapshot, allocations: seq<int>)
    requires |allocations| == |Shares(b.operation)| && (b.operation == GoalRefine || b.current.Some?)
             && AllMarkerCosts(count, marker, b)
    ensures CutFrom(count, marker, b, ApplyCuts(count, marker, b, Shares(b.operation), allocations))
  {
    var shares := Shares(b.operation);
    var t := ApplyCuts(count, marker, b, shares, allocations);
    SharesDistinct(b.operation);
    forall f: Field ensures (forall k :: 0 <= k < |shares| ==> shares[k].field != f) ==> Get(t, f) == Get(b, f) {
      CutKeeps(count, marker, b, shares, allocations, f);
    }
    CutKeeps(count, marker, b, shares, allocations, GoalText);
    CutsKeepOperation(count, marker, b, shares, allocations);
    forall k | 0 <= k < |shares|
      ensures AcceptsText(marker, Get(b, shares[k].field), Get(t, shares[k].field))
      ensures Changes(count, marker, b, shares[k], allocations[k]) <==>
                Get(t, shares[k].field) != Get(b, shares[k].field)
    {
      CutPasses(count, marker, b, shares, allocations, k);
      CutWrites(count, marker, b, shares, allocations, k);
    }
    CutFlags(count, marker, b, shares, allocations);
  }

  /** Everything the check compares, given one by one. */
  lemma CutRefine(count: Counter, marker: string, s: Snapshot, t: Snapshot)
    requires Proper(s) && s.operation == GoalRefine && CutFrom(count, marker, Stripped(s), t)
    ensures AcceptsText(marker, s.source, t.source) && AcceptsText(marker, s.goalBody, t.goalBody) && t.current.None?
            && SameTarget(s, t)
    ensures t.truncated <==> t.source != s.source || t.goalBody != s.goalBody
  {
    var b, shares := Stripped(s), Shares(s.operation);
    assert shares[0].field == SourceText && shares[1].field == GoalText;
    assert AcceptsText(marker, Get(b, shares[0].field), Get(t, shares[0].field)) &&
        AcceptsText(marker, Get(b, shares[1].field), Get(t, shares[1].field));
  }

  /** Each shared text passes, and the flag says whether one of them was changed. */
  lemma CutField(count: Counter, marker: string, b: Snapshot, t: Snapshot, k: nat)
    requires CutFrom(count, marker, b, t) && k < |Shares(b.operation)|
    ensures var f := Shares(b.operation)[k].field;
            AcceptsText(marker, Get(b, f), Get(t, f)) && (Get(t, f) != Get(b, f) ==> t.truncated)
  {
  }

  lemma CutOther(count: Counter, marker: string, b: Snapshot, t: Snapshot, f: Field)
    requires CutFrom(count, marker, b, t)
             && forall k :: 0 <= k < |Shares(b.operation)| ==> Shares(b.operation)[k].field != f
    ensures Get(t, f) == Get(b, f)
  {
  }

  lemma CutFlag(count: Counter, marker: string, b: Snapshot, t: Snapshot) returns (k: nat)
    requires CutFrom(count, marker, b, t) && t.truncated
    ensures k < |Shares(b.operation)| && Get(t, Shares(b.operation)[k].field) != Get(b, Shares(b.operation)[k].field)
  {
    k :| k < |Shares(b.operation)| && Get(t, Shares(b.operation)[k].field) != Get(b, Shares(b.operation)[k].field);
  }

  /** The texts of the Goal and of the first three frames differ. */
  predicate FramesChanged(b: Snapshot, t: Snapshot)
    requires b.current.Some? && t.current.Some?
  {
    var o, c := b.current.value, t.current.value;
    t.goalBody != b.goalBody || c.plan != o.plan || c.doing != o.doing || c.check != o.check
  }

  predicate FramesAccepted(marker: string, b: Snapshot, t: Snapshot)
    requires b.current.Some? && t.current.Some?
  {
    var o, c := b.current.value, t.current.value;
    && AcceptsText(marker, b.goalBody, t.goalBody) && AcceptsText(marker, o.plan, c.plan)
    && AcceptsText(marker, o.doing, c.doing) && AcceptsText(marker, o.check, c.check)
  }

  lemma GenerateFields(count: Counter, marker: string, b: Snapshot, t: Snapshot)
    requires b.operation == ActionGenerate && b.current.Some? && CutFrom(count, marker, b, t)
    ensures FramesAccepted(marker, b, t) && t.current.value.action == b.current.value.action && t.source == b.source
    ensures t.truncated <==> FramesChanged(b, t)
  {
    var shares := Shares(b.operation);
    assert shares[0].field == GoalText && shares[1].field == PlanText;
    assert shares[2].field == DoText && shares[3].field == CheckText;
    CutField(count, marker, b, t, 0);
    CutField(count, marker, b, t, 1);
    CutField(count, marker, b, t, 2);
    CutField(count, marker, b, t, 3);
    CutOther(count, marker, b, t, ActionText);
    CutOther(count, marker, b, t, SourceText);
    if t.truncated {
      var k := CutFlag(count, marker, b, t);
    }
  }

  lemma RefineFields(count: Counter, marker: string, b: Snapshot, t: Snapshot)
    requires b.operation == ActionRefine && b.current.Some? && CutFrom(count, marker, b, t)
    ensures FramesAccepted(marker, b, t) && AcceptsText(marker, b.current.value.action, t.current.value.action)
    ensures t.source == b.source
    ensures t.truncated <==> FramesChanged(b, t) || t.current.value.action != b.current.value.action
  {
    var shares := Shares(b.operation);
    assert shares[0].field == ActionText && shares[1].field == GoalText && shares[2].field == PlanText;
    assert shares[3].field == DoText && shares[4].field == CheckText;
    CutField(count, marker, b, t, 0);
    CutField(count, marker, b, t, 1);
    CutField(count, marker, b, t, 2);
    CutField(count, marker, b, t, 3);
    CutField(count, marker, b, t, 4);
    CutOther(count, marker, b, t, SourceText);
    if t.truncated {
      var k := CutFlag(count, marker, b, t);
    }
  }

  lemma CutAction(count: Counter, marker: string, s: Snapshot, t: Snapshot)
    requires Proper(s) && s.operation != GoalRefine && CutFrom(count, marker, Stripped(s), t)
    ensures t.current.Some? && SameTarget(s, t) && t.source == s.source && AcceptsCurrent(marker, s, t)
    ensures t.truncated <==> TextsChanged(s, t)
  {
    if s.operation == ActionGenerate {
      GenerateFields(count, marker, Stripped(s), t);
    } else {
      RefineFields(count, marker, Stripped(s), t);
    }
  }

  lemma WholePasses(marker: string, s: Snapshot)
    requires Proper(s)
    ensures var b := Stripped(s);
            && SameTarget(s, b) && !b.truncated
            && (s.operation == GoalRefine ==> b.current.None? && b.source == s.source && b.goalBody == s.goalBody)
            && (s.operation != GoalRefine ==>
                  b.current.Some? && b.source == s.source && AcceptsCurrent(marker, s, b) &&
                  !TextsChanged(s, b))
  {
  }

  lemma StrippedCosts(count: Counter, marker: string, s: Snapshot)
    requires AllMarkerCosts(count, marker, s)
    ensures AllMarkerCosts(count, marker, Stripped(s))
  {
    var shares := Shares(s.operation);
    forall i | 0 <= i < |shares| ensures MarkerCosts(count, marker, Get(Stripped(s), shares[i].field)) {
      assert Get(Stripped(s), shares[i].field) == Get(s, shares[i].field);
    }
  }

  /** The current texts pass, cut or whole. */
  lemma CurrentPasses(settings: Settings, s: Snapshot, limit: nat)
    requires Proper(s) && AllMarkerCosts(settings.count, settings.marker, s) && Current(settings, s, limit).Ok?
    ensures var t := Current(settings, s, limit).value;
            && SameTarget(s, t) && t.past == []
            && (s.operation == GoalRefine ==>
                  && t.current.None? && AcceptsText(settings.marker, s.source, t.source) &&
                      AcceptsText(settings.marker, s.goalBody, t.goalBody)
                  && (t.truncated <==> t.source != s.source || t.goalBody != s.goalBody))
            && (s.operation != GoalRefine ==>
                  t.current.Some? && t.source == s.source && AcceptsCurrent(settings.marker, s, t)
                    && (t.truncated <==> TextsChanged(s, t)))
  {
    if settings.size(Stripped(s)) > limit {
      var last := TruncatedInputFits(settings, Stripped(s), limit);
      StrippedCosts(settings.count, settings.marker, s);
      CutsAre(settings.count, settings.marker, Stripped(s), last);
      if s.operation == GoalRefine {
        CutRefine(settings.count, settings.marker, s, Current(settings, s, limit).value);
      } else {
        CutAction(settings.count, settings.marker, s, Current(settings, s, limit).value);
      }
    } else {
      WholePasses(settings.marker, s);
    }
  }

  /** The check accepts every snapshot the selector returns, for all three operations. */
  lemma SelectorAgrees(settings: Settings, s: Snapshot, limit: int)
    requires Proper(s) && AllMarkerCosts(settings.count, settings.marker, s) && Selected(settings, s, limit).Ok?
    ensures Accepts(settings.marker, s, Selected(settings, s, limit).value)
  {
    CurrentPasses(settings, s, limit);
    var k := SelectedFits(settings, s, limit);
    var candidates := Candidates(settings, s);
    PrefixInOrder(candidates, k, s.past);
    AgreesOn(settings.marker, s, Current(settings, s, limit).value, candidates[..k]);
  }

  lemma AgreesOn(marker: string, s: Snapshot, t: Snapshot, kept: seq<ContextCycle>)
    requires SameTarget(s, t) && SameGoal(s) && InOrder(kept, s.past)
             && (s.operation == GoalRefine <==> s.current.None?)
    requires s.operation == GoalRefine ==>
               && t.current.None? && AcceptsText(marker, s.source, t.source)
               && AcceptsText(marker, s.goalBody, t.goalBody)
               && (t.truncated <==> t.source != s.source || t.goalBody != s.goalBody)
    requires s.operation != GoalRefine ==>
               t.current.Some? && t.source == s.source && AcceptsCurrent(marker, s, t)
                 && (t.truncated <==> TextsChanged(s, t))
    ensures Accepts(marker, s, t.(past := kept))
  {
    var at: seq<nat> :| OccursAt(kept, s.past, at);
    forall c | c in kept ensures s.goal == Some(c.goal) {
      var i :| 0 <= i < |kept| && kept[i] == c;
      assert s.past[at[i]] == c;
    }
  }

  // What each text can count on.

  /** The thousandths of what is available that a text is guaranteed; a text with none is shown as it is. */
  function Promised(operation: Operation, field: Field): nat {
    match field
    case SourceText => if operation == GoalRefine then 700 else 0
    case GoalText => if operation == GoalRefine then 300 else if operation == ActionGenerate then 100 else 200
    case ActionText => if operation == ActionRefine then 400 else 0
    case _ => if operation == GoalRefine then 0 else if operation == ActionGenerate then 100 else 133
  }

  /** The order in which the texts are served from what is left. */
  function Served(operation: Operation): seq<Field> {
    match operation
    case GoalRefine => [SourceText, GoalText]
    case ActionGenerate => [GoalText, PlanText, DoText, CheckText]
    case ActionRefine => [ActionText, GoalText, PlanText, DoText, CheckText]
  }

  lemma SharesServe(operation: Operation)
    ensures |Shares(operation)| == |Served(operation)|
    ensures forall k :: 0 <= k < |Shares(operation)| ==>
              && Shares(operation)[k].field == Served(operation)[k]
              && Shares(operation)[k].permille == Promised(operation, Served(operation)[k])
    ensures forall f: Field :: Promised(operation, f) == 0 ==> f !in Served(operation)
  {
  }

  lemma SharePosition(operation: Operation, field: Field) returns (k: nat)
    requires Promised(operation, field) > 0
    ensures k < |Shares(operation)| && Shares(operation)[k] == Share(field, Promised(operation, field))
  {
    match field
    case SourceText => k := 0;
    case ActionText => k := 0;
    case GoalText => k := if operation == ActionGenerate then 0 else 1;
    case PlanText => k := if operation == ActionGenerate then 1 else 2;
    case DoText => k := if operation == ActionGenerate then 2 else 3;
    case CheckText => k := if operation == ActionGenerate then 3 else 4;
  }

  /** The tokens are no more than the share of what is available. */
  predicate WithinShare(tokens: nat, available: nat, permille: nat) { 1000 * tokens <= available * permille }

  lemma GuaranteeEnough(available: nat, share: Share, tokens: nat)
    requires WithinShare(tokens, available, share.permille)
    ensures tokens <= Guaranteed(available, share)
  {
  }

  lemma FairShare(available: nat, shares: seq<Share>, originals: seq<nat>, k: nat, tokens: nat)
    requires |originals| == |shares| && Permilles(shares) <= 1000 && k < |shares|
    requires WithinShare(tokens, available, shares[k].permille)
    ensures Allocation(available, shares, originals)[k] >= tokens
  {
    AllocationFair(available, shares, originals);
    GuaranteeEnough(available, shares[k], tokens);
  }

  lemma DivisionShare(settings: Settings, s: Snapshot, shares: seq<Share>, limit: nat, k: nat, tokens: nat)
    requires limit > settings.size(Emptied(s, shares)) && k < |shares| && Permilles(shares) <= 1000
    requires WithinShare(tokens, limit - settings.size(Emptied(s, shares)), shares[k].permille)
    ensures Division(settings, s, shares, limit)[k] >= tokens
  {
    FairShare(limit - settings.size(Emptied(s, shares)), shares, Originals(settings.count, s, shares), k, tokens);
  }

  lemma WholeCut(count: Counter, marker: string, s: Snapshot, shares: seq<Share>, allocations: seq<int>, k: nat)
    requires |allocations| == |shares| && k < |shares| && Distinct(shares)
    requires forall i :: 0 <= i < |shares| ==> Writable(s, shares[i].field)
    requires count(Get(s, shares[k].field)) <= allocations[k]
    ensures Get(ApplyCuts(count, marker, s, shares, allocations), shares[k].field) == Get(s, shares[k].field)
  {
    CutWrites(count, marker, s, shares, allocations, k);
  }

  lemma SharesWritable(s: Snapshot)
    requires s.operation == GoalRefine || s.current.Some?
    ensures forall i :: 0 <= i < |Shares(s.operation)| ==> Writable(s, Shares(s.operation)[i].field)
  {
  }

  /** A text within its guaranteed share is shown whole, however long the others are. */
  lemma ShareKeepsText(settings: Settings, s: Snapshot, shares: seq<Share>, limit: nat, field: Field)
    requires shares == Shares(s.operation) && limit > settings.size(Emptied(s, shares))
    requires (s.operation == GoalRefine || s.current.Some?) && Promised(s.operation, field) > 0
    requires WithinShare(settings.count(Get(s, field)), limit - settings.size(Emptied(s, shares)),
                         Promised(s.operation, field))
    ensures Get(ApplyCuts(settings.count, settings.marker, s, shares, Division(settings, s, shares, limit)), field) ==
              Get(s, field)
  {
    var k := SharePosition(s.operation, field);
    SharesDistinct(s.operation);
    SharesFit(s.operation);
    SharesWritable(s);
    DivisionShare(settings, s, shares, limit, k, settings.count(Get(s, field)));
    WholeCut(settings.count, settings.marker, s, shares, Division(settings, s, shares, limit), k);
  }

  // What an accepted context shows.

  /** The texts that may be cut, and the Action, which need not be shown. */
  predicate Checked(operation: Operation, f: Field) {
    f in Served(operation) || (f == ActionText && operation == ActionGenerate)
  }

  /** Each of them is whole, empty or really shorter. */
  predicate TextsAccepted(marker: string, candidate: Snapshot, selected: Snapshot) {
    forall f: Field :: Checked(candidate.operation, f) ==> Shortened(marker, Get(candidate, f), Get(selected, f))
  }

  predicate AnyCut(candidate: Snapshot, selected: Snapshot) {
    exists f: Field :: f in Served(candidate.operation) && Get(selected, f) != Get(candidate, f)
  }

  /** The current Cycle is the candidate's, of its number, status and Goal text; a refinement has none. */
  predicate SameCurrent(candidate: Snapshot, selected: Snapshot) {
    if candidate.operation == GoalRefine then candidate.current == None && selected.current == None
    else
      && candidate.current.Some? && selected.current.Some? && selected.source == candidate.source
      && var o, c := candidate.current.value, selected.current.value;
      c == o.(plan := c.plan, doing := c.doing, check := c.check, action := c.action)
  }

  lemma TextsAcceptedAll(marker: string, candidate: Snapshot, selected: Snapshot)
    ensures forall f: Field ::
              AcceptsText(marker, Get(candidate, f), Get(selected, f)) <==>
              Shortened(marker, Get(candidate, f), Get(selected, f))
  {
    forall f: Field
      ensures AcceptsText(marker, Get(candidate, f), Get(selected, f)) <==>
              Shortened(marker, Get(candidate, f), Get(selected, f))
    {
      AcceptsShortened(marker, Get(candidate, f), Get(selected, f));
    }
  }

  /** The served texts, one by one. */
  lemma ServedEach(operation: Operation, f: Field)
    ensures f in Served(operation) <==>
              match f
              case SourceText => operation == GoalRefine
              case GoalText => true
              case ActionText => operation == ActionRefine
              case _ => operation != GoalRefine
  {
    var served := Served(operation);
    match operation {
      case GoalRefine => assert served == [SourceText, GoalText];
      case ActionGenerate => assert served == [GoalText, PlanText, DoText, CheckText];
      case ActionRefine => assert served == [ActionText, GoalText, PlanText, DoText, CheckText];
    }
  }

  /** A property of all texts that are checked is one of each. */
  lemma FieldsEach(operation: Operation, holds: Field -> bool)
    ensures (forall f: Field :: Checked(operation, f) ==> holds(f)) <==>
              if operation == GoalRefine then holds(SourceText) && holds(GoalText)
              else holds(GoalText) && holds(PlanText) && holds(DoText) && holds(CheckText) && holds(ActionText)
  {
    forall f: Field {
      ServedEach(operation, f);
    }
    assert Checked(operation, GoalText);
    assert operation == GoalRefine ==> Checked(operation, SourceText);
    assert operation != GoalRefine ==> Checked(operation, PlanText) && Checked(operation, DoText);
    assert operation != GoalRefine ==> Checked(operation, CheckText) && Checked(operation, ActionText);
  }

  lemma TextsEach(marker: string, candidate: Snapshot, selected: Snapshot)
    requires SameCurrent(candidate, selected)
    ensures TextsAccepted(marker, candidate, selected) <==>
              if candidate.operation == GoalRefine
              then AcceptsText(marker, candidate.source, selected.source)
                     && AcceptsText(marker, candidate.goalBody, selected.goalBody)
              else AcceptsCurrent(marker, candidate, selected)
  {
    var accepted := (f: Field) => AcceptsText(marker, Get(candidate, f), Get(selected, f));
    TextsAcceptedAll(marker, candidate, selected);
    FieldsEach(candidate.operation, accepted);
  }

  lemma CutsEach(candidate: Snapshot, selected: Snapshot)
    requires SameCurrent(candidate, selected)
    ensures AnyCut(candidate, selected) <==>
              if candidate.operation == GoalRefine
              then selected.source != candidate.source || selected.goalBody != candidate.goalBody
              else TextsChanged(candidate, selected)
  {
    forall f: Field {
      ServedEach(candidate.operation, f);
    }
    assert Get(selected, SourceText) == selected.source && Get(selected, GoalText) == selected.goalBody;
    if selected.current.Some? {
      var c := selected.current.value;
      assert Get(selected, PlanText) == c.plan && Get(selected, DoText) == c.doing;
      assert Get(selected, CheckText) == c.check && Get(selected, ActionText) == c.action;
    }
  }

  /** A context is accepted exactly if it is of the same operation, its texts are in order, and it owns up to cuts. */
  lemma AcceptsIff(marker: string, candidate: Snapshot, selected: Snapshot)
    ensures Accepts(marker, candidate, selected) <==>
            && selected.identity == candidate.identity && selected.operation == candidate.operation
            && selected.goal == candidate.goal && SameCurrent(candidate, selected)
            && TextsAccepted(marker, candidate, selected) && (selected.truncated <==> AnyCut(candidate, selected))
            && InOrder(selected.past, candidate.past)
            && (selected.current.Some? ==> selected.goal == Some(selected.current.value.goal))
            && (forall c :: c in selected.past ==> selected.goal == Some(c.goal))
  {
    if SameCurrent(candidate, selected) {
      TextsEach(marker, candidate, selected);
      CutsEach(candidate, selected);
    }
  }
}
