/** Exactly when the selector and its check agree, whatever the provider's request looks like. */
module ContextAgreement {
  import opened Base
  import opened Rows
  import opened Truncation
  import opened Selection
  import opened ContextCheck

  // The division, as the available tokens grow one by one.

  /** What the first `i` fields want and the others are guaranteed. */
  function Taken(originals: seq<nat>, gs: seq<int>, i: nat): (taken: seq<int>)
    requires |originals| == |gs| && i <= |gs|
    ensures |taken| == |gs|
  {
    seq(|gs|, j requires 0 <= j < |gs| => if j < i then originals[j] else Min(originals[j], gs[j]))
  }

  lemma {:induction false} LeftIs(available: int, gs: seq<int>, originals: seq<nat>, i: nat)
    requires |originals| == |gs| && i <= |gs| && SumOf(Used(originals, gs)) <= available
    ensures Left(available, gs, originals, i) == Max(0, available - SumOf(Taken(originals, gs, i)))
    decreases i
  {
    if i == 0 {
      assert Taken(originals, gs, 0) == Used(originals, gs);
    } else {
      LeftIs(available, gs, originals, i - 1);
      SumChange(Taken(originals, gs, i - 1), Taken(originals, gs, i), i - 1);
    }
  }

  lemma {:induction false} SumGrows(xs: seq<int>, ys: seq<int>)
    requires |xs| == |ys| && forall i :: 0 <= i < |xs| ==> xs[i] <= ys[i]
    ensures SumOf(xs) <= SumOf(ys)
    decreases |xs|
  {
    if xs != [] {
      SumGrows(xs[..|xs| - 1], ys[..|ys| - 1]);
    }
  }

  lemma SumGrowsAt(xs: seq<int>, ys: seq<int>, k: nat)
    requires |xs| == |ys| && k < |xs| && (forall i :: 0 <= i < |xs| ==> xs[i] <= ys[i]) && xs[k] < ys[k]
    ensures SumOf(xs) < SumOf(ys)
  {
    var zs := xs[k := xs[k] + 1];
    SumChange(xs, zs, k);
    SumGrows(zs, ys);
  }

  lemma GuaranteedStep(available: nat, share: Share)
    requires share.permille <= 1000
    ensures Guaranteed(available, share) <= Guaranteed(available + 1, share) <= Guaranteed(available, share) + 1
  {
    assert (available + 1) * share.permille == available * share.permille + share.permille;
  }

  ghost predicate Promises(shares: seq<Share>) {
    Permilles(shares) <= 1000 && forall i :: 0 <= i < |shares| ==> 1 <= shares[i].permille <= 1000
  }

  lemma GuaranteesWithin(available: nat, shares: seq<Share>, originals: seq<nat>)
    requires |originals| == |shares| && Promises(shares)
    ensures SumOf(Used(originals, Guarantees(available, shares))) <= available
  {
    var gs := Guarantees(available, shares);
    GuaranteesFit(available, shares, originals, gs);
    UsedWithin(available, Permilles(shares), SumOf(Used(originals, gs)));
  }

  /** What a field gets, in closed form. */
  lemma AllocationIs(available: nat, shares: seq<Share>, originals: seq<nat>, k: nat)
    requires |originals| == |shares| && Promises(shares) && k < |shares|
    ensures var gs := Guarantees(available, shares);
            Allocation(available, shares, originals)[k] ==
              gs[k] + Max(0, Min(originals[k] - gs[k], Max(0, available - SumOf(Taken(originals, gs, k)))))
  {
    GuaranteesWithin(available, shares, originals);
    LeftIs(available, Guarantees(available, shares), originals, k);
  }

  /** One more token gives a field that wants more at most one more. */
  lemma AllocationStep(available: nat, shares: seq<Share>, originals: seq<nat>, k: nat)
    requires |originals| == |shares| && Promises(shares) && k < |shares|
    requires Allocation(available, shares, originals)[k] < originals[k]
    ensures Allocation(available + 1, shares, originals)[k] <= Allocation(available, shares, originals)[k] + 1
  {
    var gs, gs' := Guarantees(available, shares), Guarantees(available + 1, shares);
    forall i | 0 <= i < |shares| ensures gs[i] <= gs'[i] <= gs[i] + 1 {
      GuaranteedStep(available, shares[i]);
    }
    AllocationIs(available, shares, originals, k);
    AllocationIs(available + 1, shares, originals, k);
    var taken, taken' := Taken(originals, gs, k), Taken(originals, gs', k);
    if gs[k] < gs'[k] {
      SumGrowsAt(taken, taken', k);
    } else {
      SumGrows(taken, taken');
    }
  }

  lemma NothingAllocated(shares: seq<Share>, originals: seq<nat>, k: nat)
    requires |originals| == |shares| && Promises(shares) && k < |shares|
    ensures Allocation(0, shares, originals)[k] == 0
  {
    AllocationIs(0, shares, originals, k);
    var gs := Guarantees(0, shares);
    var none := seq<int>(|gs|, i => 0);
    SumOfZeros(|gs|);
    SumGrows(none, Taken(originals, gs, k));
  }

  lemma {:induction false} SumOfZeros(n: nat)
    ensures SumOf(seq<int>(n, i => 0)) == 0
  {
    if n > 0 {
      SumOfZeros(n - 1);
      assert seq<int>(n, i => 0)[..n - 1] == seq<int>(n - 1, i => 0);
    }
  }

  /** So some number of available tokens leaves a field exactly one short. */
  lemma {:induction false} OneShort(available: nat, shares: seq<Share>, originals: seq<nat>, k: nat)
    returns (short: nat)
    requires |originals| == |shares| && Promises(shares) && k < |shares|
    requires Allocation(available, shares, originals)[k] >= originals[k] >= 1
    ensures Allocation(short, shares, originals)[k] == originals[k] - 1
    decreases available
  {
    if available == 0 {
      NothingAllocated(shares, originals, k);
      assert false;
    }
    short := available - 1;
    if Allocation(short, shares, originals)[k] >= originals[k] {
      short := OneShort(short, shares, originals, k);
    } else {
      AllocationStep(short, shares, originals, k);
    }
  }

  lemma Plenty(shares: seq<Share>, originals: seq<nat>, k: nat)
    requires |originals| == |shares| && Promises(shares) && k < |shares|
    ensures Allocation(1000 * originals[k], shares, originals)[k] >= originals[k]
  {
    var available := 1000 * originals[k];
    AllocationIs(available, shares, originals, k);
    PlentyGuaranteed(originals[k], shares[k]);
  }

  lemma PlentyGuaranteed(wanted: nat, share: Share)
    requires share.permille >= 1
    ensures Guaranteed(1000 * wanted, share) >= wanted
  {
    assert 1000 * wanted * share.permille == 1000 * (wanted * share.permille);
    assert wanted * share.permille >= wanted;
  }

  lemma SharesPromise(operation: Operation)
    ensures Promises(Shares(operation))
  {
    SharesFit(operation);
  }

  // Agreement over all requests.

  ghost predicate Exceeds(count: Counter, n: nat) { exists text :: count(text) > n }

  /** A token counter: nothing has no tokens, anything else has some, and there are texts of any size. */
  ghost predicate Tokenizes(count: Counter) {
    count("") == 0 && (forall text :: text != "" ==> count(text) >= 1) && forall n: nat :: Exceeds(count, n)
  }

  ghost predicate Steady(count: Counter, marker: string, s: Snapshot) {
    forall i :: 0 <= i < |Shares(s.operation)| ==> MonotoneOn(count, marker, Get(s, Shares(s.operation)[i].field))
  }

  ghost predicate Agrees(settings: Settings, s: Snapshot, limit: int) {
    Selected(settings, s, limit).Ok? ==> Accepts(settings.marker, s, Selected(settings, s, limit).value)
  }

  /** Whatever the request's encoding, its instructions, the retries and the limits: what is selected is accepted. */
  ghost predicate AlwaysAgrees(count: Counter, s: Snapshot) {
    forall encode: Snapshot -> string, instructions: Operation -> string, retry: string, attempts: int, maxCycles: int,
      limit: int ::
      Agrees(Configured(count, encode, instructions, retry, attempts, maxCycles), s, limit)
  }

  lemma AcceptsEveryField(marker: string, s: Snapshot, t: Snapshot, k: nat)
    requires Proper(s) && Accepts(marker, s, t) && k < |Shares(s.operation)|
    ensures var f := Shares(s.operation)[k].field; AcceptsText(marker, Get(s, f), Get(t, f))
  {
  }

  lemma {:induction false} EmptiedField(s: Snapshot, shares: seq<Share>, k: nat)
    requires k < |shares| && forall i :: 0 <= i < |shares| ==> Writable(s, shares[i].field)
    ensures Get(Emptied(s, shares), shares[k].field) == ""
    decreases |shares|
  {
    var n := |shares| - 1;
    EmptiedWritable(s, shares[..n], shares[n].field);
    PutGet(Emptied(s, shares[..n]), shares[n].field, "", Emptied(s, shares[..n]).truncated);
    if k < n {
      EmptiedField(s, shares[..n], k);
    }
  }

  lemma {:induction false} EmptiedWritable(s: Snapshot, shares: seq<Share>, f: Field)
    requires Writable(s, f)
    ensures Writable(Emptied(s, shares), f)
    decreases |shares|
  {
    if shares != [] {
      EmptiedWritable(s, shares[..|shares| - 1], f);
    }
  }

  lemma AllWritable(s: Snapshot)
    requires Proper(s)
    ensures forall i :: 0 <= i < |Shares(s.operation)| ==> Writable(Stripped(s), Shares(s.operation)[i].field)
  {
  }

  lemma StrippedTexts(s: Snapshot, k: nat)
    requires k < |Shares(s.operation)|
    ensures Get(Stripped(s), Shares(s.operation)[k].field) == Get(s, Shares(s.operation)[k].field)
  {
  }

  /** A cut to one token too few keeps the whole text and adds the marker, if that counts less. */
  lemma CutGrows(count: Counter, b: Snapshot, shares: seq<Share>, allocations: seq<int>, k: nat)
    requires |allocations| == |shares| && Distinct(shares) && k < |shares|
             && forall i :: 0 <= i < |shares| ==> Writable(b, shares[i].field)
    requires var v := Get(b, shares[k].field);
             MonotoneOn(count, MARKER, v) && !MarkerCosts(count, MARKER, v) && allocations[k] == count(v) - 1
    ensures var v, text := Get(b, shares[k].field),
              Get(ApplyCuts(count, MARKER, b, shares, allocations), shares[k].field);
            text != v && !AcceptsText(MARKER, v, text)
  {
    var v := Get(b, shares[k].field);
    CutWrites(count, MARKER, b, shares, allocations, k);
    ShortensIff(count, MARKER, v, allocations[k]);
    AcceptsShortened(MARKER, v, Truncated(count, MARKER, v, allocations[k]));
  }

  /** A request that is long for the whole texts and short for any others. */
  function LongFor(b: Snapshot, long: string): Snapshot -> string {
    (s: Snapshot) => if s == b then long else ""
  }

  function Bare(count: Counter, b: Snapshot, long: string): Settings {
    Configured(count, LongFor(b, long), (operation: Operation) => "", "", 1, DEFAULT_CYCLES)
  }

  lemma BareSize(count: Counter, b: Snapshot, long: string, s: Snapshot)
    requires count("") == 0
    ensures Bare(count, b, long).size(s) == OVERHEAD + if s == b then count(long) else 0
  {
    assert "" + "" == "";
  }

  /** The rounds end at once, with the fair division. */
  lemma FirstRound(settings: Settings, b: Snapshot, limit: nat, available: nat)
    requires settings.rounds > 0 && available > 0
    requires settings.size(Emptied(b, Shares(b.operation))) + available == limit
    requires var shares := Shares(b.operation);
             settings.size(ApplyCuts(settings.count, settings.marker, b, shares,
                                     Allocation(available, shares, Originals(settings.count, b, shares)))) <= limit
    ensures var shares := Shares(b.operation);
            TruncatedInput(settings, b, limit) ==
              Ok(ApplyCuts(settings.count, settings.marker, b, shares,
                           Allocation(available, shares, Originals(settings.count, b, shares))))
  {
    assert TruncatedInput(settings, b, limit) == TruncatedTo(settings, b, Shares(b.operation), limit);
  }

  /** So many available tokens that the text gets one too few. */
  lemma OneTooFew(count: Counter, b: Snapshot, shares: seq<Share>, k: nat) returns (available: nat)
    requires Promises(shares) && k < |shares| && count(Get(b, shares[k].field)) >= 2
    ensures available > 0
    ensures Allocation(available, shares, Originals(count, b, shares))[k] == count(Get(b, shares[k].field)) - 1
  {
    var originals := Originals(count, b, shares);
    Plenty(shares, originals, k);
    available := OneShort(1000 * originals[k], shares, originals, k);
    NothingAllocated(shares, originals, k);
  }

  function FairCut(count: Counter, b: Snapshot, available: nat): Snapshot {
    var shares := Shares(b.operation);
    ApplyCuts(count, MARKER, b, shares, Allocation(available, shares, Originals(count, b, shares)))
  }

  /** The selector cuts, and stops at the first cut. */
  lemma CutAtOnce(count: Counter, s: Snapshot, available: nat, long: string)
    requires count("") == 0 && available > 0 && count(long) > available && SameGoal(s)
    requires var b := Stripped(s); FairCut(count, b, available) != b && Emptied(b, Shares(b.operation)) != b
    ensures var settings := Bare(count, Stripped(s), long);
            && Current(settings, s, OVERHEAD + available) == Ok(FairCut(count, Stripped(s), available))
            && Selected(settings, s, OVERHEAD + available).Ok?
  {
    var b := Stripped(s);
    BareSize(count, b, long, b);
    BareSize(count, b, long, FairCut(count, b, available));
    BareSize(count, b, long, Emptied(b, Shares(b.operation)));
    FirstRound(Bare(count, b, long), b, OVERHEAD + available, available);
  }

  lemma PastApart(s: Snapshot, past: seq<ContextCycle>, f: Field)
    ensures Get(s.(past := past), f) == Get(s, f)
  {
  }

  /** What is selected then shows the check the grown text. */
  lemma GrownRefused(settings: Settings, s: Snapshot, limit: int, k: nat)
    requires Proper(s) && Selected(settings, s, limit).Ok? && k < |Shares(s.operation)|
    requires Current(settings, s, limit).Ok? ==>
               var f := Shares(s.operation)[k].field;
               !AcceptsText(settings.marker, Get(s, f), Get(Current(settings, s, limit).value, f))
    ensures !Agrees(settings, s, limit)
  {
    var kept := SelectedFits(settings, s, limit);
    var current := Current(settings, s, limit).value;
    PastApart(current, Candidates(settings, s)[..kept], Shares(s.operation)[k].field);
    if Accepts(settings.marker, s, Selected(settings, s, limit).value) {
      AcceptsEveryField(settings.marker, s, Selected(settings, s, limit).value, k);
    }
  }

  lemma CutDiffers(count: Counter, s: Snapshot, k: nat, available: nat)
    requires Proper(s) && Steady(count, MARKER, s) && k < |Shares(s.operation)| && count("") == 0
    requires var v := Get(s, Shares(s.operation)[k].field);
             && v != "" && !MarkerCosts(count, MARKER, v)
             && Allocation(available, Shares(s.operation), Originals(count, Stripped(s), Shares(s.operation)))[k] ==
                  count(v) - 1
    ensures var f, b := Shares(s.operation)[k].field, Stripped(s);
            && !AcceptsText(MARKER, Get(s, f), Get(FairCut(count, b, available), f))
            && FairCut(count, b, available) != b && Emptied(b, Shares(b.operation)) != b
  {
    var b, shares := Stripped(s), Shares(s.operation);
    StrippedTexts(s, k);
    AllWritable(s);
    SharesDistinct(s.operation);
    CutGrows(count, b, shares, Allocation(available, shares, Originals(count, b, shares)), k);
    EmptiedField(b, shares, k);
  }

  /** One shared text that the marker makes cheaper is enough for a request on which the two disagree. */
  lemma DisagreesOn(count: Counter, s: Snapshot, k: nat) returns (long: string, limit: nat)
    requires Tokenizes(count) && Proper(s) && SameGoal(s) && Steady(count, MARKER, s) && k < |Shares(s.operation)|
    requires !MarkerCosts(count, MARKER, Get(s, Shares(s.operation)[k].field))
    ensures !Agrees(Bare(count, Stripped(s), long), s, limit)
  {
    var v := Get(s, Shares(s.operation)[k].field);
    assert v + MARKER != "";
    StrippedTexts(s, k);
    SharesPromise(s.operation);
    var available := OneTooFew(count, Stripped(s), Shares(s.operation), k);
    assert Exceeds(count, available);
    long :| count(long) > available;
    limit := OVERHEAD + available;
    CutDiffers(count, s, k, available);
    CutAtOnce(count, s, available, long);
    GrownRefused(Bare(count, Stripped(s), long), s, limit, k);
  }

  /**
   With a token counter that is monotone on the texts, the selector and its check agree on a candidate
   over all requests exactly if its Cycles belong to several Goals, so that nothing is selected, or the
   marker makes none of its texts cheaper.
   */
  lemma AgreesIff(count: Counter, s: Snapshot)
    requires Tokenizes(count) && Proper(s) && Steady(count, MARKER, s)
    ensures AlwaysAgrees(count, s) <==> (SameGoal(s) ==> AllMarkerCosts(count, MARKER, s))
  {
    if SameGoal(s) && !AllMarkerCosts(count, MARKER, s) {
      var k :| 0 <= k < |Shares(s.operation)| && !MarkerCosts(count, MARKER, Get(s, Shares(s.operation)[k].field));
      var long, limit := DisagreesOn(count, s, k);
      assert !Agrees(Configured(count, LongFor(Stripped(s), long), (operation: Operation) => "", "", 1, DEFAULT_CYCLES),
                     s, limit);
    } else {
      forall encode: Snapshot -> string, instructions: Operation -> string, retry: string, attempts: int,
        maxCycles: int, limit: int
        ensures Agrees(Configured(count, encode, instructions, retry, attempts, maxCycles), s, limit)
      {
        var settings := Configured(count, encode, instructions, retry, attempts, maxCycles);
        if Selected(settings, s, limit).Ok? {
          SelectorAgrees(settings, s, limit);
        }
      }
    }
  }

  // A refinement as it can come.

  /** A Draft's body and nothing else: a refinement without a Goal. */
  const REFINEMENT: Snapshot := Snapshot(0, GoalRefine, None, "", "ab", None, [], false)

  /** A counter that joins the marker to the text before it. */
  function Joining(text: string): nat {
    if text == "" then 0 else if text == "ab" then 2 else if text == "X" then 100 else 1
  }

  /** The request is long for the whole body only. */
  function Encoded(s: Snapshot): string { if s.source == "ab" then "X" else "Y" }

  const JOINING: Settings := Configured(Joining, Encoded, (operation: Operation) => "i", "", 1, 10)

  lemma JoiningSizes(s: Snapshot)
    ensures JOINING.size(s) == 33 + if s.source == "ab" then 100 else 1
  {
    assert "i" + "" == "i" && |"i"| == |"X"| == |"Y"| == 1 && |"ab"| == 2;
    assert "i"[0] == 'i' && "X"[0] == 'X' && "Y"[0] == 'Y';
  }

  /** The binary search keeps the whole body. */
  lemma JoiningKeepsAll()
    ensures Truncated(Joining, MARKER, "ab", 1) == "ab" + MARKER && Truncated(Joining, MARKER, "", 0) == ""
  {
    assert |MARKER| > 2;
    assert |Cut("ab", 1, MARKER)| > 2 && |Cut("ab", 2, MARKER)| > 2;
    assert Search(Joining, MARKER, "ab", 1, 2, 2) == 2;
    assert Search(Joining, MARKER, "ab", 1, 1, 2) == 2;
    assert Search(Joining, MARKER, "ab", 1, 0, 2) == 2;
    assert Cut("ab", 2, MARKER) == "ab" + MARKER;
  }

  lemma JoiningAllocates()
    ensures var shares := Shares(GoalRefine); Allocation(1, shares, Originals(Joining, REFINEMENT, shares)) == [1, 0]
  {
    var shares := Shares(GoalRefine);
    var gs, originals := Guarantees(1, shares), Originals(Joining, REFINEMENT, shares);
    assert shares[0].permille == 700 && shares[1].permille == 300;
    assert |"ab"| == 2 && Joining("ab") == 2 && Joining("") == 0;
    assert originals[0] == Joining(Get(REFINEMENT, SourceText)) && originals[1] == Joining(Get(REFINEMENT, GoalText));
    assert gs == [0, 0] && originals == [2, 0];
    var uses := Used(originals, gs);
    assert uses == [0, 0] && uses[..1] == [0] && uses[..1][..0] == [];
    assert SumOf(uses[..1]) == 0;
    assert Left(1, gs, originals, 0) == 1 && Extra(1, gs, originals, 0) == 1;
    assert Left(1, gs, originals, 1) == 0 && Extra(1, gs, originals, 1) == 0;
  }

  lemma JoiningCuts()
    ensures ApplyCuts(Joining, MARKER, REFINEMENT, Shares(GoalRefine), [1, 0]) ==
              REFINEMENT.(source := "ab" + MARKER, truncated := true)
  {
    JoiningKeepsAll();
    var shares := Shares(GoalRefine);
    assert shares[..1][..0] == [] && [1, 0][..1][..0] == [];
    assert shares[..1][0].field == SourceText && shares[1].field == GoalText;
    assert |"ab" + MARKER| != |"ab"|;
    var none := ApplyCuts(Joining, MARKER, REFINEMENT, shares[..1][..0], [1, 0][..1][..0]);
    assert none == REFINEMENT;
    var t := ApplyCuts(Joining, MARKER, REFINEMENT, shares[..1], [1, 0][..1]);
    assert t == REFINEMENT.(source := "ab" + MARKER, truncated := true);
  }

  /** With such a counter the selector adds the marker to the whole body, and the check refuses what it returns. */
  lemma SelectorCanDisagree()
    ensures Selected(JOINING, REFINEMENT, 35) == Ok(REFINEMENT.(source := "ab" + MARKER, truncated := true))
    ensures !Accepts(MARKER, REFINEMENT, REFINEMENT.(source := "ab" + MARKER, truncated := true))
  {
    var shares := Shares(GoalRefine);
    var t := REFINEMENT.(source := "ab" + MARKER, truncated := true);
    assert |t.source| > 2;
    EmptiedField(REFINEMENT, shares, 0);
    JoiningSizes(REFINEMENT);
    JoiningSizes(t);
    JoiningSizes(Emptied(REFINEMENT, shares));
    JoiningAllocates();
    JoiningCuts();
    FirstRound(JOINING, REFINEMENT, 35, 1);
    JoiningKeepsAll();
    AcceptsShortened(MARKER, "ab", "ab" + MARKER);
    forall j: nat | j < 2 ensures |Cut("ab", j, MARKER)| != |"ab" + MARKER| {
    }
  }
}
