/** Choosing what the provider is shown: the current texts within a token budget, then as many past Cycles as fit. */
module Selection {
  import opened Base
  import opened Rows
  import opened Truncation

  datatype ContextCycle = ContextCycle(
    id: Id, goal: Id, sequence: int, status: CycleStatus, goalBody: string,
    plan: string, doing: string, check: string, action: string)

  /**
   `identity` stands for the generation id and the revisions, which the selector copies and the validator compares.
   */
  datatype Snapshot = Snapshot(
    identity: Id, operation: Operation, goal: Option<Id>, goalBody: string, source: string,
    current: Option<ContextCycle>, past: seq<ContextCycle>, truncated: bool)

  /**
   The token counter, the truncation marker, the size of the request a snapshot leads to, how many past Cycles to
   consider and how often to shrink.
   */
  datatype Settings = Settings(count: Counter, marker: string, size: Snapshot -> nat, maxCycles: int, rounds: nat)

  datatype SelectionError = Isolation | InputBudget

  const OVERHEAD: nat := 32
  const DEFAULT_CYCLES: nat := 10
  const ROUNDS: nat := 16

  /** The tokens of the whole request, the retry instruction included when a retry is possible. */
  function RequestSize(count: Counter, encode: Snapshot -> string, instructions: Operation -> string, retry: string,
                       attempts: int, s: Snapshot): nat
  {
    count(instructions(s.operation) + if attempts > 1 then retry else "") + count(encode(s)) + OVERHEAD
  }

  function Configured(count: Counter, encode: Snapshot -> string, instructions: Operation -> string, retry: string,
                      attempts: int, maxCycles: int): Settings
  {
    Settings(count, MARKER, (s: Snapshot) =>
             RequestSize(count, encode, instructions, retry, attempts, s), maxCycles, ROUNDS)
  }

  predicate SameGoal(s: Snapshot) {
    && (s.current.Some? ==> s.goal == Some(s.current.value.goal))
    && (forall c :: c in s.past ==> s.goal == Some(c.goal))
  }

  // The texts a limit is divided between.

  datatype Field = GoalText | SourceText | PlanText | DoText | CheckText | ActionText

  /** A field and the share of the available tokens it is guaranteed, in thousandths. */
  datatype Share = Share(field: Field, permille: nat)

  function Shares(operation: Operation): seq<Share> {
    match operation
    case GoalRefine => [Share(SourceText, 700), Share(GoalText, 300)]
    case ActionGenerate => [Share(GoalText, 100), Share(PlanText, 100), Share(DoText, 100), Share(CheckText, 100)]
    case ActionRefine =>
      [Share(ActionText, 400), Share(GoalText, 200), Share(PlanText, 133), Share(DoText, 133), Share(CheckText, 133)]
  }

  function Get(s: Snapshot, f: Field): string {
    match f
    case GoalText => s.goalBody
    case SourceText => s.source
    case PlanText => if s.current.Some? then s.current.value.plan else ""
    case DoText => if s.current.Some? then s.current.value.doing else ""
    case CheckText => if s.current.Some? then s.current.value.check else ""
    case ActionText => if s.current.Some? then s.current.value.action else ""
  }

  function Put(s: Snapshot, f: Field, text: string): Snapshot {
    s.(goalBody := if f == GoalText then text else s.goalBody,
       source := if f == SourceText then text else s.source,
       current := if s.current.None? then None else Some(PutCycle(s.current.value, f, text)))
  }

  function PutCycle(c: ContextCycle, f: Field, text: string): ContextCycle {
    c.(plan := if f == PlanText then text else c.plan, doing := if f == DoText then text else c.doing,
       check := if f == CheckText then text else c.check, action := if f == ActionText then text else c.action)
  }

  // Dividing the tokens.

  function SumOf(xs: seq<int>): int { if xs == [] then 0 else SumOf(xs[..|xs| - 1]) + xs[|xs| - 1] }

  function Permilles(shares: seq<Share>): nat {
    if shares == [] then 0 else Permilles(shares[..|shares| - 1]) + shares[|shares| - 1].permille
  }

  function Guaranteed(available: nat, share: Share): nat { available * share.permille / 1000 }

  /** What the fields can use of their allocations. */
  function Used(originals: seq<nat>, allocations: seq<int>): (used: seq<int>)
    requires |originals| == |allocations|
    ensures |used| == |originals|
  {
    seq(|originals|, i requires 0 <= i < |originals| => Min(originals[i], allocations[i]))
  }

  lemma {:induction false} SumAppend(xs: seq<int>, k: nat)
    requires k < |xs|
    ensures SumOf(xs[..k + 1]) == SumOf(xs[..k]) + xs[k]
  {
    assert xs[..k + 1][..k] == xs[..k];
  }

  lemma {:induction false} SumChange(xs: seq<int>, ys: seq<int>, k: nat)
    requires |xs| == |ys| && k < |xs| && forall i :: 0 <= i < |xs| && i != k ==> xs[i] == ys[i]
    ensures SumOf(ys) == SumOf(xs) - xs[k] + ys[k]
    decreases |xs|
  {
    var n := |xs| - 1;
    if k == n {
      assert xs[..n] == ys[..n];
    } else {
      SumChange(xs[..n], ys[..n], k);
    }
  }

  /** The guaranteed shares together never exceed what is available. */
  lemma {:induction false} GuaranteesFit(available: nat, shares: seq<Share>, originals: seq<nat>, allocations: seq<int>)
    requires |originals| == |shares| == |allocations|
    requires forall i :: 0 <= i < |shares| ==> allocations[i] == Guaranteed(available, shares[i])
    ensures 1000 * SumOf(Used(originals, allocations)) <= available * Permilles(shares)
    decreases |shares|
  {
    if shares != [] {
      var n := |shares| - 1;
      GuaranteesFit(available, shares[..n], originals[..n], allocations[..n]);
      assert Used(originals, allocations)[..n] == Used(originals[..n], allocations[..n]);
      assert available * Permilles(shares) == available * Permilles(shares[..n]) + available * shares[n].permille;
    }
  }

  lemma PermillesTake(shares: seq<Share>, k: nat)
    requires k < |shares|
    ensures Permilles(shares[..k + 1]) == Permilles(shares[..k]) + shares[k].permille
  {
    assert shares[..k + 1][..k] == shares[..k];
  }

  /** No operation promises more than there is. */
  lemma SharesFit(operation: Operation)
    ensures Permilles(Shares(operation)) <= 1000
  {
    var s := Shares(operation);
    PermillesTake(s, 0);
    PermillesTake(s, 1);
    if |s| > 2 {
      PermillesTake(s, 2);
      PermillesTake(s, 3);
    }
    if |s| > 4 {
      PermillesTake(s, 4);
    }
    assert s[..|s|] == s;
  }

  /** The exact division: guarantees first, then what is left to the fields in their order. */
  function Guarantees(available: nat, shares: seq<Share>): (gs: seq<int>)
    ensures |gs| == |shares|
  {
    seq(|shares|, i requires 0 <= i < |shares| => Guaranteed(available, shares[i]))
  }

  function Left(available: int, gs: seq<int>, originals: seq<nat>, i: nat): int
    requires |originals| == |gs| && i <= |gs|
    decreases i, 0
  {
    if i == 0 then available - SumOf(Used(originals, gs))
    else Left(available, gs, originals, i - 1) - Extra(available, gs, originals, i - 1)
  }

  function Extra(available: int, gs: seq<int>, originals: seq<nat>, i: nat): int
    requires |originals| == |gs| && i < |gs|
    decreases i, 1
  {
    Max(0, Min(originals[i] - gs[i], Left(available, gs, originals, i)))
  }

  /** The first `i` fields have had their extra. */
  function Allocated(available: int, gs: seq<int>, originals: seq<nat>, i: nat): (allocation: seq<int>)
    requires |originals| == |gs| && i <= |gs|
    ensures |allocation| == |gs|
  {
    seq(|gs|, j requires 0 <= j < |gs| => gs[j] + if j < i then Extra(available, gs, originals, j) else 0)
  }

  function Allocation(available: nat, shares: seq<Share>, originals: seq<nat>): (allocation: seq<int>)
    requires |originals| == |shares|
    ensures |allocation| == |shares|
  {
    Allocated(available, Guarantees(available, shares), originals, |shares|)
  }

  method Guarantee(available: nat, shares: seq<Share>, originals: seq<nat>) returns (allocations: array<int>, used: int)
    requires |originals| == |shares|
    ensures fresh(allocations) && allocations[..] == Guarantees(available, shares)
    ensures used == SumOf(Used(originals, Guarantees(available, shares)))
  {
    allocations := new int[|shares|];
    used := 0;
    ghost var uses := Used(originals, Guarantees(available, shares));
    for i := 0 to |shares|
      invariant forall j :: 0 <= j < i ==> allocations[j] == Guaranteed(available, shares[j])
      invariant used == SumOf(uses[..i])
    {
      allocations[i] := available * shares[i].permille / 1000;
      used := used + Min(originals[i], allocations[i]);
      SumAppend(uses, i);
    }
    assert uses[..|uses|] == uses;
  }

  method Redistribute(available: int, used: int, originals: seq<nat>, allocations: array<int>)
    requires |originals| == allocations.Length && used == SumOf(Used(originals, allocations[..]))
    modifies allocations
    ensures allocations[..] == Allocated(available, old(allocations[..]), originals, |originals|)
  {
    ghost var gs := allocations[..];
    var remaining := available - used;
    for i := 0 to allocations.Length
      invariant remaining == Left(available, gs, originals, i)
      invariant allocations[..] == Allocated(available, gs, originals, i)
    {
      var needed := originals[i] - allocations[i];
      if needed > 0 && remaining > 0 {
        var extra := Min(needed, remaining);
        allocations[i] := allocations[i] + extra;
        remaining := remaining - extra;
      }
    }
  }

  lemma AllocatedStep(available: int, gs: seq<int>, originals: seq<nat>, i: nat)
    requires |originals| == |gs| && i < |gs| && Left(available, gs, originals, i) >= 0
    ensures var extra := Extra(available, gs, originals, i);
            var before, after := Allocated(available, gs, originals, i), Allocated(available, gs, originals, i + 1);
            && 0 <= extra <= Left(available, gs, originals, i)
            && after == before[i := before[i] + extra]
            && SumOf(Used(originals, after)) == SumOf(Used(originals, before)) + extra
            && (extra == Left(available, gs, originals, i) || originals[i] <= after[i])
  {
    var before, after := Allocated(available, gs, originals, i), Allocated(available, gs, originals, i + 1);
    SumChange(Used(originals, before), Used(originals, after), i);
  }

  /**
   After `i` fields, what is used and what is left make up the whole, and nothing is left while one of them wants more.
   */
  ghost predicate Spread(available: int, gs: seq<int>, originals: seq<nat>, i: nat)
    requires |originals| == |gs| && i <= |gs|
  {
    var allocation, left := Allocated(available, gs, originals, i), Left(available, gs, originals, i);
    && left >= 0 && SumOf(Used(originals, allocation)) == available - left
    && (left == 0 || forall j :: 0 <= j < i ==> originals[j] <= allocation[j])
  }

  lemma SpreadStep(available: int, gs: seq<int>, originals: seq<nat>, i: nat)
    requires |originals| == |gs| && i < |gs| && Spread(available, gs, originals, i)
    ensures Spread(available, gs, originals, i + 1)
  {
    AllocatedStep(available, gs, originals, i);
  }

  lemma {:induction false} AllocatedUses(available: int, gs: seq<int>, originals: seq<nat>, i: nat)
    requires |originals| == |gs| && i <= |gs| && SumOf(Used(originals, gs)) <= available
    ensures Spread(available, gs, originals, i)
    decreases i
  {
    if i == 0 {
      assert Allocated(available, gs, originals, 0) == gs;
    } else {
      AllocatedUses(available, gs, originals, i - 1);
      SpreadStep(available, gs, originals, i - 1);
    }
  }

  /** Fair and work-conserving: nobody is below the guaranteed share, and nothing is left while somebody wants more. */
  ghost predicate Fair(available: nat, shares: seq<Share>, originals: seq<nat>, allocations: seq<int>) {
    && |originals| == |shares| == |allocations|
    && (forall i :: 0 <= i < |shares| ==> allocations[i] >= Guaranteed(available, shares[i]))
    && SumOf(Used(originals, allocations)) <= available
    && (SumOf(Used(originals, allocations)) == available ||
        forall i :: 0 <= i < |shares| ==> originals[i] <= allocations[i])
  }

  lemma AllocationFair(available: nat, shares: seq<Share>, originals: seq<nat>)
    requires |originals| == |shares| && Permilles(shares) <= 1000
    ensures Fair(available, shares, originals, Allocation(available, shares, originals))
  {
    var gs := Guarantees(available, shares);
    GuaranteesFit(available, shares, originals, gs);
    UsedWithin(available, Permilles(shares), SumOf(Used(originals, gs)));
    AllocatedUses(available, gs, originals, |shares|);
  }

  /** The division each operation makes is fair: its shares promise no more than there is. */
  lemma DivisionFair(available: nat, operation: Operation, originals: seq<nat>)
    requires |originals| == |Shares(operation)|
    ensures Fair(available, Shares(operation), originals, Allocation(available, Shares(operation), originals))
  {
    SharesFit(operation);
    AllocationFair(available, Shares(operation), originals);
  }

  lemma UsedWithin(available: nat, permille: nat, used: int)
    requires 1000 * used <= available * permille && permille <= 1000
    ensures used <= available
  {
    assert available * (1000 - permille) >= 0;
  }

  // Cutting the texts.

  /** Every field cut to its allocation; the snapshot says whether any was changed. */
  function ApplyCuts(count: Counter, marker: string, s: Snapshot, shares: seq<Share>, allocations: seq<int>): Snapshot
    requires |allocations| == |shares|
    decreases |shares|
  {
    if shares == [] then s.(past := [], truncated := false)
    else
      var n := |shares| - 1;
      var t := ApplyCuts(count, marker, s, shares[..n], allocations[..n]);
      var field := shares[n].field;
      var text := Truncated(count, marker, Get(s, field), allocations[n]);
      Put(t, field, text).(truncated := t.truncated || text != Get(s, field))
  }

  method Apply(count: Counter, marker: string, s: Snapshot, shares: seq<Share>, allocations: array<int>)
    returns (t: Snapshot)
    requires allocations.Length == |shares| && Natural(allocations[..])
    ensures t == ApplyCuts(count, marker, s, shares, allocations[..])
  {
    t := s.(past := [], truncated := false);
    for i := 0 to |shares|
      invariant t == ApplyCuts(count, marker, s, shares[..i], allocations[..i])
    {
      var original := Get(s, shares[i].field);
      assert allocations[..][i] == allocations[i];
      var cut := Truncate(count, marker, original, allocations[i]);
      t := Put(t, shares[i].field, cut.value).(truncated := t.truncated || cut.value != original);
      assert shares[..i + 1][..i] == shares[..i] && allocations[..i + 1][..i] == allocations[..i];
    }
    assert shares[..|shares|] == shares && allocations[..|shares|] == allocations[..];
  }

  /** The first of the largest allocations, if any tokens are allocated at all. */
  function Largest(allocations: seq<int>): (largest: Option<nat>)
    ensures largest.Some? ==> largest.value < |allocations|
  {
    if allocations == [] then None
    else
      var n := |allocations| - 1;
      var before := Largest(allocations[..n]);
      if allocations[n] > 0 && (before.None? || allocations[n] > allocations[before.value]) then Some(n) else before
  }

  lemma {:induction false} LargestIsFirst(allocations: seq<int>)
    ensures var largest := Largest(allocations);
            && (largest.Some? <==> exists i :: 0 <= i < |allocations| && allocations[i] > 0)
            && (largest.Some? ==> allocations[largest.value] > 0 && forall i :: 0 <= i < |allocations| ==>
                  && allocations[i] <= allocations[largest.value]
                  && (i < largest.value ==> allocations[i] < allocations[largest.value]))
    decreases |allocations|
  {
    if allocations != [] {
      var n := |allocations| - 1;
      LargestIsFirst(allocations[..n]);
      assert forall i :: 0 <= i < n ==> allocations[..n][i] == allocations[i];
      assert allocations[n] > 0 ==> exists i :: 0 <= i < |allocations| && allocations[i] > 0;
    }
  }

  function Lowered(allocations: seq<int>, excess: nat): seq<int>
    requires Largest(allocations).Some?
  {
    var i := Largest(allocations).value;
    allocations[i := Max(0, allocations[i] - Max(1, excess))]
  }

  /** At most `rounds` attempts, each with the largest allocation lowered by what was too much. */
  function Shrinking(settings: Settings, s: Snapshot, shares: seq<Share>, limit: nat, allocations: seq<int>,
                     rounds: nat)
    : Result<Snapshot, SelectionError>
    requires |allocations| == |shares|
    decreases rounds
  {
    if rounds == 0 then Err(InputBudget)
    else
      var t := ApplyCuts(settings.count, settings.marker, s, shares, allocations);
      if settings.size(t) <= limit then Ok(t)
      else if Largest(allocations).None? then Err(InputBudget)
      else Shrinking(settings, s, shares, limit, Lowered(allocations, settings.size(t) - limit), rounds - 1)
  }

  function Emptied(s: Snapshot, shares: seq<Share>): Snapshot
    decreases |shares|
  {
    if shares == [] then s.(past := []) else Put(Emptied(s, shares[..|shares| - 1]), shares[|shares| - 1].field, "")
  }

  function Originals(count: Counter, s: Snapshot, shares: seq<Share>): (originals: seq<nat>)
    ensures |originals| == |shares|
  {
    seq<nat>(|shares|, i requires 0 <= i < |shares| => count(Get(s, shares[i].field)))
  }

  lemma AllocationNatural(available: nat, shares: seq<Share>, originals: seq<nat>)
    requires |originals| == |shares|
    ensures Natural(Allocation(available, shares, originals))
  {
    forall i | 0 <= i < |shares| ensures Allocation(available, shares, originals)[i] >= 0 {
      assert available * shares[i].permille >= 0;
    }
  }

  /** The current texts cut down to the limit, or a refusal. */
  function TruncatedInput(settings: Settings, s: Snapshot, limit: nat): Result<Snapshot, SelectionError> {
    TruncatedTo(settings, s, Shares(s.operation), limit)
  }

  function TruncatedTo(settings: Settings, s: Snapshot, shares: seq<Share>, limit: nat)
    : Result<Snapshot, SelectionError>
  {
    if limit <= settings.size(Emptied(s, shares)) then Err(InputBudget)
    else Shrinking(settings, s, shares, limit, Division(settings, s, shares, limit), settings.rounds)
  }

  /** The division that the rounds start from: of what the fixed parts leave. */
  function Division(settings: Settings, s: Snapshot, shares: seq<Share>, limit: nat): (start: seq<int>)
    requires limit > settings.size(Emptied(s, shares))
    ensures |start| == |shares|
  {
    Allocation(limit - settings.size(Emptied(s, shares)), shares, Originals(settings.count, s, shares))
  }

  lemma EmptiedStep(s: Snapshot, shares: seq<Share>, i: nat)
    requires i < |shares|
    ensures Emptied(s, shares[..i + 1]) == Put(Emptied(s, shares[..i]), shares[i].field, "")
  {
    assert shares[..i + 1][..i] == shares[..i];
  }

  method TruncateCurrentInput(settings: Settings, s: Snapshot, limit: nat)
    returns (result: Result<Snapshot, SelectionError>)
    ensures result == TruncatedInput(settings, s, limit)
  {
    var shares := Shares(s.operation);
    var empty := s.(past := []);
    for i := 0 to |shares|
      invariant empty == Emptied(s, shares[..i])
    {
      EmptiedStep(s, shares, i);
      empty := Put(empty, shares[i].field, "");
    }
    assert shares[..|shares|] == shares;
    var available := limit - settings.size(empty);
    if available <= 0 {
      return Err(InputBudget);
    }
    var originals := Originals(settings.count, s, shares);
    var allocations, used := Guarantee(available, shares, originals);
    Redistribute(available, used, originals, allocations);
    AllocationNatural(available, shares, originals);
    assert allocations[..] == Division(settings, s, shares, limit);
    result := Shrink(settings, s, shares, limit, allocations, settings.rounds);
  }

  predicate Natural(xs: seq<int>) { forall i :: 0 <= i < |xs| ==> xs[i] >= 0 }

  /** What is left to do is what was to be done. */
  ghost predicate Continues(settings: Settings, s: Snapshot, shares: seq<Share>, limit: nat, allocations: seq<int>,
                            rounds: int,
                            promised: Result<Snapshot, SelectionError>)
  {
    |allocations| == |shares| && rounds >= 0 && promised == Shrinking(settings, s, shares, limit, allocations, rounds)
  }

  function Trimmed(settings: Settings, s: Snapshot, shares: seq<Share>, allocations: seq<int>): Snapshot
    requires |allocations| == |shares|
  {
    ApplyCuts(settings.count, settings.marker, s, shares, allocations)
  }

  /** One round, as the loop takes it. */
  lemma ShrinkingStep(settings: Settings, s: Snapshot, shares: seq<Share>, limit: nat, allocations: seq<int>,
                      rounds: int, tokens: nat,
                      promised: Result<Snapshot, SelectionError>)
    requires Continues(settings, s, shares, limit, allocations, rounds, promised) && rounds > 0
    requires tokens == settings.size(Trimmed(settings, s, shares, allocations))
    ensures tokens <= limit ==> promised == Ok(Trimmed(settings, s, shares, allocations))
    ensures tokens > limit && Largest(allocations).None? ==> promised == Err(InputBudget)
    ensures tokens > limit && Largest(allocations).Some? ==>
              Continues(settings, s, shares, limit, Lowered(allocations, tokens - limit), rounds - 1, promised)
  {
  }

  /** One round: it is over, or the largest allocation is lowered and the texts are cut again. */
  method ShrinkOnce(settings: Settings, s: Snapshot, shares: seq<Share>, limit: nat, allocations: array<int>,
                    ghost rounds: int,
                    ghost promised: Result<Snapshot, SelectionError>, truncated: Snapshot)
    returns (over: Option<Result<Snapshot, SelectionError>>, next: Snapshot)
    requires allocations.Length == |shares| && Natural(allocations[..]) && rounds > 0
    requires Continues(settings, s, shares, limit, allocations[..], rounds, promised)
    requires truncated == Trimmed(settings, s, shares, allocations[..])
    modifies allocations
    ensures over.Some? ==> over.value == promised
    ensures over.None? ==>
              && Natural(allocations[..])
              && Continues(settings, s, shares, limit, allocations[..], rounds - 1, promised)
              && next == Trimmed(settings, s, shares, allocations[..])
  {
    ghost var before := allocations[..];
    var tokens := settings.size(truncated);
    ShrinkingStep(settings, s, shares, limit, before, rounds, tokens, promised);
    if tokens <= limit {
      return Some(Ok(truncated)), truncated;
    }
    var shrunk := LowerLargest(allocations, tokens - limit);
    if !shrunk {
      return Some(Err(InputBudget)), truncated;
    }
    assert allocations[..] == Lowered(before, tokens - limit);
    next := Apply(settings.count, settings.marker, s, shares, allocations);
    return None, next;
  }

  method Shrink(settings: Settings, s: Snapshot, shares: seq<Share>, limit: nat, allocations: array<int>, rounds: nat)
    returns (result: Result<Snapshot, SelectionError>)
    requires allocations.Length == |shares| && Natural(allocations[..])
    modifies allocations
    ensures result == Shrinking(settings, s, shares, limit, old(allocations[..]), rounds)
  {
    ghost var promised := Shrinking(settings, s, shares, limit, allocations[..], rounds);
    var truncated := Apply(settings.count, settings.marker, s, shares, allocations);
    ghost var left: int := rounds;
    for attempt := 0 to rounds
      invariant left == rounds - attempt && Natural(allocations[..])
      invariant truncated == Trimmed(settings, s, shares, allocations[..])
      invariant Continues(settings, s, shares, limit, allocations[..], left, promised)
    {
      var over, next := ShrinkOnce(settings, s, shares, limit, allocations, left, promised, truncated);
      if over.Some? {
        return over.value;
      }
      truncated, left := next, left - 1;
    }
    return Err(InputBudget);
  }

  method LowerLargest(allocations: array<int>, excess: nat) returns (shrunk: bool)
    requires Natural(allocations[..])
    modifies allocations
    ensures Natural(allocations[..])
    ensures shrunk == Largest(old(allocations[..])).Some?
    ensures allocations[..] == if shrunk then Lowered(old(allocations[..]), excess) else old(allocations[..])
  {
    var largest := -1;
    for i := 0 to allocations.Length
      invariant -1 <= largest < i
      invariant Largest(allocations[..i]) == if largest < 0 then None else Some(largest)
    {
      if allocations[i] > 0 && (largest < 0 || allocations[i] > allocations[largest]) {
        largest := i;
      }
      assert allocations[..i + 1][..i] == allocations[..i];
    }
    assert allocations[..allocations.Length] == allocations[..];
    if largest < 0 {
      return false;
    }
    allocations[largest] := Max(0, allocations[largest] - Max(1, excess));
    return true;
  }

  /** The largest allocation is the first of the largest, and a round lowers it. */
  lemma RoundLowersLargest(allocations: seq<int>, excess: nat)
    requires Natural(allocations) && Largest(allocations).Some?
    ensures var i := Largest(allocations).value;
            && (forall j :: 0 <= j < |allocations| ==>
                allocations[j] <= allocations[i] && (j < i ==> allocations[j] < allocations[i]))
            && 0 <= Lowered(allocations, excess)[i] < allocations[i]
            && (forall j :: 0 <= j < |allocations| && j != i ==> Lowered(allocations, excess)[j] == allocations[j])
  {
    LargestIsFirst(allocations);
  }

  // Selecting.

  function Stripped(s: Snapshot): Snapshot {
    var b := s.(past := []);
    if s.operation == ActionGenerate && s.current.Some? then b.(current := Some(s.current.value.(action := ""))) else b
  }

  function Candidates(settings: Settings, s: Snapshot): seq<ContextCycle> {
    var maximum := if settings.maxCycles <= 0 then DEFAULT_CYCLES else settings.maxCycles;
    if |s.past| > maximum then s.past[..maximum] else s.past
  }

  /** The past Cycles that are considered: as they come, up to the configured number, or ten. */
  lemma CandidatesAre(settings: Settings, s: Snapshot)
    ensures var maximum := if settings.maxCycles >= 1 then settings.maxCycles else 10;
            |s.past| <= maximum ==> Candidates(settings, s) == s.past
    ensures var maximum := if settings.maxCycles >= 1 then settings.maxCycles else 10;
            |s.past| > maximum ==> Candidates(settings, s) == s.past[..maximum]
  {
  }

  /** As configured, a request may be shrunk sixteen times. */
  lemma ConfiguredIs(count: Counter, encode: Snapshot -> string, instructions: Operation -> string, retry: string,
                     attempts: int, maxCycles: int)
    ensures var settings := Configured(count, encode, instructions, retry, attempts, maxCycles);
            settings.count == count && settings.rounds == 16 && settings.maxCycles == maxCycles &&
            settings.marker == MARKER
  {
  }

  function Greedy(settings: Settings, s: Snapshot, limit: nat, candidates: seq<ContextCycle>): Snapshot
    decreases |candidates|
  {
    if candidates == [] then s
    else
      var more := s.(past := s.past + [candidates[0]]);
      if settings.size(more) > limit then s else Greedy(settings, more, limit, candidates[1..])
  }

  /** The current texts as they are if they fit, else cut. */
  function Current(settings: Settings, s: Snapshot, limit: nat): Result<Snapshot, SelectionError> {
    if settings.size(Stripped(s)) > limit then TruncatedInput(settings, Stripped(s), limit) else Ok(Stripped(s))
  }

  function Selected(settings: Settings, s: Snapshot, limit: int): Result<Snapshot, SelectionError> {
    if limit <= 0 then Err(InputBudget)
    else if !SameGoal(s) then Err(Isolation)
    else
      match Current(settings, s, limit)
      case Err(e) => Err(e)
      case Ok(current) => Ok(Greedy(settings, current, limit, Candidates(settings, s)))
  }

  method Select(settings: Settings, s: Snapshot, limit: int) returns (result: Result<Snapshot, SelectionError>)
    ensures result == Selected(settings, s, limit)
  {
    if limit <= 0 {
      return Err(InputBudget);
    }
    if !SameGoal(s) {
      return Err(Isolation);
    }
    var candidates := Candidates(settings, s);
    var selected := s.(past := []);
    if s.operation == ActionGenerate && s.current.Some? {
      selected := selected.(current := Some(s.current.value.(action := "")));
    }
    if settings.size(selected) > limit {
      var cut := TruncateCurrentInput(settings, selected, limit);
      if cut.Err? {
        return Err(cut.error);
      }
      selected := cut.value;
    }
    for i := 0 to |candidates|
      invariant Greedy(settings, selected, limit, candidates[i..]) ==
                Greedy(settings, Current(settings, s, limit).value, limit, candidates)
    {
      var more := selected.(past := selected.past + [candidates[i]]);
      if settings.size(more) > limit {
        break;
      }
      selected := more;
    }
    return Ok(selected);
  }

  /** What the rounds end with: the texts cut to some allocation, within the limit. */
  lemma {:induction false} ShrinkingFits(settings: Settings, s: Snapshot, shares: seq<Share>, limit: nat,
                                         allocations: seq<int>, rounds: nat)
    returns (last: seq<int>)
    requires |allocations| == |shares| && Shrinking(settings, s, shares, limit, allocations, rounds).Ok?
    ensures |last| == |shares|
    ensures var t := ApplyCuts(settings.count, settings.marker, s, shares, last);
            Shrinking(settings, s, shares, limit, allocations, rounds) == Ok(t) && settings.size(t) <= limit
    decreases rounds
  {
    var t := ApplyCuts(settings.count, settings.marker, s, shares, allocations);
    if settings.size(t) <= limit {
      last := allocations;
    } else {
      last := ShrinkingFits(settings, s, shares, limit, Lowered(allocations, settings.size(t) - limit), rounds - 1);
    }
  }

  lemma TruncatedInputFits(settings: Settings, s: Snapshot, limit: nat) returns (last: seq<int>)
    requires TruncatedInput(settings, s, limit).Ok?
    ensures |last| == |Shares(s.operation)|
    ensures var t := ApplyCuts(settings.count, settings.marker, s, Shares(s.operation), last);
            TruncatedInput(settings, s, limit) == Ok(t) && settings.size(t) <= limit
  {
    var shares := Shares(s.operation);
    last := ShrinkingFits(settings, s, shares, limit, Division(settings, s, shares, limit), settings.rounds);
  }

  lemma {:induction false} GreedyPrefix(settings: Settings, s: Snapshot, limit: nat, candidates: seq<ContextCycle>)
    returns (k: nat)
    requires settings.size(s) <= limit
    ensures k <= |candidates|
    ensures Greedy(settings, s, limit, candidates) == s.(past := s.past + candidates[..k])
    ensures forall j :: 0 <= j <= k ==> settings.size(s.(past := s.past + candidates[..j])) <= limit
    ensures k < |candidates| ==> settings.size(s.(past := s.past + candidates[..k + 1])) > limit
    decreases |candidates|
  {
    assert s.past + candidates[..0] == s.past;
    if candidates == [] {
      return 0;
    }
    var more := s.(past := s.past + [candidates[0]]);
    assert candidates[..1] == [candidates[0]];
    if settings.size(more) > limit {
      return 0;
    }
    var rest := GreedyPrefix(settings, more, limit, candidates[1..]);
    k := rest + 1;
    forall j | 0 <= j <= |candidates[1..]|
      ensures s.(past := s.past + candidates[..j + 1]) == more.(past := more.past + candidates[1..][..j])
    {
      assert s.past + candidates[..j + 1] == more.past + candidates[1..][..j];
    }
    forall j | 0 <= j <= k ensures settings.size(s.(past := s.past + candidates[..j])) <= limit {
      if j > 0 {
        assert s.(past := s.past + candidates[..j]) == more.(past := more.past + candidates[1..][..j - 1]);
      }
    }
  }

  /**
   On success the counted request fits, and the kept past Cycles are the longest prefix of the candidates that fits
   step by step.
   */
  lemma SelectedFits(settings: Settings, s: Snapshot, limit: int) returns (k: nat)
    requires Selected(settings, s, limit).Ok?
    ensures Current(settings, s, limit).Ok? && k <= |Candidates(settings, s)|
    ensures var current, candidates := Current(settings, s, limit).value, Candidates(settings, s);
            && current.past == []
            && Selected(settings, s, limit).value == current.(past := candidates[..k])
            && (forall j :: 0 <= j <= k ==> settings.size(current.(past := candidates[..j])) <= limit)
            && (k < |candidates| ==> settings.size(current.(past := candidates[..k + 1])) > limit)
  {
    var current, candidates := Current(settings, s, limit).value, Candidates(settings, s);
    CurrentFits(settings, s, limit);
    k := GreedyPrefix(settings, current, limit, candidates);
    forall j | 0 <= j <= |candidates| ensures current.past + candidates[..j] == candidates[..j] {
    }
  }

  lemma CurrentFits(settings: Settings, s: Snapshot, limit: nat)
    requires Current(settings, s, limit).Ok?
    ensures var t := Current(settings, s, limit).value;
            settings.size(t) <= limit && t.past == [] && t.operation == s.operation
  {
    if settings.size(Stripped(s)) > limit {
      var last := TruncatedInputFits(settings, Stripped(s), limit);
      CutsKeepOperation(settings.count, settings.marker, Stripped(s), Shares(s.operation), last);
    }
  }

  lemma {:induction false} CutsKeepOperation(count: Counter, marker: string, s: Snapshot, shares: seq<Share>,
                                             allocations: seq<int>)
    requires |allocations| == |shares|
    ensures var t := ApplyCuts(count, marker, s, shares, allocations); t.past == [] && t.operation == s.operation
    decreases |shares|
  {
    if shares != [] {
      CutsKeepOperation(count, marker, s, shares[..|shares| - 1], allocations[..|shares| - 1]);
    }
  }

  /**
   The selector as configured: what it returns fits as the whole request, instructions, retry and overhead included.
   */
  lemma ConfiguredFits(count: Counter, encode: Snapshot -> string, instructions: Operation -> string, retry: string,
                       attempts: int, maxCycles: int, s: Snapshot, limit: int)
    requires Selected(Configured(count, encode, instructions, retry, attempts, maxCycles), s, limit).Ok?
    ensures var t := Selected(Configured(count, encode, instructions, retry, attempts, maxCycles), s, limit).value;
            && t.operation == s.operation
            && count(instructions(s.operation) + if attempts > 1 then retry else "") + count(encode(t)) + 32 <= limit
  {
    var settings := Configured(count, encode, instructions, retry, attempts, maxCycles);
    CurrentFits(settings, s, limit);
    var k := SelectedFits(settings, s, limit);
    assert settings.size(Selected(settings, s, limit).value) <= limit;
  }
}
