/** Provider output: what passes validation, and that the domain can always store it. */
module AiOutput {
  import opened Base
  import opened Rows
  import opened Text
  import CycleDomain

  datatype OutputError = InvalidCount | InvalidCharacters | Empty | TooLongOutput

  /** Line endings become LF; any other control character but a tab is refused. */
  function NormalizeAi(value: string): Option<string> {
    var text := NormalizeLineEndings(value);
    if exists c :: c in text && Control(c) && c != '\n' && c != '\t' then None else Some(text)
  }

  function Validated(value: string, limit: nat): Result<string, OutputError> {
    match NormalizeAi(value)
    case None => Err(InvalidCharacters)
    case Some(text) => if Blank(text) then Err(Empty) else if |text| > limit then Err(TooLongOutput) else Ok(text)
  }

  function ValidateGoalSuggestion(suggestion: string): Result<string, OutputError> {
    Validated(suggestion, MAX_GOAL_CODE_POINTS)
  }

  function ValidateRefinedAction(action: string): Result<string, OutputError> {
    Validated(action, MAX_FRAME_CODE_POINTS)
  }

  function TrimLeft(s: string): string { if s != "" && Space(s[0]) then TrimLeft(s[1..]) else s }

  function TrimRight(s: string): string { if s != "" && Space(s[|s| - 1]) then TrimRight(s[..|s| - 1]) else s }

  function Trim(s: string): string { TrimRight(TrimLeft(s)) }

  function Digit(n: nat): char
    requires n < 10
  {
    "0123456789"[n]
  }

  /** One numbered action. */
  function Item(index: nat, action: string): Result<string, OutputError>
    requires index < 3
  {
    match NormalizeAi(action)
    case None => Err(InvalidCharacters)
    case Some(text) => if Trim(text) == "" then Err(Empty) else Ok([Digit(index + 1)] + ". " + Trim(text))
  }

  /** The numbered actions, separated by blank lines. */
  function Items(actions: seq<string>): Result<string, OutputError>
    requires |actions| <= 3
  {
    if actions == [] then Ok("")
    else
      var n := |actions| - 1;
      match Items(actions[..n])
      case Err(e) => Err(e)
      case Ok(before) =>
        match Item(n, actions[n])
        case Err(e) => Err(e)
        case Ok(item) => Ok(if n == 0 then item else before + "\n\n" + item)
  }

  function Rendered(actions: seq<string>): Result<string, OutputError> {
    if |actions| < 1 || |actions| > 3 then Err(InvalidCount)
    else
      match Items(actions)
      case Err(e) => Err(e)
      case Ok(output) => if |output| > MAX_FRAME_CODE_POINTS then Err(TooLongOutput) else Ok(output)
  }

  method RenderGeneratedActions(actions: seq<string>) returns (result: Result<string, OutputError>)
    ensures result == Rendered(actions)
  {
    if |actions| < 1 || |actions| > 3 {
      return Err(InvalidCount);
    }
    var output := "";
    for i := 0 to |actions|
      invariant Items(actions[..i]) == Ok(output)
    {
      assert actions[..i + 1][..i] == actions[..i];
      var item := Item(i, actions[i]);
      if item.Err? {
        FirstErrorWins(actions, i + 1);
        return Err(item.error);
      }
      output := if i == 0 then item.value else output + "\n\n" + item.value;
    }
    assert actions[..|actions|] == actions;
    if |output| > MAX_FRAME_CODE_POINTS {
      return Err(TooLongOutput);
    }
    return Ok(output);
  }

  /** An action that is refused decides the answer, whatever follows it. */
  lemma {:induction false} FirstErrorWins(actions: seq<string>, k: nat)
    requires k <= |actions| <= 3 && Items(actions[..k]).Err?
    ensures Items(actions) == Items(actions[..k])
    decreases |actions| - k
  {
    if k < |actions| {
      assert actions[..k + 1][..k] == actions[..k];
      FirstErrorWins(actions, k + 1);
    } else {
      assert actions[..k] == actions;
    }
  }

  // What passed can be stored.

  /** No control characters other than line feeds and tabs. */
  predicate Printable(s: string) {
    forall c :: c in s ==> !Control(c) || c == '\n' || c == '\t'
  }

  lemma PrintableIsClean(s: string)
    requires Printable(s)
    ensures Clean(s)
  {
  }

  lemma {:induction false} TrimLeftKeeps(s: string)
    ensures forall c :: c in TrimLeft(s) ==> c in s
    ensures TrimLeft(s) != "" ==> !Space(TrimLeft(s)[0])
  {
    if s != "" && Space(s[0]) {
      TrimLeftKeeps(s[1..]);
    }
  }

  lemma {:induction false} TrimRightKeeps(s: string)
    ensures forall c :: c in TrimRight(s) ==> c in s
    ensures s != "" && !Space(s[0]) ==> TrimRight(s) != "" && TrimRight(s)[0] == s[0]
    decreases |s|
  {
    if s != "" && Space(s[|s| - 1]) {
      TrimRightKeeps(s[..|s| - 1]);
    }
  }

  lemma ItemPrintable(index: nat, action: string)
    requires index < 3 && Item(index, action).Ok?
    ensures Printable(Item(index, action).value) && Item(index, action).value != ""
    ensures !Space(Item(index, action).value[0])
  {
    var text := NormalizeAi(action).value;
    TrimLeftKeeps(text);
    TrimRightKeeps(TrimLeft(text));
    var digit := Digit(index + 1);
    assert digit in {'1', '2', '3'};
  }

  lemma {:induction false} ItemsPrintable(actions: seq<string>)
    requires |actions| <= 3 && Items(actions).Ok?
    ensures Printable(Items(actions).value)
    ensures actions != [] ==> Items(actions).value != "" && !Space(Items(actions).value[0])
    decreases |actions|
  {
    if actions != [] {
      var n := |actions| - 1;
      ItemsPrintable(actions[..n]);
      ItemPrintable(n, actions[n]);
    }
  }

  /** Rendered actions are a non-blank frame text, which the frame rule leaves alone. */
  lemma RenderedStorable(actions: seq<string>)
    requires Rendered(actions).Ok?
    ensures var output := Rendered(actions).value;
            FrameText(output) && !Blank(output) && NormalizeFrame(output) == Ok(output)
  {
    ItemsPrintable(actions);
    var output := Rendered(actions).value;
    PrintableIsClean(output);
    assert output[0] in output;
    NormalizeFrameFixpoint(output);
  }

  lemma ValidatedClean(value: string, limit: nat)
    requires Validated(value, limit).Ok?
    ensures var text := Validated(value, limit).value; Clean(text) && !Blank(text) && |text| <= limit
  {
    PrintableIsClean(Validated(value, limit).value);
  }

  lemma RefinedStorable(action: string)
    requires ValidateRefinedAction(action).Ok?
    ensures var output := ValidateRefinedAction(action).value;
            FrameText(output) && !Blank(output) && NormalizeFrame(output) == Ok(output)
  {
    ValidatedClean(action, MAX_FRAME_CODE_POINTS);
    NormalizeFrameFixpoint(ValidateRefinedAction(action).value);
  }

  lemma SuggestionStorable(suggestion: string)
    requires ValidateGoalSuggestion(suggestion).Ok?
    ensures var output := ValidateGoalSuggestion(suggestion).value;
            BodyText(output) && !Blank(output) && NormalizeBody(output, false) == Ok(output)
  {
    ValidatedClean(suggestion, MAX_GOAL_CODE_POINTS);
    NormalizeBodyFixpoint(ValidateGoalSuggestion(suggestion).value, false);
  }

  /** Applying validated output to a running Cycle never fails, and writes exactly that output. */
  lemma ApplyNeverFails(c: Cycle, actions: seq<string>, action: string)
    requires c.status == Active
    ensures Rendered(actions).Ok? ==>
              && CycleDomain.ApplyAiAction(c, Rendered(actions).value).Ok?
              && CycleDomain.ApplyAiAction(c, Rendered(actions).value).value.action == Rendered(actions).value
    ensures ValidateRefinedAction(action).Ok? ==>
              && CycleDomain.ApplyAiAction(c, ValidateRefinedAction(action).value).Ok?
              && CycleDomain.ApplyAiAction(c, ValidateRefinedAction(action).value).value.action ==
                   ValidateRefinedAction(action).value
  {
    if Rendered(actions).Ok? {
      RenderedStorable(actions);
    }
    if ValidateRefinedAction(action).Ok? {
      RefinedStorable(action);
    }
  }

  // What passes, and as what.

  /** No control character of either block but a line feed and a tab. */
  predicate WithoutControls(s: string) {
    forall i :: 0 <= i < |s| ==>
      (s[i] >= ' ' && !('\U{7F}' <= s[i] <= '\U{9F}')) || s[i] == '\n' || s[i] == '\t'
  }

  lemma NormalizeAiIff(value: string)
    ensures var text := NormalizeLineEndings(value);
            && (NormalizeAi(value).Some? <==> WithoutControls(text))
            && (NormalizeAi(value).Some? ==> NormalizeAi(value).value == text)
  {
    var text := NormalizeLineEndings(value);
    if WithoutControls(text) {
      forall c | c in text ensures !(Control(c) && c != '\n' && c != '\t') {
        var i :| 0 <= i < |text| && text[i] == c;
      }
    } else {
      var i :| 0 <= i < |text| &&
               !((text[i] >= ' ' && !('\U{7F}' <= text[i] <= '\U{9F}')) || text[i] == '\n' || text[i] == '\t');
      assert text[i] in text && Control(text[i]);
    }
  }

  /** A refined Action and a suggestion pass exactly as they are, line endings apart, within their limits. */
  lemma ValidatedIff(value: string)
    ensures var text, action, goal :=
              NormalizeLineEndings(value), ValidateRefinedAction(value), ValidateGoalSuggestion(value);
            && (action.Ok? <==> WithoutControls(text) && !Blank(text) && |text| <= 200)
            && (goal.Ok? <==> WithoutControls(text) && !Blank(text) && |text| <= 80)
            && (action.Ok? ==> action.value == text) && (goal.Ok? ==> goal.value == text)
  {
    NormalizeAiIff(value);
  }

  lemma {:induction false} TrimLeftSplits(s: string) returns (lead: string)
    ensures s == lead + TrimLeft(s) && Blank(lead) && (TrimLeft(s) != "" ==> !Space(TrimLeft(s)[0]))
    decreases |s|
  {
    lead := "";
    if s != "" && Space(s[0]) {
      var rest := TrimLeftSplits(s[1..]);
      lead := [s[0]] + rest;
    }
  }

  lemma {:induction false} TrimRightSplits(s: string) returns (trail: string)
    ensures s == TrimRight(s) + trail && Blank(trail)
    ensures TrimRight(s) != "" ==> !Space(TrimRight(s)[|TrimRight(s)| - 1])
    decreases |s|
  {
    trail := "";
    if s != "" && Space(s[|s| - 1]) {
      var rest := TrimRightSplits(s[..|s| - 1]);
      trail := rest + [s[|s| - 1]];
    }
  }

  /** Trimming takes the white space off both ends and nothing else. */
  lemma TrimSplits(s: string) returns (lead: string, trail: string)
    ensures s == lead + Trim(s) + trail && Blank(lead) && Blank(trail)
    ensures Trim(s) != "" ==> !Space(Trim(s)[0]) && !Space(Trim(s)[|Trim(s)| - 1])
  {
    lead := TrimLeftSplits(s);
    trail := TrimRightSplits(TrimLeft(s));
  }

  /** One to three generated actions are numbered, trimmed and set apart by blank lines. */
  lemma RenderedIs(a: string, b: string, c: string)
    requires WithoutControls(NormalizeLineEndings(a)) && Trim(NormalizeLineEndings(a)) != ""
    requires WithoutControls(NormalizeLineEndings(b)) && Trim(NormalizeLineEndings(b)) != ""
    requires WithoutControls(NormalizeLineEndings(c)) && Trim(NormalizeLineEndings(c)) != ""
    ensures var one := "1. " + Trim(NormalizeLineEndings(a));
            var two := one + "\n\n2. " + Trim(NormalizeLineEndings(b));
            var three := two + "\n\n3. " + Trim(NormalizeLineEndings(c));
            && (Rendered([a]).Ok? <==> |one| <= 200) && (|one| <= 200 ==> Rendered([a]) == Ok(one))
            && (Rendered([a, b]).Ok? <==> |two| <= 200) && (|two| <= 200 ==> Rendered([a, b]) == Ok(two))
            && (Rendered([a, b, c]).Ok? <==> |three| <= 200) && (|three| <= 200 ==> Rendered([a, b, c]) == Ok(three))
  {
    NormalizeAiIff(a);
    NormalizeAiIff(b);
    NormalizeAiIff(c);
    var one := "1. " + Trim(NormalizeLineEndings(a));
    var two := one + "\n\n2. " + Trim(NormalizeLineEndings(b));
    var three := two + "\n\n3. " + Trim(NormalizeLineEndings(c));
    assert ['1'] + ". " == "1. " && [a][..0] == [];
    assert Item(0, a) == Ok(one) && Items([]) == Ok("");
    ItemsOf([a], one);
    assert ['2'] + ". " == "2. " && ['3'] + ". " == "3. ";
    assert one + "\n\n" + (['2'] + ". " + Trim(NormalizeLineEndings(b))) == two;
    assert two + "\n\n" + (['3'] + ". " + Trim(NormalizeLineEndings(c))) == three;
    assert [a, b][..1] == [a] && [a, b, c][..2] == [a, b];
    ItemsOf([a, b], two);
    ItemsOf([a, b, c], three);
  }

  lemma ItemsOf(actions: seq<string>, output: string)
    requires 1 <= |actions| <= 3 && Items(actions) == Ok(output)
    ensures Rendered(actions).Ok? <==> |output| <= 200
    ensures |output| <= 200 ==> Rendered(actions) == Ok(output)
  {
  }

  /** Any other number of actions, or one that is empty or holds a control character, is refused. */
  lemma RenderedNeeds(actions: seq<string>, k: nat)
    requires Rendered(actions).Ok?
    ensures 1 <= |actions| <= 3
    ensures k < |actions| ==>
              var text := NormalizeLineEndings(actions[k]); WithoutControls(text) && Trim(text) != ""
  {
    if k < |actions| {
      ItemsNeed(actions, k);
    }
  }

  lemma {:induction false} ItemsNeed(actions: seq<string>, k: nat)
    requires |actions| <= 3 && Items(actions).Ok? && k < |actions|
    ensures var text := NormalizeLineEndings(actions[k]); WithoutControls(text) && Trim(text) != ""
    decreases |actions|
  {
    var n := |actions| - 1;
    if k < n {
      ItemsNeed(actions[..n], k);
    } else {
      NormalizeAiIff(actions[n]);
    }
  }
}
