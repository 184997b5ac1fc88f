/**
 Text rules shared by Goal and PDCA texts. A string is a sequence of code points, so its length is
 the source's rune count.
 */
module Text {
  import opened Base

  const MAX_GOAL_CODE_POINTS: nat := 80
  const MAX_SIGNAL_CODE_POINTS: nat := 120
  const MAX_FRAME_CODE_POINTS: nat := 200

  datatype TextError = ForbiddenCharacter | TooLong | Required

  /** Characters no stored text may hold. */
  predicate Forbidden(c: char) {
    (c < ' ' && c != '\n' && c != '\t') || c == '\U{7F}'
  }

  /** Unicode's control characters (category Cc). */
  predicate Control(c: char) {
    c < ' ' || '\U{7F}' <= c <= '\U{9F}'
  }

  /** Unicode's White_Space property. */
  predicate Space(c: char) {
    '\t' <= c <= '\r' || c == ' ' || c == '\U{85}' || c == '\U{A0}' || c == '\U{1680}' ||
    '\U{2000}' <= c <= '\U{200A}' || c == '\U{2028}' || c == '\U{2029}' || c == '\U{202F}' ||
    c == '\U{205F}' || c == '\U{3000}'
  }

  predicate Blank(s: string) {
    forall c :: c in s ==> Space(c)
  }

  /** Every CR LF pair becomes one LF. */
  function ReplaceCrLf(s: string): string {
    if s == "" then ""
    else if |s| >= 2 && s[0] == '\r' && s[1] == '\n' then ['\n'] + ReplaceCrLf(s[2..])
    else [s[0]] + ReplaceCrLf(s[1..])
  }

  /** Every CR becomes an LF. */
  function ReplaceCr(s: string): string {
    if s == "" then "" else [if s[0] == '\r' then '\n' else s[0]] + ReplaceCr(s[1..])
  }

  function NormalizeLineEndings(s: string): string {
    ReplaceCr(ReplaceCrLf(s))
  }

  predicate Clean(s: string) {
    forall c :: c in s ==> !Forbidden(c)
  }

  /** The PDCA frame rule. */
  function NormalizeFrame(s: string): Result<string, TextError> {
    var value := NormalizeLineEndings(s);
    if !Clean(value) then Err(ForbiddenCharacter)
    else if |value| > MAX_FRAME_CODE_POINTS then Err(TooLong)
    else Ok(value)
  }

  /** The Goal body rule. */
  function NormalizeBody(s: string, allowEmpty: bool): Result<string, TextError> {
    var value := NormalizeLineEndings(s);
    if !Clean(value) then Err(ForbiddenCharacter)
    else if |value| > MAX_GOAL_CODE_POINTS then Err(TooLong)
    else if !allowEmpty && Blank(value) then Err(Required)
    else Ok(value)
  }

  /** The optional success signal; a blank one is the same as none. */
  function NormalizeSignal(s: Option<string>): Result<Option<string>, TextError> {
    match s
    case None => Ok(None)
    case Some(text) =>
      var value := NormalizeLineEndings(text);
      if !Clean(value) then Err(ForbiddenCharacter)
      else if Blank(value) then Ok(None)
      else if |value| > MAX_SIGNAL_CODE_POINTS then Err(TooLong)
      else Ok(Some(value))
  }

  /** Text that every frame operation stores and reads back unchanged. */
  predicate FrameText(s: string) {
    Clean(s) && |s| <= MAX_FRAME_CODE_POINTS
  }

  predicate BodyText(s: string) {
    Clean(s) && |s| <= MAX_GOAL_CODE_POINTS
  }

  predicate SignalText(s: Option<string>) {
    s.Some? ==> Clean(s.value) && !Blank(s.value) && |s.value| <= MAX_SIGNAL_CODE_POINTS
  }

  lemma {:induction false} NoCrLf(s: string)
    requires '\r' !in s
    ensures ReplaceCrLf(s) == s && ReplaceCr(s) == s
  {
    if s != "" {
      assert s[0] in s;
      NoCrLf(s[1..]);
      assert [s[0]] + s[1..] == s;
    }
  }

  lemma {:induction false} ReplaceCrLeavesNone(s: string)
    ensures '\r' !in ReplaceCr(s) && |ReplaceCr(s)| == |s|
  {
    if s != "" {
      ReplaceCrLeavesNone(s[1..]);
    }
  }

  lemma {:induction false} ReplaceCrLfShortens(s: string)
    ensures |ReplaceCrLf(s)| <= |s|
  {
    if |s| >= 2 && s[0] == '\r' && s[1] == '\n' {
      ReplaceCrLfShortens(s[2..]);
    } else if s != "" {
      ReplaceCrLfShortens(s[1..]);
    }
  }

  /** Normalizing twice is normalizing once, and clean text is left alone. */
  lemma NormalizeLineEndingsStable(s: string)
    ensures '\r' !in NormalizeLineEndings(s)
    ensures NormalizeLineEndings(NormalizeLineEndings(s)) == NormalizeLineEndings(s)
    ensures Clean(s) ==> NormalizeLineEndings(s) == s
  {
    ReplaceCrLeavesNone(ReplaceCrLf(s));
    NoCrLf(NormalizeLineEndings(s));
    if Clean(s) {
      assert Forbidden('\r');
      NoCrLf(s);
    }
  }

  /** A frame text is exactly a fixed point of the frame rule, and the rule yields nothing else. */
  lemma NormalizeFrameFixpoint(s: string)
    ensures FrameText(s) <==> NormalizeFrame(s) == Ok(s)
    ensures NormalizeFrame(s).Ok? ==> FrameText(NormalizeFrame(s).value)
  {
    NormalizeLineEndingsStable(s);
  }

  lemma NormalizeBodyFixpoint(s: string, allowEmpty: bool)
    ensures BodyText(s) && (allowEmpty || !Blank(s)) <==> NormalizeBody(s, allowEmpty) == Ok(s)
    ensures NormalizeBody(s, allowEmpty).Ok? ==>
              BodyText(NormalizeBody(s, allowEmpty).value) && (allowEmpty || !Blank(NormalizeBody(s, allowEmpty).value))
  {
    NormalizeLineEndingsStable(s);
  }

  lemma NormalizeSignalFixpoint(s: Option<string>)
    ensures SignalText(s) <==> NormalizeSignal(s) == Ok(s)
    ensures NormalizeSignal(s).Ok? ==> SignalText(NormalizeSignal(s).value)
  {
    if s.Some? {
      NormalizeLineEndingsStable(s.value);
    }
  }

  // What the rules are, character by character.

  /** Line endings are rewritten piece by piece, wherever a text is cut but inside a CR LF. */
  lemma {:induction false} LineEndingsJoin(a: string, b: string)
    requires !(a != "" && a[|a| - 1] == '\r' && b != "" && b[0] == '\n')
    ensures NormalizeLineEndings(a + b) == NormalizeLineEndings(a) + NormalizeLineEndings(b)
  {
    CrLfJoin(a, b);
    CrJoin(ReplaceCrLf(a), ReplaceCrLf(b));
  }

  /** How many characters the next line ending, or the next character, takes. */
  function Taken(s: string): nat {
    if |s| >= 2 && s[0] == '\r' && s[1] == '\n' then 2 else 1
  }

  function Given(s: string): string
    requires s != ""
  {
    if Taken(s) == 2 then "\n" else [s[0]]
  }

  lemma CrLfStep(s: string)
    requires s != ""
    ensures Taken(s) <= |s| && ReplaceCrLf(s) == Given(s) + ReplaceCrLf(s[Taken(s)..])
  {
  }

  lemma TakenJoin(a: string, b: string)
    requires a != "" && !(a[|a| - 1] == '\r' && b != "" && b[0] == '\n')
    ensures Taken(a + b) == Taken(a) <= |a| && Given(a + b) == Given(a) && (a + b)[Taken(a)..] == a[Taken(a)..] + b
    ensures a[Taken(a)..] != "" ==> a[Taken(a)..][|a[Taken(a)..]| - 1] == a[|a| - 1]
  {
  }

  lemma JoinsThrice(a: string, b: string, c: string)
    ensures a + (b + c) == a + b + c
  {
  }

  lemma {:induction false} CrLfJoin(a: string, b: string)
    requires !(a != "" && a[|a| - 1] == '\r' && b != "" && b[0] == '\n')
    ensures ReplaceCrLf(a + b) == ReplaceCrLf(a) + ReplaceCrLf(b)
    decreases |a|
  {
    if a == "" {
      assert a + b == b;
      return;
    }
    var rest := a[Taken(a)..];
    TakenJoin(a, b);
    CrLfStep(a);
    CrLfStep(a + b);
    CrLfJoin(rest, b);
    JoinsThrice(Given(a), ReplaceCrLf(rest), ReplaceCrLf(b));
  }

  lemma {:induction false} CrJoin(a: string, b: string)
    ensures ReplaceCr(a + b) == ReplaceCr(a) + ReplaceCr(b)
    decreases |a|
  {
    if a == "" {
      assert a + b == b;
    } else {
      CrJoin(a[1..], b);
      assert (a + b)[1..] == a[1..] + b;
    }
  }

  /** The pieces: a CR LF and a CR each become one LF, and every other character stays. */
  lemma LineEndings(c: char)
    ensures NormalizeLineEndings("") == "" && NormalizeLineEndings("\r\n") == "\n" && NormalizeLineEndings("\r") == "\n"
    ensures c != '\r' ==> NormalizeLineEndings([c]) == [c]
  {
    assert "\r\n"[2..] == "" && "\r"[1..] == "" && [c][1..] == "" && "\n"[1..] == "";
    assert ReplaceCrLf("") == "" && ReplaceCr("") == "";
    assert ReplaceCrLf("\r\n") == ['\n'] + "" && ReplaceCrLf("\r") == ['\r'] + "";
    assert ReplaceCr("\n") == ['\n'] + "" && ReplaceCr("\r") == ['\n'] + "";
    assert ReplaceCrLf([c]) == [c] + "";
    assert c != '\r' ==> ReplaceCr([c]) == [c] + "";
  }

  /** No control character but a line feed and a tab, and no DEL. */
  predicate PlainText(s: string) {
    forall i :: 0 <= i < |s| ==> (s[i] >= ' ' && s[i] != '\U{7F}') || s[i] == '\n' || s[i] == '\t'
  }

  lemma PlainIsClean(s: string)
    ensures PlainText(s) <==> Clean(s)
  {
    if PlainText(s) {
      forall c | c in s ensures !Forbidden(c) {
        var i :| 0 <= i < |s| && s[i] == c;
      }
    } else {
      var i :| 0 <= i < |s| && !((s[i] >= ' ' && s[i] != '\U{7F}') || s[i] == '\n' || s[i] == '\t');
      assert s[i] in s && Forbidden(s[i]);
    }
  }

  /** The white space of Unicode, one character after another. */
  lemma SpaceIsWhite(c: char)
    ensures Space(c) <==>
              c in {'\t', '\n', '\U{B}', '\U{C}', '\r', ' ', '\U{85}', '\U{A0}', '\U{1680}', '\U{2000}', '\U{2001}',
                    '\U{2002}', '\U{2003}', '\U{2004}', '\U{2005}', '\U{2006}', '\U{2007}', '\U{2008}', '\U{2009}',
                    '\U{200A}', '\U{2028}', '\U{2029}', '\U{202F}', '\U{205F}', '\U{3000}'}
  {
  }

  /** The limits: 200 characters for a frame, 80 for a Goal, 120 for a signal; a Goal that starts needs a text. */
  lemma TextRules(s: string)
    ensures var text := NormalizeLineEndings(s);
            && (NormalizeFrame(s).Ok? <==> PlainText(text) && |text| <= 200)
            && (NormalizeFrame(s).Ok? ==> NormalizeFrame(s).value == text)
            && (NormalizeBody(s, true).Ok? <==> PlainText(text) && |text| <= 80)
            && (NormalizeBody(s, false).Ok? <==> PlainText(text) && |text| <= 80 && !Blank(text))
            && (forall empty :: NormalizeBody(s, empty).Ok? ==> NormalizeBody(s, empty).value == text)
            && (NormalizeSignal(Some(s)).Ok? <==> PlainText(text) && (Blank(text) || |text| <= 120))
            && (NormalizeSignal(Some(s)).Ok? ==>
                  NormalizeSignal(Some(s)).value == if Blank(text) then None else Some(text))
  {
    PlainIsClean(NormalizeLineEndings(s));
  }
}
