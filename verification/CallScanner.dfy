/** Reading complete calls off streamed text: whatever is found in a prefix is found again, at the same place, in
    every longer text. */
module CallScanner {
  import opened Options
  import opened CanonicalKey

  /** The character classes of the regular expressions: word characters and white space. */
  datatype Lex = Lex(word: char -> bool, space: char -> bool)

  predicate IsBracket(ch: char) {
    ch in "([{" || ch in ")]}"
  }

  predicate IsQuote(ch: char) {
    ch == '"' || ch == '\''
  }

  ghost predicate ValidLex(lex: Lex) {
    forall ch ::
      && !(lex.word(ch) && lex.space(ch))
      && (IsBracket(ch) || IsQuote(ch) || ch == '\\' ==> !lex.word(ch) && !lex.space(ch))
  }

  /** An identifier: word characters only. */
  ghost predicate IsIdentifier(lex: Lex, name: string) {
    name != "" && forall ch :: ch in name ==> lex.word(ch)
  }

  ghost predicate Identifiers(lex: Lex, names: seq<string>) {
    forall name :: name in names ==> IsIdentifier(lex, name)
  }

  predicate IsPrefix<T(==)>(a: seq<T>, b: seq<T>) {
    |a| <= |b| && a == b[..|a|]
  }

  // ---- the closing parenthesis ------------------------------------------------------------------------------

  /** Reading code character by character: bracket depth, the open quote, and whether a backslash just passed. */
  datatype Reading = Reading(depth: int, quote: Option<char>, escaped: bool)

  const Start := Reading(0, None, false)

  function Read(r: Reading, ch: char): Reading {
    if r.quote.Some? then
      if r.escaped then r.(escaped := false)
      else if ch == '\\' then r.(escaped := true)
      else if ch == r.quote.value then r.(quote := None)
      else r
    else if IsQuote(ch) then r.(quote := Some(ch))
    else if ch in "([{" then r.(depth := r.depth + 1)
    else if ch in ")]}" then r.(depth := r.depth - 1)
    else r
  }

  /** The reading of `code[start..i]`. */
  function At(code: string, start: nat, i: nat): Reading
    requires start <= i <= |code|
  {
    if i == start then Start else Read(At(code, start, i - 1), code[i - 1])
  }

  /** `end` is just past the parenthesis that closes the one at `start`. */
  ghost predicate Closes(code: string, start: nat, end: nat) {
    && start < end <= |code| && At(code, start, end).depth == 0
    && forall i :: start < i < end ==> At(code, start, i).depth != 0
  }

  function FirstClose(code: string, start: nat, from: nat): (end: Option<nat>)
    requires start < from
    ensures end.Some? ==> from <= end.value <= |code| && At(code, start, end.value).depth == 0
    ensures end.Some? ==> forall i :: from <= i < end.value ==> At(code, start, i).depth != 0
    ensures end.None? ==> forall i :: from <= i <= |code| ==> At(code, start, i).depth != 0
    decreases |code| + 1 - from
  {
    if from > |code| then None
    else if At(code, start, from).depth == 0 then Some(from)
    else FirstClose(code, start, from + 1)
  }

  /** Where the call whose parenthesis opens at `start` ends, if it does. */
  function CloseOf(code: string, start: nat): (end: Option<nat>)
    ensures end.Some? ==> Closes(code, start, end.value)
    ensures end.None? ==> forall e :: !Closes(code, start, e)
  {
    FirstClose(code, start, start + 1)
  }

  lemma Reading0(code: string, start: nat)
    requires start < |code|
    ensures At(code, start, start + 1) == Read(Start, code[start])
  {
    assert At(code, start, start) == Start;
  }

  // ---- what a reading means -----------------------------------------------------------------------------------------

  function CountOf(text: string, ch: char): nat {
    multiset(text)[ch]
  }

  /** Opening brackets of the three kinds, less closing ones. */
  function Opened(text: string): int {
    CountOf(text, '(') + CountOf(text, '[') + CountOf(text, '{') as int
    - CountOf(text, ')') as int - CountOf(text, ']') as int - CountOf(text, '}') as int
  }

  /** What one character adds to the depth outside strings. */
  function Delta(ch: char): int {
    if ch == '(' || ch == '[' || ch == '{' then 1 else if ch == ')' || ch == ']' || ch == '}' then -1 else 0
  }

  lemma OpenedStep(text: string, ch: char)
    ensures Opened(text + [ch]) == Opened(text) + Delta(ch)
  {
    assert multiset(text + [ch]) == multiset(text) + multiset{ch};
  }

  lemma ReadStep(depth: int, ch: char)
    requires ch != '"' && ch != '\''
    ensures Read(Reading(depth, None, false), ch) == Reading(depth + Delta(ch), None, false)
  {
  }

  /** Outside strings the depth is the number of opening brackets less that of closing ones, of all three kinds. */
  lemma {:induction false} DepthCountsBrackets(code: string, start: nat, i: nat)
    requires start <= i <= |code| && forall k :: start <= k < i ==> code[k] != '"' && code[k] != '\''
    ensures At(code, start, i) == Reading(Opened(code[start..i]), None, false)
  {
    if i > start {
      hide Opened, Read, Delta;
      DepthCountsBrackets(code, start, i - 1);
      OpenedStep(code[start..i - 1], code[i - 1]);
      ReadStep(Opened(code[start..i - 1]), code[i - 1]);
      assert At(code, start, i) == Read(At(code, start, i - 1), code[i - 1]);
      hide At;
      assert code[start..i] == code[start..i - 1] + [code[i - 1]];
    } else {
      assert code[start..i] == "";
    }
  }

  /** The character at `k`, in a string that opens at `open`, stands behind a backslash that is not escaped itself. */
  ghost predicate Escaped(code: string, open: nat, k: nat)
    requires k <= |code|
  {
    k > open + 1 && code[k - 1] == '\\' && !Escaped(code, open, k - 1)
  }

  /** From an opening quote on nothing counts until the same quote stands there unescaped. */
  lemma {:induction false} StringsDoNotCount(code: string, start: nat, open: nat, k: nat)
    requires start <= open < k <= |code| && At(code, start, open) == Reading(At(code, start, open).depth, None, false)
    requires code[open] == '"' || code[open] == '\''
    requires forall l :: open < l < k && code[l] == code[open] ==> Escaped(code, open, l)
    ensures At(code, start, k) == Reading(At(code, start, open).depth, Some(code[open]), Escaped(code, open, k))
    ensures k < |code| && code[k] == code[open] && !Escaped(code, open, k) ==>
              At(code, start, k + 1) == At(code, start, open)
  {
    if k > open + 1 {
      StringsDoNotCount(code, start, open, k - 1);
    }
    assert At(code, start, k) == Read(At(code, start, k - 1), code[k - 1]);
    if k < |code| {
      assert At(code, start, k + 1) == Read(At(code, start, k), code[k]);
    }
  }

  /** `_close_paren`: a scan that skips the character after a backslash inside a string. */
  method CloseParen(code: string, start: nat) returns (end: Option<nat>)
    requires start < |code| && code[start] == '('
    ensures end.Some? ==> Closes(code, start, end.value)
    ensures end.None? ==> forall e :: !Closes(code, start, e)
  {
    var depth := 0;
    var quote: Option<char> := None;
    var i := start;
    while i < |code|
      invariant start <= i <= |code| + 1
      invariant i <= |code| ==> At(code, start, i) == Reading(depth, quote, false)
      invariant forall j :: start < j < i && j <= |code| ==> At(code, start, j).depth != 0
      invariant i == start ==> depth == 0 && quote == None
      invariant i > start && i <= |code| ==> depth > 0
      decreases |code| - i
    {
      var ch := code[i];
      assert At(code, start, i + 1) == Read(At(code, start, i), ch);
      if quote.Some? {
        if ch == '\\' {
          if i + 2 <= |code| {
            assert At(code, start, i + 2) == Read(At(code, start, i + 1), code[i + 1]);
          }
          i := i + 2;
          continue;
        }
        if ch == quote.value {
          quote := None;
        }
      } else if IsQuote(ch) {
        quote := Some(ch);
      } else if ch in "([{" {
        depth := depth + 1;
      } else if ch in ")]}" {
        depth := depth - 1;
        if depth == 0 {
          return Some(i + 1);
        }
      }
      i := i + 1;
    }
    end := None;
  }

  lemma {:induction false} AtExtends(code: string, longer: string, start: nat, i: nat)
    requires IsPrefix(code, longer) && start <= i <= |code|
    ensures At(longer, start, i) == At(code, start, i)
  {
    if i > start {
      AtExtends(code, longer, start, i - 1);
    }
  }

  lemma {:induction false} FirstCloseExtends(code: string, longer: string, start: nat, from: nat)
    requires IsPrefix(code, longer) && start < from
    ensures FirstClose(code, start, from).Some? ==> FirstClose(longer, start, from) == FirstClose(code, start, from)
    ensures FirstClose(code, start, from).None? && FirstClose(longer, start, from).Some? ==>
              FirstClose(longer, start, from).value > |code|
    decreases |code| + 1 - from
  {
    if from <= |code| {
      AtExtends(code, longer, start, from);
      FirstCloseExtends(code, longer, start, from + 1);
    }
  }

  /** The character before the end of a call is a closing bracket. */
  lemma {:induction false} ClosesAtBracket(code: string, start: nat, end: nat)
    requires start < |code| && code[start] == '(' && Closes(code, start, end)
    ensures end > start + 1 && IsBracket(code[end - 1])
  {
    Reading0(code, start);
    assert At(code, start, end) == Read(At(code, start, end - 1), code[end - 1]);
  }

  // ---- matches of `\bname\s*\(` --------------------------------------------------------------------------------

  function SkipSpaces(lex: Lex, code: string, i: nat): (j: nat)
    requires i <= |code|
    ensures i <= j <= |code|
    ensures forall k :: i <= k < j ==> lex.space(code[k])
    ensures j < |code| ==> !lex.space(code[j])
    decreases |code| - i
  {
    if i < |code| && lex.space(code[i]) then SkipSpaces(lex, code, i + 1) else i
  }

  /** The position of the parenthesis of a match that starts at `i`. */
  function ParenOf(lex: Lex, code: string, name: string, i: nat): (paren: Option<nat>)
    requires i <= |code|
    ensures paren.Some? ==> i + |name| <= paren.value < |code| && code[paren.value] == '('
    ensures paren.Some? ==> code[i..i + |name|] == name
    ensures paren.Some? ==> forall k :: i + |name| <= k < paren.value ==> lex.space(code[k])
    ensures paren.Some? ==> i == 0 || !lex.word(code[i - 1])
  {
    if (i > 0 && lex.word(code[i - 1])) || i + |name| > |code| || code[i..i + |name|] != name then None
    else
      var j := SkipSpaces(lex, code, i + |name|);
      if j < |code| && code[j] == '(' then Some(j) else None
  }

  lemma {:induction false} SkipExtends(lex: Lex, code: string, longer: string, i: nat)
    requires IsPrefix(code, longer) && i <= |code|
    ensures SkipSpaces(lex, code, i) < |code| ==> SkipSpaces(lex, longer, i) == SkipSpaces(lex, code, i)
    ensures SkipSpaces(lex, code, i) == |code| ==> SkipSpaces(lex, longer, i) >= |code|
    decreases |code| - i
  {
    if i < |code| && lex.space(code[i]) {
      SkipExtends(lex, code, longer, i + 1);
    }
  }

  /** A match of the longer text is one of the prefix exactly when its parenthesis lies in the prefix. */
  lemma MatchExtends(lex: Lex, code: string, longer: string, name: string, i: nat)
    requires IsPrefix(code, longer) && i <= |code|
    ensures ParenOf(lex, code, name, i).Some? ==> ParenOf(lex, longer, name, i) == ParenOf(lex, code, name, i)
    ensures ParenOf(lex, longer, name, i).Some? && ParenOf(lex, longer, name, i).value < |code| ==>
              ParenOf(lex, code, name, i) == ParenOf(lex, longer, name, i)
  {
    if i + |name| <= |code| {
      SkipExtends(lex, code, longer, i + |name|);
      assert code[i..i + |name|] == longer[i..i + |name|];
    }
  }

  /** Between the start of a match and its parenthesis there are only word characters and white space. */
  ghost predicate Plain(lex: Lex, code: string, from: nat, to: nat) {
    forall k :: from <= k < to && k < |code| ==> lex.word(code[k]) || lex.space(code[k])
  }

  lemma NameIsWord(lex: Lex, code: string, name: string, i: nat)
    requires IsIdentifier(lex, name) && i <= |code| && ParenOf(lex, code, name, i).Some?
    ensures forall k :: i <= k < i + |name| ==> lex.word(code[k])
  {
    forall k | i <= k < i + |name| ensures lex.word(code[k]) {
      assert code[i..i + |name|][k - i] == name[k - i];
      assert name[k - i] in name;
    }
  }

  lemma MatchIsPlain(lex: Lex, code: string, name: string, i: nat)
    requires IsIdentifier(lex, name) && i <= |code| && ParenOf(lex, code, name, i).Some?
    ensures Plain(lex, code, i, ParenOf(lex, code, name, i).value)
  {
    NameIsWord(lex, code, name, i);
  }

  /** Matches of identifiers do not overlap: the one that starts first has its parenthesis before the other starts. */
  lemma MatchesAreApart(lex: Lex, code: string, name: string, i: nat, other: string, j: nat)
    requires ValidLex(lex) && IsIdentifier(lex, name) && IsIdentifier(lex, other) && i < j <= |code|
    requires ParenOf(lex, code, name, i).Some? && ParenOf(lex, code, other, j).Some?
    ensures ParenOf(lex, code, name, i).value < j
  {
    NameIsWord(lex, code, name, i);
    NameIsWord(lex, code, other, j);
    assert lex.word(code[j]) && !lex.word(code[j - 1]);
    assert IsBracket(code[ParenOf(lex, code, name, i).value]);
  }

  // ---- complete literal calls --------------------------------------------------------------------------------------

  /** What parsing a call's own text yields: its keyword arguments when they are all literals. */
  type Literals = (string, string) -> Option<Value>

  datatype Found = Found(name: string, kwargs: Value, start: nat, end: nat)

  function Rstrip(lex: Lex, text: string): string {
    if text != "" && lex.space(text[|text| - 1]) then Rstrip(lex, text[..|text| - 1]) else text
  }

  predicate EndsWith(text: string, suffix: string) {
    |suffix| <= |text| && text[|text| - |suffix|..] == suffix
  }

  /** An attribute access or a definition, judged by the text before the name. */
  predicate NotACall(lex: Lex, before: string) {
    var text := Rstrip(lex, before);
    EndsWith(text, ".") || (EndsWith(text, "def") && (|text| == 3 || !lex.word(text[|text| - 4])))
  }

  /** What one position adds: `None` stops the search at a call that is still open. */
  function FoundAt(lex: Lex, literals: Literals, code: string, name: string, i: nat): Option<seq<Found>>
    requires i < |code|
  {
    var paren := ParenOf(lex, code, name, i);
    if paren.None? || NotACall(lex, code[..i]) then Some([])
    else
      var end := CloseOf(code, paren.value);
      if end.None? then None
      else
        var kwargs := literals(name, code[i..end.value]);
        Some(if kwargs.Some? then [Found(name, kwargs.value, i, end.value)] else [])
  }

  /** `_text_literal_calls` for one name, from position `i` on. */
  function FoundFrom(lex: Lex, literals: Literals, code: string, name: string, i: nat): seq<Found>
    requires i <= |code|
    decreases |code| - i
  {
    if i == |code| then []
    else
      var here := FoundAt(lex, literals, code, name, i);
      if here.None? then [] else here.value + FoundFrom(lex, literals, code, name, i + 1)
  }

  // ---- which calls are found, said of the characters ---------------------------------------------------------------

  /** `k` is the last character before `start` that is no white space. */
  ghost predicate LastBefore(lex: Lex, code: string, start: nat, k: nat)
    requires start <= |code|
  {
    k < start && !lex.space(code[k]) && forall j :: k < j < start ==> lex.space(code[j])
  }

  /** The word `def` ends at `k`. */
  ghost predicate DefEndsAt(lex: Lex, code: string, k: nat)
    requires k < |code|
  {
    && k >= 2 && code[k - 2] == 'd' && code[k - 1] == 'e' && code[k] == 'f'
    && (k == 2 || !lex.word(code[k - 3]))
  }

  /** A call of `name`: the name as a whole word at `start`, then white space, then the parenthesis at `paren`; and what
      stands before is neither a dot nor `def`. */
  ghost predicate CallAt(lex: Lex, code: string, name: string, start: nat, paren: nat) {
    && start + |name| <= paren < |code|
    && (forall k :: 0 <= k < |name| ==> code[start + k] == name[k])
    && (start > 0 ==> !lex.word(code[start - 1]))
    && (forall k :: start + |name| <= k < paren ==> lex.space(code[k]))
    && code[paren] == '('
    && forall k: nat :: LastBefore(lex, code, start, k) ==> code[k] != '.' && !DefEndsAt(lex, code, k)
  }

  ghost predicate ClosesSomewhere(code: string, paren: nat) {
    exists end: nat :: Closes(code, paren, end)
  }

  /** A call of `f.name` that closes at `f.end`, with literal arguments. */
  ghost predicate LiteralCall(lex: Lex, literals: Literals, code: string, f: Found) {
    && f.start <= f.end <= |code|
    && (exists paren: nat :: CallAt(lex, code, f.name, f.start, paren) && Closes(code, paren, f.end))
    && literals(f.name, code[f.start..f.end]) == Some(f.kwargs)
  }

  /** Every call of the name that starts in between is closed. */
  ghost predicate NoneOpen(lex: Lex, code: string, name: string, from: nat, to: nat) {
    forall s: nat, paren: nat :: from <= s < to && CallAt(lex, code, name, s, paren) ==> ClosesSomewhere(code, paren)
  }

  lemma {:induction false} RstripEnds(lex: Lex, text: string)
    ensures Rstrip(lex, text) <= text
    ensures forall k :: |Rstrip(lex, text)| <= k < |text| ==> lex.space(text[k])
    ensures Rstrip(lex, text) != "" ==> !lex.space(Rstrip(lex, text)[|Rstrip(lex, text)| - 1])
  {
    if text != "" && lex.space(text[|text| - 1]) {
      RstripEnds(lex, text[..|text| - 1]);
    }
  }

  lemma NotACallMeans(lex: Lex, code: string, start: nat)
    requires start <= |code|
    ensures !NotACall(lex, code[..start]) <==>
            forall k: nat :: LastBefore(lex, code, start, k) ==> code[k] != '.' && !DefEndsAt(lex, code, k)
  {
    var text := Rstrip(lex, code[..start]);
    RstripEnds(lex, code[..start]);
    hide Rstrip;
    forall k: nat ensures LastBefore(lex, code, start, k) <==> text != "" && k == |text| - 1 {
      LastOfRstrip(lex, code, start, text, k);
    }
    if text != "" {
      EndOfText(lex, code, start, text);
    }
    hide LastBefore, EndsWith, DefEndsAt;
  }

  lemma EndOfText(lex: Lex, code: string, start: nat, text: string)
    requires start <= |code| && text <= code[..start] && text != ""
    ensures EndsWith(text, ".") <==> code[|text| - 1] == '.'
    ensures EndsWith(text, "def") && (|text| == 3 || !lex.word(text[|text| - 4])) <==>
            DefEndsAt(lex, code, |text| - 1)
  {
    assert forall k :: 0 <= k < |text| ==> code[k] == text[k];
    EndsInDot(text);
    EndsInDef(text);
    hide EndsWith;
  }

  lemma EndsInDot(text: string)
    requires text != ""
    ensures EndsWith(text, ".") <==> text[|text| - 1] == '.'
  {
    assert text[|text| - 1..] == [text[|text| - 1]];
  }

  lemma EndsInDef(text: string)
    ensures EndsWith(text, "def") <==>
            |text| >= 3 && text[|text| - 3] == 'd' && text[|text| - 2] == 'e' && text[|text| - 1] == 'f'
  {
    if |text| >= 3 {
      var n := |text|;
      assert text[n - 3..] == [text[n - 3], text[n - 2], text[n - 1]];
    }
  }

  lemma LastOfRstrip(lex: Lex, code: string, start: nat, text: string, k: nat)
    requires start <= |code| && text <= code[..start]
    requires forall j :: |text| <= j < start ==> lex.space(code[..start][j])
    requires text != "" ==> !lex.space(text[|text| - 1])
    ensures LastBefore(lex, code, start, k) <==> text != "" && k == |text| - 1
  {
    forall j | |text| <= j < start ensures lex.space(code[j]) {
      assert code[..start][j] == code[j];
    }
    if text != "" {
      assert code[|text| - 1] == text[|text| - 1];
    }
  }

  lemma CallAtMeans(lex: Lex, code: string, name: string, start: nat, paren: nat)
    requires ValidLex(lex) && start <= |code|
    ensures CallAt(lex, code, name, start, paren) <==>
            ParenOf(lex, code, name, start) == Some(paren) && !NotACall(lex, code[..start])
  {
    NotACallMeans(lex, code, start);
    ParenOfMeans(lex, code, name, start, paren);
    hide ParenOf, NotACall, LastBefore, DefEndsAt, ValidLex;
  }

  lemma ParenOfMeans(lex: Lex, code: string, name: string, start: nat, paren: nat)
    requires ValidLex(lex) && start <= |code|
    ensures ParenOf(lex, code, name, start) == Some(paren) <==>
            && start + |name| <= paren < |code|
            && (forall k :: 0 <= k < |name| ==> code[start + k] == name[k])
            && (start > 0 ==> !lex.word(code[start - 1]))
            && (forall k :: start + |name| <= k < paren ==> lex.space(code[k]))
            && code[paren] == '('
  {
    assert IsBracket('(');
    if start + |name| <= |code| {
      var here := code[start..start + |name|];
      assert forall k :: 0 <= k < |name| ==> here[k] == code[start + k];
      if forall k :: 0 <= k < |name| ==> code[start + k] == name[k] {
        assert here == name;
      }
    }
  }

  lemma OnlyClose(code: string, paren: nat, end: nat)
    requires Closes(code, paren, end)
    ensures CloseOf(code, paren) == Some(end)
  {
  }

  lemma FoundAtMeans(lex: Lex, literals: Literals, code: string, name: string, i: nat, f: Found)
    requires ValidLex(lex) && i < |code|
    ensures var here := FoundAt(lex, literals, code, name, i);
            && (here.Some? <==> NoneOpen(lex, code, name, i, i + 1))
            && (f.name == name && f.start == i && LiteralCall(lex, literals, code, f) <==>
                here.Some? && f in here.value)
  {
    hide ValidLex, Closes;
    forall paren: nat
      ensures CallAt(lex, code, name, i, paren) <==>
              ParenOf(lex, code, name, i) == Some(paren) && !NotACall(lex, code[..i])
    {
      CallAtMeans(lex, code, name, i, paren);
    }
    hide CallAt, ParenOf, NotACall;
    var paren := ParenOf(lex, code, name, i);
    if paren.Some? && !NotACall(lex, code[..i]) {
      var end := CloseOf(code, paren.value);
      assert ClosesSomewhere(code, paren.value) <==> end.Some?;
      assert CallAt(lex, code, name, i, paren.value);
      if Closes(code, paren.value, f.end) {
        OnlyClose(code, paren.value, f.end);
      }
    }
  }

  /** From position `i` on the search finds every literal call of the name before which none from `i` on is open. */
  lemma {:induction false} FoundFromMeans(
    lex: Lex, literals: Literals, code: string, name: string, i: nat, f: Found)
    requires ValidLex(lex) && i <= |code|
    ensures f in FoundFrom(lex, literals, code, name, i) <==>
            f.name == name && i <= f.start && LiteralCall(lex, literals, code, f) && NoneOpen(lex, code, name, i,
            f.start) decreases |code| - i
  {
    hide Closes, LastBefore, ValidLex, FoundAt;
    if i == |code| {
    } else {
      hide CallAt;
      FoundAtMeans(lex, literals, code, name, i, f);
      FoundFromMeans(lex, literals, code, name, i + 1, f);
      NoneOpenSplits(lex, code, name, i, f.start);
      hide LiteralCall, NoneOpen;
    }
  }

  lemma NoneOpenSplits(lex: Lex, code: string, name: string, i: nat, to: nat)
    ensures i < to ==>
              (NoneOpen(lex, code, name, i, to) <==>
               NoneOpen(lex, code, name, i, i + 1) && NoneOpen(lex, code, name, i + 1, to))
    ensures i >= to ==> NoneOpen(lex, code, name, i, to)
  {
    hide CallAt, ClosesSomewhere;
  }

  /** In the order of the text, each position once. */
  ghost predicate Ascending(found: seq<Found>, from: nat) {
    && (forall i :: 0 <= i < |found| ==> from <= found[i].start)
    && forall i, j :: 0 <= i < j < |found| ==> found[i].start < found[j].start
  }

  lemma {:induction false} FoundFromAscends(lex: Lex, literals: Literals, code: string, name: string, i: nat)
    requires i <= |code|
    ensures Ascending(FoundFrom(lex, literals, code, name, i), i)
    decreases |code| - i
  {
    hide ParenOf, NotACall, CloseOf;
    if i < |code| {
      FoundFromAscends(lex, literals, code, name, i + 1);
      var here := FoundAt(lex, literals, code, name, i);
      assert here.Some? ==> |here.value| <= 1 && (here.value != [] ==> here.value[0].start == i);
      hide FoundAt;
    }
  }

  /** A call is extracted exactly when it is a literal call of an eligible name and no call of that name that starts
      before it is still open. */
  lemma {:induction false} FoundExactly(lex: Lex, literals: Literals, code: string, names: seq<string>, f: Found)
    requires ValidLex(lex)
    ensures f in FoundAll(lex, literals, code, names) <==>
            f.name in names && LiteralCall(lex, literals, code, f) && NoneOpen(lex, code, f.name, 0, f.start)
  {
    hide LiteralCall, NoneOpen, ValidLex, FoundFrom;
    if names != [] {
      FoundFromMeans(lex, literals, code, names[0], 0, f);
      FoundExactly(lex, literals, code, names[1..], f);
    }
  }

  method TextLiteralCalls(lex: Lex, literals: Literals, code: string, names: seq<string>) returns (out: seq<Found>)
    ensures out == FoundAll(lex, literals, code, names)
    ensures ValidLex(lex) ==> forall f :: f in out <==>
              f.name in names && LiteralCall(lex, literals, code, f) && NoneOpen(lex, code, f.name, 0, f.start)
  {
    hide LiteralCall, NoneOpen, ValidLex;
    forall f: Found | ValidLex(lex)
      ensures f in FoundAll(lex, literals, code, names) <==>
              f.name in names && LiteralCall(lex, literals, code, f) && NoneOpen(lex, code, f.name, 0, f.start)
    {
      FoundExactly(lex, literals, code, names, f);
    }
    out := [];
    assert names[0..] == names;
    for n := 0 to |names|
      invariant out + FoundAll(lex, literals, code, names[n..]) == FoundAll(lex, literals, code, names)
    {
      assert names[n..] == [names[n]] + names[n + 1..];
      var found := LiteralCallsOf(lex, literals, code, names[n]);
      out := out + found;
    }
  }

  method LiteralCallsOf(lex: Lex, literals: Literals, code: string, name: string) returns (out: seq<Found>)
    ensures out == FoundFrom(lex, literals, code, name, 0)
    ensures Ascending(out, 0)
  {
    hide FoundAt;
    FoundFromAscends(lex, literals, code, name, 0);
    out := [];
    var i := 0;
    while i < |code|
      invariant i <= |code|
      invariant out + FoundFrom(lex, literals, code, name, i) == FoundFrom(lex, literals, code, name, 0)
    {
      var here := LiteralCallAt(lex, literals, code, name, i);
      if here.None? {
        break;
      }
      out := out + here.value;
      i := i + 1;
    }
  }

  method LiteralCallAt(lex: Lex, literals: Literals, code: string, name: string, i: nat)
      returns (here: Option<seq<Found>>)
    requires i < |code|
    ensures here == FoundAt(lex, literals, code, name, i)
  {
    hide ParenOf, NotACall;
    var paren := ParenOf(lex, code, name, i);
    if paren.None? || NotACall(lex, code[..i]) {
      return Some([]);
    }
    var end := CloseParen(code, paren.value);
    SameClose(code, paren.value, end);
    if end.None? {
      return None;
    }
    var kwargs := literals(name, code[i..end.value]);
    here := Some(if kwargs.Some? then [Found(name, kwargs.value, i, end.value)] else []);
  }

  function FoundAll(lex: Lex, literals: Literals, code: string, names: seq<string>): seq<Found> {
    if names == [] then [] else FoundFrom(lex, literals, code, names[0], 0) + FoundAll(lex, literals, code, names[1..])
  }

  lemma SameClose(code: string, start: nat, end: Option<nat>)
    requires end.Some? ==> Closes(code, start, end.value)
    requires end.None? ==> forall e :: !Closes(code, start, e)
    ensures end == CloseOf(code, start)
  {
  }
}
