/** What the host reads off a `run_code` call whose arguments are still streaming.
    Python's parser and the lenient JSON decoder are parameters with the contracts stated here. */
module Streaming {
  import opened Lines
  import opened Options

  const MAX_SCAN_CHARS: nat := 0x4_0000
  const MAX_SCAN_WORK_CHARS: nat := 0x10_0000

  /** First and last line, counted from 1, of one top-level statement. */
  datatype Span = Span(first: nat, last: nat)

  /** `ast.parse(text).body`, or `None` when the text does not parse. */
  type Parser = string -> Option<seq<Span>>

  /** Statements stand in order within the text; neighbours may share a line (`a; b`). */
  ghost predicate InOrder(body: seq<Span>, lineCount: nat) {
    && (forall i :: 0 <= i < |body| ==> 1 <= body[i].first <= body[i].last <= lineCount)
    && (forall i :: 0 < i < |body| ==> body[i - 1].last <= body[i].first)
  }

  ghost predicate Plain(code: string) {
    '\r' !in code
  }

  /** The parser's line numbers are those of `\n`-separated lines, for text that has no other line break. */
  ghost predicate ParserContract(parse: Parser) {
    forall text {:trigger parse(text)} :: Plain(text) && parse(text).Some? && text != "" && text[|text| - 1] == '\n'
      ==> InOrder(parse(text).value, Newlines(text))
  }

  /** `code.rfind('\n')`. */
  function LastNewline(code: string): (at: int)
    ensures -1 <= at < |code|
    ensures at >= 0 ==> code[at] == '\n'
    ensures forall i :: at < i < |code| ==> code[i] != '\n'
  {
    if code == "" then -1
    else if code[|code| - 1] == '\n' then |code| - 1
    else LastNewline(code[..|code| - 1])
  }

  /** The statements that a later statement on a later line has closed. */
  function ClosedPrefix(body: seq<Span>): seq<Span> {
    if |body| < 2 || body[1].first <= body[0].last then [] else [body[0]] + ClosedPrefix(body[1..])
  }

  function ClosedStatements(parse: Parser, code: string): seq<Span> {
    var end := LastNewline(code);
    if end < 0 || end >= MAX_SCAN_CHARS then []
    else
      match parse(code[..end + 1])
      case None => []
      case Some(body) => ClosedPrefix(body)
  }

  /** The next statement starts on a later line. */
  ghost predicate Followed(body: seq<Span>, i: nat) {
    i + 1 < |body| && body[i].last < body[i + 1].first
  }

  /** Statement `i` can no longer change: it and each one before it are followed by one on a later line. */
  ghost predicate Settled(body: seq<Span>, i: nat) {
    forall j: nat :: j <= i ==> Followed(body, j)
  }

  /** The statements of the complete lines, none when these are oversized or do not parse. */
  function CompleteStatements(parse: Parser, code: string): seq<Span> {
    var end := LastNewline(code);
    if 0 <= end < MAX_SCAN_CHARS && parse(code[..end + 1]).Some? then parse(code[..end + 1]).value else []
  }

  /** `closed` are exactly the settled ones among the statements of the complete lines. */
  ghost predicate ClosesExactly(parse: Parser, code: string, closed: seq<Span>) {
    var body := CompleteStatements(parse, code);
    closed <= body && forall i: nat :: i < |closed| <==> Settled(body, i)
  }

  lemma {:induction false} ClosedPrefixExactly(body: seq<Span>)
    ensures ClosedPrefix(body) <= body
    ensures forall i: nat :: i < |ClosedPrefix(body)| <==> Settled(body, i)
  {
    if |body| < 2 || body[1].first <= body[0].last {
      assert !Followed(body, 0);
    } else {
      ClosedPrefixExactly(body[1..]);
      forall i: nat ensures i < |ClosedPrefix(body)| <==> Settled(body, i) {
        SettledNext(body, i);
      }
    }
  }

  lemma SettledNext(body: seq<Span>, i: nat)
    requires |body| >= 2 && body[0].last < body[1].first
    ensures Settled(body, i) <==> i == 0 || Settled(body[1..], i - 1)
  {
    forall j: nat ensures Followed(body[1..], j) <==> Followed(body, j + 1) {
      assert j + 1 < |body[1..]| ==> body[1..][j] == body[j + 1] && body[1..][j + 1] == body[j + 2];
    }
    assert Followed(body, 0);
    if i > 0 && Settled(body, i) {
      forall j: nat | j <= i - 1 ensures Followed(body[1..], j) {
        assert Followed(body, j + 1);
      }
    }
    if i > 0 && Settled(body[1..], i - 1) {
      forall j: nat | j <= i ensures Followed(body, j) {
        if j > 0 {
          assert Followed(body[1..], j - 1);
        }
      }
    }
  }

  /** A statement is closed exactly when it is settled in the parse of the complete lines. */
  lemma ClosedStatementsExactly(parse: Parser, code: string)
    ensures ClosesExactly(parse, code, ClosedStatements(parse, code))
  {
    ClosedPrefixExactly(CompleteStatements(parse, code));
  }

  method CollectClosed(parse: Parser, code: string) returns (closed: seq<Span>)
    ensures closed == ClosedStatements(parse, code)
    ensures ClosesExactly(parse, code, closed)
  {
    ClosedStatementsExactly(parse, code);
    hide ClosesExactly;
    var end := LastNewline(code);
    if end < 0 || end >= MAX_SCAN_CHARS {
      return [];
    }
    var tree := parse(code[..end + 1]);
    if tree.None? {
      return [];
    }
    closed := [];
    var body := tree.value;
    var i := 0;
    while i + 1 < |body|
      invariant i == 0 || i < |body|
      invariant |body| > 0 ==> ClosedPrefix(body) == closed + ClosedPrefix(body[i..])
      invariant |body| == 0 ==> closed == []
    {
      assert body[i..][1..] == body[i + 1..];
      if body[i + 1].first <= body[i].last {
        break;
      }
      closed := closed + [body[i]];
      i := i + 1;
    }
  }

  /** Strictly increasing last lines, each of them at least 1 and before line `bound`. */
  ghost predicate Rising(spans: seq<Span>, bound: int) {
    && (forall i :: 0 <= i < |spans| ==> 1 <= spans[i].last < bound)
    && (forall i, j :: 0 <= i < j < |spans| ==> spans[i].last < spans[j].last)
  }

  lemma {:induction false} ClosedPrefixRises(body: seq<Span>, lineCount: nat)
    requires InOrder(body, lineCount)
    ensures Rising(ClosedPrefix(body), lineCount)
    ensures forall i :: 0 <= i < |ClosedPrefix(body)| ==> ClosedPrefix(body)[i].last >= body[0].last
  {
    if !(|body| < 2 || body[1].first <= body[0].last) {
      assert InOrder(body[1..], lineCount) by {
        assert forall i :: 0 < i < |body[1..]| ==> body[1..][i - 1] == body[i] && body[1..][i] == body[i + 1];
      }
      ClosedPrefixRises(body[1..], lineCount);
    }
  }

  lemma {:induction false} NewlinesUpTo(code: string, end: nat)
    requires end <= |code|
    requires forall i :: end <= i < |code| ==> code[i] != '\n'
    ensures Newlines(code[..end]) == Newlines(code)
  {
    if code == "" {
    } else if end == 0 {
      assert forall i :: 0 <= i < |code[1..]| ==> code[1..][i] == code[i + 1];
      NewlinesUpTo(code[1..], 0);
    } else {
      assert forall i :: end - 1 <= i < |code[1..]| ==> code[1..][i] == code[i + 1];
      NewlinesUpTo(code[1..], end - 1);
      assert code[..end][1..] == code[1..][..end - 1];
    }
  }

  /** Closed statements end on strictly increasing lines, and every one of them ends before the last line that
      has fully streamed: the statement standing there is still provisional. */
  lemma ClosedStatementsContract(parse: Parser, code: string)
    requires ParserContract(parse) && Plain(code)
    ensures Rising(ClosedStatements(parse, code), |Split(code)| - 1)
  {
    var end := LastNewline(code);
    CountsLines(code);
    if 0 <= end < MAX_SCAN_CHARS {
      var complete := code[..end + 1];
      if parse(complete).Some? {
        NewlinesUpTo(code, end + 1);
        ClosedPrefixRises(parse(complete).value, Newlines(complete));
      }
    }
  }
}
