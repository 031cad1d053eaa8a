/** Text as `\n`-separated lines, with the meaning of Python's `split('\n')` and `'\n'.join`. */
module Lines {

  /** `text.split('\n')`: never empty, and the empty text has one empty line. */
  function Split(text: string): (lines: seq<string>)
    ensures |lines| >= 1
  {
    if text == "" then [""]
    else if text[0] == '\n' then [""] + Split(text[1..])
    else var rest := Split(text[1..]); [[text[0]] + rest[0]] + rest[1..]
  }

  /** `'\n'.join(lines)`. */
  function Join(lines: seq<string>): string {
    if |lines| == 0 then ""
    else if |lines| == 1 then lines[0]
    else lines[0] + "\n" + Join(lines[1..])
  }

  /** `items[:count]`, clipped at both ends as Python clips a slice. */
  function Take<T>(items: seq<T>, count: int): seq<T> {
    if count > |items| then items
    else if count >= 0 then items[..count]
    else if |items| + count >= 0 then items[..|items| + count]
    else []
  }

  /** `items[count:]`. */
  function Drop<T>(items: seq<T>, count: int): seq<T> {
    if count > |items| then []
    else if count >= 0 then items[count..]
    else if |items| + count >= 0 then items[|items| + count..]
    else items
  }

  /** `text.count('\n')`. */
  function Newlines(text: string): nat {
    if text == "" then 0 else (if text[0] == '\n' then 1 else 0) + Newlines(text[1..])
  }

  predicate StartsWith(text: string, prefix: string) {
    prefix <= text
  }

  ghost predicate IsLine(line: string) {
    '\n' !in line
  }

  ghost predicate AreLines(lines: seq<string>) {
    forall i :: 0 <= i < |lines| ==> IsLine(lines[i])
  }

  lemma {:induction false} SplitGivesLines(text: string)
    ensures AreLines(Split(text))
  {
    if text != "" {
      SplitGivesLines(text[1..]);
    }
  }

  lemma {:induction false} JoinSplit(text: string)
    ensures Join(Split(text)) == text
  {
    if text != "" {
      JoinSplit(text[1..]);
      var rest := Split(text[1..]);
      if text[0] == '\n' {
        assert Split(text)[1..] == rest;
        assert "" + "\n" + Join(rest) == text;
      } else if |rest| > 1 {
        assert Split(text)[1..] == rest[1..];
        assert ([text[0]] + rest[0]) + "\n" + Join(rest[1..]) == [text[0]] + Join(rest);
      }
    }
  }

  lemma {:induction false} SplitLine(line: string)
    requires IsLine(line)
    ensures Split(line) == [line]
  {
    if line != "" {
      assert forall c :: c in line[1..] ==> c in line;
      SplitLine(line[1..]);
      assert [line[0]] + line[1..] == line;
    }
  }

  /** How the first character of a text shapes its lines. */
  function Prepend(c: char, lines: seq<string>): seq<string>
    requires lines != []
  {
    if c == '\n' then [""] + lines else [[c] + lines[0]] + lines[1..]
  }

  lemma PrependConcat(c: char, lines: seq<string>, more: seq<string>)
    requires lines != []
    ensures Prepend(c, lines + more) == Prepend(c, lines) + more
  {
    assert (lines + more)[0] == lines[0] && (lines + more)[1..] == lines[1..] + more;
  }

  lemma SplitStep(c: char, rest: string)
    ensures Split([c] + rest) == Prepend(c, Split(rest))
  {
    assert ([c] + rest)[1..] == rest;
  }

  lemma {:induction false} SplitConcat(a: string, b: string)
    ensures Split(a + "\n" + b) == Split(a) + Split(b)
  {
    if a == "" {
      SplitStep('\n', b);
      assert a + "\n" + b == ['\n'] + b;
    } else {
      var rest := a[1..];
      SplitConcat(rest, b);
      assert a == [a[0]] + rest;
      assert a + "\n" + b == [a[0]] + (rest + "\n" + b);
      hide Prepend;
      SplitStep(a[0], rest);
      SplitStep(a[0], rest + "\n" + b);
      PrependConcat(a[0], Split(rest), Split(b));
    }
  }

  lemma {:induction false} SplitJoin(lines: seq<string>)
    requires |lines| >= 1 && AreLines(lines)
    ensures Split(Join(lines)) == lines
  {
    SplitLine(lines[0]);
    if |lines| > 1 {
      assert forall i :: 0 <= i < |lines[1..]| ==> lines[1..][i] == lines[i + 1];
      SplitJoin(lines[1..]);
      SplitConcat(lines[0], Join(lines[1..]));
      assert [lines[0]] + lines[1..] == lines;
    }
  }

  /** Joining is injective on lists of the same number of lines. */
  lemma JoinInjective(a: seq<string>, b: seq<string>)
    requires AreLines(a) && AreLines(b) && Join(a) == Join(b)
    requires (|a| == 0) == (|b| == 0)
    ensures a == b
  {
    if |a| > 0 {
      SplitJoin(a);
      SplitJoin(b);
    }
  }

  lemma {:induction false} JoinConcat(a: seq<string>, b: seq<string>)
    requires |a| >= 1 && |b| >= 1
    ensures Join(a + b) == Join(a) + "\n" + Join(b)
  {
    if |a| == 1 {
      assert (a + b)[1..] == b;
    } else {
      JoinConcat(a[1..], b);
      assert (a + b)[1..] == a[1..] + b;
      assert a[0] + "\n" + (Join(a[1..]) + "\n" + Join(b)) == (a[0] + "\n" + Join(a[1..])) + "\n" + Join(b);
    }
  }

  lemma {:induction false} CountsLines(text: string)
    ensures Newlines(text) + 1 == |Split(text)|
  {
    if text != "" {
      CountsLines(text[1..]);
    }
  }

  lemma StartingLines(code: string, prefix: string)
    requires StartsWith(code, prefix + "\n")
    ensures Take(Split(code), |Split(prefix)|) == Split(prefix)
  {
    var rest := code[|prefix| + 1..];
    assert code == prefix + "\n" + rest;
    SplitConcat(prefix, rest);
  }

  lemma JoinedLinesStart(code: string, count: nat)
    requires 1 <= count < |Split(code)|
    ensures StartsWith(code, Join(Split(code)[..count]) + "\n")
  {
    var lines := Split(code);
    assert lines == lines[..count] + lines[count..];
    JoinConcat(lines[..count], lines[count..]);
    JoinSplit(code);
  }

  lemma JoinBasics(line: string)
    ensures Join([]) == "" && Join([line]) == line && LinesOf([]) == []
  {
  }

  /** Two ways of asking whether `code` still begins with a fed prefix of `|Split(prefix)|` lines agree:
      the `startswith(prefix + '\n')` test of `receive_args` and the joined-lines test of dispatch. */
  lemma PrefixTestsAgree(code: string, prefix: string)
    ensures (code == prefix || StartsWith(code, prefix + "\n"))
       <==> Join(Take(Split(code), |Split(prefix)|)) == prefix
  {
    JoinSplit(code);
    JoinSplit(prefix);
    if StartsWith(code, prefix + "\n") {
      StartingLines(code, prefix);
    } else if code == prefix {
      assert Split(code)[..|Split(code)|] == Split(code);
    } else if |Split(prefix)| < |Split(code)| {
      JoinedLinesStart(code, |Split(prefix)|);
    } else {
      assert Take(Split(code), |Split(prefix)|) == Split(code);
    }
  }

  /** All lines of a list of fragments, in order. */
  function LinesOf(fragments: seq<string>): seq<string> {
    if |fragments| == 0 then [] else Split(fragments[0]) + LinesOf(fragments[1..])
  }

  lemma {:induction false} LinesOfConcat(a: seq<string>, b: seq<string>)
    ensures LinesOf(a + b) == LinesOf(a) + LinesOf(b)
  {
    if |a| == 0 {
      assert a + b == b;
    } else {
      assert (a + b)[1..] == a[1..] + b;
      LinesOfConcat(a[1..], b);
    }
  }

  lemma {:induction false} LinesOfGivesLines(fragments: seq<string>)
    ensures AreLines(LinesOf(fragments))
    ensures |LinesOf(fragments)| >= |fragments|
  {
    if |fragments| > 0 {
      SplitGivesLines(fragments[0]);
      LinesOfGivesLines(fragments[1..]);
    }
  }

  lemma {:induction false} JoinLinesOf(fragments: seq<string>)
    ensures Join(LinesOf(fragments)) == Join(fragments)
  {
    if |fragments| > 0 {
      JoinSplit(fragments[0]);
      if |fragments| == 1 {
        assert LinesOf(fragments) == Split(fragments[0]);
      } else {
        JoinLinesOf(fragments[1..]);
        LinesOfGivesLines(fragments[1..]);
        JoinConcat(Split(fragments[0]), LinesOf(fragments[1..]));
      }
    }
  }
}
