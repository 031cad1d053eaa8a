/** Extraction is monotone in the stream, also behind the cut at the first call with undeclared effects. */
module CallMonotone {
  import opened Options
  import opened PythonDict
  import opened PythonRepr
  import opened CanonicalKey
  import opened CallScanner
  import opened SpeculationStore
  import opened SpeculationPrefetch

  lemma NoParenNoCalls(lex: Lex, literals: Literals, code: string, name: string, i: nat)
    requires i <= |code| && forall k :: i <= k < |code| ==> code[k] != '('
    ensures FoundFrom(lex, literals, code, name, i) == []
    decreases |code| - i
  {
    if i < |code| {
      NoParenNoCalls(lex, literals, code, name, i + 1);
    }
  }

  /** A position adds the same to a longer text, unless a call is open there in the shorter one, or the name's
      parenthesis is yet to come. */
  lemma FoundAtExtends(lex: Lex, literals: Literals, code: string, longer: string, name: string, i: nat)
    requires ValidLex(lex) && IsIdentifier(lex, name) && IsPrefix(code, longer) && i < |code|
    ensures || FoundAt(lex, literals, longer, name, i) == FoundAt(lex, literals, code, name, i)
            || FoundAt(lex, literals, code, name, i) == None
            || FoundFrom(lex, literals, code, name, i) == []
  {
    hide ParenOf, FoundFrom, ValidLex, IsIdentifier, Plain, NotACall;
    var p, q := ParenOf(lex, code, name, i), ParenOf(lex, longer, name, i);
    MatchExtends(lex, code, longer, name, i);
    assert code[..i] == longer[..i];
    if p.None? && q.Some? {
      MatchIsPlain(lex, longer, name, i);
      NoParenAhead(lex, code, longer, i, q.value);
      NoParenNoCalls(lex, literals, code, name, i);
    } else if p.Some? {
      FirstCloseExtends(code, longer, p.value, p.value + 1);
      var end := CloseOf(code, p.value);
      if end.Some? {
        SameText(code, longer, i, end.value);
      }
    }
  }

  /** Every complete call found in a text is found in each longer text: same place, same arguments, and with
      nothing new in between. */
  lemma {:induction false} FoundExtends(lex: Lex, literals: Literals, code: string, longer: string, name: string,
      i: nat)
    requires ValidLex(lex) && IsIdentifier(lex, name) && IsPrefix(code, longer) && i <= |code|
    ensures IsPrefix(FoundFrom(lex, literals, code, name, i), FoundFrom(lex, literals, longer, name, i))
    decreases |code| - i
  {
    hide FoundAt;
    if i < |code| {
      FoundAtExtends(lex, literals, code, longer, name, i);
      FoundExtends(lex, literals, code, longer, name, i + 1);
    }
  }

  lemma SameText(code: string, longer: string, i: nat, end: nat)
    requires IsPrefix(code, longer) && i <= end <= |code|
    ensures code[i..end] == longer[i..end]
  {
  }

  lemma NoParenAhead(lex: Lex, code: string, longer: string, i: nat, paren: nat)
    requires ValidLex(lex) && IsPrefix(code, longer) && i <= |code| <= paren <= |longer| && Plain(lex, longer, i, paren)
    ensures forall k :: i <= k < |code| ==> code[k] != '('
  {
    forall k | i <= k < |code| ensures code[k] != '(' {
      assert lex.word(longer[k]) || lex.space(longer[k]);
      assert IsBracket('(');
    }
  }

  // ---- the cut -------------------------------------------------------------------------------------------------

  predicate MatchesAt(lex: Lex, code: string, names: seq<string>, i: nat)
    requires i <= |code|
  {
    exists n :: 0 <= n < |names| && ParenOf(lex, code, names[n], i).Some?
  }

  /** The first position from `i` on where a call of one of the names starts. */
  function CutFrom(lex: Lex, code: string, names: seq<string>, i: nat): (cut: nat)
    requires i <= |code|
    ensures i <= cut <= |code|
    ensures cut < |code| ==> MatchesAt(lex, code, names, cut)
    ensures forall k :: i <= k < cut ==> !MatchesAt(lex, code, names, k)
    decreases |code| - i
  {
    if i == |code| || MatchesAt(lex, code, names, i) then i else CutFrom(lex, code, names, i + 1)
  }

  function Cut(lex: Lex, code: string, names: seq<string>): (cut: nat)
    ensures cut <= |code|
  {
    CutFrom(lex, code, names, 0)
  }

  function OrderedPrefix(lex: Lex, code: string, names: seq<string>): string {
    code[..Cut(lex, code, names)]
  }

  /** `_ordered_prefix`: cuts at one name after the other, in the order the name set happens to have. */
  method CutAtCalls(lex: Lex, code: string, names: seq<string>) returns (kept: string)
    requires ValidLex(lex) && Identifiers(lex, names)
    ensures kept == OrderedPrefix(lex, code, names)
  {
    kept := code;
    assert Cut(lex, code, names[..0]) == |code|;
    for n := 0 to |names|
      invariant kept == OrderedPrefix(lex, code, names[..n])
    {
      var name := names[n];
      assert name in names;
      var start := Cut(lex, kept, [name]);
      assert names[..n + 1] == names[..n] + [name];
      CutTwice(lex, code, names[..n], name);
      kept := kept[..start];
    }
    assert names[..|names|] == names;
  }

  lemma CutTwice(lex: Lex, code: string, names: seq<string>, name: string)
    requires ValidLex(lex) && Identifiers(lex, names) && IsIdentifier(lex, name)
    ensures var kept := OrderedPrefix(lex, code, names);
            kept[..Cut(lex, kept, [name])] == OrderedPrefix(lex, code, names + [name])
  {
    var cut := Cut(lex, code, names);
    var kept := code[..cut];
    forall i | 0 <= i <= |code|
      ensures MatchesAt(lex, code, names + [name], i) <==>
              MatchesAt(lex, code, names, i) || ParenOf(lex, code, name, i).Some?
    {
      OneMoreName(lex, code, names, name, i);
    }
    forall i | 0 <= i < cut
      ensures MatchesAt(lex, kept, [name], i) <==> ParenOf(lex, code, name, i).Some?
    {
      MatchInKept(lex, code, names, name, i);
    }
    hide MatchesAt, ParenOf, ValidLex, IsIdentifier, Identifiers;
    assert Cut(lex, kept, [name]) == Cut(lex, code, names + [name]);
  }

  lemma MatchInKept(lex: Lex, code: string, names: seq<string>, name: string, i: nat)
    requires ValidLex(lex) && Identifiers(lex, names) && IsIdentifier(lex, name) && i < Cut(lex, code, names)
    ensures MatchesAt(lex, code[..Cut(lex, code, names)], [name], i) <==> ParenOf(lex, code, name, i).Some?
  {
    hide ParenOf, ValidLex, IsIdentifier, Identifiers, MatchesAt;
    var cut := Cut(lex, code, names);
    OneName(lex, code[..cut], name, i);
    MatchExtends(lex, code[..cut], code, name, i);
    if ParenOf(lex, code, name, i).Some? && cut < |code| {
      SomeMatchApart(lex, code, name, i, names, cut);
    }
  }

  lemma SomeMatchApart(lex: Lex, code: string, name: string, i: nat, names: seq<string>, j: nat)
    requires ValidLex(lex) && IsIdentifier(lex, name) && Identifiers(lex, names) && i < j <= |code|
    requires ParenOf(lex, code, name, i).Some? && MatchesAt(lex, code, names, j)
    ensures ParenOf(lex, code, name, i).value < j
  {
    var n :| 0 <= n < |names| && ParenOf(lex, code, names[n], j).Some?;
    assert names[n] in names;
    MatchesAreApart(lex, code, name, i, names[n], j);
  }

  lemma OneMoreName(lex: Lex, code: string, names: seq<string>, name: string, i: nat)
    requires i <= |code|
    ensures MatchesAt(lex, code, names + [name], i) <==>
            MatchesAt(lex, code, names, i) || ParenOf(lex, code, name, i).Some?
  {
    var more := names + [name];
    hide ParenOf;
    if MatchesAt(lex, code, names, i) {
      var n :| 0 <= n < |names| && ParenOf(lex, code, names[n], i).Some?;
      assert more[n] == names[n];
    }
    if ParenOf(lex, code, name, i).Some? {
      assert more[|names|] == name;
    }
    if MatchesAt(lex, code, more, i) {
      var n :| 0 <= n < |more| && ParenOf(lex, code, more[n], i).Some?;
      assert n < |names| ==> names[n] == more[n];
    }
  }

  lemma OneName(lex: Lex, code: string, name: string, i: nat)
    requires i <= |code|
    ensures MatchesAt(lex, code, [name], i) <==> ParenOf(lex, code, name, i).Some?
  {
    assert [name][0] == name;
  }

  /** Growing text moves the cut only within a name that was still being spelled at the end of the shorter one. */
  lemma CutExtends(lex: Lex, code: string, longer: string, names: seq<string>)
    requires ValidLex(lex) && Identifiers(lex, names) && IsPrefix(code, longer)
    ensures var (cut, cut') := (Cut(lex, code, names), Cut(lex, longer, names));
            || cut' == cut
            || (cut == |code| && cut' >= |code|)
            || (cut == |code| && Plain(lex, code, cut', |code|))
  {
    var cut, cut' := Cut(lex, code, names), Cut(lex, longer, names);
    if cut < |code| {
      MatchKept(lex, code, longer, names, cut);
      if cut' < cut {
        MatchInPrefix(lex, code, longer, names, cut', cut);
      }
    } else if cut' < |code| {
      PlainToTheEnd(lex, code, longer, names, cut');
    }
  }

  lemma MatchKept(lex: Lex, code: string, longer: string, names: seq<string>, i: nat)
    requires IsPrefix(code, longer) && i <= |code| && MatchesAt(lex, code, names, i)
    ensures MatchesAt(lex, longer, names, i)
  {
    var n :| 0 <= n < |names| && ParenOf(lex, code, names[n], i).Some?;
    MatchExtends(lex, code, longer, names[n], i);
    assert ParenOf(lex, longer, names[n], i).Some?;
  }

  lemma MatchInPrefix(lex: Lex, code: string, longer: string, names: seq<string>, i: nat, j: nat)
    requires ValidLex(lex) && Identifiers(lex, names) && IsPrefix(code, longer) && i < j <= |code|
    requires MatchesAt(lex, longer, names, i) && MatchesAt(lex, longer, names, j)
    ensures MatchesAt(lex, code, names, i)
  {
    var n :| 0 <= n < |names| && ParenOf(lex, longer, names[n], i).Some?;
    assert names[n] in names;
    SomeMatchApart(lex, longer, names[n], i, names, j);
    MatchExtends(lex, code, longer, names[n], i);
    assert ParenOf(lex, code, names[n], i).Some?;
  }

  lemma PlainToTheEnd(lex: Lex, code: string, longer: string, names: seq<string>, i: nat)
    requires ValidLex(lex) && Identifiers(lex, names) && IsPrefix(code, longer) && i < |code|
    requires MatchesAt(lex, longer, names, i) && !MatchesAt(lex, code, names, i)
    ensures Plain(lex, code, i, |code|)
  {
    var n :| 0 <= n < |names| && ParenOf(lex, longer, names[n], i).Some?;
    assert names[n] in names;
    assert ParenOf(lex, code, names[n], i).None?;
    MatchExtends(lex, code, longer, names[n], i);
    MatchIsPlain(lex, longer, names[n], i);
    forall k | i <= k < |code| ensures lex.word(code[k]) || lex.space(code[k]) {
      assert code[k] == longer[k];
    }
  }

  lemma PlainTailAt(lex: Lex, literals: Literals, code: string, name: string, cut: nat, i: nat)
    requires ValidLex(lex) && IsIdentifier(lex, name) && i < cut <= |code| && Plain(lex, code, cut, |code|)
    ensures FoundAt(lex, literals, code[..cut], name, i) == FoundAt(lex, literals, code, name, i)
  {
    hide ParenOf, NotACall, Plain, ValidLex, IsIdentifier, CloseOf;
    var kept := code[..cut];
    var p, q := ParenOf(lex, kept, name, i), ParenOf(lex, code, name, i);
    MatchExtends(lex, kept, code, name, i);
    NoParenAhead(lex, code, code, cut, |code|);
    assert p == q;
    assert kept[..i] == code[..i];
    if p.Some? {
      SameEnd(lex, code, cut, p.value);
      var end := CloseOf(code, p.value);
      if end.Some? {
        SameText(kept, code, i, end.value);
      }
    }
  }

  /** A call that starts before a plain tail ends before it, or not at all. */
  lemma SameEnd(lex: Lex, code: string, cut: nat, paren: nat)
    requires ValidLex(lex) && Plain(lex, code, cut, |code|) && paren < cut <= |code| && code[paren] == '('
    ensures CloseOf(code[..cut], paren) == CloseOf(code, paren)
    ensures CloseOf(code, paren).Some? ==> paren < CloseOf(code, paren).value <= cut
  {
    hide Plain, ValidLex;
    FirstCloseExtends(code[..cut], code, paren, paren + 1);
    var end := CloseOf(code, paren);
    if end.Some? {
      ClosesAtBracket(code, paren, end.value);
      BracketBeforeTail(lex, code, cut, end.value - 1);
    }
  }

  lemma BracketBeforeTail(lex: Lex, code: string, cut: nat, i: nat)
    requires ValidLex(lex) && Plain(lex, code, cut, |code|) && i < |code| && IsBracket(code[i])
    ensures i < cut
  {
  }

  /** Word characters and white space at the end complete no call. */
  lemma {:induction false} PlainTail(lex: Lex, literals: Literals, code: string, name: string, cut: nat, i: nat)
    requires ValidLex(lex) && IsIdentifier(lex, name) && i <= cut <= |code| && Plain(lex, code, cut, |code|)
    ensures FoundFrom(lex, literals, code[..cut], name, i) == FoundFrom(lex, literals, code, name, i)
    decreases cut - i
  {
    hide FoundAt, ValidLex, IsIdentifier, Plain;
    if i == cut {
      NoParenAhead(lex, code, code, cut, |code|);
      NoParenNoCalls(lex, literals, code, name, cut);
    } else {
      PlainTailAt(lex, literals, code, name, cut, i);
      PlainTail(lex, literals, code, name, cut, i + 1);
    }
  }

  /** For each eligible name, the calls found before the cut of a text come first, unchanged, among those found
      before the cut of a longer text. */
  lemma ExtractionIsMonotone(lex: Lex, literals: Literals, code: string, longer: string, name: string,
      unsafe: seq<string>)
    requires ValidLex(lex) && IsIdentifier(lex, name) && Identifiers(lex, unsafe) && IsPrefix(code, longer)
    ensures IsPrefix(FoundFrom(lex, literals, OrderedPrefix(lex, code, unsafe), name, 0),
                     FoundFrom(lex, literals, OrderedPrefix(lex, longer, unsafe), name, 0))
  {
    var cut, cut' := Cut(lex, code, unsafe), Cut(lex, longer, unsafe);
    CutExtends(lex, code, longer, unsafe);
    if cut == |code| && cut' < |code| {
      PlainTail(lex, literals, code, name, cut', 0);
      assert code[..cut] == code;
      assert code[..cut'] == longer[..cut'];
    } else {
      FoundExtends(lex, literals, code[..cut], longer[..cut'], name, 0);
    }
  }

  // ---- counts never fall ------------------------------------------------------------------------------------------

  function Calls(found: seq<Found>): (calls: seq<Extracted>)
    ensures |calls| == |found|
    ensures forall i :: 0 <= i < |found| ==> calls[i] == Extracted(found[i].name, found[i].kwargs)
  {
    if found == [] then [] else [Extracted(found[0].name, found[0].kwargs)] + Calls(found[1..])
  }

  /** What one scan of the streamed text extracts. */
  function Extraction(lex: Lex, literals: Literals, code: string, names: seq<string>,
      unsafe: seq<string>): seq<Extracted> {
    Calls(FoundAll(lex, literals, OrderedPrefix(lex, code, unsafe), names))
  }

  lemma {:induction false} CountConcat(p: Printable, a: seq<Found>, b: seq<Found>, key: string)
    ensures Occurrences(p, Calls(a + b), key) == Occurrences(p, Calls(a), key) + Occurrences(p, Calls(b), key)
  {
    if a == [] {
      assert a + b == b;
    } else {
      assert (a + b)[1..] == a[1..] + b;
      CountConcat(p, a[1..], b, key);
    }
  }

  lemma {:induction false} CountsNeverFall(p: Printable, lex: Lex, literals: Literals, code: string, longer: string,
      names: seq<string>, unsafe: seq<string>, key: string)
    requires ValidLex(lex) && Identifiers(lex, names) && Identifiers(lex, unsafe) && IsPrefix(code, longer)
    ensures Occurrences(p, Extraction(lex, literals, code, names, unsafe), key)
            <= Occurrences(p, Extraction(lex, literals, longer, names, unsafe), key)
  {
    hide KeyOf, OrderedPrefix;
    if names != [] {
      var a := FoundFrom(lex, literals, OrderedPrefix(lex, code, unsafe), names[0], 0);
      var b := FoundFrom(lex, literals, OrderedPrefix(lex, longer, unsafe), names[0], 0);
      ExtractionIsMonotone(lex, literals, code, longer, names[0], unsafe);
      CountsNeverFall(p, lex, literals, code, longer, names[1..], unsafe, key);
      assert b == a + b[|a|..];
      CountConcat(p, a, b[|a|..], key);
      CountConcat(p, a, FoundAll(lex, literals, OrderedPrefix(lex, code, unsafe), names[1..]), key);
      CountConcat(p, b, FoundAll(lex, literals, OrderedPrefix(lex, longer, unsafe), names[1..]), key);
    }
  }

  /** A part that demands what the text so far spells demands, after the next scan, exactly what the longer text
      spells, unless it reached its cap. */
  lemma DemandFollowsTheText(c: Context, s: Store, id: string, lex: Lex, literals: Literals, code: string,
      longer: string, names: seq<string>, unsafe: seq<string>)
    requires ValidLex(lex) && Identifiers(lex, names) && Identifiers(lex, unsafe) && IsPrefix(code, longer)
    requires forall k :: Demanded(c, s, id, k) == Occurrences(c.p, Extraction(lex, literals, code, names, unsafe), k)
    ensures var calls := Extraction(lex, literals, longer, names, unsafe);
            var s' := SpeculationStore.Scan(c, s, id, calls, []);
            WatchOf(c, s', id).launched < c.cap ==> forall k :: Demanded(c, s', id, k) == Occurrences(c.p, calls, k)
  {
    var calls := Extraction(lex, literals, longer, names, unsafe);
    var s' := SpeculationStore.Scan(c, s, id, calls, []);
    assert SeenAreDemanded(c, s, id, []);
    ScanTracksDemand(c, s, id, calls, []);
    hide Extraction, SpeculationStore.Scan, Occurrences, Demanded;
    if WatchOf(c, s', id).launched < c.cap {
      forall k ensures Demanded(c, s', id, k) == Occurrences(c.p, calls, k) {
        CountsNeverFall(c.p, lex, literals, code, longer, names, unsafe, k);
        assert Wanted(c, calls, [], k) == Occurrences(c.p, calls, k);
      }
    }
  }
}
