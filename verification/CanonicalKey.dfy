/** The claim key of a call: two calls get the same printed key exactly when they name the same function with
    arguments that mean the same, up to the order of dict entries and set members. */
module CanonicalKey {
  import opened PythonRepr

  datatype NumberKind = Int | Float | Complex | Bool | NoneType | Ellipsis

  /** The printed form of a number or constant: parentheses only around the whole, as in `(1+2j)`. */
  predicate IsNumberText(text: string) {
    text != "" &&
    if text[0] == '(' then |text| >= 2 && text[|text| - 1] == ')' && ')' !in text[..|text| - 1] else ')' !in text
  }

  type NumberText = text: string | IsNumberText(text) witness "0"

  /** A Python literal value. Sets and dicts are in iteration order. */
  datatype Value =
    | Number(kind: NumberKind, text: NumberText)
    | Text(bytes: bool, chars: string)
    | Items(isTuple: bool, elements: seq<Value>)
    | Members(frozen: bool, members: seq<Value>)
    | Dict(entries: seq<Entry>)

  datatype Entry = Entry(key: Value, value: Value)

  // ---- what a value means: sets and dicts are unordered -------------------------------------------

  datatype Meaning =
    | NumberMeaning(kind: NumberKind, text: NumberText)
    | TextMeaning(bytes: bool, chars: string)
    | ItemsMeaning(isTuple: bool, elements: seq<Meaning>)
    | MembersMeaning(frozen: bool, members: multiset<Meaning>)
    | DictMeaning(entries: multiset<(Meaning, Meaning)>)

  ghost function MeaningOf(v: Value): Meaning
    decreases v, 1
  {
    match v
    case Number(kind, text) => NumberMeaning(kind, text)
    case Text(bytes, chars) => TextMeaning(bytes, chars)
    case Items(isTuple, elements) => ItemsMeaning(isTuple, MeaningsOf(elements))
    case Members(frozen, members) => MembersMeaning(frozen, multiset(MeaningsOf(members)))
    case Dict(entries) => DictMeaning(multiset(EntryMeanings(entries)))
  }

  ghost function MeaningsOf(vs: seq<Value>): (ms: seq<Meaning>)
    ensures |ms| == |vs| && forall i :: 0 <= i < |vs| ==> ms[i] == MeaningOf(vs[i])
    decreases vs, 0
  {
    if vs == [] then [] else [MeaningOf(vs[0])] + MeaningsOf(vs[1..])
  }

  ghost function EntryMeaning(e: Entry): (Meaning, Meaning)
    decreases e, 0
  {
    match e case Entry(key, value) => (MeaningOf(key), MeaningOf(value))
  }

  ghost function EntryMeanings(es: seq<Entry>): (ms: seq<(Meaning, Meaning)>)
    ensures |ms| == |es| && forall i :: 0 <= i < |es| ==> ms[i] == EntryMeaning(es[i])
    decreases es, 0
  {
    if es == [] then [] else [EntryMeaning(es[0])] + EntryMeanings(es[1..])
  }

  // ---- `_canonical` -------------------------------------------------------------------------------

  datatype Shape = ListShape | TupleShape | SetShape | FrozenSetShape | DictShape

  /** The type-tagged tuples `_canonical` builds. */
  datatype Canon =
    | Atom(kind: NumberKind, text: NumberText)
    | Literal(bytes: bool, chars: string)
    | Node(shape: Shape, kids: seq<Canon>)
    | Pair(left: Canon, right: Canon)

  function Tag(c: Canon): string
    requires !c.Pair?
  {
    match c
    case Atom(kind, _) =>
      (match kind
       case Int => "int"
       case Float => "float"
       case Complex => "complex"
       case Bool => "bool"
       case NoneType => "NoneType"
       case Ellipsis => "ellipsis")
    case Literal(bytes, _) => if bytes then "bytes" else "str"
    case Node(shape, _) =>
      match shape
      case ListShape => "list"
      case TupleShape => "tuple"
      case SetShape => "set"
      case FrozenSetShape => "frozenset"
      case DictShape => "dict"
  }

  /** `repr` of a canonical form. */
  function Repr(p: Printable, c: Canon): string
    decreases c, 1
  {
    match c
    case Atom(_, text) => "('" + Tag(c) + "', " + text + ")"
    case Literal(bytes, chars) => "('" + Tag(c) + "', " + Quote(p, bytes, chars) + ")"
    case Node(_, kids) => "('" + Tag(c) + "', " + TupleRepr(p, kids) + ")"
    case Pair(left, right) => "(" + Repr(p, left) + ", " + Repr(p, right) + ")"
  }

  /** `repr` of a tuple: `()`, `(x,)`, `(x, y)`. */
  function TupleRepr(p: Printable, kids: seq<Canon>): string
    decreases kids, 0
  {
    if kids == [] then "()"
    else if |kids| == 1 then "(" + Repr(p, kids[0]) + ",)"
    else "(" + Repr(p, kids[0]) + MoreRepr(p, kids[1..])
  }

  function MoreRepr(p: Printable, kids: seq<Canon>): string
    decreases kids, 0
  {
    if kids == [] then ")" else ", " + Repr(p, kids[0]) + MoreRepr(p, kids[1..])
  }

  /** A stable sort by printed form, as `sorted(..., key=repr)`. */
  function Insert(p: Printable, c: Canon, sorted: seq<Canon>): seq<Canon> {
    if sorted == [] then [c]
    else if Leq(Repr(p, c), Repr(p, sorted[0])) then [c] + sorted
    else [sorted[0]] + Insert(p, c, sorted[1..])
  }

  function SortByRepr(p: Printable, cs: seq<Canon>): seq<Canon> {
    if cs == [] then [] else Insert(p, cs[0], SortByRepr(p, cs[1..]))
  }

  function Canonical(p: Printable, v: Value): Canon
    decreases v, 1
  {
    match v
    case Number(kind, text) => Atom(kind, text)
    case Text(bytes, chars) => Literal(bytes, chars)
    case Items(isTuple, elements) => Node(if isTuple then TupleShape else ListShape, CanonicalAll(p, elements))
    case Members(frozen, members) =>
      Node(if frozen then FrozenSetShape else SetShape, SortByRepr(p, CanonicalAll(p, members)))
    case Dict(entries) => Node(DictShape, SortByRepr(p, CanonicalEntries(p, entries)))
  }

  function CanonicalAll(p: Printable, vs: seq<Value>): (cs: seq<Canon>)
    ensures |cs| == |vs| && forall i :: 0 <= i < |vs| ==> cs[i] == Canonical(p, vs[i])
    decreases vs, 0
  {
    if vs == [] then [] else [Canonical(p, vs[0])] + CanonicalAll(p, vs[1..])
  }

  function CanonicalEntry(p: Printable, e: Entry): Canon
    decreases e, 0
  {
    match e case Entry(key, value) => Pair(Canonical(p, key), Canonical(p, value))
  }

  function CanonicalEntries(p: Printable, es: seq<Entry>): (cs: seq<Canon>)
    ensures |cs| == |es| && forall i :: 0 <= i < |es| ==> cs[i] == CanonicalEntry(p, es[i])
    decreases es, 0
  {
    if es == [] then [] else [CanonicalEntry(p, es[0])] + CanonicalEntries(p, es[1..])
  }

  /** `_canonical_key`: the printed pair of the function's name and its canonical arguments. */
  function Key(p: Printable, name: string, kwargs: Value): string {
    "(" + Quote(p, false, name) + ", " + Repr(p, Canonical(p, kwargs)) + ")"
  }

  // ---- the printed form is prefix-free --------------------------------------------------------------

  lemma TagsDiffer(c: Canon, d: Canon)
    requires !c.Pair? && !d.Pair? && Tag(c) == Tag(d)
    ensures c.Atom? ==> d.Atom? && c.kind == d.kind
    ensures c.Literal? ==> d.Literal? && c.bytes == d.bytes
    ensures c.Node? ==> d.Node? && c.shape == d.shape
  {
    TagLetters(c);
    TagLetters(d);
  }

  /** Enough of each tag to tell it from the others. */
  lemma TagLetters(c: Canon)
    requires !c.Pair?
    ensures '\'' !in Tag(c)
    ensures Tag(c) != ""
  {
  }

  /** What follows the tag of a tagged form. */
  function Inside(p: Printable, c: Canon): string
    requires !c.Pair?
  {
    match c
    case Atom(_, text) => text
    case Literal(bytes, chars) => Quote(p, bytes, chars)
    case Node(_, kids) => TupleRepr(p, kids)
  }

  lemma TaggedRepr(p: Printable, c: Canon, s: string)
    requires !c.Pair?
    ensures Repr(p, c) + s == "('" + (Tag(c) + ['\''] + (", " + (Inside(p, c) + (")" + s))))
  {
    hide TupleRepr, Quote, Tag;
    assert Repr(p, c) == "('" + Tag(c) + "', " + Inside(p, c) + ")";
    Reassociate("('", Tag(c), Inside(p, c), s);
  }

  lemma Reassociate(open: string, tag: string, inside: string, s: string)
    ensures (open + tag + "', " + inside + ")") + s == open + (tag + ['\''] + (", " + (inside + (")" + s))))
  {
  }

  lemma NumberPrefixFree(x: NumberText, y: NumberText, s: string, t: string)
    requires x + (")" + s) == y + (")" + t)
    ensures x == y && s == t
  {
    var left, right := x + (")" + s), y + (")" + t);
    assert left[0] == x[0] && right[0] == y[0];
    if x[0] == '(' {
      var a, b := x[..|x| - 1], y[..|y| - 1];
      assert x == a + [')'] && y == b + [')'];
      assert left == a + [')'] + (")" + s) && right == b + [')'] + (")" + t);
      UntilChar(a, b, ')', ")" + s, ")" + t);
      assert s == (")" + s)[1..] && t == (")" + t)[1..];
    } else {
      assert left == x + [')'] + s && right == y + [')'] + t;
      UntilChar(x, y, ')', s, t);
    }
  }

  lemma StartsWithParen(p: Printable, c: Canon)
    ensures Repr(p, c) != "" && Repr(p, c)[0] == '('
    ensures c.Pair? ==> |Repr(p, c)| >= 2 && Repr(p, c)[1] == '('
    ensures !c.Pair? ==> |Repr(p, c)| >= 2 && Repr(p, c)[1] == '\''
  {
    if c.Pair? {
      StartsWithParen(p, c.left);
    }
  }

  lemma DropSame(x: string, s: string, t: string)
    requires x + s == x + t
    ensures s == t
  {
    assert s == (x + s)[|x|..] && t == (x + t)[|x|..];
  }

  /** A printed canonical form determines the form and where it ends, whatever follows. */
  lemma {:induction false} ReprPrefixFree(p: Printable, c: Canon, d: Canon, s: string, t: string)
    requires Repr(p, c) + s == Repr(p, d) + t
    ensures c == d && s == t
    decreases c, 1
  {
    StartsWithParen(p, c);
    StartsWithParen(p, d);
    assert (Repr(p, c) + s)[1] == Repr(p, c)[1] && (Repr(p, d) + t)[1] == Repr(p, d)[1];
    if c.Pair? {
      PairPrefixFree(p, c, d, s, t);
    } else {
      TaggedPrefixFree(p, c, d, s, t);
    }
  }

  lemma PairRepr(p: Printable, c: Canon, s: string)
    requires c.Pair?
    ensures Repr(p, c) + s == "(" + (Repr(p, c.left) + (", " + (Repr(p, c.right) + (")" + s))))
  {
    var left, right := Repr(p, c.left), Repr(p, c.right);
    assert Repr(p, c) == "(" + left + ", " + right + ")";
    hide Repr;
    ReassociatePair(left, right, s);
  }

  lemma ReassociatePair(left: string, right: string, s: string)
    ensures ("(" + left + ", " + right + ")") + s == "(" + (left + (", " + (right + (")" + s))))
  {
  }

  lemma {:induction false} PairPrefixFree(p: Printable, c: Canon, d: Canon, s: string, t: string)
    requires c.Pair? && d.Pair? && Repr(p, c) + s == Repr(p, d) + t
    ensures c == d && s == t
    decreases c, 0
  {
    var afterC, afterD := ", " + (Repr(p, c.right) + (")" + s)), ", " + (Repr(p, d.right) + (")" + t));
    PairRepr(p, c, s);
    PairRepr(p, d, t);
    hide Repr;
    DropSame("(", Repr(p, c.left) + afterC, Repr(p, d.left) + afterD);
    ReprPrefixFree(p, c.left, d.left, afterC, afterD);
    DropSame(", ", Repr(p, c.right) + (")" + s), Repr(p, d.right) + (")" + t));
    ReprPrefixFree(p, c.right, d.right, ")" + s, ")" + t);
    DropSame(")", s, t);
  }

  lemma {:induction false} TaggedPrefixFree(p: Printable, c: Canon, d: Canon, s: string, t: string)
    requires !c.Pair? && !d.Pair? && Repr(p, c) + s == Repr(p, d) + t
    ensures c == d && s == t
    decreases c, 0
  {
    var restC, restD := Inside(p, c) + (")" + s), Inside(p, d) + (")" + t);
    TaggedRepr(p, c, s);
    TaggedRepr(p, d, t);
    TagLetters(c);
    TagLetters(d);
    hide Repr, Tag;
    DropSame("('", Tag(c) + ['\''] + (", " + restC), Tag(d) + ['\''] + (", " + restD));
    UntilChar(Tag(c), Tag(d), '\'', ", " + restC, ", " + restD);
    DropSame(", ", restC, restD);
    TagsDiffer(c, d);
    match c
    case Atom(_, text) => NumberPrefixFree(text, d.text, s, t);
    case Literal(bytes, chars) =>
      QuotePrefixFree(p, bytes, chars, d.bytes, d.chars, ")" + s, ")" + t);
      DropSame(")", s, t);
    case Node(_, kids) =>
      TuplePrefixFree(p, kids, d.kids, ")" + s, ")" + t);
      DropSame(")", s, t);
  }

  lemma {:induction false} TuplePrefixFree(p: Printable, cs: seq<Canon>, ds: seq<Canon>, s: string, t: string)
    requires TupleRepr(p, cs) + s == TupleRepr(p, ds) + t
    ensures cs == ds && s == t
    decreases cs, 0
  {
    if cs == [] || ds == [] {
      TupleEmptyOrNot(p, cs, s);
      TupleEmptyOrNot(p, ds, t);
      DropSame("()", s, t);
    } else {
      TupleStart(p, cs, s);
      TupleStart(p, ds, t);
      var afterC, afterD := AfterFirst(p, cs) + s, AfterFirst(p, ds) + t;
      hide TupleRepr, AfterFirst;
      DropSame("(", Repr(p, cs[0]) + afterC, Repr(p, ds[0]) + afterD);
      ReprPrefixFree(p, cs[0], ds[0], afterC, afterD);
      AfterFirstPrefixFree(p, cs, ds, s, t);
    }
  }

  function AfterFirst(p: Printable, cs: seq<Canon>): string
    requires cs != []
  {
    if |cs| == 1 then ",)" else MoreRepr(p, cs[1..])
  }

  lemma EmptyTupleStart(p: Printable, s: string)
    ensures TupleRepr(p, []) + s == "()" + s
    ensures ("()" + s)[1] == ')'
  {
  }

  lemma TupleEmptyOrNot(p: Printable, cs: seq<Canon>, s: string)
    ensures |TupleRepr(p, cs) + s| > 1
    ensures (TupleRepr(p, cs) + s)[1] == if cs == [] then ')' else '('
    ensures cs == [] ==> TupleRepr(p, cs) + s == "()" + s
  {
    hide TupleRepr, Repr;
    if cs == [] {
      EmptyTupleStart(p, s);
    } else {
      TupleStart(p, cs, s);
    }
  }

  lemma TupleStart(p: Printable, cs: seq<Canon>, s: string)
    requires cs != []
    ensures TupleRepr(p, cs) + s == "(" + (Repr(p, cs[0]) + (AfterFirst(p, cs) + s))
    ensures ("(" + (Repr(p, cs[0]) + (AfterFirst(p, cs) + s)))[1] == '('
  {
    StartsWithParen(p, cs[0]);
    var first, after := Repr(p, cs[0]), AfterFirst(p, cs);
    assert TupleRepr(p, cs) == "(" + first + after by {
      hide Repr, MoreRepr;
      if |cs| > 1 {
        assert TupleRepr(p, cs) == "(" + first + MoreRepr(p, cs[1..]);
      } else {
        assert TupleRepr(p, cs) == "(" + first + ",)";
      }
    }
    hide Repr, MoreRepr, TupleRepr, AfterFirst;
    ReassociateFirst(first, after, s);
  }

  lemma ReassociateFirst(first: string, after: string, s: string)
    ensures ("(" + first + after) + s == "(" + (first + (after + s))
  {
  }

  lemma {:induction false} AfterFirstPrefixFree(p: Printable, cs: seq<Canon>, ds: seq<Canon>, s: string, t: string)
    requires cs != [] && ds != [] && cs[0] == ds[0]
    requires AfterFirst(p, cs) + s == AfterFirst(p, ds) + t
    ensures cs == ds && s == t
    decreases cs, 0, 0
  {
    assert cs == [cs[0]] + cs[1..] && ds == [ds[0]] + ds[1..];
    SecondChar(p, cs, s);
    SecondChar(p, ds, t);
    if |cs| == 1 {
      DropSame(",)", s, t);
    } else {
      MorePrefixFree(p, cs[1..], ds[1..], s, t);
    }
  }

  lemma SecondChar(p: Printable, cs: seq<Canon>, s: string)
    requires cs != []
    ensures |AfterFirst(p, cs) + s| >= 2
    ensures (AfterFirst(p, cs) + s)[1] == if |cs| == 1 then ')' else ' '
  {
    hide Repr;
  }

  lemma {:induction false} MorePrefixFree(p: Printable, cs: seq<Canon>, ds: seq<Canon>, s: string, t: string)
    requires MoreRepr(p, cs) + s == MoreRepr(p, ds) + t
    ensures cs == ds && s == t
    decreases cs, 0
  {
    MoreStart(p, cs, s);
    MoreStart(p, ds, t);
    if cs == [] {
      DropSame(")", s, t);
    } else {
      var afterC, afterD := MoreRepr(p, cs[1..]) + s, MoreRepr(p, ds[1..]) + t;
      hide MoreRepr, Repr;
      DropSame(", ", Repr(p, cs[0]) + afterC, Repr(p, ds[0]) + afterD);
      ReprPrefixFree(p, cs[0], ds[0], afterC, afterD);
      MorePrefixFree(p, cs[1..], ds[1..], s, t);
      assert cs == [cs[0]] + cs[1..] && ds == [ds[0]] + ds[1..];
    }
  }

  lemma MoreStart(p: Printable, cs: seq<Canon>, s: string)
    ensures cs == [] ==> MoreRepr(p, cs) + s == ")" + s
    ensures cs != [] ==> MoreRepr(p, cs) + s == ", " + (Repr(p, cs[0]) + (MoreRepr(p, cs[1..]) + s))
    ensures MoreRepr(p, cs) + s != "" && (MoreRepr(p, cs) + s)[0] == if cs == [] then ')' else ','
  {
    hide Repr;
  }

  lemma ReprInjective(p: Printable, c: Canon, d: Canon)
    requires Repr(p, c) == Repr(p, d)
    ensures c == d
  {
    assert Repr(p, c) + "" == Repr(p, c) && Repr(p, d) + "" == Repr(p, d);
    ReprPrefixFree(p, c, d, "", "");
  }

  // ---- sorting forgets the construction order --------------------------------------------------------

  ghost predicate Sorted(p: Printable, cs: seq<Canon>) {
    cs == [] || (First(p, cs[0], cs[1..]) && Sorted(p, cs[1..]))
  }

  ghost predicate First(p: Printable, c: Canon, rest: seq<Canon>) {
    forall d :: d in multiset(rest) ==> Leq(Repr(p, c), Repr(p, d))
  }

  lemma FirstOfSmaller(p: Printable, c: Canon, cs: seq<Canon>)
    requires cs != [] && Leq(Repr(p, c), Repr(p, cs[0]))
    ensures First(p, cs[0], cs[1..]) ==> First(p, c, cs)
  {
    hide Repr, Leq;
    assert cs == [cs[0]] + cs[1..];
    if First(p, cs[0], cs[1..]) {
      forall d | d in multiset(cs) ensures Leq(Repr(p, c), Repr(p, d)) {
        if d != cs[0] {
          LeqTransitive(Repr(p, c), Repr(p, cs[0]), Repr(p, d));
        }
      }
    }
  }

  lemma FirstOfMore(p: Printable, c: Canon, d: Canon, cs: seq<Canon>, more: seq<Canon>)
    requires multiset(more) == multiset{d} + multiset(cs)
    ensures First(p, c, cs) && Leq(Repr(p, c), Repr(p, d)) ==> First(p, c, more)
  {
    hide Repr, Leq;
  }

  lemma {:induction false} InsertSorts(p: Printable, c: Canon, cs: seq<Canon>)
    requires Sorted(p, cs)
    ensures Sorted(p, Insert(p, c, cs))
    ensures multiset(Insert(p, c, cs)) == multiset{c} + multiset(cs)
  {
    hide Repr, Leq, First;
    if cs == [] {
      SingleSorted(p, c);
    } else {
      assert cs == [cs[0]] + cs[1..];
      if Leq(Repr(p, c), Repr(p, cs[0])) {
        FirstOfSmaller(p, c, cs);
        assert ([c] + cs)[1..] == cs;
      } else {
        LeqTotal(Repr(p, c), Repr(p, cs[0]));
        var rest := Insert(p, c, cs[1..]);
        InsertSorts(p, c, cs[1..]);
        FirstOfMore(p, cs[0], c, cs[1..], rest);
        assert ([cs[0]] + rest)[1..] == rest;
      }
    }
  }

  lemma SingleSorted(p: Printable, c: Canon)
    ensures Sorted(p, [c])
  {
    assert [c][1..] == [];
  }

  lemma {:induction false} SortByReprSorts(p: Printable, cs: seq<Canon>)
    ensures Sorted(p, SortByRepr(p, cs))
    ensures multiset(SortByRepr(p, cs)) == multiset(cs)
  {
    if cs != [] {
      SortByReprSorts(p, cs[1..]);
      InsertSorts(p, cs[0], SortByRepr(p, cs[1..]));
      assert cs == [cs[0]] + cs[1..];
    }
  }

  lemma HeadsAgree(p: Printable, cs: seq<Canon>, ds: seq<Canon>)
    requires cs != [] && ds != [] && First(p, cs[0], cs[1..]) && First(p, ds[0], ds[1..])
    requires multiset(cs) == multiset(ds)
    ensures cs[0] == ds[0]
  {
    hide Repr, Leq;
    var c, d := cs[0], ds[0];
    LeqTotal(Repr(p, c), Repr(p, c));
    SplitHead(cs);
    SplitHead(ds);
    assert c in multiset(cs) && d in multiset(ds);
    assert c == d || (c in multiset(ds[1..]) && d in multiset(cs[1..]));
    LeqAntisymmetric(Repr(p, c), Repr(p, d));
    ReprInjective(p, c, d);
  }

  /** The same members in the same order: there is one sorted arrangement, as no two forms print alike. */
  lemma {:induction false} SortedUnique(p: Printable, cs: seq<Canon>, ds: seq<Canon>)
    requires Sorted(p, cs) && Sorted(p, ds) && multiset(cs) == multiset(ds)
    ensures cs == ds
  {
    hide First;
    assert |multiset(cs)| == |cs| && |multiset(ds)| == |ds|;
    if cs != [] {
      HeadsAgree(p, cs, ds);
      SplitHead(cs);
      SplitHead(ds);
      SortedUnique(p, cs[1..], ds[1..]);
      assert cs == [cs[0]] + cs[1..] && ds == [ds[0]] + ds[1..];
    }
  }

  lemma SortedAlike(p: Printable, cs: seq<Canon>, ds: seq<Canon>)
    ensures SortByRepr(p, cs) == SortByRepr(p, ds) <==> multiset(cs) == multiset(ds)
  {
    SortByReprSorts(p, cs);
    SortByReprSorts(p, ds);
    if multiset(cs) == multiset(ds) {
      SortedUnique(p, SortByRepr(p, cs), SortByRepr(p, ds));
    }
  }

  // ---- equal keys, equal calls -------------------------------------------------------------------------

  /** Equal labels come with equal values. */
  ghost predicate Follow<A, B>(labelsX: seq<A>, labelsY: seq<A>, xs: seq<B>, ys: seq<B>) {
    && |labelsX| == |xs| && |labelsY| == |ys|
    && forall i, j :: 0 <= i < |xs| && 0 <= j < |ys| && labelsX[i] == labelsY[j] ==> xs[i] == ys[j]
  }

  lemma FollowWithout<A, B>(labelsX: seq<A>, labelsY: seq<A>, xs: seq<B>, ys: seq<B>, j: nat)
    requires Follow(labelsX, labelsY, xs, ys) && xs != [] && j < |ys|
    ensures Follow(labelsX[1..], Without(labelsY, j), xs[1..], Without(ys, j))
  {
    forall m, n | 0 <= m < |xs| - 1 && 0 <= n < |ys| - 1 && labelsX[1..][m] == Without(labelsY, j)[n]
      ensures xs[1..][m] == Without(ys, j)[n]
    {
      var n' := if n < j then n else n + 1;
      assert labelsX[m + 1] == labelsY[n'];
    }
  }

  /** Equal bags of labels come with equal bags of values. */
  lemma {:induction false} BagsFollowLabels<A, B>(labelsX: seq<A>, labelsY: seq<A>, xs: seq<B>, ys: seq<B>)
    requires Follow(labelsX, labelsY, xs, ys) && multiset(labelsX) == multiset(labelsY)
    ensures multiset(xs) == multiset(ys)
  {
    assert |multiset(labelsX)| == |labelsX| && |multiset(labelsY)| == |labelsY|;
    if xs != [] {
      var x := labelsX[0];
      assert x in multiset(labelsX);
      assert x in labelsY;
      var j :| 0 <= j < |ys| && labelsY[j] == x;
      assert xs[0] == ys[j];
      FollowWithout(labelsX, labelsY, xs, ys, j);
      hide Follow, Without;
      SplitHead(labelsX);
      SplitHead(xs);
      SplitOff(labelsY, j);
      SplitOff(ys, j);
      BagsFollowLabels(labelsX[1..], Without(labelsY, j), xs[1..], Without(ys, j));
    }
  }

  lemma SplitHead<A>(s: seq<A>)
    requires s != []
    ensures multiset(s[1..]) == multiset(s) - multiset{s[0]}
    ensures multiset(s) == multiset(s[1..]) + multiset{s[0]}
  {
    assert s == [s[0]] + s[1..];
  }

  ghost function Without<A>(s: seq<A>, i: nat): seq<A>
    requires i < |s|
  {
    s[..i] + s[i + 1..]
  }

  lemma SplitOff<A>(s: seq<A>, i: nat)
    requires i < |s|
    ensures multiset(Without(s, i)) == multiset(s) - multiset{s[i]}
    ensures multiset(s) == multiset(Without(s, i)) + multiset{s[i]}
  {
    assert s == s[..i] + [s[i]] + s[i + 1..];
  }

  /** The canonical form of a value determines what it means, and the other way round. */
  lemma {:induction false} CanonicalMatchesMeaning(p: Printable, v: Value, w: Value)
    ensures Canonical(p, v) == Canonical(p, w) <==> MeaningOf(v) == MeaningOf(w)
    decreases v, 1
  {
    hide SortByRepr;
    match (v, w)
    case (Items(_, xs), Items(_, ys)) => ElementsMatch(p, xs, ys);
    case (Members(_, xs), Members(_, ys)) => MembersMatch(p, xs, ys);
    case (Dict(xs), Dict(ys)) => EntriesMatch(p, xs, ys);
    case _ =>
  }

  lemma {:induction false} ElementsMatch(p: Printable, xs: seq<Value>, ys: seq<Value>)
    ensures CanonicalAll(p, xs) == CanonicalAll(p, ys) <==> MeaningsOf(xs) == MeaningsOf(ys)
    decreases xs, 0
  {
    hide Canonical, MeaningOf;
    if |xs| == |ys| {
      forall i | 0 <= i < |xs|
        ensures CanonicalAll(p, xs)[i] == CanonicalAll(p, ys)[i] <==> MeaningsOf(xs)[i] == MeaningsOf(ys)[i]
      {
        CanonicalMatchesMeaning(p, xs[i], ys[i]);
      }
    }
  }

  lemma {:induction false} MembersMatch(p: Printable, xs: seq<Value>, ys: seq<Value>)
    ensures SortByRepr(p, CanonicalAll(p, xs)) == SortByRepr(p, CanonicalAll(p, ys))
            <==> multiset(MeaningsOf(xs)) == multiset(MeaningsOf(ys))
    decreases xs, 0
  {
    hide Canonical, MeaningOf, SortByRepr;
    var cs, ds, ms, ns := CanonicalAll(p, xs), CanonicalAll(p, ys), MeaningsOf(xs), MeaningsOf(ys);
    SortedAlike(p, cs, ds);
    forall i, j | 0 <= i < |xs| && 0 <= j < |ys| ensures cs[i] == ds[j] <==> ms[i] == ns[j] {
      CanonicalMatchesMeaning(p, xs[i], ys[j]);
    }
    BagsAgree(cs, ds, ms, ns);
  }

  lemma {:induction false} EntriesMatch(p: Printable, xs: seq<Entry>, ys: seq<Entry>)
    ensures SortByRepr(p, CanonicalEntries(p, xs)) == SortByRepr(p, CanonicalEntries(p, ys))
            <==> multiset(EntryMeanings(xs)) == multiset(EntryMeanings(ys))
    decreases xs, 0
  {
    hide CanonicalEntry, EntryMeaning, SortByRepr;
    var cs, ds, ms, ns := CanonicalEntries(p, xs), CanonicalEntries(p, ys), EntryMeanings(xs), EntryMeanings(ys);
    SortedAlike(p, cs, ds);
    forall i, j | 0 <= i < |xs| && 0 <= j < |ys| ensures cs[i] == ds[j] <==> ms[i] == ns[j] {
      EntryMatches(p, xs[i], ys[j]);
    }
    BagsAgree(cs, ds, ms, ns);
  }

  lemma {:induction false} EntryMatches(p: Printable, e: Entry, f: Entry)
    ensures CanonicalEntry(p, e) == CanonicalEntry(p, f) <==> EntryMeaning(e) == EntryMeaning(f)
    decreases e, 0
  {
    match (e, f)
    case (Entry(key, value), Entry(otherKey, otherValue)) =>
      CanonicalMatchesMeaning(p, key, otherKey);
      CanonicalMatchesMeaning(p, value, otherValue);
  }

  lemma BagsAgree<A, B>(cs: seq<A>, ds: seq<A>, ms: seq<B>, ns: seq<B>)
    requires |cs| == |ms| && |ds| == |ns|
    requires forall i, j :: 0 <= i < |cs| && 0 <= j < |ds| ==> (cs[i] == ds[j] <==> ms[i] == ns[j])
    ensures multiset(cs) == multiset(ds) <==> multiset(ms) == multiset(ns)
  {
    if multiset(cs) == multiset(ds) {
      BagsFollowLabels(cs, ds, ms, ns);
    }
    if multiset(ms) == multiset(ns) {
      BagsFollowLabels(ms, ns, cs, ds);
    }
  }

  /** Two calls share a claim key exactly when they name the same function and their arguments mean the same:
      type by type, element by element, up to the order of dict entries and set members. */
  lemma KeyIdentity(p: Printable, name: string, kwargs: Value, otherName: string, otherKwargs: Value)
    ensures Key(p, name, kwargs) == Key(p, otherName, otherKwargs)
            <==> name == otherName && MeaningOf(kwargs) == MeaningOf(otherKwargs)
  {
    var c, d := Canonical(p, kwargs), Canonical(p, otherKwargs);
    CanonicalMatchesMeaning(p, kwargs, otherKwargs);
    hide Canonical, MeaningOf, Repr, Quote;
    if Key(p, name, kwargs) == Key(p, otherName, otherKwargs) {
      KeyLayout(Quote(p, false, name), Repr(p, c));
      KeyLayout(Quote(p, false, otherName), Repr(p, d));
      DropSame("(", Quote(p, false, name) + (", " + (Repr(p, c) + ")")),
               Quote(p, false, otherName) + (", " + (Repr(p, d) + ")")));
      QuotePrefixFree(p, false, name, false, otherName, ", " + (Repr(p, c) + ")"), ", " + (Repr(p, d) + ")"));
      DropSame(", ", Repr(p, c) + ")", Repr(p, d) + ")");
      ReprPrefixFree(p, c, d, ")", ")");
    }
  }

  lemma KeyLayout(name: string, kwargs: string)
    ensures "(" + name + ", " + kwargs + ")" == "(" + (name + (", " + (kwargs + ")")))
  {
  }
}
