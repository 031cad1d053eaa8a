/** How Python prints string literals and compares strings: enough to know that a printed string ends where it
    ends, whatever follows it. */
module PythonRepr {

  /** `str.isprintable` for one character, or the printable ASCII range for a byte. */
  type Printable = (bool, char) -> bool

  function HexDigit(n: nat): (digit: char)
    requires n < 16
  {
    "0123456789abcdef"[n]
  }

  function Pow16(width: nat): nat {
    if width == 0 then 1 else 16 * Pow16(width - 1)
  }

  function Hex(n: nat, width: nat): (digits: string)
    ensures |digits| == width
  {
    if width == 0 then "" else Hex(n / 16, width - 1) + [HexDigit(n % 16)]
  }

  lemma HexDigitInjective(a: nat, b: nat)
    requires a < 16 && b < 16 && HexDigit(a) == HexDigit(b)
    ensures a == b
  {
    var digits := "0123456789abcdef";
    assert digits[0] == '0' && digits[1] == '1' && digits[2] == '2' && digits[3] == '3' && digits[4] == '4';
    assert digits[5] == '5' && digits[6] == '6' && digits[7] == '7' && digits[8] == '8' && digits[9] == '9';
    assert digits[10] == 'a' && digits[11] == 'b' && digits[12] == 'c' && digits[13] == 'd' && digits[14] == 'e';
    assert digits[15] == 'f';
  }

  lemma {:induction false} HexInjective(a: nat, b: nat, width: nat)
    requires a < Pow16(width) && b < Pow16(width) && Hex(a, width) == Hex(b, width)
    ensures a == b
  {
    if width > 0 {
      var x, y := Hex(a, width), Hex(b, width);
      assert x[width - 1] == HexDigit(a % 16) && y[width - 1] == HexDigit(b % 16);
      HexDigitInjective(a % 16, b % 16);
      assert x[..width - 1] == Hex(a / 16, width - 1) && y[..width - 1] == Hex(b / 16, width - 1);
      HexInjective(a / 16, b / 16, width - 1);
    }
  }

  /** One character inside a literal quoted with `q`. */
  function Escape(p: Printable, bytes: bool, q: char, c: char): string {
    if c == '\\' then "\\\\"
    else if c == q then ['\\', q]
    else if c == '\n' then "\\n"
    else if c == '\r' then "\\r"
    else if c == '\t' then "\\t"
    else if p(bytes, c) then [c]
    else if c as int < 0x100 then "\\x" + Hex(c as int, 2)
    else if c as int < 0x10000 then "\\u" + Hex(c as int, 4)
    else "\\U" + Hex(c as int, 8)
  }

  function EscapeAll(p: Printable, bytes: bool, q: char, chars: string): string {
    if chars == "" then "" else Escape(p, bytes, q, chars[0]) + EscapeAll(p, bytes, q, chars[1..])
  }

  function QuoteChar(chars: string): char {
    if '\'' in chars && '"' !in chars then '"' else '\''
  }

  /** `repr` of a `str` or `bytes` value. */
  function Quote(p: Printable, bytes: bool, chars: string): string {
    var q := QuoteChar(chars);
    Opening(bytes) + [q] + EscapeAll(p, bytes, q, chars) + [q]
  }

  ghost predicate IsQuote(q: char) {
    q == '\'' || q == '"'
  }

  /** The width of the hexadecimal part of an escape, 0 when there is none. */
  function HexWidth(p: Printable, bytes: bool, q: char, c: char): nat {
    if c == '\\' || c == q || c == '\n' || c == '\r' || c == '\t' || p(bytes, c) then 0
    else if c as int < 0x100 then 2 else if c as int < 0x10000 then 4 else 8
  }

  lemma Pow16s()
    ensures Pow16(2) == 0x100 && Pow16(4) == 0x1_0000 && Pow16(8) == 0x1_0000_0000
  {
    assert Pow16(4) == 16 * (16 * Pow16(2));
    assert Pow16(8) == 16 * (16 * (16 * (16 * Pow16(4))));
  }

  lemma EscapeShape(p: Printable, bytes: bool, q: char, c: char)
    requires IsQuote(q)
    ensures var e, w := Escape(p, bytes, q, c), HexWidth(p, bytes, q, c);
            && e != "" && e[0] != q
            && (w > 0 ==> |e| == 2 + w && e[2..] == Hex(c as int, w) && (c as int) < Pow16(w))
            && (w > 0 ==> e[0] == '\\' && e[1] == if w == 2 then 'x' else if w == 4 then 'u' else 'U')
            && (w == 0 && e[0] == '\\' ==> |e| == 2 && e[1] != 'x' && e[1] != 'u' && e[1] != 'U')
            && (w == 0 && e[0] != '\\' ==> e == [c])
  {
    Pow16s();
  }

  lemma EscapePrefixFree(p: Printable, bytes: bool, q: char, c: char, d: char, s: string, t: string)
    requires IsQuote(q) && Escape(p, bytes, q, c) + s == Escape(p, bytes, q, d) + t
    ensures c == d && s == t
  {
    var e, f := Escape(p, bytes, q, c), Escape(p, bytes, q, d);
    var v, w := HexWidth(p, bytes, q, c), HexWidth(p, bytes, q, d);
    EscapeShape(p, bytes, q, c);
    EscapeShape(p, bytes, q, d);
    assert (e + s)[0] == e[0] && (f + t)[0] == f[0];
    if e[0] == '\\' {
      assert (e + s)[1] == e[1] && (f + t)[1] == f[1];
      assert v == w;
    }
    assert |e| == |f|;
    assert e == (e + s)[..|e|] && f == (f + t)[..|f|];
    assert s == (e + s)[|e|..] && t == (f + t)[|f|..];
    if v > 0 {
      HexInjective(c as int, d as int, v);
    }
  }

  /** The rest of a literal from `chars` on, its closing quote, and what follows. */
  function Closing(p: Printable, bytes: bool, q: char, chars: string, rest: string): string {
    EscapeAll(p, bytes, q, chars) + [q] + rest
  }

  /** Inside a literal, the closing quote cannot be mistaken for an escaped character. */
  lemma ClosingStep(p: Printable, bytes: bool, q: char, x: string, rest: string)
    requires x != ""
    ensures Closing(p, bytes, q, x, rest) == Escape(p, bytes, q, x[0]) + Closing(p, bytes, q, x[1..], rest)
  {
    hide Escape;
    var head, body := Escape(p, bytes, q, x[0]), EscapeAll(p, bytes, q, x[1..]);
    assert EscapeAll(p, bytes, q, x) == head + body;
    assert (head + body) + [q] + rest == head + (body + [q] + rest);
  }

  lemma ClosingEnd(p: Printable, bytes: bool, q: char, rest: string)
    ensures Closing(p, bytes, q, "", rest) == [q] + rest
  {
  }

  lemma EndIsNotEscape(p: Printable, bytes: bool, q: char, c: char, s: string, t: string)
    requires IsQuote(q)
    ensures [q] + s != Escape(p, bytes, q, c) + t
  {
    EscapeShape(p, bytes, q, c);
    hide Escape;
    assert ([q] + s)[0] == q && (Escape(p, bytes, q, c) + t)[0] == Escape(p, bytes, q, c)[0];
  }

  lemma {:induction false} EscapeAllPrefixFree(p: Printable, bytes: bool, q: char, x: string, y: string, s: string,
      t: string)
    requires IsQuote(q) && Closing(p, bytes, q, x, s) == Closing(p, bytes, q, y, t)
    ensures x == y && s == t
    decreases |x|
  {
    hide Escape, EscapeAll, Closing;
    if x == "" && y == "" {
      ClosingEnd(p, bytes, q, s);
      ClosingEnd(p, bytes, q, t);
      assert s == ([q] + s)[1..] && t == ([q] + t)[1..];
    } else if x == "" {
      ClosingEnd(p, bytes, q, s);
      ClosingStep(p, bytes, q, y, t);
      EndIsNotEscape(p, bytes, q, y[0], s, Closing(p, bytes, q, y[1..], t));
    } else if y == "" {
      ClosingEnd(p, bytes, q, t);
      ClosingStep(p, bytes, q, x, s);
      EndIsNotEscape(p, bytes, q, x[0], t, Closing(p, bytes, q, x[1..], s));
    } else {
      ClosingStep(p, bytes, q, x, s);
      ClosingStep(p, bytes, q, y, t);
      EscapePrefixFree(p, bytes, q, x[0], y[0], Closing(p, bytes, q, x[1..], s), Closing(p, bytes, q, y[1..], t));
      EscapeAllPrefixFree(p, bytes, q, x[1..], y[1..], s, t);
      assert x == [x[0]] + x[1..] && y == [y[0]] + y[1..];
    }
  }

  function Opening(bytes: bool): string {
    if bytes then "b" else ""
  }

  lemma OpeningPrefixFree(bytesX: bool, bytesY: bool, q: char, r: char, s: string, t: string)
    requires IsQuote(q) && IsQuote(r) && Opening(bytesX) + [q] + s == Opening(bytesY) + [r] + t
    ensures bytesX == bytesY && q == r && s == t
  {
    var left, right := Opening(bytesX) + [q] + s, Opening(bytesY) + [r] + t;
    assert left[0] == (if bytesX then 'b' else q) && right[0] == (if bytesY then 'b' else r);
    var skip := |Opening(bytesX)|;
    assert left[skip] == q && right[skip] == r;
    assert s == left[skip + 1..] && t == right[skip + 1..];
  }

  /** A printed literal determines its value and where it ends. */
  lemma QuotePrefixFree(p: Printable, bytesX: bool, x: string, bytesY: bool, y: string, s: string, t: string)
    requires Quote(p, bytesX, x) + s == Quote(p, bytesY, y) + t
    ensures bytesX == bytesY && x == y && s == t
  {
    var q, r := QuoteChar(x), QuoteChar(y);
    var bodyX, bodyY := Closing(p, bytesX, q, x, s), Closing(p, bytesY, r, y, t);
    assert Quote(p, bytesX, x) + s == Opening(bytesX) + [q] + bodyX;
    assert Quote(p, bytesY, y) + t == Opening(bytesY) + [r] + bodyY;
    hide EscapeAll, Quote;
    OpeningPrefixFree(bytesX, bytesY, q, r, bodyX, bodyY);
    EscapeAllPrefixFree(p, bytesX, q, x, y, s, t);
  }

  /** Text up to the first occurrence of a character it does not contain. */
  lemma {:induction false} UntilChar(x: string, y: string, stop: char, s: string, t: string)
    requires stop !in x && stop !in y && x + [stop] + s == y + [stop] + t
    ensures x == y && s == t
  {
    var left, right := x + [stop] + s, y + [stop] + t;
    assert left[|x|] == stop && right[|y|] == stop;
    assert x == left[..|x|] && y == right[..|y|];
    assert |x| == |y|;
    assert s == left[|x| + 1..] && t == right[|y| + 1..];
  }

  // ---- string order ---------------------------------------------------------------------------

  predicate Leq(a: string, b: string) {
    a == "" || (b != "" && (a[0] < b[0] || (a[0] == b[0] && Leq(a[1..], b[1..]))))
  }

  lemma {:induction false} LeqTotal(a: string, b: string)
    ensures Leq(a, b) || Leq(b, a)
  {
    if a != "" && b != "" && a[0] == b[0] {
      LeqTotal(a[1..], b[1..]);
    }
  }

  lemma {:induction false} LeqAntisymmetric(a: string, b: string)
    requires Leq(a, b) && Leq(b, a)
    ensures a == b
  {
    if a != "" && b != "" {
      LeqAntisymmetric(a[1..], b[1..]);
      assert a == [a[0]] + a[1..] && b == [b[0]] + b[1..];
    }
  }

  lemma {:induction false} LeqTransitive(a: string, b: string, c: string)
    requires Leq(a, b) && Leq(b, c)
    ensures Leq(a, c)
  {
    if a != "" && a[0] == b[0] && b[0] == c[0] {
      LeqTransitive(a[1..], b[1..], c[1..]);
    }
  }
}
