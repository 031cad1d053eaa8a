/** Limiting tool output to a number of characters, the truncation marker included. */
module Truncation {

  /** `str` of a number. */
  function Decimal(n: nat): (digits: string)
    ensures digits != ""
  {
    if n < 10 then [Digit(n)] else Decimal(n / 10) + [Digit(n % 10)]
  }

  function Digit(n: nat): char
    requires n < 10
  {
    ('0' as int + n) as char
  }

  /** The number a text of digits stands for. */
  function Parse(digits: string): int {
    if digits == "" then 0 else 10 * Parse(digits[..|digits| - 1]) + (digits[|digits| - 1] as int - '0' as int)
  }

  lemma {:induction false} ParseDecimal(n: nat)
    ensures Parse(Decimal(n)) == n
  {
    if n >= 10 {
      ParseDecimal(n / 10);
      assert Decimal(n)[..|Decimal(n)| - 1] == Decimal(n / 10);
    } else {
      assert [Digit(n)][..0] == "";
    }
  }

  const BEFORE: string := "[... output truncated, showing last "
  const AFTER: string := " chars]\n"

  function Marker(n: nat): (marker: string)
    ensures |marker| == 44 + |Decimal(n)|
  {
    BEFORE + Decimal(n) + AFTER
  }

  function Last(text: string, n: nat): string
    requires n <= |text|
  {
    text[|text| - n..]
  }

  /** How many characters fit behind their marker. */
  function TailChars(cap: nat): nat {
    var first := if cap > |Marker(cap)| then cap - |Marker(cap)| else 0;
    if first + 1 + |Marker(first + 1)| <= cap then first + 1 else first
  }

  function TruncateTail(text: string, cap: int): string {
    if cap <= 0 then ""
    else if |text| <= cap then text
    else
      var n := TailChars(cap);
      if n == 0 then Last(text, cap) else Marker(n) + Last(text, n)
  }

  // ---- digits ---------------------------------------------------------------------------------------------------

  lemma {:induction false} DigitsMonotone(m: nat, n: nat)
    requires m <= n
    ensures |Decimal(m)| <= |Decimal(n)|
  {
    if n >= 10 {
      DigitsMonotone(m / 10, n / 10);
    }
  }

  lemma {:induction false} FewDigits(n: nat)
    ensures |Decimal(n)| <= n / 100 + 2
  {
    if n >= 100 {
      FewDigits(n / 10);
    }
  }

  /** Taking the marker off a cap costs it at most one digit. */
  lemma AtMostOneDigitLess(cap: nat, n: nat)
    requires n + 44 + |Decimal(cap)| >= cap + 2
    ensures |Decimal(cap)| <= |Decimal(n)| + 1
  {
    if cap >= 100 {
      FewDigits(cap);
      assert n >= cap / 10;
      DigitsMonotone(cap / 10, n);
    }
  }

  /** A longer tail with its marker is longer. */
  predicate TailFits(cap: nat, n: nat) {
    |Marker(n)| + n <= cap
  }

  /** The tail computed is the longest that fits, though the marker grows with the digits of its length; it is 0 when
      none does. */
  lemma TailCharsIsBest(cap: nat)
    ensures TailChars(cap) > 0 ==> TailFits(cap, TailChars(cap))
    ensures forall n :: n > TailChars(cap) ==> !TailFits(cap, n)
  {
    var first := if cap > |Marker(cap)| then cap - |Marker(cap)| else 0;
    if first > 0 {
      DigitsMonotone(first, cap);
    }
    forall n | n > TailChars(cap) ensures !TailFits(cap, n) {
      if n >= first + 2 {
        DigitsMonotone(first + 2, n);
        AtMostOneDigitLess(cap, first + 2);
      }
    }
  }

  /** The output stays within the cap. A marker states exactly how many characters follow it, and those are the last
      ones of the text; no longer tail would fit behind its own marker. Without room for a marker and a character
      the output is a bare tail that fills the cap. */
  lemma TruncateTailIsBest(text: string, cap: int)
    ensures var out := TruncateTail(text, cap);
            && (cap <= 0 ==> out == "")
            && (0 <= cap ==> |out| <= cap)
            && (|text| <= cap && cap > 0 ==> out == text)
            && (|text| > cap > 0 ==>
                  if exists n: nat :: n > 0 && TailFits(cap, n) then
                    exists n: nat :: 0 < n <= |text| && out == Marker(n) + Last(text, n) && TailFits(cap, n)
                                     && forall k: nat :: k > n ==> !TailFits(cap, k)
                  else out == Last(text, cap))
  {
    if |text| > cap > 0 {
      TailCharsIsBest(cap);
      var n := TailChars(cap);
      if n > 0 {
        assert TailFits(cap, n);
        assert TruncateTail(text, cap) == Marker(n) + Last(text, n);
      }
    }
  }

  /** The marker can be read back: it starts with the number of characters behind it. */
  lemma MarkerTellsLength(n: nat)
    ensures var marker := Marker(n); Parse(marker[|BEFORE|..|marker| - |AFTER|]) == n
  {
    ParseDecimal(n);
    assert Marker(n)[|BEFORE|..|Marker(n)| - |AFTER|] == Decimal(n);
  }

  // ---- the head ----------------------------------------------------------------------------------------------------

  const HEAD_BEFORE: string := "\n[... page text truncated at "
  const HEAD_AFTER: string := " characters]"

  function HeadMarker(cap: int): string {
    HEAD_BEFORE + (if cap < 0 then "-" + Decimal(-cap) else Decimal(cap)) + HEAD_AFTER
  }

  function TruncateHead(text: string, cap: int): string {
    if |text| <= cap then text
    else
      var marker := HeadMarker(cap);
      text[..if cap > |marker| then cap - |marker| else 0] + marker
  }

  /** A text within the cap is returned as it is. Of a longer one the first characters are kept, as many as fit in front
      of the marker, which states the cap. */
  lemma TruncateHeadIsBest(text: string, cap: int)
    ensures var out, marker := TruncateHead(text, cap), HeadMarker(cap);
            && (|text| <= cap ==> out == text)
            && (|text| > cap ==>
                  exists n: nat :: n <= |text| && out == text[..n] + marker && (|marker| <= cap ==> |out| == cap)
                                   && (|marker| > cap ==> n == 0))
  {
    var marker := HeadMarker(cap);
    if |text| > cap {
      var n: nat := if cap > |marker| then cap - |marker| else 0;
      assert TruncateHead(text, cap) == text[..n] + marker;
    }
  }

  /** Its marker states the cap. */
  lemma HeadMarkerTellsCap(cap: nat)
    ensures var marker := HeadMarker(cap); Parse(marker[|HEAD_BEFORE|..|marker| - |HEAD_AFTER|]) == cap
  {
    ParseDecimal(cap);
    assert HeadMarker(cap)[|HEAD_BEFORE|..|HeadMarker(cap)| - |HEAD_AFTER|] == Decimal(cap);
  }

  /** The output stays within the cap exactly when the text does or the cap holds the marker, which is never cut. */
  lemma TruncateHeadWithinCap(text: string, cap: int)
    ensures |TruncateHead(text, cap)| <= cap <==> |text| <= cap || |HeadMarker(cap)| <= cap
    ensures |text| > cap >= |HeadMarker(cap)| ==>
              |TruncateHead(text, cap)| == cap && HeadMarker(cap) == TruncateHead(text, cap)[cap - |HeadMarker(cap)|..]
  {
  }
}
