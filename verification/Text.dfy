/** Python's view of white space, and the few string operations the services use. */
module Text {

  /** The characters `str.strip()` removes. */
  predicate IsSpace(c: char) {
    || '\t' <= c <= '\r' || '\U{1c}' <= c <= ' '
    || c == '\U{85}' || c == '\U{a0}' || c == '\U{1680}'
    || '\U{2000}' <= c <= '\U{200a}'
    || c == '\U{2028}' || c == '\U{2029}' || c == '\U{202f}' || c == '\U{205f}' || c == '\U{3000}'
  }

  function LeftStrip(s: string): string {
    if s != [] && IsSpace(s[0]) then LeftStrip(s[1..]) else s
  }

  function RightStrip(s: string): string {
    if s != [] && IsSpace(s[|s| - 1]) then RightStrip(s[..|s| - 1]) else s
  }

  function Strip(s: string): string {
    RightStrip(LeftStrip(s))
  }

  predicate EndsWith(s: string, suffix: string) {
    |suffix| <= |s| && s[|s| - |suffix|..] == suffix
  }

  predicate StandsAt(s: string, part: string, i: nat) {
    i + |part| <= |s| && s[i..i + |part|] == part
  }

  predicate Contains(s: string, part: string) {
    exists i: nat :: i <= |s| && StandsAt(s, part, i)
  }

  predicate TrailingSpace(s: string) {
    s != [] && IsSpace(s[|s| - 1])
  }

  lemma {:induction false} RightStripEnds(s: string)
    ensures !TrailingSpace(RightStrip(s))
    ensures RightStrip(s) <= s
    ensures !TrailingSpace(s) ==> RightStrip(s) == s
  {
    if TrailingSpace(s) {
      RightStripEnds(s[..|s| - 1]);
    }
  }

  /** Text that starts with a visible character only loses trailing white space. */
  lemma VisibleStart(s: string)
    requires s != [] && !IsSpace(s[0])
    ensures Strip(s) != [] && Strip(s) <= s
    ensures !TrailingSpace(Strip(s))
    ensures !TrailingSpace(s) ==> Strip(s) == s
  {
    RightStripEnds(s);
    RightStripKeepsStart(s);
  }

  lemma {:induction false} RightStripKeepsStart(s: string)
    requires s != [] && !IsSpace(s[0])
    ensures RightStrip(s) != []
  {
    if TrailingSpace(s) {
      RightStripKeepsStart(s[..|s| - 1]);
    }
  }

  lemma ContainsPart(before: string, part: string, after: string)
    ensures Contains(before + part + after, part)
  {
    var s := before + part + after;
    assert s[|before|..|before| + |part|] == part;
    assert StandsAt(s, part, |before|);
  }

  lemma {:induction false} LeftStripStarts(s: string)
    ensures LeftStrip(s) != [] ==> !IsSpace(LeftStrip(s)[0])
  {
    if s != [] && IsSpace(s[0]) {
      LeftStripStarts(s[1..]);
    }
  }

  /** Stripped text has no white space at either end, so stripping again changes nothing. */
  lemma StripTwice(s: string)
    ensures Strip(Strip(s)) == Strip(s)
  {
    var left := LeftStrip(s);
    LeftStripStarts(s);
    RightStripEnds(left);
    if left != [] {
      RightStripKeepsStart(left);
      VisibleStart(RightStrip(left));
    }
  }

  /** Stripping cuts white space, and only that, off both ends. */
  lemma StripIsTheMiddle(s: string)
    ensures exists a, b :: 0 <= a <= b <= |s| && Middle(s, a, b) && Strip(s) == s[a..b]
  {
    var a := LeftBlank(s);
    var left := LeftStrip(s);
    LeftStripStarts(s);
    RightStripEnds(left);
    RightStripCuts(left);
    var b := a + |RightStrip(left)|;
    assert s[a..b] == RightStrip(left);
    if a < b {
      RightStripKeepsStart(left);
    }
    assert forall i :: b <= i < |s| ==> s[i] == left[i - a];
    assert Middle(s, a, b);
  }

  /** Everything outside is white space, and neither end of the inside is. */
  predicate Middle(s: string, a: nat, b: nat)
    requires a <= b <= |s|
  {
    && (forall i :: 0 <= i < |s| && !(a <= i < b) ==> IsSpace(s[i]))
    && (a < b ==> !IsSpace(s[a]) && !IsSpace(s[b - 1]))
  }

  lemma {:induction false} LeftBlank(s: string) returns (a: nat)
    ensures a <= |s| && LeftStrip(s) == s[a..] && forall i :: 0 <= i < a ==> IsSpace(s[i])
  {
    if s != [] && IsSpace(s[0]) {
      a := LeftBlank(s[1..]);
      assert forall i :: 0 < i < a + 1 ==> s[i] == s[1..][i - 1];
      a := a + 1;
    } else {
      a := 0;
    }
  }

  lemma {:induction false} RightStripCuts(s: string)
    ensures |RightStrip(s)| <= |s| && forall i :: |RightStrip(s)| <= i < |s| ==> IsSpace(s[i])
  {
    if TrailingSpace(s) {
      RightStripCuts(s[..|s| - 1]);
    }
  }

  // ---- decimal numbers ----

  predicate IsDigit(c: char) {
    '0' <= c <= '9'
  }

  function Number(digits: string): nat
    requires forall i :: 0 <= i < |digits| ==> IsDigit(digits[i])
  {
    if digits == [] then 0
    else
      var last := digits[|digits| - 1];
      assert IsDigit(last);
      Number(digits[..|digits| - 1]) * 10 + (last as int - '0' as int)
  }

  function DigitsAt(s: string): (n: nat)
    ensures n <= |s| && forall i :: 0 <= i < n ==> IsDigit(s[i])
    ensures n < |s| ==> !IsDigit(s[n])
  {
    if s == [] || !IsDigit(s[0]) then 0 else 1 + DigitsAt(s[1..])
  }

  /** The decimal numeral of `n`. */
  function Decimal(n: nat): string {
    if n < 10 then [Digit(n)] else Decimal(n / 10) + [Digit(n % 10)]
  }

  function Digit(n: nat): (c: char)
    requires n < 10
    ensures IsDigit(c) && c as int == '0' as int + n
  {
    ('0' as int + n) as char
  }

  lemma {:induction false} DecimalReadsBack(n: nat)
    ensures Decimal(n) != [] && forall i :: 0 <= i < |Decimal(n)| ==> IsDigit(Decimal(n)[i])
    ensures Number(Decimal(n)) == n
  {
    if n >= 10 {
      DecimalReadsBack(n / 10);
      assert Decimal(n)[..|Decimal(n)| - 1] == Decimal(n / 10);
    }
  }

  lemma {:induction false} DigitsEndThere(digits: string, rest: string)
    requires (forall i :: 0 <= i < |digits| ==> IsDigit(digits[i])) && (rest == [] || !IsDigit(rest[0]))
    ensures DigitsAt(digits + rest) == |digits|
  {
    if digits == [] {
      assert digits + rest == rest;
    } else {
      DigitsEndThere(digits[1..], rest);
      assert (digits + rest)[1..] == digits[1..] + rest;
    }
  }
}
