/** Decimal text for integers, in both directions.

    - `IntToString` is how a JavaScript template literal renders an integral
      Number (`${n}`): an optional minus sign and the digits, without leading zeros.
    - `ParseInt` is `parseInt(s, 10)` as section 19.2.5 of ECMA-262 defines it:
      skip leading white space, read an optional sign and then the longest run of
      decimal digits, ignore whatever follows, and give NaN (`None`) when the run
      is empty.
    - `TimerText` is the `M:SS` format of the countdown display. */
module Decimal {
  import opened Wrappers

  predicate IsDigit(c: char) {
    '0' <= c <= '9'
  }

  /** The white space that `parseInt` skips, restricted to ASCII: tab, line feed,
      vertical tab, form feed, carriage return and space. */
  predicate IsSpace(c: char) {
    c == '\t' || c == '\n' || c == '\U{B}' || c == '\U{C}' || c == '\r' || c == ' '
  }

  predicate AllDigits(s: string) {
    forall i :: 0 <= i < |s| ==> IsDigit(s[i])
  }

  predicate AllSpace(s: string) {
    forall i :: 0 <= i < |s| ==> IsSpace(s[i])
  }

  /** True when `s` cannot continue a run of digits. */
  predicate StopsDigits(s: string) {
    |s| == 0 || !IsDigit(s[0])
  }

  function DigitChar(d: nat): (c: char)
    requires d < 10
    ensures IsDigit(c)
  {
    "0123456789"[d]
  }

  function DigitValue(c: char): (d: nat)
    requires IsDigit(c)
    ensures d < 10
  {
    (c as int - '0' as int) as nat
  }

  lemma DigitValueOfChar(d: nat)
    requires d < 10
    ensures DigitValue(DigitChar(d)) == d
  {
  }

  /** The decimal digits of `n`, most significant first, without leading zeros. */
  function NatToString(n: nat): (s: string)
    decreases n
  {
    if n < 10 then [DigitChar(n)] else NatToString(n / 10) + [DigitChar(n % 10)]
  }

  function IntToString(n: int): string {
    if n < 0 then "-" + NatToString(-n) else NatToString(n)
  }

  /** The number a string of digits denotes, most significant digit first. */
  function DigitsValue(s: string): nat
    requires AllDigits(s)
    decreases |s|
  {
    if |s| == 0 then 0 else DigitsValue(s[..|s| - 1]) * 10 + DigitValue(s[|s| - 1])
  }

  /** The length of the longest run of digits at the start of `s`. */
  function DigitRun(s: string): (k: nat)
    ensures k <= |s|
    ensures AllDigits(s[..k])
    ensures StopsDigits(s[k..])
    decreases |s|
  {
    if |s| == 0 || !IsDigit(s[0]) then 0
    else
      var k := 1 + DigitRun(s[1..]);
      assert s[1..][..k - 1] == s[1..k];
      assert s[1..][k - 1..] == s[k..];
      k
  }

  /** `s` without its leading white space. */
  function SkipSpace(s: string): (t: string)
    ensures StopsSpace(t)
    decreases |s|
  {
    if |s| > 0 && IsSpace(s[0]) then SkipSpace(s[1..]) else s
  }

  predicate StopsSpace(s: string) {
    |s| == 0 || !IsSpace(s[0])
  }

  /** The longest run of digits at the start of `s`, read as a number;
      `None` when `s` does not start with a digit. */
  function ParseDigits(s: string): Option<nat> {
    var k := DigitRun(s);
    if k == 0 then None else Some(DigitsValue(s[..k]))
  }

  /** `parseInt(s, 10)`; `None` is NaN. */
  function ParseInt(s: string): Option<int> {
    ParseSigned(SkipSpace(s))
  }

  /** The sign and the digits, once the white space has been skipped. */
  function ParseSigned(t: string): Option<int> {
    if |t| > 0 && (t[0] == '-' || t[0] == '+') then ApplySign(t[0] == '-', ParseDigits(t[1..]))
    else ApplySign(false, ParseDigits(t))
  }

  function ApplySign(negative: bool, magnitude: Option<nat>): Option<int> {
    if magnitude.None? then None
    else if negative then Some(-(magnitude.value as int))
    else Some(magnitude.value)
  }

  /** `n.toString().padStart(2, '0')` for a number below 60. */
  function Pad2(n: nat): string
    requires n < 60
  {
    if n < 10 then "0" + NatToString(n) else NatToString(n)
  }

  /** The countdown display: whole minutes, a colon, and the seconds in two digits. */
  function TimerText(t: nat): string {
    NatToString(t / 60) + ":" + Pad2(t % 60)
  }

  // ---------------------------------------------------------------------------
  // Properties of the rendering

  lemma {:induction false} NatToStringDigits(n: nat)
    ensures |NatToString(n)| > 0
    ensures AllDigits(NatToString(n))
    ensures DigitsValue(NatToString(n)) == n
    decreases n
  {
    if n < 10 {
      DigitValueOfChar(n);
    } else {
      var prefix := NatToString(n / 10);
      var s := NatToString(n);
      NatToStringDigits(n / 10);
      DigitValueOfChar(n % 10);
      assert s == prefix + [DigitChar(n % 10)];
      assert s[..|s| - 1] == prefix;
    }
  }

  /** Two digits exactly, whose value is `n`. */
  lemma Pad2Digits(n: nat)
    requires n < 60
    ensures |Pad2(n)| == 2 && AllDigits(Pad2(n))
    ensures DigitsValue(Pad2(n)) == n
  {
    NatToStringDigits(n);
    if n < 10 {
      var s := Pad2(n);
      assert s[..1] == "0";
    } else {
      assert NatToString(n) == NatToString(n / 10) + [DigitChar(n % 10)];
    }
  }

  // ---------------------------------------------------------------------------
  // Properties of parseInt

  lemma {:induction false} DigitRunOfDigits(a: string, b: string)
    requires AllDigits(a) && StopsDigits(b)
    ensures DigitRun(a + b) == |a|
    decreases |a|
  {
    if |a| > 0 {
      assert (a + b)[1..] == a[1..] + b;
      DigitRunOfDigits(a[1..], b);
    }
  }

  lemma {:induction false} SkipSpaceSplits(s: string)
    ensures |SkipSpace(s)| <= |s|
    ensures s[|s| - |SkipSpace(s)|..] == SkipSpace(s)
    ensures AllSpace(s[..|s| - |SkipSpace(s)|])
    decreases |s|
  {
    if |s| > 0 && IsSpace(s[0]) {
      SkipSpaceSplits(s[1..]);
      var t := SkipSpace(s);
      assert s[..|s| - |t|] == [s[0]] + s[1..][..|s[1..]| - |t|];
    }
  }

  lemma DigitsThenStop(a: string, b: string)
    requires |a| > 0 && AllDigits(a) && StopsDigits(b)
    ensures ParseDigits(a + b) == Some(DigitsValue(a))
  {
    DigitRunOfDigits(a, b);
    assert (a + b)[..|a|] == a;
  }

  /** Leading white space does not change the result. */
  lemma {:induction false} ParseIntSkipsSpace(ws: string, s: string)
    requires AllSpace(ws)
    ensures ParseInt(ws + s) == ParseInt(s)
    decreases |ws|
  {
    if |ws| > 0 {
      assert (ws + s)[0] == ws[0] && IsSpace(ws[0]);
      assert (ws + s)[1..] == ws[1..] + s;
      assert SkipSpace(ws + s) == SkipSpace(ws[1..] + s);
      ParseIntSkipsSpace(ws[1..], s);
    } else {
      assert ws + s == s;
    }
  }

  predicate IsSign(sign: string) {
    sign == "" || sign == "-" || sign == "+"
  }

  function Signed(sign: string, m: nat): int {
    if sign == "-" then -(m as int) else m
  }

  /** White space, an optional sign, at least one digit, and then anything that
      does not continue the digits: parseInt gives the signed value of the digits. */
  lemma ParseIntOfShape(ws: string, sign: string, digits: string, rest: string)
    requires AllSpace(ws) && IsSign(sign)
    requires |digits| > 0 && AllDigits(digits) && StopsDigits(rest)
    ensures ParseInt(ws + (sign + (digits + rest))) == Some(Signed(sign, DigitsValue(digits)))
  {
    ParseIntSkipsSpace(ws, sign + (digits + rest));
    SignDigitsOfShape(sign, digits, rest);
  }

  lemma SignDigitsOfShape(sign: string, digits: string, rest: string)
    requires IsSign(sign)
    requires |digits| > 0 && AllDigits(digits) && StopsDigits(rest)
    ensures ParseInt(sign + (digits + rest)) == Some(Signed(sign, DigitsValue(digits)))
  {
    if sign == "" {
      assert sign + (digits + rest) == digits + rest;
      ParseUnsignedOfShape(digits, rest);
    } else if sign == "-" {
      ParseWithSignOfShape('-', digits, rest);
    } else {
      ParseWithSignOfShape('+', digits, rest);
    }
  }

  lemma SkipSpaceStops(t: string)
    requires StopsSpace(t)
    ensures SkipSpace(t) == t
  {
  }

  lemma ParseUnsignedOfShape(digits: string, rest: string)
    requires |digits| > 0 && AllDigits(digits) && StopsDigits(rest)
    ensures ParseInt(digits + rest) == Some(DigitsValue(digits))
  {
    var tail := digits + rest;
    assert tail[0] == '-' || tail[0] == '+' || StopsSpace(tail) by {
      assert tail[0] == digits[0] && IsDigit(digits[0]);
    }
    assert tail[0] != '-' && tail[0] != '+' && StopsSpace(tail) by {
      assert tail[0] == digits[0] && IsDigit(digits[0]);
    }
    SkipSpaceStops(tail);
    assert ParseSigned(tail) == ApplySign(false, ParseDigits(tail));
    DigitsThenStop(digits, rest);
  }

  lemma ParseWithSignOfShape(c: char, digits: string, rest: string)
    requires c == '-' || c == '+'
    requires |digits| > 0 && AllDigits(digits) && StopsDigits(rest)
    ensures ParseInt([c] + (digits + rest)) == Some(Signed([c], DigitsValue(digits)))
  {
    var tail := [c] + (digits + rest);
    SignThenDigits(c, digits + rest);
    SkipSpaceStops(tail);
    DigitsThenStop(digits, rest);
    SignedBySign(c, DigitsValue(digits));
  }

  lemma SignThenDigits(c: char, t: string)
    requires c == '-' || c == '+'
    ensures StopsSpace([c] + t)
    ensures ParseSigned([c] + t) == ApplySign(c == '-', ParseDigits(t))
  {
    assert ([c] + t)[0] == c && ([c] + t)[1..] == t;
  }

  lemma SignedBySign(c: char, m: nat)
    requires c == '-' || c == '+'
    ensures ApplySign(c == '-', Some(m)) == Some(Signed([c], m))
  {
    assert ([c] == "-") == (c == '-') by {
      if [c] == "-" { assert [c][0] == "-"[0]; }
    }
  }

  /** Conversely, every string that parseInt reads as a number has that shape:
      white space `s[..i]`, a sign `s[i..j]`, digits `s[j..k]`, and a rest
      `s[k..]` that does not start with a digit; so a string without that shape,
      a string without any digit in particular, gives NaN. */
  lemma ParseIntShape(s: string) returns (i: nat, j: nat, k: nat)
    requires ParseInt(s).Some?
    ensures i <= j < k <= |s|
    ensures AllSpace(s[..i]) && IsSign(s[i..j])
    ensures AllDigits(s[j..k]) && StopsDigits(s[k..])
    ensures ParseInt(s) == Some(Signed(s[i..j], DigitsValue(s[j..k])))
  {
    SkipSpaceSplits(s);
    var t := SkipSpace(s);
    i := |s| - |t|;
    assert ParseInt(s) == ParseSigned(t);
    var body: string;
    if |t| > 0 && (t[0] == '-' || t[0] == '+') {
      j := i + 1;
      body := t[1..];
      assert s[i..j] == [t[0]];
    } else {
      j := i;
      body := t;
      assert s[i..j] == [];
    }
    assert body == s[j..];
    var d := DigitRun(body);
    assert ParseDigits(body).Some?;
    k := j + d;
    assert s[j..k] == body[..d];
    assert s[k..] == body[d..];
    SplitFour(s, i, j, k);
    ParseIntOfShape(s[..i], s[i..j], s[j..k], s[k..]);
  }

  lemma SplitFour(s: string, i: nat, j: nat, k: nat)
    requires i <= j <= k <= |s|
    ensures s == s[..i] + (s[i..j] + (s[j..k] + s[k..]))
  {
  }

  /** parseInt undoes the rendering of an integer, whatever text follows it, as
      long as that text does not continue the digits. */
  lemma ParseIntOfRendered(n: int, rest: string)
    requires StopsDigits(rest)
    ensures ParseInt(IntToString(n) + rest) == Some(n)
  {
    if n < 0 {
      NatToStringDigits(-n);
      MinusThenRest(NatToString(-n), rest);
      ParseWithSignOfShape('-', NatToString(-n), rest);
    } else {
      NatToStringDigits(n);
      ParseUnsignedOfShape(NatToString(n), rest);
    }
  }

  lemma MinusThenRest(digits: string, rest: string)
    ensures ("-" + digits) + rest == ['-'] + (digits + rest)
  {
  }

  /** The round trip on its own: parseInt reads back what was rendered. */
  lemma ParseIntRoundTrip(n: int)
    ensures ParseInt(IntToString(n)) == Some(n)
  {
    ParseIntOfRendered(n, "");
    assert IntToString(n) + "" == IntToString(n);
  }

  /** Rendering is injective: two integers with the same text are equal. */
  lemma IntToStringInjective(m: int, n: int)
    requires IntToString(m) == IntToString(n)
    ensures m == n
  {
    ParseIntRoundTrip(m);
    ParseIntRoundTrip(n);
  }

  // ---------------------------------------------------------------------------
  // Properties of the timer display

  /** The display is the minutes, a colon and exactly two digits; the digits
      before the colon read back as the minutes and the two after it as the
      seconds, so that minutes * 60 + seconds is the time left. */
  lemma TimerTextReadsBack(t: nat)
    ensures var s := TimerText(t);
      |s| >= 4 && s[|s| - 3] == ':' &&
      ParseInt(s) == Some(t / 60) &&
      ParseInt(s[|s| - 2..]) == Some(t % 60) &&
      (t / 60) * 60 + t % 60 == t && t % 60 < 60
  {
    var minutes := NatToString(t / 60);
    var seconds := Pad2(t % 60);
    var s := TimerText(t);
    NatToStringDigits(t / 60);
    Pad2Digits(t % 60);
    assert s == minutes + (":" + seconds);
    ParseUnsignedOfShape(minutes, ":" + seconds);
    assert s[|s| - 2..] == seconds + "" by {
      assert s[|s| - 2..] == seconds;
    }
    ParseUnsignedOfShape(seconds, "");
  }
}
