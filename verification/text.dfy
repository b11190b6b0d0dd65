/** The pieces of JavaScript's string and number behaviour the front end relies
    on: `String.prototype.trim`, lower-casing, integer-to-decimal conversion and
    `padStart(2, "0")`, together with a decimal reader used as their inverse. */
module Text {
  import Types

  /** The characters `trim` removes: ECMAScript WhiteSpace and LineTerminator
      code points (tab, vertical tab, form feed, space, no-break space, the
      byte-order mark, the Unicode space separators, LF, CR, LS and PS). */
  predicate IsWhitespace(c: char) {
    c == '\t' || c == '\n' || c == '\U{000B}' || c == '\U{000C}' || c == '\r' || c == ' '
    || c == '\U{00A0}' || c == '\U{1680}' || ('\U{2000}' <= c <= '\U{200A}')
    || c == '\U{2028}' || c == '\U{2029}' || c == '\U{202F}' || c == '\U{205F}'
    || c == '\U{3000}' || c == '\U{FEFF}'
  }

  predicate AllWhitespace(s: string) {
    forall i :: 0 <= i < |s| ==> IsWhitespace(s[i])
  }

  /** The index of the first character at or after `i` that is not
      whitespace, or `|s|` when there is none. */
  function SkipBlanks(s: string, i: nat): (k: nat)
    requires i <= |s|
    ensures i <= k <= |s|
    ensures forall m :: i <= m < k ==> IsWhitespace(s[m])
    ensures k < |s| ==> !IsWhitespace(s[k])
    decreases |s| - i
  {
    if i < |s| && IsWhitespace(s[i]) then SkipBlanks(s, i + 1) else i
  }

  /** The index just past the last character before `j` that is not
      whitespace, looking no further back than `lo`. */
  function BackOverBlanks(s: string, lo: nat, j: nat): (e: nat)
    requires lo <= j <= |s|
    ensures lo <= e <= j
    ensures forall m :: e <= m < j ==> IsWhitespace(s[m])
    ensures e > lo ==> !IsWhitespace(s[e - 1])
  {
    if j > lo && IsWhitespace(s[j - 1]) then BackOverBlanks(s, lo, j - 1) else j
  }

  /** The number of leading whitespace characters `trim` cuts from `s`. */
  function LeadingBlanks(s: string): (k: nat)
    ensures k <= |s|
  {
    SkipBlanks(s, 0)
  }

  /** `s.trim()`: leading whitespace is dropped, then trailing whitespace. */
  function Trim(s: string): string {
    var k := LeadingBlanks(s);
    s[k..BackOverBlanks(s, k, |s|)]
  }

  /** What trim returns: a slice of `s` whose ends are not whitespace, with only
      whitespace cut away on either side; it is empty exactly when `s` is blank. */
  lemma TrimIsSlice(s: string)
    ensures LeadingBlanks(s) + |Trim(s)| <= |s|
    ensures Trim(s) == s[LeadingBlanks(s)..LeadingBlanks(s) + |Trim(s)|]
    ensures AllWhitespace(s[..LeadingBlanks(s)])
    ensures AllWhitespace(s[LeadingBlanks(s) + |Trim(s)|..])
    ensures Trim(s) != [] ==> !IsWhitespace(Trim(s)[0]) && !IsWhitespace(Trim(s)[|Trim(s)| - 1])
    ensures Trim(s) == [] <==> AllWhitespace(s)
  {
    var k := LeadingBlanks(s);
    var e := BackOverBlanks(s, k, |s|);
    assert AllWhitespace(s[..k]) by {
      forall i | 0 <= i < k ensures IsWhitespace(s[..k][i]) {
        assert s[..k][i] == s[i];
      }
    }
    assert AllWhitespace(s[e..]) by {
      forall i | 0 <= i < |s| - e ensures IsWhitespace(s[e..][i]) {
        assert s[e..][i] == s[e + i];
      }
    }
    if e == k {
      // all of s[k..] is blank, so no non-blank character stopped SkipBlanks
      assert k == |s|;
      assert s[..k] == s;
    } else {
      assert Trim(s)[0] == s[k];
    }
  }

  /** Trimming twice is trimming once. */
  lemma TrimIdempotent(s: string)
    ensures Trim(Trim(s)) == Trim(s)
  {
    var r := Trim(s);
    TrimIsSlice(s);
    if r != [] {
      assert LeadingBlanks(r) == 0;
      assert BackOverBlanks(r, 0, |r|) == |r|;
    }
  }

  /** ASCII lower-casing of one character. */
  function LowerChar(c: char): (d: char)
    ensures 'A' <= c <= 'Z' ==> 'a' <= d <= 'z' && d as int == c as int + 32
    ensures !('A' <= c <= 'Z') ==> d == c
  {
    if 'A' <= c <= 'Z' then (c as int + 32) as char else c
  }

  /** `s.toLowerCase()` on the ASCII letters. */
  function ToLower(s: string): (r: string)
    ensures |r| == |s|
    ensures forall i :: 0 <= i < |s| ==> r[i] == LowerChar(s[i])
  {
    seq(|s|, i requires 0 <= i < |s| => LowerChar(s[i]))
  }

  /** Lower-casing is idempotent, so lower-cased input is a fixed point. */
  lemma ToLowerIdempotent(s: string)
    ensures ToLower(ToLower(s)) == ToLower(s)
  {
  }

  /** Text without ASCII capitals is its own lower-case form. */
  lemma ToLowerNoCapitals(s: string)
    requires forall i :: 0 <= i < |s| ==> !('A' <= s[i] <= 'Z')
    ensures ToLower(s) == s
  {
  }

  predicate IsDigit(c: char) {
    '0' <= c <= '9'
  }

  predicate AllDigits(s: string) {
    forall i :: 0 <= i < |s| ==> IsDigit(s[i])
  }

  function DigitChar(d: nat): (c: char)
    requires d < 10
    ensures IsDigit(c)
  {
    ('0' as int + d) as char
  }

  function DigitValue(c: char): (d: nat)
    requires IsDigit(c)
    ensures d < 10 && DigitChar(d) == c
  {
    c as int - '0' as int
  }

  /** The decimal text of a natural number, as `n.toString()` writes it. */
  function NatToString(n: nat): (s: string)
    ensures |s| >= 1 && AllDigits(s)
    ensures |s| > 1 ==> s[0] != '0'
  {
    if n < 10 then [DigitChar(n)] else NatToString(n / 10) + [DigitChar(n % 10)]
  }

  /** The decimal text of an integer, with a leading '-' when it is negative. */
  function IntToString(i: int): string {
    if i < 0 then "-" + NatToString(-i) else NatToString(i)
  }

  /** The value of a non-empty string of decimal digits. */
  function ParseNat(s: string): nat
    requires |s| >= 1 && AllDigits(s)
  {
    if |s| == 1 then DigitValue(s[0]) else 10 * ParseNat(s[..|s| - 1]) + DigitValue(s[|s| - 1])
  }

  /** Reading back the decimal text of `n` gives `n`. */
  lemma {:induction false} ParseNatToString(n: nat)
    ensures ParseNat(NatToString(n)) == n
  {
    if n >= 10 {
      var s := NatToString(n);
      ParseNatToString(n / 10);
      assert s[..|s| - 1] == NatToString(n / 10);
    }
  }

  /** JavaScript's `a % m` on integers: the remainder takes the sign of `a`
      (truncating division), unlike Dafny's `%`, which is never negative. */
  function JsRem(a: int, m: int): (r: int)
    requires m > 0
    ensures a >= 0 ==> r == a % m
    ensures a < 0 ==> -m < r <= 0 && -r == (-a) % m
  {
    if a >= 0 then a % m else -((-a) % m)
  }

  /** `s.padStart(2, "0")`. */
  function PadStart2(s: string): (r: string)
    ensures |s| >= 2 ==> r == s
    ensures |s| < 2 ==> |r| == 2 && r[2 - |s|..] == s && forall i :: 0 <= i < 2 - |s| ==> r[i] == '0'
  {
    if |s| >= 2 then s else if |s| == 1 then "0" + s else "00"
  }

  /** The padded seconds of a clock are two digits whose value is the number
      itself, the first digit at most 5. */
  lemma TwoDigits(r: nat)
    requires r < 60
    ensures var p := PadStart2(NatToString(r));
      |p| == 2 && AllDigits(p) && '0' <= p[0] <= '5' && ParseNat(p) == r
  {
    var p := PadStart2(NatToString(r));
    if r < 10 {
      assert p == ['0', DigitChar(r)];
      assert p[..1] == ['0'];
    } else {
      assert NatToString(r) == NatToString(r / 10) + [DigitChar(r % 10)];
      assert NatToString(r / 10) == [DigitChar(r / 10)];
      assert p == [DigitChar(r / 10), DigitChar(r % 10)];
      assert p[..1] == [DigitChar(r / 10)];
    }
  }

  /** Reads an `m:ss` clock back into whole seconds. */
  function ParseClock(s: string): Types.Option<nat> {
    if |s| >= 4 && s[|s| - 3] == ':' && AllDigits(s[..|s| - 3]) && AllDigits(s[|s| - 2..]) then
      Types.Some(60 * ParseNat(s[..|s| - 3]) + ParseNat(s[|s| - 2..]))
    else Types.None
  }

  /** The `m:ss` text of a whole number of seconds: the whole minutes, a colon
      and the seconds left over, padded to two digits. */
  function Clock(sec: nat): string {
    NatToString(sec / 60) + ":" + PadStart2(NatToString(sec % 60))
  }

  lemma ClockShape(sec: nat)
    ensures var s := Clock(sec);
      |s| >= 4 && s[|s| - 3] == ':'
      && s[..|s| - 3] == NatToString(sec / 60) && s[|s| - 2..] == PadStart2(NatToString(sec % 60))
  {
    TwoDigits(sec % 60);
  }

  /** The clock is the minutes, a colon and two digits of seconds from 00 to
      59, and reading it back gives the seconds. */
  lemma ClockReadsBack(sec: nat)
    ensures var s := Clock(sec);
      |s| >= 4 && s[|s| - 3] == ':' && AllDigits(s[..|s| - 3]) && AllDigits(s[|s| - 2..]) && '0' <= s[|s| - 2] <= '5'
    ensures ParseClock(Clock(sec)) == Types.Some(sec)
  {
    var s := Clock(sec);
    ClockShape(sec);
    TwoDigits(sec % 60);
    assert ParseNat(s[..|s| - 3]) == sec / 60 by {
      ParseNatToString(sec / 60);
    }
    assert ParseNat(s[|s| - 2..]) == sec % 60;
    assert 60 * (sec / 60) + sec % 60 == sec;
  }
}
