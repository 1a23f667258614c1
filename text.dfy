/**
  The JavaScript built-ins the page uses to turn numbers into text and back:
  `String(n)` on integers, `padStart`, `Number.prototype.toFixed(2)`,
  `Number.parseInt(s, 10)`, `split('.')` and `split(/\s+/).filter(Boolean)`.
  Numbers are exact reals; the floating-point behaviour of the built-ins is
  not modelled.
 */
module Text {
  import opened JsTypes

  predicate IsDigit(c: char)
  {
    '0' <= c <= '9'
  }

  predicate IsDigits(s: string)
  {
    forall i :: 0 <= i < |s| ==> IsDigit(s[i])
  }

  function DigitChar(d: nat): (c: char)
    requires d < 10
    ensures IsDigit(c) && c as int - '0' as int == d
  {
    ('0' as int + d) as char
  }

  /** `String(n)` for a non-negative integer: its decimal digits, no leading zero. */
  function NatToString(n: nat): (s: string)
    ensures |s| >= 1 && IsDigits(s)
    ensures (|s| == 1) == (n < 10)
    ensures |s| > 1 ==> s[0] != '0'
    decreases n
  {
    if n < 10 then [DigitChar(n)] else NatToString(n / 10) + [DigitChar(n % 10)]
  }

  /** `String(i)` for any integer. */
  function IntToString(i: int): (s: string)
    ensures i >= 0 ==> s == NatToString(i)
    ensures i < 0 ==> s == "-" + NatToString(-i)
  {
    if i < 0 then "-" + NatToString(-i) else NatToString(i)
  }

  /** The value of a string of decimal digits, read left to right. */
  function DigitsValue(s: string): nat
    requires IsDigits(s)
  {
    if s == [] then 0 else DigitsValue(s[..|s| - 1]) * 10 + (s[|s| - 1] as int - '0' as int)
  }

  lemma {:induction false} NatToStringValue(n: nat)
    ensures DigitsValue(NatToString(n)) == n
    decreases n
  {
    if n >= 10 {
      NatToStringValue(n / 10);
      var s := NatToString(n);
      assert s[..|s| - 1] == NatToString(n / 10);
    }
  }

  /** Decimal digit counts: one digit below 10, two below 100, three or more from 100 on. */
  lemma {:induction false} NatToStringLength(n: nat)
    ensures n < 100 ==> |NatToString(n)| <= 2
    ensures n >= 10 ==> |NatToString(n)| >= 2
    ensures n >= 100 ==> |NatToString(n)| >= 3
    decreases n
  {
    if n >= 10 {
      NatToStringLength(n / 10);
    }
  }

  function Repeat(c: char, k: nat): (r: string)
    ensures |r| == k && forall i :: 0 <= i < k ==> r[i] == c
  {
    if k == 0 then [] else [c] + Repeat(c, k - 1)
  }

  /** `s.padStart(width, fill)` with a one-character fill string. */
  function PadStart(s: string, width: nat, fill: char): (r: string)
    ensures |r| == if |s| >= width then |s| else width
    ensures r[|r| - |s|..] == s
    ensures forall i :: 0 <= i < |r| - |s| ==> r[i] == fill
  {
    if |s| >= width then s else Repeat(fill, width - |s|) + s
  }

  lemma {:induction false} LeadingZerosValue(k: nat, s: string)
    requires IsDigits(s)
    ensures IsDigits(Repeat('0', k) + s) && DigitsValue(Repeat('0', k) + s) == DigitsValue(s)
    decreases |s|
  {
    var z := Repeat('0', k);
    if s == [] {
      assert z + s == z;
      ZerosValue(k);
    } else {
      LeadingZerosValue(k, s[..|s| - 1]);
      assert (z + s)[..|z + s| - 1] == z + s[..|s| - 1];
    }
  }

  lemma {:induction false} ZerosValue(k: nat)
    ensures DigitsValue(Repeat('0', k)) == 0
    decreases k
  {
    if k > 0 {
      ZerosValue(k - 1);
      assert Repeat('0', k)[..k - 1] == Repeat('0', k - 1);
    }
  }

  /** Zero padding keeps a digit string's value. */
  lemma PadZerosValue(s: string, width: nat)
    requires IsDigits(s)
    ensures IsDigits(PadStart(s, width, '0'))
    ensures DigitsValue(PadStart(s, width, '0')) == DigitsValue(s)
  {
    if |s| < width {
      LeadingZerosValue(width - |s|, s);
    }
  }

  /** Padding a string that ends in `tail` pads only the part before the tail. */
  lemma PadStartAppend(s: string, tail: string, width: nat, fill: char)
    requires width >= |tail|
    ensures PadStart(s + tail, width, fill) == PadStart(s, width - |tail|, fill) + tail
  {
  }

  /** The two decimal digits of a number below 100, the tens digit first. */
  function TwoDigits(k: nat): (r: string)
    requires k < 100
    ensures |r| == 2 && IsDigits(r) && DigitsValue(r) == k
  {
    var r := [DigitChar(k / 10), DigitChar(k % 10)];
    assert r[..1] == [DigitChar(k / 10)] && r[..1][..0] == [];
    assert DigitsValue(r[..1]) == k / 10;
    r
  }

  lemma TwoDigitsIsPadded(k: nat)
    requires k < 100
    ensures PadStart(NatToString(k), 2, '0') == TwoDigits(k)
  {
    if k >= 10 {
      assert NatToString(k / 10) == [DigitChar(k / 10)];
    }
  }

  /** The digits `toFixed` produces for the integer n = x * 100: the ECMAScript
      algorithm pads the digits of n with zeros to at least three characters and
      puts the decimal point before the last two. */
  function FixedDigits(n: nat): string
  {
    var m := NatToString(n);
    var padded := if |m| <= 2 then Repeat('0', 3 - |m|) + m else m;
    padded[..|padded| - 2] + "." + padded[|padded| - 2..]
  }

  /** `x.toFixed(2)` for |x| < 10^21: n is the integer with n / 100 - x closest
      to zero, the larger one on a tie; a negative x is written as "-" followed
      by the rendering of -x (so -0.001 renders as "-0.00"). */
  function ToFixed2(x: real): (r: string)
    ensures x >= 0.0 ==> r == FixedDigits(JsRound(x * 100.0))
    ensures x < 0.0 ==> r == "-" + FixedDigits(JsRound(-x * 100.0))
  {
    if x < 0.0 then "-" + FixedDigits(JsRound(-x * 100.0)) else FixedDigits(JsRound(x * 100.0))
  }

  /** The fixed-point digits are the whole part, a point and exactly two decimals. */
  lemma FixedDigitsShape(n: nat)
    ensures FixedDigits(n) == NatToString(n / 100) + "." + TwoDigits(n % 100)
  {
    if n < 10 {
      FixedDigitsOneDigit(n);
    } else if n < 100 {
      FixedDigitsTwoDigits(n);
    } else {
      FixedDigitsLong(n);
    }
  }

  lemma FixedDigitsOneDigit(n: nat)
    requires n < 10
    ensures FixedDigits(n) == NatToString(n / 100) + "." + TwoDigits(n % 100)
  {
    assert Repeat('0', 2) + NatToString(n) == "0" + TwoDigits(n);
  }

  lemma FixedDigitsTwoDigits(n: nat)
    requires 10 <= n < 100
    ensures FixedDigits(n) == NatToString(n / 100) + "." + TwoDigits(n % 100)
  {
    var m := NatToString(n);
    assert m == NatToString(n / 10) + [DigitChar(n % 10)];
    assert Repeat('0', 1) + m == "0" + TwoDigits(n);
  }

  lemma FixedDigitsLong(n: nat)
    requires n >= 100
    ensures FixedDigits(n) == NatToString(n / 100) + "." + TwoDigits(n % 100)
  {
    var m := NatToString(n);
    NatToStringLength(n);
    assert (n / 10) / 10 == n / 100 && (n / 10) % 10 == (n % 100) / 10;
    assert m == NatToString(n / 100) + [DigitChar((n % 100) / 10)] + [DigitChar(n % 10)];
    assert m[..|m| - 2] == NatToString(n / 100);
  }

  /** Reading back `toFixed(2)`: the whole part and the two decimals give a value
      within half a hundredth of x. */
  lemma ToFixed2Reads(x: real)
    requires x >= 0.0
    ensures var n := JsRound(x * 100.0);
            && ToFixed2(x) == NatToString(n / 100) + "." + TwoDigits(n % 100)
            && -0.005 < n as real / 100.0 - x <= 0.005
  {
    FixedDigitsShape(JsRound(x * 100.0));
  }

  /** For any sign: a '-' for a negative x, then round(100|x|) with a point
      before its last two digits, within half a hundredth of |x|. */
  lemma ToFixed2ReadsSigned(x: real)
    ensures var n := JsRound(Abs(x) * 100.0);
            && ToFixed2(x) == (if x < 0.0 then "-" else "") + NatToString(n / 100) + "." + TwoDigits(n % 100)
            && -0.005 < n as real / 100.0 - Abs(x) <= 0.005
  {
    if x < 0.0 {
      var n := JsRound(-x * 100.0);
      assert Abs(x) * 100.0 == -x * 100.0;
      FixedDigitsShape(n);
    } else {
      var n := JsRound(x * 100.0);
      FixedDigitsShape(n);
      assert "" + NatToString(n / 100) == NatToString(n / 100);
    }
  }

  /** `toFixed(2)` starts with a digit, or with a minus sign and a digit. */
  lemma ToFixed2Lead(x: real)
    ensures var r := ToFixed2(x);
            && |r| >= 4
            && (IsDigit(r[0]) || (r[0] == '-' && IsDigit(r[1])))
  {
    var n := if x < 0.0 then JsRound(-x * 100.0) else JsRound(x * 100.0);
    FixedDigitsShape(n);
  }

  /** `toFixed(2)` of an exact number of hundredths shows that number. */
  lemma ToFixed2OfHundredths(k: nat)
    ensures ToFixed2(k as real / 100.0) == NatToString(k / 100) + "." + TwoDigits(k % 100)
  {
    assert JsRound(k as real / 100.0 * 100.0) == k;
    FixedDigitsShape(k);
  }

  // ---- Number.parseInt(s, 10) ----

  /** The characters ECMAScript counts as white space or line terminators: the
      `StrWhiteSpaceChar` set that `parseInt` skips and that `\s` matches. */
  predicate IsJsWhitespace(c: char)
  {
    c == '\t' || c == '\n' || c == '\U{000B}' || c == '\U{000C}' || c == '\r' || c == ' '
    || c == '\U{00A0}' || c == '\U{1680}' || ('\U{2000}' <= c <= '\U{200A}')
    || c == '\U{2028}' || c == '\U{2029}' || c == '\U{202F}' || c == '\U{205F}'
    || c == '\U{3000}' || c == '\U{FEFF}'
  }

  /** The string without its leading white space. */
  function TrimStart(s: string): string
  {
    if s != [] && IsJsWhitespace(s[0]) then TrimStart(s[1..]) else s
  }

  /** The longest prefix of decimal digits. */
  function DigitPrefix(s: string): (r: string)
    ensures IsDigits(r) && r <= s
    ensures |r| < |s| ==> !IsDigit(s[|r|])
  {
    if s != [] && IsDigit(s[0]) then [s[0]] + DigitPrefix(s[1..]) else []
  }

  lemma {:induction false} DigitPrefixOfDigits(s: string)
    requires IsDigits(s)
    ensures DigitPrefix(s) == s
  {
    if s != [] {
      DigitPrefixOfDigits(s[1..]);
    }
  }

  /** The value of the leading digits, `None` when there are none. */
  function ParseDigits(body: string): (r: Option<nat>)
  {
    var digits := DigitPrefix(body);
    if digits == [] then None else Some(DigitsValue(digits))
  }

  /** `Number.parseInt(s, 10)`: leading white space, an optional sign, then the
      longest run of decimal digits; `None` stands for NaN (no digits at all). */
  function ParseInt(s: string): (r: Option<int>)
  {
    var t := TrimStart(s);
    if t != [] && t[0] == '-' then
      match ParseDigits(t[1..])
      case None => None
      case Some(v) => Some(-(v as int))
    else if t != [] && t[0] == '+' then
      match ParseDigits(t[1..])
      case None => None
      case Some(v) => Some(v as int)
    else
      match ParseDigits(t)
      case None => None
      case Some(v) => Some(v as int)
  }

  /** Parsing the decimal rendering of an integer gives the integer back. */
  lemma ParseIntRoundTrip(i: int)
    ensures ParseInt(IntToString(i)) == Some(i)
  {
    if i < 0 {
      ParseNegative(-i);
    } else {
      ParseNonNegative(i);
    }
  }

  lemma ParseNonNegative(n: nat)
    ensures ParseInt(NatToString(n)) == Some(n)
  {
    var digits := NatToString(n);
    assert IsDigit(digits[0]);
    assert TrimStart(digits) == digits;
    DigitPrefixOfDigits(digits);
    NatToStringValue(n);
  }

  lemma ParseNegative(n: nat)
    requires n > 0
    ensures ParseInt("-" + NatToString(n)) == Some(-(n as int))
  {
    var d := NatToString(n);
    var s := "-" + d;
    assert TrimStart(s) == s;
    assert s[1..] == d;
    DigitPrefixOfDigits(d);
    NatToStringValue(n);
    assert ParseDigits(d) == Some(n);
  }

  // ---- split ----

  /** `s.split(sep)` for a one-character separator. */
  function Split(s: string, sep: char): (parts: seq<string>)
    ensures |parts| >= 1
    ensures forall i :: 0 <= i < |parts| ==> sep !in parts[i]
    decreases |s|
  {
    if s == [] then [""]
    else if s[0] == sep then [""] + Split(s[1..], sep)
    else
      var rest := Split(s[1..], sep);
      [[s[0]] + rest[0]] + rest[1..]
  }

  /** `parts.join(sep)`. */
  function Join(parts: seq<string>, sep: char): string
    requires |parts| >= 1
  {
    if |parts| == 1 then parts[0] else parts[0] + [sep] + Join(parts[1..], sep)
  }

  /** Splitting and joining again gives back the original string. */
  lemma {:induction false} JoinSplit(s: string, sep: char)
    ensures Join(Split(s, sep), sep) == s
    decreases |s|
  {
    if s != [] {
      JoinSplit(s[1..], sep);
      var rest := Split(s[1..], sep);
      if s[0] != sep && |rest| > 1 {
        assert Split(s, sep)[1..] == rest[1..];
      }
    }
  }

  /** Joining separator-free parts and splitting again gives back the parts. */
  lemma {:induction false} SplitJoin(parts: seq<string>, sep: char)
    requires |parts| >= 1
    requires forall i :: 0 <= i < |parts| ==> sep !in parts[i]
    ensures Split(Join(parts, sep), sep) == parts
    decreases |parts|, |parts[0]|
  {
    var p := parts[0];
    if |parts| == 1 {
      if p != [] {
        SplitJoin([p[1..]], sep);
        assert [p[1..]][0] == p[1..];
        assert [p[0]] + p[1..] == p;
      }
    } else if p == [] {
      SplitJoin(parts[1..], sep);
      assert Join(parts, sep) == [sep] + Join(parts[1..], sep);
      assert [""] + parts[1..] == parts;
    } else {
      var shorter := [p[1..]] + parts[1..];
      assert shorter[1..] == parts[1..];
      SplitJoin(shorter, sep);
      assert Join(parts, sep)[1..] == Join(shorter, sep);
      assert [p[0]] + p[1..] == p;
      assert [[p[0]] + p[1..]] + parts[1..] == parts;
    }
  }

  // ---- split(/\s+/).filter(Boolean) ----

  /** The longest prefix without white space. */
  function Word(s: string): (w: string)
    ensures w <= s && forall i :: 0 <= i < |w| ==> !IsJsWhitespace(w[i])
    ensures |w| < |s| ==> IsJsWhitespace(s[|w|])
  {
    if s != [] && !IsJsWhitespace(s[0]) then [s[0]] + Word(s[1..]) else []
  }

  predicate IsToken(w: string)
  {
    w != [] && forall i :: 0 <= i < |w| ==> !IsJsWhitespace(w[i])
  }

  /** `s.split(/\s+/).filter(Boolean)`: the maximal runs of non-white-space characters. */
  function Tokens(s: string): (ts: seq<string>)
    ensures forall i :: 0 <= i < |ts| ==> IsToken(ts[i])
    decreases |s|
  {
    if s == [] then []
    else if IsJsWhitespace(s[0]) then Tokens(s[1..])
    else
      var w := Word(s);
      [w] + Tokens(s[|w|..])
  }

  /** `tokens.join(' ')`. */
  function JoinSpaces(ts: seq<string>): string
  {
    if ts == [] then "" else if |ts| == 1 then ts[0] else ts[0] + " " + JoinSpaces(ts[1..])
  }

  lemma {:induction false} WordOfToken(w: string, rest: string)
    requires IsToken(w)
    requires rest == [] || IsJsWhitespace(rest[0])
    ensures Word(w + rest) == w
    decreases |w|
  {
    if |w| > 1 {
      WordOfToken(w[1..], rest);
      assert (w + rest)[1..] == w[1..] + rest;
    } else {
      assert (w + rest)[1..] == rest;
    }
  }

  /** Tokenising white-space-joined tokens gives back the tokens. */
  lemma {:induction false} TokensJoinSpaces(ts: seq<string>)
    requires forall i :: 0 <= i < |ts| ==> IsToken(ts[i])
    ensures Tokens(JoinSpaces(ts)) == ts
    decreases |ts|
  {
    if |ts| == 1 {
      WordOfToken(ts[0], []);
      assert ts[0] + [] == ts[0];
    } else if |ts| > 1 {
      var s := JoinSpaces(ts);
      var rest := " " + JoinSpaces(ts[1..]);
      assert s == ts[0] + rest;
      WordOfToken(ts[0], rest);
      assert s[|ts[0]|..] == rest;
      TokensJoinSpaces(ts[1..]);
      assert rest[1..] == JoinSpaces(ts[1..]);
    }
  }
}
