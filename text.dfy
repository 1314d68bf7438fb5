/**
 * The three string built-ins the kiosk's core leans on: trimming a typed
 * name, reading an integer out of typed text the way `parseInt` does, and
 * writing a store id as decimal text, as `String(id)` does.
 */
module Text {
  import opened Types

  /** The characters `trim` and `parseInt` treat as white space or line terminators. */
  predicate IsSpace(c: char)
  {
    c == '\t' || c == '\n' || c == '\U{B}' || c == '\U{C}' || c == '\r' || c == ' '
    || c == '\U{A0}' || c == '\U{1680}' || ('\U{2000}' <= c <= '\U{200A}')
    || c == '\U{2028}' || c == '\U{2029}' || c == '\U{202F}' || c == '\U{205F}'
    || c == '\U{3000}' || c == '\U{FEFF}'
  }

  predicate AllSpace(s: string)
  {
    forall k :: 0 <= k < |s| ==> IsSpace(s[k])
  }

  /** The number of leading white-space characters. */
  function LeadingSpace(s: string): (n: nat)
    ensures n <= |s| && AllSpace(s[..n])
    ensures n < |s| ==> !IsSpace(s[n])
  {
    if s == [] || !IsSpace(s[0]) then 0
    else
      var n := 1 + LeadingSpace(s[1..]);
      assert s[..n] == [s[0]] + s[1..][..n - 1];
      n
  }

  /** The number of trailing white-space characters. */
  function TrailingSpace(s: string): (n: nat)
    ensures n <= |s| && AllSpace(s[|s| - n..])
    ensures n < |s| ==> !IsSpace(s[|s| - 1 - n])
  {
    if s == [] || !IsSpace(s[|s| - 1]) then 0
    else
      var init := s[..|s| - 1];
      var n := 1 + TrailingSpace(init);
      assert s[|s| - n..] == init[|init| - (n - 1)..] + [s[|s| - 1]];
      n
  }

  /**
   * `trim`: the text between the leading and the trailing white space. The
   * result is a contiguous slice of the input that neither starts nor ends
   * with white space, and everything cut off is white space.
   */
  function Trim(s: string): (t: string)
    ensures exists i, j :: 0 <= i <= j <= |s| && t == s[i..j] && AllSpace(s[..i]) && AllSpace(s[j..])
    ensures t != [] ==> !IsSpace(t[0]) && !IsSpace(t[|t| - 1])
  {
    var i := LeadingSpace(s);
    var rest := s[i..];
    var k := TrailingSpace(rest);
    assert rest[..|rest| - k] == s[i..|s| - k];
    assert s[|s| - k..] == rest[|rest| - k..];
    rest[..|rest| - k]
  }

  /** White space up to `i` and from `i` on is white space throughout. */
  lemma {:induction false} SpaceAround(s: string, i: nat)
    requires i <= |s| && AllSpace(s[..i]) && AllSpace(s[i..])
    ensures AllSpace(s)
  {
    forall k | 0 <= k < |s| ensures IsSpace(s[k]) {
      if k < i { assert s[k] == s[..i][k]; } else { assert s[k] == s[i..][k - i]; }
    }
  }

  /** A name is blank exactly when it is all white space. */
  lemma {:induction false} TrimBlank(s: string)
    ensures Trim(s) == [] <==> AllSpace(s)
  {
    var t := Trim(s);
    var i, j :| 0 <= i <= j <= |s| && t == s[i..j] && AllSpace(s[..i]) && AllSpace(s[j..]);
    if t == [] {
      SpaceAround(s, i);
    } else {
      assert s[i] == t[0];
    }
  }

  /** Trimming twice is trimming once. */
  lemma {:induction false} TrimIdempotent(s: string)
    ensures Trim(Trim(s)) == Trim(s)
  {
    var t := Trim(s);
    assert LeadingSpace(t) == 0;
    assert TrailingSpace(t[LeadingSpace(t)..]) == 0;
    assert t[0..] == t;
  }

  predicate IsDecimalDigit(c: char) { '0' <= c <= '9' }

  /** Whether `c` is a digit in base `radix` (10 or 16; hexadecimal letters in either case). */
  predicate IsDigitIn(c: char, radix: int)
  {
    IsDecimalDigit(c) || (radix == 16 && ('a' <= c <= 'f' || 'A' <= c <= 'F'))
  }

  function DigitValue(c: char): (d: nat)
    requires IsDigitIn(c, 16)
    ensures d < 16 && (IsDecimalDigit(c) ==> d < 10)
  {
    if IsDecimalDigit(c) then c as int - '0' as int
    else if 'a' <= c <= 'f' then c as int - 'a' as int + 10
    else c as int - 'A' as int + 10
  }

  /** The length of the longest prefix made of base-`radix` digits. */
  function DigitRun(s: string, radix: int): (n: nat)
    ensures n <= |s|
    ensures forall k :: 0 <= k < n ==> IsDigitIn(s[k], radix)
    ensures n < |s| ==> !IsDigitIn(s[n], radix)
  {
    if s == [] || !IsDigitIn(s[0], radix) then 0 else 1 + DigitRun(s[1..], radix)
  }

  /** The value of a string of base-`radix` digits, most significant first. */
  function DigitsValue(s: string, radix: int): nat
    requires radix == 10 || radix == 16
    requires forall k :: 0 <= k < |s| ==> IsDigitIn(s[k], radix)
  {
    if s == [] then 0
    else
      assert IsDigitIn(s[|s| - 1], radix);
      DigitsValue(s[..|s| - 1], radix) * radix + DigitValue(s[|s| - 1])
  }

  /** The text after the leading white space and an optional sign. */
  function Unsigned(s: string): string
  {
    var t := s[LeadingSpace(s)..];
    if t != [] && (t[0] == '-' || t[0] == '+') then t[1..] else t
  }

  /** Whether the first non-blank character is a minus sign. */
  predicate Negative(s: string)
  {
    var t := s[LeadingSpace(s)..];
    t != [] && t[0] == '-'
  }

  /** Whether the unsigned text starts with `0x` or `0X`, which switches `parseInt` to base 16. */
  predicate HexPrefixed(u: string)
  {
    |u| >= 2 && u[0] == '0' && (u[1] == 'x' || u[1] == 'X')
  }

  /**
   * No digit where the number must start: after a `0x` prefix no hexadecimal
   * digit follows it, otherwise the unsigned text does not start with a
   * decimal digit.
   */
  predicate NoDigit(u: string)
  {
    if HexPrefixed(u) then |u| == 2 || !IsDigitIn(u[2], 16)
    else u == [] || !IsDecimalDigit(u[0])
  }

  /**
   * The unsigned part of `parseInt`: base 16 after a `0x` or `0X` prefix,
   * otherwise base 10, then the longest run of digits, ignoring whatever
   * follows. It is `None` exactly when no digit starts the number.
   */
  function ParseMagnitude(u: string): (r: Option<int>)
    ensures r.None? <==> NoDigit(u)
    ensures r.Some? ==> r.value >= 0
  {
    var hex := HexPrefixed(u);
    var radix := if hex then 16 else 10;
    var body := if hex then u[2..] else u;
    var n := DigitRun(body, radix);
    if n == 0 then None else Some(DigitsValue(body[..n], radix))
  }

  /**
   * `parseInt(s)` with no radix argument: skip leading white space, take an
   * optional sign, then read the magnitude. `NaN` is `None`, which happens
   * exactly when no digit follows the white space, the sign and the prefix.
   */
  function ParseInt(s: string): (r: Option<int>)
    ensures r.None? <==> NoDigit(Unsigned(s))
    ensures r.Some? && r.value < 0 ==> Negative(s)
  {
    match ParseMagnitude(Unsigned(s))
    case None => None
    case Some(m) => Some(if Negative(s) then -m else m)
  }

  /** White space followed by a character that is not white space is skipped exactly. */
  lemma {:induction false} LeadingSpaceOf(w: string, x: string)
    requires AllSpace(w) && x != [] && !IsSpace(x[0])
    ensures LeadingSpace(w + x) == |w|
    ensures (w + x)[LeadingSpace(w + x)..] == x
  {
    if w != [] {
      assert (w + x)[1..] == w[1..] + x;
      LeadingSpaceOf(w[1..], x);
    }
  }

  /** A run of digits followed by a non-digit is read up to its end exactly. */
  lemma {:induction false} DigitRunOf(d: string, rest: string, radix: int)
    requires forall k :: 0 <= k < |d| ==> IsDigitIn(d[k], radix)
    requires rest == [] || !IsDigitIn(rest[0], radix)
    ensures DigitRun(d + rest, radix) == |d|
    ensures (d + rest)[..|d|] == d
  {
    if d != [] {
      assert (d + rest)[1..] == d[1..] + rest;
      DigitRunOf(d[1..], rest, radix);
    }
  }

  /** Blanks and an optional sign in front of an unsigned text are read off exactly. */
  lemma {:induction false} SignOf(w: string, sign: string, u: string)
    requires AllSpace(w) && (sign == [] || sign == "-" || sign == "+")
    requires u != [] && !IsSpace(u[0]) && u[0] != '-' && u[0] != '+'
    ensures Unsigned(w + sign + u) == u
    ensures Negative(w + sign + u) <==> sign == "-"
  {
    var x := sign + u;
    assert w + sign + u == w + x;
    assert !IsSpace(x[0]);
    LeadingSpaceOf(w, x);
    if sign != [] {
      assert x[1..] == u;
    } else {
      assert x == u;
    }
  }

  /** A decimal digit run, unless it is "0" followed by `x` or `X`, starts no hexadecimal prefix. */
  lemma {:induction false} DecimalNotHex(d: string, rest: string)
    requires d != [] && forall k :: 0 <= k < |d| ==> IsDecimalDigit(d[k])
    requires !(d == "0" && rest != [] && (rest[0] == 'x' || rest[0] == 'X'))
    ensures !HexPrefixed(d + rest)
  {
    if |d| >= 2 {
      assert (d + rest)[1] == d[1];
    } else {
      assert (d + rest)[0] == d[0];
    }
  }

  /** The magnitude is the value of the digit run the body starts with. */
  lemma {:induction false} MagnitudeOfRun(u: string, body: string, d: string, radix: int)
    requires radix == (if HexPrefixed(u) then 16 else 10)
    requires body == (if HexPrefixed(u) then u[2..] else u)
    requires d != [] && DigitRun(body, radix) == |d| && body[..|d|] == d
    requires forall k :: 0 <= k < |d| ==> IsDigitIn(d[k], radix)
    ensures ParseMagnitude(u) == Some(DigitsValue(d, radix))
  {
  }

  /** A decimal digit run followed by a non-digit has the run's value as its magnitude. */
  lemma {:induction false} MagnitudeDecimal(d: string, rest: string)
    requires d != [] && forall k :: 0 <= k < |d| ==> IsDecimalDigit(d[k])
    requires rest == [] || !IsDecimalDigit(rest[0])
    requires !(d == "0" && rest != [] && (rest[0] == 'x' || rest[0] == 'X'))
    ensures ParseMagnitude(d + rest) == Some(DigitsValue(d, 10))
  {
    DecimalNotHex(d, rest);
    DigitRunOf(d, rest, 10);
    MagnitudeOfRun(d + rest, d + rest, d, 10);
  }

  /** A hexadecimal digit run after `0x` followed by a non-digit has the run's value as its magnitude. */
  lemma {:induction false} MagnitudeHex(x: char, h: string, rest: string)
    requires x == 'x' || x == 'X'
    requires h != [] && forall k :: 0 <= k < |h| ==> IsDigitIn(h[k], 16)
    requires rest == [] || !IsDigitIn(rest[0], 16)
    ensures ParseMagnitude(['0', x] + (h + rest)) == Some(DigitsValue(h, 16))
  {
    var u := ['0', x] + (h + rest);
    assert HexPrefixed(u);
    assert u[2..] == h + rest;
    DigitRunOf(h, rest, 16);
    MagnitudeOfRun(u, h + rest, h, 16);
  }

  /** `parseInt` is the magnitude of the unsigned text, negated after a minus sign. */
  lemma {:induction false} ParseIntOf(s: string, u: string, m: int)
    requires Unsigned(s) == u && ParseMagnitude(u) == Some(m)
    ensures ParseInt(s) == Some(if Negative(s) then -m else m)
  {
  }

  /** `m` with the sign `sign` in front: negated after a minus sign, unchanged otherwise. */
  function SignedValue(sign: string, m: int): int
  {
    if sign == "-" then -m else m
  }

  /** Blanks and an optional sign in front of a text whose magnitude is `m` read as `m` with that sign. */
  lemma {:induction false} ParseIntSigned(s: string, w: string, sign: string, u: string, m: int)
    requires s == w + sign + u && AllSpace(w) && (sign == [] || sign == "-" || sign == "+")
    requires u != [] && !IsSpace(u[0]) && u[0] != '-' && u[0] != '+'
    requires ParseMagnitude(u) == Some(m)
    ensures ParseInt(s) == Some(SignedValue(sign, m))
  {
    SignOf(w, sign, u);
    ParseIntOf(s, u, m);
  }

  /**
   * The decimal rule of `parseInt`: blanks `w`, an optional sign, a nonempty
   * run of decimal digits `d` and then anything that does not continue the
   * run read as the signed value of `d`. So "007" is 7, "1.5" and "1e3" are 1,
   * and " -30" is -30. The one exception is "0" followed by `x` or `X`, which
   * starts a hexadecimal number instead.
   */
  lemma {:induction false} ParseIntDecimal(s: string, w: string, sign: string, d: string, rest: string)
    requires s == w + sign + (d + rest)
    requires AllSpace(w) && (sign == [] || sign == "-" || sign == "+")
    requires d != [] && forall k :: 0 <= k < |d| ==> IsDecimalDigit(d[k])
    requires rest == [] || !IsDecimalDigit(rest[0])
    requires !(d == "0" && rest != [] && (rest[0] == 'x' || rest[0] == 'X'))
    ensures ParseInt(s) == Some(SignedValue(sign, DigitsValue(d, 10)))
  {
    var u := d + rest;
    assert u[0] == d[0];
    MagnitudeDecimal(d, rest);
    ParseIntSigned(s, w, sign, u, DigitsValue(d, 10));
  }

  /**
   * The hexadecimal rule of `parseInt`: blanks, an optional sign, `0x` or
   * `0X`, a nonempty run of hexadecimal digits `h` and then anything that
   * does not continue the run read as the signed value of `h` in base 16.
   */
  lemma {:induction false} ParseIntHex(s: string, w: string, sign: string, x: char, h: string, rest: string)
    requires s == w + sign + (['0', x] + (h + rest))
    requires AllSpace(w) && (sign == [] || sign == "-" || sign == "+") && (x == 'x' || x == 'X')
    requires h != [] && forall k :: 0 <= k < |h| ==> IsDigitIn(h[k], 16)
    requires rest == [] || !IsDigitIn(rest[0], 16)
    ensures ParseInt(s) == Some(SignedValue(sign, DigitsValue(h, 16)))
  {
    MagnitudeHex(x, h, rest);
    ParseIntSigned(s, w, sign, ['0', x] + (h + rest), DigitsValue(h, 16));
  }

  lemma DigitOne()
    ensures DigitsValue("1", 10) == 1
  {
    assert "1"[..0] == [];
  }

  lemma DigitsSevenThirty()
    ensures DigitsValue("007", 10) == 7 && DigitsValue("30", 10) == 30
  {
    assert "007"[..2] == "00" && "00"[..1] == "0" && "0"[..0] == [];
    assert "30"[..1] == "3" && "3"[..0] == [];
  }

  lemma DigitsHex()
    ensures DigitsValue("1F", 16) == 31
  {
    assert "1F"[..1] == "1" && "1"[..0] == [];
  }

  /** `parseInt` stops at the first character that is not a digit: "1e3" is 1. */
  lemma ParseIntExponentText()
    ensures ParseInt("1e3") == Some(1)
  {
    DigitOne();
    ParseIntDecimal("1e3", "", "", "1", "e3");
  }

  /** A fraction is cut off: "12.5" is 12. */
  lemma ParseIntFractionText()
    ensures ParseInt("12.5") == Some(12)
  {
    assert DigitsValue("12", 10) == 12 by {
      assert "12"[..1] == "1" && "1"[..0] == [];
    }
    ParseIntDecimal("12.5", "", "", "12", ".5");
  }

  /** Leading zeros count for nothing: "007" is 7. */
  lemma ParseIntLeadingZeros()
    ensures ParseInt("007") == Some(7)
  {
    DigitsSevenThirty();
    ParseIntDecimal("007", "", "", "007", "");
  }

  /** Blanks and a sign come before the digits: " -30" is -30. */
  lemma ParseIntBlankAndSign()
    ensures ParseInt(" -30") == Some(-30)
  {
    DigitsSevenThirty();
    ParseIntDecimal(" -30", " ", "-", "30", "");
  }

  /** A `0x` prefix reads hexadecimal: "0x1F" is 31. */
  lemma ParseIntHexText()
    ensures ParseInt("0x1F") == Some(31)
  {
    DigitsHex();
    ParseIntHex("0x1F", "", "", 'x', "1F", "");
  }

  /** No digit where the number starts: ".5", the empty text and a lone "-" are `NaN`. */
  lemma ParseIntNaNTexts()
    ensures ParseInt(".5") == None && ParseInt("") == None && ParseInt("-") == None
  {
    assert Unsigned(".5") == ".5";
    assert Unsigned("-") == [];
  }

  function DigitChar(d: nat): (c: char)
    requires d < 10
    ensures IsDecimalDigit(c) && DigitValue(c) == d
  {
    ('0' as int + d) as char
  }

  /** `String(n)` for a non-negative integer: its decimal digits without leading zeros. */
  function NatToDecimal(n: nat): (s: string)
    ensures |s| >= 1 && forall k :: 0 <= k < |s| ==> IsDecimalDigit(s[k])
    ensures s[0] == '0' ==> n == 0 && |s| == 1
  {
    if n < 10 then [DigitChar(n)] else NatToDecimal(n / 10) + [DigitChar(n % 10)]
  }

  lemma {:induction false} DecimalValue(n: nat)
    ensures DigitsValue(NatToDecimal(n), 10) == n
  {
    var s := NatToDecimal(n);
    if n < 10 {
      assert s[..|s| - 1] == [];
    } else {
      assert s[..|s| - 1] == NatToDecimal(n / 10);
      DecimalValue(n / 10);
    }
  }

  /** Reading back the decimal text of a store id gives the id: `parseInt(String(n)) == n`. */
  lemma {:induction false} DecimalRoundTrip(n: nat)
    ensures ParseInt(NatToDecimal(n)) == Some(n)
  {
    var d := NatToDecimal(n);
    ParseIntDecimal(d, "", "", d, "");
    DecimalValue(n);
  }

  /** A signed decimal text reads back with its sign: `parseInt("-" + String(n)) == -n`. */
  lemma {:induction false} SignedRoundTrip(n: nat, sign: char)
    requires sign == '-' || sign == '+'
    ensures ParseInt([sign] + NatToDecimal(n)) == Some(if sign == '-' then -(n as int) else n)
  {
    var d := NatToDecimal(n);
    ParseIntDecimal([sign] + d, "", [sign], d, "");
    DecimalValue(n);
  }

  /** Blank text, the empty text included, is not a number. */
  lemma {:induction false} ParseIntBlank(s: string)
    requires AllSpace(s)
    ensures ParseInt(s) == None
  {
    assert LeadingSpace(s) == |s|;
    assert Unsigned(s) == [];
  }

  /** Text whose first non-blank character is neither a sign nor a digit is not a number. */
  lemma {:induction false} ParseIntNonDigit(s: string)
    requires LeadingSpace(s) < |s|
    requires !IsDecimalDigit(s[LeadingSpace(s)]) && s[LeadingSpace(s)] != '-' && s[LeadingSpace(s)] != '+'
    ensures ParseInt(s) == None
  {
    var t := s[LeadingSpace(s)..];
    assert t[0] == s[LeadingSpace(s)];
    assert Unsigned(s) == t;
  }

  /**
   * Text with no digit where the number should start is not a number: the
   * empty text, blank text, and text whose first non-blank character is
   * neither a sign nor a digit, and a lone sign.
   */
  lemma {:induction false} ParseIntRejects(s: string)
    ensures AllSpace(s) ==> ParseInt(s) == None
    ensures (LeadingSpace(s) < |s| && !IsDecimalDigit(s[LeadingSpace(s)]) && s[LeadingSpace(s)] != '-'
      && s[LeadingSpace(s)] != '+') ==> ParseInt(s) == None
    ensures s == "-" || s == "+" ==> ParseInt(s) == None
  {
    if AllSpace(s) {
      ParseIntBlank(s);
    } else if LeadingSpace(s) < |s| && !IsDecimalDigit(s[LeadingSpace(s)]) && s[LeadingSpace(s)] != '-'
      && s[LeadingSpace(s)] != '+' {
      ParseIntNonDigit(s);
    }
    if s == "-" || s == "+" {
      assert LeadingSpace(s) == 0 && Unsigned(s) == [];
    }
  }

  /** Distinct store ids have distinct decimal texts. */
  lemma {:induction false} DecimalInjective(m: nat, n: nat)
    ensures NatToDecimal(m) == NatToDecimal(n) <==> m == n
  {
    if NatToDecimal(m) == NatToDecimal(n) {
      DecimalRoundTrip(m);
      DecimalRoundTrip(n);
    }
  }
}
