/**
 * ECMAScript's global `parseInt(string)` with the radix argument absent,
 * as applied to a query-string parameter by the list-all handler.
 */
module JsParseInt {
  import opened Values

  /** The results `parseInt` can produce: NaN or an integer. */
  datatype Number = NaN | Int(value: int)

  /** `String(p)` for a query-string parameter: an absent one is the string "undefined". */
  function ArgString(param: Option<string>): (s: string)
    ensures param.Some? ==> s == param.value
    ensures param.None? ==> s == "undefined"
  {
    match param
    case Some(v) => v
    case None => "undefined"
  }

  /** StrWhiteSpaceChar: the white-space and line-terminator code points trimmed by `parseInt`. */
  predicate IsWhiteSpace(c: char)
  {
    || c == '\t' || c == '\n' || c == '\U{B}' || c == '\U{C}' || c == '\r'
    || c == ' ' || c == '\U{A0}' || c == '\U{1680}' || ('\U{2000}' <= c <= '\U{200A}')
    || c == '\U{2028}' || c == '\U{2029}' || c == '\U{202F}' || c == '\U{205F}'
    || c == '\U{3000}' || c == '\U{FEFF}'
  }

  /** The value of an alphanumeric digit (case-insensitive), or None for any other character. */
  function DigitOf(c: char): (d: Option<nat>)
    ensures d.Some? ==> d.value < 36
    ensures ('0' <= c <= '9') ==> d == Some((c - '0') as nat)
  {
    if '0' <= c <= '9' then Some((c - '0') as nat)
    else if 'a' <= c <= 'z' then Some((c - 'a') as nat + 10)
    else if 'A' <= c <= 'Z' then Some((c - 'A') as nat + 10)
    else None
  }

  predicate IsDigitIn(c: char, radix: nat)
  {
    DigitOf(c).Some? && DigitOf(c).value < radix
  }

  /** The length of the longest prefix of `s` made of digits of the radix. */
  function DigitRun(s: string, radix: nat): (n: nat)
    ensures n <= |s|
    ensures forall i :: 0 <= i < n ==> IsDigitIn(s[i], radix)
    ensures n < |s| ==> !IsDigitIn(s[n], radix)
  {
    if s != [] && IsDigitIn(s[0], radix) then 1 + DigitRun(s[1..], radix) else 0
  }

  /** The number a string of digits denotes in the radix, most significant digit first. */
  function DigitsValue(s: string, radix: nat): int
    requires forall i :: 0 <= i < |s| ==> IsDigitIn(s[i], radix)
  {
    if s == [] then 0
    else
      var init, last := s[..|s| - 1], s[|s| - 1];
      assert forall i :: 0 <= i < |init| ==> init[i] == s[i];
      assert IsDigitIn(last, radix);
      DigitsValue(init, radix) * radix + DigitOf(last).value
  }

  /** The number of white-space characters at the start of `s`. */
  function LeadingSpace(s: string): (n: nat)
    ensures n <= |s|
    ensures forall i :: 0 <= i < n ==> IsWhiteSpace(s[i])
    ensures n < |s| ==> !IsWhiteSpace(s[n])
  {
    if s != [] && IsWhiteSpace(s[0]) then 1 + LeadingSpace(s[1..]) else 0
  }

  /**
   * parseInt(s) without a radix: skip leading white space, take an optional
   * sign, read hexadecimal after a "0x"/"0X" prefix and decimal otherwise,
   * stop at the first character that is not a digit; NaN when no digit was read.
   */
  function ParseInt(s: string): Number
  {
    ParseSigned(s[LeadingSpace(s)..])
  }

  function ParseSigned(t: string): Number
  {
    if t != [] && t[0] == '-' then Negate(ParseUnsigned(t[1..]))
    else if t != [] && t[0] == '+' then ParseUnsigned(t[1..])
    else ParseUnsigned(t)
  }

  predicate HasHexPrefix(u: string)
  {
    |u| >= 2 && u[0] == '0' && (u[1] == 'x' || u[1] == 'X')
  }

  function ParseUnsigned(u: string): Number
  {
    if HasHexPrefix(u) then ReadDigits(u[2..], 16) else ReadDigits(u, 10)
  }

  /** The number denoted by the digit run at the start of `d`, or NaN if there is none. */
  function ReadDigits(d: string, radix: nat): Number
  {
    var n := DigitRun(d, radix);
    if n == 0 then NaN else Int(DigitsValue(d[..n], radix))
  }

  function Negate(x: Number): Number
  {
    match x
    case NaN => NaN
    case Int(v) => Int(-v)
  }

  /** The shortest decimal rendering of a natural number. */
  function Decimal(n: nat): (s: string)
    ensures |s| >= 1
    ensures forall i :: 0 <= i < |s| ==> '0' <= s[i] <= '9'
    ensures n > 0 ==> s[0] != '0'
  {
    if n < 10 then ['0' + n as char] else Decimal(n / 10) + ['0' + (n % 10) as char]
  }

  lemma {:induction false} DecimalValue(n: nat)
    ensures forall i :: 0 <= i < |Decimal(n)| ==> IsDigitIn(Decimal(n)[i], 10)
    ensures DigitsValue(Decimal(n), 10) == n
  {
    var s := Decimal(n);
    if n >= 10 {
      DecimalValue(n / 10);
      assert s[..|s| - 1] == Decimal(n / 10);
    }
  }

  /** The digit run of a decimal rendering followed by a non-digit is exactly that rendering. */
  lemma {:induction false} DigitRunOfDecimal(d: string, rest: string)
    requires forall i :: 0 <= i < |d| ==> '0' <= d[i] <= '9'
    requires rest == [] || !IsDigitIn(rest[0], 10)
    ensures DigitRun(d + rest, 10) == |d|
    ensures (d + rest)[..|d|] == d
  {
    if d != [] {
      assert (d + rest)[1..] == d[1..] + rest;
      DigitRunOfDecimal(d[1..], rest);
    }
  }

  /**
   * parseInt reads the decimal rendering of n back as n, whatever follows it
   * as long as that does not start with a digit (or, after "0", with the x
   * that would make the prefix "0x").
   */
  lemma ParseIntReadsDecimal(n: nat, rest: string)
    requires rest == [] || !IsDigitIn(rest[0], 10)
    requires n == 0 && rest != [] ==> rest[0] != 'x' && rest[0] != 'X'
    ensures ParseInt(Decimal(n) + rest) == Int(n)
  {
    var s := Decimal(n) + rest;
    NoLeadingSpace(s);
    DigitRunOfDecimal(Decimal(n), rest);
    DecimalValue(n);
    assert n == 0 ==> Decimal(n) == "0";
  }

  /** Leading white space never changes what parseInt reads. */
  lemma {:induction false} ParseIntSkipsWhiteSpace(w: string, s: string)
    requires AllWhiteSpace(w)
    ensures ParseInt(w + s) == ParseInt(s)
  {
    var n := LeadingSpace(s);
    LeadingSpaceSkips(w, s);
    DropAfterPrefix(w, s, n);
    ParseIntAfterSpace(w + s, s[n..]);
    ParseIntAfterSpace(s, s[n..]);
  }

  lemma ParseIntAfterSpace(s: string, t: string)
    requires s[LeadingSpace(s)..] == t
    ensures ParseInt(s) == ParseSigned(t)
  {
  }

  lemma DropAfterPrefix(w: string, s: string, n: nat)
    requires n <= |s|
    ensures (w + s)[|w| + n..] == s[n..]
  {
  }

  /** Every character of `w` is white space. */
  predicate AllWhiteSpace(w: string)
  {
    w == [] || (IsWhiteSpace(w[0]) && AllWhiteSpace(w[1..]))
  }

  lemma {:induction false} LeadingSpaceSkips(w: string, s: string)
    requires AllWhiteSpace(w)
    ensures LeadingSpace(w + s) == |w| + LeadingSpace(s)
  {
    if w == [] {
      assert w + s == s;
    } else {
      assert (w + s)[0] == w[0];
      assert (w + s)[1..] == w[1..] + s;
      LeadingSpaceSkips(w[1..], s);
    }
  }

  /**
   * A leading minus negates what parseInt reads from the rest, and a leading
   * plus changes nothing, provided the rest does not itself start with white
   * space or a sign (only one sign is accepted, and only before the digits).
   */
  lemma ParseIntSign(s: string)
    requires s == [] || !(IsWhiteSpace(s[0]) || s[0] == '-' || s[0] == '+')
    ensures ParseInt("-" + s) == Negate(ParseInt(s))
    ensures ParseInt("+" + s) == ParseInt(s)
  {
    var minus, plus := "-" + s, "+" + s;
    assert minus[0] == '-' && minus[1..] == s;
    assert plus[0] == '+' && plus[1..] == s;
    NoLeadingSpace(minus);
    NoLeadingSpace(plus);
    NoLeadingSpace(s);
  }

  lemma NoLeadingSpace(s: string)
    requires s == [] || !IsWhiteSpace(s[0])
    ensures ParseInt(s) == ParseSigned(s)
  {
    assert LeadingSpace(s) == 0;
  }

  /** The text after the leading white space and at most one sign: where parseInt looks for digits. */
  function Unsigned(s: string): string
  {
    var t := s[LeadingSpace(s)..];
    if t != [] && (t[0] == '-' || t[0] == '+') then t[1..] else t
  }

  /** The radix parseInt reads in: 16 after a "0x"/"0X" prefix, 10 otherwise. */
  function RadixOf(u: string): nat
  {
    if HasHexPrefix(u) then 16 else 10
  }

  /** The text the digit run is read from: what follows the "0x" prefix, if there is one. */
  function DigitText(u: string): string
  {
    if HasHexPrefix(u) then u[2..] else u
  }

  /**
   * parseInt gives NaN exactly when no digit of the radix follows the
   * leading white space, the optional sign and the optional "0x" prefix.
   */
  lemma ParseIntNaN(s: string)
    ensures var u := Unsigned(s);
      ParseInt(s) == NaN <==> DigitText(u) == [] || !IsDigitIn(DigitText(u)[0], RadixOf(u))
  {
    var t := s[LeadingSpace(s)..];
    var u := Unsigned(s);
    var d, radix := DigitText(u), RadixOf(u);
    assert ParseInt(s) == ParseSigned(t);
    assert ParseUnsigned(u) == ReadDigits(d, radix);
    assert DigitRun(d, radix) == 0 <==> d == [] || !IsDigitIn(d[0], radix);
    assert ParseSigned(t) == NaN <==> ParseUnsigned(u) == NaN;
  }

  /** An absent parameter reads as the string "undefined", which parseInt gives as NaN. */
  lemma UndefinedIsNaN()
    ensures ParseInt(ArgString(None)) == NaN
  {
    var s := ArgString(None);
    assert s[0] == 'u' && !IsWhiteSpace(s[0]) && !IsDigitIn(s[0], 10);
    NoLeadingSpace(s);
    assert !HasHexPrefix(s);
  }
}
