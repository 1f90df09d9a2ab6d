/**
 * PHP's `(int)` cast on the JSON scalars a request body can carry, as
 * public/api/users.php applies it to `user_id`.
 */
module PhpCast {
  import opened Text

  /** A decoded JSON value that is set and not `null`; an array or object is kept only by its size. */
  datatype JsonScalar = JInt(i: int) | JString(s: string) | JBool(b: bool) | JArray(size: nat)

  predicate IsSpace(c: char)
  {
    c == ' ' || c == '\t' || c == '\n' || c == '\r' || c == '\U{B}' || c == '\U{C}'
  }

  /** The text after any leading whitespace. */
  function SkipSpace(s: string): (r: string)
    ensures |r| <= |s| && r == s[|s| - |r|..]
    ensures r != [] ==> !IsSpace(r[0])
  {
    if s != [] && IsSpace(s[0]) then SkipSpace(s[1..]) else s
  }

  /** The longest prefix made of digits. */
  function LeadingDigits(s: string): (d: string)
    ensures |d| <= |s| && d == s[..|d|]
    ensures forall i :: 0 <= i < |d| ==> IsDigit(d[i])
    ensures |d| < |s| ==> !IsDigit(s[|d|])
  {
    if s != [] && IsDigit(s[0]) then [s[0]] + LeadingDigits(s[1..]) else []
  }

  /** The value of a string of decimal digits. */
  function DigitsValue(d: string): (n: nat)
    requires forall i :: 0 <= i < |d| ==> IsDigit(d[i])
  {
    if d == [] then 0
    else
      var last := d[|d| - 1];
      assert IsDigit(last);
      10 * DigitsValue(d[..|d| - 1]) + (last as int - '0' as int)
  }

  /** `(int)$s` for a string: leading whitespace, an optional sign, then as many digits as there are; 0 without digits. */
  function StringToInt(s: string): int
  {
    var t := SkipSpace(s);
    if t != [] && t[0] == '-' then 0 - DigitsValue(LeadingDigits(t[1..])) as int
    else if t != [] && t[0] == '+' then DigitsValue(LeadingDigits(t[1..]))
    else DigitsValue(LeadingDigits(t))
  }

  /** `(int)$v`. */
  function IntCast(v: JsonScalar): int
  {
    match v
    case JInt(i) => i
    case JString(s) => StringToInt(s)
    case JBool(b) => if b then 1 else 0
    case JArray(size) => if size == 0 then 0 else 1
  }

  /** Reading the decimal form back gives the number. */
  lemma {:induction false} DecimalValue(n: nat)
    ensures DigitsValue(Decimal(n)) == n
  {
    if n >= 10 {
      DecimalValue(n / 10);
      var s := Decimal(n);
      assert s[..|s| - 1] == Decimal(n / 10);
    }
  }

  /** All of a digit string is its leading digits. */
  lemma {:induction false} AllDigitsLead(d: string)
    requires forall i :: 0 <= i < |d| ==> IsDigit(d[i])
    ensures LeadingDigits(d) == d
  {
    if d != [] {
      AllDigitsLead(d[1..]);
    }
  }

  /** `(int)` reads back a natural number from its decimal string, after any leading whitespace. */
  lemma IntCastOfDecimal(n: nat, pad: string)
    requires forall i :: 0 <= i < |pad| ==> IsSpace(pad[i])
    ensures IntCast(JString(pad + Decimal(n))) == n
  {
    var d := Decimal(n);
    DecimalValue(n);
    AllDigitsLead(d);
    assert IsDigit(d[0]) && d[0] != '-' && d[0] != '+';
    SkipPad(pad, d);
    assert StringToInt(pad + d) == DigitsValue(LeadingDigits(d));
  }

  /** `(int)` reads back a negative number from its decimal string with a minus sign. */
  lemma IntCastOfNegative(n: nat, pad: string)
    requires forall i :: 0 <= i < |pad| ==> IsSpace(pad[i])
    ensures IntCast(JString(pad + "-" + Decimal(n))) == -(n as int)
  {
    var d := Decimal(n);
    var t := "-" + d;
    assert pad + "-" + d == pad + t;
    SkipPad(pad, t);
    NegatedDigits(d);
    DecimalValue(n);
  }

  /** After the minus sign, every digit of a digit string is read. */
  lemma NegatedDigits(d: string)
    requires forall i :: 0 <= i < |d| ==> IsDigit(d[i])
    ensures StringToInt("-" + d) == 0 - DigitsValue(d) as int
  {
    var t := "-" + d;
    assert t[1..] == d;
    AllDigitsLead(d);
  }

  /** Skipping whitespace strips exactly the padding before a non-space character. */
  lemma {:induction false} SkipPad(pad: string, t: string)
    requires forall i :: 0 <= i < |pad| ==> IsSpace(pad[i])
    requires t != [] && !IsSpace(t[0])
    ensures SkipSpace(pad + t) == t
  {
    if pad != [] {
      assert (pad + t)[1..] == pad[1..] + t;
      SkipPad(pad[1..], t);
    }
  }

  /** Text after the digits is ignored. */
  lemma CastStopsAtNonDigit(n: nat, rest: string)
    requires rest == [] || !IsDigit(rest[0])
    ensures IntCast(JString(Decimal(n) + rest)) == n
  {
    var d := Decimal(n);
    DecimalValue(n);
    LeadingDigitsOfConcat(d, rest);
    assert SkipSpace(d + rest) == d + rest;
  }

  /** The leading digits of digits followed by a non-digit are those digits. */
  lemma {:induction false} LeadingDigitsOfConcat(d: string, rest: string)
    requires forall i :: 0 <= i < |d| ==> IsDigit(d[i])
    requires rest == [] || !IsDigit(rest[0])
    ensures LeadingDigits(d + rest) == d
  {
    if d != [] {
      assert (d + rest)[1..] == d[1..] + rest;
      LeadingDigitsOfConcat(d[1..], rest);
    }
  }
}
