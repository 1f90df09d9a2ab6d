/**
 * The part of the URL Standard's `hostname` setter that a frontend switch in
 * src/components/DevBar/Index.tsx can reach: the host parser's "ends in a
 * number" check and its IPv4 parser (sections 3.5 and 4.4 of the URL
 * Standard). When the parser fails the setter leaves the URL unchanged.
 */
module UrlHost {
  import opened Wrappers
  import opened Text
  import opened Hosts

  /** A digit of base `radix`: 8, 10, or 16 in either case. */
  predicate IsRadixDigit(c: char, radix: nat)
  {
    if radix == 16 then IsDigit(c) || 'a' <= c <= 'f' || 'A' <= c <= 'F'
    else if radix == 8 then '0' <= c <= '7'
    else IsDigit(c)
  }

  /** The value of one hexadecimal (or smaller radix) digit. */
  function DigitValue(c: char): nat
  {
    if IsDigit(c) then c as int - '0' as int
    else if 'a' <= c <= 'f' then c as int - 'a' as int + 10
    else if 'A' <= c <= 'F' then c as int - 'A' as int + 10
    else 0
  }

  /** The value of a string of digits in base `radix`, most significant first. */
  function RadixValue(s: string, radix: nat): nat
  {
    if s == [] then 0 else RadixValue(s[..|s| - 1], radix) * radix + DigitValue(s[|s| - 1])
  }

  /** The IPv4 number parser: `0x` starts hexadecimal, another leading `0` octal, else decimal; `None` is failure. */
  function ParseIPv4Number(s: string): (n: Option<nat>)
    ensures s != [] && s[0] != '0' && (exists i :: 0 <= i < |s| && !IsDigit(s[i])) ==> n.None?
  {
    if s == [] then None
    else
      var hex := |s| >= 2 && s[0] == '0' && (s[1] == 'x' || s[1] == 'X');
      var radix := if hex then 16 else if |s| >= 2 && s[0] == '0' then 8 else 10;
      var digits := if hex then s[2..] else if radix == 8 then s[1..] else s;
      if forall i :: 0 <= i < |digits| ==> IsRadixDigit(digits[i], radix) then Some(RadixValue(digits, radix))
      else None
  }

  /** The labels the host parser reads: one trailing empty label is dropped. */
  function HostParts(input: string): (parts: seq<string>)
    ensures |parts| >= 1
    ensures Labels(input)[|Labels(input)| - 1] != "" ==> parts == Labels(input)
  {
    var labels := Labels(input);
    if |labels| > 1 && labels[|labels| - 1] == "" then labels[..|labels| - 1] else labels
  }

  /** The "ends in a number" checker: the last label is all digits, or parses as an IPv4 number. */
  predicate EndsInNumber(input: string)
  {
    var parts := HostParts(input);
    var last := parts[|parts| - 1];
    input != "" && (IsDigits(last) || ParseIPv4Number(last).Some?)
  }

  /** Rewriting the first label of a host of three or more labels does not change whether it ends in a number. */
  lemma EndsInNumberIgnoresFirstLabel(a: string, b: string)
    requires |Labels(b)| >= 3 && Labels(a) == Labels(b)[0 := Labels(a)[0]]
    ensures EndsInNumber(a) == EndsInNumber(b)
  {
    var la, lb := Labels(a), Labels(b);
    var n := |lb|;
    assert la[n - 1] == lb[n - 1] && la[n - 2] == lb[n - 2];
    assert HostParts(a)[|HostParts(a)| - 1] == HostParts(b)[|HostParts(b)| - 1];
  }

  function Pow256(k: nat): nat
  {
    if k == 0 then 1 else 256 * Pow256(k - 1)
  }

  /** The address bits the leading numbers give: `numbers[i] * 256^(3 - i)` summed. */
  function Leading(numbers: seq<nat>): nat
    requires |numbers| <= 3
  {
    if numbers == [] then 0
    else Leading(numbers[..|numbers| - 1]) + numbers[|numbers| - 1] * Pow256(3 - (|numbers| - 1))
  }

  /** The IPv4 parser: at most four numbers, every one but the last below 256, the last filling the remaining bytes. */
  function ParseIPv4(input: string): (address: Option<nat>)
    ensures (exists i :: 0 <= i < |HostParts(input)| && ParseIPv4Number(HostParts(input)[i]).None?) ==> address.None?
  {
    var parts := HostParts(input);
    var n := |parts|;
    if n > 4 || exists i :: 0 <= i < n && ParseIPv4Number(parts[i]).None? then None
    else
      var numbers := seq(n, i requires 0 <= i < n => ParseIPv4Number(parts[i]).value);
      if (exists i :: 0 <= i < n - 1 && numbers[i] > 255) || numbers[n - 1] >= Pow256(5 - n) then None
      else Some(Leading(numbers[..n - 1]) + numbers[n - 1])
  }

  /** The IPv4 serializer: four decimal bytes, most significant first, joined by dots. */
  function SerializeIPv4(address: nat): (host: string)
    ensures IsDottedQuad(host)
  {
    var parts := [Decimal(address / 16777216 % 256), Decimal(address / 65536 % 256), Decimal(address / 256 % 256), Decimal(address % 256)];
    assert forall i :: 0 <= i < 4 ==> IsDigits(parts[i]) && '.' !in parts[i];
    LabelsOfJoin(Join(parts, '.'), parts);
    Join(parts, '.')
  }

  /**
   * `url.hostname = input` on an `http:` or `https:` URL whose host is
   * `current`: the new host, or `current` when the input is empty or ends in
   * a number but is not an IPv4 address. A numeric host is stored in its
   * serialized form.
   */
  function SetHostname(current: string, input: string): (host: string)
    ensures host == current || host == input || IsDottedQuad(host)
    ensures input != "" && !EndsInNumber(input) ==> host == input
    ensures EndsInNumber(input) ==> host == current || IsDottedQuad(host)
  {
    if input == "" then current
    else if EndsInNumber(input) then
      match ParseIPv4(input)
      case Some(address) => SerializeIPv4(address)
      case None => current
    else input
  }
}
