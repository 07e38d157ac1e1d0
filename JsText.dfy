/**
 * The few pieces of JavaScript semantics that the S4 engines depend on:
 * `charAt`, `substring`, `toLowerCase` on the identifiers the port search
 * compares, `parseInt(_, 16)`, multiplication of a parsed number, and the
 * strict inequality `!==` that decides whether a reading changed.
 */
module JsText {

  datatype Option<+T> = None | Some(value: T)

  /** A numeric field of a memory-map entry as JavaScript holds it. */
  datatype Reading = Undefined | NaN | Num(n: int)

  /** `s.charAt(i)`: the one-character string at `i`, or "" out of range. */
  function CharAt(s: string, i: int): (c: string)
    ensures 0 <= i < |s| ==> c == [s[i]]
    ensures !(0 <= i < |s|) ==> c == ""
  {
    if 0 <= i < |s| then [s[i]] else ""
  }

  function Clamp(x: int, n: nat): nat
  {
    if x < 0 then 0 else if x > n then n else x
  }

  /**
   * `s.substring(start, end)`: both bounds are clamped to `[0, |s|]` and
   * swapped when they come in the wrong order.
   */
  function Substring(s: string, start: int, end: int): (r: string)
    ensures 0 <= start <= end <= |s| ==> r == s[start..end]
    ensures |r| <= |s|
  {
    var a := Clamp(start, |s|);
    var b := Clamp(end, |s|);
    if a <= b then s[a..b] else s[b..a]
  }

  /** Out-of-range bounds of `substring` are clamped, and swapped bounds give the same slice. */
  lemma SubstringClampsAndSwaps(s: string, start: int, end: int)
    ensures Substring(s, start, end) == Substring(s, end, start)
    ensures start < 0 ==> Substring(s, start, end) == Substring(s, 0, end)
    ensures start > |s| ==> Substring(s, start, end) == Substring(s, |s|, end)
    ensures end < 0 ==> Substring(s, start, end) == Substring(s, start, 0)
    ensures end > |s| ==> Substring(s, start, end) == Substring(s, start, |s|)
  {
  }

  /** ASCII case folding, as `toLowerCase` does on every character that can
      fold onto the digits and letters of a hexadecimal identifier. */
  function ToLower(s: string): (r: string)
    ensures |r| == |s|
    ensures forall i | 0 <= i < |s| ::
              r[i] == if 'A' <= s[i] <= 'Z' then (s[i] as int + 32) as char else s[i]
  {
    if s == [] then []
    else
      var c := s[0];
      [if 'A' <= c <= 'Z' then (c as int + 32) as char else c] + ToLower(s[1..])
  }

  /** The white space and line terminators that `parseInt` skips before the number. */
  predicate IsJsWhiteSpace(c: char)
  {
    var n := c as int;
    n == 0x09 || n == 0x0A || n == 0x0B || n == 0x0C || n == 0x0D || n == 0x20 ||
    n == 0xA0 || n == 0x1680 || (0x2000 <= n <= 0x200A) || n == 0x2028 ||
    n == 0x2029 || n == 0x202F || n == 0x205F || n == 0x3000 || n == 0xFEFF
  }

  function TrimStart(s: string): (r: string)
    ensures |r| <= |s| && r == s[|s| - |r|..]
    ensures r == [] || !IsJsWhiteSpace(r[0])
    ensures forall i | 0 <= i < |s| - |r| :: IsJsWhiteSpace(s[i])
  {
    if s != [] && IsJsWhiteSpace(s[0]) then TrimStart(s[1..]) else s
  }

  predicate IsHexDigit(c: char)
  {
    '0' <= c <= '9' || 'a' <= c <= 'f' || 'A' <= c <= 'F'
  }

  predicate AllHex(s: string)
  {
    forall i | 0 <= i < |s| :: IsHexDigit(s[i])
  }

  function DigitValue(c: char): (d: nat)
    requires IsHexDigit(c)
    ensures d < 16
  {
    if '0' <= c <= '9' then c as int - '0' as int
    else if 'a' <= c <= 'f' then c as int - 'a' as int + 10
    else c as int - 'A' as int + 10
  }

  /** The length of the longest prefix of `s` made of hexadecimal digits. */
  function HexPrefixLength(s: string): (k: nat)
    ensures k <= |s| && AllHex(s[..k])
    ensures k < |s| ==> !IsHexDigit(s[k])
  {
    if s == [] || !IsHexDigit(s[0]) then 0
    else
      var k := 1 + HexPrefixLength(s[1..]);
      assert s[..k] == [s[0]] + s[1..][..k - 1];
      k
  }

  /** The value of a string of hexadecimal digits, most significant first. */
  function HexValue(s: string): nat
    requires AllHex(s)
  {
    if s == [] then 0 else 16 * HexValue(s[..|s| - 1]) + DigitValue(s[|s| - 1])
  }

  /** An optional leading sign removed. */
  function StripSign(t: string): string
  {
    if |t| > 0 && (t[0] == '-' || t[0] == '+') then t[1..] else t
  }

  /** An optional `0x` or `0X` removed, as radix 16 allows. */
  function StripRadixPrefix(u: string): string
  {
    if |u| >= 2 && u[0] == '0' && (u[1] == 'x' || u[1] == 'X') then u[2..] else u
  }

  /**
   * `parseInt(s, 16)`: skip leading white space, take an optional sign and an
   * optional `0x`/`0X` prefix, then read the longest run of hexadecimal digits;
   * no digit at all gives NaN.
   */
  function ParseHex(s: string): (r: Reading)
    ensures r != Undefined
    ensures TrimStart(s) == [] ==> r == NaN
    ensures r.Num? && r.n < 0 ==> TrimStart(s)[0] == '-'
  {
    var t := TrimStart(s);
    ReadDigits(StripRadixPrefix(StripSign(t)), |t| > 0 && t[0] == '-')
  }

  /** The leading run of digits of `v`, negated when a minus sign preceded it; NaN without digits. */
  function ReadDigits(v: string, negative: bool): Reading
  {
    var k := HexPrefixLength(v);
    if k == 0 then NaN
    else if negative then Num(-(HexValue(v[..k]) as int))
    else Num(HexValue(v[..k]))
  }

  /** JavaScript truthiness of an optional numeric field. */
  predicate Truthy(m: Option<int>)
  {
    m.Some? && m.value != 0
  }

  /** `x * m` on a reading: NaN and undefined give NaN. */
  function Times(x: Reading, m: int): (r: Reading)
    ensures x.Num? <==> r.Num?
    ensures x.Num? ==> r.n == x.n * m
    ensures !x.Num? ==> r == NaN
  {
    match x
    case Num(n) => Num(n * m)
    case _ => NaN
  }

  /** `a !== b`: NaN differs from everything, undefined equals only undefined. */
  predicate StrictlyDiffers(a: Reading, b: Reading)
    ensures StrictlyDiffers(a, b) <==> a != b || a == NaN
  {
    match (a, b)
    case (Num(x), Num(y)) => x != y
    case (Undefined, Undefined) => false
    case _ => true
  }

  lemma StrictlyDiffersFacts(a: Reading, b: Reading)
    ensures StrictlyDiffers(a, b) == StrictlyDiffers(b, a)
    ensures a != NaN ==> !StrictlyDiffers(a, a)
    ensures StrictlyDiffers(NaN, b)
    ensures a != b ==> StrictlyDiffers(a, b)
  {
  }
}
