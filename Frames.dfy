/**
 * The inbound line decoder of the live engine: which kind of frame one
 * line is, with the fixed-position fields it carries, and how the console
 * writes a data value, so that decoding can be checked against encoding.
 */
module Frames {
  import opened JsText

  /** What one inbound line asks of the engine. */
  datatype Frame =
    | Handshake                                            // "_WR_"
    | Version(version: string)                             // "IV<model><major:2><minor:2>"
    | Data(size: string, address: string, digits: string)  // "ID<size><address:3><hex>"
    | Strobe                                               // "S..."
    | Chatter                                              // "O...", "E...", "P..."
    | Unrecognized

  /** The only firmware the engine reports without an error. */
  const ExpectedVersion: string := "S4 02.10"

  /** The number of byte pairs a size code stands for. */
  function Width(size: string): (w: Option<nat>)
    ensures w.Some? <==> size in {"S", "D", "T"}
    ensures w == Some(1) <==> size == "S"
    ensures w == Some(2) <==> size == "D"
    ensures w == Some(3) <==> size == "T"
  {
    if size == "S" then Some(1)
    else if size == "D" then Some(2)
    else if size == "T" then Some(3)
    else None
  }

  /** `'S' + model + ' ' + major + '.' + minor` from characters 2, 3-4 and 5-6. */
  function VersionString(line: string): (v: string)
    ensures |line| >= 7 ==> v == ['S', line[2], ' ', line[3], line[4], '.', line[5], line[6]]
  {
    "S" + CharAt(line, 2) + " " + Substring(line, 3, 5) + "." + Substring(line, 5, 7)
  }

  /** The dispatch on the first character. */
  function Classify(line: string): (f: Frame)
    ensures f == Handshake <==> line == "_WR_"
    ensures f == Strobe <==> |line| > 0 && line[0] == 'S'
    ensures f == Chatter <==> |line| > 0 && line[0] in "OEP"
    ensures f.Version? ==> |line| >= 2 && line[..2] == "IV"
    ensures f.Data? ==> |line| >= 3 && line[..2] == "ID" && line[2] in "SDT"
    ensures |line| > 0 && line[0] == 'I' ==> f == InformationFrame(line)
  {
    var c := CharAt(line, 0);
    if c == "_" then (if line == "_WR_" then Handshake else Unrecognized)
    else if c == "I" then InformationFrame(line)
    else if c == "O" || c == "E" || c == "P" then Chatter
    else if c == "S" then Strobe
    else Unrecognized
  }

  /** The dispatch of an "I" line on its second character. */
  function InformationFrame(line: string): (f: Frame)
    ensures f.Version? <==> |line| >= 2 && line[1] == 'V'
    ensures f.Data? ==> |line| >= 3 && line[1] == 'D' && line[2] in "SDT"
    ensures !f.Version? && !f.Data? ==> f == Unrecognized
    ensures f.Version? ==> f.version == VersionString(line)
    ensures |line| >= 2 && line[1] == 'D' ==> f == MemoryValueFrame(line)
  {
    var c := CharAt(line, 1);
    if c == "V" then Version(VersionString(line))
    else if c == "D" then MemoryValueFrame(line)
    else Unrecognized
  }

  /** The fields of an "ID" line: size code, address and `2 * width` digits. */
  function MemoryValueFrame(line: string): (f: Frame)
    ensures f.Data? <==> |line| >= 3 && line[2] in "SDT"
    ensures !f.Data? ==> f == Unrecognized
    ensures f.Data? ==> f.size == [line[2]] && |f.address| <= 3 && |f.digits| <= 2 * Width(f.size).value
    ensures f.Data? && |line| >= 6 + 2 * Width(f.size).value ==>
              f.address == line[3..6] && f.digits == line[6..6 + 2 * Width(f.size).value]
    ensures f.Data? && 6 <= |line| < 6 + 2 * Width(f.size).value ==>
              f.address == line[3..6] && f.digits == line[6..]
    ensures f.Data? && |line| < 6 ==> f.address == line[3..] && f.digits == ""
  {
    var size := CharAt(line, 2);
    match Width(size)
    case None => Unrecognized
    case Some(l) => Data(size, Substring(line, 3, 6), Substring(line, 6, 6 + 2 * l))
  }

  /**
   * The firmware check looks at characters 2 to 6 only: the version matches
   * exactly when the line has at least seven characters and those five are
   * "40210".
   */
  lemma VersionMatchesExactly(line: string)
    ensures VersionString(line) == ExpectedVersion <==> |line| >= 7 && line[2..7] == "40210"
  {
    var model, major, minor := CharAt(line, 2), Substring(line, 3, 5), Substring(line, 5, 7);
    var v := VersionString(line);
    assert v == "S" + model + " " + major + "." + minor;
    if |line| >= 7 {
      assert model == [line[2]] && major == [line[3], line[4]] && minor == [line[5], line[6]];
      assert v == ['S', line[2], ' ', line[3], line[4], '.', line[5], line[6]];
      assert line[2..7] == [line[2], line[3], line[4], line[5], line[6]];
    } else {
      assert |minor| < 2 by {
        if |line| >= 5 { assert minor == line[5..]; }
      }
      assert |major| <= 2 by {
        if |line| >= 5 { assert major == line[3..5]; }
      }
      assert |v| < |ExpectedVersion|;
    }
  }

  /** The firmware line of the supported console. */
  lemma SupportedFirmwareLine()
    ensures Classify("IV40210") == Version(ExpectedVersion)
  {
  }

  /** A console reporting firmware 02.00 is not the supported one. */
  lemma OtherFirmwareLine()
    ensures Classify("IV40200") == Version("S4 02.00")
    ensures "S4 02.00" != ExpectedVersion
  {
  }

  /** A data line whose size character is not S, D or T is unrecognized. */
  lemma BadSizeCodeIsUnrecognized(line: string)
    requires |line| >= 3 && line[0] == 'I' && line[1] == 'D' && line[2] !in "SDT"
    ensures Classify(line) == Unrecognized
  {
    assert CharAt(line, 0) == "I" && CharAt(line, 1) == "D";
    assert Width(CharAt(line, 2)).None?;
  }

  /** A data line that ends right after its address has an empty digit field. */
  lemma TruncatedDataLine(line: string)
    requires |line| == 6 && line[0] == 'I' && line[1] == 'D' && line[2] in "SDT"
    ensures Classify(line) == Data([line[2]], line[3..6], "")
  {
    var size := [line[2]];
    assert CharAt(line, 0) == "I" && CharAt(line, 1) == "D" && CharAt(line, 2) == size;
    var w := Width(size).value;
    assert Substring(line, 3, 6) == line[3..6];
    assert Substring(line, 6, 6 + 2 * w) == "" by {
      assert Clamp(6 + 2 * w, |line|) == 6;
    }
    assert MemoryValueFrame(line) == Data(size, line[3..6], "");
  }

  // ----- how the console writes a data value -----

  function Pow16(k: nat): nat
  {
    if k == 0 then 1 else 16 * Pow16(k - 1)
  }

  function HexDigit(d: nat): (c: char)
    requires d < 16
    ensures IsHexDigit(c) && DigitValue(c) == d
  {
    if d < 10 then ('0' as int + d) as char else ('A' as int + d - 10) as char
  }

  /** `n` written as exactly `width` upper-case hexadecimal digits. */
  function ToHex(n: nat, width: nat): (s: string)
    ensures |s| == width && AllHex(s)
  {
    if width == 0 then "" else ToHex(n / 16, width - 1) + [HexDigit(n % 16)]
  }

  /** The data line the console sends for a size code, an address and a value. */
  function DataLine(size: char, address: string, n: nat): string
    requires Width([size]).Some?
  {
    "ID" + [size] + address + ToHex(n, 2 * Width([size]).value)
  }

  lemma {:induction false} HexValueOfToHex(n: nat, width: nat)
    requires n < Pow16(width)
    ensures HexValue(ToHex(n, width)) == n
  {
    if width > 0 {
      var s := ToHex(n, width);
      assert s[..|s| - 1] == ToHex(n / 16, width - 1);
      assert s[|s| - 1] == HexDigit(n % 16);
      assert n / 16 < Pow16(width - 1);
      HexValueOfToHex(n / 16, width - 1);
    }
  }

  /** `parseInt(_, 16)` reads back exactly what the console wrote. */
  lemma ParseHexOfToHex(n: nat, width: nat)
    requires 1 <= width && n < Pow16(width)
    ensures ParseHex(ToHex(n, width)) == Num(n)
  {
    var s := ToHex(n, width);
    ParseHexOfDigits(s);
    HexValueOfToHex(n, width);
  }

  /** A non-empty run of hexadecimal digits parses to its value. */
  lemma ParseHexOfDigits(s: string)
    requires |s| >= 1 && AllHex(s)
    ensures ParseHex(s) == Num(HexValue(s))
  {
    ParseHexReadsLeadingDigits(s, "");
    assert s + "" == s;
  }

  /**
   * `parseInt(_, 16)` reads the leading run of digits and ignores what follows
   * the first non-digit, except that a lone `0` followed by `x` or `X` is a
   * radix prefix.
   */
  lemma ParseHexReadsLeadingDigits(s: string, rest: string)
    requires |s| >= 1 && AllHex(s)
    requires rest != [] ==> !IsHexDigit(rest[0])
    requires rest != [] && s == "0" ==> rest[0] != 'x' && rest[0] != 'X'
    ensures ParseHex(s + rest) == Num(HexValue(s))
  {
    var u := s + rest;
    assert u[0] == s[0];
    assert |u| >= 2 && u[0] == '0' ==> u[1] != 'x' && u[1] != 'X' by {
      if |u| >= 2 && |s| >= 2 {
        assert u[1] == s[1];
      } else if |u| >= 2 {
        assert u[1] == rest[0];
      }
    }
    HexPrefixOfConcat(s, rest);
    assert u[..|s|] == s;
    ParseHexOfPlainDigits(u);
  }

  /**
   * A string that starts with a digit, and not with a `0x`/`0X` prefix, parses
   * to the value of its leading run of digits.
   */
  lemma ParseHexOfPlainDigits(u: string)
    requires |u| >= 1 && IsHexDigit(u[0])
    requires |u| >= 2 && u[0] == '0' ==> u[1] != 'x' && u[1] != 'X'
    ensures HexPrefixLength(u) >= 1
    ensures ParseHex(u) == Num(HexValue(u[..HexPrefixLength(u)]))
  {
    NothingToStrip(u);
    assert !(u[0] == '-');
    assert StripRadixPrefix(StripSign(TrimStart(u))) == u;
    assert HexPrefixLength(u) >= 1;
  }

  /** Nothing precedes the digits of a string that starts with a digit, other than a `0x`/`0X` prefix. */
  lemma NothingToStrip(u: string)
    requires |u| >= 1 && IsHexDigit(u[0])
    requires |u| >= 2 && u[0] == '0' ==> u[1] != 'x' && u[1] != 'X'
    ensures TrimStart(u) == u && StripSign(u) == u && StripRadixPrefix(u) == u
  {
    assert !IsJsWhiteSpace(u[0]);
  }

  lemma {:induction false} HexPrefixOfConcat(s: string, rest: string)
    requires AllHex(s)
    requires rest != [] ==> !IsHexDigit(rest[0])
    ensures HexPrefixLength(s + rest) == |s|
  {
    if s == [] {
      assert s + rest == rest;
    } else {
      assert (s + rest)[0] == s[0];
      assert (s + rest)[1..] == s[1..] + rest;
      HexPrefixOfConcat(s[1..], rest);
    }
  }

  /** A field that starts with no digit, space or sign (or is empty) parses to NaN. */
  lemma NoDigitsIsNaN(s: string)
    requires s != [] ==> !IsHexDigit(s[0]) && !IsJsWhiteSpace(s[0]) && s[0] != '-' && s[0] != '+'
    ensures ParseHex(s) == NaN
  {
    assert TrimStart(s) == s;
    assert StripSign(s) == s;
    assert StripRadixPrefix(s) == s;
    assert HexPrefixLength(s) == 0;
  }

  /** Leading white space and line terminators do not change what `parseInt(_, 16)` reads. */
  lemma ParseHexSkipsWhiteSpace(ws: string, s: string)
    requires forall i | 0 <= i < |ws| :: IsJsWhiteSpace(ws[i])
    requires s != [] ==> !IsJsWhiteSpace(s[0])
    ensures ParseHex(ws + s) == ParseHex(s)
  {
    TrimStartOfBlank(ws, s);
    assert TrimStart(s) == s;
  }

  lemma {:induction false} TrimStartOfBlank(ws: string, s: string)
    requires forall i | 0 <= i < |ws| :: IsJsWhiteSpace(ws[i])
    requires s != [] ==> !IsJsWhiteSpace(s[0])
    ensures TrimStart(ws + s) == s
  {
    if ws == [] {
      assert ws + s == s;
    } else {
      assert (ws + s)[0] == ws[0];
      assert (ws + s)[1..] == ws[1..] + s;
      TrimStartOfBlank(ws[1..], s);
    }
  }

  /**
   * One leading sign: `-` negates what the rest reads and `+` keeps it; a sign
   * followed by no digits gives NaN. The rest must not start with white space
   * or a second sign, which `parseInt` does not skip after a sign.
   */
  lemma ParseHexSign(sign: char, u: string)
    requires sign == '-' || sign == '+'
    requires u != [] ==> !IsJsWhiteSpace(u[0]) && u[0] != '-' && u[0] != '+'
    ensures ParseHex([sign] + u).Num? <==> ParseHex(u).Num?
    ensures !ParseHex(u).Num? ==> ParseHex([sign] + u) == NaN
    ensures ParseHex(u).Num? ==>
              ParseHex([sign] + u).n == if sign == '-' then -ParseHex(u).n else ParseHex(u).n
  {
    SignedStart(sign, u);
    UnsignedStart(u);
    var v := StripRadixPrefix(u);
    assert ParseHex([sign] + u) == ReadDigits(v, sign == '-');
    assert ParseHex(u) == ReadDigits(v, false);
  }

  /**
   * `parseInt` takes one sign only, directly before the digits: a sign
   * followed by white space or by a second sign gives NaN.
   */
  lemma SignThenNoDigitIsNaN(sign: char, u: string)
    requires sign == '-' || sign == '+'
    requires u != [] && (IsJsWhiteSpace(u[0]) || u[0] == '-' || u[0] == '+')
    ensures ParseHex([sign] + u) == NaN
  {
    SignedStart(sign, u);
    assert StripRadixPrefix(u) == u;
    assert HexPrefixLength(u) == 0;
  }

  lemma SignedStart(sign: char, u: string)
    requires sign == '-' || sign == '+'
    ensures TrimStart([sign] + u) == [sign] + u && StripSign([sign] + u) == u
  {
    var t := [sign] + u;
    assert !IsJsWhiteSpace(t[0]);
    assert t[1..] == u;
  }

  lemma UnsignedStart(u: string)
    requires u != [] ==> !IsJsWhiteSpace(u[0]) && u[0] != '-' && u[0] != '+'
    ensures TrimStart(u) == u && StripSign(u) == u
  {
  }

  /**
   * A `0x` or `0X` prefix is skipped: the digits after it are read, and a
   * prefix with no digit after it gives NaN.
   */
  lemma ParseHexRadixPrefix(x: char, s: string, rest: string)
    requires x == 'x' || x == 'X'
    requires AllHex(s)
    requires rest != [] ==> !IsHexDigit(rest[0])
    ensures ParseHex(['0', x] + s + rest) == if s == [] then NaN else Num(HexValue(s))
  {
    var u := ['0', x] + s + rest;
    assert u[0] == '0' && u[1] == x;
    assert TrimStart(u) == u by { assert !IsJsWhiteSpace(u[0]); }
    assert StripSign(u) == u;
    assert StripRadixPrefix(u) == s + rest;
    HexPrefixOfConcat(s, rest);
    assert (s + rest)[..|s|] == s;
  }

  /**
   * Round trip of the data frame: the decoder recovers the size code, the
   * address and the digits the console wrote, whatever follows them on the
   * line, and the digits parse back to the value.
   */
  lemma DataLineRoundTrip(size: char, address: string, n: nat, rest: string)
    requires Width([size]).Some? && |address| == 3
    requires n < Pow16(2 * Width([size]).value)
    ensures Classify(DataLine(size, address, n) + rest)
         == Data([size], address, ToHex(n, 2 * Width([size]).value))
    ensures ParseHex(ToHex(n, 2 * Width([size]).value)) == Num(n)
  {
    var w := 2 * Width([size]).value;
    var hex := ToHex(n, w);
    var line := DataLine(size, address, n) + rest;
    assert line == "ID" + [size] + address + hex + rest;
    assert line[0] == 'I' && line[1] == 'D' && line[2] == size;
    assert line[3..6] == address;
    assert line[6..6 + w] == hex;
    ClassifyDataLine(line);
    ParseHexOfToHex(n, w);
  }

  /** A data line long enough for its size code carries the address and digits at their fixed positions. */
  lemma ClassifyDataLine(line: string)
    requires |line| >= 3 && line[0] == 'I' && line[1] == 'D' && Width([line[2]]).Some?
    requires |line| >= 6 + 2 * Width([line[2]]).value
    ensures Classify(line) == Data([line[2]], line[3..6], line[6..6 + 2 * Width([line[2]]).value])
  {
    assert CharAt(line, 0) == "I" && CharAt(line, 1) == "D";
  }
}
