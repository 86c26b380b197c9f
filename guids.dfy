/** 128-bit identifiers (`System.Guid`) as the plugin uses them: the 32-hex-digit "N"
    text form, the 8-4-4-4-12 "D" text form of section 3 of RFC 4122 (the form
    `Guid.ToString()` produces), and the conversion of a numeric Xbox user id (XUID)
    into an identifier. */
module Guids {
  import opened Common
  import opened Text

  type HexDigit = d: int | 0 <= d < 16

  /** The 32 hexadecimal digits of an identifier, most significant first. */
  type Guid = s: seq<HexDigit> | |s| == 32 witness seq(32, i => 0)

  /** `Guid.Empty`, the all-zero identifier the lookups return on failure. */
  const Empty: Guid := [0, 0, 0, 0, 0, 0, 0, 0, 0, 0, 0, 0, 0, 0, 0, 0,
    0, 0, 0, 0, 0, 0, 0, 0, 0, 0, 0, 0, 0, 0, 0, 0]

  const LowerDigits: string := "0123456789abcdef"
  const UpperDigits: string := "0123456789ABCDEF"

  /** The digit a hexadecimal character stands for, in either case. */
  function HexValue(c: char): Option<HexDigit>
  {
    if '0' <= c <= '9' then Some(c as int - '0' as int)
    else if 'a' <= c <= 'f' then Some(c as int - 'a' as int + 10)
    else if 'A' <= c <= 'F' then Some(c as int - 'A' as int + 10)
    else None
  }

  /** Each digit's characters read back as that digit, and none of them is white space. */
  lemma DigitCharsRoundTrip(d: HexDigit)
    ensures HexValue(LowerDigits[d]) == Some(d)
    ensures HexValue(UpperDigits[d]) == Some(d)
    ensures !IsWhiteSpace(LowerDigits[d]) && !IsWhiteSpace(UpperDigits[d])
  {
  }

  function Lower(ds: seq<HexDigit>): (s: string)
    ensures |s| == |ds|
  {
    seq(|ds|, i requires 0 <= i < |ds| => LowerDigits[ds[i]])
  }

  function Upper(ds: seq<HexDigit>): (s: string)
    ensures |s| == |ds|
  {
    seq(|ds|, i requires 0 <= i < |ds| => UpperDigits[ds[i]])
  }

  /** The digits of a text made only of hexadecimal characters. */
  function ParseHex(s: string): (r: Option<seq<HexDigit>>)
    ensures r.Some? ==> |r.value| == |s|
  {
    if forall i :: 0 <= i < |s| ==> HexValue(s[i]).Some? then
      Some(seq(|s|, i requires 0 <= i < |s| && HexValue(s[i]).Some? => HexValue(s[i]).value))
    else None
  }

  /** The "N" layout: exactly 32 hexadecimal characters. */
  function LayoutN(t: string): Option<Guid>
  {
    if |t| != 32 then None
    else match ParseHex(t)
      case Some(ds) => Some(ds)
      case None => None
  }

  /** `Guid.ParseExact(s, "N")`: white space around the text is ignored, and the rest
      must have the "N" layout. */
  function ParseN(s: string): Option<Guid>
  {
    LayoutN(Trim(s))
  }

  /** `Guid.ToString()`: lower-case digits grouped 8-4-4-4-12 with dashes. */
  function FormatD(g: Guid): (s: string)
    ensures |s| == 36
  {
    Lower(g[..8]) + "-" + Lower(g[8..12]) + "-" + Lower(g[12..16]) + "-"
      + Lower(g[16..20]) + "-" + Lower(g[20..])
  }

  /** The "D" layout: dashes at 8, 13, 18 and 23 and 32 hexadecimal characters around
      them. */
  function LayoutD(t: string): Option<Guid>
  {
    if |t| != 36 || t[8] != '-' || t[13] != '-' || t[18] != '-' || t[23] != '-' then None
    else LayoutN(t[..8] + t[9..13] + t[14..18] + t[19..23] + t[24..])
  }

  /** `Guid.ParseExact(s, "D")`: white space around the text is ignored, and the rest
      must have the "D" layout. */
  function ParseD(s: string): Option<Guid>
  {
    LayoutD(Trim(s))
  }

  lemma ParseHexLower(ds: seq<HexDigit>)
    ensures ParseHex(Lower(ds)) == Some(ds)
  {
    var s := Lower(ds);
    forall i | 0 <= i < |s| ensures HexValue(s[i]) == Some(ds[i]) {
      DigitCharsRoundTrip(ds[i]);
    }
    var r := ParseHex(s);
    assert r.Some? && |r.value| == |ds|;
    forall i | 0 <= i < |ds| ensures r.value[i] == ds[i] {
    }
    assert r.value == ds;
    assert r == Some(ds);
  }

  lemma ParseHexUpper(ds: seq<HexDigit>)
    ensures ParseHex(Upper(ds)) == Some(ds)
  {
    var s := Upper(ds);
    forall i | 0 <= i < |s| ensures HexValue(s[i]) == Some(ds[i]) {
      DigitCharsRoundTrip(ds[i]);
    }
    var r := ParseHex(s);
    assert r.Some? && |r.value| == |ds|;
    forall i | 0 <= i < |ds| ensures r.value[i] == ds[i] {
    }
    assert r.value == ds;
    assert r == Some(ds);
  }

  /** The "D" text of an identifier starts and ends with a digit, not white space. */
  lemma FormatDEnds(g: Guid)
    ensures !IsWhiteSpace(FormatD(g)[0]) && !IsWhiteSpace(FormatD(g)[35])
  {
    var s := FormatD(g);
    assert s[35] == Lower(g[20..])[11] == LowerDigits[g[31]];
    assert s[0] == LowerDigits[g[0]];
    DigitCharsRoundTrip(g[0]);
    DigitCharsRoundTrip(g[31]);
  }

  /** Trimming keeps the "D" text of an identifier. */
  lemma FormatDTrimmed(g: Guid)
    ensures Trim(FormatD(g)) == FormatD(g)
  {
    var s := FormatD(g);
    FormatDEnds(g);
    TrimPadded([], s, []);
    assert [] + s + [] == s;
  }

  lemma LayoutFormatD(g: Guid)
    ensures LayoutD(FormatD(g)) == Some(g)
  {
    var s := FormatD(g);
    var a, b, c, d, e := Lower(g[..8]), Lower(g[8..12]), Lower(g[12..16]), Lower(g[16..20]), Lower(g[20..]);
    assert s == a + "-" + b + "-" + c + "-" + d + "-" + e;
    assert s[..8] == a && s[9..13] == b && s[14..18] == c && s[19..23] == d && s[24..] == e;
    var joined := s[..8] + s[9..13] + s[14..18] + s[19..23] + s[24..];
    assert joined == Lower(g) by {
      assert g == g[..8] + g[8..12] + g[12..16] + g[16..20] + g[20..];
    }
    ParseHexLower(g);
  }

  /** Every identifier the plugin formats (and stores in the user cache) parses back
      to itself, so the cache-hit parse cannot fail on entries the plugin wrote. */
  lemma ParseFormatD(g: Guid)
    ensures ParseD(FormatD(g)) == Some(g)
  {
    FormatDTrimmed(g);
    LayoutFormatD(g);
  }

  /** White space around an identifier's lower-case "N" text is ignored. */
  lemma ParseNIgnoresSpace(g: Guid, before: string, after: string)
    requires forall i :: 0 <= i < |before| ==> IsWhiteSpace(before[i])
    requires forall i :: 0 <= i < |after| ==> IsWhiteSpace(after[i])
    ensures ParseN(before + Lower(g) + after) == Some(g)
  {
    var n := Lower(g);
    assert n[0] == LowerDigits[g[0]] && n[31] == LowerDigits[g[31]];
    DigitCharsRoundTrip(g[0]);
    DigitCharsRoundTrip(g[31]);
    TrimPadded(before, n, after);
    ParseHexLower(g);
  }

  /** White space around an identifier's "D" text is ignored. */
  lemma ParseDIgnoresSpace(g: Guid, before: string, after: string)
    requires forall i :: 0 <= i < |before| ==> IsWhiteSpace(before[i])
    requires forall i :: 0 <= i < |after| ==> IsWhiteSpace(after[i])
    ensures ParseD(before + FormatD(g) + after) == Some(g)
  {
    FormatDEnds(g);
    TrimPadded(before, FormatD(g), after);
    LayoutFormatD(g);
  }

  /** The value of a digit sequence read as a big-endian hexadecimal number. */
  function BigEndian(ds: seq<HexDigit>): nat
  {
    if ds == [] then 0 else BigEndian(ds[..|ds| - 1]) * 16 + ds[|ds| - 1]
  }

  /** `n.ToString("X")` for a non-negative value: digits without leading zeros, "0" for 0. */
  function HexDigits(n: nat): (ds: seq<HexDigit>)
    ensures |ds| >= 1
  {
    if n < 16 then [n] else HexDigits(n / 16) + [n % 16]
  }

  function Pow16(k: nat): nat
  {
    if k == 0 then 1 else 16 * Pow16(k - 1)
  }

  lemma {:induction false} HexDigitsValue(n: nat)
    ensures BigEndian(HexDigits(n)) == n
  {
    if n >= 16 {
      HexDigitsValue(n / 16);
      var ds := HexDigits(n);
      assert ds[..|ds| - 1] == HexDigits(n / 16);
    }
  }

  lemma {:induction false} HexDigitsLength(n: nat, k: nat)
    requires 1 <= k && n < Pow16(k)
    ensures |HexDigits(n)| <= k
  {
    if n >= 16 {
      assert k > 1;
      HexDigitsLength(n / 16, k - 1);
    }
  }

  lemma {:induction false} BigEndianLeadingZeros(z: nat, ds: seq<HexDigit>)
    ensures BigEndian(seq(z, i => 0) + ds) == BigEndian(ds)
    decreases |ds|, z
  {
    var zs: seq<HexDigit> := seq(z, i => 0);
    if ds == [] {
      assert zs + ds == zs;
      if z > 0 {
        assert zs[..z - 1] == seq(z - 1, i => 0);
        BigEndianLeadingZeros(z - 1, []);
        assert seq(z - 1, i => 0) + [] == seq(z - 1, i => 0);
      }
    } else {
      var all := zs + ds;
      assert all[..|all| - 1] == zs + ds[..|ds| - 1];
      BigEndianLeadingZeros(z, ds[..|ds| - 1]);
    }
  }

  /** A digit sequence reads as zero exactly when every digit is zero. */
  lemma {:induction false} BigEndianZero(ds: seq<HexDigit>)
    ensures BigEndian(ds) == 0 <==> forall i :: 0 <= i < |ds| ==> ds[i] == 0
  {
    if ds != [] {
      var front := ds[..|ds| - 1];
      BigEndianZero(front);
      assert forall i :: 0 <= i < |front| ==> front[i] == ds[i];
    }
  }

  /** `Guid.Empty` is the only identifier whose digits read as zero. */
  lemma EmptyIsZero(g: Guid)
    ensures g == Empty <==> BigEndian(g) == 0
  {
    BigEndianZero(g);
    if BigEndian(g) == 0 {
      assert forall i :: 0 <= i < 32 ==> g[i] == Empty[i];
    }
    BigEndianZero(Empty);
  }

  /** A signed 64-bit integer (`long`), the type of the `xuid` response field. */
  type Int64 = x: int | -0x8000_0000_0000_0000 <= x < 0x8000_0000_0000_0000

  /** The bits of a `long` read as an unsigned number (two's complement). */
  function Unsigned64(x: Int64): nat
  {
    if x >= 0 then x else x + 0x1_0000_0000_0000_0000
  }

  /** `PadLeft(width, c)`. */
  function PadLeft(s: string, width: nat, c: char): (r: string)
    ensures |r| == if |s| >= width then |s| else width
  {
    if |s| >= width then s else seq(width - |s|, i => c) + s
  }

  /** `xuid.ToString("X").PadLeft(32, '0')`: upper-case hexadecimal, left-padded to 32. */
  function XuidText(x: Int64): string
  {
    PadLeft(Upper(HexDigits(Unsigned64(x))), 32, '0')
  }

  /** The XUID text always has 32 characters, of which the first 16 are '0'; it always
      parses as an "N" identifier, so the parse failure branch of the XUID query is
      unreachable; and the identifier's digits read as a big-endian number give back the
      64 bits of the XUID. */
  lemma XuidTextParses(x: Int64)
    ensures |XuidText(x)| == 32
    ensures forall i :: 0 <= i < 16 ==> XuidText(x)[i] == '0'
    ensures Trim(XuidText(x)) == XuidText(x)
    ensures ParseN(XuidText(x)).Some?
    ensures BigEndian(ParseN(XuidText(x)).value) == Unsigned64(x)
  {
    var u := Unsigned64(x);
    assert Pow16(4) == 0x1_0000;
    assert Pow16(8) == 0x1_0000_0000;
    assert Pow16(12) == 0x1_0000_0000_0000;
    assert Pow16(16) == 0x1_0000_0000_0000_0000;
    HexDigitsLength(u, 16);
    var ds := HexDigits(u);
    var z := 32 - |ds|;
    var zs: seq<HexDigit> := seq(z, i => 0);
    var padded := zs + ds;
    assert XuidText(x) == Upper(padded) by {
      assert XuidText(x) == seq(z, i => '0') + Upper(ds);
      forall i | 0 <= i < 32 ensures XuidText(x)[i] == Upper(padded)[i] {
        if i >= z {
          assert padded[i] == ds[i - z];
        }
      }
    }
    assert XuidText(x)[31] == UpperDigits[padded[31]];
    DigitCharsRoundTrip(padded[31]);
    TrimPadded([], XuidText(x), []);
    assert [] + XuidText(x) + [] == XuidText(x);
    ParseHexUpper(padded);
    assert ParseN(XuidText(x)) == Some(padded);
    BigEndianLeadingZeros(z, ds);
    HexDigitsValue(u);
  }

  /** The worked example: XUID 12345 (0x3039) becomes 00000000-0000-0000-0000-000000003039. */
  lemma XuidExample(x: Int64)
    requires x == 12345
    ensures ParseN(XuidText(x)).Some?
    ensures FormatD(ParseN(XuidText(x)).value) == "00000000-0000-0000-0000-000000003039"
  {
    var ds: seq<HexDigit> := [3, 0, 3, 9];
    assert HexDigits(12345) == ds by {
      assert HexDigits(771) == [3, 0, 3];
    }
    var padded: seq<HexDigit> := seq(28, i => 0) + ds;
    XuidTextParses(x);
    assert XuidText(x) == seq(28, i => '0') + Upper(ds);
    ParseHexUpper(padded);
    assert Upper(padded) == XuidText(x) by {
      assert Upper(padded) == seq(28, i => '0') + Upper(ds);
    }
    assert ParseN(XuidText(x)) == Some(padded);
    XuidExampleFormat(padded);
  }

  lemma XuidExampleFormat(g: Guid)
    requires g == seq(28, i => 0) + [3, 0, 3, 9]
    ensures FormatD(g) == "00000000-0000-0000-0000-000000003039"
  {
    assert forall i :: 0 <= i < 20 ==> g[i] == 0;
    assert g[20..] == [0, 0, 0, 0, 0, 0, 0, 0, 3, 0, 3, 9];
    LowerZeros(g[..8]);
    LowerZeros(g[8..12]);
    LowerZeros(g[12..16]);
    LowerZeros(g[16..20]);
    assert seq(8, i => '0') == "00000000" && seq(4, i => '0') == "0000";
    assert Lower([0, 0, 0, 0, 0, 0, 0, 0, 3, 0, 3, 9]) == "000000003039";
  }

  /** Zero digits print as '0'. */
  lemma LowerZeros(ds: seq<HexDigit>)
    requires forall i :: 0 <= i < |ds| ==> ds[i] == 0
    ensures Lower(ds) == seq(|ds|, i => '0')
  {
  }

}
