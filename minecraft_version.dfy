/** The plugin's `MinecraftVersion` enum: one member per supported Minecraft release,
    each with a numeric value (used to compare releases) and a display name. */
module MinecraftVersions {
  import opened Common
  import opened Text

  /** The members, in declaration order. */
  datatype MinecraftVersion =
      V1_14 | V1_14_1 | V1_14_2 | V1_14_3 | V1_14_4 | V1_15 | V1_15_1 | V1_15_2 | V1_16
    | V1_16_1 | V1_16_2 | V1_16_3 | V1_16_4 | V1_16_5 | V1_17 | V1_17_1 | V1_18 | V1_18_1
    | V1_18_2 | V1_19 | V1_19_1 | V1_19_2 | V1_19_3 | V1_19_4 | V1_20 | V1_20_1 | V1_20_2
    | V1_20_3 | V1_20_4 | V1_20_5 | V1_20_6 | V1_21 | V1_21_1 | V1_21_2 | V1_21_3
    | V1_21_4

  /** The numeric value the enum assigns to a member. */
  function Value(v: MinecraftVersion): int
  {
    match v
    case V1_14 => 1140
    case V1_14_1 => 1141
    case V1_14_2 => 1142
    case V1_14_3 => 1143
    case V1_14_4 => 1144
    case V1_15 => 1150
    case V1_15_1 => 1151
    case V1_15_2 => 1152
    case V1_16 => 1160
    case V1_16_1 => 1161
    case V1_16_2 => 1162
    case V1_16_3 => 1163
    case V1_16_4 => 1164
    case V1_16_5 => 1165
    case V1_17 => 1170
    case V1_17_1 => 1171
    case V1_18 => 1180
    case V1_18_1 => 1181
    case V1_18_2 => 1182
    case V1_19 => 1190
    case V1_19_1 => 1191
    case V1_19_2 => 1192
    case V1_19_3 => 1193
    case V1_19_4 => 1194
    case V1_20 => 1200
    case V1_20_1 => 1201
    case V1_20_2 => 1202
    case V1_20_3 => 1203
    case V1_20_4 => 1204
    case V1_20_5 => 1205
    case V1_20_6 => 1206
    case V1_21 => 1210
    case V1_21_1 => 1211
    case V1_21_2 => 1212
    case V1_21_3 => 1213
    case V1_21_4 => 1214
  }

  /** The member's identifier, which is what `ToString()` and `Enum.TryParse` use. */
  function Name(v: MinecraftVersion): string
  {
    match v
    case V1_14 => "V1_14"
    case V1_14_1 => "V1_14_1"
    case V1_14_2 => "V1_14_2"
    case V1_14_3 => "V1_14_3"
    case V1_14_4 => "V1_14_4"
    case V1_15 => "V1_15"
    case V1_15_1 => "V1_15_1"
    case V1_15_2 => "V1_15_2"
    case V1_16 => "V1_16"
    case V1_16_1 => "V1_16_1"
    case V1_16_2 => "V1_16_2"
    case V1_16_3 => "V1_16_3"
    case V1_16_4 => "V1_16_4"
    case V1_16_5 => "V1_16_5"
    case V1_17 => "V1_17"
    case V1_17_1 => "V1_17_1"
    case V1_18 => "V1_18"
    case V1_18_1 => "V1_18_1"
    case V1_18_2 => "V1_18_2"
    case V1_19 => "V1_19"
    case V1_19_1 => "V1_19_1"
    case V1_19_2 => "V1_19_2"
    case V1_19_3 => "V1_19_3"
    case V1_19_4 => "V1_19_4"
    case V1_20 => "V1_20"
    case V1_20_1 => "V1_20_1"
    case V1_20_2 => "V1_20_2"
    case V1_20_3 => "V1_20_3"
    case V1_20_4 => "V1_20_4"
    case V1_20_5 => "V1_20_5"
    case V1_20_6 => "V1_20_6"
    case V1_21 => "V1_21"
    case V1_21_1 => "V1_21_1"
    case V1_21_2 => "V1_21_2"
    case V1_21_3 => "V1_21_3"
    case V1_21_4 => "V1_21_4"
  }

  /** The member's `EnumDisplayName`. */
  function DisplayName(v: MinecraftVersion): string
  {
    match v
    case V1_14 => "1.14"
    case V1_14_1 => "1.14.1"
    case V1_14_2 => "1.14.2"
    case V1_14_3 => "1.14.3"
    case V1_14_4 => "1.14.4"
    case V1_15 => "1.15"
    case V1_15_1 => "1.15.1"
    case V1_15_2 => "1.15.2"
    case V1_16 => "1.16"
    case V1_16_1 => "1.16.1"
    case V1_16_2 => "1.16.2"
    case V1_16_3 => "1.16.3"
    case V1_16_4 => "1.16.4"
    case V1_16_5 => "1.16.5"
    case V1_17 => "1.17"
    case V1_17_1 => "1.17.1"
    case V1_18 => "1.18"
    case V1_18_1 => "1.18.1"
    case V1_18_2 => "1.18.2"
    case V1_19 => "1.19"
    case V1_19_1 => "1.19.1"
    case V1_19_2 => "1.19.2"
    case V1_19_3 => "1.19.3"
    case V1_19_4 => "1.19.4"
    case V1_20 => "1.20"
    case V1_20_1 => "1.20.1"
    case V1_20_2 => "1.20.2"
    case V1_20_3 => "1.20.3"
    case V1_20_4 => "1.20.4"
    case V1_20_5 => "1.20.5"
    case V1_20_6 => "1.20.6"
    case V1_21 => "1.21"
    case V1_21_1 => "1.21.1"
    case V1_21_2 => "1.21.2"
    case V1_21_3 => "1.21.3"
    case V1_21_4 => "1.21.4"
  }

  /** Every member, in declaration order. */
  const AllVersions: seq<MinecraftVersion> := [
    V1_14, V1_14_1, V1_14_2, V1_14_3, V1_14_4, V1_15, V1_15_1, V1_15_2, V1_16, V1_16_1,
    V1_16_2, V1_16_3, V1_16_4, V1_16_5, V1_17, V1_17_1, V1_18, V1_18_1, V1_18_2, V1_19,
    V1_19_1, V1_19_2, V1_19_3, V1_19_4, V1_20, V1_20_1, V1_20_2, V1_20_3, V1_20_4,
    V1_20_5, V1_20_6, V1_21, V1_21_1, V1_21_2, V1_21_3, V1_21_4
  ]

  predicate IsDigit(c: char)
  {
    '0' <= c <= '9'
  }

  function Digit(c: char): int
  {
    c as int - '0' as int
  }

  /** The layout every member identifier follows: 'V', the major digit, '_', two minor
      digits, and optionally '_' and a patch digit. */
  predicate WellFormedName(s: string)
  {
    && (|s| == 5 || (|s| == 7 && s[5] == '_' && IsDigit(s[6])))
    && s[0] == 'V' && IsDigit(s[1]) && s[2] == '_' && IsDigit(s[3]) && IsDigit(s[4])
  }

  /** major·1000 + minor·10 + patch, read from an identifier (patch 0 when absent). */
  function NumberOfName(s: string): int
    requires WellFormedName(s)
  {
    1000 * Digit(s[1]) + 10 * (10 * Digit(s[3]) + Digit(s[4])) + (if |s| == 7 then Digit(s[6]) else 0)
  }

  /** Every member's value is 1000·major + 10·minor + patch of the release it names. */
  lemma ValueFromName(v: MinecraftVersion)
    ensures WellFormedName(Name(v))
    ensures Value(v) == NumberOfName(Name(v))
  {
  }

  /** A member's position in declaration order. */
  function Index(v: MinecraftVersion): nat
  {
    match v
    case V1_14 => 0
    case V1_14_1 => 1
    case V1_14_2 => 2
    case V1_14_3 => 3
    case V1_14_4 => 4
    case V1_15 => 5
    case V1_15_1 => 6
    case V1_15_2 => 7
    case V1_16 => 8
    case V1_16_1 => 9
    case V1_16_2 => 10
    case V1_16_3 => 11
    case V1_16_4 => 12
    case V1_16_5 => 13
    case V1_17 => 14
    case V1_17_1 => 15
    case V1_18 => 16
    case V1_18_1 => 17
    case V1_18_2 => 18
    case V1_19 => 19
    case V1_19_1 => 20
    case V1_19_2 => 21
    case V1_19_3 => 22
    case V1_19_4 => 23
    case V1_20 => 24
    case V1_20_1 => 25
    case V1_20_2 => 26
    case V1_20_3 => 27
    case V1_20_4 => 28
    case V1_20_5 => 29
    case V1_20_6 => 30
    case V1_21 => 31
    case V1_21_1 => 32
    case V1_21_2 => 33
    case V1_21_3 => 34
    case V1_21_4 => 35
  }

  lemma IndexOf(v: MinecraftVersion)
    ensures Index(v) < |AllVersions| && AllVersions[Index(v)] == v
  {
    if Index(v) < 18 {
      IndexOfFront(v);
    } else {
      IndexOfBack(v);
    }
  }

  lemma IndexOfFront(v: MinecraftVersion)
    requires Index(v) < 18
    ensures AllVersions[Index(v)] == v
  {
    var front := AllVersions[..18];
    assert front == [V1_14, V1_14_1, V1_14_2, V1_14_3, V1_14_4, V1_15, V1_15_1, V1_15_2, V1_16,
                     V1_16_1, V1_16_2, V1_16_3, V1_16_4, V1_16_5, V1_17, V1_17_1, V1_18, V1_18_1];
    assert AllVersions[Index(v)] == front[Index(v)];
  }

  lemma IndexOfBack(v: MinecraftVersion)
    requires 18 <= Index(v)
    ensures AllVersions[Index(v)] == v
  {
    var back := AllVersions[18..];
    assert back == [V1_18_2, V1_19, V1_19_1, V1_19_2, V1_19_3, V1_19_4, V1_20, V1_20_1, V1_20_2,
                    V1_20_3, V1_20_4, V1_20_5, V1_20_6, V1_21, V1_21_1, V1_21_2, V1_21_3, V1_21_4];
    assert AllVersions[Index(v)] == back[Index(v) - 18];
  }

  lemma AllVersionsComplete(v: MinecraftVersion)
    ensures v in AllVersions
  {
    IndexOf(v);
  }

  lemma ConsecutiveIncreasing(i: nat)
    requires i + 1 < |AllVersions|
    ensures Value(AllVersions[i]) < Value(AllVersions[i + 1])
  {
    if i < 6 {
      ConsecutiveIncreasingFrom0(i);
    } else if i < 12 {
      ConsecutiveIncreasingFrom6(i);
    } else if i < 18 {
      ConsecutiveIncreasingFrom12(i);
    } else if i < 24 {
      ConsecutiveIncreasingFrom18(i);
    } else if i < 30 {
      ConsecutiveIncreasingFrom24(i);
    } else if i < 35 {
      ConsecutiveIncreasingFrom30(i);
    }
  }

  lemma ConsecutiveIncreasingFrom0(i: nat)
    requires 0 <= i < 6
    ensures Value(AllVersions[i]) < Value(AllVersions[i + 1])
  {
    if i == 0 {
      assert AllVersions[0] == V1_14 && AllVersions[1] == V1_14_1;
    } else if i == 1 {
      assert AllVersions[1] == V1_14_1 && AllVersions[2] == V1_14_2;
    } else if i == 2 {
      assert AllVersions[2] == V1_14_2 && AllVersions[3] == V1_14_3;
    } else if i == 3 {
      assert AllVersions[3] == V1_14_3 && AllVersions[4] == V1_14_4;
    } else if i == 4 {
      assert AllVersions[4] == V1_14_4 && AllVersions[5] == V1_15;
    } else if i == 5 {
      assert AllVersions[5] == V1_15 && AllVersions[6] == V1_15_1;
    }
  }

  lemma ConsecutiveIncreasingFrom6(i: nat)
    requires 6 <= i < 12
    ensures Value(AllVersions[i]) < Value(AllVersions[i + 1])
  {
    if i == 6 {
      assert AllVersions[6] == V1_15_1 && AllVersions[7] == V1_15_2;
    } else if i == 7 {
      assert AllVersions[7] == V1_15_2 && AllVersions[8] == V1_16;
    } else if i == 8 {
      assert AllVersions[8] == V1_16 && AllVersions[9] == V1_16_1;
    } else if i == 9 {
      assert AllVersions[9] == V1_16_1 && AllVersions[10] == V1_16_2;
    } else if i == 10 {
      assert AllVersions[10] == V1_16_2 && AllVersions[11] == V1_16_3;
    } else if i == 11 {
      assert AllVersions[11] == V1_16_3 && AllVersions[12] == V1_16_4;
    }
  }

  lemma ConsecutiveIncreasingFrom12(i: nat)
    requires 12 <= i < 18
    ensures Value(AllVersions[i]) < Value(AllVersions[i + 1])
  {
    if i == 12 {
      assert AllVersions[12] == V1_16_4 && AllVersions[13] == V1_16_5;
    } else if i == 13 {
      assert AllVersions[13] == V1_16_5 && AllVersions[14] == V1_17;
    } else if i == 14 {
      assert AllVersions[14] == V1_17 && AllVersions[15] == V1_17_1;
    } else if i == 15 {
      assert AllVersions[15] == V1_17_1 && AllVersions[16] == V1_18;
    } else if i == 16 {
      assert AllVersions[16] == V1_18 && AllVersions[17] == V1_18_1;
    } else if i == 17 {
      assert AllVersions[17] == V1_18_1 && AllVersions[18] == V1_18_2;
    }
  }

  lemma ConsecutiveIncreasingFrom18(i: nat)
    requires 18 <= i < 24
    ensures Value(AllVersions[i]) < Value(AllVersions[i + 1])
  {
    if i == 18 {
      assert AllVersions[18] == V1_18_2 && AllVersions[19] == V1_19;
    } else if i == 19 {
      assert AllVersions[19] == V1_19 && AllVersions[20] == V1_19_1;
    } else if i == 20 {
      assert AllVersions[20] == V1_19_1 && AllVersions[21] == V1_19_2;
    } else if i == 21 {
      assert AllVersions[21] == V1_19_2 && AllVersions[22] == V1_19_3;
    } else if i == 22 {
      assert AllVersions[22] == V1_19_3 && AllVersions[23] == V1_19_4;
    } else if i == 23 {
      assert AllVersions[23] == V1_19_4 && AllVersions[24] == V1_20;
    }
  }

  lemma ConsecutiveIncreasingFrom24(i: nat)
    requires 24 <= i < 30
    ensures Value(AllVersions[i]) < Value(AllVersions[i + 1])
  {
    if i == 24 {
      assert AllVersions[24] == V1_20 && AllVersions[25] == V1_20_1;
    } else if i == 25 {
      assert AllVersions[25] == V1_20_1 && AllVersions[26] == V1_20_2;
    } else if i == 26 {
      assert AllVersions[26] == V1_20_2 && AllVersions[27] == V1_20_3;
    } else if i == 27 {
      assert AllVersions[27] == V1_20_3 && AllVersions[28] == V1_20_4;
    } else if i == 28 {
      assert AllVersions[28] == V1_20_4 && AllVersions[29] == V1_20_5;
    } else if i == 29 {
      assert AllVersions[29] == V1_20_5 && AllVersions[30] == V1_20_6;
    }
  }

  lemma ConsecutiveIncreasingFrom30(i: nat)
    requires 30 <= i < 35
    ensures Value(AllVersions[i]) < Value(AllVersions[i + 1])
  {
    if i == 30 {
      assert AllVersions[30] == V1_20_6 && AllVersions[31] == V1_21;
    } else if i == 31 {
      assert AllVersions[31] == V1_21 && AllVersions[32] == V1_21_1;
    } else if i == 32 {
      assert AllVersions[32] == V1_21_1 && AllVersions[33] == V1_21_2;
    } else if i == 33 {
      assert AllVersions[33] == V1_21_2 && AllVersions[34] == V1_21_3;
    } else if i == 34 {
      assert AllVersions[34] == V1_21_3 && AllVersions[35] == V1_21_4;
    }
  }

  /** Values strictly increase in declaration order. */
  lemma ValuesIncreasing(i: nat, j: nat)
    requires i < j < |AllVersions|
    ensures Value(AllVersions[i]) < Value(AllVersions[j])
  {
    forall k | 0 <= k < |AllVersions| - 1
      ensures Value(AllVersions[k]) < Value(AllVersions[k + 1])
    {
      ConsecutiveIncreasing(k);
    }
    ChainIncreasing(AllVersions, i, j);
  }

  /** In a sequence whose neighbours increase in value, every later element has a
      larger value. */
  lemma {:induction false} ChainIncreasing(vs: seq<MinecraftVersion>, i: nat, j: nat)
    requires forall k :: 0 <= k < |vs| - 1 ==> Value(vs[k]) < Value(vs[k + 1])
    requires i < j < |vs|
    ensures Value(vs[i]) < Value(vs[j])
    decreases j - i
  {
    if i + 1 < j {
      ChainIncreasing(vs, i + 1, j);
    }
  }

  /** No two members share a value. */
  lemma ValueInjective(a: MinecraftVersion, b: MinecraftVersion)
    requires Value(a) == Value(b)
    ensures a == b
  {
    IndexOf(a);
    IndexOf(b);
    var i, j := Index(a), Index(b);
    if i < j {
      ValuesIncreasing(i, j);
    } else if j < i {
      ValuesIncreasing(j, i);
    }
  }

  /** No two members share an identifier. */
  lemma NameInjective(a: MinecraftVersion, b: MinecraftVersion)
    requires Name(a) == Name(b)
    ensures a == b
  {
    ValueFromName(a);
    ValueFromName(b);
    ValueInjective(a, b);
  }

  /** The last declared member is 1.21.4, and it has the largest value. */
  lemma LatestVersion(v: MinecraftVersion)
    ensures AllVersions[|AllVersions| - 1] == V1_21_4
    ensures Value(v) <= Value(V1_21_4)
  {
    IndexOf(v);
    var i := Index(v);
    if i < |AllVersions| - 1 {
      ValuesIncreasing(i, |AllVersions| - 1);
    }
  }

  /** `minecraftVersion.ToString().Substring(1).Replace("_", ".")`: the release number
      the plugin matches modloader versions against, e.g. "1.20.4". */
  function McVersion(v: MinecraftVersion): string
  {
    ReplaceChar(Name(v)[1..], '_', '.')
  }

  /** The display name shows the identifier without 'V' and with '.' for '_': it is
      exactly the release number the plugin derives from the identifier. */
  lemma DisplayNameIsMcVersion(v: MinecraftVersion)
    ensures DisplayName(v) == McVersion(v)
  {
    var n, d := Name(v), DisplayName(v);
    ValueFromName(v);
    DisplayLayout(v);
    forall i | 0 <= i < |d| ensures d[i] == McVersion(v)[i] {
    }
  }

  /** Character by character, a display name is the identifier shifted by one with '.'
      where the identifier has '_'. */
  lemma DisplayLayout(v: MinecraftVersion)
    ensures |DisplayName(v)| == |Name(v)| - 1
    ensures forall i :: 0 <= i < |DisplayName(v)| ==>
      DisplayName(v)[i] == (if Name(v)[i + 1] == '_' then '.' else Name(v)[i + 1])
  {
    var n, d := Name(v), DisplayName(v);
    assert |d| == |n| - 1;
    assert d[0] == n[1] && d[1] == '.' && d[2] == n[3] && d[3] == n[4];
    assert |d| == 6 ==> d[4] == '.' && d[5] == n[6];
  }

  /** `Enum.TryParse(text, out MinecraftVersion v)` for a text that names a member. */
  function ParseName(text: string): (r: Option<MinecraftVersion>)
    ensures r.Some? ==> Name(r.value) == text
    ensures r.None? <==> forall v :: Name(v) != text
  {
    EveryVersionListed();
    FindName(AllVersions, text)
  }

  /** Parsing a member's own name gives back that member. */
  lemma ParseNameOf(v: MinecraftVersion)
    ensures ParseName(Name(v)) == Some(v)
  {
    var r := ParseName(Name(v));
    assert r.Some?;
    NameInjective(r.value, v);
  }

  lemma EveryVersionListed()
    ensures forall v :: v in AllVersions
  {
    forall v {
      AllVersionsComplete(v);
    }
  }

  function FindName(vs: seq<MinecraftVersion>, text: string): (r: Option<MinecraftVersion>)
    ensures r.Some? ==> Name(r.value) == text && r.value in vs
    ensures r.None? ==> forall v :: v in vs ==> Name(v) != text
  {
    if vs == [] then None
    else if Name(vs[0]) == text then Some(vs[0])
    else FindName(vs[1..], text)
  }
}
