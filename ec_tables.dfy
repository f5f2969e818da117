/** The lookup tables and version strings of drivers/mfd/wgw_ec_dev.c, for
    protocol revision 2: every enum value is its position in its table. */
module EcTables {
  import opened Transport
  import opened Decimal

  const UNKNOWN := "unknown"

  // enum wgw_ec_mainboard_ref
  const MB_WGW_L01_BASE := 0
  const MB_WGW_L02_BASE_L1 := 1
  const MB_WGW_L02_BASE_Y1 := 2
  const MB_WGW_L02_BASE_L1_4G := 3
  const MainboardModelStrs := ["wgw-l01-base", "wgw-l02-base", "wgw-l02-base-y1", "wgw-l02-base-4g"]

  // enum wgw_ec_mainboard_variant
  const MB_VARIANT_8XX := 0
  const MB_VARIANT_9XX := 1
  const MainboardVariantStrs := ["8XX", "9XX"]

  // enum wgw_ec_model
  const M_LORIX_ONE := 0
  const M_WIFX_L1 := 1
  const M_WIFX_Y1 := 2
  const M_WIFX_L1_4G := 3
  const ModelStrs := ["lorix-one", "wifx-l1", "wifx-y1", "wifx-l1-4g"]
  const ModelPrettyStrs := ["LORIX One", "Wifx L1", "Wifx Y1", "Wifx L1 4G"]
  const ModelL1VariantStrs := ["8XX", "9XX"]
  const ModelL14gVariantStrs := ["8XX-EU", "9XX-AU", "9XX-US"]

  // enum wgw_ec_frequency
  const F_863_870 := 0
  const F_902_928 := 1
  const FrequencyStrs := ["863-870", "902-928"]

  /** mainboard_ref_index: the value itself when it names a mainboard, -1
      otherwise; a non-negative result is always a position in the table. */
  function MainboardRefIndex(mbRef: int): (index: int)
    ensures index == -1 || (index == mbRef && 0 <= index < |MainboardModelStrs|)
    ensures 0 <= mbRef < |MainboardModelStrs| ==> index == mbRef
  {
    if mbRef == MB_WGW_L01_BASE || mbRef == MB_WGW_L02_BASE_L1
       || mbRef == MB_WGW_L02_BASE_Y1 || mbRef == MB_WGW_L02_BASE_L1_4G
    then mbRef else -1
  }

  function MainboardRefStr(mbRef: int): (s: string)
    ensures s == UNKNOWN <==> MainboardRefIndex(mbRef) < 0
    ensures MainboardRefIndex(mbRef) >= 0 ==> s == MainboardModelStrs[mbRef]
  {
    var index := MainboardRefIndex(mbRef);
    if index < 0 then UNKNOWN else MainboardModelStrs[index]
  }

  function MainboardVariantIndex(mbVariant: int): (index: int)
    ensures index == -1 || (index == mbVariant && 0 <= index < |MainboardVariantStrs|)
    ensures 0 <= mbVariant < |MainboardVariantStrs| ==> index == mbVariant
  {
    if mbVariant == MB_VARIANT_8XX || mbVariant == MB_VARIANT_9XX then mbVariant else -1
  }

  function MainboardVariantStr(mbVariant: int): (s: string)
    ensures s == UNKNOWN <==> MainboardVariantIndex(mbVariant) < 0
    ensures MainboardVariantIndex(mbVariant) >= 0 ==> s == MainboardVariantStrs[mbVariant]
  {
    var index := MainboardVariantIndex(mbVariant);
    if index < 0 then UNKNOWN else MainboardVariantStrs[index]
  }

  function ModelIndex(model: int): (index: int)
    ensures index == -1 || (index == model && 0 <= index < |ModelStrs|)
    ensures 0 <= model < |ModelStrs| ==> index == model
  {
    if model == M_LORIX_ONE || model == M_WIFX_L1 || model == M_WIFX_Y1 || model == M_WIFX_L1_4G
    then model else -1
  }

  function ModelStr(model: int): (s: string)
    ensures s == UNKNOWN <==> ModelIndex(model) < 0
    ensures ModelIndex(model) >= 0 ==> s == ModelStrs[model]
  {
    var index := ModelIndex(model);
    if index < 0 then UNKNOWN else ModelStrs[index]
  }

  function ModelPrettyStr(model: int): (s: string)
    ensures s == UNKNOWN <==> ModelIndex(model) < 0
    ensures ModelIndex(model) >= 0 ==> s == ModelPrettyStrs[model]
  {
    var index := ModelIndex(model);
    if index < 0 then UNKNOWN else ModelPrettyStrs[index]
  }

  /** The variant names each product model has; other models have none. */
  function ModelVariantTable(model: int): seq<string>
  {
    if model == M_WIFX_L1 then ModelL1VariantStrs
    else if model == M_WIFX_L1_4G then ModelL14gVariantStrs
    else []
  }

  /** model_variant_index: the variant when the model's variant table has an
      entry for it, -1 otherwise (at most 1 for a Wifx L1, at most 2 for a
      Wifx L1 4G, never for the other models). */
  function ModelVariantIndex(model: int, variant: u8): (index: int)
    ensures index == -1 || (index == variant && variant < |ModelVariantTable(model)|)
    ensures variant < |ModelVariantTable(model)| ==> index == variant
  {
    if model == M_WIFX_L1 && variant <= 1 then variant
    else if model == M_WIFX_L1_4G && variant <= 2 then variant
    else -1
  }

  function ModelVariantStr(model: int, variant: u8): (s: string)
    ensures s == UNKNOWN <==> ModelVariantIndex(model, variant) < 0
    ensures ModelVariantIndex(model, variant) >= 0 ==> s == ModelVariantTable(model)[variant]
  {
    if ModelVariantIndex(model, variant) < 0 then UNKNOWN
    else if model == M_WIFX_L1 then ModelL1VariantStrs[variant]
    else if model == M_WIFX_L1_4G then ModelL14gVariantStrs[variant]
    else UNKNOWN
  }

  function FrequencyIndex(frequency: int): (index: int)
    ensures index == -1 || (index == frequency && 0 <= index < |FrequencyStrs|)
    ensures 0 <= frequency < |FrequencyStrs| ==> index == frequency
  {
    if frequency == F_863_870 || frequency == F_902_928 then frequency else -1
  }

  function FrequencyStr(frequency: int): (s: string)
    ensures s == UNKNOWN <==> FrequencyIndex(frequency) < 0
    ensures FrequencyIndex(frequency) >= 0 ==> s == FrequencyStrs[frequency]
  {
    var index := FrequencyIndex(frequency);
    if index < 0 then UNKNOWN else FrequencyStrs[index]
  }

  /** Every defined value has its own name: the names within a table differ,
      so a name other than "unknown" determines the value. */
  lemma LookupNamesDistinct(a: int, b: int)
    ensures MainboardRefStr(a) == MainboardRefStr(b) != UNKNOWN ==> a == b
    ensures MainboardVariantStr(a) == MainboardVariantStr(b) != UNKNOWN ==> a == b
    ensures ModelStr(a) == ModelStr(b) != UNKNOWN ==> a == b
    ensures ModelPrettyStr(a) == ModelPrettyStr(b) != UNKNOWN ==> a == b
    ensures FrequencyStr(a) == FrequencyStr(b) != UNKNOWN ==> a == b
  {
  }

  /** struct wgw_ec_version */
  datatype Version = Version(major: u16, minor: u16, revision: u16)

  /** sizeof(struct wgw_ec_version): three u16. */
  const VERSION_SIZE := 6

  /** The version block as the EC sends it: three little-endian u16. */
  function DecodeVersion(data: seq<u8>): Version
  {
    Version(Le16(At(data, 0), At(data, 1)), Le16(At(data, 2), At(data, 3)),
            Le16(At(data, 4), At(data, 5)))
  }

  function EncodeVersion(v: Version): seq<u8>
  {
    [v.major % 0x100, v.major / 0x100, v.minor % 0x100, v.minor / 0x100,
     v.revision % 0x100, v.revision / 0x100]
  }

  lemma DecodeEncodeVersion(v: Version)
    ensures |EncodeVersion(v)| == VERSION_SIZE
    ensures DecodeVersion(EncodeVersion(v)) == v
  {
  }

  /** The letter hw_version_str appends: `(char)(revision + 'A')`, a byte. */
  function RevisionLetter(revision: u16): char
  {
    ((revision + 'A' as int) % 0x100) as char
  }

  /** hw_version_str: the text "major.minor", then the revision letter
      unless the revision is 0.  A letter that is the byte 0 (a revision of
      191 modulo 256) is written as the string's terminator, so the text ends
      before it. */
  function HwVersionStr(v: Version): (s: string)
    ensures |s| <= 12
    ensures forall i :: 0 <= i < |s| ==> s[i] != '\0'
  {
    FormatU16Length(v.major);
    FormatU16Length(v.minor);
    var base := Format(v.major) + "." + Format(v.minor);
    if v.revision == 0 || RevisionLetter(v.revision) == '\0' then base
    else base + [RevisionLetter(v.revision)]
  }

  /** fw_version_str: "major.minor.revision"; at most 17 characters, so it
      always fits the 32-byte buffers the driver formats it into. */
  function FwVersionStr(v: Version): (s: string)
    ensures |s| <= 17
    ensures forall i :: 0 <= i < |s| ==> s[i] != '\0'
  {
    FormatU16Length(v.major);
    FormatU16Length(v.minor);
    FormatU16Length(v.revision);
    Format(v.major) + "." + Format(v.minor) + "." + Format(v.revision)
  }

  /** A u16 in decimal has at most five digits. */
  lemma FormatU16Length(n: u16)
    ensures |Format(n)| <= 5
  {
    FormatLength(n, 5);
  }

  /** A revision whose letter would be the byte 0 leaves the text of the
      revision-0 string. */
  lemma HwVersionStrNulLetter(major: u16, minor: u16, revision: u16)
    requires revision % 0x100 == 191
    ensures HwVersionStr(Version(major, minor, revision)) == HwVersionStr(Version(major, minor, 0))
  {
  }

  /** A decimal number that fits a u16, read from the front of `s`, with the
      position just after it. */
  function ParseU16(s: string): Option<(u16, nat)>
  {
    var k := DigitRun(s);
    if k == 0 || Value(s[..k]) >= 0x1_0000 then None else Some((Value(s[..k]), k))
  }

  /** Reads back a firmware version string. */
  function ParseFwVersion(s: string): Option<Version>
  {
    match ParseU16(s)
    case None => None
    case Some((major, a)) =>
      if a >= |s| || s[a] != '.' then None
      else
        var s1 := s[a + 1..];
        match ParseU16(s1)
        case None => None
        case Some((minor, b)) =>
          if b >= |s1| || s1[b] != '.' then None
          else
            var s2 := s1[b + 1..];
            match ParseU16(s2)
            case None => None
            case Some((revision, c)) =>
              if c != |s2| then None else Some(Version(major, minor, revision))
  }

  /** Reads back a hardware version string: a trailing upper-case letter
      is the revision counted from 'A'. */
  function ParseHwVersion(s: string): Option<Version>
  {
    match ParseU16(s)
    case None => None
    case Some((major, a)) =>
      if a >= |s| || s[a] != '.' then None
      else
        var s1 := s[a + 1..];
        match ParseU16(s1)
        case None => None
        case Some((minor, b)) =>
          if b == |s1| then Some(Version(major, minor, 0))
          else if b == |s1| - 1 && 'A' <= s1[b] <= 'Z'
          then Some(Version(major, minor, s1[b] as int - 'A' as int))
          else None
  }

  lemma ParseU16OfFormat(n: u16, rest: string)
    requires rest == [] || !IsDigit(rest[0])
    ensures ParseU16(Format(n) + rest) == Some((n, |Format(n)|))
  {
    var f := Format(n);
    DigitRunOfDigits(f, rest);
    assert (f + rest)[..|f|] == f;
    ValueOfFormat(n);
  }

  /** Formatting a firmware version loses nothing. */
  lemma FwVersionStrRoundTrip(v: Version)
    ensures ParseFwVersion(FwVersionStr(v)) == Some(v)
  {
    var fm, fr := Format(v.minor), Format(v.revision);
    var s := FwVersionStr(v);
    assert s == Format(v.major) + "." + (fm + "." + fr);
    var s1 := FieldThenDot(v.major, fm + "." + fr);
    var s2 := FieldThenDot(v.minor, fr);
    assert fr + [] == fr;
    ParseU16OfFormat(v.revision, []);
  }

  /** A formatted number followed by a dot: the number is read back and
      the text after the dot is `rest`. */
  lemma FieldThenDot(n: u16, rest: string) returns (after: string)
    ensures var s := Format(n) + "." + rest;
      && ParseU16(s) == Some((n, |Format(n)|))
      && |Format(n)| < |s| && s[|Format(n)|] == '.'
      && after == s[|Format(n)| + 1..] == rest
  {
    var f := Format(n);
    var s := f + "." + rest;
    assert s == f + ("." + rest);
    ParseU16OfFormat(n, "." + rest);
    after := s[|f| + 1..];
    assert after == rest;
  }

  /** Formatting a hardware version loses nothing while the revision letter
      is one of 'A'..'Z'. */
  lemma HwVersionStrRoundTrip(v: Version)
    requires v.revision < 26
    ensures ParseHwVersion(HwVersionStr(v)) == Some(v)
  {
    var fm := Format(v.minor);
    var tail: string := if v.revision == 0 then [] else [RevisionLetter(v.revision)];
    var s := HwVersionStr(v);
    assert s == Format(v.major) + "." + (fm + tail);
    var s1 := FieldThenDot(v.major, fm + tail);
    ParseU16OfFormat(v.minor, tail);
    if v.revision != 0 {
      RevisionLetterIsLetter(v.revision);
      assert s1[|fm|] == RevisionLetter(v.revision);
    }
  }

  lemma RevisionLetterIsLetter(revision: u16)
    requires revision < 26
    ensures 'A' <= RevisionLetter(revision) <= 'Z'
    ensures RevisionLetter(revision) as int - 'A' as int == revision
  {
  }

  /** From revision 26 on, `'A' + revision` is no longer a letter and the
      string can be another version's: revision 239 appends the digit '0'. */
  lemma HwVersionStrCollides()
    ensures HwVersionStr(Version(1, 2, 239)) == HwVersionStr(Version(1, 20, 0)) == "1.20"
  {
    assert Format(20) == Format(2) + [DigitChar(0)];
  }
}
