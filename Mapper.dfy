/**
 * `mapSpoolToOpenSpool`: the total translation of an inventory spool into the
 * OpenSpool descriptor written to a tag, with its default substitutions.
 */
module Mapper {
  import opened Wrappers
  import opened Strings
  import opened SpoolmanTypes
  import opened OpenSpoolTypes

  const DefaultBrand: string := "Generic"
  const DefaultMaterial: string := "PLA"
  const DefaultColor: string := "000000"
  const DefaultTemp: string := "200"

  /** `s.replace(/^#/, "")`: one leading '#' removed, if there is one. */
  function StripLeadingHash(s: string): (r: string)
    ensures if s != [] && s[0] == '#' then s == "#" + r else r == s
  {
    if s != [] && s[0] == '#' then s[1..] else s
  }

  /**
   * The colour rule: strip one '#', fall back to the default when that leaves
   * nothing, and fall back again unless six hex digits remain.
   */
  function NormalizeColor(color: Option<string>): (r: string)
    ensures IsHex6(r)
    ensures r == if color.Some? && IsHex6(StripLeadingHash(color.value))
                 then StripLeadingHash(color.value) else DefaultColor
  {
    var stripped := if color.Some? then StripLeadingHash(color.value) else "";
    var colorHex := if stripped != "" then stripped else DefaultColor;
    if IsHex6(colorHex) then colorHex else DefaultColor
  }

  /**
   * The temperature rule: a truthy (present and non-zero) temperature is
   * rendered in decimal, anything else becomes the default. Temperatures are
   * integers here, so rounding leaves them unchanged.
   */
  function TempString(temp: Option<int>): (r: string)
    ensures temp.None? || temp.value == 0 ==> r == DefaultTemp
    ensures temp.Some? && temp.value > 0 ==> IsDigits(r) && DigitsValue(r) == temp.value
    ensures temp.Some? && temp.value > 0 ==> r == NatToString(temp.value)
    ensures temp.Some? && temp.value < 0 ==> |r| >= 2 && r[0] == '-' && r[1..] == NatToString(-temp.value)
    ensures IsDigits(r) <==> temp.None? || temp.value >= 0
  {
    if temp.Some? && temp.value != 0 then IntToString(temp.value) else DefaultTemp
  }

  /** `vendor?.name || "Generic"` */
  function BrandOf(vendor: Option<Vendor>): (r: string)
    ensures |r| >= 1
    ensures vendor.Some? && vendor.value.name != "" ==> r == vendor.value.name
    ensures vendor.None? || vendor.value.name == "" ==> r == DefaultBrand
  {
    if vendor.Some? && vendor.value.name != "" then vendor.value.name else DefaultBrand
  }

  /** `filament.material || "PLA"` */
  function MaterialOf(material: Option<string>): (r: string)
    ensures |r| >= 1
    ensures material.Some? && material.value != "" ==> r == material.value
    ensures material.None? || material.value == "" ==> r == DefaultMaterial
  {
    if material.Some? && material.value != "" then material.value else DefaultMaterial
  }

  function MapSpoolToOpenSpool(spool: Spool): (r: OpenSpool)
    ensures r.protocol == ProtocolMarker && r.version == VersionMarker
    ensures |r.brand| >= 1 && |r.material| >= 1
    ensures IsHex6(r.colorHex)
    ensures r.minTemp == r.maxTemp
    ensures IsDigits(r.minTemp) <==> spool.filament.settingsExtruderTemp.None? || spool.filament.settingsExtruderTemp.value >= 0
    ensures r.spoolId == Some(spool.id as real)
  {
    var filament := spool.filament;
    var temp := TempString(filament.settingsExtruderTemp);
    OpenSpool(
      ProtocolMarker,
      VersionMarker,
      BrandOf(filament.vendor),
      MaterialOf(filament.material),
      NormalizeColor(filament.colorHex),
      temp,
      temp,
      Some(spool.id as real))
  }

  // Fixed cases of the rules above, as the repository's unit tests pin them.

  function TestSpool(): Spool {
    Spool(1, Some(0), None,
          Filament(1, None, Some(Vendor(1, "Bambu Lab")), Some("PLA"), Some(220), Some("00FF00")),
          false)
  }

  function WithFilament(spool: Spool, f: Filament): Spool {
    spool.(filament := f)
  }

  lemma FullyPopulatedExample()
    ensures MapSpoolToOpenSpool(TestSpool())
         == OpenSpool("openspool", "1.0", "Bambu Lab", "PLA", "00FF00", "220", "220", Some(1.0))
  {
    assert IntToString(220) == NatToString(22) + ['0'];
    assert NatToString(22) == NatToString(2) + ['2'];
  }

  lemma MissingVendorExample()
    ensures MapSpoolToOpenSpool(WithFilament(TestSpool(), TestSpool().filament.(vendor := None))).brand == "Generic"
  {
  }

  lemma MissingMaterialExample()
    ensures MapSpoolToOpenSpool(WithFilament(TestSpool(), TestSpool().filament.(material := None))).material == "PLA"
  {
  }

  lemma HashStrippedExample()
    ensures NormalizeColor(Some("#FF0000")) == "FF0000"
  {
    assert StripLeadingHash("#FF0000") == "FF0000";
  }

  lemma ShortColorExample()
    ensures NormalizeColor(Some("FFF")) == "000000"
  {
  }

  lemma NonHexColorExample()
    ensures NormalizeColor(Some("ZZZZZZ")) == "000000"
  {
    assert !IsHexDigit("ZZZZZZ"[0]);
  }

  lemma MissingColorExample()
    ensures NormalizeColor(None) == "000000"
  {
  }

  /** Only one '#' is removed, so a doubled '#' leaves a non-hex character behind. */
  lemma DoubleHashExample()
    ensures NormalizeColor(Some("##FF0000")) == "000000"
  {
    assert StripLeadingHash("##FF0000") == "#FF0000";
    assert !IsHexDigit("#FF0000"[0]);
  }

  /** A valid colour keeps its letter case. */
  lemma MixedCaseExample()
    ensures NormalizeColor(Some("aBc123")) == "aBc123"
  {
    assert IsHex6("aBc123");
  }

  lemma TempExamples()
    ensures TempString(None) == "200"
    ensures TempString(Some(0)) == "200"
    ensures TempString(Some(-5)) == "-5"
  {
  }
}
