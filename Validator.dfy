/**
 * `OpenSpoolSchema` and `validateOpenSpool`: the classification of an
 * arbitrary decoded JSON value as a conformant OpenSpool descriptor, or a
 * failure naming every field that breaks its rule.
 */
module Validator {
  import opened Wrappers
  import opened Strings
  import opened OpenSpoolTypes

  /** The properties the schema declares, in declaration order. */
  datatype Field = Protocol | Version | Brand | Type | ColorHex | MinTemp | MaxTemp | SpoolId


  /** The JSON property name of a field. */
  function Name(f: Field): string {
    match f
    case Protocol => "protocol"
    case Version => "version"
    case Brand => "brand"
    case Type => "type"
    case ColorHex => "color_hex"
    case MinTemp => "min_temp"
    case MaxTemp => "max_temp"
    case SpoolId => "spool_id"
  }

  const SchemaKeys: set<string> :=
    {"protocol", "version", "brand", "type", "color_hex", "min_temp", "max_temp", "spool_id"}

  lemma NameInSchemaKeys(f: Field)
    ensures Name(f) in SchemaKeys
  {
  }

  /** Why a value was rejected: it is not an object, or these schema fields fail their rules. */
  datatype ValidationError = NotAnObject | InvalidFields(fields: seq<Field>)

  predicate NonEmpty(s: string) { |s| >= 1 }

  /** The property `key` is a string. */
  predicate IsStringAt(members: map<string, Json>, key: string) {
    key in members && members[key].JString?
  }

  /** The rule of one schema field, on the properties of an object. */
  predicate FieldOk(members: map<string, Json>, f: Field) {
    match f
    case Protocol => Name(f) in members && members[Name(f)] == JString(ProtocolMarker)
    case Version => Name(f) in members && members[Name(f)] == JString(VersionMarker)
    case Brand => IsStringAt(members, Name(f)) && NonEmpty(members[Name(f)].s)
    case Type => IsStringAt(members, Name(f)) && NonEmpty(members[Name(f)].s)
    // `.length(6)` and `.regex(/^[0-9A-Fa-f]{6}$/)`
    case ColorHex => IsStringAt(members, Name(f)) && IsHex6(members[Name(f)].s)
    case MinTemp => IsStringAt(members, Name(f)) && IsDigits(members[Name(f)].s)
    case MaxTemp => IsStringAt(members, Name(f)) && IsDigits(members[Name(f)].s)
    // `z.number().optional()`: absent, or any number
    case SpoolId => Name(f) !in members || members[Name(f)].JNumber?
  }

  /**
   * What the rules share: every field but `spool_id` passes only when present as a string,
   * and `spool_id` passes exactly when it is absent or a number.
   */
  lemma FieldOkShape(members: map<string, Json>, f: Field)
    ensures FieldOk(members, f) && f != SpoolId ==> IsStringAt(members, Name(f))
    ensures f == SpoolId ==> (FieldOk(members, f) <==> Name(f) !in members || members[Name(f)].JNumber?)
  {
  }

  /** `[f]` when the rule of `f` fails, `[]` otherwise. */
  function Check(members: map<string, Json>, f: Field): (r: seq<Field>)
    ensures r == [] || r == [f]
    ensures r == [] <==> FieldOk(members, f)
  {
    if FieldOk(members, f) then [] else [f]
  }

  /** The schema fields whose rule fails, in declaration order. */
  function FailingFields(m: map<string, Json>): (r: seq<Field>)
    ensures forall f :: f in r <==> !FieldOk(m, f)
  {
    Check(m, Protocol) + Check(m, Version) + Check(m, Brand) + Check(m, Type) +
    Check(m, ColorHex) + Check(m, MinTemp) + Check(m, MaxTemp) + Check(m, SpoolId)
  }

  /** What the schema guarantees of a descriptor it returns. */
  predicate Conformant(d: OpenSpool) {
    && d.protocol == ProtocolMarker
    && d.version == VersionMarker
    && NonEmpty(d.brand)
    && NonEmpty(d.material)
    && IsHex6(d.colorHex)
    && IsDigits(d.minTemp)
    && IsDigits(d.maxTemp)
  }

  /** The descriptor read off an object whose every field passes. */
  function Parsed(members: map<string, Json>): (d: OpenSpool)
    requires forall f :: FieldOk(members, f)
    ensures Conformant(d)
  {
    assert FieldOk(members, Protocol) && FieldOk(members, Version) && FieldOk(members, Brand);
    assert FieldOk(members, Type) && FieldOk(members, ColorHex);
    assert FieldOk(members, MinTemp) && FieldOk(members, MaxTemp) && FieldOk(members, SpoolId);
    OpenSpool(
      members["protocol"].s,
      members["version"].s,
      members["brand"].s,
      members["type"].s,
      members["color_hex"].s,
      members["min_temp"].s,
      members["max_temp"].s,
      if "spool_id" in members then Some(members["spool_id"].n) else None)
  }

  /** `validateOpenSpool`: `safeParse` against the schema. */
  function ValidateOpenSpool(data: Json): (r: Result<OpenSpool, ValidationError>)
    ensures r.Success? <==> data.JObject? && forall f :: FieldOk(data.members, f)
    ensures r.Success? ==> Conformant(r.value)
    ensures r.Failure? && data.JObject? ==>
              r.error.InvalidFields? && r.error.fields != [] &&
              forall f :: f in r.error.fields <==> !FieldOk(data.members, f)
    ensures r.Failure? && !data.JObject? ==> r.error == NotAnObject
  {
    if !data.JObject? then
      Failure(NotAnObject)
    else
      var failing := FailingFields(data.members);
      if failing == [] then
        Success(Parsed(data.members))
      else
        assert failing[0] in failing;
        Failure(InvalidFields(failing))
  }

  /** The properties of `m` the schema declares; all others are dropped. */
  function SchemaPart(m: map<string, Json>): map<string, Json> {
    map k | k in m && k in SchemaKeys :: m[k]
  }

  /** On success the descriptor is conformant and is exactly the input restricted to the schema's keys. */
  lemma {:induction false} SuccessIsSchemaPart(data: Json)
    requires ValidateOpenSpool(data).Success?
    ensures data.JObject?
    ensures ToJson(ValidateOpenSpool(data).value) == JObject(SchemaPart(data.members))
  {
    var m := data.members;
    var d := ValidateOpenSpool(data).value;
    assert forall f :: FieldOk(m, f);
    assert FieldOk(m, Protocol) && FieldOk(m, Version) && FieldOk(m, Brand) && FieldOk(m, Type);
    assert FieldOk(m, ColorHex) && FieldOk(m, MinTemp) && FieldOk(m, MaxTemp) && FieldOk(m, SpoolId);
    assert SchemaKeys == {"protocol", "version", "brand", "type", "color_hex", "min_temp", "max_temp", "spool_id"};
    assert ToJson(d).members == SchemaPart(m);
  }

  /** A conformant descriptor passes validation, and comes back unchanged. */
  lemma {:induction false} ConformantRoundTrip(d: OpenSpool)
    ensures ValidateOpenSpool(ToJson(d)) == Success(d) <==> Conformant(d)
  {
    var m := ToJson(d).members;
    if Conformant(d) {
      ToJsonRules(d);
      assert FieldOk(m, Protocol) && FieldOk(m, Version) && FieldOk(m, Brand) && FieldOk(m, Type);
      assert FieldOk(m, ColorHex) && FieldOk(m, MinTemp) && FieldOk(m, MaxTemp) && FieldOk(m, SpoolId);
      assert forall f :: FieldOk(m, f);
      ToJsonLookups(d);
      assert Parsed(m) == d;
    }
  }

  /** Each rule of the schema, on the object a descriptor becomes, is the matching conjunct of `Conformant`. */
  lemma ToJsonRules(d: OpenSpool)
    ensures var m := ToJson(d).members;
      && (FieldOk(m, Protocol) <==> d.protocol == ProtocolMarker)
      && (FieldOk(m, Version) <==> d.version == VersionMarker)
      && (FieldOk(m, Brand) <==> NonEmpty(d.brand))
      && (FieldOk(m, Type) <==> NonEmpty(d.material))
      && (FieldOk(m, ColorHex) <==> IsHex6(d.colorHex))
      && (FieldOk(m, MinTemp) <==> IsDigits(d.minTemp))
      && (FieldOk(m, MaxTemp) <==> IsDigits(d.maxTemp))
      && FieldOk(m, SpoolId)
  {
    ToJsonLookups(d);
  }

  /** The value under each schema key of the object a descriptor becomes. */
  lemma ToJsonLookups(d: OpenSpool)
    ensures var m := ToJson(d).members;
      && "protocol" in m && m["protocol"] == JString(d.protocol)
      && "version" in m && m["version"] == JString(d.version)
      && "brand" in m && m["brand"] == JString(d.brand)
      && "type" in m && m["type"] == JString(d.material)
      && "color_hex" in m && m["color_hex"] == JString(d.colorHex)
      && "min_temp" in m && m["min_temp"] == JString(d.minTemp)
      && "max_temp" in m && m["max_temp"] == JString(d.maxTemp)
      && ("spool_id" in m ==> d.spoolId.Some? && m["spool_id"] == JNumber(d.spoolId.value))
  {
  }

  /** Properties outside the schema, such as `subtype`, are ignored rather than rejected. */
  lemma {:induction false} UnknownKeysIgnored(m: map<string, Json>, extra: map<string, Json>)
    requires extra.Keys !! SchemaKeys
    ensures ValidateOpenSpool(JObject(m + extra)) == ValidateOpenSpool(JObject(m))
  {
    forall k | k in SchemaKeys
      ensures (k in m + extra <==> k in m) && (k in m ==> (m + extra)[k] == m[k])
    {
      assert k !in extra;
    }
    AgreeOnSchema(m + extra, m);
  }

  /** Validation looks only at the schema's keys. */
  lemma AgreeOnSchema(m1: map<string, Json>, m2: map<string, Json>)
    requires forall k :: k in SchemaKeys ==> (k in m1 <==> k in m2) && (k in m1 ==> m1[k] == m2[k])
    ensures ValidateOpenSpool(JObject(m1)) == ValidateOpenSpool(JObject(m2))
  {
    AllFieldsAgree(m1, m2);
    if FailingFields(m1) == [] {
      ParsedAgrees(m1, m2);
    }
  }

  lemma AllFieldsAgree(m1: map<string, Json>, m2: map<string, Json>)
    requires forall k :: k in SchemaKeys ==> (k in m1 <==> k in m2) && (k in m1 ==> m1[k] == m2[k])
    ensures forall f :: FieldOk(m1, f) == FieldOk(m2, f)
    ensures FailingFields(m1) == FailingFields(m2)
  {
    forall f ensures FieldOk(m1, f) == FieldOk(m2, f) {
      NameInSchemaKeys(f);
      FieldAgrees(m1, m2, f);
    }
    assert forall f :: Check(m1, f) == Check(m2, f);
  }

  lemma ParsedAgrees(m1: map<string, Json>, m2: map<string, Json>)
    requires forall k :: k in SchemaKeys ==> (k in m1 <==> k in m2) && (k in m1 ==> m1[k] == m2[k])
    requires forall f :: FieldOk(m1, f)
    requires forall f :: FieldOk(m2, f)
    ensures Parsed(m1) == Parsed(m2)
  {
    assert "brand" in SchemaKeys && "type" in SchemaKeys;
    assert "color_hex" in SchemaKeys && "min_temp" in SchemaKeys && "max_temp" in SchemaKeys && "spool_id" in SchemaKeys;
    assert FieldOk(m1, Protocol) && FieldOk(m1, Version) && FieldOk(m1, Brand) && FieldOk(m1, Type);
    assert FieldOk(m1, ColorHex) && FieldOk(m1, MinTemp) && FieldOk(m1, MaxTemp) && FieldOk(m1, SpoolId);
    assert FieldOk(m2, Protocol) && FieldOk(m2, Version) && FieldOk(m2, Brand) && FieldOk(m2, Type);
    assert FieldOk(m2, ColorHex) && FieldOk(m2, MinTemp) && FieldOk(m2, MaxTemp) && FieldOk(m2, SpoolId);
  }

  lemma FieldAgrees(m1: map<string, Json>, m2: map<string, Json>, f: Field)
    requires Name(f) in m1 <==> Name(f) in m2
    requires Name(f) in m1 ==> m1[Name(f)] == m2[Name(f)]
    ensures FieldOk(m1, f) == FieldOk(m2, f)
    ensures Name(f) in m1 ==> m1[Name(f)] == m2[Name(f)]
  {
  }

  /** When only the two temperature fields fail, the failure names exactly them, in order. */
  lemma OnlyTempsFail(m: map<string, Json>)
    requires FieldOk(m, Protocol) && FieldOk(m, Version) && FieldOk(m, Brand) && FieldOk(m, Type)
    requires FieldOk(m, ColorHex) && !FieldOk(m, MinTemp) && !FieldOk(m, MaxTemp) && FieldOk(m, SpoolId)
    ensures ValidateOpenSpool(JObject(m)) == Failure(InvalidFields([MinTemp, MaxTemp]))
  {
    assert FailingFields(m) == [MinTemp, MaxTemp];
  }

  // Fixed cases of the schema's rules.

  /** A well-formed descriptor without `spool_id`. */
  function SampleMembers(): map<string, Json> {
    map["protocol" := JString("openspool"), "version" := JString("1.0"),
        "brand" := JString("Bambu Lab"), "type" := JString("PLA"),
        "color_hex" := JString("00FF00"), "min_temp" := JString("220"), "max_temp" := JString("220")]
  }

  lemma AcceptsWithoutSpoolId()
    ensures ValidateOpenSpool(JObject(SampleMembers())).Success?
  {
    var m := SampleMembers();
    assert IsHex6(m["color_hex"].s);
    assert IsDigits(m["min_temp"].s);
    assert FieldOk(m, Protocol) && FieldOk(m, Version) && FieldOk(m, Brand) && FieldOk(m, Type);
    assert FieldOk(m, ColorHex) && FieldOk(m, MinTemp) && FieldOk(m, MaxTemp) && FieldOk(m, SpoolId);
  }

  lemma AcceptsFractionalSpoolId()
    ensures ValidateOpenSpool(JObject(SampleMembers()["spool_id" := JNumber(1.5)])).Success?
  {
    var m := SampleMembers()["spool_id" := JNumber(1.5)];
    assert IsHex6(m["color_hex"].s);
    assert IsDigits(m["min_temp"].s);
    assert FieldOk(m, Protocol) && FieldOk(m, Version) && FieldOk(m, Brand) && FieldOk(m, Type);
    assert FieldOk(m, ColorHex) && FieldOk(m, MinTemp) && FieldOk(m, MaxTemp) && FieldOk(m, SpoolId);
  }

  lemma RejectsMissingProtocol()
    ensures ValidateOpenSpool(JObject(SampleMembers() - {"protocol"})).Failure?
  {
    assert !FieldOk(SampleMembers() - {"protocol"}, Protocol);
  }

  lemma RejectsOtherProtocol()
    ensures ValidateOpenSpool(JObject(SampleMembers()["protocol" := JString("other")])).Failure?
  {
    assert !FieldOk(SampleMembers()["protocol" := JString("other")], Protocol);
  }

  lemma RejectsShortColor()
    ensures ValidateOpenSpool(JObject(SampleMembers()["color_hex" := JString("00FF0")])).Failure?
  {
    assert !FieldOk(SampleMembers()["color_hex" := JString("00FF0")], ColorHex);
  }

  lemma RejectsNonDigitTemps()
    ensures ValidateOpenSpool(JObject(SampleMembers()["min_temp" := JString("20a")])).Failure?
    ensures ValidateOpenSpool(JObject(SampleMembers()["max_temp" := JString("-5")])).Failure?
    ensures ValidateOpenSpool(JObject(SampleMembers()["min_temp" := JString("")])).Failure?
  {
    assert !IsDecimalDigit("20a"[2]);
    assert !FieldOk(SampleMembers()["min_temp" := JString("20a")], MinTemp);
    assert !IsDecimalDigit("-5"[0]);
    assert !FieldOk(SampleMembers()["max_temp" := JString("-5")], MaxTemp);
    assert !FieldOk(SampleMembers()["min_temp" := JString("")], MinTemp);
  }

  lemma RejectsNullSpoolId()
    ensures ValidateOpenSpool(JObject(SampleMembers()["spool_id" := JNull])).Failure?
  {
    assert !FieldOk(SampleMembers()["spool_id" := JNull], SpoolId);
  }

  lemma RejectsNonObject()
    ensures ValidateOpenSpool(JArray([])) == Failure(NotAnObject)
    ensures ValidateOpenSpool(JNull) == Failure(NotAnObject)
  {
  }
}
