/**
 * The OpenSpool tag descriptor and the JSON values it travels as between the
 * mapper, the NFC tag and the validator.
 */
module OpenSpoolTypes {
  import opened Wrappers

  const ProtocolMarker: string := "openspool"
  const VersionMarker: string := "1.0"

  /**
   * An OpenSpool record. `material` is the JSON property `type`, a reserved
   * word in Dafny. The optional `subtype` property of the interface is never
   * produced by the mapper and is dropped by the validator, so it is not a field.
   */
  datatype OpenSpool = OpenSpool(
    protocol: string,
    version: string,
    brand: string,
    material: string,
    colorHex: string,
    minTemp: string,
    maxTemp: string,
    spoolId: Option<real>)

  /** A decoded JSON value; numbers are reals, objects are maps from keys to values. */
  datatype Json =
    | JNull
    | JBool(b: bool)
    | JNumber(n: real)
    | JString(s: string)
    | JArray(elems: seq<Json>)
    | JObject(members: map<string, Json>)

  /** JavaScript truthiness: `null`, `false`, `0` and `""` are falsy; arrays and objects are truthy. */
  predicate Truthy(j: Json): (b: bool)
    ensures !b <==> j == JNull || j == JBool(false) || j == JNumber(0.0) || j == JString("")
  {
    match j
    case JNull => false
    case JBool(b) => b
    case JNumber(n) => n != 0.0
    case JString(s) => s != ""
    case JArray(_) => true
    case JObject(_) => true
  }

  /** The JSON object a descriptor is, with `spool_id` present only when set. */
  function ToJson(d: OpenSpool): (j: Json)
    ensures j.JObject?
    ensures "spool_id" in j.members <==> d.spoolId.Some?
  {
    var fixed := map[
      "protocol" := JString(d.protocol),
      "version" := JString(d.version),
      "brand" := JString(d.brand),
      "type" := JString(d.material),
      "color_hex" := JString(d.colorHex),
      "min_temp" := JString(d.minTemp),
      "max_temp" := JString(d.maxTemp)];
    match d.spoolId
    case None => JObject(fixed)
    case Some(id) => JObject(fixed["spool_id" := JNumber(id)])
  }
}
