/**
 * The write path and the read path meet here: a descriptor the mapper
 * produces is one the validator accepts and returns unchanged, exactly when
 * the spool's extruder temperature is absent or not negative.
 */
module MapValidate {
  import opened Wrappers
  import opened Strings
  import opened SpoolmanTypes
  import opened OpenSpoolTypes
  import opened Mapper
  import opened Validator

  /** The temperatures the mapper renders as a digit string. */
  predicate RendersAsDigits(temp: Option<int>) {
    temp.None? || temp.value >= 0
  }

  /** A mapped descriptor validates, and comes back unchanged, iff its temperature is absent or non-negative. */
  lemma {:induction false} MappedDescriptorValidates(spool: Spool)
    ensures ValidateOpenSpool(ToJson(MapSpoolToOpenSpool(spool))) == Success(MapSpoolToOpenSpool(spool))
        <==> RendersAsDigits(spool.filament.settingsExtruderTemp)
  {
    ConformantRoundTrip(MapSpoolToOpenSpool(spool));
  }

  /** A negative temperature makes exactly the two temperature fields fail. */
  lemma {:induction false} NegativeTempRejected(spool: Spool)
    requires spool.filament.settingsExtruderTemp.Some? && spool.filament.settingsExtruderTemp.value < 0
    ensures ValidateOpenSpool(ToJson(MapSpoolToOpenSpool(spool))) == Failure(InvalidFields([MinTemp, MaxTemp]))
  {
    var d := MapSpoolToOpenSpool(spool);
    var m := ToJson(d).members;
    MappedFieldsOk(spool);
    OnlyTempsFail(m);
  }

  /**
   * On the object the mapper's descriptor becomes, every rule other than the two temperature
   * rules passes, and each temperature rule passes exactly when the temperature renders as digits.
   */
  lemma MappedFieldsOk(spool: Spool)
    ensures var m := ToJson(MapSpoolToOpenSpool(spool)).members;
      && FieldOk(m, Protocol) && FieldOk(m, Version) && FieldOk(m, Brand) && FieldOk(m, Type)
      && FieldOk(m, ColorHex) && FieldOk(m, SpoolId)
      && (FieldOk(m, MinTemp) <==> RendersAsDigits(spool.filament.settingsExtruderTemp))
      && (FieldOk(m, MaxTemp) <==> RendersAsDigits(spool.filament.settingsExtruderTemp))
  {
    ToJsonRules(MapSpoolToOpenSpool(spool));
  }
}
