/**
 * The tag-read dialog: scanning state, the choice of the first valid record of a
 * read message, stopping the scan, and looking the read spool up in Spoolman.
 */

module ReadTag {
  import opened Wrappers
  import opened Seqs
  import opened SpoolmanTypes
  import opened OpenSpoolTypes
  import opened Mapper
  import opened Validator
  import opened MapValidate

  /** The dialog's `status`: "scanning", "processing", "success" or "error". */
  datatype Status = Scanning | Processing | Success | Error

  const NotFoundMessage := "Tag read, but valid OpenSpool data was not found."
  const ReadErrorMessage := "Failed to read NFC tag. Please try again."
  const StartErrorMessage := "Could not start NFC scanning."
  const LookupErrorMessage := "Could not find this spool ID in your Spoolman instance."

  /**
   * How starting the NFC scan ended: the reader is listening, or starting it threw.
   * `Threw(Some(m))` is a thrown `Error` with message `m`; `Threw(None)` is anything else thrown.
   */
  datatype ScanStart = Listening | Threw(message: Option<string>)

  /**
   * The descriptor a record yields, given its payload as parsed (`None` when it did not parse):
   * a truthy value that validates yields the validated descriptor, anything else yields nothing.
   */
  function Decode(record: Option<Json>): (r: Option<OpenSpool>)
    ensures r.Some? <==> record.Some? && Truthy(record.value) && ValidateOpenSpool(record.value).Success?
    ensures r.Some? ==> ValidateOpenSpool(record.value) == Result.Success(r.value)
  {
    if record.Some? && Truthy(record.value) then
      var validation := ValidateOpenSpool(record.value);
      if validation.Success? then Some(validation.value) else None
    else None
  }

  /**
   * The descriptor the dialog takes from a read message: that of its first record that yields one.
   * Nothing is taken exactly when no record yields a descriptor, the empty message included.
   */
  function FirstValid(records: seq<Option<Json>>): (r: Option<OpenSpool>)
    ensures r.None? <==> forall i :: 0 <= i < |records| ==> Decode(records[i]).None?
  {
    FirstHit(Decode, records)
  }

  /** The record at `i` is the first that yields a descriptor, so the dialog takes that descriptor. */
  lemma FirstValidAt(records: seq<Option<Json>>, i: nat)
    requires FirstHitAt(Decode, records, i)
    ensures FirstValid(records) == Decode(records[i])
  {
    FirstHitAtIsResult(Decode, records, i);
  }

  /** A descriptor that is taken is the validated form of the first record that yields one. */
  lemma FirstValidSome(records: seq<Option<Json>>)
    requires FirstValid(records).Some?
    ensures exists i ::
      FirstHitAt(Decode, records, i) && ValidateOpenSpool(records[i].value) == Result.Success(FirstValid(records).value)
  {
    FirstHitWitness(Decode, records);
  }

  /** Records that yield nothing are skipped; a prefix that yields a descriptor hides whatever follows. */
  lemma FirstValidConcat(a: seq<Option<Json>>, b: seq<Option<Json>>)
    ensures FirstValid(a + b) == if FirstValid(a).Some? then FirstValid(a) else FirstValid(b)
  {
    FirstHitConcat(Decode, a, b);
  }

  /** A tag holding the descriptor the mapper wrote for `spool` reads back as that descriptor,
      after any records that yield nothing, provided its temperature renders as digits. */
  lemma WrittenTagReadsBack(spool: Spool, before: seq<Option<Json>>)
    requires RendersAsDigits(spool.filament.settingsExtruderTemp)
    requires forall i :: 0 <= i < |before| ==> Decode(before[i]).None?
    ensures FirstValid(before + [Some(ToJson(MapSpoolToOpenSpool(spool)))]) == Some(MapSpoolToOpenSpool(spool))
  {
    var d := MapSpoolToOpenSpool(spool);
    MappedDescriptorValidates(spool);
    ValidDescriptorAfter(before, d);
  }

  /** A record holding a descriptor that validates unchanged is taken after records that yield nothing. */
  lemma ValidDescriptorAfter(before: seq<Option<Json>>, d: OpenSpool)
    requires ValidateOpenSpool(ToJson(d)) == Result.Success(d)
    requires forall i :: 0 <= i < |before| ==> Decode(before[i]).None?
    ensures FirstValid(before + [Some(ToJson(d))]) == Some(d)
  {
    var records := before + [Some(ToJson(d))];
    assert Decode(records[|before|]) == Some(d);
    assert FirstHitAt(Decode, records, |before|) by {
      forall k | 0 <= k < |before| ensures Decode(records[k]).None? {
        assert records[k] == before[k];
      }
    }
    FirstValidAt(records, |before|);
  }

  /** The spool id `handleLookupSpool` asks Spoolman for, or `None` when it returns at once. */
  function LookupId(tagData: Option<OpenSpool>): (r: Option<real>)
    ensures r.None? <==> tagData.None? || tagData.value.spoolId.None? || tagData.value.spoolId.value == 0.0
    ensures r.Some? ==> tagData.Some? && tagData.value.spoolId == r && r.value != 0.0
  {
    if tagData.Some? && tagData.value.spoolId.Some? && tagData.value.spoolId.value != 0.0
    then tagData.value.spoolId
    else None
  }

  /** The descriptor written for a spool can be looked up by that spool's id, unless the id is 0. */
  lemma WrittenSpoolLookupId(spool: Spool)
    ensures LookupId(Some(MapSpoolToOpenSpool(spool))) == if spool.id == 0 then None else Some(spool.id as real)
  {
  }

  /**
   * The dialog's state. `controller` is the abort controller of the active scan (numbered, so that
   * one can tell them apart) and `aborted` lists, in order, the controllers aborted so far.
   */
  class ReadTagModalState {
    var status: Status
    var errorMessage: Option<string>
    var tagData: Option<OpenSpool>
    var foundSpool: Option<Spool>
    var lookingUp: bool
    var lookupError: Option<string>
    var controller: Option<nat>
    var nextController: nat
    var aborted: seq<nat>

    /** Every controller handed out so far has a number below `nextController`. */
    predicate Valid()
      reads this
    {
      (controller.Some? ==> controller.value < nextController) &&
      (forall k :: 0 <= k < |aborted| ==> aborted[k] < nextController)
    }

    /** The initial state, before the mount effect starts scanning. */
    constructor ()
      ensures Valid()
      ensures status == Scanning && errorMessage == None && tagData == None && foundSpool == None
      ensures !lookingUp && lookupError == None
      ensures controller == None && aborted == []
    {
      status := Scanning;
      errorMessage := None;
      tagData := None;
      foundSpool := None;
      lookingUp := false;
      lookupError := None;
      controller := None;
      nextController := 0;
      aborted := [];
    }

    /**
     * `startScanning`: reset the read state and install a fresh controller. The previous
     * controller is replaced without being aborted. When starting the reader throws, the
     * dialog shows the thrown message (or a fixed one) and the new controller stays installed.
     */
    method StartScanning(start: ScanStart)
      requires Valid()
      modifies this
      ensures Valid()
      ensures tagData == None && foundSpool == None
      ensures start.Listening? ==> status == Scanning && errorMessage == None
      ensures start.Threw? ==> status == Error
      ensures start.Threw? && start.message.Some? ==> errorMessage == start.message
      ensures start.Threw? && start.message.None? ==> errorMessage == Some(StartErrorMessage)
      ensures controller == Some(old(nextController)) && nextController == old(nextController) + 1
      ensures old(controller).Some? ==> controller != old(controller)
      ensures aborted == old(aborted)
      ensures lookingUp == old(lookingUp) && lookupError == old(lookupError)
    {
      status := Scanning;
      errorMessage := None;
      tagData := None;
      foundSpool := None;
      controller := Some(nextController);
      nextController := nextController + 1;
      match start
      case Listening =>
      case Threw(message) =>
        errorMessage := if message.Some? then message else Some(StartErrorMessage);
        status := Error;
    }

    /** `stopScanning`: abort and clear the active controller, if there is one. */
    method StopScanning()
      requires Valid()
      modifies this
      ensures Valid()
      ensures controller == None
      ensures aborted == old(aborted) + (if old(controller).Some? then [old(controller).value] else [])
      ensures status == old(status) && errorMessage == old(errorMessage) && tagData == old(tagData)
      ensures foundSpool == old(foundSpool) && lookingUp == old(lookingUp) && lookupError == old(lookupError)
      ensures nextController == old(nextController)
    {
      if controller.Some? {
        aborted := aborted + [controller.value];
        controller := None;
      }
    }

    /**
     * The reading callback: walk the message's records in order and take the first acceptable one;
     * if there is none, report that no valid data was found. Either way scanning stops.
     */
    method OnReading(records: seq<Option<Json>>)
      requires Valid()
      modifies this
      ensures Valid()
      ensures FirstValid(records).Some? ==>
        status == Status.Success && tagData == FirstValid(records) && errorMessage == old(errorMessage)
      ensures FirstValid(records).None? ==>
        status == Error && errorMessage == Some(NotFoundMessage) && tagData == old(tagData)
      ensures controller == None
      ensures aborted == old(aborted) + (if old(controller).Some? then [old(controller).value] else [])
      ensures foundSpool == old(foundSpool) && lookingUp == old(lookingUp) && lookupError == old(lookupError)
      ensures nextController == old(nextController)
    {
      var found := FindFirstHit(Decode, records);
      Settle(found);
    }

    /** The end of the reading callback, once the records have been searched. */
    method Settle(found: Option<OpenSpool>)
      requires Valid()
      modifies this
      ensures Valid()
      ensures found.Some? ==> status == Status.Success && tagData == found && errorMessage == old(errorMessage)
      ensures found.None? ==> status == Error && errorMessage == Some(NotFoundMessage) && tagData == old(tagData)
      ensures controller == None
      ensures aborted == old(aborted) + (if old(controller).Some? then [old(controller).value] else [])
      ensures foundSpool == old(foundSpool) && lookingUp == old(lookingUp) && lookupError == old(lookupError)
      ensures nextController == old(nextController)
    {
      if found.Some? {
        tagData := found;
        status := Status.Success;
      } else {
        errorMessage := Some(NotFoundMessage);
        status := Error;
      }
      StopScanning();
    }

    /** The reading-error callback: report the failure; the scan is left running. */
    method OnReadingError()
      modifies this
      ensures status == Error && errorMessage == Some(ReadErrorMessage)
      ensures tagData == old(tagData) && foundSpool == old(foundSpool)
      ensures lookingUp == old(lookingUp) && lookupError == old(lookupError)
      ensures controller == old(controller) && aborted == old(aborted) && nextController == old(nextController)
    {
      errorMessage := Some(ReadErrorMessage);
      status := Error;
    }

    /**
     * `handleLookupSpool`, once the request has settled; `getSpool` is Spoolman's answer
     * for an id (`None` when the request fails). Without an id to look up nothing changes.
     */
    method HandleLookupSpool(getSpool: real -> Option<Spool>)
      modifies this
      ensures LookupId(old(tagData)).None? ==>
        lookingUp == old(lookingUp) && lookupError == old(lookupError) && foundSpool == old(foundSpool)
      ensures LookupId(old(tagData)).Some? ==> !lookingUp
      ensures LookupId(old(tagData)).Some? && getSpool(LookupId(old(tagData)).value).Some? ==>
        foundSpool == getSpool(LookupId(old(tagData)).value) && lookupError == None
      ensures LookupId(old(tagData)).Some? && getSpool(LookupId(old(tagData)).value).None? ==>
        foundSpool == old(foundSpool) && lookupError == Some(LookupErrorMessage)
      ensures status == old(status) && errorMessage == old(errorMessage) && tagData == old(tagData)
      ensures controller == old(controller) && aborted == old(aborted) && nextController == old(nextController)
    {
      var id := LookupId(tagData);
      if id.None? {
        return;
      }
      lookingUp := true;
      lookupError := None;
      var spool := getSpool(id.value);
      if spool.Some? {
        foundSpool := spool;
      } else {
        lookupError := Some(LookupErrorMessage);
      }
      lookingUp := false;
    }
  }
}
