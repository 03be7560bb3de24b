# spool-scanner, modelled in Dafny

spool-scanner is a browser app for a 3D-printing filament inventory kept in a
Spoolman server. It lists the active spools, newest first, with a search box.
It writes a spool's description to an NFC tag as an OpenSpool JSON descriptor
and reads such tags back. This project models the app's core and proves
properties of it:

- **Mapper** (`Mapper.dfy`): the total translation of a Spoolman spool into an
  OpenSpool descriptor. It covers the defaults "Generic", "PLA", "000000" and
  "200", stripping one leading `#` from the colour, and the JavaScript
  truthiness tests: an empty string and a temperature of 0 count as missing.
- **Validator** (`Validator.dfy`): the OpenSpool schema check applied to an
  arbitrary decoded JSON value.
  - A value is accepted exactly when it is an object and all eight field rules
    hold.
  - A rejection names exactly the failing fields.
  - Properties outside the schema are dropped.
- **MapValidate** (`MapValidate.dfy`): what the mapper writes passes the
  validator and comes back unchanged, exactly when the temperature is absent
  or non-negative. Temperatures are unbounded integers here; see "Left out"
  for the very large numbers JavaScript prints in exponent notation.
- **Dashboard** (`Dashboard.dfy`): the search filter. It is a subsequence of
  the list, and it keeps a spool exactly when the lower-cased query occurs in
  the lower-cased filament name, vendor name or material.
- **SpoolStore** (`SpoolStore.dfy`): the spool store, as a class.
  - It keeps the list, the loading flag, the error message and the Spoolman
    address.
  - A fetch drops archived spools and sorts the rest with an in-place stable
    insertion sort on an array, newest first.
  - The sort is proved equal to a reference function, `SortedByRecency`.
  - That function is proved newest first, a permutation, and stable.
- **ReadTag** (`ReadTag.dfy`): the tag-read dialog, as a class.
  - Starting and stopping a scan.
  - The reading callback takes the first record of a message that decodes to
    a truthy value and validates. If there is none, it reports a fixed error.
  - The reading-error callback.
  - Looking the read spool up in Spoolman.

Support modules:

- `Wrappers.dfy`: `Option` and `Result`.
- `Strings.dfy`: hex and decimal digits, integer-to-decimal, ASCII case
  mapping, substring search.
- `Seqs.dfy`: order-preserving filter and first-hit search.
- `SpoolmanTypes.dfy`, `OpenSpoolTypes.dfy`: the records, and the JSON value
  type.

Value mappings:

- JSON numbers are reals.
- Spool ids and extruder temperatures are integers.
- Timestamps are optional integers; `None` stands for an absent or empty date
  string.

Decisions where the code has an unexpected edge:

- Starting a new scan does not cancel the previous one. `startScanning` in
  `components/ReadTagModal.tsx` replaces the stored abort controller without
  aborting it, although cancelling the earlier scan is what one would expect.
  The model follows the code: `ReadTagModalState.StartScanning` promises
  `aborted == old(aborted)`, and the replaced controller is never recorded as
  aborted.
- When starting the reader throws, the new controller stays installed, as in
  the code.
- `spool_id` of 0 is falsy, so `handleLookupSpool` does nothing for it. A tag
  written for a spool with id 0 cannot be looked up (`WrittenSpoolLookupId`).
- `url.replace(/\/$/, "")` removes only one trailing slash, so a second
  `setSpoolmanUrl` can shorten the address again (`TrimNotIdempotent`).
- `handleLookupSpool` calls `getSpool` without a base address
  (`components/ReadTagModal.tsx:106`), so the lookup always goes to the default
  proxy address, not to the configured Spoolman address. The model's
  `getSpool` parameter is therefore one fixed answer per id, independent of
  `SpoolStoreState.spoolmanUrl`.

## Model

| member | source | states |
|---|---|---|
| Mapper.StripLeadingHash | src/lib/mapper.ts:9 | one leading `#` is removed when present; otherwise the string is unchanged |
| Mapper.NormalizeColor | src/lib/mapper.ts:9-12 | the colour is always six hex digits. It is the input minus one leading `#` when that leaves six hex digits, and "000000" otherwise (missing, empty, short, non-hex) |
| Mapper.TempString | src/lib/mapper.ts:16 | missing or zero gives "200"; a positive value gives exactly its decimal rendering, whose digits read back to that value; a negative value gives "-" and the digits of its magnitude; the result is all digits exactly when the temperature is missing or non-negative |
| Mapper.BrandOf | src/lib/mapper.ts:21 | the vendor name when there is a vendor with a non-empty name, else "Generic"; never empty |
| Mapper.MaterialOf | src/lib/mapper.ts:22 | the material when present and non-empty, else "PLA"; never empty |
| Mapper.MapSpoolToOpenSpool | src/lib/mapper.ts:4-28 | protocol and version markers are fixed; brand and type are non-empty; the colour is six hex digits; min and max temperature are equal and all digits exactly when the temperature is missing or non-negative; `spool_id` is the spool's id |
| Mapper.FullyPopulatedExample | src/lib/mapper.test.ts:26-38 | the fully populated test spool maps to the expected descriptor, temperature "220" included |
| Mapper.MissingVendorExample | src/lib/mapper.test.ts:40-50 | no vendor gives brand "Generic" |
| Mapper.MissingMaterialExample | src/lib/mapper.test.ts:52-62 | no material gives type "PLA" |
| Mapper.HashStrippedExample | src/lib/mapper.test.ts:64-74 | "#FF0000" becomes "FF0000" |
| Mapper.ShortColorExample | src/lib/mapper.test.ts:76-86 | "FFF" becomes "000000" |
| Mapper.NonHexColorExample | src/lib/mapper.test.ts:88-98 | "ZZZZZZ" becomes "000000" |
| Mapper.MissingColorExample | src/lib/mapper.test.ts:100-110 | a missing colour becomes "000000" |
| Mapper.DoubleHashExample | src/lib/mapper.ts:9-12 | "##FF0000" loses only one `#` and so becomes "000000" |
| Mapper.MixedCaseExample | src/lib/mapper.ts:10 | a valid colour keeps its letter case |
| Mapper.TempExamples | src/lib/mapper.ts:16 | a missing or zero temperature gives "200", and -5 gives "-5" |
| Strings.NatToString | src/lib/mapper.ts:16 | `toString()` of a natural number: decimal digits with no leading zero |
| Strings.NatToStringRoundTrip | src/lib/mapper.ts:16 | reading back the digits of a natural number gives the number |
| Strings.IntToString | src/lib/mapper.ts:16 | a non-negative integer renders as its natural-number rendering, digits with its value; a negative one as "-" followed by the digits of its magnitude, which is not all digits |
| Strings.ToLower | src/components/Dashboard.tsx:24-27 | `toLowerCase()` keeps the length; at each position an upper-case ASCII letter becomes its lower-case letter and every other character is kept; no upper-case letter remains |
| Strings.ToUpper | src/components/Dashboard.tsx:24 | keeps the length; at each position a lower-case ASCII letter becomes its upper-case letter and every other character is kept; no lower-case letter remains (used to state case-insensitivity) |
| Strings.ToLowerIdempotent | src/components/Dashboard.tsx:24-27 | lower-casing twice is lower-casing once |
| Strings.ToLowerOfToUpper | src/components/Dashboard.tsx:24 | lower-casing an upper-cased string equals lower-casing the original |
| Strings.Includes | src/components/Dashboard.tsx:30-32 | `includes` holds exactly when the needle occurs at some position of the text |
| Strings.IncludesEmpty | src/components/Dashboard.tsx:30 | every text includes the empty string |
| Strings.IncludedInEmpty | src/components/Dashboard.tsx:25-27 | the empty text includes only the empty string |
| OpenSpoolTypes.Truthy | src/components/ReadTagModal.tsx:50 | a parsed value is falsy exactly when it is `null`, `false`, `0` or `""` |
| OpenSpoolTypes.ToJson | src/types/openspool.ts:1-11 | a descriptor is written as a JSON object; it has `spool_id` exactly when the descriptor has one |
| Validator.FieldOk | src/lib/openspool.ts:5-15 | the rule of each schema field: the two literals, non-empty brand and type, a six-hex-digit colour, digit-only temperatures, and an absent or numeric `spool_id` (its shared shape is stated by `FieldOkShape`) |
| Validator.FieldOkShape | src/lib/openspool.ts:5-15 | every field but `spool_id` passes only when present as a string; `spool_id` passes exactly when absent or a number, so `null` fails |
| Validator.Check | src/lib/openspool.ts:4-16 | one field contributes nothing exactly when its rule holds, and itself otherwise |
| Validator.FailingFields | src/lib/openspool.ts:4-16 | a field is listed exactly when its rule fails |
| Validator.Parsed | src/lib/openspool.ts:4-16 | an object passing every rule yields a conformant descriptor |
| Validator.ValidateOpenSpool | src/lib/openspool.ts:18-29 | success exactly when the value is an object and every field rule holds; success yields a conformant descriptor; rejecting an object names a non-empty list of exactly the failing fields; any non-object is rejected as such |
| Validator.NameInSchemaKeys | src/lib/openspool.ts:4-16 | every field's property name is a key of the schema |
| Validator.SuccessIsSchemaPart | src/lib/openspool.ts:4-16 | an accepted descriptor, written back to JSON, is exactly the input object restricted to the schema's keys |
| Validator.ConformantRoundTrip | src/lib/openspool.ts:18-29 | validating a written descriptor returns the same descriptor exactly when it is conformant |
| Validator.UnknownKeysIgnored | src/lib/openspool.ts:4-16 | adding properties outside the schema does not change the outcome |
| Validator.AgreeOnSchema | src/lib/openspool.ts:4-16 | two objects that agree on the schema's keys validate alike |
| Validator.OnlyTempsFail | src/lib/openspool.ts:13-14 | when only the two temperature rules fail, the error names exactly min_temp then max_temp |
| Validator.AcceptsWithoutSpoolId | src/lib/openspool.ts:15 | `spool_id` may be absent |
| Validator.AcceptsFractionalSpoolId | src/lib/openspool.ts:15 | any number is accepted as `spool_id`, including a fractional one |
| Validator.RejectsMissingProtocol | src/lib/openspool.ts:5 | an object without `protocol` is rejected |
| Validator.RejectsOtherProtocol | src/lib/openspool.ts:5 | a protocol other than "openspool" is rejected |
| Validator.RejectsShortColor | src/lib/openspool.ts:9-12 | a five-character colour is rejected |
| Validator.RejectsNonDigitTemps | src/lib/openspool.ts:13-14 | temperatures holding a letter or a sign, or empty, are rejected |
| Validator.RejectsNullSpoolId | src/lib/openspool.ts:15 | `spool_id: null` is rejected (optional does not admit null) |
| Validator.RejectsNonObject | src/lib/openspool.ts:23 | an array and `null` are rejected as not an object |
| MapValidate.MappedDescriptorValidates | src/lib/mapper.ts:4-28 | what the mapper writes validates and comes back unchanged exactly when the temperature is missing or non-negative |
| MapValidate.NegativeTempRejected | src/lib/mapper.ts:16 | with a negative temperature, exactly the two temperature fields fail |
| MapValidate.MappedFieldsOk | src/lib/mapper.ts:4-28 | on the object written for any spool, the protocol, version, brand, type, colour and `spool_id` rules pass, and each temperature rule passes exactly when the temperature is missing or non-negative |
| Dashboard.LowerOrEmpty | src/components/Dashboard.tsx:25-27 | the lower-cased text, or "" when it is missing: empty exactly when the text is missing or empty; otherwise as long as the text, with no upper-case letter |
| Dashboard.VendorText | src/components/Dashboard.tsx:26 | the vendor name lower-cased: empty exactly when there is no vendor or its name is empty; otherwise as long as the name, with no upper-case letter |
| Dashboard.Matches | src/components/Dashboard.tsx:24-33 | the empty query matches every spool |
| Dashboard.FilteredSpools | src/components/Dashboard.tsx:23-34 | the result is a subsequence of the list; it holds a spool exactly when the spool is in the list and matches the query; each matching spool occurs as often as in the list, and a non-matching one not at all |
| Dashboard.EmptyQueryKeepsAll | src/components/Dashboard.tsx:23-34 | the empty query keeps the whole list, in order |
| Dashboard.BareSpoolMatchesOnlyEmpty | src/components/Dashboard.tsx:25-33 | a spool with no name, vendor or material matches exactly the empty query |
| Dashboard.SameLowerSameResult | src/components/Dashboard.tsx:24 | queries that lower-case alike select the same spools |
| Dashboard.CaseInsensitive | src/components/Dashboard.tsx:24-27 | upper- or lower-casing the query does not change the result |
| Dashboard.FilterOfConcat | src/components/Dashboard.tsx:23 | filtering a concatenation filters each part |
| SpoolStore.RecencyKey | src/store/useSpoolStore.ts:43-44 | the sort key is the last-used time when set, else the registration time when set, else 0 |
| SpoolStore.SortedByRecency | src/store/useSpoolStore.ts:42-46 | the reference sort keeps the length; its order properties are stated by `SortedByRecencyCorrect` |
| SpoolStore.WithKeyConcat | src/store/useSpoolStore.ts:42-46 | the spools with one sort key in a concatenation are those of each part, in order |
| SpoolStore.InsertPermutes | src/store/useSpoolStore.ts:42-46 | one insertion step adds exactly the inserted spool |
| SpoolStore.InsertNewestFirst | src/store/useSpoolStore.ts:42-46 | one insertion step keeps a list newest first |
| SpoolStore.InsertStable | src/store/useSpoolStore.ts:42-46 | an insertion step puts the spool after every spool with its own key |
| SpoolStore.SortedIsNewestFirst | src/store/useSpoolStore.ts:42-46 | the reference sort is newest first |
| SpoolStore.SortedByRecencyCorrect | src/store/useSpoolStore.ts:42-46 | the reference sort is newest first, a permutation of its input, and stable: the spools of each key keep their input order |
| SpoolStore.InsertAt | src/store/useSpoolStore.ts:42-46 | insertion into a newest-first list places the spool just before the first strictly older one |
| SpoolStore.SortInPlace | src/store/useSpoolStore.ts:42-46 | the in-place array sort leaves the array equal to the reference sort of its old contents |
| SpoolStore.ShiftInto | src/store/useSpoolStore.ts:42-46 | one pass moves `a[i]` left past the older spools of the prefix, to just after the last spool at least as new, and leaves the rest of the array alone |
| SpoolStore.SortedCopy | src/store/useSpoolStore.ts:42-46 | sorting a fresh array of the list gives the reference sort |
| Seqs.Filter | src/store/useSpoolStore.ts:41 | `Array.prototype.filter`: no longer than the input; an element is kept exactly when it is in the input and satisfies the predicate, as often as it occurs there |
| SpoolStore.Active | src/store/useSpoolStore.ts:41 | a spool is kept exactly when it is in the fetched list and not archived; an active spool occurs as often as in the fetched list, an archived one not at all |
| SpoolStore.ShownSpools | src/store/useSpoolStore.ts:41-48 | the stored list holds each active fetched spool as often as it was fetched and no archived one, newest first |
| SpoolStore.ShownSpoolsCorrect | src/store/useSpoolStore.ts:41-48 | the stored list holds exactly the active fetched spools, as a multiset, newest first, and ties keep fetch order |
| SpoolStore.TrimTrailingSlash | src/store/useSpoolStore.ts:23 | one trailing `/` is removed when present; otherwise the address is unchanged |
| SpoolStore.TrimNotIdempotent | src/store/useSpoolStore.ts:23 | "a//" becomes "a/", and a second trim gives "a" |
| SpoolStore.SpoolStoreState.constructor | src/store/useSpoolStore.ts:17-20 | starts with no spools, not loading, no error, and the stored address or "" |
| SpoolStore.SpoolStoreState.BeginFetch | src/store/useSpoolStore.ts:36 | loading is on and the error is cleared; the list and address are kept |
| SpoolStore.SpoolStoreState.FinishFetch | src/store/useSpoolStore.ts:38-55 | success stores the active spools newest first; failure keeps the list and sets the fixed load error; loading is off either way |
| SpoolStore.SpoolStoreState.FetchSpools | src/store/useSpoolStore.ts:30-56 | the fetch from the stored address ends not loading. Success clears the error and stores the shown spools; failure keeps the list and sets the load error |
| SpoolStore.SpoolStoreState.SetSpoolmanUrl | src/store/useSpoolStore.ts:22-28 | the address is stored without one trailing slash, then a fetch from it settles as above |
| Seqs.FindFirstHit | src/components/ReadTagModal.tsx:44-59 | the early-exit loop returns the value of the first position that yields one, or nothing |
| ReadTag.Decode | src/components/ReadTagModal.tsx:49-52 | a record yields a descriptor exactly when it parsed to a truthy value that validates; the descriptor is the validated one |
| ReadTag.FirstValid | src/components/ReadTagModal.tsx:44-73 | nothing is taken exactly when no record yields a descriptor, the empty message included |
| ReadTag.FirstValidAt | src/components/ReadTagModal.tsx:44-57 | the first record that yields a descriptor decides the result, whatever follows |
| ReadTag.FirstValidSome | src/components/ReadTagModal.tsx:49-53 | a taken descriptor is the validated content of the first record that yields one |
| ReadTag.FirstValidConcat | src/components/ReadTagModal.tsx:44-59 | records that yield nothing are skipped, and a prefix that yields a descriptor hides the rest |
| ReadTag.WrittenTagReadsBack | src/components/ReadTagModal.tsx:44-57 | a tag holding what the mapper wrote for a spool reads back as exactly that descriptor, after any unusable records, when the temperature is missing or non-negative |
| ReadTag.ValidDescriptorAfter | src/components/ReadTagModal.tsx:44-57 | a record that validates unchanged is taken after records that yield nothing |
| ReadTag.LookupId | src/components/ReadTagModal.tsx:101 | a lookup happens exactly when there is tag data with a non-zero `spool_id`, and it uses that id |
| ReadTag.WrittenSpoolLookupId | src/components/ReadTagModal.tsx:101 | a written spool's tag is looked up by the spool's id, except for id 0 |
| ReadTag.ReadTagModalState.constructor | src/components/ReadTagModal.tsx:14-21 | initial state: scanning, no error, no tag data, no found spool, not looking up, no lookup error, no controller |
| ReadTag.ReadTagModalState.StartScanning | src/components/ReadTagModal.tsx:30-91 | resets status, message, tag data and found spool. It installs a fresh controller and aborts none. A start that throws sets the error status with the thrown message or the fixed one. Lookup state is untouched |
| ReadTag.ReadTagModalState.StopScanning | src/components/ReadTagModal.tsx:93-98 | an active controller is aborted and cleared; with none, nothing changes |
| ReadTag.ReadTagModalState.OnReading | src/components/ReadTagModal.tsx:42-74 | a found descriptor becomes the tag data with success status, keeping the message; with none, the fixed not-found error is set and the tag data is kept; scanning stops either way |
| ReadTag.ReadTagModalState.Settle | src/components/ReadTagModal.tsx:53-73 | the state change after the records were searched, as for `OnReading` |
| ReadTag.ReadTagModalState.OnReadingError | src/components/ReadTagModal.tsx:75-79 | the fixed read error is shown with error status; the scan keeps running |
| ReadTag.ReadTagModalState.HandleLookupSpool | src/components/ReadTagModal.tsx:100-114 | without an id nothing changes. With one, loading ends false; a found spool is stored and the lookup error cleared; a failure keeps the found spool and sets the fixed lookup error |

## Left out

- NFC hardware and NDEF framing (`lib/nfc.ts`, `types/nfc.d.ts`), text encoding
  and `JSON.parse`. These are browser APIs. A record arrives already parsed, and
  `None` stands for a payload that did not parse. An unsupported browser shows
  up as a start that throws, `Threw(Some("Web NFC is not supported in this
  browser."))`.
- HTTP to Spoolman (`lib/spoolman.ts`). It is the parameter `getSpools`
  (outcome per address) or `getSpool` (outcome per id).
- `localStorage`. The stored address is the constructor's parameter. Writing
  it back in `setSpoolmanUrl` is not modelled, because it is output only.
- Asynchrony. Each handler runs atomically from its start to the settled
  request. The intermediate `isLoading` true state is visible only between
  `BeginFetch` and `FinishFetch`. `HandleLookupSpool` runs in one step, so
  `lookingUp` is never observed true. Requests that overlap or arrive out of
  order are not modelled.
- React rendering, `App.tsx`, `Settings.tsx`, `WriteTagModal.tsx` and
  `SpoolCard.tsx`. They hold no rule beyond calling the modelled functions,
  plus display-only arithmetic.
- The dialog's `processing` status exists in the model's `Status`, but no
  modelled code sets it, as in the source.
- Mapper.TempString: does not model fractional, NaN or infinite temperatures
  or `Math.round`'s half-way rounding, because temperatures are integers here.
  It also does not model the limits of JavaScript numbers: integers from 1e21
  on print in exponent notation (`"1e+21"`, not all digits), and integers
  above 2^53 are not exact. Real extruder temperatures are small integers.
- Mapper.MapSpoolToOpenSpool, MapValidate.MappedDescriptorValidates,
  MapValidate.MappedFieldsOk, ReadTag.WrittenTagReadsBack: "all digits
  exactly when missing or non-negative" inherits that limit. In the source, a
  temperature of 1e21 or more renders in exponent notation and fails the
  temperature rules.
- SpoolStore.SortedByRecency: does not model `Date` parsing or the NaN
  comparisons of invalid dates, because timestamps are already integers.
- Strings.ToLower: maps only ASCII letters, because Unicode case mapping is
  not modelled. Strings.ToUpper is limited in the same way.
- Dashboard.CaseInsensitive: its upper-casing half holds for this ASCII
  mapping only. In JavaScript `"ß".toUpperCase()` is `"SS"`, which lower-cases
  to `"ss"`, so upper-casing a query with "ß" can change the result.
- Validator.ValidateOpenSpool: reduces zod's error object (messages, paths,
  issue codes) to the list of failing fields. It also does not model the
  optional `subtype` property of the descriptor type, which the schema does
  not declare and so drops.
- Spoolman fields that the core never reads (weights, prices, comments,
  density, diameter, `first_used`) are not part of the records.
- The development proxy in `vite.config.ts`.
