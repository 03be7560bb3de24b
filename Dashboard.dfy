/**
 * The dashboard's search box: `filteredSpools`, a case-insensitive substring
 * filter over the filament name, the vendor name and the material.
 */
module Dashboard {
  import opened Wrappers
  import opened Strings
  import opened Seqs
  import opened SpoolmanTypes

  /** `text?.toLowerCase() || ""` */
  function LowerOrEmpty(text: Option<string>): (r: string)
    ensures r == "" <==> text.None? || text.value == ""
    ensures text.Some? ==> |r| == |text.value|
    ensures forall i :: 0 <= i < |r| ==> !('A' <= r[i] <= 'Z')
  {
    if text.Some? then ToLower(text.value) else ""
  }

  /** The vendor's name, lower-cased, or "" without a vendor. */
  function VendorText(vendor: Option<Vendor>): (r: string)
    ensures r == "" <==> vendor.None? || vendor.value.name == ""
    ensures vendor.Some? ==> |r| == |vendor.value.name|
    ensures forall i :: 0 <= i < |r| ==> !('A' <= r[i] <= 'Z')
  {
    if vendor.Some? then ToLower(vendor.value.name) else ""
  }

  /** The search predicate: the lower-cased query occurs in one of the three lower-cased texts. */
  predicate Matches(spool: Spool, searchQuery: string): (b: bool)
    ensures searchQuery == "" ==> b
  {
    ToLowerEmpty(searchQuery);
    IncludesEmpty(LowerOrEmpty(spool.filament.name));
    var query := ToLower(searchQuery);
    || Includes(LowerOrEmpty(spool.filament.name), query)
    || Includes(VendorText(spool.filament.vendor), query)
    || Includes(LowerOrEmpty(spool.filament.material), query)
  }

  function FilteredSpools(spools: seq<Spool>, searchQuery: string): (r: seq<Spool>)
    ensures IsSubsequence(r, spools)
    ensures forall s :: s in r ==> s in spools && Matches(s, searchQuery)
    ensures forall s :: s in spools && Matches(s, searchQuery) ==> s in r
    ensures forall s :: multiset(r)[s] == if Matches(s, searchQuery) then multiset(spools)[s] else 0
  {
    FilterIsSubsequence(s => Matches(s, searchQuery), spools);
    Filter(s => Matches(s, searchQuery), spools)
  }

  /** An empty query keeps every spool. */
  lemma {:induction false} EmptyQueryKeepsAll(spools: seq<Spool>)
    ensures FilteredSpools(spools, "") == spools
  {
    FilterKeepsAll(s => Matches(s, ""), spools);
  }

  /** A spool with no name, vendor or material is kept by the empty query only. */
  lemma {:induction false} BareSpoolMatchesOnlyEmpty(spool: Spool, searchQuery: string)
    requires spool.filament.name.None? && spool.filament.vendor.None? && spool.filament.material.None?
    ensures Matches(spool, searchQuery) <==> searchQuery == ""
  {
    IncludedInEmpty(ToLower(searchQuery));
    ToLowerEmpty(searchQuery);
  }

  /** Queries that lower-case to the same string select the same spools. */
  lemma {:induction false} SameLowerSameResult(spools: seq<Spool>, q1: string, q2: string)
    requires ToLower(q1) == ToLower(q2)
    ensures FilteredSpools(spools, q1) == FilteredSpools(spools, q2)
  {
    FilterSamePredicate(s => Matches(s, q1), s => Matches(s, q2), spools);
  }

  /** Changing the letter case of the query does not change the result. */
  lemma {:induction false} CaseInsensitive(spools: seq<Spool>, searchQuery: string)
    ensures FilteredSpools(spools, ToUpper(searchQuery)) == FilteredSpools(spools, searchQuery)
    ensures FilteredSpools(spools, ToLower(searchQuery)) == FilteredSpools(spools, searchQuery)
  {
    ToLowerOfToUpper(searchQuery);
    ToLowerIdempotent(searchQuery);
    SameLowerSameResult(spools, ToUpper(searchQuery), searchQuery);
    SameLowerSameResult(spools, ToLower(searchQuery), searchQuery);
  }

  /** Filtering a concatenated list filters each part. */
  lemma {:induction false} FilterOfConcat(a: seq<Spool>, b: seq<Spool>, searchQuery: string)
    ensures FilteredSpools(a + b, searchQuery) == FilteredSpools(a, searchQuery) + FilteredSpools(b, searchQuery)
  {
    FilterConcat(s => Matches(s, searchQuery), a, b);
  }
}
