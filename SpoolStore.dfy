/**
 * `useSpoolStore`: the application's store of active spools, its loading and
 * error flags and the configured Spoolman address, with the in-place sort
 * that orders fetched spools by recency.
 */
module SpoolStore {
  import opened Wrappers
  import opened Seqs
  import opened SpoolmanTypes

  const LoadError: string := "Failed to load spools. Please check your connection to Spoolman."

  /** The sort key: the last-used time if set, else the registration time if set, else 0. */
  function RecencyKey(s: Spool): (r: int)
    ensures s.lastUsed.Some? ==> r == s.lastUsed.value
    ensures s.lastUsed.None? && s.registered.Some? ==> r == s.registered.value
    ensures s.lastUsed.None? && s.registered.None? ==> r == 0
  {
    if s.lastUsed.Some? then s.lastUsed.value
    else if s.registered.Some? then s.registered.value
    else 0
  }

  /** Newest first: keys never increase along the sequence. */
  predicate NewestFirst(s: seq<Spool>) {
    forall i, j :: 0 <= i < j < |s| ==> RecencyKey(s[i]) >= RecencyKey(s[j])
  }

  /** The spools of `s` whose key is `k`, in order; a stable sort keeps each of these unchanged. */
  function WithKey(s: seq<Spool>, k: int): seq<Spool> {
    if s == [] then [] else (if RecencyKey(s[0]) == k then [s[0]] else []) + WithKey(s[1..], k)
  }

  lemma {:induction false} WithKeyConcat(a: seq<Spool>, b: seq<Spool>, k: int)
    ensures WithKey(a + b, k) == WithKey(a, k) + WithKey(b, k)
  {
    if a == [] {
      assert a + b == b;
    } else {
      var h := if RecencyKey(a[0]) == k then [a[0]] else [];
      assert (a + b)[0] == a[0];
      assert (a + b)[1..] == a[1..] + b;
      WithKeyConcat(a[1..], b, k);
      assert WithKey(a + b, k) == h + (WithKey(a[1..], k) + WithKey(b, k));
      ConcatAssoc(h, WithKey(a[1..], k), WithKey(b, k));
    }
  }

  /** Associativity of `+`, as a step of its own so that larger proofs need not rediscover it. */
  lemma ConcatAssoc(a: seq<Spool>, b: seq<Spool>, c: seq<Spool>)
    ensures a + (b + c) == (a + b) + c
  {
  }

  /** `x` placed after every spool whose key is at least its own. */
  function Insert(t: seq<Spool>, x: Spool): (r: seq<Spool>)
    ensures |r| == |t| + 1
  {
    if t == [] then [x]
    else if RecencyKey(t[0]) < RecencyKey(x) then [x] + t
    else [t[0]] + Insert(t[1..], x)
  }

  lemma {:induction false} InsertPermutes(t: seq<Spool>, x: Spool)
    ensures multiset(Insert(t, x)) == multiset(t) + multiset{x}
  {
    if t != [] && RecencyKey(t[0]) >= RecencyKey(x) {
      InsertPermutes(t[1..], x);
      assert t == [t[0]] + t[1..];
    }
  }

  /** The order `Array.prototype.sort` gives with the comparator `keyB - keyA`: stable, newest first. */
  function SortedByRecency(s: seq<Spool>): (r: seq<Spool>)
    ensures |r| == |s|
  {
    if s == [] then [] else Insert(SortedByRecency(s[..|s| - 1]), s[|s| - 1])
  }

  lemma {:induction false} InsertNewestFirst(t: seq<Spool>, x: Spool)
    requires NewestFirst(t)
    ensures NewestFirst(Insert(t, x))
    ensures Insert(t, x) != [] && (Insert(t, x)[0] == x || Insert(t, x)[0] == t[0])
  {
    if t != [] && RecencyKey(t[0]) >= RecencyKey(x) {
      InsertNewestFirst(t[1..], x);
    }
  }

  /** Spools whose key is below `k` contribute nothing to `WithKey(_, k)`. */
  lemma {:induction false} WithKeyOfOlder(t: seq<Spool>, k: int)
    requires forall i :: 0 <= i < |t| ==> RecencyKey(t[i]) < k
    ensures WithKey(t, k) == []
  {
    if t != [] {
      assert forall i :: 0 <= i < |t[1..]| ==> t[1..][i] == t[i + 1];
      WithKeyOfOlder(t[1..], k);
    }
  }

  /** Inserting `x` into a newest-first list appends it to the spools with its own key and leaves the others. */
  lemma {:induction false} InsertStable(t: seq<Spool>, x: Spool, k: int)
    requires NewestFirst(t)
    ensures WithKey(Insert(t, x), k) == if RecencyKey(x) == k then WithKey(t, k) + [x] else WithKey(t, k)
  {
    if t == [] {
      assert WithKey([x], k) == (if RecencyKey(x) == k then [x] else []) + WithKey([], k);
    } else if RecencyKey(t[0]) < RecencyKey(x) {
      assert ([x] + t)[1..] == t;
      if RecencyKey(x) == k {
        WithKeyOfOlder(t, k);
      }
    } else {
      var rest := Insert(t[1..], x);
      var head := if RecencyKey(t[0]) == k then [t[0]] else [];
      NewestFirstTail(t);
      InsertStable(t[1..], x, k);
      assert Insert(t, x)[1..] == rest;
      assert WithKey(Insert(t, x), k) == head + WithKey(rest, k);
      assert WithKey(t, k) == head + WithKey(t[1..], k);
    }
  }

  lemma {:induction false} SortedIsNewestFirst(s: seq<Spool>)
    ensures NewestFirst(SortedByRecency(s))
  {
    if s != [] {
      SortedIsNewestFirst(s[..|s| - 1]);
      InsertNewestFirst(SortedByRecency(s[..|s| - 1]), s[|s| - 1]);
    }
  }

  /** The reference sort is newest first, a permutation, and stable. */
  lemma {:induction false} SortedByRecencyCorrect(s: seq<Spool>)
    ensures NewestFirst(SortedByRecency(s))
    ensures multiset(SortedByRecency(s)) == multiset(s)
    ensures forall k :: WithKey(SortedByRecency(s), k) == WithKey(s, k)
  {
    if s != [] {
      var init, last := s[..|s| - 1], s[|s| - 1];
      assert s == init + [last];
      SortedByRecencyCorrect(init);
      InsertNewestFirst(SortedByRecency(init), last);
      InsertPermutes(SortedByRecency(init), last);
      forall k ensures WithKey(SortedByRecency(s), k) == WithKey(s, k) {
        InsertStable(SortedByRecency(init), last, k);
        WithKeyConcat(init, [last], k);
      }
    }
  }

  /** Dropping the newest spool keeps a list newest first. */
  lemma NewestFirstTail(t: seq<Spool>)
    requires t != [] && NewestFirst(t)
    ensures NewestFirst(t[1..])
  {
    var t' := t[1..];
    forall a, b | 0 <= a < b < |t'| ensures RecencyKey(t'[a]) >= RecencyKey(t'[b]) {
      assert t'[a] == t[a + 1] && t'[b] == t[b + 1];
    }
  }

  /** Every spool of `t` from index `j` on is older than `x`. */
  predicate OlderFrom(t: seq<Spool>, j: nat, x: Spool)
  {
    forall k :: j <= k < |t| ==> RecencyKey(t[k]) < RecencyKey(x)
  }

  /** Inserting into a newest-first list at the first older position is `Insert`. */

  lemma {:induction false} InsertAt(t: seq<Spool>, x: Spool, j: nat)
    requires NewestFirst(t)
    requires j <= |t|
    requires OlderFrom(t, j, x)
    requires j > 0 ==> RecencyKey(t[j - 1]) >= RecencyKey(x)
    ensures Insert(t, x) == t[..j] + [x] + t[j..]
  {
    if j == 0 {
      assert t != [] ==> RecencyKey(t[0]) < RecencyKey(x);
      assert t[..0] == [] && t[0..] == t;
    } else {
      var t' := t[1..];
      NewestFirstTail(t);
      assert RecencyKey(t[0]) >= RecencyKey(t[j - 1]);
      forall i | j - 1 <= i < |t'| ensures RecencyKey(t'[i]) < RecencyKey(x) {
        assert t'[i] == t[i + 1];
      }
      assert j - 1 > 0 ==> t'[j - 2] == t[j - 1];
      InsertAt(t', x, j - 1);
      assert Insert(t, x) == [t[0]] + Insert(t', x);
      assert t[..j] == [t[0]] + t'[..j - 1];
      assert t[j..] == t'[j - 1..];
    }
  }

  lemma SortedStep(s: seq<Spool>, i: nat)
    requires i < |s|
    ensures SortedByRecency(s[..i + 1]) == Insert(SortedByRecency(s[..i]), s[i])
  {
    assert s[..i + 1][..i] == s[..i];
  }

  /** `activeSpools.sort(...)`: an insertion sort in place, stable and newest first. */
  method SortInPlace(a: array<Spool>)
    modifies a
    ensures a[..] == SortedByRecency(old(a[..]))
  {
    ghost var s := a[..];
    var i := 0;
    while i < a.Length
      invariant 0 <= i <= a.Length
      invariant a[..i] == SortedByRecency(s[..i])
      invariant a[i..] == s[i..]
    {
      ghost var t := a[..i];
      SortedIsNewestFirst(s[..i]);
      var j := ShiftInto(a, i);
      InsertAt(t, s[i], j);
      SortedStep(s, i);
      assert a[i + 1..] == s[i + 1..];
      i := i + 1;
    }
    assert s[..a.Length] == s;
  }

  /**
   * One step of the insertion sort: `a[i]` moves left past every spool of the prefix
   * with an older key, and lands at the returned index `j`.
   */
  method ShiftInto(a: array<Spool>, i: nat) returns (j: nat)
    requires i < a.Length
    modifies a
    ensures j <= i
    ensures OlderFrom(old(a[..i]), j, old(a[i]))
    ensures j > 0 ==> RecencyKey(old(a[..i])[j - 1]) >= RecencyKey(old(a[i]))
    ensures a[..i + 1] == old(a[..i])[..j] + [old(a[i])] + old(a[..i])[j..]
    ensures a[i + 1..] == old(a[i + 1..])
  {
    var x := a[i];
    ghost var t := a[..i];
    ghost var rest := a[i + 1..];
    j := i;
    while j > 0 && RecencyKey(a[j - 1]) < RecencyKey(x)
      invariant 0 <= j <= i
      invariant forall k :: 0 <= k < j ==> a[k] == t[k]
      invariant forall k :: j < k <= i ==> a[k] == t[k - 1]
      invariant forall k :: i < k < a.Length ==> a[k] == rest[k - i - 1]
      invariant OlderFrom(t, j, x)
    {
      a[j] := a[j - 1];
      j := j - 1;
    }
    a[j] := x;
    ShiftedLayout(a[..], t, rest, x, i, j);
  }

  /** The layout the shifting loop leaves behind, read off position by position. */
  lemma ShiftedLayout(b: seq<Spool>, t: seq<Spool>, rest: seq<Spool>, x: Spool, i: nat, j: nat)
    requires j <= i < |b| && |t| == i && |rest| == |b| - i - 1
    requires forall k :: 0 <= k < j ==> b[k] == t[k]
    requires b[j] == x
    requires forall k :: j < k <= i ==> b[k] == t[k - 1]
    requires forall k :: i < k < |b| ==> b[k] == rest[k - i - 1]
    ensures b[..i + 1] == t[..j] + [x] + t[j..]
    ensures b[i + 1..] == rest
  {
    var u := t[..j] + [x] + t[j..];
    forall k | 0 <= k <= i ensures b[k] == u[k] {
      if k > j {
        assert u[k] == t[k - 1];
      }
    }
  }

  /** A sorted copy of `s`, made by sorting an array in place. */
  method SortedCopy(s: seq<Spool>) returns (r: seq<Spool>)
    ensures r == SortedByRecency(s)
  {
    var a := new Spool[|s|](i requires 0 <= i < |s| => s[i]);
    assert a[..] == s;
    SortInPlace(a);
    r := a[..];
  }

  /** `data.filter(s => !s.archived)` */
  function Active(data: seq<Spool>): (r: seq<Spool>)
    ensures forall s :: s in r ==> !s.archived && s in data
    ensures forall s :: s in data && !s.archived ==> s in r
    ensures forall s :: multiset(r)[s] == if s.archived then 0 else multiset(data)[s]
  {
    Filter((s: Spool) => !s.archived, data)
  }

  /** What `spools` becomes after a successful fetch of `data`. */
  function ShownSpools(data: seq<Spool>): (r: seq<Spool>)
    ensures forall s :: multiset(r)[s] == if s.archived then 0 else multiset(data)[s]
    ensures NewestFirst(r)
  {
    SortedByRecencyCorrect(Active(data));
    SortedByRecency(Active(data))
  }

  /** The list a successful fetch stores holds exactly the active fetched spools, newest first, ties in fetch order. */
  lemma {:induction false} ShownSpoolsCorrect(data: seq<Spool>)
    ensures multiset(ShownSpools(data)) == multiset(Active(data))
    ensures forall s :: s in ShownSpools(data) <==> s in data && !s.archived
    ensures NewestFirst(ShownSpools(data))
    ensures forall k :: WithKey(ShownSpools(data), k) == WithKey(Active(data), k)
  {
    SortedByRecencyCorrect(Active(data));
    forall s ensures s in ShownSpools(data) <==> s in Active(data) {
      assert s in multiset(ShownSpools(data)) <==> s in multiset(Active(data));
    }
  }

  /** `url.replace(/\/$/, "")`: one trailing '/' removed, if there is one. */
  function TrimTrailingSlash(url: string): (r: string)
    ensures if url != [] && url[|url| - 1] == '/' then url == r + "/" else r == url
  {
    if url != [] && url[|url| - 1] == '/' then url[..|url| - 1] else url
  }

  /** Only one slash goes, so trimming twice can differ from trimming once. */
  lemma TrimNotIdempotent()
    ensures TrimTrailingSlash("a//") == "a/"
    ensures TrimTrailingSlash(TrimTrailingSlash("a//")) == "a"
  {
  }

  /** The outcome of `spoolman.getSpools`: the fetched list, or a failure. */
  datatype FetchResult = Fetched(data: seq<Spool>) | FetchFailed

  class SpoolStoreState {
    var spools: seq<Spool>
    var isLoading: bool
    var error: Option<string>
    var spoolmanUrl: string

    /** The initial state; `storedUrl` is what local storage holds under `spoolman_url`. */
    constructor (storedUrl: Option<string>)
      ensures spools == [] && !isLoading && error == None
      ensures spoolmanUrl == if storedUrl.Some? then storedUrl.value else ""
    {
      spools := [];
      isLoading := false;
      error := None;
      spoolmanUrl := if storedUrl.Some? then storedUrl.value else "";
    }

    /** The synchronous start of `fetchSpools`. */
    method BeginFetch()
      modifies this
      ensures isLoading && error == None
      ensures spools == old(spools) && spoolmanUrl == old(spoolmanUrl)
    {
      isLoading, error := true, None;
    }

    /** The end of `fetchSpools`, once the request has settled. */
    method FinishFetch(result: FetchResult)
      modifies this
      ensures !isLoading && spoolmanUrl == old(spoolmanUrl)
      ensures result.Fetched? ==> spools == ShownSpools(result.data) && error == old(error)
      ensures result.FetchFailed? ==> spools == old(spools) && error == Some(LoadError)
    {
      match result
      case Fetched(data) =>
        var activeSpools := SortedCopy(Active(data));
        spools, isLoading := activeSpools, false;
      case FetchFailed =>
        error, isLoading := Some(LoadError), false;
    }

    /** `fetchSpools`: ask `getSpools` for the spools at the stored address and store the outcome. */
    method FetchSpools(getSpools: string -> FetchResult)
      modifies this
      ensures !isLoading && spoolmanUrl == old(spoolmanUrl)
      ensures getSpools(spoolmanUrl).Fetched? ==>
                spools == ShownSpools(getSpools(spoolmanUrl).data) && error == None
      ensures getSpools(spoolmanUrl).FetchFailed? ==>
                spools == old(spools) && error == Some(LoadError)
    {
      var url := spoolmanUrl;
      BeginFetch();
      FinishFetch(getSpools(url));
    }

    /** `setSpoolmanUrl`: store the address without one trailing slash, then fetch from it. */
    method SetSpoolmanUrl(url: string, getSpools: string -> FetchResult)
      modifies this
      ensures spoolmanUrl == TrimTrailingSlash(url) && !isLoading
      ensures getSpools(TrimTrailingSlash(url)).Fetched? ==>
                spools == ShownSpools(getSpools(TrimTrailingSlash(url)).data) && error == None
      ensures getSpools(TrimTrailingSlash(url)).FetchFailed? ==>
                spools == old(spools) && error == Some(LoadError)
    {
      spoolmanUrl := TrimTrailingSlash(url);
      FetchSpools(getSpools);
    }
  }
}
