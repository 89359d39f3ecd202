/**
 * Date alignment of several series over the union of their dates
 * (fillMissingDates, fillMissingDatesWithPrevious, extractAmountsAndTimestamps,
 * extractAmountsAndTimestampsWithPrevious) and pairwise subtraction
 * (subtractArrays), all from lib/utils.ts.
 *
 * `formatDate` parses a date with the host's clock and time zone; here it is
 * the parameter `fmt`, about which nothing is assumed.
 */
module Aligner {
  import opened Dates
  import opened Blocks

  /** Which form of a date string an aligner uses: as stored in the bucket,
      or passed through `fmt`. */
  datatype DateForm = AsStored | Formatted

  function Shown(form: DateForm, fmt: string -> string, date: string): string
  {
    match form
    case AsStored => date
    case Formatted => fmt(date)
  }

  /** The date key of a bucket in the given form. */
  function DateKey(b: BlockData, form: DateForm, fmt: string -> string): string
  {
    Shown(form, fmt, b.blockChunkDate)
  }

  /** `formatDate` is never called by the as-stored variants; any function may stand for it. */
  function Verbatim(date: string): string
  {
    date
  }

  // ---------------------------------------------------------------------------
  // Last-wins lookup

  /** Index of the last of the first `n` buckets of `arr` whose key is `date`,
      or -1 when there is none. */
  function LastKeyed(arr: seq<BlockData>, n: nat, form: DateForm, fmt: string -> string, date: string): (i: int)
    requires n <= |arr|
    ensures -1 <= i < n
    ensures 0 <= i ==> DateKey(arr[i], form, fmt) == date
    ensures forall j :: i < j < n ==> DateKey(arr[j], form, fmt) != date
  {
    if n == 0 then -1
    else if DateKey(arr[n - 1], form, fmt) == date then n - 1
    else LastKeyed(arr, n - 1, form, fmt, date)
  }

  predicate Found(arr: seq<BlockData>, form: DateForm, fmt: string -> string, date: string)
  {
    LastKeyed(arr, |arr|, form, fmt, date) >= 0
  }

  /** `arr.reduce((acc, item) => acc.set(key(item), item), new Map())` over the
      first `n` buckets: a later bucket with the same key overwrites an earlier one. */
  function DateMap(arr: seq<BlockData>, n: nat, form: DateForm, fmt: string -> string): (m: map<string, BlockData>)
    requires n <= |arr|
    ensures forall date :: date in m <==> LastKeyed(arr, n, form, fmt, date) >= 0
    ensures forall date :: date in m ==> m[date] == arr[LastKeyed(arr, n, form, fmt, date)]
  {
    if n == 0 then map[]
    else DateMap(arr, n - 1, form, fmt)[DateKey(arr[n - 1], form, fmt) := arr[n - 1]]
  }

  // ---------------------------------------------------------------------------
  // The date domain

  /** `arr.map(item => key(item))`. */
  function DatesOf(arr: seq<BlockData>, form: DateForm, fmt: string -> string): (ds: seq<string>)
    ensures |ds| == |arr|
    ensures forall i :: 0 <= i < |arr| ==> ds[i] == DateKey(arr[i], form, fmt)
  {
    seq(|arr|, i requires 0 <= i < |arr| => DateKey(arr[i], form, fmt))
  }

  /** `arrays.flatMap(arr => arr.map(item => key(item)))` over the first `n` series. */
  function AllDates(arrays: seq<seq<BlockData>>, n: nat, form: DateForm, fmt: string -> string): seq<string>
    requires n <= |arrays|
  {
    if n == 0 then [] else AllDates(arrays, n - 1, form, fmt) + DatesOf(arrays[n - 1], form, fmt)
  }

  /** Some bucket of some series has `date` as its key. */
  ghost predicate Occurs(arrays: seq<seq<BlockData>>, form: DateForm, fmt: string -> string, date: string)
  {
    exists a, i :: 0 <= a < |arrays| && 0 <= i < |arrays[a]| && DateKey(arrays[a][i], form, fmt) == date
  }

  /** The sorted domain `Array.from(new Set(arrays.flatMap(...))).sort()`. */
  function Domain(arrays: seq<seq<BlockData>>, form: DateForm, fmt: string -> string): (d: seq<string>)
    ensures StrictlyIncreasing(d)
  {
    SortedDistinct(AllDates(arrays, |arrays|, form, fmt))
  }

  lemma {:induction false} DatesMembers(arrays: seq<seq<BlockData>>, n: nat, form: DateForm, fmt: string -> string, date: string)
    requires n <= |arrays|
    ensures date in AllDates(arrays, n, form, fmt) <==>
      exists a, i :: 0 <= a < n && 0 <= i < |arrays[a]| && DateKey(arrays[a][i], form, fmt) == date
  {
    if n > 0 {
      DatesMembers(arrays, n - 1, form, fmt, date);
      var last := DatesOf(arrays[n - 1], form, fmt);
      if date in last {
        var i :| 0 <= i < |last| && last[i] == date;
        assert DateKey(arrays[n - 1][i], form, fmt) == date;
      }
    }
  }

  /** The domain holds exactly the dates that occur in some series, each once,
      in increasing order, so its length is the number of distinct dates. */
  lemma DomainIsUnion(arrays: seq<seq<BlockData>>, form: DateForm, fmt: string -> string)
    ensures StrictlyIncreasing(Domain(arrays, form, fmt))
    ensures forall date :: date in Domain(arrays, form, fmt) <==> Occurs(arrays, form, fmt, date)
    ensures |Domain(arrays, form, fmt)| == |set date | date in AllDates(arrays, |arrays|, form, fmt)|
  {
    var d := Domain(arrays, form, fmt);
    forall date
      ensures date in d <==> Occurs(arrays, form, fmt, date)
    {
      DatesMembers(arrays, |arrays|, form, fmt, date);
    }
    DistinctLength(d);
    assert (set date | date in d) == (set date | date in AllDates(arrays, |arrays|, form, fmt));
  }

  // ---------------------------------------------------------------------------
  // Zero-fill

  /** The bucket a zero-filled series holds at domain date `date`, labelled
      `shown`: a copy of the last bucket of `arr` keyed `date`, or an empty
      placeholder when there is none. */
  function ZeroFillEntry(arr: seq<BlockData>, key: DateForm, fmt: string -> string, date: string, shown: string): BlockData
  {
    var j := LastKeyed(arr, |arr|, key, fmt, date);
    if j < 0 then BlockData(0, 0, shown) else arr[j].(blockChunkDate := shown)
  }

  /** The inner `filledArray` of the zero-fill variants: looks every domain date
      up in the last-wins map and emits the bucket found or a zero placeholder,
      with its date rewritten to the `out` form of the domain date. */
  function ZeroFilled(arr: seq<BlockData>, domain: seq<string>, key: DateForm, out: DateForm, fmt: string -> string): (r: seq<BlockData>)
    ensures |r| == |domain|
    ensures forall i :: 0 <= i < |domain| ==>
      r[i] == ZeroFillEntry(arr, key, fmt, domain[i], Shown(out, fmt, domain[i]))
  {
    var dm := DateMap(arr, |arr|, key, fmt);
    seq(|domain|, i requires 0 <= i < |domain| =>
      if domain[i] in dm then dm[domain[i]].(blockChunkDate := Shown(out, fmt, domain[i]))
      else BlockData(0, 0, Shown(out, fmt, domain[i])))
  }

  /** fillMissingDates, exactly as written: the domain is built from formatted
      dates but each series is looked up by its stored dates. */
  function FillMissingDates(arrays: seq<seq<BlockData>>, fmt: string -> string): (r: seq<seq<BlockData>>)
    ensures |r| == |arrays|
    ensures forall a :: 0 <= a < |arrays| ==> |r[a]| == |Domain(arrays, Formatted, fmt)|
    ensures forall a, i :: 0 <= a < |arrays| && 0 <= i < |Domain(arrays, Formatted, fmt)| ==>
      r[a][i] == ZeroFillEntry(arrays[a], AsStored, fmt, Domain(arrays, Formatted, fmt)[i],
                               fmt(Domain(arrays, Formatted, fmt)[i]))
  {
    var domain := Domain(arrays, Formatted, fmt);
    seq(|arrays|, a requires 0 <= a < |arrays| => ZeroFilled(arrays[a], domain, AsStored, Formatted, fmt))
  }

  /** The zero-fill alignment with the lookup keyed by formatted dates, as
      extractAmountsAndTimestamps does it. */
  function FillMissingDatesByFormattedKey(arrays: seq<seq<BlockData>>, fmt: string -> string): (r: seq<seq<BlockData>>)
    ensures |r| == |arrays|
    ensures forall a :: 0 <= a < |arrays| ==> |r[a]| == |Domain(arrays, Formatted, fmt)|
    ensures forall a, i :: 0 <= a < |arrays| && 0 <= i < |Domain(arrays, Formatted, fmt)| ==>
      r[a][i] == ZeroFillEntry(arrays[a], Formatted, fmt, Domain(arrays, Formatted, fmt)[i],
                               fmt(Domain(arrays, Formatted, fmt)[i]))
  {
    var domain := Domain(arrays, Formatted, fmt);
    seq(|arrays|, a requires 0 <= a < |arrays| => ZeroFilled(arrays[a], domain, Formatted, Formatted, fmt))
  }

  /** Every key of `arr` is a domain date. */
  ghost predicate KeysIn(arr: seq<BlockData>, key: DateForm, fmt: string -> string, domain: seq<string>)
  {
    forall t :: 0 <= t < |arr| ==> DateKey(arr[t], key, fmt) in domain
  }

  /** No two buckets of `arr` share a key. */
  ghost predicate KeysDistinct(arr: seq<BlockData>, key: DateForm, fmt: string -> string)
  {
    forall s, t :: 0 <= s < t < |arr| ==> DateKey(arr[s], key, fmt) != DateKey(arr[t], key, fmt)
  }

  /** Every formatted key of series `a` is a date of the formatted domain. */
  lemma KeysInDomain(arrays: seq<seq<BlockData>>, a: nat, form: DateForm, fmt: string -> string)
    requires a < |arrays|
    ensures KeysIn(arrays[a], form, fmt, Domain(arrays, form, fmt))
  {
    forall t | 0 <= t < |arrays[a]|
      ensures DateKey(arrays[a][t], form, fmt) in Domain(arrays, form, fmt)
    {
      DatesMembers(arrays, |arrays|, form, fmt, DateKey(arrays[a][t], form, fmt));
    }
  }

  /** The corrected zero-fill keeps every series' total, provided no two of its
      buckets share a formatted date. */
  lemma FormattedKeyFillConservesTotals(arrays: seq<seq<BlockData>>, fmt: string -> string, a: nat)
    requires a < |arrays|
    requires KeysDistinct(arrays[a], Formatted, fmt)
    ensures Total(FillMissingDatesByFormattedKey(arrays, fmt)[a]) == Total(arrays[a])
  {
    var domain := Domain(arrays, Formatted, fmt);
    KeysInDomain(arrays, a, Formatted, fmt);
    ZeroFilledConservesTotal(arrays[a], domain, Formatted, Formatted, fmt);
    assert FillMissingDatesByFormattedKey(arrays, fmt)[a] == ZeroFilled(arrays[a], domain, Formatted, Formatted, fmt);
  }

  /** A formatter for one sample: the stored date 2024-01-01 becomes 01/01/24,
      and a date already in that form stays as it is. */
  function SampleFormat(date: string): string
  {
    if date == "2024-01-01" then "01/01/24" else date
  }

  /** fillMissingDates as written drops a bucket whose stored date is not
      already in formatted form: the domain holds only "01/01/24", which the
      series' stored date never equals, so the amount 10 becomes 0. Keyed by
      formatted dates, the bucket is kept. */
  lemma FillMissingDatesLosesStoredDates()
    ensures FillMissingDates([[BlockData(10, 1, "2024-01-01")]], SampleFormat) == [[BlockData(0, 0, "01/01/24")]]
    ensures FillMissingDatesByFormattedKey([[BlockData(10, 1, "2024-01-01")]], SampleFormat) == [[BlockData(10, 1, "01/01/24")]]
  {
    var arrays := [[BlockData(10, 1, "2024-01-01")]];
    var shortDate := "01/01/24";
    assert AllDates(arrays, 1, Formatted, SampleFormat) == [shortDate];
    SortedUnique(Domain(arrays, Formatted, SampleFormat), [shortDate]);
    assert LastKeyed(arrays[0], 1, AsStored, SampleFormat, shortDate) == -1;
    assert LastKeyed(arrays[0], 1, Formatted, SampleFormat, shortDate) == 0;
    var asWritten := FillMissingDates(arrays, SampleFormat);
    assert asWritten[0] == [BlockData(0, 0, shortDate)];
    var corrected := FillMissingDatesByFormattedKey(arrays, SampleFormat);
    assert corrected[0] == [BlockData(10, 1, shortDate)];
  }

  /** Zero-filling loses nothing when every key of the series is in the domain
      and no key repeats: the filled series has the same total. */
  lemma {:induction false} ZeroFilledConservesTotal(arr: seq<BlockData>, domain: seq<string>, key: DateForm, out: DateForm, fmt: string -> string)
    requires StrictlyIncreasing(domain)
    requires KeysIn(arr, key, fmt, domain) && KeysDistinct(arr, key, fmt)
    ensures Total(ZeroFilled(arr, domain, key, out, fmt)) == Total(arr)
  {
    if arr == [] {
      ZeroFilledOfEmpty(domain, key, out, fmt);
    } else {
      var p := arr[..|arr| - 1];
      KeysOfPrefix(arr, key, fmt, domain);
      ZeroFilledConservesTotal(p, domain, key, out, fmt);
      ZeroFilledStep(arr, domain, key, out, fmt);
    }
  }

  lemma ZeroFilledOfEmpty(domain: seq<string>, key: DateForm, out: DateForm, fmt: string -> string)
    ensures Total(ZeroFilled([], domain, key, out, fmt)) == 0
  {
    var r := ZeroFilled([], domain, key, out, fmt);
    assert forall i :: 0 <= i < |r| ==> r[i].totalAmount == 0;
    ZeroTotal(r);
  }

  lemma KeysOfPrefix(arr: seq<BlockData>, key: DateForm, fmt: string -> string, domain: seq<string>)
    requires arr != []
    requires KeysIn(arr, key, fmt, domain) && KeysDistinct(arr, key, fmt)
    ensures KeysIn(arr[..|arr| - 1], key, fmt, domain) && KeysDistinct(arr[..|arr| - 1], key, fmt)
  {
  }

  lemma ZeroFilledStep(arr: seq<BlockData>, domain: seq<string>, key: DateForm, out: DateForm, fmt: string -> string)
    requires arr != [] && StrictlyIncreasing(domain)
    requires KeysIn(arr, key, fmt, domain) && KeysDistinct(arr, key, fmt)
    requires Total(ZeroFilled(arr[..|arr| - 1], domain, key, out, fmt)) == Total(arr[..|arr| - 1])
    ensures Total(ZeroFilled(arr, domain, key, out, fmt)) == Total(arr)
  {
    var k :| 0 <= k < |domain| && domain[k] == DateKey(arr[|arr| - 1], key, fmt);
    ZeroFilledTotalStep(arr, domain, key, out, fmt, k);
  }

  lemma ZeroFilledTotalStep(arr: seq<BlockData>, domain: seq<string>, key: DateForm, out: DateForm, fmt: string -> string, k: nat)
    requires arr != [] && StrictlyIncreasing(domain) && KeysDistinct(arr, key, fmt)
    requires k < |domain| && domain[k] == DateKey(arr[|arr| - 1], key, fmt)
    ensures Total(ZeroFilled(arr, domain, key, out, fmt))
         == Total(ZeroFilled(arr[..|arr| - 1], domain, key, out, fmt)) + arr[|arr| - 1].totalAmount
  {
    var r := ZeroFilled(arr, domain, key, out, fmt);
    ZeroFilledExtend(arr, domain, key, out, fmt, k);
    TotalUpdate(ZeroFilled(arr[..|arr| - 1], domain, key, out, fmt), k, r[k]);
  }

  /** Zero-filling a series with one more bucket, whose key is the `k`-th
      domain date and new to the series, changes only position `k`, from a
      zero placeholder to that bucket. */
  lemma ZeroFilledExtend(arr: seq<BlockData>, domain: seq<string>, key: DateForm, out: DateForm, fmt: string -> string, k: nat)
    requires arr != [] && StrictlyIncreasing(domain) && KeysDistinct(arr, key, fmt)
    requires k < |domain| && domain[k] == DateKey(arr[|arr| - 1], key, fmt)
    ensures ZeroFilled(arr[..|arr| - 1], domain, key, out, fmt)[k].totalAmount == 0
    ensures ZeroFilled(arr, domain, key, out, fmt)[k].totalAmount == arr[|arr| - 1].totalAmount
    ensures ZeroFilled(arr, domain, key, out, fmt)
         == ZeroFilled(arr[..|arr| - 1], domain, key, out, fmt)[k := ZeroFilled(arr, domain, key, out, fmt)[k]]
  {
    var c := domain[k];
    var r := ZeroFilled(arr, domain, key, out, fmt);
    var rp := ZeroFilled(arr[..|arr| - 1], domain, key, out, fmt);
    ZeroFillEntryExtend(arr, key, fmt, c, Shown(out, fmt, c));
    forall i | 0 <= i < |domain|
      ensures r[i] == rp[k := r[k]][i]
    {
      if i != k {
        if domain[i] == c {
          LessIrreflexive(c);
          assert false;
        }
        ZeroFillEntryExtend(arr, key, fmt, domain[i], Shown(out, fmt, domain[i]));
      }
    }
  }

  /** Adding a bucket with a fresh key to a series changes its zero-fill entry
      at that key only, from a placeholder to the new bucket. */
  lemma ZeroFillEntryExtend(arr: seq<BlockData>, key: DateForm, fmt: string -> string, date: string, shown: string)
    requires arr != [] && KeysDistinct(arr, key, fmt)
    ensures date == DateKey(arr[|arr| - 1], key, fmt) ==>
      ZeroFillEntry(arr, key, fmt, date, shown) == arr[|arr| - 1].(blockChunkDate := shown)
      && ZeroFillEntry(arr[..|arr| - 1], key, fmt, date, shown).totalAmount == 0
    ensures date != DateKey(arr[|arr| - 1], key, fmt) ==>
      ZeroFillEntry(arr, key, fmt, date, shown) == ZeroFillEntry(arr[..|arr| - 1], key, fmt, date, shown)
  {
    var n := |arr| - 1;
    var p := arr[..n];
    LastKeyedPrefix(arr, p, n, key, fmt, date);
    var j := LastKeyed(p, n, key, fmt, date);
    if date == DateKey(arr[n], key, fmt) && j >= 0 {
      assert false;
    }
  }

  lemma {:induction false} LastKeyedPrefix(arr: seq<BlockData>, p: seq<BlockData>, m: nat, key: DateForm, fmt: string -> string, date: string)
    requires m <= |p| <= |arr|
    requires p == arr[..|p|]
    ensures LastKeyed(arr, m, key, fmt, date) == LastKeyed(p, m, key, fmt, date)
  {
    if m > 0 {
      LastKeyedPrefix(arr, p, m - 1, key, fmt, date);
    }
  }

  lemma {:induction false} ZeroTotal(s: seq<BlockData>)
    requires forall i :: 0 <= i < |s| ==> s[i].totalAmount == 0
    ensures Total(s) == 0
  {
    if s != [] {
      ZeroTotal(s[..|s| - 1]);
    }
  }

  // ---------------------------------------------------------------------------
  // Forward-fill

  /** Index of the last domain position before `i` whose date the series
      holds, or -1 when there is none. */
  function LastObserved(arr: seq<BlockData>, key: DateForm, fmt: string -> string, domain: seq<string>, i: nat): (t: int)
    requires i <= |domain|
    ensures -1 <= t < i
    ensures 0 <= t ==> Found(arr, key, fmt, domain[t])
    ensures forall u :: t < u < i ==> !Found(arr, key, fmt, domain[u])
  {
    if i == 0 then -1
    else if Found(arr, key, fmt, domain[i - 1]) then i - 1
    else LastObserved(arr, key, fmt, domain, i - 1)
  }

  /** The amount carried into position `i`: that of the bucket found at the
      last observed domain date before `i`, or 0 before any observation. */
  function CarriedAmount(arr: seq<BlockData>, key: DateForm, fmt: string -> string, domain: seq<string>, i: nat): int
    requires i <= |domain|
  {
    var t := LastObserved(arr, key, fmt, domain, i);
    if t < 0 then 0 else arr[LastKeyed(arr, |arr|, key, fmt, domain[t])].totalAmount
  }

  /** Position `i` of a forward-filled series is `x`: a date the series holds
      gives a copy of its last bucket with that key; a missing date gives a
      placeholder in chunk 0 carrying the last observed amount (0 before any);
      the date is shown in the `out` form. */
  ghost predicate ForwardEntry(x: BlockData, arr: seq<BlockData>, domain: seq<string>, key: DateForm, out: DateForm, fmt: string -> string, i: nat)
    requires i < |domain|
  {
    if Found(arr, key, fmt, domain[i])
    then x == arr[LastKeyed(arr, |arr|, key, fmt, domain[i])].(blockChunkDate := Shown(out, fmt, domain[i]))
    else x == BlockData(CarriedAmount(arr, key, fmt, domain, i), 0, Shown(out, fmt, domain[i]))
  }

  /** The first `|r|` positions forward-fill `arr` over `domain`. */
  ghost predicate ForwardFilledPrefix(r: seq<BlockData>, arr: seq<BlockData>, domain: seq<string>, key: DateForm, out: DateForm, fmt: string -> string)
  {
    |r| <= |domain| && forall i :: 0 <= i < |r| ==> ForwardEntry(r[i], arr, domain, key, out, fmt, i)
  }

  ghost predicate IsForwardFilled(r: seq<BlockData>, arr: seq<BlockData>, domain: seq<string>, key: DateForm, out: DateForm, fmt: string -> string)
  {
    |r| == |domain| && ForwardFilledPrefix(r, arr, domain, key, out, fmt)
  }

  /** Appending the entry for the next domain date keeps a forward-filled prefix. */
  lemma ForwardStep(r: seq<BlockData>, arr: seq<BlockData>, domain: seq<string>, key: DateForm, out: DateForm, fmt: string -> string, e: BlockData)
    requires ForwardFilledPrefix(r, arr, domain, key, out, fmt) && |r| < |domain|
    requires ForwardEntry(e, arr, domain, key, out, fmt, |r|)
    ensures ForwardFilledPrefix(r + [e], arr, domain, key, out, fmt)
  {
    forall i | 0 <= i < |r| + 1
      ensures ForwardEntry((r + [e])[i], arr, domain, key, out, fmt, i)
    {
      if i < |r| {
        assert (r + [e])[i] == r[i];
      }
    }
  }

  /** In a forward-filled prefix the amount carried into position `i` is the
      amount at position `i - 1`. */
  lemma CarriedIsPrevious(r: seq<BlockData>, arr: seq<BlockData>, domain: seq<string>, key: DateForm, out: DateForm, fmt: string -> string, i: nat)
    requires ForwardFilledPrefix(r, arr, domain, key, out, fmt)
    requires 0 < i <= |r|
    ensures CarriedAmount(arr, key, fmt, domain, i) == r[i - 1].totalAmount
  {
    assert ForwardEntry(r[i - 1], arr, domain, key, out, fmt, i - 1);
    if !Found(arr, key, fmt, domain[i - 1]) {
      assert LastObserved(arr, key, fmt, domain, i) == LastObserved(arr, key, fmt, domain, i - 1);
    }
  }

  /** A missing date repeats the amount of the position before it (0 at the start). */
  lemma ForwardFillRepeatsPrevious(r: seq<BlockData>, arr: seq<BlockData>, domain: seq<string>, key: DateForm, out: DateForm, fmt: string -> string)
    requires ForwardFilledPrefix(r, arr, domain, key, out, fmt)
    ensures forall i :: 0 <= i < |r| && !Found(arr, key, fmt, domain[i]) ==>
      r[i].totalAmount == (if i == 0 then 0 else r[i - 1].totalAmount)
  {
    forall i | 0 <= i < |r| && !Found(arr, key, fmt, domain[i])
      ensures r[i].totalAmount == (if i == 0 then 0 else r[i - 1].totalAmount)
    {
      assert ForwardEntry(r[i], arr, domain, key, out, fmt, i);
      if i > 0 {
        CarriedIsPrevious(r, arr, domain, key, out, fmt, i);
      }
    }
  }

  /** The inner `filledArray` of the forward-fill variants: walks the domain
      keeping the last amount seen in `prevAmount`. */
  method ForwardFilled(arr: seq<BlockData>, domain: seq<string>, key: DateForm, out: DateForm, fmt: string -> string)
    returns (r: seq<BlockData>)
    ensures IsForwardFilled(r, arr, domain, key, out, fmt)
    ensures forall i :: 0 <= i < |r| && !Found(arr, key, fmt, domain[i]) ==>
      r[i].totalAmount == (if i == 0 then 0 else r[i - 1].totalAmount)
  {
    var dm := DateMap(arr, |arr|, key, fmt);
    var prevAmount := 0;
    r := [];
    for i := 0 to |domain|
      invariant |r| == i
      invariant ForwardFilledPrefix(r, arr, domain, key, out, fmt)
      invariant prevAmount == CarriedAmount(arr, key, fmt, domain, i)
    {
      r, prevAmount := ForwardNext(dm, r, prevAmount, arr, domain, key, out, fmt);
    }
    ForwardFillRepeatsPrevious(r, arr, domain, key, out, fmt);
  }

  /** One step of the `.map` callback: looks the next domain date up, emits the
      bucket found or a placeholder with `prevAmount`, and updates `prevAmount`. */
  method ForwardNext(dm: map<string, BlockData>, r: seq<BlockData>, prevAmount: int,
                     arr: seq<BlockData>, domain: seq<string>, key: DateForm, out: DateForm, fmt: string -> string)
    returns (r': seq<BlockData>, prevAmount': int)
    requires dm == DateMap(arr, |arr|, key, fmt)
    requires ForwardFilledPrefix(r, arr, domain, key, out, fmt) && |r| < |domain|
    requires prevAmount == CarriedAmount(arr, key, fmt, domain, |r|)
    ensures |r'| == |r| + 1 && r'[..|r|] == r
    ensures ForwardFilledPrefix(r', arr, domain, key, out, fmt)
    ensures prevAmount' == CarriedAmount(arr, key, fmt, domain, |r| + 1)
  {
    var date := domain[|r|];
    var e;
    prevAmount' := prevAmount;
    if date in dm {
      prevAmount' := dm[date].totalAmount;
      e := dm[date].(blockChunkDate := Shown(out, fmt, date));
    } else {
      e := BlockData(prevAmount, 0, Shown(out, fmt, date));
    }
    ForwardStep(r, arr, domain, key, out, fmt, e);
    r' := r + [e];
  }

  /** What fillMissingDatesWithPrevious promises for one series: it is
      forward-filled over the stored dates, a bucket found is returned
      unchanged, and a missing date repeats the previous amount. */
  ghost predicate StoredForwardFill(s: seq<BlockData>, arr: seq<BlockData>, domain: seq<string>)
  {
    && IsForwardFilled(s, arr, domain, AsStored, AsStored, Verbatim)
    && (forall i :: 0 <= i < |s| && Found(arr, AsStored, Verbatim, domain[i]) ==>
          s[i] == arr[LastKeyed(arr, |arr|, AsStored, Verbatim, domain[i])])
    && (forall i :: 0 <= i < |s| && !Found(arr, AsStored, Verbatim, domain[i]) ==>
          s[i].totalAmount == (if i == 0 then 0 else s[i - 1].totalAmount))
  }

  /** Forward-filling by stored dates copies a bucket found exactly: its
      stored date is the domain date it was found under. */
  lemma StoredCopies(s: seq<BlockData>, arr: seq<BlockData>, domain: seq<string>)
    requires IsForwardFilled(s, arr, domain, AsStored, AsStored, Verbatim)
    requires forall i :: 0 <= i < |s| && !Found(arr, AsStored, Verbatim, domain[i]) ==>
      s[i].totalAmount == (if i == 0 then 0 else s[i - 1].totalAmount)
    ensures StoredForwardFill(s, arr, domain)
  {
    forall i | 0 <= i < |s| && Found(arr, AsStored, Verbatim, domain[i])
      ensures s[i] == arr[LastKeyed(arr, |arr|, AsStored, Verbatim, domain[i])]
    {
      assert ForwardEntry(s[i], arr, domain, AsStored, AsStored, Verbatim, i);
    }
  }

  /** fillMissingDatesWithPrevious: the domain is the stored dates, and each
      series is looked up by its stored dates and forward-filled. */
  method FillMissingDatesWithPrevious(arrays: seq<seq<BlockData>>) returns (r: seq<seq<BlockData>>)
    ensures |r| == |arrays|
    ensures forall a :: 0 <= a < |arrays| ==> StoredForwardFill(r[a], arrays[a], Domain(arrays, AsStored, Verbatim))
  {
    var domain := Domain(arrays, AsStored, Verbatim);
    r := [];
    for a := 0 to |arrays|
      invariant |r| == a
      invariant forall b :: 0 <= b < a ==> StoredForwardFill(r[b], arrays[b], domain)
    {
      var filled := ForwardFilled(arrays[a], domain, AsStored, AsStored, Verbatim);
      StoredCopies(filled, arrays[a], domain);
      r := r + [filled];
    }
  }

  // ---------------------------------------------------------------------------
  // Presentation

  /** The `{ amounts, timestamps }` pair handed to the chart. */
  datatype Chart = Chart(amounts: seq<seq<int>>, timestamps: seq<string>)

  /** `arr.map(item => item.total_amount)`. */
  function Amounts(s: seq<BlockData>): (r: seq<int>)
    ensures |r| == |s|
    ensures forall i :: 0 <= i < |s| ==> r[i] == s[i].totalAmount
  {
    seq(|s|, i requires 0 <= i < |s| => s[i].totalAmount)
  }

  /** extractAmountsAndTimestamps: the formatted domain as timestamps, and per
      series the amounts of the zero-filled alignment keyed by formatted dates. */
  function ExtractAmountsAndTimestamps(arrays: seq<seq<BlockData>>, fmt: string -> string): (c: Chart)
    ensures c.timestamps == Domain(arrays, Formatted, fmt)
    ensures |c.amounts| == |arrays|
    ensures forall a :: 0 <= a < |arrays| ==> |c.amounts[a]| == |c.timestamps|
    ensures forall a, i :: 0 <= a < |arrays| && 0 <= i < |c.timestamps| ==>
      c.amounts[a][i] == (if Found(arrays[a], Formatted, fmt, c.timestamps[i])
                          then arrays[a][LastKeyed(arrays[a], |arrays[a]|, Formatted, fmt, c.timestamps[i])].totalAmount
                          else 0)
  {
    var filled := FillMissingDatesByFormattedKey(arrays, fmt);
    Chart(seq(|filled|, a requires 0 <= a < |filled| => Amounts(filled[a])), Domain(arrays, Formatted, fmt))
  }

  /** The amounts of one series forward-filled over `domain`: the amount of the
      bucket found, or else the previous amount (0 at the start), which is the
      last observed amount. */
  ghost predicate ForwardFilledAmounts(amounts: seq<int>, arr: seq<BlockData>, domain: seq<string>, key: DateForm, fmt: string -> string)
  {
    && |amounts| == |domain|
    && (forall i :: 0 <= i < |domain| && Found(arr, key, fmt, domain[i]) ==>
          amounts[i] == arr[LastKeyed(arr, |arr|, key, fmt, domain[i])].totalAmount)
    && (forall i :: 0 <= i < |domain| && !Found(arr, key, fmt, domain[i]) ==>
          amounts[i] == (if i == 0 then 0 else amounts[i - 1])
          && amounts[i] == CarriedAmount(arr, key, fmt, domain, i))
  }

  /** extractAmountsAndTimestampsWithPrevious: as above, but each series is
      forward-filled, so a missing date repeats the previous amount. */
  method ExtractAmountsAndTimestampsWithPrevious(arrays: seq<seq<BlockData>>, fmt: string -> string) returns (c: Chart)
    ensures c.timestamps == Domain(arrays, Formatted, fmt)
    ensures |c.amounts| == |arrays|
    ensures forall a :: 0 <= a < |arrays| ==> ForwardFilledAmounts(c.amounts[a], arrays[a], c.timestamps, Formatted, fmt)
  {
    var domain := Domain(arrays, Formatted, fmt);
    var amounts := [];
    for a := 0 to |arrays|
      invariant |amounts| == a
      invariant forall b :: 0 <= b < a ==> ForwardFilledAmounts(amounts[b], arrays[b], domain, Formatted, fmt)
    {
      var filled := ForwardFilled(arrays[a], domain, Formatted, Formatted, fmt);
      amounts := amounts + [Amounts(filled)];
    }
    c := Chart(amounts, domain);
  }

  // ---------------------------------------------------------------------------
  // Subtraction

  /** subtractArrays: over the sorted union of the formatted dates of both
      series, the amount and chunk of the first minus those of the second,
      each looked up by formatted date with a missing side counting as zero. */
  function SubtractArrays(arr1: seq<BlockData>, arr2: seq<BlockData>, fmt: string -> string): (r: seq<BlockData>)
    ensures |r| == |Domain([arr1, arr2], Formatted, fmt)|
    ensures forall i :: 0 <= i < |r| ==>
      var date := Domain([arr1, arr2], Formatted, fmt)[i];
      var e1 := ZeroFillEntry(arr1, Formatted, fmt, date, date);
      var e2 := ZeroFillEntry(arr2, Formatted, fmt, date, date);
      r[i] == BlockData(e1.totalAmount - e2.totalAmount, e1.blockChunk - e2.blockChunk, date)
  {
    var domain := Domain([arr1, arr2], Formatted, fmt);
    var m1 := DateMap(arr1, |arr1|, Formatted, fmt);
    var m2 := DateMap(arr2, |arr2|, Formatted, fmt);
    seq(|domain|, i requires 0 <= i < |domain| =>
      var date := domain[i];
      var item1 := if date in m1 then m1[date] else BlockData(0, 0, fmt(date));
      var item2 := if date in m2 then m2[date] else BlockData(0, 0, fmt(date));
      BlockData(item1.totalAmount - item2.totalAmount, item1.blockChunk - item2.blockChunk, date))
  }

  /** Subtracting a series from itself gives zero everywhere. */
  lemma SubtractSelf(arr: seq<BlockData>, fmt: string -> string)
    ensures forall i :: 0 <= i < |SubtractArrays(arr, arr, fmt)| ==>
      SubtractArrays(arr, arr, fmt)[i].totalAmount == 0 && SubtractArrays(arr, arr, fmt)[i].blockChunk == 0
  {
  }

  /** Swapping the operands negates every amount and chunk over the same dates. */
  lemma SubtractAntisymmetric(arr1: seq<BlockData>, arr2: seq<BlockData>, fmt: string -> string)
    ensures |SubtractArrays(arr1, arr2, fmt)| == |SubtractArrays(arr2, arr1, fmt)|
    ensures forall i :: 0 <= i < |SubtractArrays(arr1, arr2, fmt)| ==>
      SubtractArrays(arr1, arr2, fmt)[i].totalAmount == -SubtractArrays(arr2, arr1, fmt)[i].totalAmount
      && SubtractArrays(arr1, arr2, fmt)[i].blockChunk == -SubtractArrays(arr2, arr1, fmt)[i].blockChunk
      && SubtractArrays(arr1, arr2, fmt)[i].blockChunkDate == SubtractArrays(arr2, arr1, fmt)[i].blockChunkDate
  {
    var d1 := DatesOf(arr1, Formatted, fmt);
    var d2 := DatesOf(arr2, Formatted, fmt);
    assert AllDates([arr1, arr2], 1, Formatted, fmt) == [] + d1;
    assert AllDates([arr2, arr1], 1, Formatted, fmt) == [] + d2;
    assert AllDates([arr1, arr2], 2, Formatted, fmt) == [] + d1 + d2;
    assert AllDates([arr2, arr1], 2, Formatted, fmt) == [] + d2 + d1;
    SortedDistinctOrderFree(AllDates([arr1, arr2], 2, Formatted, fmt), AllDates([arr2, arr1], 2, Formatted, fmt));
  }

  /** The total of a pointwise difference is the difference of the totals. */
  lemma {:induction false} TotalDifference(r: seq<BlockData>, x: seq<BlockData>, y: seq<BlockData>)
    requires |r| == |x| == |y|
    requires forall i :: 0 <= i < |r| ==> r[i].totalAmount == x[i].totalAmount - y[i].totalAmount
    ensures Total(r) == Total(x) - Total(y)
  {
    if r != [] {
      var n := |r| - 1;
      assert forall i :: 0 <= i < n ==> r[..n][i] == r[i] && x[..n][i] == x[i] && y[..n][i] == y[i];
      TotalDifference(r[..n], x[..n], y[..n]);
    }
  }

  /** When neither series repeats a formatted date, the difference series sums
      to the difference of the two totals. */
  lemma SubtractConservesTotals(arr1: seq<BlockData>, arr2: seq<BlockData>, fmt: string -> string)
    requires KeysDistinct(arr1, Formatted, fmt) && KeysDistinct(arr2, Formatted, fmt)
    ensures Total(SubtractArrays(arr1, arr2, fmt)) == Total(arr1) - Total(arr2)
  {
    var arrays := [arr1, arr2];
    var domain := Domain(arrays, Formatted, fmt);
    KeysInDomain(arrays, 0, Formatted, fmt);
    KeysInDomain(arrays, 1, Formatted, fmt);
    var z1 := ZeroFilled(arr1, domain, Formatted, Formatted, fmt);
    var z2 := ZeroFilled(arr2, domain, Formatted, Formatted, fmt);
    ZeroFilledConservesTotal(arr1, domain, Formatted, Formatted, fmt);
    ZeroFilledConservesTotal(arr2, domain, Formatted, Formatted, fmt);
    TotalDifference(SubtractArrays(arr1, arr2, fmt), z1, z2);
  }
}
