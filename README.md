# Series toolkit of the restaking dashboard, in Dafny

The dashboard charts amounts that are bucketed by block chunk and dated by the
chunk's date (`BlockData`: `total_amount`, `block_chunk`, `block_chunk_date`).
The helpers in `lib/utils.ts` do three jobs. They fold one series: merge the
buckets of a chunk, keep a running total, or sum it. They align several series
on the sorted union of their dates, filling a missing date with a zero or with
the previous amount. And they subtract one series from another date by date.
This project models those helpers and proves what each one computes.

- `dates.dfy` (module `Dates`): JavaScript's default string order and the
  "collect into a `Set`, then `sort()`" step that builds every date domain.
- `blocks.dfy` (module `Blocks`): the `BlockData` value, the total of a series,
  and `mergeBlockChunks`, `accumulateAmounts` and `sumTotalAmounts` as loop
  methods, each proved against specification functions.
- `aligner.dfy` (module `Aligner`): the last-wins `Map` built by `reduce`, the
  date domain, and the four aligners and `subtractArrays`.

`formatDate` reads the host clock's time zone, so it is the parameter
`fmt: string -> string`, with nothing assumed about it. The aligners differ
only in which form of the date each step uses. `DateForm` (`AsStored` or
`Formatted`) names that form for the domain, the lookup key and the output
date, so each exported function keeps exactly the keys its code uses.
For instance, `fillMissingDatesWithPrevious` never calls `formatDate`. Its
domain and its keys are the stored dates. The functions
`extractAmountsAndTimestamps`, `extractAmountsAndTimestampsWithPrevious` and
`subtractArrays` build their domain from formatted dates and look them up by
formatted dates. `fillMissingDates` builds a formatted domain but looks it up
by stored dates (see Findings). The zero-fill variants relabel each entry with
`formatDate` of a domain date that is already formatted, and the model does
the same. The aligners do not share one normalisation point, and the model
keeps each one as written: `fillMissingDatesWithPrevious` normalises nothing.

## Model

| member | source | states |
|---|---|---|
| Blocks.SumTotalAmounts | lib/utils.ts:41-49 | the result is the total of all amounts, 0 for an empty series |
| Blocks.AccumulateAmounts | lib/utils.ts:25-39 | same length as the input; the first entry is the first input; each later amount is its input amount plus the previous accumulated amount, i.e. the prefix total; chunk and date are unchanged; the last entry carries the series total |
| Blocks.FindChunk | lib/utils.ts:11-13 | returns the index of the first merged entry in the chunk, or the length when none is |
| Blocks.MergeOne | lib/utils.ts:10-20 | folding the next bucket into the merge of the buckets before it gives the merge of one more bucket and adds its amount to the total |
| Blocks.MergeBlockChunks | lib/utils.ts:7-23 | the result is the merge of the input (one entry per distinct chunk, in first-seen order, each a copy of the chunk's first bucket carrying the sum of the chunk's amounts) and the total is conserved |
| Blocks.MergeShape | lib/utils.ts:7-23 | a merge is no longer than its input, never repeats a chunk, lists chunks in order of first occurrence and holds every chunk of the input |
| Blocks.DistinctChunksMembers | lib/utils.ts:11-18 | a chunk gets a merged entry exactly when some input bucket is in it |
| Dates.LessTransitive | lib/utils.ts:82 | the default sort order on date strings is transitive |
| Dates.LessTotal | lib/utils.ts:82 | any two distinct date strings are ordered one way or the other |
| Dates.SortedDistinct | lib/utils.ts:167 | the sorted set of a list of dates is strictly increasing and holds exactly the dates of the list |
| Dates.SortedUnique | lib/utils.ts:167 | two strictly increasing lists with the same dates are equal, so the sorted set depends only on which dates occur |
| Dates.SortedDistinctOrderFree | lib/utils.ts:221-224 | lists holding the same dates, in any order and multiplicity, give the same sorted domain |
| Aligner.LastKeyed | lib/utils.ts:76-78 | the index found holds the key and no later bucket does; -1 only when no bucket holds it |
| Aligner.DateMap | lib/utils.ts:144-147 | the map holds a date exactly when some bucket has it as key, and maps it to the last such bucket |
| Aligner.DomainIsUnion | lib/utils.ts:137-141 | the domain is strictly increasing, holds exactly the dates that occur in some series, and has one entry per distinct date |
| Aligner.ZeroFilled | lib/utils.ts:143-163 | one entry per domain date: a copy of the last bucket with that key relabelled with the date, or a zero amount in chunk 0 |
| Aligner.FillMissingDates | lib/utils.ts:68-98 | one series per input, each as long as the formatted domain; each entry is the zero-fill entry looked up by stored date and labelled with `formatDate` of the domain date |
| Aligner.FillMissingDatesLosesStoredDates | lib/utils.ts:76-86 | a bucket stored as 2024-01-01 whose formatted date is 01/01/24 is lost (amount 10 becomes 0); keyed by formatted date it is kept |
| Aligner.FillMissingDatesByFormattedKey | lib/utils.ts:143-165 | as above, but each date is looked up by formatted date |
| Aligner.ZeroFilledConservesTotal | lib/utils.ts:143-163 | when every key of a series is in the domain and no key repeats, zero-filling keeps its total |
| Aligner.FormattedKeyFillConservesTotals | lib/utils.ts:143-165 | the formatted-key zero-fill keeps each series' total whenever the series repeats no formatted date |
| Aligner.ForwardNext | lib/utils.ts:195-206 | one step of the callback: the entry for the next date is the bucket found or a placeholder with `prevAmount`, and `prevAmount` becomes the last observed amount |
| Aligner.ForwardFillRepeatsPrevious | lib/utils.ts:111-126 | in a forward-filled series a missing date repeats the amount of the position before it, or 0 at the start |
| Aligner.ForwardFilled | lib/utils.ts:185-208 | one entry per domain date: the last bucket with that key relabelled, or a chunk-0 placeholder carrying the last observed amount (0 before any), which is also the previous position's amount |
| Aligner.StoredCopies | lib/utils.ts:116-119 | when keys and domain are stored dates, a bucket found is returned unchanged |
| Aligner.FillMissingDatesWithPrevious | lib/utils.ts:100-131 | one series per input, each forward-filled over the stored-date domain; found buckets are returned unchanged; a missing date repeats the previous amount |
| Aligner.ExtractAmountsAndTimestamps | lib/utils.ts:133-173 | the timestamps are the sorted formatted domain; one amount list per series, as long as the timestamps; each amount is that of the last bucket with that formatted date, or 0 |
| Aligner.ExtractAmountsAndTimestampsWithPrevious | lib/utils.ts:175-218 | the timestamps are the sorted formatted domain; per series, each amount is that of the last bucket with that formatted date, or else the previous amount (0 at the start), which is the last observed amount |
| Aligner.SubtractArrays | lib/utils.ts:220-255 | over the sorted union of both series' formatted dates, each entry is dated with the domain date and carries the first side's amount and chunk minus the second's, a missing side counting as zero |
| Aligner.SubtractSelf | lib/utils.ts:220-255 | subtracting a series from itself gives zero amounts and zero chunks |
| Aligner.SubtractAntisymmetric | lib/utils.ts:220-255 | swapping the operands keeps the dates and negates every amount and chunk |
| Aligner.SubtractConservesTotals | lib/utils.ts:220-255 | when neither side repeats a formatted date, the difference sums to the first total minus the second |

## Left out

- `roundToDecimalPlaces` (lib/utils.ts:51-57) works on floating point and is not modelled.
- `formatDate` (lib/utils.ts:59-66) parses dates in the host's time zone. It is the uninterpreted parameter `fmt`, so no property depends on how it formats.
- Amounts are unbounded integers. JavaScript numbers are doubles, and their rounding and overflow behaviour are not modelled.
- Dates.Less compares strings character by character. JavaScript's `sort()` compares UTF-16 code units, and the two differ only for characters outside the Basic Multilingual Plane.
- Blocks.MergeBlockChunks: `existingItem.total_amount +=` mutates a copy that the function itself pushed, so no input object is touched. The model updates a sequence of values, which cannot express object identity or aliasing.
- `if (item)` relies on a found `Map` entry being truthy. Every stored entry is an object, so the model only tests whether the key is present.
- `subtractArrays` builds fallback entries dated `formatDate(date)`. Only their zero amount and chunk reach the result, so the model uses zeros directly.
- charts/LineChart.tsx (rendering) and lib/indexing/pods.ts (network fetching and the chunk map it reads) are not part of this model.

## Findings

| source | as written | input that shows it | evidently intended | confidence | as-written member | corrected member |
|---|---|---|---|---|---|---|
| lib/utils.ts:76-77 | `fillMissingDates` keys its lookup map by the stored `block_chunk_date`, but its domain holds `formatDate` values, so a bucket is found only when its stored date is already in formatted form | one series `[{total_amount: 10, block_chunk: 1, block_chunk_date: "2024-01-01"}]` with `formatDate("2024-01-01") = "01/01/24"` gives `[{total_amount: 0, block_chunk: 0, block_chunk_date: "01/01/24"}]` | key the map by `formatDate(item.block_chunk_date)`, as lines 144-145 do, so every series keeps its total | high; not executed | Aligner.FillMissingDatesLosesStoredDates | Aligner.FormattedKeyFillConservesTotals |
