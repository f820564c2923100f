/**
 * The usage panel (app/components/UsageDetails.tsx): token totals summed over
 * the per-model records, which token rows are shown, and the "N/A" and
 * unit-choice branches of the cost, duration and number formatters.
 */
module UsageDetails {

  import opened Options
  import opened Wire

  datatype Totals = Totals(input: int, output: int, cacheRead: int, cacheCreate: int)

  const ZeroTotals: Totals := Totals(0, 0, 0, 0)

  function Add(a: Totals, b: Totals): Totals {
    Totals(a.input + b.input, a.output + b.output, a.cacheRead + b.cacheRead, a.cacheCreate + b.cacheCreate)
  }

  /** The reducer's step: add one model's counts, a missing count adding 0. */
  function AddStats(acc: Totals, stats: ModelStats): Totals {
    Totals(acc.input + stats.inputTokens.GetOr(0),
           acc.output + stats.outputTokens.GetOr(0),
           acc.cacheRead + stats.cacheReadInputTokens.GetOr(0),
           acc.cacheCreate + stats.cacheCreationInputTokens.GetOr(0))
  }

  /** `reduce` over the records, first to last, from `acc`. */
  function Reduce(acc: Totals, records: seq<ModelStats>): Totals
    decreases |records|
  {
    if records == [] then acc else Reduce(AddStats(acc, records[0]), records[1..])
  }

  /** The sum of one field over the records, a missing field counting as 0. */
  function Sum(records: seq<ModelStats>, field: ModelStats -> Option<int>): int {
    if records == [] then 0 else field(records[0]).GetOr(0) + Sum(records[1..], field)
  }

  function InputTokens(s: ModelStats): Option<int> { s.inputTokens }
  function OutputTokens(s: ModelStats): Option<int> { s.outputTokens }
  function CacheReadTokens(s: ModelStats): Option<int> { s.cacheReadInputTokens }
  function CacheCreateTokens(s: ModelStats): Option<int> { s.cacheCreationInputTokens }

  lemma {:induction false} ReduceIsSum(acc: Totals, records: seq<ModelStats>)
    ensures Reduce(acc, records) ==
              Totals(acc.input + Sum(records, InputTokens), acc.output + Sum(records, OutputTokens),
                     acc.cacheRead + Sum(records, CacheReadTokens), acc.cacheCreate + Sum(records, CacheCreateTokens))
    decreases |records|
  {
    if records != [] {
      ReduceIsSum(AddStats(acc, records[0]), records[1..]);
    }
  }

  /** The token totals the panel shows: the fold from all-zero totals, which
      gives each total as the sum of its field over all model records. */
  function TokenTotals(records: seq<ModelStats>): (t: Totals)
    ensures t == Totals(Sum(records, InputTokens), Sum(records, OutputTokens),
                        Sum(records, CacheReadTokens), Sum(records, CacheCreateTokens))
  {
    ReduceIsSum(ZeroTotals, records);
    Reduce(ZeroTotals, records)
  }

  lemma {:induction false} ReduceAppend(acc: Totals, xs: seq<ModelStats>, ys: seq<ModelStats>)
    ensures Reduce(acc, xs + ys) == Reduce(Reduce(acc, xs), ys)
    decreases |xs|
  {
    if xs != [] {
      assert (xs + ys)[1..] == xs[1..] + ys;
      ReduceAppend(AddStats(acc, xs[0]), xs[1..], ys);
    } else {
      assert xs + ys == ys;
    }
  }

  lemma {:induction false} ReduceFrom(acc: Totals, xs: seq<ModelStats>)
    ensures Reduce(acc, xs) == Add(acc, Reduce(ZeroTotals, xs))
    decreases |xs|
  {
    if xs != [] {
      ReduceFrom(AddStats(acc, xs[0]), xs[1..]);
      ReduceFrom(AddStats(ZeroTotals, xs[0]), xs[1..]);
    }
  }

  /** The totals of two groups of records add up: how the records are split
      (and so the order of `Object.values`) does not change the sums. */
  lemma TokenTotalsAppend(xs: seq<ModelStats>, ys: seq<ModelStats>)
    ensures TokenTotals(xs + ys) == Add(TokenTotals(xs), TokenTotals(ys))
  {
    ReduceAppend(ZeroTotals, xs, ys);
    ReduceFrom(Reduce(ZeroTotals, xs), ys);
  }

  /** Exchanging two records leaves the totals unchanged. */
  lemma TokenTotalsSwap(xs: seq<ModelStats>, a: ModelStats, b: ModelStats, ys: seq<ModelStats>)
    ensures TokenTotals(xs + [a, b] + ys) == TokenTotals(xs + [b, a] + ys)
  {
    TokenTotalsAppend(xs + [a, b], ys);
    TokenTotalsAppend(xs + [b, a], ys);
    TokenTotalsAppend(xs, [a, b]);
    TokenTotalsAppend(xs, [b, a]);
    TokenTotalsAppend([a], [b]);
    TokenTotalsAppend([b], [a]);
  }

  /** The token section appears only for a present, non-empty `modelUsage`. */
  predicate ShowsTokenSection(usage: UsageData) {
    usage.modelUsage.Some? && |usage.modelUsage.value| > 0
  }

  /** The labelled rows of the token section: Input and Output always, the two
      cache rows only when their total is positive. */
  function TokenRows(t: Totals): (rows: seq<(string, int)>)
    ensures |rows| >= 2 && rows[0] == ("Input", t.input) && rows[1] == ("Output", t.output)
    ensures ("Cache Read", t.cacheRead) in rows <==> t.cacheRead > 0
    ensures ("Cache Create", t.cacheCreate) in rows <==> t.cacheCreate > 0
    ensures |rows| == 2 + (if t.cacheRead > 0 then 1 else 0) + (if t.cacheCreate > 0 then 1 else 0)
  {
    [("Input", t.input), ("Output", t.output)]
    + (if t.cacheRead > 0 then [("Cache Read", t.cacheRead)] else [])
    + (if t.cacheCreate > 0 then [("Cache Create", t.cacheCreate)] else [])
  }

  // ---------------------------------------------------------------------------
  // Formatters. The digits themselves (toFixed, toLocaleString) are floating-point
  // formatting and are not modelled; what is kept is which form is chosen.

  datatype CostText = CostNotAvailable | Dollars(cost: real)
  datatype DurationText = DurationNotAvailable | Milliseconds(ms: real) | Seconds(seconds: real)
  datatype NumberText = NumberNotAvailable | Localised(n: int)

  function FormatCost(cost: Option<real>): (r: CostText)
    ensures r.CostNotAvailable? <==> cost.None?
    ensures r.Dollars? ==> r.cost == cost.value
  {
    match cost
    case None => CostNotAvailable
    case Some(c) => Dollars(c)
  }

  /** Milliseconds below one second, seconds from 1000 ms on. */
  function FormatDuration(ms: Option<real>): (r: DurationText)
    ensures r.DurationNotAvailable? <==> ms.None?
    ensures r.Milliseconds? <==> ms.Some? && ms.value < 1000.0
    ensures r.Seconds? <==> ms.Some? && ms.value >= 1000.0
    ensures r.Milliseconds? ==> r.ms == ms.value
    ensures r.Seconds? ==> r.seconds * 1000.0 == ms.value
  {
    match ms
    case None => DurationNotAvailable
    case Some(m) => if m >= 1000.0 then Seconds(m / 1000.0) else Milliseconds(m)
  }

  function FormatNumber(n: Option<int>): (r: NumberText)
    ensures r.NumberNotAvailable? <==> n.None?
    ensures r.Localised? ==> r.n == n.value
  {
    match n
    case None => NumberNotAvailable
    case Some(v) => Localised(v)
  }
}
