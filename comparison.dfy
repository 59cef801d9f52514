/**
 * The data side of the three charts: the top 30 benchmark holdings against
 * the portfolio (`create_top_holdings_chart`), and the sector and area
 * comparisons (`create_sector_comparison_chart`,
 * `create_region_comparison_chart`).
 */
module Comparison {
  import opened Holdings
  import opened Aggregation

  /** How many benchmark holdings the top-holdings chart shows. */
  const TopCount: nat := 30

  /**
   * `nlargest(n, 'Ponderazione')` with pandas' default `keep='first'`: row
   * `i` ranks before row `j` when it weighs more, or as much and comes first.
   */
  predicate Before(b: seq<Holding>, i: nat, j: nat)
    requires i < |b| && j < |b|
  {
    b[i].weight > b[j].weight || (b[i].weight == b[j].weight && i < j)
  }

  /** Row indices of `b`, each ranking before the ones after it. */
  predicate Ranked(b: seq<Holding>, r: seq<nat>)
  {
    && (forall p :: 0 <= p < |r| ==> r[p] < |b|)
    && (forall p, q :: 0 <= p < q < |r| ==> Before(b, r[p], r[q]))
  }

  /** Places row `i`, which comes after every row of `r`, among the ranked rows `r`. */
  function Insert(b: seq<Holding>, r: seq<nat>, i: nat): (r': seq<nat>)
    requires i < |b| && Ranked(b, r)
    requires forall p :: 0 <= p < |r| ==> r[p] < i
    ensures |r'| == |r| + 1
    ensures forall x :: x in r' <==> x in r || x == i
    ensures Ranked(b, r')
  {
    if r == [] then [i]
    else if b[i].weight > b[r[0]].weight then
      [i] + r
    else
      var rest := Insert(b, r[1..], i);
      assert forall x :: x in rest ==> Before(b, r[0], x);
      [r[0]] + rest
  }

  /** The rows `0 .. k - 1` of `b` in rank order (a stable sort by descending weight). */
  function Rank(b: seq<Holding>, k: nat): (r: seq<nat>)
    requires k <= |b|
    ensures |r| == k
    ensures forall x: nat :: x in r <==> x < k
    ensures Ranked(b, r)
  {
    if k == 0 then []
    else
      var r := Rank(b, k - 1);
      assert forall p :: 0 <= p < |r| ==> r[p] in r;
      Insert(b, r, k - 1)
  }

  function Min(x: nat, y: nat): nat
  {
    if x <= y then x else y
  }

  /** The row indices of `benchmark_df.nlargest(n, 'Ponderazione')`, in order. */
  function NLargest(b: seq<Holding>, n: nat): (top: seq<nat>)
    ensures |top| == Min(n, |b|)
    ensures forall p :: 0 <= p < |top| ==> top[p] < |b|
  {
    Rank(b, |b|)[..Min(n, |b|)]
  }

  /**
   * `nlargest` keeps `min(n, len)` distinct rows in rank order, and every row
   * left out ranks after every row kept: it weighs at most as much as each,
   * and on a tie it comes later in the table.
   */
  lemma NLargestSpec(b: seq<Holding>, n: nat)
    ensures |NLargest(b, n)| == Min(n, |b|)
    ensures Ranked(b, NLargest(b, n))
    ensures forall p, q :: 0 <= p < q < |NLargest(b, n)| ==> NLargest(b, n)[p] != NLargest(b, n)[q]
    ensures forall i, p :: 0 <= i < |b| && i !in NLargest(b, n) && 0 <= p < |NLargest(b, n)| ==>
              Before(b, NLargest(b, n)[p], i)
  {
    var r := Rank(b, |b|);
    var top := NLargest(b, n);
    forall i, p | 0 <= i < |b| && i !in top && 0 <= p < |top|
      ensures Before(b, top[p], i)
    {
      assert i in r;
      var q :| 0 <= q < |r| && r[q] == i;
      assert q >= |top|;
    }
  }

  /** `portfolio_holdings[ticker]['weight']` if the ticker is there, else 0. */
  function PortfolioWeight(portfolio: map<string, Entry>, ticker: string): (w: real)
    ensures ticker in portfolio ==> w == portfolio[ticker].weight
    ensures ticker !in portfolio ==> w == 0.0
  {
    if ticker in portfolio then portfolio[ticker].weight else 0.0
  }

  /**
   * The data of the top-holdings chart: for the 30 largest benchmark rows, in
   * rank order, the name, the benchmark weight and the portfolio weight.
   */
  method TopHoldings(benchmark: seq<Holding>, portfolio: map<string, Entry>)
    returns (names: seq<string>, benchmarkWeights: seq<real>, portfolioWeights: seq<real>)
    ensures |names| == |benchmarkWeights| == |portfolioWeights| == Min(TopCount, |benchmark|)
    ensures forall p :: 0 <= p < |names| ==>
              var row := benchmark[NLargest(benchmark, TopCount)[p]];
              && names[p] == row.name
              && benchmarkWeights[p] == row.weight
              && portfolioWeights[p] == PortfolioWeight(portfolio, row.ticker)
    ensures forall p, q :: 0 <= p < q < |benchmarkWeights| ==> benchmarkWeights[p] >= benchmarkWeights[q]
  {
    var top := NLargest(benchmark, TopCount);
    NLargestSpec(benchmark, TopCount);
    names, portfolioWeights := [], [];
    for p := 0 to |top|
      invariant |names| == |portfolioWeights| == p
      invariant forall q :: 0 <= q < p ==>
                  names[q] == benchmark[top[q]].name && portfolioWeights[q] == PortfolioWeight(portfolio, benchmark[top[q]].ticker)
    {
      var row := benchmark[top[p]];
      names := names + [row.name];
      if row.ticker in portfolio {
        portfolioWeights := portfolioWeights + [portfolio[row.ticker].weight];
      } else {
        portfolioWeights := portfolioWeights + [0.0];
      }
    }
    benchmarkWeights := seq(|top|, p requires 0 <= p < |top| => benchmark[top[p]].weight);
  }

  /** One bar pair of a comparison chart. */
  datatype Bars = Bars(benchmark: real, portfolio: real)

  /**
   * The sector (area) comparison: every key of the benchmark's grouped totals
   * or of the portfolio's map, once, with `dict.get(key, 0)` on both sides.
   */
  function Compare(benchmark: seq<Holding>, portfolio: map<string, real>, d: Dimension): (r: map<string, Bars>)
    ensures forall key :: key in r <==> HasLabel(benchmark, d, key) || key in portfolio
    ensures forall key :: key in r ==> r[key] == Bars(LabelSum(benchmark, d, key), Lookup(portfolio, key))
  {
    var totals := ToMap(GroupTotals(benchmark, d));
    var r := map key | key in totals.Keys + portfolio.Keys :: Bars(Lookup(totals, key), Lookup(portfolio, key));
    forall key
      ensures key in r <==> HasLabel(benchmark, d, key) || key in portfolio
      ensures key in r ==> r[key] == Bars(LabelSum(benchmark, d, key), Lookup(portfolio, key))
    {
      GroupLookup(benchmark, d, key);
    }
    r
  }

  /**
   * The portfolio bars of the sector and area charts show what the
   * aggregator accumulated: the allocation-weighted sum over the funds.
   */
  lemma CompareTrack(benchmark: seq<Holding>, portfolio: map<string, real>, fs: seq<Fund>, d: Dimension, key: string)
    requires TrackOf(portfolio, fs, d)
    requires key in Compare(benchmark, portfolio, d)
    ensures Compare(benchmark, portfolio, d)[key].portfolio == GroupTrack(fs, d, key)
  {
    if key !in portfolio {
      TrackAgreement(fs, d, key);
      LabelSumAbsent(Contributions(fs), d, key);
    }
  }

  /**
   * The portfolio bars of the top-holdings chart show the allocation-weighted
   * sum of the ticker's weights over the funds, 0 for a ticker no fund holds.
   */
  lemma PortfolioWeightTrack(portfolio: map<string, Entry>, fs: seq<Fund>, ticker: string)
    requires HoldingsOf(portfolio, Contributions(fs))
    ensures PortfolioWeight(portfolio, ticker) == GroupTrack(fs, ByTicker, ticker)
  {
    PortfolioHolding(portfolio, fs, ticker);
    if ticker !in portfolio {
      TrackAgreement(fs, ByTicker, ticker);
      LabelSumAbsent(Contributions(fs), ByTicker, ticker);
    }
  }
}
