/**
 * The holdings loader of one exported fund table (`load_and_clean_data`) and
 * the per-label totals `groupby(column)['Ponderazione'].sum()` computed on it.
 *
 * A table reaches the model already split into rows; `None` stands for a file
 * that could not be read or lacks the `Ponderazione (%)` or `Asset Class`
 * column, the two columns the loader reads inside its `try`.
 */
module Holdings {
  import opened Wrappers
  import Percent

  /** One row of an exported table: issuer ticker, name, raw weight cell, asset class, sector, area. */
  datatype Row = Row(ticker: string, name: string, rawWeight: Option<string>,
                     assetClass: string, sector: string, region: string)

  /** A kept row, with its weight (percent of the fund) already cleaned. */
  datatype Holding = Holding(ticker: string, name: string, weight: real, sector: string, region: string)

  /** The asset class of equity holdings in the exported tables. */
  const Equity: string := "Azionario"

  function CleanWeight(r: Row): real
  {
    Percent.CleanPercentage(r.rawWeight)
  }

  /** The filter: an equity row with a positive cleaned weight. */
  predicate IsKept(r: Row)
  {
    r.assetClass == Equity && CleanWeight(r) > 0.0
  }

  function Clean(r: Row): Holding
  {
    Holding(r.ticker, r.name, CleanWeight(r), r.sector, r.region)
  }

  /** The rows the filter keeps, cleaned, in table order. */
  function EquityHoldings(rows: seq<Row>): (hs: seq<Holding>)
    ensures |hs| <= |rows|
    ensures forall k :: 0 <= k < |hs| ==> hs[k].weight > 0.0
  {
    if rows == [] then []
    else
      var kept := EquityHoldings(rows[..|rows| - 1]);
      var last := rows[|rows| - 1];
      if IsKept(last) then kept + [Clean(last)] else kept
  }

  /** `load_and_clean_data`: `None` when the table could not be loaded. */
  function LoadAndClean(table: Option<seq<Row>>): (r: Option<seq<Holding>>)
    ensures r.Some? <==> table.Some?
    ensures r.Some? ==> forall k :: 0 <= k < |r.value| ==> r.value[k].weight > 0.0
  {
    match table
    case None => None
    case Some(rows) => Some(EquityHoldings(rows))
  }

  /** The positions, in increasing order, of the rows that pass the filter. */
  function KeptIndices(rows: seq<Row>): seq<nat>
  {
    if rows == [] then []
    else KeptIndices(rows[..|rows| - 1]) + if IsKept(rows[|rows| - 1]) then [|rows| - 1] else []
  }

  /** Every kept position is in range and passes the filter, and positions increase. */
  lemma {:induction false} KeptIndicesSound(rows: seq<Row>)
    ensures forall k :: 0 <= k < |KeptIndices(rows)| ==> KeptIndices(rows)[k] < |rows| && IsKept(rows[KeptIndices(rows)[k]])
    ensures forall p, q :: 0 <= p < q < |KeptIndices(rows)| ==> KeptIndices(rows)[p] < KeptIndices(rows)[q]
  {
    if rows != [] {
      var prefix := rows[..|rows| - 1];
      KeptIndicesSound(prefix);
      assert forall i :: 0 <= i < |prefix| ==> rows[i] == prefix[i];
    }
  }

  /** No row that passes the filter is missed. */
  lemma {:induction false} KeptIndicesComplete(rows: seq<Row>)
    ensures forall i :: 0 <= i < |rows| && IsKept(rows[i]) ==> i in KeptIndices(rows)
  {
    if rows != [] {
      var prefix := rows[..|rows| - 1];
      KeptIndicesComplete(prefix);
      forall i | 0 <= i < |rows| && IsKept(rows[i])
        ensures i in KeptIndices(rows)
      {
        if i < |prefix| {
          assert prefix[i] == rows[i];
          assert i in KeptIndices(prefix);
        }
      }
    }
  }

  /** The k-th holding is the cleaned row at the k-th kept position. */
  lemma {:induction false} EquityHoldingsAligned(rows: seq<Row>)
    ensures |EquityHoldings(rows)| == |KeptIndices(rows)|
    ensures forall k :: 0 <= k < |KeptIndices(rows)| ==>
              KeptIndices(rows)[k] < |rows| && EquityHoldings(rows)[k] == Clean(rows[KeptIndices(rows)[k]])
  {
    if rows != [] {
      var prefix := rows[..|rows| - 1];
      EquityHoldingsAligned(prefix);
      assert forall i :: 0 <= i < |prefix| ==> rows[i] == prefix[i];
    }
  }

  /**
   * The filter is exact and keeps order: the k-th holding is the cleaned k-th
   * kept row, every kept row is an equity row with positive weight, positions
   * increase, and no row passing the filter is missed.
   */
  lemma EquityHoldingsSpec(rows: seq<Row>)
    ensures |EquityHoldings(rows)| == |KeptIndices(rows)|
    ensures forall k :: 0 <= k < |KeptIndices(rows)| ==>
              var i := KeptIndices(rows)[k];
              i < |rows| && rows[i].assetClass == Equity && CleanWeight(rows[i]) > 0.0
              && EquityHoldings(rows)[k] == Clean(rows[i])
    ensures forall p, q :: 0 <= p < q < |KeptIndices(rows)| ==> KeptIndices(rows)[p] < KeptIndices(rows)[q]
    ensures forall i :: 0 <= i < |rows| && rows[i].assetClass == Equity && CleanWeight(rows[i]) > 0.0
              ==> i in KeptIndices(rows)
  {
    KeptIndicesSound(rows);
    KeptIndicesComplete(rows);
    EquityHoldingsAligned(rows);
  }

  /** The three columns holdings are grouped by. */
  datatype Dimension = ByTicker | BySector | ByRegion

  function Label(h: Holding, d: Dimension): string
  {
    match d
    case ByTicker => h.ticker
    case BySector => h.sector
    case ByRegion => h.region
  }

  predicate HasLabel(hs: seq<Holding>, d: Dimension, key: string)
  {
    exists k :: 0 <= k < |hs| && Label(hs[k], d) == key
  }

  /** Sum of the weights of the holdings labelled `key`. */
  function LabelSum(hs: seq<Holding>, d: Dimension, key: string): real
  {
    if hs == [] then 0.0
    else
      var last := hs[|hs| - 1];
      LabelSum(hs[..|hs| - 1], d, key) + if Label(last, d) == key then last.weight else 0.0
  }

  /** Sum of all weights. */
  function Total(hs: seq<Holding>): real
  {
    if hs == [] then 0.0 else Total(hs[..|hs| - 1]) + hs[|hs| - 1].weight
  }

  lemma {:induction false} HasLabelLast(hs: seq<Holding>, d: Dimension, key: string)
    requires hs != []
    ensures HasLabel(hs, d, key) <==> HasLabel(hs[..|hs| - 1], d, key) || Label(hs[|hs| - 1], d) == key
  {
    var prefix := hs[..|hs| - 1];
    if HasLabel(hs, d, key) && Label(hs[|hs| - 1], d) != key {
      var k :| 0 <= k < |hs| && Label(hs[k], d) == key;
      assert prefix[k] == hs[k];
    }
    if HasLabel(prefix, d, key) {
      var k :| 0 <= k < |prefix| && Label(prefix[k], d) == key;
      assert hs[k] == prefix[k];
    }
  }

  /** The distinct labels of the holdings, in order of first appearance. */
  function DistinctLabels(hs: seq<Holding>, d: Dimension): (ls: seq<string>)
    ensures forall p, q :: 0 <= p < q < |ls| ==> ls[p] != ls[q]
    ensures forall key :: key in ls <==> HasLabel(hs, d, key)
  {
    if hs == [] then []
    else
      var ls := DistinctLabels(hs[..|hs| - 1], d);
      var key := Label(hs[|hs| - 1], d);
      HasLabelLastAll(hs, d);
      if key in ls then ls else ls + [key]
  }

  lemma HasLabelLastAll(hs: seq<Holding>, d: Dimension)
    requires hs != []
    ensures forall key :: HasLabel(hs, d, key) <==> HasLabel(hs[..|hs| - 1], d, key) || Label(hs[|hs| - 1], d) == key
  {
    forall key
      ensures HasLabel(hs, d, key) <==> HasLabel(hs[..|hs| - 1], d, key) || Label(hs[|hs| - 1], d) == key
    {
      HasLabelLast(hs, d, key);
    }
  }

  /** A label that does not occur has total 0. */
  lemma {:induction false} LabelSumAbsent(hs: seq<Holding>, d: Dimension, key: string)
    requires !HasLabel(hs, d, key)
    ensures LabelSum(hs, d, key) == 0.0
  {
    if hs != [] {
      HasLabelLast(hs, d, key);
      LabelSumAbsent(hs[..|hs| - 1], d, key);
    }
  }

  /** Label totals add up over a concatenation of holdings. */
  lemma {:induction false} LabelSumAppend(hs: seq<Holding>, gs: seq<Holding>, d: Dimension, key: string)
    ensures LabelSum(hs + gs, d, key) == LabelSum(hs, d, key) + LabelSum(gs, d, key)
  {
    if gs == [] {
      assert hs + gs == hs;
    } else {
      assert (hs + gs)[..|hs + gs| - 1] == hs + gs[..|gs| - 1];
      LabelSumAppend(hs, gs[..|gs| - 1], d, key);
    }
  }

  /** One group of `groupby(column)['Ponderazione'].sum()`. */
  datatype Group = Group(key: string, total: real)

  /**
   * `groupby(column)['Ponderazione'].sum()`: one group per label present,
   * each carrying the sum of the weights with that label.
   */
  function GroupTotals(hs: seq<Holding>, d: Dimension): (g: seq<Group>)
    ensures forall p, q :: 0 <= p < q < |g| ==> g[p].key != g[q].key
    ensures forall key :: HasLabel(hs, d, key) <==> key in Keys(g)
    ensures forall k :: 0 <= k < |g| ==> g[k].total == LabelSum(hs, d, g[k].key)
  {
    var ls := DistinctLabels(hs, d);
    var g := seq(|ls|, k requires 0 <= k < |ls| => Group(ls[k], LabelSum(hs, d, ls[k])));
    forall key
      ensures HasLabel(hs, d, key) <==> key in Keys(g)
    {
      KeysIndex(g, key);
      if key in ls {
        var k :| 0 <= k < |ls| && ls[k] == key;
        assert g[k].key == key;
      }
    }
    g
  }

  /** The labels of the groups. */
  function Keys(g: seq<Group>): set<string>
  {
    if g == [] then {} else Keys(g[..|g| - 1]) + {g[|g| - 1].key}
  }

  lemma {:induction false} KeysIndex(g: seq<Group>, key: string)
    ensures key in Keys(g) <==> exists k :: 0 <= k < |g| && g[k].key == key
  {
    if g != [] {
      KeysIndex(g[..|g| - 1], key);
      if key in Keys(g[..|g| - 1]) {
        var k :| 0 <= k < |g| - 1 && g[..|g| - 1][k].key == key;
        assert g[k].key == key;
      }
    }
  }

  /** `.to_dict()` of the groups. */
  function ToMap(g: seq<Group>): (m: map<string, real>)
    ensures m.Keys == Keys(g)
  {
    if g == [] then map[] else ToMap(g[..|g| - 1])[g[|g| - 1].key := g[|g| - 1].total]
  }

  /** `dict.get(key, 0)`. */
  function Lookup(m: map<string, real>, key: string): real
  {
    if key in m then m[key] else 0.0
  }

  lemma {:induction false} ToMapLookup(g: seq<Group>, k: nat)
    requires forall p, q :: 0 <= p < q < |g| ==> g[p].key != g[q].key
    requires k < |g|
    ensures Lookup(ToMap(g), g[k].key) == g[k].total
  {
    if k < |g| - 1 {
      ToMapLookup(g[..|g| - 1], k);
    }
  }

  /**
   * Looking a label up in the grouped totals, with default 0, gives the sum of
   * the weights with that label, whether or not the label occurs.
   */
  lemma GroupLookup(hs: seq<Holding>, d: Dimension, key: string)
    ensures Lookup(ToMap(GroupTotals(hs, d)), key) == LabelSum(hs, d, key)
    ensures key in ToMap(GroupTotals(hs, d)) <==> HasLabel(hs, d, key)
  {
    var g := GroupTotals(hs, d);
    if HasLabel(hs, d, key) {
      KeysIndex(g, key);
      var k :| 0 <= k < |g| && g[k].key == key;
      ToMapLookup(g, k);
    } else {
      LabelSumAbsent(hs, d, key);
    }
  }

  /** Sum of the label totals of `hs` over the labels `ls`. */
  function SumOver(ls: seq<string>, hs: seq<Holding>, d: Dimension): real
  {
    if ls == [] then 0.0 else SumOver(ls[..|ls| - 1], hs, d) + LabelSum(hs, d, ls[|ls| - 1])
  }

  lemma {:induction false} SumOverExtend(ls: seq<string>, hs: seq<Holding>, d: Dimension)
    requires hs != []
    requires forall p, q :: 0 <= p < q < |ls| ==> ls[p] != ls[q]
    ensures SumOver(ls, hs, d) == SumOver(ls, hs[..|hs| - 1], d)
                                  + if Label(hs[|hs| - 1], d) in ls then hs[|hs| - 1].weight else 0.0
  {
    if ls != [] {
      SumOverExtend(ls[..|ls| - 1], hs, d);
    }
  }

  /**
   * Mass conservation of grouping: summing the per-label totals over every
   * distinct label once gives the total weight.
   */
  lemma {:induction false} LabelTotalsConserveMass(hs: seq<Holding>, d: Dimension)
    ensures SumOver(DistinctLabels(hs, d), hs, d) == Total(hs)
  {
    if hs != [] {
      var prefix := hs[..|hs| - 1];
      var x := hs[|hs| - 1];
      var ls := DistinctLabels(prefix, d);
      LabelTotalsConserveMass(prefix, d);
      SumOverExtend(ls, hs, d);
      if Label(x, d) !in ls {
        LabelSumAbsent(prefix, d, Label(x, d));
        assert (ls + [Label(x, d)])[..|ls|] == ls;
      }
    }
  }

  function SumTotals(g: seq<Group>): real
  {
    if g == [] then 0.0 else SumTotals(g[..|g| - 1]) + g[|g| - 1].total
  }

  lemma {:induction false} SumTotalsOver(ls: seq<string>, hs: seq<Holding>, d: Dimension)
    ensures SumTotals(seq(|ls|, k requires 0 <= k < |ls| => Group(ls[k], LabelSum(hs, d, ls[k]))))
         == SumOver(ls, hs, d)
  {
    if ls != [] {
      var prefix := ls[..|ls| - 1];
      SumTotalsOver(prefix, hs, d);
      var g := seq(|ls|, k requires 0 <= k < |ls| => Group(ls[k], LabelSum(hs, d, ls[k])));
      assert g[..|g| - 1] == seq(|prefix|, k requires 0 <= k < |prefix| => Group(prefix[k], LabelSum(hs, d, prefix[k])));
    }
  }

  /** The grouped totals of one table add up to the table's total weight. */
  lemma GroupTotalsConserveMass(hs: seq<Holding>, d: Dimension)
    ensures SumTotals(GroupTotals(hs, d)) == Total(hs)
  {
    SumTotalsOver(DistinctLabels(hs, d), hs, d);
    LabelTotalsConserveMass(hs, d);
  }
}
