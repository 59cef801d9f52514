/**
 * The portfolio aggregator `aggregate_portfolio_data`: every fund table is
 * loaded and filtered, each holding is weighted by its fund's allocation, and
 * three dictionaries are filled in place: holdings by ticker, and the sector
 * and area totals, the latter two on a separate per-fund group track.
 */
module Aggregation {
  import opened Wrappers
  import opened Holdings

  /** One fund of the portfolio: its exported table and its allocation in percent. */
  datatype Fund = Fund(table: Option<seq<Row>>, allocation: real)

  /** One value of `portfolio_holdings`: descriptive fields and accumulated weight. */
  datatype Entry = Entry(name: string, weight: real, sector: string, region: string)

  /** `zip(etf_files, weights)`: pairs up to the length of the shorter list. */
  function Zip(files: seq<Option<seq<Row>>>, weights: seq<real>): (fs: seq<Fund>)
    ensures |fs| == if |files| <= |weights| then |files| else |weights|
    ensures forall k :: 0 <= k < |fs| ==> fs[k] == Fund(files[k], weights[k])
  {
    var n := if |files| <= |weights| then |files| else |weights|;
    seq(n, k requires 0 <= k < n => Fund(files[k], weights[k]))
  }

  /** The part of a total that a fund allocated at `allocation` percent contributes. */
  function Share(total: real, allocation: real): real
  {
    total * allocation / 100.0
  }

  /** A holding as its fund contributes it: weight times allocation over 100. */
  function Scale(h: Holding, allocation: real): Holding
  {
    h.(weight := Share(h.weight, allocation))
  }

  function Scaled(hs: seq<Holding>, allocation: real): (r: seq<Holding>)
    ensures |r| == |hs|
  {
    seq(|hs|, k requires 0 <= k < |hs| => Scale(hs[k], allocation))
  }

  /** What one fund contributes: nothing when its table does not load. */
  function FundContributions(f: Fund): seq<Holding>
  {
    match LoadAndClean(f.table)
    case None => []
    case Some(hs) => Scaled(hs, f.allocation)
  }

  /** Every weighted holding of the funds, in fund order, then row order. */
  function Contributions(fs: seq<Fund>): seq<Holding>
  {
    if fs == [] then [] else Contributions(fs[..|fs| - 1]) + FundContributions(fs[|fs| - 1])
  }

  /** What one fund adds to the total of `key` on the group track. */
  function FundGroupShare(f: Fund, d: Dimension, key: string): real
  {
    match LoadAndClean(f.table)
    case None => 0.0
    case Some(hs) => Share(LabelSum(hs, d, key), f.allocation)
  }

  /**
   * The sector (area) track: per fund, the table's total for `key`, scaled by
   * the allocation, summed over the funds whose table loads.
   */
  function GroupTrack(fs: seq<Fund>, d: Dimension, key: string): real
  {
    if fs == [] then 0.0 else GroupTrack(fs[..|fs| - 1], d, key) + FundGroupShare(fs[|fs| - 1], d, key)
  }

  /** Total weight of each fund that loads, scaled by its allocation, summed. */
  function FundMass(fs: seq<Fund>): real
  {
    if fs == [] then 0.0
    else
      var f := fs[|fs| - 1];
      FundMass(fs[..|fs| - 1]) + match LoadAndClean(f.table)
                                 case None => 0.0
                                 case Some(hs) => Share(Total(hs), f.allocation)
  }

  /** Position of the first holding labelled `key`. */
  function FirstIndex(hs: seq<Holding>, d: Dimension, key: string): (k: nat)
    requires HasLabel(hs, d, key)
    ensures k < |hs| && Label(hs[k], d) == key
    ensures forall j :: 0 <= j < k ==> Label(hs[j], d) != key
  {
    if Label(hs[0], d) == key then 0
    else
      var w :| 0 <= w < |hs| && Label(hs[w], d) == key;
      assert hs[1..][w - 1] == hs[w];
      1 + FirstIndex(hs[1..], d, key)
  }

  /** The first contribution for ticker `t`, if any. */
  function FirstOf(cs: seq<Holding>, t: string): Option<Holding>
  {
    if cs == [] then None
    else
      match FirstOf(cs[..|cs| - 1], t)
      case Some(h) => Some(h)
      case None => if cs[|cs| - 1].ticker == t then Some(cs[|cs| - 1]) else None
  }

  /**
   * `portfolio_holdings` after the contributions `cs`: one entry per ticker
   * that occurs, holding the sum of its contributions and the name, sector and
   * area of its first occurrence.
   */
  ghost predicate HoldingsOf(m: map<string, Entry>, cs: seq<Holding>)
  {
    forall t :: (t in m <==> FirstOf(cs, t).Some?) && (t in m ==>
      var first := FirstOf(cs, t).value;
      m[t] == Entry(first.name, LabelSum(cs, ByTicker, t), first.sector, first.region))
  }

  /**
   * `portfolio_sectors` (`portfolio_regions`) after the funds `fs`: one entry
   * per label that occurs in a loaded table, holding its group-track total.
   */
  ghost predicate TrackOf(m: map<string, real>, fs: seq<Fund>, d: Dimension)
  {
    && (forall key :: key in m <==> HasLabel(Contributions(fs), d, key))
    && (forall key :: key in m ==> m[key] == GroupTrack(fs, d, key))
  }

  lemma {:induction false} FirstIndexPrefix(cs: seq<Holding>, more: seq<Holding>, d: Dimension, key: string)
    requires HasLabel(cs, d, key)
    ensures HasLabel(cs + more, d, key)
    ensures FirstIndex(cs + more, d, key) == FirstIndex(cs, d, key)
  {
    var k := FirstIndex(cs, d, key);
    assert (cs + more)[k] == cs[k];
  }

  lemma {:induction false} FirstIndexNew(cs: seq<Holding>, x: Holding, d: Dimension)
    requires !HasLabel(cs, d, Label(x, d))
    ensures HasLabel(cs + [x], d, Label(x, d))
    ensures FirstIndex(cs + [x], d, Label(x, d)) == |cs|
  {
    assert (cs + [x])[|cs|] == x;
  }

  lemma ScaledSnoc(hs: seq<Holding>, j: nat, allocation: real)
    requires j < |hs|
    ensures Scaled(hs[..j + 1], allocation) == Scaled(hs[..j], allocation) + [Scale(hs[j], allocation)]
  {
  }

  lemma {:induction false} LabelSumAbsentFirst(cs: seq<Holding>, t: string)
    requires FirstOf(cs, t).None?
    ensures LabelSum(cs, ByTicker, t) == 0.0
  {
    if cs != [] {
      LabelSumAbsentFirst(cs[..|cs| - 1], t);
    }
  }

  /** The update one contribution makes to `portfolio_holdings`. */
  function Record(m: map<string, Entry>, x: Holding): (m': map<string, Entry>)
    ensures m'.Keys == m.Keys + {x.ticker}
    ensures forall t :: t in m && t != x.ticker ==> m'[t] == m[t]
    ensures x.ticker in m ==> m'[x.ticker] == Entry(m[x.ticker].name, m[x.ticker].weight + x.weight, m[x.ticker].sector, m[x.ticker].region)
    ensures x.ticker !in m ==> m'[x.ticker] == Entry(x.name, x.weight, x.sector, x.region)
  {
    if x.ticker in m then m[x.ticker := m[x.ticker].(weight := m[x.ticker].weight + x.weight)]
    else m[x.ticker := Entry(x.name, x.weight, x.sector, x.region)]
  }

  lemma RecordStep(m: map<string, Entry>, cs: seq<Holding>, x: Holding)
    requires HoldingsOf(m, cs)
    ensures HoldingsOf(Record(m, x), cs + [x])
  {
    var cs' := cs + [x];
    var m' := Record(m, x);
    assert cs'[..|cs'| - 1] == cs;
    forall t
      ensures t in m' <==> FirstOf(cs', t).Some?
      ensures t in m' ==> var first := FirstOf(cs', t).value;
                          m'[t] == Entry(first.name, LabelSum(cs', ByTicker, t), first.sector, first.region)
    {
      if t == x.ticker && x.ticker !in m {
        LabelSumAbsentFirst(cs, t);
      }
    }
  }

  /** The holdings loop of one fund (`for _, row in df.iterrows()`). */
  method AddHoldings(acc: map<string, Entry>, hs: seq<Holding>, allocation: real, ghost done: seq<Holding>)
    returns (r: map<string, Entry>)
    requires HoldingsOf(acc, done)
    ensures HoldingsOf(r, done + Scaled(hs, allocation))
  {
    r := acc;
    ghost var cs := done;
    assert Scaled(hs[..0], allocation) == [];
    for j := 0 to |hs|
      invariant cs == done + Scaled(hs[..j], allocation)
      invariant HoldingsOf(r, cs)
    {
      var row := hs[j];
      var contribution := Share(row.weight, allocation);
      ghost var x := Scale(row, allocation);
      ghost var before := r;
      assert x == Holding(row.ticker, row.name, contribution, row.sector, row.region);
      if row.ticker in r {
        r := r[row.ticker := r[row.ticker].(weight := r[row.ticker].weight + contribution)];
      } else {
        r := r[row.ticker := Entry(row.name, contribution, row.sector, row.region)];
      }
      assert r == Record(before, x);
      RecordStep(before, cs, x);
      ScaledSnoc(hs, j, allocation);
      cs := cs + [x];
    }
    assert hs[..|hs|] == hs;
  }

  /** The groups with each total scaled by the allocation, as the group loop adds them. */
  function ScaleGroups(groups: seq<Group>, allocation: real): (r: seq<Group>)
    ensures |r| == |groups|
    ensures forall k :: 0 <= k < |r| ==> r[k].key == groups[k].key
  {
    if groups == [] then []
    else
      var last := groups[|groups| - 1];
      ScaleGroups(groups[..|groups| - 1], allocation) + [Group(last.key, Share(last.total, allocation))]
  }

  lemma {:induction false} ScaleGroupsLookup(groups: seq<Group>, allocation: real, key: string)
    ensures key in ToMap(ScaleGroups(groups, allocation)) <==> key in ToMap(groups)
    ensures Lookup(ToMap(ScaleGroups(groups, allocation)), key) == Share(Lookup(ToMap(groups), key), allocation)
  {
    if groups == [] {
      assert Share(0.0, allocation) == 0.0;
    } else {
      ScaleGroupsLookup(groups[..|groups| - 1], allocation, key);
    }
  }

  /** `r` is `acc` with the totals of `added` added key by key, missing keys counting as 0. */
  ghost predicate Added(acc: map<string, real>, r: map<string, real>, added: seq<Group>)
  {
    && (forall key :: key in r <==> key in acc || key in ToMap(added))
    && (forall key :: key in r ==> r[key] == Lookup(acc, key) + Lookup(ToMap(added), key))
  }

  lemma AddedSnoc(acc: map<string, real>, r: map<string, real>, added: seq<Group>, x: Group)
    requires Added(acc, r, added) && x.key !in ToMap(added)
    ensures Added(acc, r[x.key := Lookup(r, x.key) + x.total], added + [x])
  {
    assert (added + [x])[..|added|] == added;
    assert ToMap(added + [x]) == ToMap(added)[x.key := x.total];
  }

  lemma ScaleGroupsSnoc(groups: seq<Group>, k: nat, allocation: real)
    requires k < |groups|
    requires forall p, q :: 0 <= p < q < |groups| ==> groups[p].key != groups[q].key
    ensures ScaleGroups(groups[..k + 1], allocation)
         == ScaleGroups(groups[..k], allocation) + [Group(groups[k].key, Share(groups[k].total, allocation))]
    ensures groups[k].key !in ToMap(ScaleGroups(groups[..k], allocation))
  {
    assert groups[..k + 1][..k] == groups[..k];
    KeysIndex(ScaleGroups(groups[..k], allocation), groups[k].key);
  }

  lemma AddedScaled(acc: map<string, real>, r: map<string, real>, groups: seq<Group>, allocation: real)
    requires Added(acc, r, ScaleGroups(groups, allocation))
    ensures forall key :: key in r <==> key in acc || key in ToMap(groups)
    ensures forall key :: key in r ==> r[key] == Lookup(acc, key) + Share(Lookup(ToMap(groups), key), allocation)
  {
    forall key
      ensures key in r <==> key in acc || key in ToMap(groups)
      ensures key in r ==> r[key] == Lookup(acc, key) + Share(Lookup(ToMap(groups), key), allocation)
    {
      ScaleGroupsLookup(groups, allocation, key);
    }
  }

  /** The group loop of one fund (`for sector, sector_weight in sector_weights.items()`). */
  method AddGroups(acc: map<string, real>, groups: seq<Group>, allocation: real) returns (r: map<string, real>)
    requires forall p, q :: 0 <= p < q < |groups| ==> groups[p].key != groups[q].key
    ensures forall key :: key in r <==> key in acc || key in ToMap(groups)
    ensures forall key :: key in r ==> r[key] == Lookup(acc, key) + Share(Lookup(ToMap(groups), key), allocation)
  {
    r := acc;
    for k := 0 to |groups|
      invariant Added(acc, r, ScaleGroups(groups[..k], allocation))
    {
      var g := groups[k];
      var contribution := Share(g.total, allocation);
      ScaleGroupsSnoc(groups, k, allocation);
      AddedSnoc(acc, r, ScaleGroups(groups[..k], allocation), Group(g.key, contribution));
      r := r[g.key := Lookup(r, g.key) + contribution];
    }
    assert groups[..|groups|] == groups;
    AddedScaled(acc, r, groups, allocation);
  }

  lemma ShareAdd(x: real, y: real, allocation: real)
    ensures Share(x + y, allocation) == Share(x, allocation) + Share(y, allocation)
    ensures Share(0.0, allocation) == 0.0
  {
  }

  lemma {:induction false} HasLabelAppend(hs: seq<Holding>, gs: seq<Holding>, d: Dimension, key: string)
    ensures HasLabel(hs + gs, d, key) <==> HasLabel(hs, d, key) || HasLabel(gs, d, key)
  {
    if HasLabel(hs + gs, d, key) {
      var k :| 0 <= k < |hs + gs| && Label((hs + gs)[k], d) == key;
      if k >= |hs| {
        assert gs[k - |hs|] == (hs + gs)[k];
      }
    }
    if HasLabel(hs, d, key) {
      var k :| 0 <= k < |hs| && Label(hs[k], d) == key;
      assert (hs + gs)[k] == hs[k];
    }
    if HasLabel(gs, d, key) {
      var k :| 0 <= k < |gs| && Label(gs[k], d) == key;
      assert (hs + gs)[|hs| + k] == gs[k];
    }
  }

  /** Scaling changes weights only, so the same labels occur. */
  lemma ScaledLabels(hs: seq<Holding>, allocation: real, d: Dimension, key: string)
    ensures HasLabel(Scaled(hs, allocation), d, key) <==> HasLabel(hs, d, key)
  {
    var ss := Scaled(hs, allocation);
    if HasLabel(ss, d, key) {
      var k :| 0 <= k < |ss| && Label(ss[k], d) == key;
      assert Label(hs[k], d) == key;
    }
    if HasLabel(hs, d, key) {
      var k :| 0 <= k < |hs| && Label(hs[k], d) == key;
      assert Label(ss[k], d) == key;
    }
  }

  /** Scaling every weight of a table scales each of its label totals alike. */
  lemma {:induction false} ScaledLabelSum(hs: seq<Holding>, allocation: real, d: Dimension, key: string)
    ensures LabelSum(Scaled(hs, allocation), d, key) == Share(LabelSum(hs, d, key), allocation)
  {
    ShareAdd(0.0, 0.0, allocation);
    if hs != [] {
      var prefix := hs[..|hs| - 1];
      var x := hs[|hs| - 1];
      assert Scaled(hs, allocation)[..|hs| - 1] == Scaled(prefix, allocation);
      ScaledLabelSum(prefix, allocation, d, key);
      ShareAdd(LabelSum(prefix, d, key), if Label(x, d) == key then x.weight else 0.0, allocation);
    }
  }

  lemma {:induction false} ScaledTotal(hs: seq<Holding>, allocation: real)
    ensures Total(Scaled(hs, allocation)) == Share(Total(hs), allocation)
  {
    ShareAdd(0.0, 0.0, allocation);
    if hs != [] {
      var prefix := hs[..|hs| - 1];
      assert Scaled(hs, allocation)[..|hs| - 1] == Scaled(prefix, allocation);
      ScaledTotal(prefix, allocation);
      ShareAdd(Total(prefix), hs[|hs| - 1].weight, allocation);
    }
  }

  lemma ContributionsSnoc(fs: seq<Fund>, f: Fund)
    ensures Contributions(fs + [f]) == Contributions(fs) + FundContributions(f)
  {
    assert (fs + [f])[..|fs|] == fs;
  }

  /**
   * The group track agrees with the holdings: a fund's grouped total for
   * `key`, scaled, is the sum of its scaled holdings labelled `key`.
   */
  lemma {:induction false} TrackAgreement(fs: seq<Fund>, d: Dimension, key: string)
    ensures GroupTrack(fs, d, key) == LabelSum(Contributions(fs), d, key)
  {
    if fs != [] {
      var prefix := fs[..|fs| - 1];
      var f := fs[|fs| - 1];
      TrackAgreement(prefix, d, key);
      LabelSumAppend(Contributions(prefix), FundContributions(f), d, key);
      match LoadAndClean(f.table)
      case None =>
      case Some(hs) => ScaledLabelSum(hs, f.allocation, d, key);
    }
  }

  lemma GroupTrackSnoc(fs: seq<Fund>, f: Fund, d: Dimension, key: string)
    ensures GroupTrack(fs + [f], d, key) == GroupTrack(fs, d, key) + FundGroupShare(f, d, key)
  {
    assert (fs + [f])[..|fs|] == fs;
  }

  lemma TrackKey(m: map<string, real>, r: map<string, real>, fs: seq<Fund>, f: Fund, hs: seq<Holding>, d: Dimension, key: string)
    requires LoadAndClean(f.table) == Some(hs)
    requires key in m <==> HasLabel(Contributions(fs), d, key)
    requires key in m ==> m[key] == GroupTrack(fs, d, key)
    requires key in r <==> key in m || key in ToMap(GroupTotals(hs, d))
    requires key in r ==> r[key] == Lookup(m, key) + Share(Lookup(ToMap(GroupTotals(hs, d)), key), f.allocation)
    ensures key in r <==> HasLabel(Contributions(fs + [f]), d, key)
    ensures key in r ==> r[key] == GroupTrack(fs + [f], d, key)
  {
    ContributionsSnoc(fs, f);
    GroupTrackSnoc(fs, f, d, key);
    GroupLookup(hs, d, key);
    HasLabelAppend(Contributions(fs), Scaled(hs, f.allocation), d, key);
    ScaledLabels(hs, f.allocation, d, key);
    if key !in m {
      TrackAgreement(fs, d, key);
      LabelSumAbsent(Contributions(fs), d, key);
    }
  }

  /** A fund whose table loads adds its grouped totals, scaled, to the track. */
  lemma TrackStep(m: map<string, real>, r: map<string, real>, fs: seq<Fund>, f: Fund, hs: seq<Holding>, d: Dimension)
    requires TrackOf(m, fs, d)
    requires LoadAndClean(f.table) == Some(hs)
    requires forall key :: key in r <==> key in m || key in ToMap(GroupTotals(hs, d))
    requires forall key :: key in r ==> r[key] == Lookup(m, key) + Share(Lookup(ToMap(GroupTotals(hs, d)), key), f.allocation)
    ensures TrackOf(r, fs + [f], d)
  {
    forall key
      ensures key in r <==> HasLabel(Contributions(fs + [f]), d, key)
      ensures key in r ==> r[key] == GroupTrack(fs + [f], d, key)
    {
      TrackKey(m, r, fs, f, hs, d, key);
    }
  }

  /** A fund whose table does not load leaves everything as it was. */
  lemma FailedStep(holdings: map<string, Entry>, sectors: map<string, real>, regions: map<string, real>, fs: seq<Fund>, f: Fund)
    requires LoadAndClean(f.table) == None
    requires HoldingsOf(holdings, Contributions(fs))
    requires TrackOf(sectors, fs, BySector) && TrackOf(regions, fs, ByRegion)
    ensures HoldingsOf(holdings, Contributions(fs + [f]))
    ensures TrackOf(sectors, fs + [f], BySector) && TrackOf(regions, fs + [f], ByRegion)
  {
    ContributionsSnoc(fs, f);
    assert Contributions(fs + [f]) == Contributions(fs);
    forall d, key
      ensures GroupTrack(fs + [f], d, key) == GroupTrack(fs, d, key)
    {
      GroupTrackSnoc(fs, f, d, key);
    }
  }

  /**
   * One pass of the fund loop: load and filter the table and, when it loads,
   * add its holdings and its sector and area totals.
   */
  method AddFund(holdings: map<string, Entry>, sectors: map<string, real>, regions: map<string, real>,
                 file: Option<seq<Row>>, weight: real, ghost fs: seq<Fund>)
    returns (holdings': map<string, Entry>, sectors': map<string, real>, regions': map<string, real>)
    requires HoldingsOf(holdings, Contributions(fs))
    requires TrackOf(sectors, fs, BySector) && TrackOf(regions, fs, ByRegion)
    ensures HoldingsOf(holdings', Contributions(fs + [Fund(file, weight)]))
    ensures TrackOf(sectors', fs + [Fund(file, weight)], BySector)
    ensures TrackOf(regions', fs + [Fund(file, weight)], ByRegion)
  {
    var table := LoadAndClean(file);
    if table.Some? {
      ContributionsSnoc(fs, Fund(file, weight));
      holdings' := AddHoldings(holdings, table.value, weight, Contributions(fs));
      var sectorGroups := GroupTotals(table.value, BySector);
      sectors' := AddGroups(sectors, sectorGroups, weight);
      TrackStep(sectors, sectors', fs, Fund(file, weight), table.value, BySector);
      var regionGroups := GroupTotals(table.value, ByRegion);
      regions' := AddGroups(regions, regionGroups, weight);
      TrackStep(regions, regions', fs, Fund(file, weight), table.value, ByRegion);
    } else {
      FailedStep(holdings, sectors, regions, fs, Fund(file, weight));
      holdings', sectors', regions' := holdings, sectors, regions;
    }
  }

  /**
   * `aggregate_portfolio_data`: the holdings map, and the sector and area
   * maps, after every fund of `zip(etf_files, weights)` has been added.
   */
  method AggregatePortfolio(files: seq<Option<seq<Row>>>, weights: seq<real>)
    returns (holdings: map<string, Entry>, sectors: map<string, real>, regions: map<string, real>)
    ensures HoldingsOf(holdings, Contributions(Zip(files, weights)))
    ensures TrackOf(sectors, Zip(files, weights), BySector)
    ensures TrackOf(regions, Zip(files, weights), ByRegion)
  {
    holdings, sectors, regions := map[], map[], map[];
    var n := if |files| <= |weights| then |files| else |weights|;
    ghost var fs := Zip(files, weights);
    ghost var seen: seq<Fund> := [];
    for i := 0 to n
      invariant seen == fs[..i]
      invariant HoldingsOf(holdings, Contributions(seen))
      invariant TrackOf(sectors, seen, BySector) && TrackOf(regions, seen, ByRegion)
    {
      holdings, sectors, regions := AddFund(holdings, sectors, regions, files[i], weights[i], seen);
      seen := seen + [Fund(files[i], weights[i])];
      assert seen == fs[..i + 1];
    }
    assert seen == fs;
  }

  /** `FirstOf` finds the contribution at the first position carrying the ticker. */
  lemma {:induction false} FirstOfIsFirst(cs: seq<Holding>, t: string)
    ensures FirstOf(cs, t).Some? <==> HasLabel(cs, ByTicker, t)
    ensures HasLabel(cs, ByTicker, t) ==> FirstOf(cs, t) == Some(cs[FirstIndex(cs, ByTicker, t)])
  {
    if cs != [] {
      var prefix := cs[..|cs| - 1];
      var x := cs[|cs| - 1];
      assert cs == prefix + [x];
      FirstOfIsFirst(prefix, t);
      HasLabelLast(cs, ByTicker, t);
      if HasLabel(prefix, ByTicker, t) {
        FirstIndexPrefix(prefix, [x], ByTicker, t);
      } else if x.ticker == t {
        FirstIndexNew(prefix, x, ByTicker);
      }
    }
  }

  lemma SeqAssociative<T>(a: seq<T>, b: seq<T>, c: seq<T>)
    ensures (a + b) + c == a + (b + c)
  {
  }

  lemma {:induction false} ContributionsAppend(fs: seq<Fund>, gs: seq<Fund>)
    ensures Contributions(fs + gs) == Contributions(fs) + Contributions(gs)
  {
    if gs != [] {
      var prefix := gs[..|gs| - 1];
      var last := FundContributions(gs[|gs| - 1]);
      assert (fs + gs)[..|fs + gs| - 1] == fs + prefix;
      assert Contributions(fs + gs) == Contributions(fs + prefix) + last;
      ContributionsAppend(fs, prefix);
      SeqAssociative(Contributions(fs), Contributions(prefix), last);
    } else {
      assert fs + gs == fs;
      assert Contributions(fs) + Contributions(gs) == Contributions(fs);
    }
  }

  lemma {:induction false} GroupTrackAppend(fs: seq<Fund>, gs: seq<Fund>, d: Dimension, key: string)
    ensures GroupTrack(fs + gs, d, key) == GroupTrack(fs, d, key) + GroupTrack(gs, d, key)
  {
    if gs != [] {
      assert (fs + gs)[..|fs + gs| - 1] == fs + gs[..|gs| - 1];
      GroupTrackAppend(fs, gs[..|gs| - 1], d, key);
    } else {
      assert fs + gs == fs;
    }
  }

  /**
   * What the aggregated holdings map holds: exactly the tickers of the loaded
   * funds; for each, the allocation-weighted sum of its weights over the
   * funds, and the name, sector and area of its first occurrence in fund
   * order, then row order.
   */
  lemma PortfolioHolding(holdings: map<string, Entry>, fs: seq<Fund>, t: string)
    requires HoldingsOf(holdings, Contributions(fs))
    ensures t in holdings <==> HasLabel(Contributions(fs), ByTicker, t)
    ensures t in holdings ==> holdings[t].weight == GroupTrack(fs, ByTicker, t)
    ensures t in holdings ==>
              var first := Contributions(fs)[FirstIndex(Contributions(fs), ByTicker, t)];
              holdings[t] == Entry(first.name, holdings[t].weight, first.sector, first.region)
  {
    FirstOfIsFirst(Contributions(fs), t);
    TrackAgreement(fs, ByTicker, t);
  }

  /** A fund whose table does not load changes nothing, wherever it stands. */
  lemma FailedFundIgnored(fs: seq<Fund>, f: Fund, gs: seq<Fund>, d: Dimension, key: string)
    requires LoadAndClean(f.table).None?
    ensures Contributions(fs + [f] + gs) == Contributions(fs + gs)
    ensures GroupTrack(fs + [f] + gs, d, key) == GroupTrack(fs + gs, d, key)
  {
    ContributionsSnoc(fs, f);
    assert Contributions(fs) + [] == Contributions(fs);
    ContributionsAppend(fs + [f], gs);
    ContributionsAppend(fs, gs);
    GroupTrackSnoc(fs, f, d, key);
    GroupTrackAppend(fs + [f], gs, d, key);
    GroupTrackAppend(fs, gs, d, key);
  }

  /** A label occurs among the contributions exactly when some fund's own contributions carry it. */
  lemma {:induction false} HasLabelContributions(fs: seq<Fund>, d: Dimension, key: string)
    ensures HasLabel(Contributions(fs), d, key) <==> exists f :: f in fs && HasLabel(FundContributions(f), d, key)
  {
    if fs != [] {
      var prefix, last := fs[..|fs| - 1], fs[|fs| - 1];
      assert fs == prefix + [last];
      HasLabelContributions(prefix, d, key);
      HasLabelAppend(Contributions(prefix), FundContributions(last), d, key);
    }
  }

  /** Funds with the same multiset give maps with the same keys. */
  lemma KeysPermutation(fs: seq<Fund>, gs: seq<Fund>, d: Dimension, key: string)
    requires multiset(fs) == multiset(gs)
    ensures HasLabel(Contributions(fs), d, key) <==> HasLabel(Contributions(gs), d, key)
  {
    HasLabelContributions(fs, d, key);
    HasLabelContributions(gs, d, key);
    forall f
      ensures f in fs <==> f in gs
    {
      assert f in fs <==> f in multiset(fs);
      assert f in gs <==> f in multiset(gs);
    }
  }

  lemma MultisetRemove<T>(s: seq<T>, i: nat)
    requires i < |s|
    ensures multiset(s[..i] + s[i + 1..]) == multiset(s) - multiset{s[i]}
  {
    assert s == s[..i] + [s[i]] + s[i + 1..];
  }

  /** Taking out the fund at position `i` removes exactly its share of the track. */
  lemma GroupTrackRemove(gs: seq<Fund>, i: nat, d: Dimension, key: string)
    requires i < |gs|
    ensures GroupTrack(gs, d, key) == GroupTrack(gs[..i] + gs[i + 1..], d, key) + FundGroupShare(gs[i], d, key)
  {
    assert gs == (gs[..i] + [gs[i]]) + gs[i + 1..];
    GroupTrackAppend(gs[..i] + [gs[i]], gs[i + 1..], d, key);
    GroupTrackSnoc(gs[..i], gs[i], d, key);
    GroupTrackAppend(gs[..i], gs[i + 1..], d, key);
  }

  /** Any reordering of the funds gives the same group track. */
  lemma {:induction false} GroupTrackPermutation(fs: seq<Fund>, gs: seq<Fund>, d: Dimension, key: string)
    requires multiset(fs) == multiset(gs)
    ensures GroupTrack(fs, d, key) == GroupTrack(gs, d, key)
    decreases |fs|
  {
    if fs == [] {
      assert |gs| == |multiset(gs)| == 0;
    } else {
      var rest, f := fs[..|fs| - 1], fs[|fs| - 1];
      assert fs == rest + [f];
      assert f in multiset(gs);
      var i :| 0 <= i < |gs| && gs[i] == f;
      var others := gs[..i] + gs[i + 1..];
      MultisetRemove(fs, |fs| - 1);
      assert fs[..|fs| - 1] + fs[|fs|..] == rest;
      MultisetRemove(gs, i);
      GroupTrackPermutation(rest, others, d, key);
      GroupTrackSnoc(rest, f, d, key);
      GroupTrackRemove(gs, i, d, key);
    }
  }

  /**
   * Any reordering of the funds gives the same holding weights, the same
   * sector and area totals, and the same keys in all three maps.
   */
  lemma FundOrderIrrelevant(fs: seq<Fund>, gs: seq<Fund>, d: Dimension, key: string)
    requires multiset(fs) == multiset(gs)
    ensures GroupTrack(fs, d, key) == GroupTrack(gs, d, key)
    ensures LabelSum(Contributions(fs), d, key) == LabelSum(Contributions(gs), d, key)
    ensures HasLabel(Contributions(fs), d, key) <==> HasLabel(Contributions(gs), d, key)
  {
    GroupTrackPermutation(fs, gs, d, key);
    TrackAgreement(fs, d, key);
    TrackAgreement(gs, d, key);
    KeysPermutation(fs, gs, d, key);
  }

  lemma {:induction false} FirstOfPrefix(cs: seq<Holding>, more: seq<Holding>, t: string)
    requires FirstOf(cs, t).Some?
    ensures FirstOf(cs + more, t) == FirstOf(cs, t)
  {
    if more != [] {
      assert (cs + more)[..|cs + more| - 1] == cs + more[..|more| - 1];
      FirstOfPrefix(cs, more[..|more| - 1], t);
    } else {
      assert cs + more == cs;
    }
  }

  /**
   * First write wins across funds: once a ticker occurs in the earlier funds,
   * later funds never change the entry's name, sector or area.
   */
  lemma EarlierFundWins(fs: seq<Fund>, gs: seq<Fund>, t: string)
    requires HasLabel(Contributions(fs), ByTicker, t)
    ensures FirstOf(Contributions(fs + gs), t) == FirstOf(Contributions(fs), t)
  {
    FirstOfIsFirst(Contributions(fs), t);
    ContributionsAppend(fs, gs);
    FirstOfPrefix(Contributions(fs), Contributions(gs), t);
  }

  lemma {:induction false} TotalAppend(hs: seq<Holding>, gs: seq<Holding>)
    ensures Total(hs + gs) == Total(hs) + Total(gs)
  {
    if gs != [] {
      assert (hs + gs)[..|hs + gs| - 1] == hs + gs[..|gs| - 1];
      TotalAppend(hs, gs[..|gs| - 1]);
    } else {
      assert hs + gs == hs;
    }
  }

  /** The contributions add up to the allocation-weighted total of every loaded fund. */
  lemma {:induction false} ContributionsMass(fs: seq<Fund>)
    ensures Total(Contributions(fs)) == FundMass(fs)
  {
    if fs != [] {
      var prefix := fs[..|fs| - 1];
      var f := fs[|fs| - 1];
      ContributionsMass(prefix);
      TotalAppend(Contributions(prefix), FundContributions(f));
      match LoadAndClean(f.table)
      case None =>
      case Some(hs) => ScaledTotal(hs, f.allocation);
    }
  }

  /** Sum of the weights of the entries of `ts`, a missing entry counting as 0. */
  function SumWeights(m: map<string, Entry>, ts: seq<string>): real
  {
    if ts == [] then 0.0
    else SumWeights(m, ts[..|ts| - 1]) + if ts[|ts| - 1] in m then m[ts[|ts| - 1]].weight else 0.0
  }

  /** Sum of the values of the keys `ls`, a missing key counting as 0. */
  function SumValues(m: map<string, real>, ls: seq<string>): real
  {
    if ls == [] then 0.0 else SumValues(m, ls[..|ls| - 1]) + Lookup(m, ls[|ls| - 1])
  }

  lemma {:induction false} SumWeightsOver(m: map<string, Entry>, ts: seq<string>, cs: seq<Holding>)
    requires HoldingsOf(m, cs)
    ensures SumWeights(m, ts) == SumOver(ts, cs, ByTicker)
  {
    if ts != [] {
      SumWeightsOver(m, ts[..|ts| - 1], cs);
      var t := ts[|ts| - 1];
      if t !in m {
        LabelSumAbsentFirst(cs, t);
      }
    }
  }

  lemma {:induction false} SumValuesOver(m: map<string, real>, ls: seq<string>, fs: seq<Fund>, d: Dimension)
    requires TrackOf(m, fs, d)
    ensures SumValues(m, ls) == SumOver(ls, Contributions(fs), d)
  {
    if ls != [] {
      SumValuesOver(m, ls[..|ls| - 1], fs, d);
      var key := ls[|ls| - 1];
      TrackAgreement(fs, d, key);
      if key !in m {
        LabelSumAbsent(Contributions(fs), d, key);
      }
    }
  }

  /**
   * Mass conservation: the holdings weights, the sector totals and the area
   * totals each add up to the allocation-weighted total of the loaded funds,
   * every key being counted once.
   */
  lemma PortfolioMass(holdings: map<string, Entry>, sectors: map<string, real>, regions: map<string, real>, fs: seq<Fund>)
    requires HoldingsOf(holdings, Contributions(fs))
    requires TrackOf(sectors, fs, BySector) && TrackOf(regions, fs, ByRegion)
    ensures forall t :: t in holdings <==> t in DistinctLabels(Contributions(fs), ByTicker)
    ensures SumWeights(holdings, DistinctLabels(Contributions(fs), ByTicker)) == FundMass(fs)
    ensures SumValues(sectors, DistinctLabels(Contributions(fs), BySector)) == FundMass(fs)
    ensures SumValues(regions, DistinctLabels(Contributions(fs), ByRegion)) == FundMass(fs)
  {
    var cs := Contributions(fs);
    forall t
      ensures t in holdings <==> t in DistinctLabels(cs, ByTicker)
    {
      FirstOfIsFirst(cs, t);
    }
    ContributionsMass(fs);
    SumWeightsOver(holdings, DistinctLabels(cs, ByTicker), cs);
    LabelTotalsConserveMass(cs, ByTicker);
    SumValuesOver(sectors, DistinctLabels(cs, BySector), fs, BySector);
    LabelTotalsConserveMass(cs, BySector);
    SumValuesOver(regions, DistinctLabels(cs, ByRegion), fs, ByRegion);
    LabelTotalsConserveMass(cs, ByRegion);
  }
}
