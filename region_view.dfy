/**
 * The region page: the regional performance of all campaigns merged per
 * region name (amounts summed, other fields kept from the first entry of the
 * region), each region's return on ad spend, and the points placed on the
 * map for the regions whose coordinates are known.
 */
module RegionView {
  import opened Dataset
  import opened InsertionOrder

  // ---------------------------------------------------------------------
  // The stream of regional entries

  /** Every regional entry of every campaign, in the order of the nested
      iteration (campaigns outside, regions inside). */
  function AllRegions(cs: seq<Campaign>): seq<RegionalPerformance> {
    if cs == [] then []
    else AllRegions(cs[..|cs| - 1]) + cs[|cs| - 1].regionalPerformance
  }

  lemma AllRegionsStep(cs: seq<Campaign>, i: nat)
    requires i < |cs|
    ensures AllRegions(cs[..i + 1]) == AllRegions(cs[..i]) + cs[i].regionalPerformance
  {
    assert cs[..i + 1][..i] == cs[..i];
  }

  lemma {:induction false} AllRegionsAppend(cs: seq<Campaign>, ds: seq<Campaign>)
    ensures AllRegions(cs + ds) == AllRegions(cs) + AllRegions(ds)
  {
    if ds == [] {
      assert cs + ds == cs;
    } else {
      var init, last := ds[..|ds| - 1], ds[|ds| - 1];
      assert (cs + ds)[..|cs + ds| - 1] == cs + init;
      assert (cs + ds)[|cs + ds| - 1] == last;
      AllRegionsAppend(cs, init);
      assert AllRegions(cs + ds) == (AllRegions(cs) + AllRegions(init)) + last.regionalPerformance;
    }
  }

  // ---------------------------------------------------------------------
  // What the merged entry of a region is

  /** The summed amounts of a region. */
  datatype RegionSums = RegionSums(spend: real, revenue: real, conversions: int, impressions: int, clicks: int)

  const NothingSpent := RegionSums(0.0, 0.0, 0, 0, 0)

  /** The region names of the entries, in order. */
  function RegionNamesOf(xs: seq<RegionalPerformance>): (names: seq<string>)
    ensures |names| == |xs|
  {
    if xs == [] then [] else RegionNamesOf(xs[..|xs| - 1]) + [xs[|xs| - 1].region]
  }

  /** The amounts of the entries of region `r`, summed. */
  function SumsFor(xs: seq<RegionalPerformance>, r: string): RegionSums {
    if xs == [] then NothingSpent
    else
      var acc, x := SumsFor(xs[..|xs| - 1], r), xs[|xs| - 1];
      if x.region == r then
        RegionSums(acc.spend + x.spend, acc.revenue + x.revenue, acc.conversions + x.conversions,
                   acc.impressions + x.impressions, acc.clicks + x.clicks)
      else acc
  }

  /** The first entry of region `r`: the merged entry keeps its other fields. */
  function FirstEntry(xs: seq<RegionalPerformance>, r: string): (e: RegionalPerformance)
    requires r in RegionNamesOf(xs)
    ensures e == xs[FirstIndex(RegionNamesOf(xs), r)]
  {
    var init, last := xs[..|xs| - 1], xs[|xs| - 1];
    assert RegionNamesOf(xs) == RegionNamesOf(init) + [last.region];
    if r in RegionNamesOf(init) then
      FirstIndexOfPrefix(RegionNamesOf(init), last.region, r);
      FirstEntry(init, r)
    else
      last
  }

  lemma FirstEntrySnoc(xs: seq<RegionalPerformance>, x: RegionalPerformance, r: string)
    requires r in RegionNamesOf(xs) || r == x.region
    ensures r in RegionNamesOf(xs + [x])
    ensures FirstEntry(xs + [x], r) == if r in RegionNamesOf(xs) then FirstEntry(xs, r) else x
  {
    assert (xs + [x])[..|xs|] == xs;
    assert RegionNamesOf(xs + [x]) == RegionNamesOf(xs) + [x.region];
  }

  /** An entry with its amounts replaced by `s`. */
  function WithSums(p: RegionalPerformance, s: RegionSums): RegionalPerformance {
    p.(spend := s.spend, revenue := s.revenue, conversions := s.conversions,
       impressions := s.impressions, clicks := s.clicks)
  }

  /** The merged entry of region `r` after the entries `xs`. */
  function Merged(xs: seq<RegionalPerformance>, r: string): RegionalPerformance
    requires r in RegionNamesOf(xs)
  {
    WithSums(FirstEntry(xs, r), SumsFor(xs, r))
  }

  lemma RegionSnoc(xs: seq<RegionalPerformance>, x: RegionalPerformance, r: string)
    ensures RegionNamesOf(xs + [x]) == RegionNamesOf(xs) + [x.region]
    ensures var s := SumsFor(xs, r);
      SumsFor(xs + [x], r) == if x.region == r then
        RegionSums(s.spend + x.spend, s.revenue + x.revenue, s.conversions + x.conversions,
                   s.impressions + x.impressions, s.clicks + x.clicks)
      else s
  {
    assert (xs + [x])[..|xs|] == xs;
  }

  lemma {:induction false} SumsUnseen(xs: seq<RegionalPerformance>, r: string)
    requires r !in RegionNamesOf(xs)
    ensures SumsFor(xs, r) == NothingSpent
  {
    if xs != [] {
      var init := xs[..|xs| - 1];
      assert RegionNamesOf(xs) == RegionNamesOf(init) + [xs[|xs| - 1].region];
      SumsUnseen(init, r);
    }
  }

  /** The dictionary after the entries `xs`: keys in order of first
      appearance, each holding the region's merged entry. */
  ghost predicate RegionTableAfter(order: seq<string>, table: map<string, RegionalPerformance>, xs: seq<RegionalPerformance>) {
    && order == FirstAppearances(RegionNamesOf(xs))
    && (forall r :: r in table <==> r in order)
    && (forall r :: r in table ==> r in RegionNamesOf(xs) && table[r] == Merged(xs, r))
  }

  /** The entry a region starts from: a copy of its first entry with the
      amounts zeroed. */
  function Cleared(x: RegionalPerformance): RegionalPerformance {
    x.(spend := 0.0, revenue := 0.0, conversions := 0, impressions := 0, clicks := 0)
  }

  /** `entry` with the amounts of `x` added. */
  function Accrued(entry: RegionalPerformance, x: RegionalPerformance): RegionalPerformance {
    entry.(spend := entry.spend + x.spend, revenue := entry.revenue + x.revenue,
           conversions := entry.conversions + x.conversions,
           impressions := entry.impressions + x.impressions, clicks := entry.clicks + x.clicks)
  }

  lemma AccruedWithSums(e: RegionalPerformance, s: RegionSums, x: RegionalPerformance)
    ensures Accrued(WithSums(e, s), x) == WithSums(e, RegionSums(s.spend + x.spend, s.revenue + x.revenue,
      s.conversions + x.conversions, s.impressions + x.impressions, s.clicks + x.clicks))
  {
  }

  /** One more entry changes only the merged entry of its own region: a
      region seen before accrues the amounts, a new one starts from the
      entry itself with zeroed amounts. */
  lemma MergedSnoc(xs: seq<RegionalPerformance>, x: RegionalPerformance, r: string)
    requires r in RegionNamesOf(xs) || r == x.region
    ensures r in RegionNamesOf(xs + [x])
    ensures Merged(xs + [x], r) ==
      if r != x.region then Merged(xs, r)
      else Accrued(if r in RegionNamesOf(xs) then Merged(xs, r) else Cleared(x), x)
  {
    var ys := xs + [x];
    RegionSnoc(xs, x, r);
    FirstEntrySnoc(xs, x, r);
    if r != x.region {
      assert Merged(ys, r) == Merged(xs, r);
    } else if r in RegionNamesOf(xs) {
      var e, s := FirstEntry(xs, r), SumsFor(xs, r);
      AccruedWithSums(e, s, x);
      assert FirstEntry(ys, r) == e;
      assert SumsFor(ys, r) == RegionSums(s.spend + x.spend, s.revenue + x.revenue,
        s.conversions + x.conversions, s.impressions + x.impressions, s.clicks + x.clicks);
      assert Merged(ys, r) == WithSums(e, SumsFor(ys, r));
    } else {
      SumsUnseen(xs, r);
      AccruedWithSums(x, NothingSpent, x);
      assert Cleared(x) == WithSums(x, NothingSpent);
      var s := NothingSpent;
      assert FirstEntry(ys, r) == x;
      assert SumsFor(ys, r) == RegionSums(s.spend + x.spend, s.revenue + x.revenue,
        s.conversions + x.conversions, s.impressions + x.impressions, s.clicks + x.clicks);
      assert Merged(ys, r) == WithSums(x, SumsFor(ys, r));
    }
  }

  /** One more entry: its region is created from the entry with zeroed
      amounts if absent, then the entry's amounts are added to it. */
  lemma RegionTableStep(order: seq<string>, table: map<string, RegionalPerformance>,
                        xs: seq<RegionalPerformance>, x: RegionalPerformance,
                        order': seq<string>, table': map<string, RegionalPerformance>)
    requires RegionTableAfter(order, table, xs)
    requires order' == if x.region in table then order else order + [x.region]
    requires table' == table[x.region := Accrued(if x.region in table then table[x.region] else Cleared(x), x)]
    ensures RegionTableAfter(order', table', xs + [x])
  {
    RegionKeysStep(order, table, xs, x, order', table', Accrued(if x.region in table then table[x.region] else Cleared(x), x));
    RegionEntriesStep(order, table, xs, x, table');
  }

  /** The key order after one more entry, and the keys of the dictionary
      still those of the key order. */
  lemma RegionKeysStep(order: seq<string>, table: map<string, RegionalPerformance>,
                       xs: seq<RegionalPerformance>, x: RegionalPerformance,
                       order': seq<string>, table': map<string, RegionalPerformance>, entry: RegionalPerformance)
    requires RegionTableAfter(order, table, xs)
    requires order' == if x.region in table then order else order + [x.region]
    requires table' == table[x.region := entry]
    ensures order' == FirstAppearances(RegionNamesOf(xs + [x]))
    ensures forall r :: r in table' <==> r in order'
  {
    RegionSnoc(xs, x, x.region);
    FirstAppearancesSnoc(RegionNamesOf(xs), x.region);
  }

  /** The merged entries after one more entry. */
  lemma RegionEntriesStep(order: seq<string>, table: map<string, RegionalPerformance>,
                          xs: seq<RegionalPerformance>, x: RegionalPerformance,
                          table': map<string, RegionalPerformance>)
    requires RegionTableAfter(order, table, xs)
    requires table' == table[x.region := Accrued(if x.region in table then table[x.region] else Cleared(x), x)]
    ensures forall r :: r in table' ==> r in RegionNamesOf(xs + [x]) && table'[r] == Merged(xs + [x], r)
  {
    assert x.region in table <==> x.region in RegionNamesOf(xs);
    forall r | r in table' ensures r in RegionNamesOf(xs + [x]) && table'[r] == Merged(xs + [x], r) {
      MergedSnoc(xs, x, r);
    }
  }

  lemma PrefixStep(done: seq<RegionalPerformance>, xs: seq<RegionalPerformance>, j: nat)
    requires j < |xs|
    ensures (done + xs[..j]) + [xs[j]] == done + xs[..j + 1]
  {
    assert xs[..j + 1] == xs[..j] + [xs[j]];
  }

  /** The inner callback, run for one entry: a region met for the first time
      starts from a copy of the entry with the amounts zeroed, then the
      entry's amounts are added to it. */
  method MergeRegion(regionPerf: RegionalPerformance, order: seq<string>, table: map<string, RegionalPerformance>,
                     ghost seen: seq<RegionalPerformance>)
    returns (order': seq<string>, table': map<string, RegionalPerformance>)
    requires RegionTableAfter(order, table, seen)
    ensures RegionTableAfter(order', table', seen + [regionPerf])
  {
    var entry := if regionPerf.region in table then table[regionPerf.region] else Cleared(regionPerf);
    order' := if regionPerf.region in table then order else order + [regionPerf.region];
    table' := table[regionPerf.region := Accrued(entry, regionPerf)];
    RegionTableStep(order, table, seen, regionPerf, order', table');
  }

  /** The callback run for one campaign: merges each of its regional entries
      into the dictionary. */
  method TallyRegions(campaign: Campaign, order: seq<string>, table: map<string, RegionalPerformance>,
                      ghost done: seq<RegionalPerformance>)
    returns (order': seq<string>, table': map<string, RegionalPerformance>)
    requires RegionTableAfter(order, table, done)
    ensures RegionTableAfter(order', table', done + campaign.regionalPerformance)
  {
    order', table' := order, table;
    var regions := campaign.regionalPerformance;
    assert done + regions[..0] == done;
    for j := 0 to |regions|
      invariant RegionTableAfter(order', table', done + regions[..j])
    {
      order', table' := MergeRegion(regions[j], order', table', done + regions[..j]);
      PrefixStep(done, regions, j);
    }
    assert regions[..|regions|] == regions;
  }

  // ---------------------------------------------------------------------
  // Return on ad spend and the merged list

  /** Revenue per unit of spend, 0 when nothing was spent. */
  function Roas(revenue: real, spend: real): (r: real)
    ensures spend > 0.0 ==> r * spend == revenue
    ensures spend <= 0.0 ==> r == 0.0
    ensures spend > 0.0 && revenue >= 0.0 ==> r >= 0.0
  {
    if spend > 0.0 then revenue / spend else 0.0
  }

  /** A merged region with its return on ad spend. */
  datatype RegionRow = RegionRow(performance: RegionalPerformance, roas: real)

  /** The rows for the entries `xs`: one per distinct region name, in order
      of first appearance, holding the region's first entry with the summed
      amounts and the return on ad spend of those sums. */
  ghost predicate MergedRows(xs: seq<RegionalPerformance>, rows: seq<RegionRow>) {
    var names := FirstAppearances(RegionNamesOf(xs));
      && |rows| == |names|
      && forall k :: 0 <= k < |rows| ==>
           && names[k] in RegionNamesOf(xs)
           && rows[k].performance == WithSums(FirstEntry(xs, names[k]), SumsFor(xs, names[k]))
           && rows[k].roas == Roas(SumsFor(xs, names[k]).revenue, SumsFor(xs, names[k]).spend)
  }

  /** One row per distinct region name of all regional entries, in order of
      first appearance, holding the region's first entry with the summed
      amounts and the return on ad spend of those sums. */
  method RegionalPerformance(data: Option<seq<Campaign>>) returns (rows: seq<RegionRow>)
    ensures CampaignsOrEmpty(data) == [] ==> rows == []
    ensures MergedRows(AllRegions(CampaignsOrEmpty(data)), rows)
  {
    if data.None? {
      return [];
    }
    var campaigns := data.value;
    var order: seq<string> := [];
    var table: map<string, RegionalPerformance> := map[];
    for i := 0 to |campaigns|
      invariant RegionTableAfter(order, table, AllRegions(campaigns[..i]))
    {
      AllRegionsStep(campaigns, i);
      order, table := TallyRegions(campaigns[i], order, table, AllRegions(campaigns[..i]));
    }
    assert campaigns[..|campaigns|] == campaigns;
    rows := RowsOf(order, table, AllRegions(campaigns));
  }

  /** The final `map` over the dictionary's values: each merged entry in
      key order, with its return on ad spend. */
  method RowsOf(order: seq<string>, table: map<string, RegionalPerformance>, ghost xs: seq<RegionalPerformance>)
    returns (rows: seq<RegionRow>)
    requires RegionTableAfter(order, table, xs)
    ensures MergedRows(xs, rows)
  {
    rows := seq(|order|, k requires 0 <= k < |order| =>
      var p := table[order[k]];
      RegionRow(p, if p.spend > 0.0 then p.revenue / p.spend else 0.0));
  }

  /** Sums over two runs of entries add up, so the order and grouping of
      campaigns do not change a region's amounts. */
  lemma {:induction false} SumsAppend(xs: seq<RegionalPerformance>, ys: seq<RegionalPerformance>, r: string)
    ensures var a, b, c := SumsFor(xs, r), SumsFor(ys, r), SumsFor(xs + ys, r);
      c == RegionSums(a.spend + b.spend, a.revenue + b.revenue, a.conversions + b.conversions,
                      a.impressions + b.impressions, a.clicks + b.clicks)
  {
    if ys == [] {
      assert xs + ys == xs;
    } else {
      var init := ys[..|ys| - 1];
      assert (xs + ys)[..|xs + ys| - 1] == xs + init;
      SumsAppend(xs, init, r);
    }
  }

  /** Two entries for the same region from different campaigns. */
  const DubaiFirst := Dataset.RegionalPerformance("Dubai", "UAE", 100.0, 400.0, 4, 1000, 50)
  const DubaiSecond := Dataset.RegionalPerformance("Dubai", "AE", 300.0, 200.0, 2, 500, 25)

  /** Two campaigns, each reporting one "Dubai" entry. */
  const DubaiCampaigns := [Campaign(0.0, 0.0, [], [], [DubaiFirst], []), Campaign(0.0, 0.0, [], [], [DubaiSecond], [])]

  lemma NamesOfPair(a: RegionalPerformance, b: RegionalPerformance)
    ensures RegionNamesOf([a, b]) == [a.region, b.region]
  {
    assert [a, b][..1] == [a];
    assert [a][..0] == [];
  }

  /** The two entries give a single row. */
  lemma MergeExampleRows()
    ensures RegionNamesOf([DubaiFirst, DubaiSecond]) == ["Dubai", "Dubai"]
    ensures FirstAppearances(RegionNamesOf([DubaiFirst, DubaiSecond])) == ["Dubai"]
  {
    NamesOfPair(DubaiFirst, DubaiSecond);
    RepeatedKey("Dubai");
  }

  /** That row adds up the amounts and keeps the country of the first
      entry; its return on ad spend, taken over the summed amounts, is 1.5. */
  lemma MergeExample()
    ensures "Dubai" in RegionNamesOf([DubaiFirst, DubaiSecond])
    ensures var m := Merged([DubaiFirst, DubaiSecond], "Dubai");
      && m == Dataset.RegionalPerformance("Dubai", "UAE", 400.0, 600.0, 6, 1500, 75)
      && Roas(m.revenue, m.spend) == 1.5
  {
    assert [] + [DubaiFirst] == [DubaiFirst] && [DubaiFirst] + [DubaiSecond] == [DubaiFirst, DubaiSecond];
    MergedSnoc([], DubaiFirst, "Dubai");
    MergedSnoc([DubaiFirst], DubaiSecond, "Dubai");
  }

  /** Whatever satisfies the page's contract on the two campaigns is the
      single merged Dubai row with a return on ad spend of 1.5. */
  lemma MergeExampleResult(rows: seq<RegionRow>)
    requires MergedRows(AllRegions(DubaiCampaigns), rows)
    ensures rows == [RegionRow(Dataset.RegionalPerformance("Dubai", "UAE", 400.0, 600.0, 6, 1500, 75), 1.5)]
  {
    var xs := AllRegions(DubaiCampaigns);
    assert xs == [DubaiFirst, DubaiSecond] by {
      AllRegionsStep(DubaiCampaigns, 0);
      AllRegionsStep(DubaiCampaigns, 1);
      assert DubaiCampaigns[..0] == [] && DubaiCampaigns[..2] == DubaiCampaigns;
    }
    MergeExampleRows();
    MergeExample();
    assert rows[0].performance == Merged(xs, "Dubai");
  }

  // ---------------------------------------------------------------------
  // Map points

  datatype LatLng = LatLng(lat: real, lng: real)

  /** The coordinates the page knows, by region name. */
  const RegionCoordinates: map<string, LatLng> := map[
    "Abu Dhabi" := LatLng(24.4539, 54.3773),
    "Dubai" := LatLng(25.2048, 55.2708),
    "Sharjah" := LatLng(25.3463, 55.4209),
    "Riyadh" := LatLng(24.7136, 46.6753),
    "Jeddah" := LatLng(21.4858, 39.1925),
    "Doha" := LatLng(25.2854, 51.5310),
    "Kuwait City" := LatLng(29.3759, 47.9774),
    "Manama" := LatLng(26.2285, 50.5860),
    "Muscat" := LatLng(23.5880, 58.3829),
    "Cairo" := LatLng(30.0444, 31.2357)
  ]

  datatype MapPoint = MapPoint(name: string, coordinates: LatLng, revenue: real, spend: real)

  /** The point of a row whose region has coordinates in `coordinates`. */
  function PointOf(row: RegionRow, coordinates: map<string, LatLng>): MapPoint
    requires row.performance.region in coordinates
  {
    var p := row.performance;
    MapPoint(p.region, coordinates[p.region], p.revenue, p.spend)
  }

  /** The rows placed on the map: those whose region has coordinates, in
      order, the others dropped.  The page passes `RegionCoordinates`; the
      properties below hold for any coordinate table. */
  function MapData(rows: seq<RegionRow>, coordinates: map<string, LatLng>): (points: seq<MapPoint>)
    ensures |points| <= |rows|
    ensures forall p :: p in points ==> p.name in coordinates && p.coordinates == coordinates[p.name]
    ensures forall k :: 0 <= k < |rows| && rows[k].performance.region in coordinates ==> PointOf(rows[k], coordinates) in points
  {
    if rows == [] then []
    else
      var init, last := rows[..|rows| - 1], rows[|rows| - 1];
      var points := MapData(init, coordinates);
      assert forall k :: 0 <= k < |init| ==> init[k] == rows[k];
      if last.performance.region in coordinates then points + [PointOf(last, coordinates)] else points
  }

  /** Every point comes from a row with a known region, with that row's
      revenue and spend. */
  lemma {:induction false} PointsFromRows(rows: seq<RegionRow>, coordinates: map<string, LatLng>, p: MapPoint)
    requires p in MapData(rows, coordinates)
    ensures exists k :: 0 <= k < |rows| && rows[k].performance.region in coordinates && p == PointOf(rows[k], coordinates)
  {
    var init, last := rows[..|rows| - 1], rows[|rows| - 1];
    if p in MapData(init, coordinates) {
      PointsFromRows(init, coordinates, p);
      var k :| 0 <= k < |init| && init[k].performance.region in coordinates && p == PointOf(init[k], coordinates);
      assert rows[k] == init[k];
    } else {
      assert rows[|rows| - 1] == last;
    }
  }

  /** The points of a list are the points of its parts, in the same order. */
  lemma {:induction false} MapDataAppend(rows: seq<RegionRow>, more: seq<RegionRow>, coordinates: map<string, LatLng>)
    ensures MapData(rows + more, coordinates) == MapData(rows, coordinates) + MapData(more, coordinates)
  {
    if more == [] {
      assert rows + more == rows;
    } else {
      var init := more[..|more| - 1];
      assert (rows + more)[..|rows + more| - 1] == rows + init;
      MapDataAppend(rows, init, coordinates);
    }
  }

  /** When every region is known, every row becomes a point. */
  lemma {:induction false} AllLocated(rows: seq<RegionRow>, coordinates: map<string, LatLng>)
    requires forall k :: 0 <= k < |rows| ==> rows[k].performance.region in coordinates
    ensures |MapData(rows, coordinates)| == |rows|
    ensures forall k :: 0 <= k < |rows| ==> MapData(rows, coordinates)[k] == PointOf(rows[k], coordinates)
  {
    if rows != [] {
      var init, last := rows[..|rows| - 1], rows[|rows| - 1];
      AllLocated(init, coordinates);
      var points := MapData(init, coordinates) + [PointOf(last, coordinates)];
      assert MapData(rows, coordinates) == points;
      forall k | 0 <= k < |rows| ensures points[k] == PointOf(rows[k], coordinates) {
        if k < |init| {
          assert rows[k] == init[k];
        }
      }
    }
  }

  /** A region without coordinates, such as a misspelt name, is not shown. */
  lemma UnknownRegionDropped(row: RegionRow, coordinates: map<string, LatLng>)
    requires row.performance.region !in coordinates
    ensures MapData([row], coordinates) == []
  {
    assert [row][..0] == [];
  }

  /** On the page's own table a Dubai row is placed at Dubai's coordinates,
      while a row named in lower case is dropped. */
  lemma PageCoordinatesExample(row: RegionRow)
    requires row.performance.region == "Dubai"
    ensures MapData([row], RegionCoordinates) == [MapPoint("Dubai", LatLng(25.2048, 55.2708), row.performance.revenue, row.performance.spend)]
    ensures "dubai" !in RegionCoordinates
  {
    assert [row][..0] == [];
  }
}
