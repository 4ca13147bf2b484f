/**
 * The weekly page: a campaign's weekly entries are numbered by position
 * (the first is week 1), all campaigns' entries of the same week are summed
 * into one bucket, and the buckets become two chart series, revenue and
 * spend, in ascending week order.
 *
 * The spend bucket accumulates each week's revenue, not its spend; the
 * model keeps that behaviour and states it (`WeeklyPerformance`,
 * `SpendBucketIgnoresSpend`).
 */
module WeeklyView {
  import opened Dataset

  // ---------------------------------------------------------------------
  // What each bucket holds

  datatype WeekBucket = WeekBucket(revenue: real, spend: real)

  function Max(a: nat, b: nat): (m: nat)
    ensures m >= a && m >= b && (m == a || m == b)
  {
    if a >= b then a else b
  }

  /** The length of the longest weekly list among the campaigns. */
  function MaxWeeks(cs: seq<Campaign>): (n: nat)
    ensures forall i :: 0 <= i < |cs| ==> |cs[i].weeklyPerformance| <= n
    ensures cs != [] ==> exists i :: 0 <= i < |cs| && |cs[i].weeklyPerformance| == n
    ensures cs == [] ==> n == 0
  {
    if cs == [] then 0
    else
      var init := cs[..|cs| - 1];
      assert forall i :: 0 <= i < |init| ==> init[i] == cs[i];
      Max(MaxWeeks(init), |cs[|cs| - 1].weeklyPerformance|)
  }

  /** The revenue campaign `c` reports for week `k`, 0 when its list is
      shorter than `k` weeks. */
  function WeekContribution(c: Campaign, k: nat): real {
    if 1 <= k <= |c.weeklyPerformance| then c.weeklyPerformance[k - 1].revenue else 0.0
  }

  /** Week `k`'s revenue: the sum of the `k`-th weekly entry's revenue over
      the campaigns that have one. */
  function WeekRevenue(cs: seq<Campaign>, k: nat): real {
    if cs == [] then 0.0 else WeekRevenue(cs[..|cs| - 1], k) + WeekContribution(cs[|cs| - 1], k)
  }

  /** The same sum over the weekly entries' own spend, which the page does
      not use. */
  function WeekSpend(cs: seq<Campaign>, k: nat): real {
    if cs == [] then 0.0
    else
      var c := cs[|cs| - 1];
      WeekSpend(cs[..|cs| - 1], k) + (if 1 <= k <= |c.weeklyPerformance| then c.weeklyPerformance[k - 1].spend else 0.0)
  }

  lemma CampaignsSnoc(cs: seq<Campaign>, c: Campaign, k: nat)
    ensures WeekRevenue(cs + [c], k) == WeekRevenue(cs, k) + WeekContribution(c, k)
    ensures MaxWeeks(cs + [c]) == Max(MaxWeeks(cs), |c.weeklyPerformance|)
  {
    assert (cs + [c])[..|cs|] == cs;
  }

  /** No campaign reaches a week beyond the longest list. */
  lemma {:induction false} BeyondLastWeek(cs: seq<Campaign>, k: nat)
    requires k > MaxWeeks(cs)
    ensures WeekRevenue(cs, k) == 0.0
  {
    if cs != [] {
      var init := cs[..|cs| - 1];
      assert forall i :: 0 <= i < |init| ==> init[i] == cs[i];
      BeyondLastWeek(init, k);
    }
  }

  /** The dictionary after the campaigns `cs`: weeks 1 to the longest list
      length are present, and both fields of week `k` hold week `k`'s
      revenue. */
  ghost predicate WeeksAfter(weeklyData: map<nat, WeekBucket>, cs: seq<Campaign>) {
    && (forall k :: k in weeklyData <==> 1 <= k <= MaxWeeks(cs))
    && (forall k :: k in weeklyData ==>
          weeklyData[k].revenue == WeekRevenue(cs, k) && weeklyData[k].spend == WeekRevenue(cs, k))
  }

  /** The dictionary part-way through campaign `c`: the campaigns `done`
      and the first `index` weekly entries of `c` are counted. */
  ghost predicate WeeksPartly(weeklyData: map<nat, WeekBucket>, done: seq<Campaign>, c: Campaign, index: nat) {
    && (forall k :: k in weeklyData <==> 1 <= k <= Max(MaxWeeks(done), index))
    && (forall k :: k in weeklyData ==>
          && weeklyData[k].revenue == WeekRevenue(done, k) + (if k <= index then WeekContribution(c, k) else 0.0)
          && weeklyData[k].spend == WeekRevenue(done, k) + (if k <= index then WeekContribution(c, k) else 0.0))
  }

  lemma WeeksStart(weeklyData: map<nat, WeekBucket>, done: seq<Campaign>, c: Campaign)
    requires WeeksAfter(weeklyData, done)
    ensures WeeksPartly(weeklyData, done, c, 0)
  {
  }

  lemma WeekStep(weeklyData: map<nat, WeekBucket>, done: seq<Campaign>, c: Campaign, index: nat,
                 after: map<nat, WeekBucket>)
    requires index < |c.weeklyPerformance|
    requires WeeksPartly(weeklyData, done, c, index)
    requires var bucket := if index + 1 in weeklyData then weeklyData[index + 1] else WeekBucket(0.0, 0.0);
      var revenue := c.weeklyPerformance[index].revenue;
      after == weeklyData[index + 1 := WeekBucket(bucket.revenue + revenue, bucket.spend + revenue)]
    ensures WeeksPartly(after, done, c, index + 1)
  {
    if index + 1 !in weeklyData {
      BeyondLastWeek(done, index + 1);
    }
    assert forall k :: k in after <==> 1 <= k <= Max(MaxWeeks(done), index + 1);
  }

  lemma WeeksDone(weeklyData: map<nat, WeekBucket>, done: seq<Campaign>, c: Campaign)
    requires WeeksPartly(weeklyData, done, c, |c.weeklyPerformance|)
    ensures WeeksAfter(weeklyData, done + [c])
  {
    forall k ensures WeekRevenue(done + [c], k) == WeekRevenue(done, k) + WeekContribution(c, k)
                  && MaxWeeks(done + [c]) == Max(MaxWeeks(done), |c.weeklyPerformance|) {
      CampaignsSnoc(done, c, k);
    }
  }

  /** The inner callback, run for the entry `week` at position `index`: it
      goes to week `index + 1`, created at zero when missing, and the spend
      bucket receives the week's revenue. */
  method AddWeek(week: WeeklyPerformance, index: nat, weeklyData: map<nat, WeekBucket>,
                 ghost done: seq<Campaign>, ghost c: Campaign)
    returns (weeklyData': map<nat, WeekBucket>)
    requires index < |c.weeklyPerformance| && c.weeklyPerformance[index] == week
    requires WeeksPartly(weeklyData, done, c, index)
    ensures WeeksPartly(weeklyData', done, c, index + 1)
  {
    var weekNumber := index + 1;
    var bucket := if weekNumber in weeklyData then weeklyData[weekNumber] else WeekBucket(0.0, 0.0);
    weeklyData' := weeklyData[weekNumber := WeekBucket(bucket.revenue + week.revenue, bucket.spend + week.revenue)];
    WeekStep(weeklyData, done, c, index, weeklyData');
  }

  /** The callback run for one campaign: entry `index` goes to week
      `index + 1`. */
  method TallyWeeks(campaign: Campaign, weeklyData: map<nat, WeekBucket>, ghost done: seq<Campaign>)
    returns (weeklyData': map<nat, WeekBucket>)
    requires WeeksAfter(weeklyData, done)
    ensures WeeksAfter(weeklyData', done + [campaign])
  {
    weeklyData' := weeklyData;
    var weeks := campaign.weeklyPerformance;
    WeeksStart(weeklyData, done, campaign);
    for index := 0 to |weeks|
      invariant WeeksPartly(weeklyData', done, campaign, index)
    {
      weeklyData' := AddWeek(weeks[index], index, weeklyData', done, campaign);
    }
    WeeksDone(weeklyData', done, campaign);
  }

  /** One bucket per week number from 1 to the longest weekly list; week
      `k`'s revenue is the sum of the `k`-th entries' revenue, and so is its
      spend.  Absent data gives an empty dictionary. */
  method WeeklyPerformance(data: Option<seq<Campaign>>) returns (weeklyData: map<nat, WeekBucket>)
    ensures CampaignsOrEmpty(data) == [] ==> weeklyData == map[]
    ensures var cs := CampaignsOrEmpty(data);
      forall k :: k in weeklyData <==> 1 <= k <= MaxWeeks(cs)
    ensures var cs := CampaignsOrEmpty(data);
      forall k :: k in weeklyData ==> weeklyData[k].revenue == WeekRevenue(cs, k)
    ensures var cs := CampaignsOrEmpty(data);
      forall k :: k in weeklyData ==> weeklyData[k].spend == WeekRevenue(cs, k)
  {
    weeklyData := map[];
    if data.Some? {
      var campaigns := data.value;
      for i := 0 to |campaigns|
        invariant WeeksAfter(weeklyData, campaigns[..i])
      {
        assert campaigns[..i + 1] == campaigns[..i] + [campaigns[i]];
        weeklyData := TallyWeeks(campaigns[i], weeklyData, campaigns[..i]);
      }
      assert campaigns[..|campaigns|] == campaigns;
    }
  }

  /** Week revenue over two runs of campaigns adds up: the order of the
      campaigns does not matter. */
  lemma {:induction false} WeekRevenueAppend(cs: seq<Campaign>, ds: seq<Campaign>, k: nat)
    ensures WeekRevenue(cs + ds, k) == WeekRevenue(cs, k) + WeekRevenue(ds, k)
  {
    if ds == [] {
      assert cs + ds == cs;
    } else {
      var init := ds[..|ds| - 1];
      assert (cs + ds)[..|cs + ds| - 1] == cs + init;
      WeekRevenueAppend(cs, init, k);
    }
  }

  /** A campaign with three weekly entries and one with two: week 3 holds
      only the first campaign's third entry. */
  lemma RaggedExample()
    ensures var a := Campaign(0.0, 0.0, [], [], [], [Dataset.WeeklyPerformance(10.0, 1.0), Dataset.WeeklyPerformance(20.0, 2.0), Dataset.WeeklyPerformance(30.0, 3.0)]);
      var b := Campaign(0.0, 0.0, [], [], [], [Dataset.WeeklyPerformance(5.0, 1.0), Dataset.WeeklyPerformance(7.0, 2.0)]);
      && MaxWeeks([a, b]) == 3
      && WeekRevenue([a, b], 1) == 15.0
      && WeekRevenue([a, b], 2) == 27.0
      && WeekRevenue([a, b], 3) == 30.0
  {
    var a := Campaign(0.0, 0.0, [], [], [], [Dataset.WeeklyPerformance(10.0, 1.0), Dataset.WeeklyPerformance(20.0, 2.0), Dataset.WeeklyPerformance(30.0, 3.0)]);
    var b := Campaign(0.0, 0.0, [], [], [], [Dataset.WeeklyPerformance(5.0, 1.0), Dataset.WeeklyPerformance(7.0, 2.0)]);
    assert [] + [a] == [a] && [a] + [b] == [a, b];
    CampaignsSnoc([], a, 1);
    CampaignsSnoc([a], b, 1);
    CampaignsSnoc([], a, 2);
    CampaignsSnoc([a], b, 2);
    CampaignsSnoc([], a, 3);
    CampaignsSnoc([a], b, 3);
  }

  /** A campaign with a single week of revenue 10 and spend 4. */
  const OneWeek := Campaign(4.0, 10.0, [], [], [], [Dataset.WeeklyPerformance(10.0, 4.0)])

  /** The spend bucket does not hold the reported weekly spend: for that
      campaign the dictionary has week 1 only, and its spend bucket holds the
      revenue 10, while the week's reported spend sums to 4. */
  lemma SpendBucketIgnoresSpend(weeklyData: map<nat, WeekBucket>)
    requires WeeksAfter(weeklyData, [OneWeek])
    ensures weeklyData.Keys == {1}
    ensures weeklyData[1] == WeekBucket(10.0, 10.0)
    ensures WeekSpend([OneWeek], 1) == 4.0
  {
    assert [OneWeek][..0] == [];
    assert MaxWeeks([OneWeek]) == 1;
    assert WeekRevenue([OneWeek], 1) == 10.0;
  }

  // ---------------------------------------------------------------------
  // Key enumeration and the chart series

  /** The least element of a non-empty set of week numbers. */
  function LeastKey(keys: set<nat>): (m: nat)
    requires keys != {}
    ensures m in keys && forall k :: k in keys ==> m <= k
  {
    LeastExists(keys);
    var m :| m in keys && forall k :: k in keys ==> m <= k;
    m
  }

  lemma LeastExists(keys: set<nat>)
    requires keys != {}
    ensures exists m :: m in keys && forall k :: k in keys ==> m <= k
  {
    var x :| x in keys;
    LeastUpTo(keys, x);
  }

  lemma LeastUpTo(keys: set<nat>, x: nat)
    requires x in keys
    ensures exists m :: m in keys && forall k :: k in keys ==> m <= k
    decreases x
  {
    if y :| y in keys && y < x {
      LeastUpTo(keys, y);
    } else {
      assert forall k :: k in keys ==> x <= k;
    }
  }

  /** The keys of an integer-keyed object as enumerated by JavaScript:
      ascending. */
  function AscendingKeys(keys: set<nat>): (r: seq<nat>)
    ensures |r| == |keys|
    ensures forall i :: 0 <= i < |r| ==> r[i] in keys
    ensures forall k :: k in keys ==> k in r
    decreases |keys|
  {
    if keys == {} then []
    else
      var m := LeastKey(keys);
      [m] + AscendingKeys(keys - {m})
  }

  ghost predicate Ascending(r: seq<nat>) {
    forall i, j :: 0 <= i < j < |r| ==> r[i] < r[j]
  }

  lemma AscendingCons(m: nat, rest: seq<nat>)
    requires Ascending(rest)
    requires forall j :: 0 <= j < |rest| ==> m < rest[j]
    ensures Ascending([m] + rest)
  {
    var r := [m] + rest;
    forall i, j | 0 <= i < j < |r| ensures r[i] < r[j] {
      assert r[j] == rest[j - 1];
      if i > 0 {
        assert r[i] == rest[i - 1];
      }
    }
  }

  /** The enumeration is strictly ascending. */
  lemma {:induction false} AscendingKeysAscend(keys: set<nat>)
    ensures Ascending(AscendingKeys(keys))
    decreases |keys|
  {
    if keys != {} {
      var m := LeastKey(keys);
      var rest := AscendingKeys(keys - {m});
      AscendingKeysAscend(keys - {m});
      forall j | 0 <= j < |rest| ensures m < rest[j] {
        assert rest[j] in keys - {m};
      }
      AscendingCons(m, rest);
    }
  }

  /** Week numbers written in decimal, as they appear as object keys. */
  function DecimalString(n: nat): (s: string)
    ensures |s| >= 1
    ensures forall i :: 0 <= i < |s| ==> '0' <= s[i] <= '9'
  {
    if n < 10 then [Digit(n)] else DecimalString(n / 10) + [Digit(n % 10)]
  }

  function Digit(d: nat): (c: char)
    requires d < 10
    ensures '0' <= c <= '9'
  {
    ((d + '0' as int) as char)
  }

  /** `parseInt` of a string of decimal digits. */
  function ParseDecimal(s: string): nat
    requires forall i :: 0 <= i < |s| ==> '0' <= s[i] <= '9'
  {
    if s == [] then 0
    else ParseDecimal(s[..|s| - 1]) * 10 + ((s[|s| - 1] as int) - ('0' as int))
  }

  /** Parsing a week key gives back the week number. */
  lemma {:induction false} ParseDecimalString(n: nat)
    ensures ParseDecimal(DecimalString(n)) == n
  {
    var s := DecimalString(n);
    if n >= 10 {
      ParseDecimalString(n / 10);
      assert s[..|s| - 1] == DecimalString(n / 10);
    }
  }

  datatype SeriesPoint = SeriesPoint(x: int, y: real, weekLabel: string)

  /** A `[key, value]` pair of `Object.entries`. */
  datatype Entry = Entry(week: string, data: WeekBucket)

  /** `Object.entries` of the weekly dictionary: ascending week numbers,
      written in decimal. */
  function Entries(weeklyData: map<nat, WeekBucket>): (entries: seq<Entry>)
    ensures var weeks := AscendingKeys(weeklyData.Keys);
      |entries| == |weeks| &&
      forall i :: 0 <= i < |entries| ==> weeks[i] in weeklyData && entries[i] == Entry(DecimalString(weeks[i]), weeklyData[weeks[i]])
  {
    var weeks := AscendingKeys(weeklyData.Keys);
    seq(|weeks|, i requires 0 <= i < |weeks| => Entry(DecimalString(weeks[i]), weeklyData[weeks[i]]))
  }

  /** The point of one entry: `x` is the parsed key, the label is the key
      prefixed with "W". */
  function PointOf(e: Entry, value: real): SeriesPoint
    requires forall i :: 0 <= i < |e.week| ==> '0' <= e.week[i] <= '9'
  {
    SeriesPoint(ParseDecimal(e.week), value, "W" + e.week)
  }

  /** The revenue series: one point per entry with the bucket's revenue. */
  function WeeklyRevenueData(weeklyData: map<nat, WeekBucket>): (points: seq<SeriesPoint>)
    ensures |points| == |weeklyData.Keys|
  {
    var entries := Entries(weeklyData);
    seq(|entries|, i requires 0 <= i < |entries| => PointOf(entries[i], entries[i].data.revenue))
  }

  /** The spend series: one point per entry with the bucket's spend. */
  function WeeklySpendData(weeklyData: map<nat, WeekBucket>): (points: seq<SeriesPoint>)
    ensures |points| == |weeklyData.Keys|
  {
    var entries := Entries(weeklyData);
    seq(|entries|, i requires 0 <= i < |entries| => PointOf(entries[i], entries[i].data.spend))
  }

  /** Point `i` of the revenue series is the `i`-th week in ascending
      order, with that week's revenue and its label. */
  lemma RevenueSeries(weeklyData: map<nat, WeekBucket>)
    ensures var weeks, points := AscendingKeys(weeklyData.Keys), WeeklyRevenueData(weeklyData);
      && |points| == |weeks|
      && forall i :: 0 <= i < |points| ==>
           points[i] == SeriesPoint(weeks[i], weeklyData[weeks[i]].revenue, "W" + DecimalString(weeks[i]))
  {
    var weeks := AscendingKeys(weeklyData.Keys);
    forall i | 0 <= i < |weeks| {
      ParseDecimalString(weeks[i]);
    }
  }

  /** Point `i` of the spend series is the `i`-th week in ascending order,
      with that week's spend bucket and its label. */
  lemma SpendSeries(weeklyData: map<nat, WeekBucket>)
    ensures var weeks, points := AscendingKeys(weeklyData.Keys), WeeklySpendData(weeklyData);
      && |points| == |weeks|
      && forall i :: 0 <= i < |points| ==>
           points[i] == SeriesPoint(weeks[i], weeklyData[weeks[i]].spend, "W" + DecimalString(weeks[i]))
  {
    var weeks := AscendingKeys(weeklyData.Keys);
    forall i | 0 <= i < |weeks| {
      ParseDecimalString(weeks[i]);
    }
  }

  /** The keys lo..hi enumerate as lo, lo + 1, ..., hi. */
  lemma {:induction false} AscendingRange(keys: set<nat>, lo: nat, hi: int)
    requires forall k :: k in keys <==> lo <= k <= hi
    ensures var r := AscendingKeys(keys);
      |r| == (if hi < lo then 0 else hi - lo + 1) && forall i :: 0 <= i < |r| ==> r[i] == lo + i
    decreases hi - lo
  {
    if hi < lo {
      assert keys == {} by {
        forall k | k in keys ensures false { }
      }
    } else {
      assert lo in keys;
      var m := LeastKey(keys);
      assert m == lo;
      AscendingRange(keys - {m}, lo + 1, hi);
    }
  }

  /** The two series line up: same length, the same week at each position
      with the same label, weeks strictly ascending. */
  lemma SeriesAligned(weeklyData: map<nat, WeekBucket>)
    ensures var revenue, spend := WeeklyRevenueData(weeklyData), WeeklySpendData(weeklyData);
      && |revenue| == |spend| == |weeklyData.Keys|
      && (forall i :: 0 <= i < |revenue| ==> revenue[i].x == spend[i].x && revenue[i].weekLabel == spend[i].weekLabel)
      && (forall i, j :: 0 <= i < j < |revenue| ==> revenue[i].x < revenue[j].x)
  {
    RevenueSeries(weeklyData);
    SpendSeries(weeklyData);
    AscendingKeysAscend(weeklyData.Keys);
  }

  /** The two series of the page's dictionary: point `i` of each is week
      `i + 1`, labelled "W" followed by the week number, with that week's
      summed revenue; both series have one point per week up to the longest
      weekly list and, since the spend bucket also sums revenue, the same
      values. */
  lemma SeriesOfWeeklyPerformance(cs: seq<Campaign>, weeklyData: map<nat, WeekBucket>)
    requires WeeksAfter(weeklyData, cs)
    ensures var revenue, spend := WeeklyRevenueData(weeklyData), WeeklySpendData(weeklyData);
      && |revenue| == MaxWeeks(cs) && |spend| == MaxWeeks(cs)
      && forall i :: 0 <= i < MaxWeeks(cs) ==>
           && revenue[i] == SeriesPoint(i + 1, WeekRevenue(cs, i + 1), "W" + DecimalString(i + 1))
           && spend[i] == revenue[i]
  {
    AscendingRange(weeklyData.Keys, 1, MaxWeeks(cs));
    RevenueSeries(weeklyData);
    SpendSeries(weeklyData);
    forall i | 0 <= i < MaxWeeks(cs) {
      WeekPoint(cs, weeklyData, i);
    }
  }

  lemma WeekPoint(cs: seq<Campaign>, weeklyData: map<nat, WeekBucket>, i: nat)
    requires WeeksAfter(weeklyData, cs)
    requires i < |AscendingKeys(weeklyData.Keys)| && AscendingKeys(weeklyData.Keys)[i] == i + 1
    ensures i < |WeeklyRevenueData(weeklyData)| && i < |WeeklySpendData(weeklyData)|
    ensures WeeklyRevenueData(weeklyData)[i] == SeriesPoint(i + 1, WeekRevenue(cs, i + 1), "W" + DecimalString(i + 1))
    ensures WeeklySpendData(weeklyData)[i] == WeeklyRevenueData(weeklyData)[i]
  {
    RevenueSeries(weeklyData);
    SpendSeries(weeklyData);
  }
}
