/**
 * The aggregations of the demographic view: totals per gender, spend and
 * revenue per age group, and the age-by-gender table with click-through and
 * conversion rates.
 *
 * A slice's share of its campaign's spend and revenue is the campaign total
 * times the slice's audience percentage over 100; the percentages are used as
 * independent weights, never normalised.  Reported counters (impressions,
 * clicks, conversions) are taken as they are, never weighted.
 */
module DemographicView {
  import opened Dataset
  import opened InsertionOrder

  // ---------------------------------------------------------------------
  // The stream of slices the aggregations fold over

  /** A demographic slice together with the share of its campaign's spend
      and revenue that its audience percentage apportions to it. */
  datatype WeightedSlice = WeightedSlice(
    gender: string,
    ageGroup: string,
    spend: real,
    revenue: real,
    performance: SlicePerformance)

  /** The part of `amount` that an audience percentage stands for. */
  function Apportioned(amount: real, percentage: real): real {
    amount * (percentage / 100.0)
  }

  function Weigh(c: Campaign, d: DemographicSlice): WeightedSlice {
    WeightedSlice(
      d.gender,
      d.ageGroup,
      Apportioned(c.spend, d.percentageOfAudience),
      Apportioned(c.revenue, d.percentageOfAudience),
      d.performance)
  }

  /** The slices `ds` of campaign `c`, weighted, in order. */
  function Weighed(c: Campaign, ds: seq<DemographicSlice>): seq<WeightedSlice> {
    if ds == [] then [] else Weighed(c, ds[..|ds| - 1]) + [Weigh(c, ds[|ds| - 1])]
  }

  /** Every demographic slice of every campaign, weighted, in the order of
      the nested iteration (campaigns outside, slices inside). */
  function AllSlices(cs: seq<Campaign>): seq<WeightedSlice> {
    if cs == [] then []
    else AllSlices(cs[..|cs| - 1]) + Weighed(cs[|cs| - 1], cs[|cs| - 1].demographicBreakdown)
  }

  lemma WeighedNone(c: Campaign, ds: seq<DemographicSlice>)
    ensures Weighed(c, ds[..0]) == []
  {
    assert ds[..0] == [];
  }

  lemma WeighedStep(c: Campaign, ds: seq<DemographicSlice>, j: nat)
    requires j < |ds|
    ensures Weighed(c, ds[..j + 1]) == Weighed(c, ds[..j]) + [Weigh(c, ds[j])]
  {
    assert ds[..j + 1][..j] == ds[..j];
  }

  lemma AllSlicesStep(cs: seq<Campaign>, i: nat)
    requires i < |cs|
    ensures AllSlices(cs[..i + 1]) == AllSlices(cs[..i]) + Weighed(cs[i], cs[i].demographicBreakdown)
  {
    assert cs[..i + 1][..i] == cs[..i];
  }

  lemma {:induction false} AllSlicesAppend(cs: seq<Campaign>, ds: seq<Campaign>)
    ensures AllSlices(cs + ds) == AllSlices(cs) + AllSlices(ds)
  {
    if ds == [] {
      assert cs + ds == cs;
    } else {
      var init, last := ds[..|ds| - 1], ds[|ds| - 1];
      assert (cs + ds)[..|cs + ds| - 1] == cs + init;
      AllSlicesAppend(cs, init);
    }
  }

  // ---------------------------------------------------------------------
  // Totals per gender (the cards of the view)

  datatype GenderBucket = GenderBucket(clicks: int, spend: real, revenue: real)

  datatype GenderStats = GenderStats(male: GenderBucket, female: GenderBucket)

  const NoActivity := GenderBucket(0, 0.0, 0.0)

  function Combine(a: GenderBucket, b: GenderBucket): GenderBucket {
    GenderBucket(a.clicks + b.clicks, a.spend + b.spend, a.revenue + b.revenue)
  }

  /** The bucket of gender `g` after the slices `xs`: the reported clicks and
      the apportioned spend and revenue of the slices of that gender. */
  function GenderTotals(xs: seq<WeightedSlice>, g: string): GenderBucket {
    if xs == [] then NoActivity
    else
      var acc, x := GenderTotals(xs[..|xs| - 1], g), xs[|xs| - 1];
      if x.gender == g then
        GenderBucket(acc.clicks + x.performance.clicks, acc.spend + x.spend, acc.revenue + x.revenue)
      else acc
  }

  lemma GenderTotalsSnoc(xs: seq<WeightedSlice>, x: WeightedSlice, g: string)
    ensures var b := GenderTotals(xs, g);
      GenderTotals(xs + [x], g) ==
        if x.gender == g then GenderBucket(b.clicks + x.performance.clicks, b.spend + x.spend, b.revenue + x.revenue)
        else b
  {
    assert (xs + [x])[..|xs|] == xs;
  }

  /** The callback run for one campaign: each Male or Female slice adds its
      reported clicks and its share of the campaign's spend and revenue to
      its gender's bucket. */
  method TallyGenders(campaign: Campaign, stats: GenderStats, ghost done: seq<WeightedSlice>)
    returns (stats': GenderStats)
    requires stats.male == GenderTotals(done, "Male") && stats.female == GenderTotals(done, "Female")
    ensures var after := done + Weighed(campaign, campaign.demographicBreakdown);
      stats'.male == GenderTotals(after, "Male") && stats'.female == GenderTotals(after, "Female")
  {
    stats' := stats;
    var breakdown := campaign.demographicBreakdown;
    ghost var seen := done;
    WeighedNone(campaign, breakdown);
    for j := 0 to |breakdown|
      invariant seen == done + Weighed(campaign, breakdown[..j])
      invariant stats'.male == GenderTotals(seen, "Male")
      invariant stats'.female == GenderTotals(seen, "Female")
    {
      var demo := breakdown[j];
      // the slice's share of the campaign's spend and revenue
      var slice := Weigh(campaign, demo);
      assert seen + [slice] == done + Weighed(campaign, breakdown[..j + 1]) by {
        WeighedStep(campaign, breakdown, j);
      }
      GenderTotalsSnoc(seen, slice, "Male");
      GenderTotalsSnoc(seen, slice, "Female");
      if demo.gender == "Male" {
        stats' := stats'.(male := GenderBucket(
          stats'.male.clicks + demo.performance.clicks,
          stats'.male.spend + slice.spend,
          stats'.male.revenue + slice.revenue));
      } else if demo.gender == "Female" {
        stats' := stats'.(female := GenderBucket(
          stats'.female.clicks + demo.performance.clicks,
          stats'.female.spend + slice.spend,
          stats'.female.revenue + slice.revenue));
      }
      seen := seen + [slice];
    }
    assert breakdown[..|breakdown|] == breakdown;
  }

  /** The male and female totals over all campaigns; absent campaigns give
      the all-zero stats. */
  method DemographicStats(data: Option<seq<Campaign>>) returns (stats: GenderStats)
    ensures stats.male == GenderTotals(AllSlices(CampaignsOrEmpty(data)), "Male")
    ensures stats.female == GenderTotals(AllSlices(CampaignsOrEmpty(data)), "Female")
    ensures CampaignsOrEmpty(data) == [] ==> stats == GenderStats(NoActivity, NoActivity)
  {
    stats := GenderStats(NoActivity, NoActivity);
    if data.None? {
      return;
    }
    var campaigns := data.value;
    for i := 0 to |campaigns|
      invariant stats.male == GenderTotals(AllSlices(campaigns[..i]), "Male")
      invariant stats.female == GenderTotals(AllSlices(campaigns[..i]), "Female")
    {
      AllSlicesStep(campaigns, i);
      stats := TallyGenders(campaigns[i], stats, AllSlices(campaigns[..i]));
    }
    assert campaigns[..|campaigns|] == campaigns;
  }

  /** Totals over two runs of slices add up, so how the campaign list is
      split or ordered does not matter. */
  lemma {:induction false} GenderTotalsAppend(xs: seq<WeightedSlice>, ys: seq<WeightedSlice>, g: string)
    ensures GenderTotals(xs + ys, g) == Combine(GenderTotals(xs, g), GenderTotals(ys, g))
  {
    if ys == [] {
      assert xs + ys == xs;
    } else {
      var init, last := ys[..|ys| - 1], ys[|ys| - 1];
      assert (xs + ys)[..|xs + ys| - 1] == xs + init;
      GenderTotalsAppend(xs, init, g);
    }
  }

  lemma GenderTotalsIgnoreCampaignOrder(cs: seq<Campaign>, ds: seq<Campaign>, g: string)
    ensures GenderTotals(AllSlices(cs + ds), g) == GenderTotals(AllSlices(ds + cs), g)
  {
    AllSlicesAppend(cs, ds);
    AllSlicesAppend(ds, cs);
    GenderTotalsAppend(AllSlices(cs), AllSlices(ds), g);
    GenderTotalsAppend(AllSlices(ds), AllSlices(cs), g);
  }

  /** Sum of the audience percentages of the slices of gender `g`. */
  function AudienceShare(ds: seq<DemographicSlice>, g: string): real {
    if ds == [] then 0.0
    else AudienceShare(ds[..|ds| - 1], g) + (if ds[|ds| - 1].gender == g then ds[|ds| - 1].percentageOfAudience else 0.0)
  }

  /** Sum of the clicks reported by the slices of gender `g`. */
  function ReportedClicks(ds: seq<DemographicSlice>, g: string): int {
    if ds == [] then 0
    else ReportedClicks(ds[..|ds| - 1], g) + (if ds[|ds| - 1].gender == g then ds[|ds| - 1].performance.clicks else 0)
  }

  /** Apportioning by two percentages one after the other is apportioning by
      their sum. */
  lemma Apportion(amount: real, p: real, q: real)
    ensures Apportioned(amount, p) + Apportioned(amount, q) == Apportioned(amount, p + q)
  {
  }

  /** One campaign's contribution to a gender bucket: the clicks its slices of
      that gender report, and its spend and revenue apportioned by the summed
      audience percentage of those slices over 100. */
  lemma {:induction false} CampaignGenderTotals(c: Campaign, ds: seq<DemographicSlice>, g: string)
    ensures GenderTotals(Weighed(c, ds), g) == GenderBucket(
      ReportedClicks(ds, g),
      Apportioned(c.spend, AudienceShare(ds, g)),
      Apportioned(c.revenue, AudienceShare(ds, g)))
  {
    if ds == [] {
      assert Apportioned(c.spend, 0.0) == 0.0 && Apportioned(c.revenue, 0.0) == 0.0;
    } else {
      var init, d := ds[..|ds| - 1], ds[|ds| - 1];
      var w, x := Weighed(c, init), Weigh(c, d);
      assert Weighed(c, ds) == w + [x];
      GenderTotalsSnoc(w, x, g);
      CampaignGenderTotals(c, init, g);
      if d.gender == g {
        Apportion(c.spend, AudienceShare(init, g), d.percentageOfAudience);
        Apportion(c.revenue, AudienceShare(init, g), d.percentageOfAudience);
      }
    }
  }

  /** The slices whose gender is "Male" or "Female". */
  function MaleOrFemale(xs: seq<WeightedSlice>): seq<WeightedSlice> {
    if xs == [] then []
    else
      var x := xs[|xs| - 1];
      MaleOrFemale(xs[..|xs| - 1]) + (if x.gender == "Male" || x.gender == "Female" then [x] else [])
  }

  lemma MaleOrFemaleSnoc(xs: seq<WeightedSlice>, x: WeightedSlice)
    ensures MaleOrFemale(xs + [x]) == MaleOrFemale(xs) + (if x.gender == "Male" || x.gender == "Female" then [x] else [])
  {
    assert (xs + [x])[..|xs|] == xs;
  }

  /** Slices of any other gender change neither bucket. */
  lemma {:induction false} OtherGendersIgnored(xs: seq<WeightedSlice>, g: string)
    requires g == "Male" || g == "Female"
    ensures GenderTotals(MaleOrFemale(xs), g) == GenderTotals(xs, g)
  {
    if xs != [] {
      var init, x := xs[..|xs| - 1], xs[|xs| - 1];
      assert xs == init + [x];
      MaleOrFemaleSnoc(init, x);
      OtherGendersIgnored(init, g);
      GenderTotalsSnoc(init, x, g);
      var kept := MaleOrFemale(init);
      if x.gender == "Male" || x.gender == "Female" {
        GenderTotalsSnoc(kept, x, g);
      } else {
        assert kept + [] == kept;
      }
    }
  }

  /** A campaign with spend 1000 and revenue 2000 whose audience is 60% male
      and 40% female. */
  lemma WeightingExample(maleClicks: int, femaleClicks: int)
    ensures var c := Campaign(1000.0, 2000.0, [
      DemographicSlice("Male", "25-34", 60.0, SlicePerformance(1000, maleClicks, 5)),
      DemographicSlice("Female", "25-34", 40.0, SlicePerformance(800, femaleClicks, 4))], [], [], []);
      && GenderTotals(AllSlices([c]), "Male") == GenderBucket(maleClicks, 600.0, 1200.0)
      && GenderTotals(AllSlices([c]), "Female") == GenderBucket(femaleClicks, 400.0, 800.0)
  {
    var c := Campaign(1000.0, 2000.0, [
      DemographicSlice("Male", "25-34", 60.0, SlicePerformance(1000, maleClicks, 5)),
      DemographicSlice("Female", "25-34", 40.0, SlicePerformance(800, femaleClicks, 4))], [], [], []);
    var ds := c.demographicBreakdown;
    assert [c][..0] == [];
    assert AllSlices([c]) == Weighed(c, ds);
    assert ds[..1][..0] == [] && ds[..1] == [ds[0]];
    assert AudienceShare(ds[..1], "Male") == 60.0 && ReportedClicks(ds[..1], "Male") == maleClicks;
    assert AudienceShare(ds[..1], "Female") == 0.0 && ReportedClicks(ds[..1], "Female") == 0;
    assert AudienceShare(ds, "Male") == 60.0 && ReportedClicks(ds, "Male") == maleClicks;
    assert AudienceShare(ds, "Female") == 40.0 && ReportedClicks(ds, "Female") == femaleClicks;
    CampaignGenderTotals(c, ds, "Male");
    CampaignGenderTotals(c, ds, "Female");
  }

  // ---------------------------------------------------------------------
  // Spend and revenue per age group (the two bar charts)

  datatype AgeTotals = AgeTotals(spends: real, revenues: real)

  datatype AgeGroupEntry = AgeGroupEntry(ageGroup: string, totals: AgeTotals)

  const NoSpend := AgeTotals(0.0, 0.0)

  /** The age group of every slice, in order. */
  function AgeGroupsOf(xs: seq<WeightedSlice>): seq<string> {
    if xs == [] then [] else AgeGroupsOf(xs[..|xs| - 1]) + [xs[|xs| - 1].ageGroup]
  }

  /** Apportioned spend and revenue of the slices of age group `a`, of any gender. */
  function AgeTotalsFor(xs: seq<WeightedSlice>, a: string): AgeTotals {
    if xs == [] then NoSpend
    else
      var acc, x := AgeTotalsFor(xs[..|xs| - 1], a), xs[|xs| - 1];
      if x.ageGroup == a then AgeTotals(acc.spends + x.spend, acc.revenues + x.revenue) else acc
  }

  lemma {:induction false} AgeTotalsUnseen(xs: seq<WeightedSlice>, a: string)
    requires a !in AgeGroupsOf(xs)
    ensures AgeTotalsFor(xs, a) == NoSpend
  {
    if xs != [] {
      AgeTotalsUnseen(xs[..|xs| - 1], a);
    }
  }

  /** The age-group dictionary after the slices `xs`: its key order and its
      entries agree with the specification functions. */
  ghost predicate AgeTableAfter(order: seq<string>, table: map<string, AgeTotals>, xs: seq<WeightedSlice>) {
    && order == FirstAppearances(AgeGroupsOf(xs))
    && (forall a :: a in table <==> a in order)
    && (forall a :: a in table ==> table[a] == AgeTotalsFor(xs, a))
  }

  lemma AgeTotalsSnoc(xs: seq<WeightedSlice>, x: WeightedSlice, a: string)
    ensures AgeGroupsOf(xs + [x]) == AgeGroupsOf(xs) + [x.ageGroup]
    ensures AgeTotalsFor(xs + [x], a) ==
      if x.ageGroup == a then AgeTotals(AgeTotalsFor(xs, a).spends + x.spend, AgeTotalsFor(xs, a).revenues + x.revenue)
      else AgeTotalsFor(xs, a)
  {
    assert (xs + [x])[..|xs|] == xs;
  }

  /** One more slice: its age group is created at zero if absent, then its
      weighted spend and revenue are added to that group only. */
  lemma AgeTableStep(order: seq<string>, table: map<string, AgeTotals>, xs: seq<WeightedSlice>, x: WeightedSlice,
                     order': seq<string>, table': map<string, AgeTotals>)
    requires AgeTableAfter(order, table, xs)
    requires order' == if x.ageGroup in table then order else order + [x.ageGroup]
    requires var prior := if x.ageGroup in table then table[x.ageGroup] else NoSpend;
      table' == table[x.ageGroup := AgeTotals(prior.spends + x.spend, prior.revenues + x.revenue)]
    ensures AgeTableAfter(order', table', xs + [x])
  {
    AgeKeysStep(order, table, xs, x, order', table', table'[x.ageGroup]);
    AgeEntriesStep(order, table, xs, x, table');
  }

  /** The key order after one more slice, and the keys of the dictionary
      still those of the key order. */
  lemma AgeKeysStep(order: seq<string>, table: map<string, AgeTotals>, xs: seq<WeightedSlice>, x: WeightedSlice,
                    order': seq<string>, table': map<string, AgeTotals>, totals: AgeTotals)
    requires AgeTableAfter(order, table, xs)
    requires order' == if x.ageGroup in table then order else order + [x.ageGroup]
    requires table' == table[x.ageGroup := totals]
    ensures order' == FirstAppearances(AgeGroupsOf(xs + [x]))
    ensures forall a :: a in table' <==> a in order'
  {
    AgeTotalsSnoc(xs, x, x.ageGroup);
    FirstAppearancesSnoc(AgeGroupsOf(xs), x.ageGroup);
  }

  /** The age-group totals after one more slice. */
  lemma AgeEntriesStep(order: seq<string>, table: map<string, AgeTotals>, xs: seq<WeightedSlice>, x: WeightedSlice,
                       table': map<string, AgeTotals>)
    requires AgeTableAfter(order, table, xs)
    requires var prior := if x.ageGroup in table then table[x.ageGroup] else NoSpend;
      table' == table[x.ageGroup := AgeTotals(prior.spends + x.spend, prior.revenues + x.revenue)]
    ensures forall a :: a in table' ==> table'[a] == AgeTotalsFor(xs + [x], a)
  {
    assert x.ageGroup in table <==> x.ageGroup in AgeGroupsOf(xs);
    forall a {
      AgeEntryStep(table, xs, x, a);
    }
  }

  /** The totals of age group `a` after one more slice. */
  lemma AgeEntryStep(table: map<string, AgeTotals>, xs: seq<WeightedSlice>, x: WeightedSlice, a: string)
    requires a in table ==> table[a] == AgeTotalsFor(xs, a)
    requires x.ageGroup in table ==> table[x.ageGroup] == AgeTotalsFor(xs, x.ageGroup)
    requires x.ageGroup in table <==> x.ageGroup in AgeGroupsOf(xs)
    ensures var prior := if x.ageGroup in table then table[x.ageGroup] else NoSpend;
      var table' := table[x.ageGroup := AgeTotals(prior.spends + x.spend, prior.revenues + x.revenue)];
      a in table' ==> table'[a] == AgeTotalsFor(xs + [x], a)
  {
    AgeTotalsSnoc(xs, x, a);
    if a == x.ageGroup && a !in table {
      AgeTotalsUnseen(xs, a);
    }
  }

  /** The inner callback, run for one slice: its age group is created at
      zero when missing, then the slice's share is added to it. */
  method TallyAgeGroup(share: WeightedSlice, order: seq<string>, table: map<string, AgeTotals>, ghost seen: seq<WeightedSlice>)
    returns (order': seq<string>, table': map<string, AgeTotals>)
    requires AgeTableAfter(order, table, seen)
    ensures AgeTableAfter(order', table', seen + [share])
  {
    var group := share.ageGroup;
    var entry := if group in table then table[group] else NoSpend;
    order' := if group in table then order else order + [group];
    table' := table[group := AgeTotals(entry.spends + share.spend, entry.revenues + share.revenue)];
    AgeTableStep(order, table, seen, share, order', table');
  }

  /** The callback run for one campaign: adds the campaign's slices, in
      order, to the age-group dictionary. */
  method TallyAgeGroups(campaign: Campaign, order: seq<string>, table: map<string, AgeTotals>, ghost done: seq<WeightedSlice>)
    returns (order': seq<string>, table': map<string, AgeTotals>)
    requires AgeTableAfter(order, table, done)
    ensures AgeTableAfter(order', table', done + Weighed(campaign, campaign.demographicBreakdown))
  {
    order', table' := order, table;
    var breakdown := campaign.demographicBreakdown;
    ghost var seen := done;
    WeighedNone(campaign, breakdown);
    for j := 0 to |breakdown|
      invariant seen == done + Weighed(campaign, breakdown[..j])
      invariant AgeTableAfter(order', table', seen)
    {
      var share := Weigh(campaign, breakdown[j]);
      order', table' := TallyAgeGroup(share, order', table', seen);
      WeighedStep(campaign, breakdown, j);
      seen := seen + [share];
    }
    assert breakdown[..|breakdown|] == breakdown;
  }

  /** The age-group dictionary as its entries: one per distinct age group, in
      order of first appearance, each holding that group's totals. */
  method AgeGroupPerformance(data: Option<seq<Campaign>>) returns (performance: seq<AgeGroupEntry>)
    ensures CampaignsOrEmpty(data) == [] ==> performance == []
    ensures var groups := FirstAppearances(AgeGroupsOf(AllSlices(CampaignsOrEmpty(data))));
      && |performance| == |groups|
      && forall k :: 0 <= k < |performance| ==> performance[k].ageGroup == groups[k]
    ensures forall k :: 0 <= k < |performance| ==>
      performance[k].totals == AgeTotalsFor(AllSlices(CampaignsOrEmpty(data)), performance[k].ageGroup)
  {
    var order: seq<string> := [];
    var table: map<string, AgeTotals> := map[];
    if data.Some? {
      var campaigns := data.value;
      for i := 0 to |campaigns|
        invariant AgeTableAfter(order, table, AllSlices(campaigns[..i]))
      {
        AllSlicesStep(campaigns, i);
        order, table := TallyAgeGroups(campaigns[i], order, table, AllSlices(campaigns[..i]));
      }
      assert campaigns[..|campaigns|] == campaigns;
    }
    performance := seq(|order|, k requires 0 <= k < |order| => AgeGroupEntry(order[k], table[order[k]]));
  }

  // ---------------------------------------------------------------------
  // Counters per gender and age group (the two tables)

  const NoCounts := SlicePerformance(0, 0, 0)

  function AddCounts(a: SlicePerformance, b: SlicePerformance): SlicePerformance {
    SlicePerformance(a.impressions + b.impressions, a.clicks + b.clicks, a.conversions + b.conversions)
  }

  /** The dictionary of one gender: its age groups in insertion order and
      the summed counters of each. */
  datatype AgeCounts = AgeCounts(order: seq<string>, counts: map<string, SlicePerformance>)

  const NoAgeCounts := AgeCounts([], map[])

  /** One row of a table: an age group's counters with its click-through
      rate and conversion rate in percent. */
  datatype AgeGenderRow = AgeGenderRow(
    ageGroup: string,
    impressions: int,
    clicks: int,
    conversions: int,
    ctr: real,
    conversionRate: real)

  /** `part` as a percentage of `whole`, defined as 0 when `whole` is not
      positive instead of dividing by zero. */
  function Percent(part: int, whole: int): (r: real)
    ensures whole > 0 ==> r * (whole as real) == (part as real) * 100.0
    ensures whole <= 0 ==> r == 0.0
    ensures 0 <= part <= whole ==> 0.0 <= r <= 100.0
  {
    if whole > 0 then (part as real) / (whole as real) * 100.0 else 0.0
  }

  /** The age groups of the slices of gender `g`, in order. */
  function AgeGroupsFor(xs: seq<WeightedSlice>, g: string): seq<string> {
    if xs == [] then []
    else
      var x := xs[|xs| - 1];
      AgeGroupsFor(xs[..|xs| - 1], g) + (if x.gender == g then [x.ageGroup] else [])
  }

  /** The reported counters of the slices of gender `g` and age group `a`,
      summed without weighting. */
  function CountsFor(xs: seq<WeightedSlice>, g: string, a: string): SlicePerformance {
    if xs == [] then NoCounts
    else
      var acc, x := CountsFor(xs[..|xs| - 1], g, a), xs[|xs| - 1];
      if x.gender == g && x.ageGroup == a then AddCounts(acc, x.performance) else acc
  }

  lemma CountsSnoc(xs: seq<WeightedSlice>, x: WeightedSlice, g: string, a: string)
    ensures AgeGroupsFor(xs + [x], g) == AgeGroupsFor(xs, g) + (if x.gender == g then [x.ageGroup] else [])
    ensures CountsFor(xs + [x], g, a) ==
      if x.gender == g && x.ageGroup == a then AddCounts(CountsFor(xs, g, a), x.performance)
      else CountsFor(xs, g, a)
  {
    assert (xs + [x])[..|xs|] == xs;
  }

  lemma {:induction false} CountsUnseen(xs: seq<WeightedSlice>, g: string, a: string)
    requires a !in AgeGroupsFor(xs, g)
    ensures CountsFor(xs, g, a) == NoCounts
  {
    if xs != [] {
      CountsUnseen(xs[..|xs| - 1], g, a);
    }
  }

  /** The dictionary of gender `g` after the slices `xs`. */
  ghost predicate AgeCountsAfter(d: AgeCounts, xs: seq<WeightedSlice>, g: string) {
    && d.order == FirstAppearances(AgeGroupsFor(xs, g))
    && (forall a :: a in d.counts <==> a in d.order)
    && (forall a :: a in d.counts ==> d.counts[a] == CountsFor(xs, g, a))
  }

  /** A gender's dictionary, or the empty one the code creates for a gender
      it meets for the first time. */
  function Lookup(performance: map<string, AgeCounts>, g: string): AgeCounts {
    if g in performance then performance[g] else NoAgeCounts
  }

  /** The two-level dictionary after the slices `xs`: the Male and Female
      dictionaries exist from the start, and every gender's dictionary
      agrees with the specification functions. */
  ghost predicate PerformanceAfter(performance: map<string, AgeCounts>, xs: seq<WeightedSlice>) {
    && "Male" in performance
    && "Female" in performance
    && forall g :: AgeCountsAfter(Lookup(performance, g), xs, g)
  }

  /** What one slice does to its own gender's dictionary. */
  function Counted(d: AgeCounts, x: WeightedSlice): AgeCounts {
    var prior := if x.ageGroup in d.counts then d.counts[x.ageGroup] else NoCounts;
    AgeCounts(
      if x.ageGroup in d.counts then d.order else d.order + [x.ageGroup],
      d.counts[x.ageGroup := AddCounts(prior, x.performance)])
  }

  lemma AgeCountsStep(d: AgeCounts, xs: seq<WeightedSlice>, x: WeightedSlice, g: string)
    requires AgeCountsAfter(d, xs, g)
    ensures x.gender == g ==> AgeCountsAfter(Counted(d, x), xs + [x], g)
    ensures x.gender != g ==> AgeCountsAfter(d, xs + [x], g)
  {
    if x.gender == g {
      OwnGenderStep(d, xs, x);
    } else {
      OtherGenderStep(d, xs, x, g);
    }
  }

  /** A slice of gender `g` updates `g`'s dictionary as `Counted` says. */
  lemma OwnGenderStep(d: AgeCounts, xs: seq<WeightedSlice>, x: WeightedSlice)
    requires AgeCountsAfter(d, xs, x.gender)
    ensures AgeCountsAfter(Counted(d, x), xs + [x], x.gender)
  {
    var g, d' := x.gender, Counted(d, x);
    CountsSnoc(xs, x, g, x.ageGroup);
    FirstAppearancesSnoc(AgeGroupsFor(xs, g), x.ageGroup);
    forall a | a in d'.counts ensures d'.counts[a] == CountsFor(xs + [x], g, a) {
      CountEntryStep(d, xs, x, a);
    }
  }

  lemma CountEntryStep(d: AgeCounts, xs: seq<WeightedSlice>, x: WeightedSlice, a: string)
    requires AgeCountsAfter(d, xs, x.gender)
    requires a in Counted(d, x).counts
    ensures Counted(d, x).counts[a] == CountsFor(xs + [x], x.gender, a)
  {
    CountsSnoc(xs, x, x.gender, a);
    if a == x.ageGroup && a !in d.counts {
      CountsUnseen(xs, x.gender, a);
    }
  }

  /** A slice of another gender leaves `g`'s dictionary as it is. */
  lemma OtherGenderStep(d: AgeCounts, xs: seq<WeightedSlice>, x: WeightedSlice, g: string)
    requires x.gender != g
    requires AgeCountsAfter(d, xs, g)
    ensures AgeCountsAfter(d, xs + [x], g)
  {
    assert AgeGroupsFor(xs + [x], g) == AgeGroupsFor(xs, g) by {
      CountsSnoc(xs, x, g, x.ageGroup);
    }
    forall a | a in d.counts ensures d.counts[a] == CountsFor(xs + [x], g, a) {
      CountsSnoc(xs, x, g, a);
    }
  }

  /** One more slice: only its own gender's dictionary changes. */
  lemma PerformanceStep(performance: map<string, AgeCounts>, xs: seq<WeightedSlice>, x: WeightedSlice,
                        after: map<string, AgeCounts>)
    requires PerformanceAfter(performance, xs)
    requires after == performance[x.gender := Counted(Lookup(performance, x.gender), x)]
    ensures PerformanceAfter(after, xs + [x])
  {
    forall g ensures AgeCountsAfter(Lookup(after, g), xs + [x], g) {
      AgeCountsStep(Lookup(performance, g), xs, x, g);
    }
  }

  /** The inner callback, run for one slice: a gender met for the first time
      gets an empty dictionary, an age group met for the first time starts
      at zero, then the slice's counters are added to its pair. */
  method CountSlice(demo: DemographicSlice, performance: map<string, AgeCounts>, ghost seen: seq<WeightedSlice>, ghost x: WeightedSlice)
    returns (performance': map<string, AgeCounts>)
    requires x.gender == demo.gender && x.ageGroup == demo.ageGroup && x.performance == demo.performance
    requires PerformanceAfter(performance, seen)
    ensures PerformanceAfter(performance', seen + [x])
  {
    var ages := if demo.gender in performance then performance[demo.gender] else NoAgeCounts;
    var stats := if demo.ageGroup in ages.counts then ages.counts[demo.ageGroup] else NoCounts;
    var order := if demo.ageGroup in ages.counts then ages.order else ages.order + [demo.ageGroup];
    stats := SlicePerformance(
      stats.impressions + demo.performance.impressions,
      stats.clicks + demo.performance.clicks,
      stats.conversions + demo.performance.conversions);
    performance' := performance[demo.gender := AgeCounts(order, ages.counts[demo.ageGroup := stats])];
    PerformanceStep(performance, seen, x, performance');
  }

  /** The callback run for one campaign: adds the counters of each of its
      slices to the dictionary of the slice's gender and age group. */
  method TallyAgeGender(campaign: Campaign, performance: map<string, AgeCounts>, ghost done: seq<WeightedSlice>)
    returns (performance': map<string, AgeCounts>)
    requires PerformanceAfter(performance, done)
    ensures PerformanceAfter(performance', done + Weighed(campaign, campaign.demographicBreakdown))
  {
    performance' := performance;
    var breakdown := campaign.demographicBreakdown;
    ghost var seen := done;
    WeighedNone(campaign, breakdown);
    for j := 0 to |breakdown|
      invariant seen == done + Weighed(campaign, breakdown[..j])
      invariant PerformanceAfter(performance', seen)
    {
      var demo := breakdown[j];
      performance' := CountSlice(demo, performance', seen, Weigh(campaign, demo));
      WeighedStep(campaign, breakdown, j);
      seen := seen + [Weigh(campaign, demo)];
    }
    assert breakdown[..|breakdown|] == breakdown;
  }

  /** The rows of one gender's table: one per age group, in the dictionary's
      order, with the rates computed from the summed counters. */
  function ProcessData(d: AgeCounts): (rows: seq<AgeGenderRow>)
    requires forall a :: a in d.order ==> a in d.counts
    ensures |rows| == |d.order|
    ensures forall k :: 0 <= k < |rows| ==> rows[k].ageGroup == d.order[k] && Reports(rows[k], d.counts[d.order[k]])
  {
    seq(|d.order|, k requires 0 <= k < |d.order| =>
      var stats := d.counts[d.order[k]];
      AgeGenderRow(
        d.order[k],
        stats.impressions,
        stats.clicks,
        stats.conversions,
        if stats.impressions > 0 then (stats.clicks as real) / (stats.impressions as real) * 100.0 else 0.0,
        if stats.clicks > 0 then (stats.conversions as real) / (stats.clicks as real) * 100.0 else 0.0))
  }

  /** A row carries the counters `c` and the guarded rates computed from them. */
  ghost predicate Reports(row: AgeGenderRow, c: SlicePerformance) {
    && row.impressions == c.impressions
    && row.clicks == c.clicks
    && row.conversions == c.conversions
    && row.ctr == Percent(c.clicks, c.impressions)
    && row.conversionRate == Percent(c.conversions, c.clicks)
  }

  /** The male and female tables: for each gender, one row per distinct age
      group of its slices, in order of first appearance, carrying that
      group's unweighted counters and guarded rates.  Slices of any other
      gender are counted in a dictionary of their own that is never shown. */
  method AgeGenderPerformance(data: Option<seq<Campaign>>) returns (maleData: seq<AgeGenderRow>, femaleData: seq<AgeGenderRow>)
    ensures CampaignsOrEmpty(data) == [] ==> maleData == [] && femaleData == []
    ensures var xs := AllSlices(CampaignsOrEmpty(data));
      var groups := FirstAppearances(AgeGroupsFor(xs, "Male"));
      && |maleData| == |groups|
      && forall k :: 0 <= k < |maleData| ==> maleData[k].ageGroup == groups[k] && Reports(maleData[k], CountsFor(xs, "Male", groups[k]))
    ensures var xs := AllSlices(CampaignsOrEmpty(data));
      var groups := FirstAppearances(AgeGroupsFor(xs, "Female"));
      && |femaleData| == |groups|
      && forall k :: 0 <= k < |femaleData| ==> femaleData[k].ageGroup == groups[k] && Reports(femaleData[k], CountsFor(xs, "Female", groups[k]))
  {
    if data.None? {
      return [], [];
    }
    var campaigns := data.value;
    var performance := map["Male" := NoAgeCounts, "Female" := NoAgeCounts];
    for i := 0 to |campaigns|
      invariant PerformanceAfter(performance, AllSlices(campaigns[..i]))
    {
      AllSlicesStep(campaigns, i);
      performance := TallyAgeGender(campaigns[i], performance, AllSlices(campaigns[..i]));
    }
    assert campaigns[..|campaigns|] == campaigns;
    assert AgeCountsAfter(Lookup(performance, "Male"), AllSlices(campaigns), "Male");
    assert AgeCountsAfter(Lookup(performance, "Female"), AllSlices(campaigns), "Female");
    maleData := ProcessData(performance["Male"]);
    femaleData := ProcessData(performance["Female"]);
  }
}
