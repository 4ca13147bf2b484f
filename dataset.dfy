/**
 * The marketing dataset as the view pages read it: a list of campaigns, each
 * with its demographic, device, regional and weekly breakdowns.  Only the
 * fields that the aggregations read are modelled; amounts of money and
 * audience percentages are reals, reported counters are integers.
 */
module Dataset {

  datatype Option<T> = None | Some(value: T)

  /** The counters a demographic slice reports for itself. */
  datatype SlicePerformance = SlicePerformance(impressions: int, clicks: int, conversions: int)

  /** A campaign's performance in one gender and age-group segment, with that
      segment's share of the audience in percent. */
  datatype DemographicSlice = DemographicSlice(
    gender: string,
    ageGroup: string,
    percentageOfAudience: real,
    performance: SlicePerformance)

  datatype DevicePerformance = DevicePerformance(
    device: string, spend: real, revenue: real, conversions: int)

  /** A campaign's performance in one region.  `country` stands for the fields
      that the aggregation copies without summing them. */
  datatype RegionalPerformance = RegionalPerformance(
    region: string,
    country: string,
    spend: real,
    revenue: real,
    conversions: int,
    impressions: int,
    clicks: int)

  /** One week of a campaign; the week is identified by its position only. */
  datatype WeeklyPerformance = WeeklyPerformance(revenue: real, spend: real)

  datatype Campaign = Campaign(
    spend: real,
    revenue: real,
    demographicBreakdown: seq<DemographicSlice>,
    devicePerformance: seq<DevicePerformance>,
    regionalPerformance: seq<RegionalPerformance>,
    weeklyPerformance: seq<WeeklyPerformance>)

  /** `marketingData?.campaigns` read as a list: absent data contributes no campaigns. */
  function CampaignsOrEmpty(data: Option<seq<Campaign>>): (cs: seq<Campaign>)
    ensures data.None? ==> cs == []
    ensures data.Some? ==> cs == data.value
  {
    if data.Some? then data.value else []
  }
}
