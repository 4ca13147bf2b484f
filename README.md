# Amana marketing dashboard: the aggregations of the view pages

The dashboard fetches one marketing dataset, a list of campaigns, and each
view page folds the nested breakdowns of those campaigns into summary
buckets. This project models those folds and the origin check of the proxy
endpoint that serves the dataset, and proves what each fold computes.

- `Dataset` (dataset.dfy) has the campaign records. Each campaign has a
  demographic, device, regional and weekly breakdown. Only the fields the
  pages read are modelled. Money and audience percentages are `real`;
  reported counters are `int`. Absent data (`marketingData?.campaigns`
  undefined) is `None`.
- `InsertionOrder` (insertion_order.dfy) gives the key order of a
  JavaScript object that is used as a dictionary. A key takes its place when
  it is first assigned, so the keys come out in order of first appearance.
- `DemographicView` (demographic_view.dfy) covers three parts of the page:
  - the male/female cards, where clicks are taken as reported and spend and
    revenue are apportioned by the audience percentage;
  - spend and revenue per age group;
  - the age×gender tables of counters, with click-through and conversion
    rates that are guarded against division by zero.
- `RegionView` (region_view.dfy) merges the regional entries by region
  name. A merged entry is a copy of the region's first entry, with the
  amounts summed. It then adds the return on ad spend and keeps the regions
  that have map coordinates. The map filter takes the coordinate table as a
  parameter, and the page passes its own ten-region table, so its
  properties hold for any table.
- `WeeklyView` (weekly_view.dfy) builds the week dictionary. Position `i`
  of a campaign's weekly list is week `i + 1`, and the spend bucket sums
  revenue, as the page does. From the dictionary it builds the two chart
  series, one point per week.
- `DeviceView` (device_view.dfy) sums device entries into a "Desktop"
  bucket and a "Mobile" bucket. The buckets are objects updated field by
  field. Other labels are ignored.
- `LegacyDeviceView` (legacy_device_view.dfy) is the older copy of the
  device page. It is proved to give the same result as the newer page on
  every input.
- `MarketingDataRoute` (marketing_data_route.dfy) is the allow-list origin
  check and the 403 answer that `GET` gives before any upstream request.

Each accumulation (a `forEach` over the campaigns, and inside it a
`forEach` over one campaign's entries) is modelled as a method with two
nested loops:

- The outer loop walks the campaigns. In the demographic, region and
  weekly pages the callback for one campaign is a helper method that holds
  the inner loop. In the two device pages the inner loop is written inline.
- The callback for one entry is a method of its own, except for the
  male/female cards (`TallyGenders`), where it is written inline.
- The dictionaries are `map`s. Where the output order depends on the
  object's key order, the map is paired with a `seq` of keys.
- Every method is proved against a recursive specification function. For
  the demographic, region and device pages the function runs over the
  flattened stream of entries. For the weekly page it runs over the list of
  campaigns. The functions' properties are proved as lemmas.
- The origin check has no loop and is modelled by functions.

## Model

| member | source | states |
|---|---|---|
| Dataset.CampaignsOrEmpty | app/demographic-view/page.tsx:38-40 | absent campaign data contributes no campaigns |
| InsertionOrder.FirstAppearances | app/region-view/page.tsx:37-39 | the key order of a dictionary filled from a list of keys has no duplicates, contains exactly the keys of the list, and is no longer than the list |
| InsertionOrder.FirstAppearancesSnoc | app/region-view/page.tsx:37-39 | assigning one more key appends it only if it is new |
| InsertionOrder.FirstAppearancesOrdered | app/region-view/page.tsx:48 | the keys come out in the order of their first occurrence |
| InsertionOrder.FirstIndex | app/region-view/page.tsx:37-38 | the first position holding a key: it holds the key and no earlier position does |
| DemographicView.GenderTotalsSnoc | app/demographic-view/page.tsx:44-55 | a slice adds its clicks, apportioned spend and apportioned revenue to its own gender's bucket only |
| DemographicView.TallyGenders | app/demographic-view/page.tsx:43-56 | one campaign's callback leaves the male and female buckets equal to the totals over all slices seen so far, this campaign's included |
| DemographicView.DemographicStats | app/demographic-view/page.tsx:32-60 | the male and female buckets are the totals over every slice of every campaign; absent or empty data gives all zeros |
| DemographicView.GenderTotalsAppend | app/demographic-view/page.tsx:42-58 | totals over two runs of slices are the sum of the two totals |
| DemographicView.GenderTotalsIgnoreCampaignOrder | app/demographic-view/page.tsx:42-58 | swapping two groups of campaigns does not change a gender's totals |
| DemographicView.Apportion | app/demographic-view/page.tsx:44-45 | the parts of an amount for two percentages add up to the part for the sum of the percentages |
| DemographicView.CampaignGenderTotals | app/demographic-view/page.tsx:44-54 | one campaign contributes the clicks its slices of the gender report, unweighted, plus its spend and revenue apportioned by the summed audience percentage of those slices |
| DemographicView.OtherGendersIgnored | app/demographic-view/page.tsx:46-55 | slices of any gender other than "Male" and "Female" change neither bucket |
| DemographicView.WeightingExample | app/demographic-view/page.tsx:44-54 | a 60/40 male/female campaign with spend 1000 and revenue 2000 gives male 600/1200 and female 400/800, with the clicks as reported |
| DemographicView.AgeTotalsUnseen | app/demographic-view/page.tsx:74-76 | an age group not yet seen has zero totals |
| DemographicView.AgeTotalsSnoc | app/demographic-view/page.tsx:78-81 | a slice adds its apportioned spend and revenue to its own age group only, whatever its gender |
| DemographicView.AgeTableStep | app/demographic-view/page.tsx:74-81 | one slice keeps the age-group dictionary, keys in first-appearance order and entries, equal to the specification |
| DemographicView.TallyAgeGroup | app/demographic-view/page.tsx:74-81 | the inner callback for one slice keeps the age-group dictionary equal to the specification, that slice included |
| DemographicView.TallyAgeGroups | app/demographic-view/page.tsx:72-82 | one campaign's callback keeps that agreement over all slices seen so far |
| DemographicView.AgeGroupPerformance | app/demographic-view/page.tsx:63-86 | one entry per distinct age group, in order of first appearance, holding the sums of apportioned spend and revenue over that group's slices of every gender; absent or empty data gives no entries |
| DemographicView.Percent | app/demographic-view/page.tsx:124-125 | a guarded percentage: times the whole it gives part×100; a non-positive whole gives 0; a part between 0 and the whole gives 0..100 |
| DemographicView.CountsSnoc | app/demographic-view/page.tsx:112-114 | a slice adds its unweighted counters to its own gender and age group only |
| DemographicView.CountsUnseen | app/demographic-view/page.tsx:108-110 | a gender and age-group pair not yet seen has zero counters |
| DemographicView.AgeCountsStep | app/demographic-view/page.tsx:105-114 | a slice keeps its gender's dictionary equal to the specification and leaves every other gender's dictionary unchanged |
| DemographicView.PerformanceStep | app/demographic-view/page.tsx:104-115 | one slice keeps the whole two-level dictionary equal to the specification, with Male and Female present |
| DemographicView.CountSlice | app/demographic-view/page.tsx:105-114 | the inner callback for one slice keeps the two-level dictionary equal to the specification, that slice included |
| DemographicView.TallyAgeGender | app/demographic-view/page.tsx:104-115 | one campaign's callback keeps the two-level dictionary equal to the specification over all slices seen so far |
| DemographicView.ProcessData | app/demographic-view/page.tsx:118-127 | one row per key of a gender's dictionary, in key order, carrying its counters, its click-through rate and its conversion rate, each rate 0 when its divisor is not positive |
| DemographicView.AgeGenderPerformance | app/demographic-view/page.tsx:88-133 | the male and female tables each have one row per distinct age group of that gender's slices, in first-appearance order, with the unweighted counter sums and the guarded rates; absent or empty data gives two empty tables |
| RegionView.AllRegionsAppend | app/region-view/page.tsx:35-36 | the regional entries of two campaign lists, concatenated, are the entries of their concatenation |
| RegionView.RegionNamesOf | app/region-view/page.tsx:36-37 | one region name per entry |
| RegionView.FirstEntry | app/region-view/page.tsx:37-38 | a region's template is the first entry with that region's name |
| RegionView.FirstEntrySnoc | app/region-view/page.tsx:37-38 | a later entry never replaces the template of a region already seen |
| RegionView.RegionSnoc | app/region-view/page.tsx:40-44 | an entry adds its five amounts to its own region only |
| RegionView.SumsUnseen | app/region-view/page.tsx:37-38 | a region not yet seen has all amounts at zero |
| RegionView.AccruedWithSums | app/region-view/page.tsx:40-44 | adding an entry's amounts to a merged entry gives the template with the summed amounts |
| RegionView.MergedSnoc | app/region-view/page.tsx:37-44 | an entry changes only its own region's merged entry: a known region accrues the amounts, a new one starts from the entry with zeroed amounts and then accrues them |
| RegionView.RegionTableStep | app/region-view/page.tsx:37-44 | one entry keeps the region dictionary, keys in first-appearance order and merged entries, equal to the specification |
| RegionView.MergeRegion | app/region-view/page.tsx:37-44 | the inner callback for one entry keeps the region dictionary equal to the specification, that entry included |
| RegionView.TallyRegions | app/region-view/page.tsx:36-45 | one campaign's callback keeps that agreement over all entries seen so far |
| RegionView.Roas | app/region-view/page.tsx:50 | return on ad spend: times a positive spend it gives the revenue; a non-positive spend gives 0; it is never negative when the spend is positive and the revenue is not negative |
| RegionView.RegionalPerformance | app/region-view/page.tsx:31-52 | one row per distinct region name, in order of first appearance; each row is that region's first entry with the summed spend, revenue, conversions, impressions and clicks, plus the return on ad spend of those sums; absent or empty data gives no rows |
| RegionView.RowsOf | app/region-view/page.tsx:48-51 | the dictionary's values, in key order, become one row per distinct region name, each the region's merged entry with the return on ad spend of its sums |
| RegionView.SumsAppend | app/region-view/page.tsx:35-46 | a region's sums over two runs of entries add up, so how the campaigns are grouped does not matter |
| RegionView.MergeExampleRows | app/region-view/page.tsx:37-39 | two campaigns reporting "Dubai" give one row |
| RegionView.MergeExample | app/region-view/page.tsx:38-50 | that region's merged entry has spend 100+300 and revenue 400+200 and keeps the first entry's country; the return on ad spend of its sums is 1.5 |
| RegionView.MergeExampleResult | app/region-view/page.tsx:31-52 | any rows meeting the page's contract for two campaigns that each report one "Dubai" entry are the single merged Dubai row, with a return on ad spend of 1.5 |
| RegionView.MapData | app/region-view/page.tsx:54-62 | for any coordinate table: never more points than rows; every point carries the coordinates the table has for its name; every row whose region has coordinates gives its point |
| RegionView.PointsFromRows | app/region-view/page.tsx:56-61 | every point comes from a row with a known region, with that row's name, revenue and spend unchanged |
| RegionView.MapDataAppend | app/region-view/page.tsx:55-61 | the filter keeps the order of the rows |
| RegionView.AllLocated | app/region-view/page.tsx:56-59 | when every region has coordinates, the points are exactly the rows' points, position by position |
| RegionView.UnknownRegionDropped | app/region-view/page.tsx:57-58 | a region without coordinates gives no point |
| RegionView.RegionCoordinates | app/region-view/page.tsx:14-25 | the page's coordinate table: ten region names, each with its latitude and longitude |
| RegionView.PageCoordinatesExample | app/region-view/page.tsx:14-25 | with the page's own table, a "Dubai" row is placed at Dubai's coordinates, and a lower-case "dubai" has no coordinates |
| WeeklyView.MaxWeeks | app/weekly-view/page.tsx:15-19 | the longest weekly list: no campaign has more weeks, some campaign has exactly that many, and no campaigns gives 0 |
| WeeklyView.CampaignsSnoc | app/weekly-view/page.tsx:14-22 | one more campaign adds its own entry for the week to the week's revenue and can only raise the number of weeks |
| WeeklyView.BeyondLastWeek | app/weekly-view/page.tsx:15-16 | a week past every campaign's list gets nothing |
| WeeklyView.WeekStep | app/weekly-view/page.tsx:16-21 | the entry at index `i` is added to week `i + 1`, created at zero when missing, in both the revenue and the spend bucket |
| WeeklyView.AddWeek | app/weekly-view/page.tsx:16-21 | the inner callback for the entry at index `i` adds it to week `i + 1` and keeps the partial dictionary equal to the specification |
| WeeklyView.WeeksDone | app/weekly-view/page.tsx:15-22 | after a campaign's whole list, the dictionary matches the specification for the campaigns done so far |
| WeeklyView.TallyWeeks | app/weekly-view/page.tsx:15-22 | one campaign's callback keeps the week dictionary equal to the specification |
| WeeklyView.WeeklyPerformance | app/weekly-view/page.tsx:11-26 | the weeks present are exactly 1 up to the longest weekly list; week `k` holds the sum of the `k`-th entries' revenue over the campaigns that have one, in its revenue bucket and in its spend bucket alike; absent or empty data gives an empty dictionary |
| WeeklyView.WeekRevenueAppend | app/weekly-view/page.tsx:14-23 | a week's revenue over two campaign lists adds up |
| WeeklyView.RaggedExample | app/weekly-view/page.tsx:15-20 | campaigns with 3 and 2 weeks give 3 weeks, and week 3 holds only the longer campaign's entry |
| WeeklyView.SpendBucketIgnoresSpend | app/weekly-view/page.tsx:21 | for one campaign with a single week of revenue 10 and spend 4, the dictionary has week 1 only, and its spend bucket holds 10, not the reported spend 4 |
| WeeklyView.LeastKey | app/weekly-view/page.tsx:29 | the smallest key of a non-empty set of week numbers |
| WeeklyView.AscendingKeys | app/weekly-view/page.tsx:29 | integer keys enumerate as a list holding every key exactly once |
| WeeklyView.AscendingKeysAscend | app/weekly-view/page.tsx:29 | that list is strictly ascending |
| WeeklyView.DecimalString | app/weekly-view/page.tsx:29 | a key is enumerated as a non-empty string of decimal digits |
| WeeklyView.ParseDecimalString | app/weekly-view/page.tsx:30 | parsing the enumerated key gives back the week number |
| WeeklyView.Entries | app/weekly-view/page.tsx:29 | one entry per week in ascending order, with the week as its decimal key and that week's bucket |
| WeeklyView.WeeklyRevenueData | app/weekly-view/page.tsx:28-34 | one point per week in the dictionary |
| WeeklyView.WeeklySpendData | app/weekly-view/page.tsx:36-42 | one point per week in the dictionary |
| WeeklyView.RevenueSeries | app/weekly-view/page.tsx:28-34 | point `i` has the `i`-th week in ascending order as `x`, that week's revenue as `y` and "W" followed by the week as its label |
| WeeklyView.SpendSeries | app/weekly-view/page.tsx:36-42 | the same, with that week's spend bucket as `y` |
| WeeklyView.AscendingRange | app/weekly-view/page.tsx:29 | the keys lo..hi enumerate as lo, lo+1, …, hi |
| WeeklyView.SeriesAligned | app/weekly-view/page.tsx:28-42 | the two series have the same length, the same week and label at each position, and strictly ascending weeks |
| WeeklyView.SeriesOfWeeklyPerformance | app/weekly-view/page.tsx:11-42 | for the page's dictionary, point `i` of each series is week `i + 1`, labelled "W" and the week number, with that week's summed revenue as its value in both series |
| DeviceView.Summary | app/views/device-view/page.tsx:12-34 | a result exactly when campaign data is present |
| DeviceView.DeviceSumSnoc | app/views/device-view/page.tsx:22-25 | an entry adds its spend, revenue and conversions to the bucket of its own label only |
| DeviceView.DeviceBucket.constructor | app/views/device-view/page.tsx:15-18 | a bucket starts at zero |
| DeviceView.DevicePerformance | app/views/device-view/page.tsx:12-34 | no result without campaign data; otherwise `desktop` and `mobile` hold the sums over the entries labelled exactly "Desktop" and exactly "Mobile" |
| DeviceView.AddDevice | app/views/device-view/page.tsx:22-26 | the inner callback for one entry keeps both buckets equal to the sums over the entries seen so far, that entry included |
| DeviceView.OnlyLabelCounts | app/views/device-view/page.tsx:22 | removing every entry with another label leaves a bucket unchanged |
| DeviceView.OtherLabelsIgnored | app/views/device-view/page.tsx:22 | entries with other labels, such as "Tablet" or "desktop", add nothing to a bucket |
| DeviceView.DeviceSumAppend | app/views/device-view/page.tsx:20-28 | a bucket's sums over two runs of entries add up |
| DeviceView.NoDeviceEntries | app/views/device-view/page.tsx:15-18 | campaigns without device entries give a result with both buckets at zero, not the absent result |
| DeviceView.AllDevicesEmpty | app/views/device-view/page.tsx:20-21 | campaigns without device entries contribute no entries |
| DeviceView.LabelExample | app/views/device-view/page.tsx:22-25 | a Desktop, a Tablet and a Mobile entry: each of the first and last lands in its own bucket, the Tablet in neither |
| LegacyDeviceView.AddDevice | app/device-view/page.tsx:39-43 | the inner callback for one entry keeps the record holding exactly the two labels, each with the sums over the entries seen so far |
| LegacyDeviceView.DevicePerformance | app/device-view/page.tsx:30-52 | the older copy of the page gives the same result as `DeviceView.DevicePerformance` on every input |
| MarketingDataRoute.AllowedOrigins | app/api/marketing-data/route.ts:8-11 | the two allowed origins, as exact strings, the second with a trailing slash |
| MarketingDataRoute.ValidateOrigin | app/api/marketing-data/route.ts:21-23 | development mode accepts every origin; a missing origin is accepted; otherwise a non-empty origin is accepted exactly when it equals one of the allowed strings |
| MarketingDataRoute.Get | app/api/marketing-data/route.ts:31-37 | a request is forbidden exactly when the check fails, and is then answered with status 403 and "Not allowed by CORS" |
| MarketingDataRoute.RefusedRequests | app/api/marketing-data/route.ts:22 | refused exactly when the origin is present, non-empty, not in the list, and the mode is not development |
| MarketingDataRoute.EmptyOriginAccepted | app/api/marketing-data/route.ts:22 | an empty origin counts as no origin |
| MarketingDataRoute.LocalhostAccepted | app/api/marketing-data/route.ts:8-9 | the local development origin is accepted in every mode |
| MarketingDataRoute.DeployedOriginRefusedInProduction | app/api/marketing-data/route.ts:10 | the comparison is exact: the deployed origin without the listed trailing slash is refused in production, and the listed string itself passes |
| MarketingDataRoute.DevelopmentAcceptsAll | app/api/marketing-data/route.ts:22 | in development mode nothing is refused |

## Left out

- Fetching and state: the data provider, the API client, the `useEffect`
  loaders, and the loading and error states of the pages. This is network
  I/O and React state. The pages' input is the `Option<seq<Campaign>>`
  that the provider would hold.
- The proxy's I/O: reading the Origin header, the upstream `fetch`, the
  CORS and cache headers, `OPTIONS`, and the 500 answer. This is network
  and framework behaviour. The Origin header and `NODE_ENV` are parameters
  of `ValidateOrigin` and `Get`.
- Rendering: JSX, the chart's SVG geometry, the map's circle sizes and
  colours, and the Leaflet calls.
- Floating point: amounts are exact `real`s. IEEE-754 rounding in the
  sums, the apportioning and the rates is not modelled, and neither are
  `toLocaleString` and `toFixed`.
- `useMemo` caching and its dependency arrays: they change when a value is
  computed, not what it is.
- The dataset's type file is not part of this model. The records hold the
  fields the pages read. In a regional entry, `country` stands for every
  field that is copied from the first entry without being summed.
- Object key order for special keys: a region name or age group that looks
  like an array index (such as "12") would enumerate before the other keys
  in JavaScript. A name such as "constructor" or "toString" would find an
  inherited property in the `!performance[key]` test. The model treats
  every region name and age group as an ordinary key in insertion order.
  The same holds for two other lookups:
  - The `regionCoordinates[region.region]` lookup of the map filter: a
    region named "toString" or "constructor" finds an inherited, truthy
    value, so the page would emit a point where `MapData` emits none.
  - The gender keys of the age×gender dictionary: a "__proto__" gender
    would write its age-group entries onto the object prototype, and a
    later slice of that age group for another gender would then update the
    inherited entry and be missing from `Object.entries`. The model treats
    every gender as an ordinary key.
- `WeeklyView.WeeklyPerformance`: the spend bucket sums each week's
  revenue, not its spend, as the page does. `SpendBucketIgnoresSpend` shows
  this with an example.
- `DemographicView.AgeGenderPerformance`: slices with genders other than
  "Male" and "Female" get dictionaries of their own, which the model keeps
  and the page never shows. Its contract speaks only about the two tables
  that are returned.
