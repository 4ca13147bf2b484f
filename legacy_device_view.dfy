/**
 * The older copy of the device page.  Its aggregation is written the same
 * way as the newer page's; here the `performance` record is modelled as a
 * dictionary indexed by the device label, and the aggregation is proved to
 * give exactly the newer page's result for every input.
 */
module LegacyDeviceView {
  import opened Dataset
  import DeviceView

  /** The record after the entries `xs`: exactly the two labels, each
      holding the sums over its own entries. */
  ghost predicate TracksDevices(performance: map<string, DeviceView.DeviceStats>, xs: seq<DevicePerformance>) {
    && performance.Keys == {"Desktop", "Mobile"}
    && performance["Desktop"] == DeviceView.DeviceSum(xs, "Desktop")
    && performance["Mobile"] == DeviceView.DeviceSum(xs, "Mobile")
  }

  /** One device entry: its amounts added to the record under its label
      when that label is exactly "Desktop" or "Mobile". */
  method AddDevice(devicePerf: DevicePerformance, performance: map<string, DeviceView.DeviceStats>,
                   ghost seen: seq<DevicePerformance>)
    returns (performance': map<string, DeviceView.DeviceStats>)
    requires TracksDevices(performance, seen)
    ensures TracksDevices(performance', seen + [devicePerf])
  {
    DeviceView.DeviceSumSnoc(seen, devicePerf, "Desktop");
    DeviceView.DeviceSumSnoc(seen, devicePerf, "Mobile");
    performance' := performance;
    if devicePerf.device == "Desktop" || devicePerf.device == "Mobile" {
      var stats := performance[devicePerf.device];
      performance' := performance[devicePerf.device := DeviceView.DeviceStats(
        stats.spend + devicePerf.spend,
        stats.revenue + devicePerf.revenue,
        stats.conversions + devicePerf.conversions)];
    }
  }

  /** The older page's aggregation: the same result as the newer page's. */
  method DevicePerformance(data: Option<seq<Campaign>>) returns (result: Option<DeviceView.DeviceSummary>)
    ensures result == DeviceView.Summary(data)
  {
    if data.None? {
      return None;
    }
    var campaigns := data.value;
    var performance := map["Desktop" := DeviceView.NoDeviceActivity, "Mobile" := DeviceView.NoDeviceActivity];
    for i := 0 to |campaigns|
      invariant TracksDevices(performance, DeviceView.AllDevices(campaigns[..i]))
    {
      var devices := campaigns[i].devicePerformance;
      ghost var done := DeviceView.AllDevices(campaigns[..i]);
      assert done + devices[..0] == done;
      for j := 0 to |devices|
        invariant TracksDevices(performance, done + devices[..j])
      {
        performance := AddDevice(devices[j], performance, done + devices[..j]);
        DeviceView.PrefixStep(done, devices, j);
      }
      assert devices[..|devices|] == devices;
      DeviceView.AllDevicesStep(campaigns, i);
    }
    assert campaigns[..|campaigns|] == campaigns;
    return Some(DeviceView.DeviceSummary(performance["Desktop"], performance["Mobile"]));
  }
}
