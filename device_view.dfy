/**
 * The device page: the device entries of all campaigns are summed into two
 * buckets, one for the label "Desktop" and one for "Mobile"; entries with
 * any other label are skipped.  Without campaign data there is no result.
 */
module DeviceView {
  import opened Dataset

  // ---------------------------------------------------------------------
  // Specification

  datatype DeviceStats = DeviceStats(spend: real, revenue: real, conversions: int)

  const NoDeviceActivity := DeviceStats(0.0, 0.0, 0)

  /** The page's result: the two buckets under their lower-case names. */
  datatype DeviceSummary = DeviceSummary(desktop: DeviceStats, mobile: DeviceStats)

  /** Every device entry of every campaign, campaigns outside, entries inside. */
  function AllDevices(cs: seq<Campaign>): seq<DevicePerformance> {
    if cs == [] then []
    else AllDevices(cs[..|cs| - 1]) + cs[|cs| - 1].devicePerformance
  }

  /** The sums over the entries labelled exactly `device`. */
  function DeviceSum(xs: seq<DevicePerformance>, device: string): DeviceStats {
    if xs == [] then NoDeviceActivity
    else
      var acc, x := DeviceSum(xs[..|xs| - 1], device), xs[|xs| - 1];
      if x.device == device then DeviceStats(acc.spend + x.spend, acc.revenue + x.revenue, acc.conversions + x.conversions)
      else acc
  }

  /** What the page computes: nothing without campaigns, otherwise the
      "Desktop" and "Mobile" sums. */
  function Summary(data: Option<seq<Campaign>>): (r: Option<DeviceSummary>)
    ensures r.None? <==> data.None?
  {
    match data
    case None => None
    case Some(cs) =>
      var xs := AllDevices(cs);
      Some(DeviceSummary(DeviceSum(xs, "Desktop"), DeviceSum(xs, "Mobile")))
  }

  lemma AllDevicesStep(cs: seq<Campaign>, i: nat)
    requires i < |cs|
    ensures AllDevices(cs[..i + 1]) == AllDevices(cs[..i]) + cs[i].devicePerformance
  {
    assert cs[..i + 1][..i] == cs[..i];
  }

  lemma DeviceSumSnoc(xs: seq<DevicePerformance>, x: DevicePerformance, device: string)
    ensures var s := DeviceSum(xs, device);
      DeviceSum(xs + [x], device) ==
        if x.device == device then DeviceStats(s.spend + x.spend, s.revenue + x.revenue, s.conversions + x.conversions)
        else s
  {
    assert (xs + [x])[..|xs|] == xs;
  }

  // ---------------------------------------------------------------------
  // The imperative aggregation

  /** One of the two records the page updates field by field. */
  class DeviceBucket {
    var spend: real
    var revenue: real
    var conversions: int

    constructor ()
      ensures Stats() == NoDeviceActivity
    {
      spend, revenue, conversions := 0.0, 0.0, 0;
    }

    function Stats(): DeviceStats
      reads this
    {
      DeviceStats(spend, revenue, conversions)
    }
  }

  /** One device entry: added to the bucket of its label when that label
      is exactly "Desktop" or "Mobile", otherwise skipped. */
  method AddDevice(devicePerf: DevicePerformance, desktop: DeviceBucket, mobile: DeviceBucket,
                   ghost seen: seq<DevicePerformance>)
    requires desktop != mobile
    requires desktop.Stats() == DeviceSum(seen, "Desktop")
    requires mobile.Stats() == DeviceSum(seen, "Mobile")
    modifies desktop, mobile
    ensures desktop.Stats() == DeviceSum(seen + [devicePerf], "Desktop")
    ensures mobile.Stats() == DeviceSum(seen + [devicePerf], "Mobile")
  {
    DeviceSumSnoc(seen, devicePerf, "Desktop");
    DeviceSumSnoc(seen, devicePerf, "Mobile");
    if devicePerf.device == "Desktop" || devicePerf.device == "Mobile" {
      var bucket := if devicePerf.device == "Desktop" then desktop else mobile;
      bucket.spend := bucket.spend + devicePerf.spend;
      bucket.revenue := bucket.revenue + devicePerf.revenue;
      bucket.conversions := bucket.conversions + devicePerf.conversions;
    }
  }

  lemma PrefixStep(done: seq<DevicePerformance>, xs: seq<DevicePerformance>, j: nat)
    requires j < |xs|
    ensures (done + xs[..j]) + [xs[j]] == done + xs[..j + 1]
  {
    assert xs[..j + 1] == xs[..j] + [xs[j]];
  }

  /** The page's aggregation; its result is `Summary(data)`. */
  method DevicePerformance(data: Option<seq<Campaign>>) returns (result: Option<DeviceSummary>)
    ensures result == Summary(data)
  {
    if data.None? {
      return None;
    }
    var campaigns := data.value;
    var desktop := new DeviceBucket();
    var mobile := new DeviceBucket();
    for i := 0 to |campaigns|
      invariant desktop != mobile
      invariant desktop.Stats() == DeviceSum(AllDevices(campaigns[..i]), "Desktop")
      invariant mobile.Stats() == DeviceSum(AllDevices(campaigns[..i]), "Mobile")
    {
      var devices := campaigns[i].devicePerformance;
      ghost var done := AllDevices(campaigns[..i]);
      assert done + devices[..0] == done;
      for j := 0 to |devices|
        invariant desktop.Stats() == DeviceSum(done + devices[..j], "Desktop")
        invariant mobile.Stats() == DeviceSum(done + devices[..j], "Mobile")
      {
        AddDevice(devices[j], desktop, mobile, done + devices[..j]);
        PrefixStep(done, devices, j);
      }
      assert devices[..|devices|] == devices;
      AllDevicesStep(campaigns, i);
    }
    assert campaigns[..|campaigns|] == campaigns;
    return Some(DeviceSummary(desktop.Stats(), mobile.Stats()));
  }

  // ---------------------------------------------------------------------
  // Properties of the sums

  /** The entries labelled `device`, in order. */
  function WithLabel(xs: seq<DevicePerformance>, device: string): seq<DevicePerformance> {
    if xs == [] then []
    else WithLabel(xs[..|xs| - 1], device) + (if xs[|xs| - 1].device == device then [xs[|xs| - 1]] else [])
  }

  /** Only the entries with the label count: removing every other entry
      changes nothing. */
  lemma {:induction false} OnlyLabelCounts(xs: seq<DevicePerformance>, device: string)
    ensures DeviceSum(WithLabel(xs, device), device) == DeviceSum(xs, device)
  {
    if xs != [] {
      var init, x := xs[..|xs| - 1], xs[|xs| - 1];
      assert xs == init + [x];
      OnlyLabelCounts(init, device);
      DeviceSumSnoc(init, x, device);
      if x.device == device {
        assert WithLabel(xs, device) == WithLabel(init, device) + [x];
        DeviceSumSnoc(WithLabel(init, device), x, device);
      } else {
        assert WithLabel(xs, device) == WithLabel(init, device);
      }
    }
  }

  /** Entries with other labels, such as "Tablet" or a lower-case
      "desktop", add nothing to the bucket of `device`. */
  lemma {:induction false} OtherLabelsIgnored(xs: seq<DevicePerformance>, device: string)
    requires forall k :: 0 <= k < |xs| ==> xs[k].device != device
    ensures DeviceSum(xs, device) == NoDeviceActivity
  {
    if xs != [] {
      OtherLabelsIgnored(xs[..|xs| - 1], device);
    }
  }

  /** Sums over two runs of entries add up. */
  lemma {:induction false} DeviceSumAppend(xs: seq<DevicePerformance>, ys: seq<DevicePerformance>, device: string)
    ensures var a, b := DeviceSum(xs, device), DeviceSum(ys, device);
      DeviceSum(xs + ys, device) == DeviceStats(a.spend + b.spend, a.revenue + b.revenue, a.conversions + b.conversions)
  {
    if ys == [] {
      assert xs + ys == xs;
    } else {
      var init := ys[..|ys| - 1];
      assert (xs + ys)[..|xs + ys| - 1] == xs + init;
      DeviceSumAppend(xs, init, device);
    }
  }

  /** Campaigns without device entries still give a result, with both
      buckets at zero. */
  lemma {:induction false} NoDeviceEntries(cs: seq<Campaign>)
    requires forall i :: 0 <= i < |cs| ==> cs[i].devicePerformance == []
    ensures Summary(Some(cs)) == Some(DeviceSummary(NoDeviceActivity, NoDeviceActivity))
  {
    assert AllDevices(cs) == [] by {
      AllDevicesEmpty(cs);
    }
  }

  lemma {:induction false} AllDevicesEmpty(cs: seq<Campaign>)
    requires forall i :: 0 <= i < |cs| ==> cs[i].devicePerformance == []
    ensures AllDevices(cs) == []
  {
    if cs != [] {
      AllDevicesEmpty(cs[..|cs| - 1]);
    }
  }

  /** A tablet entry between a desktop and a mobile entry: each of those
      lands in its own bucket and the tablet in neither. */
  lemma LabelExample()
    ensures var xs := [Dataset.DevicePerformance("Desktop", 100.0, 300.0, 3),
                       Dataset.DevicePerformance("Tablet", 50.0, 80.0, 1),
                       Dataset.DevicePerformance("Mobile", 20.0, 60.0, 2)];
      && DeviceSum(xs, "Desktop") == DeviceStats(100.0, 300.0, 3)
      && DeviceSum(xs, "Mobile") == DeviceStats(20.0, 60.0, 2)
  {
    var a := Dataset.DevicePerformance("Desktop", 100.0, 300.0, 3);
    var b := Dataset.DevicePerformance("Tablet", 50.0, 80.0, 1);
    var c := Dataset.DevicePerformance("Mobile", 20.0, 60.0, 2);
    assert "Tablet" != "Desktop" && "Tablet" != "Mobile" && "Mobile" != "Desktop" by {
      assert "Tablet"[0] != "Desktop"[0] && "Tablet"[0] != "Mobile"[0] && "Mobile"[0] != "Desktop"[0];
    }
    assert [] + [a] == [a] && [a] + [b] == [a, b] && [a, b] + [c] == [a, b, c];
    DeviceSumSnoc([], a, "Desktop");
    DeviceSumSnoc([a], b, "Desktop");
    DeviceSumSnoc([a, b], c, "Desktop");
    DeviceSumSnoc([], a, "Mobile");
    DeviceSumSnoc([a], b, "Mobile");
    DeviceSumSnoc([a, b], c, "Mobile");
  }
}
