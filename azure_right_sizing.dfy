/**
 * Right-sizing engine of the Azure Functions: aggregates the hourly Azure
 * Monitor samples of a VM or scale set, looks its SKU up in a closed ladder of
 * B-series sizes and recommends downsize, upsize, monitor or optimal; the
 * scheduled analysis and the HTTP trigger differ in what they record.
 *
 * The resource listings and the metric responses arrive as inputs.
 */
module AzureRightSizing {
  import opened Common

  // ---------------------------------------------------------------------
  // Metric samples
  // ---------------------------------------------------------------------

  /** One point of a metric time series; only `average` is ever read. */
  datatype DataPoint = DataPoint(average: Option<real>, maximum: Option<real>)

  datatype TimeSeries = TimeSeries(data: seq<DataPoint>)

  datatype Metric = Metric(timeseries: seq<TimeSeries>)

  /** The answer of the two `metrics.list` calls (CPU, then memory). */
  datatype MetricQuery = MetricQuery(cpu: seq<Metric>, memory: seq<Metric>)

  /** The non-None averages of a series, in order. */
  function PointSamples(data: seq<DataPoint>): seq<real>
  {
    if |data| == 0 then []
    else PointSamples(data[..|data| - 1]) +
         (if data[|data| - 1].average.Some? then [data[|data| - 1].average.value] else [])
  }

  function SeriesSamples(series: seq<TimeSeries>): seq<real>
  {
    if |series| == 0 then [] else SeriesSamples(series[..|series| - 1]) + PointSamples(series[|series| - 1].data)
  }

  /** The list the three nested loops build: every non-None average, metric by metric, series by series. */
  function Samples(metrics: seq<Metric>): seq<real>
  {
    if |metrics| == 0 then [] else Samples(metrics[..|metrics| - 1]) + SeriesSamples(metrics[|metrics| - 1].timeseries)
  }

  /** The dictionary `get_vm_utilization` returns. */
  datatype Utilization = Utilization(cpuAvg: real, cpuMax: real, memoryAvg: real, cpuSamples: nat, memorySamples: nat)

  /**
   * Mean and maximum of the CPU samples and mean of the memory samples, each
   * 0 when there is none; the counts are the numbers of samples.
   */
  function UtilizationOf(cpuData: seq<real>, memoryData: seq<real>): (u: Utilization)
    ensures u.cpuSamples == |cpuData| && u.memorySamples == |memoryData|
    ensures |cpuData| == 0 ==> u.cpuAvg == 0.0 && u.cpuMax == 0.0
    ensures |cpuData| > 0 ==> u.cpuAvg <= u.cpuMax &&
                              (forall i :: 0 <= i < |cpuData| ==> cpuData[i] <= u.cpuMax) &&
                              (exists i :: 0 <= i < |cpuData| && cpuData[i] == u.cpuMax)
    ensures |memoryData| == 0 ==> u.memoryAvg == 0.0
  {
    var memoryAvg := if |memoryData| > 0 then Mean(memoryData) else 0.0;
    if |cpuData| > 0 then
      MeanAtMostMax(cpuData);
      Utilization(Mean(cpuData), Max(cpuData), memoryAvg, |cpuData|, |memoryData|)
    else
      Utilization(0.0, 0.0, memoryAvg, 0, |memoryData|)
  }

  lemma {:induction false} PointSamplesMembers(data: seq<DataPoint>)
    ensures forall x :: x in PointSamples(data) <==> exists k :: 0 <= k < |data| && data[k].average == Some(x)
  {
    if |data| > 0 {
      var init := data[..|data| - 1];
      PointSamplesMembers(init);
      forall x | exists k :: 0 <= k < |data| && data[k].average == Some(x)
        ensures x in PointSamples(data)
      {
        var k :| 0 <= k < |data| && data[k].average == Some(x);
        if k < |init| { assert init[k] == data[k]; }
      }
      forall x | x in PointSamples(init) ensures exists k :: 0 <= k < |data| && data[k].average == Some(x) {
        var k :| 0 <= k < |init| && init[k].average == Some(x);
        assert data[k] == init[k];
      }
    }
  }

  lemma {:induction false} SeriesSamplesMembers(series: seq<TimeSeries>)
    ensures forall x :: x in SeriesSamples(series) <==>
              exists j, k :: 0 <= j < |series| && 0 <= k < |series[j].data| && series[j].data[k].average == Some(x)
  {
    if |series| > 0 {
      var init, last := series[..|series| - 1], series[|series| - 1];
      SeriesSamplesMembers(init);
      PointSamplesMembers(last.data);
      forall x | exists j, k :: 0 <= j < |series| && 0 <= k < |series[j].data| && series[j].data[k].average == Some(x)
        ensures x in SeriesSamples(series)
      {
        var j, k :| 0 <= j < |series| && 0 <= k < |series[j].data| && series[j].data[k].average == Some(x);
        if j < |init| { assert init[j] == series[j]; }
      }
      forall x | x in SeriesSamples(init)
        ensures exists j, k :: 0 <= j < |series| && 0 <= k < |series[j].data| && series[j].data[k].average == Some(x)
      {
        var j, k :| 0 <= j < |init| && 0 <= k < |init[j].data| && init[j].data[k].average == Some(x);
        assert series[j] == init[j];
      }
      forall x | x in PointSamples(last.data)
        ensures exists j, k :: 0 <= j < |series| && 0 <= k < |series[j].data| && series[j].data[k].average == Some(x)
      {
        var k :| 0 <= k < |last.data| && last.data[k].average == Some(x);
        assert series[|series| - 1].data[k].average == Some(x);
      }
    }
  }

  /** The aggregation keeps exactly the averages that are present: a None sample never enters. */
  lemma {:induction false} SamplesMembers(metrics: seq<Metric>)
    ensures forall x :: x in Samples(metrics) <==>
              exists i, j, k :: 0 <= i < |metrics| && 0 <= j < |metrics[i].timeseries| &&
                                0 <= k < |metrics[i].timeseries[j].data| &&
                                metrics[i].timeseries[j].data[k].average == Some(x)
  {
    if |metrics| > 0 {
      var init, last := metrics[..|metrics| - 1], metrics[|metrics| - 1];
      SamplesMembers(init);
      SeriesSamplesMembers(last.timeseries);
      forall x | exists i, j, k :: 0 <= i < |metrics| && 0 <= j < |metrics[i].timeseries| &&
                                   0 <= k < |metrics[i].timeseries[j].data| &&
                                   metrics[i].timeseries[j].data[k].average == Some(x)
        ensures x in Samples(metrics)
      {
        var i, j, k :| 0 <= i < |metrics| && 0 <= j < |metrics[i].timeseries| &&
                       0 <= k < |metrics[i].timeseries[j].data| && metrics[i].timeseries[j].data[k].average == Some(x);
        if i < |init| { assert init[i] == metrics[i]; }
      }
      forall x | x in Samples(init)
        ensures exists i, j, k :: 0 <= i < |metrics| && 0 <= j < |metrics[i].timeseries| &&
                                  0 <= k < |metrics[i].timeseries[j].data| &&
                                  metrics[i].timeseries[j].data[k].average == Some(x)
      {
        var i, j, k :| 0 <= i < |init| && 0 <= j < |init[i].timeseries| &&
                       0 <= k < |init[i].timeseries[j].data| && init[i].timeseries[j].data[k].average == Some(x);
        assert metrics[i] == init[i];
      }
      forall x | x in SeriesSamples(last.timeseries)
        ensures exists i, j, k :: 0 <= i < |metrics| && 0 <= j < |metrics[i].timeseries| &&
                                  0 <= k < |metrics[i].timeseries[j].data| &&
                                  metrics[i].timeseries[j].data[k].average == Some(x)
      {
        var j, k :| 0 <= j < |last.timeseries| && 0 <= k < |last.timeseries[j].data| &&
                    last.timeseries[j].data[k].average == Some(x);
        assert metrics[|metrics| - 1].timeseries[j].data[k].average == Some(x);
      }
    }
  }

  /** The three nested loops of `get_vm_utilization` over one metric response. */
  method CollectAverages(metrics: seq<Metric>) returns (data: seq<real>)
    ensures data == Samples(metrics)
  {
    data := [];
    for i := 0 to |metrics|
      invariant data == Samples(metrics[..i])
    {
      assert metrics[..i + 1][..i] == metrics[..i];
      data := CollectSeries(data, metrics[i].timeseries);
    }
    assert metrics[..|metrics|] == metrics;
  }

  /** The two inner loops: the averages of every series of one metric, appended to `before`. */
  method CollectSeries(before: seq<real>, series: seq<TimeSeries>) returns (data: seq<real>)
    ensures data == before + SeriesSamples(series)
  {
    data := before;
    for j := 0 to |series|
      invariant data == before + SeriesSamples(series[..j])
    {
      assert series[..j + 1][..j] == series[..j];
      data := CollectPoints(data, series[j].data);
    }
    assert series[..|series|] == series;
  }

  /** The innermost loop: the non-None averages of one series, appended to `before`. */
  method CollectPoints(before: seq<real>, points: seq<DataPoint>) returns (data: seq<real>)
    ensures data == before + PointSamples(points)
  {
    data := before;
    for k := 0 to |points|
      invariant data == before + PointSamples(points[..k])
    {
      assert points[..k + 1][..k] == points[..k];
      if points[k].average.Some? {
        data := data + [points[k].average.value];
      }
    }
    assert points[..|points|] == points;
  }

  /** `get_vm_utilization` once both metric responses have been fetched. */
  method GetVmUtilization(query: MetricQuery) returns (u: Utilization)
    ensures u == UtilizationOf(Samples(query.cpu), Samples(query.memory))
  {
    var cpuData := CollectAverages(query.cpu);
    var memoryData := CollectAverages(query.memory);
    u := Utilization(
      if |cpuData| > 0 then Sum(cpuData) / (|cpuData| as real) else 0.0,
      if |cpuData| > 0 then Max(cpuData) else 0.0,
      if |memoryData| > 0 then Sum(memoryData) / (|memoryData| as real) else 0.0,
      |cpuData|,
      |memoryData|);
  }

  // ---------------------------------------------------------------------
  // The SKU matrix
  // ---------------------------------------------------------------------

  /** A matrix entry: vCPU weight (unused by the decision), next size up, next size down. */
  datatype SkuInfo = SkuInfo(cpu: nat, next: Option<string>, prev: Option<string>)

  const SkuMatrix: map<string, SkuInfo> := map[
    "Standard_B1s" := SkuInfo(20, Some("Standard_B1ms"), None),
    "Standard_B1ms" := SkuInfo(40, Some("Standard_B2s"), Some("Standard_B1s")),
    "Standard_B2s" := SkuInfo(60, Some("Standard_B2ms"), Some("Standard_B1ms")),
    "Standard_B2ms" := SkuInfo(80, Some("Standard_B4ms"), Some("Standard_B2s")),
    "Standard_B4ms" := SkuInfo(120, Some("Standard_B8ms"), Some("Standard_B2ms")),
    "Standard_B8ms" := SkuInfo(240, Some("Standard_B12ms"), Some("Standard_B4ms")),
    "Standard_B12ms" := SkuInfo(360, Some("Standard_B16ms"), Some("Standard_B8ms")),
    "Standard_B16ms" := SkuInfo(480, Some("Standard_B20ms"), Some("Standard_B12ms")),
    "Standard_B20ms" := SkuInfo(640, None, Some("Standard_B16ms"))
  ]

  /** The matrix is a doubly linked ladder from `Standard_B1s` to `Standard_B20ms`. */
  lemma SkuMatrixConsistent()
    ensures forall s :: s in SkuMatrix && SkuMatrix[s].next.Some? ==>
              SkuMatrix[s].next.value in SkuMatrix && SkuMatrix[SkuMatrix[s].next.value].prev == Some(s)
    ensures forall s :: s in SkuMatrix && SkuMatrix[s].prev.Some? ==>
              SkuMatrix[s].prev.value in SkuMatrix && SkuMatrix[SkuMatrix[s].prev.value].next == Some(s)
    ensures forall s :: s in SkuMatrix && SkuMatrix[s].prev.None? ==> s == "Standard_B1s"
    ensures forall s :: s in SkuMatrix && SkuMatrix[s].next.None? ==> s == "Standard_B20ms"
    ensures SkuMatrix["Standard_B1s"].prev.None? && SkuMatrix["Standard_B20ms"].next.None?
  {
    NextLinksBack();
    PrevLinksBack();
    LadderEnds();
  }

  /** The nine rows of the matrix, and no other key. */
  lemma SkuRows()
    ensures forall s :: s in SkuMatrix <==>
              s == "Standard_B1s" || s == "Standard_B1ms" || s == "Standard_B2s" || s == "Standard_B2ms" ||
              s == "Standard_B4ms" || s == "Standard_B8ms" || s == "Standard_B12ms" || s == "Standard_B16ms" ||
              s == "Standard_B20ms"
    ensures SkuMatrix["Standard_B1s"] == SkuInfo(20, Some("Standard_B1ms"), None)
    ensures SkuMatrix["Standard_B1ms"] == SkuInfo(40, Some("Standard_B2s"), Some("Standard_B1s"))
    ensures SkuMatrix["Standard_B2s"] == SkuInfo(60, Some("Standard_B2ms"), Some("Standard_B1ms"))
    ensures SkuMatrix["Standard_B2ms"] == SkuInfo(80, Some("Standard_B4ms"), Some("Standard_B2s"))
    ensures SkuMatrix["Standard_B4ms"] == SkuInfo(120, Some("Standard_B8ms"), Some("Standard_B2ms"))
    ensures SkuMatrix["Standard_B8ms"] == SkuInfo(240, Some("Standard_B12ms"), Some("Standard_B4ms"))
    ensures SkuMatrix["Standard_B12ms"] == SkuInfo(360, Some("Standard_B16ms"), Some("Standard_B8ms"))
    ensures SkuMatrix["Standard_B16ms"] == SkuInfo(480, Some("Standard_B20ms"), Some("Standard_B12ms"))
    ensures SkuMatrix["Standard_B20ms"] == SkuInfo(640, None, Some("Standard_B16ms"))
  {
  }

  /** Every next size up is in the matrix and names the size below it as its next size down. */
  lemma NextLinksBack()
    ensures forall s :: s in SkuMatrix && SkuMatrix[s].next.Some? ==>
              SkuMatrix[s].next.value in SkuMatrix && SkuMatrix[SkuMatrix[s].next.value].prev == Some(s)
  {
    SkuRows();
  }

  /** Every next size down is in the matrix and names the size above it as its next size up. */
  lemma PrevLinksBack()
    ensures forall s :: s in SkuMatrix && SkuMatrix[s].prev.Some? ==>
              SkuMatrix[s].prev.value in SkuMatrix && SkuMatrix[SkuMatrix[s].prev.value].next == Some(s)
  {
    SkuRows();
  }

  /** Only `Standard_B1s` lacks a smaller size and only `Standard_B20ms` a larger one. */
  lemma LadderEnds()
    ensures forall s :: s in SkuMatrix && SkuMatrix[s].prev.None? ==> s == "Standard_B1s"
    ensures forall s :: s in SkuMatrix && SkuMatrix[s].next.None? ==> s == "Standard_B20ms"
    ensures SkuMatrix["Standard_B1s"].prev.None? && SkuMatrix["Standard_B20ms"].next.None?
  {
    SkuRows();
  }

  // ---------------------------------------------------------------------
  // The recommendation
  // ---------------------------------------------------------------------

  /** The `action` of a recommendation, with the SKU it carries (the texts are not modelled). */
  datatype Recommendation = Unknown | Downsize(recommendedSku: string) | Upsize(recommendedSku: string) | Monitor | Optimal

  /** The low band: `cpu_avg < 20 and cpu_max < 40`. */
  predicate Underutilized(u: Utilization)
  {
    u.cpuAvg < 20.0 && u.cpuMax < 40.0
  }

  /** The high band: `cpu_avg > 80 or cpu_max > 90`. */
  predicate Overutilized(u: Utilization)
  {
    u.cpuAvg > 80.0 || u.cpuMax > 90.0
  }

  /** `get_right_sizing_recommendation`: only a SKU outside the matrix is `unknown`. */
  function GetRightSizingRecommendation(currentSku: string, u: Utilization): (r: Recommendation)
    ensures r == Unknown <==> currentSku !in SkuMatrix
  {
    if currentSku !in SkuMatrix then Unknown
    else
      var info := SkuMatrix[currentSku];
      if Underutilized(u) && info.prev.Some? then Downsize(info.prev.value)
      else if Overutilized(u) then
        if info.next.Some? then Upsize(info.next.value) else Monitor
      else Optimal
  }

  /** Downsizing happens exactly in the low band with a smaller size available, and to that size. */
  lemma DownsizeRule(currentSku: string, u: Utilization)
    requires currentSku in SkuMatrix
    ensures var r := GetRightSizingRecommendation(currentSku, u);
            && (r.Downsize? <==> Underutilized(u) && SkuMatrix[currentSku].prev.Some?)
            && (r.Downsize? ==> Some(r.recommendedSku) == SkuMatrix[currentSku].prev)
  {
  }

  /** The smallest size is never downsized. */
  lemma SmallestNeverDownsized(u: Utilization)
    ensures !GetRightSizingRecommendation("Standard_B1s", u).Downsize?
  {
  }

  /** In the high band the answer is the next size up, or `monitor` at the top of the ladder. */
  lemma UpsizeRule(currentSku: string, u: Utilization)
    requires currentSku in SkuMatrix && Overutilized(u)
    ensures GetRightSizingRecommendation(currentSku, u) ==
              if SkuMatrix[currentSku].next.Some? then Upsize(SkuMatrix[currentSku].next.value) else Monitor
    ensures currentSku == "Standard_B20ms" ==> GetRightSizingRecommendation(currentSku, u) == Monitor
  {
  }

  /** A known SKU gets `optimal` exactly when neither rule applies. */
  lemma OptimalRule(currentSku: string, u: Utilization)
    requires currentSku in SkuMatrix
    ensures GetRightSizingRecommendation(currentSku, u) == Optimal <==>
              !(Underutilized(u) && SkuMatrix[currentSku].prev.Some?) && !Overutilized(u)
  {
  }

  /** A recommended SKU is always one rung of the matrix away from the current one. */
  lemma RecommendedSkuIsNeighbour(currentSku: string, u: Utilization)
    ensures var r := GetRightSizingRecommendation(currentSku, u);
            && (r.Downsize? ==> r.recommendedSku in SkuMatrix && SkuMatrix[r.recommendedSku].next == Some(currentSku))
            && (r.Upsize? ==> r.recommendedSku in SkuMatrix && SkuMatrix[r.recommendedSku].prev == Some(currentSku))
  {
    if currentSku in SkuMatrix {
      var info := SkuMatrix[currentSku];
      NextLinksBack();
      PrevLinksBack();
      assert info.prev.Some? ==> SkuMatrix[info.prev.value].next == Some(currentSku);
      assert info.next.Some? ==> SkuMatrix[info.next.value].prev == Some(currentSku);
    }
  }

  // ---------------------------------------------------------------------
  // Which results are recorded
  // ---------------------------------------------------------------------

  /**
   * A VM or scale set as listed, with its SKU (`vmss.sku.name` or
   * `vm.hardware_profile.vm_size`) and the metric answer, `None` when the
   * monitor call raised (the resource is then logged and skipped).
   */
  datatype MonitoredResource = MonitoredResource(name: string, sku: string, query: Option<MetricQuery>)

  datatype ResourceType = VmScaleSet | VirtualMachine

  /** An entry of the scheduled analysis (the string timestamp is shared by all entries). */
  datatype Entry = Entry(resourceType: ResourceType, resourceName: string, currentSku: string,
                         utilization: Utilization, recommendation: Recommendation, timestamp: string)

  /** An entry of the HTTP trigger's answer. */
  datatype HttpEntry = HttpEntry(vmName: string, currentSku: string, cpuAvg: real, cpuMax: real,
                                 recommendation: Recommendation)

  /** Utilization of a resource whose metrics were fetched and which has at least one CPU sample. */
  function Analyzed(resource: MonitoredResource): (a: Option<Utilization>)
    ensures a.Some? <==> resource.query.Some? && |Samples(resource.query.value.cpu)| > 0
    ensures a.Some? ==> a.value == UtilizationOf(Samples(resource.query.value.cpu), Samples(resource.query.value.memory))
  {
    match resource.query
    case None => None
    case Some(q) =>
      var u := UtilizationOf(Samples(q.cpu), Samples(q.memory));
      if u.cpuSamples > 0 then Some(u) else None
  }

  /** The scheduled analysis keeps an analysed resource unless its action is `optimal`. */
  function ScheduledRecords(kind: ResourceType, timestamp: string, resources: seq<MonitoredResource>): seq<Entry>
  {
    if |resources| == 0 then []
    else
      var last := resources[|resources| - 1];
      ScheduledRecords(kind, timestamp, resources[..|resources| - 1]) +
      match Analyzed(last)
      case None => []
      case Some(u) =>
        var rec := GetRightSizingRecommendation(last.sku, u);
        if rec != Optimal then [Entry(kind, last.name, last.sku, u, rec, timestamp)] else []
  }

  /** The HTTP trigger keeps every analysed resource, `optimal` ones included. */
  function HttpRecords(resources: seq<MonitoredResource>): seq<HttpEntry>
  {
    if |resources| == 0 then []
    else
      var last := resources[|resources| - 1];
      HttpRecords(resources[..|resources| - 1]) +
      match Analyzed(last)
      case None => []
      case Some(u) => [HttpEntry(last.name, last.sku, u.cpuAvg, u.cpuMax, GetRightSizingRecommendation(last.sku, u))]
  }

  function AsHttpEntry(e: Entry): HttpEntry
  {
    HttpEntry(e.resourceName, e.currentSku, e.utilization.cpuAvg, e.utilization.cpuMax, e.recommendation)
  }

  function AsHttpEntries(entries: seq<Entry>): (r: seq<HttpEntry>)
    ensures |r| == |entries|
  {
    if |entries| == 0 then [] else AsHttpEntries(entries[..|entries| - 1]) + [AsHttpEntry(entries[|entries| - 1])]
  }

  function NonOptimal(entries: seq<HttpEntry>): seq<HttpEntry>
  {
    if |entries| == 0 then []
    else NonOptimal(entries[..|entries| - 1]) +
         if entries[|entries| - 1].recommendation != Optimal then [entries[|entries| - 1]] else []
  }

  lemma AsHttpEntriesAppend(a: seq<Entry>, b: seq<Entry>)
    ensures AsHttpEntries(a + b) == AsHttpEntries(a) + AsHttpEntries(b)
    decreases |b|
  {
    if |b| > 0 {
      assert (a + b)[..|a + b| - 1] == a + b[..|b| - 1];
      AsHttpEntriesAppend(a, b[..|b| - 1]);
    } else {
      assert a + b == a;
    }
  }

  /**
   * On the same metric answers, the VMs the scheduled analysis records are
   * exactly the HTTP trigger's entries without the `optimal` ones, in the same order.
   */
  lemma {:induction false} ScheduledIsHttpWithoutOptimal(timestamp: string, vms: seq<MonitoredResource>)
    ensures AsHttpEntries(ScheduledRecords(VirtualMachine, timestamp, vms)) == NonOptimal(HttpRecords(vms))
  {
    if |vms| > 0 {
      var init, last := vms[..|vms| - 1], vms[|vms| - 1];
      ScheduledIsHttpWithoutOptimal(timestamp, init);
      var tail := match Analyzed(last)
        case None => []
        case Some(u) =>
          var rec := GetRightSizingRecommendation(last.sku, u);
          if rec != Optimal then [Entry(VirtualMachine, last.name, last.sku, u, rec, timestamp)] else [];
      AsHttpEntriesAppend(ScheduledRecords(VirtualMachine, timestamp, init), tail);
      var http := HttpRecords(vms);
      if Analyzed(last).Some? {
        assert http[..|http| - 1] == HttpRecords(init);
      } else {
        assert http == HttpRecords(init);
      }
    }
  }

  /** Every scheduled entry was analysed with CPU data, is not `optimal`, and names an input resource. */
  lemma {:induction false} ScheduledEntries(kind: ResourceType, timestamp: string, resources: seq<MonitoredResource>)
    ensures var entries := ScheduledRecords(kind, timestamp, resources);
            && |entries| <= |HttpRecords(resources)| <= |resources|
            && forall k :: 0 <= k < |entries| ==>
                 && entries[k].recommendation != Optimal
                 && entries[k].utilization.cpuSamples > 0
                 && entries[k].resourceType == kind
                 && exists i :: 0 <= i < |resources| && resources[i].name == entries[k].resourceName &&
                                resources[i].sku == entries[k].currentSku
  {
    if |resources| > 0 {
      var init := resources[..|resources| - 1];
      ScheduledEntries(kind, timestamp, init);
      var entries := ScheduledRecords(kind, timestamp, resources);
      var entries0 := ScheduledRecords(kind, timestamp, init);
      forall k | 0 <= k < |entries|
        ensures exists i :: 0 <= i < |resources| && resources[i].name == entries[k].resourceName &&
                            resources[i].sku == entries[k].currentSku
      {
        if k < |entries0| {
          assert entries[k] == entries0[k];
          var i :| 0 <= i < |init| && init[i].name == entries0[k].resourceName && init[i].sku == entries0[k].currentSku;
          assert resources[i] == init[i];
        } else {
          assert resources[|resources| - 1].name == entries[k].resourceName;
        }
      }
    }
  }

  /** The scheduled run: scale sets first, then VMs, each through `get_vm_utilization`. */
  method RightSizingAnalysis(timestamp: string, scaleSets: seq<MonitoredResource>, vms: seq<MonitoredResource>)
    returns (recommendations: seq<Entry>)
    ensures recommendations == ScheduledRecords(VmScaleSet, timestamp, scaleSets) +
                               ScheduledRecords(VirtualMachine, timestamp, vms)
  {
    var fromScaleSets := AnalyzeAll(VmScaleSet, timestamp, scaleSets);
    var fromVms := AnalyzeAll(VirtualMachine, timestamp, vms);
    recommendations := fromScaleSets + fromVms;
  }

  /** One loop of `right_sizing_analysis`: the entries of one kind of resource, in listing order. */
  method AnalyzeAll(kind: ResourceType, timestamp: string, resources: seq<MonitoredResource>)
    returns (recommendations: seq<Entry>)
    ensures recommendations == ScheduledRecords(kind, timestamp, resources)
  {
    recommendations := [];
    for i := 0 to |resources|
      invariant recommendations == ScheduledRecords(kind, timestamp, resources[..i])
    {
      assert resources[..i + 1] == resources[..i] + [resources[i]];
      ScheduledRecordsAppend(kind, timestamp, resources[..i], resources[i]);
      var entry := AnalyzeForSchedule(kind, timestamp, resources[i]);
      recommendations := recommendations + entry;
    }
    assert resources[..|resources|] == resources;
  }

  /** The body of the scheduled loop for one resource: the entry it appends, if any. */
  method AnalyzeForSchedule(kind: ResourceType, timestamp: string, resource: MonitoredResource)
    returns (entry: seq<Entry>)
    ensures entry == ScheduledRecords(kind, timestamp, [resource])
  {
    assert [resource][..0] == [];
    entry := [];
    if resource.query.None? {
      return;
    }
    var utilization := GetVmUtilization(resource.query.value);
    if utilization.cpuSamples > 0 {
      var recommendation := GetRightSizingRecommendation(resource.sku, utilization);
      if recommendation != Optimal {
        entry := [Entry(kind, resource.name, resource.sku, utilization, recommendation, timestamp)];
      }
    }
  }

  lemma ScheduledRecordsAppend(kind: ResourceType, timestamp: string, resources: seq<MonitoredResource>, r: MonitoredResource)
    ensures ScheduledRecords(kind, timestamp, resources + [r]) ==
              ScheduledRecords(kind, timestamp, resources) + ScheduledRecords(kind, timestamp, [r])
  {
    assert (resources + [r])[..|resources|] == resources;
    assert [r][..0] == [];
  }

  /** `http_trigger_rightsizing`: every VM with CPU samples, with its recommendation. */
  method HttpTriggerRightsizing(vms: seq<MonitoredResource>) returns (recommendations: seq<HttpEntry>)
    ensures recommendations == HttpRecords(vms)
  {
    recommendations := [];
    for i := 0 to |vms|
      invariant recommendations == HttpRecords(vms[..i])
    {
      assert vms[..i + 1][..i] == vms[..i];
      var vm := vms[i];
      if vm.query.None? {
        continue;
      }
      var utilization := GetVmUtilization(vm.query.value);
      if utilization.cpuSamples > 0 {
        var recommendation := GetRightSizingRecommendation(vm.sku, utilization);
        recommendations := recommendations + [HttpEntry(vm.name, vm.sku, utilization.cpuAvg, utilization.cpuMax, recommendation)];
      }
    }
    assert vms[..|vms|] == vms;
  }
}
