/**
 * Right-sizing engine of the AWS Lambda handler: splits an EC2 instance type
 * into family and size, moves one rung along a fixed size ladder when the
 * average CPU utilisation crosses a threshold, estimates the monthly saving
 * and reports the instances whose type would change.
 *
 * CloudWatch datapoints arrive as inputs; averages are reals.
 */
module AwsRightSizing {
  import opened Common
  import opened AwsPricing

  /** CPU_THRESHOLD_HIGH/LOW and MEMORY_THRESHOLD_HIGH/LOW, read once from the environment. */
  datatype Thresholds = Thresholds(cpuHigh: real, cpuLow: real, memoryHigh: real, memoryLow: real)

  /** The thresholds used when the environment sets none. */
  const DefaultThresholds := Thresholds(80.0, 10.0, 80.0, 10.0)

  /** ANALYSIS_PERIOD_DAYS when the environment sets none. */
  const DefaultAnalysisPeriodDays := 30

  /** The size ladder, smallest first. */
  const Sizes: seq<string> := ["nano", "micro", "small", "medium", "large", "xlarge", "2xlarge", "4xlarge"]

  // ---------------------------------------------------------------------
  // Instance types
  // ---------------------------------------------------------------------

  /** `instance_type.split('.')[0]`: always defined, never contains a dot. */
  function InstanceFamily(instanceType: string): (family: string)
    ensures '.' !in family
  {
    Split(instanceType, '.')[0]
  }

  /** The error `get_instance_size` raises for a type without a dot (IndexError). */
  datatype SizingError = NoSizeInInstanceType

  /** `instance_type.split('.')[1]`; `None` where Python raises IndexError. */
  function InstanceSize(instanceType: string): (size: Option<string>)
    ensures size.None? <==> '.' !in instanceType
    ensures size.Some? ==> '.' !in size.value
  {
    OccurrencesZero(instanceType, '.');
    var parts := Split(instanceType, '.');
    if |parts| > 1 then Some(parts[1]) else None
  }

  /** A type with exactly one dot is its family, a dot and its size. */
  lemma FamilySizeRoundTrip(instanceType: string)
    requires Occurrences(instanceType, '.') == 1
    ensures InstanceSize(instanceType).Some?
    ensures InstanceFamily(instanceType) + "." + InstanceSize(instanceType).value == instanceType
  {
    var parts := Split(instanceType, '.');
    JoinSplit(instanceType, '.');
    assert |parts| == 2;
    assert Join(parts, '.') == parts[0] + ['.'] + Join(parts[1..], '.');
  }

  /** The family and the size of `family.size` for a dot-free family and size. */
  lemma TypeOfFamilyAndSize(family: string, size: string)
    requires '.' !in family && '.' !in size
    ensures InstanceFamily(family + "." + size) == family
    ensures InstanceSize(family + "." + size) == Some(size)
  {
    SplitAtFirstSeparator(family, '.', size);
    SplitWithoutSeparator(size, '.');
    assert family + "." + size == family + ['.'] + size;
  }

  // ---------------------------------------------------------------------
  // The size ladder
  // ---------------------------------------------------------------------

  /** `list.index`: the first position of `x`, or `None` where Python raises ValueError. */
  function IndexOf(s: seq<string>, x: string): (i: Option<nat>)
    ensures i.Some? ==> i.value < |s| && s[i.value] == x && forall j :: 0 <= j < i.value ==> s[j] != x
    ensures i.None? ==> x !in s
  {
    if |s| == 0 then None
    else if s[0] == x then Some(0)
    else match IndexOf(s[1..], x)
      case None => None
      case Some(j) => Some(j + 1)
  }

  /** No size appears twice on the ladder, and no size contains a dot. */
  lemma SizesWellFormed()
    ensures forall i, j :: 0 <= i < j < |Sizes| ==> Sizes[i] != Sizes[j]
    ensures forall i :: 0 <= i < |Sizes| ==> '.' !in Sizes[i]
  {
  }

  /** The next larger size: defined for every ladder size but the largest. */
  function NextSizeUp(size: string): (next: Option<string>)
    ensures next.Some? <==> size in Sizes && size != Sizes[|Sizes| - 1]
    ensures next.Some? ==> exists i :: 0 <= i < |Sizes| - 1 && Sizes[i] == size && Sizes[i + 1] == next.value
  {
    match IndexOf(Sizes, size)
    case None => None
    case Some(i) => if i < |Sizes| - 1 then Some(Sizes[i + 1]) else None
  }

  /** The next smaller size: defined for every ladder size but the smallest. */
  function NextSizeDown(size: string): (prev: Option<string>)
    ensures prev.Some? <==> size in Sizes && size != Sizes[0]
    ensures prev.Some? ==> exists i :: 0 < i < |Sizes| && Sizes[i] == size && Sizes[i - 1] == prev.value
  {
    match IndexOf(Sizes, size)
    case None => None
    case Some(i) => if i > 0 then Some(Sizes[i - 1]) else None
  }

  /** One step up and one step down are inverse to each other wherever the step up exists. */
  lemma {:induction false} DownAfterUp(size: string)
    requires NextSizeUp(size).Some?
    ensures NextSizeDown(NextSizeUp(size).value) == Some(size)
    ensures NextSizeUp(NextSizeDown(NextSizeUp(size).value).value) == NextSizeUp(size)
  {
    SizesWellFormed();
    var i :| 0 <= i < |Sizes| - 1 && Sizes[i] == size && Sizes[i + 1] == NextSizeUp(size).value;
    var prev := NextSizeDown(Sizes[i + 1]);
    var k :| 0 < k < |Sizes| && Sizes[k] == Sizes[i + 1] && Sizes[k - 1] == prev.value;
    assert k == i + 1;
  }

  /** Every size but the smallest is the step up from its step down. */
  lemma {:induction false} UpAfterDown(size: string)
    requires NextSizeDown(size).Some?
    ensures NextSizeUp(NextSizeDown(size).value) == Some(size)
  {
    SizesWellFormed();
    var i :| 0 < i < |Sizes| && Sizes[i] == size && Sizes[i - 1] == NextSizeDown(size).value;
    var next := NextSizeUp(Sizes[i - 1]);
    var k :| 0 <= k < |Sizes| - 1 && Sizes[k] == Sizes[i - 1] && Sizes[k + 1] == next.value;
    assert k == i - 1;
  }

  // ---------------------------------------------------------------------
  // Savings
  // ---------------------------------------------------------------------

  /** Monthly saving of moving from one type to another: positive exactly when the new rate is lower. */
  function CalculateSavings(currentType: string, recommendedType: string): (savings: real)
    ensures savings >= 0.0
    ensures savings > 0.0 <==> HourlyRate(recommendedType) < HourlyRate(currentType)
    ensures savings > 0.0 ==> savings == (HourlyRate(currentType) - HourlyRate(recommendedType)) * HoursPerMonth
  {
    var currentRate, recommendedRate := HourlyRate(currentType), HourlyRate(recommendedType);
    if recommendedRate < currentRate then (currentRate - recommendedRate) * 24.0 * 30.0 else 0.0
  }

  /** Two types the price table does not list cost the same, so moving between them saves nothing. */
  lemma UnlistedTypesSaveNothing(currentType: string, recommendedType: string)
    requires currentType !in HourlyRates && recommendedType !in HourlyRates
    ensures CalculateSavings(currentType, recommendedType) == 0.0
  {
  }

  lemma SavingsExamples()
    ensures CalculateSavings("t3.medium", "t3.small") == 0.0208 * 720.0
    ensures CalculateSavings("t3.small", "t3.medium") == 0.0
  {
  }

  // ---------------------------------------------------------------------
  // The recommendation
  // ---------------------------------------------------------------------

  datatype Confidence = Low | Medium | High

  /** The clauses of the `reason` text, in order; the printed numbers are not modelled. */
  datatype ReasonPart =
    | NoChange
    | HighCpu(avgCpu: real)
    | LowCpu(avgCpu: real)
    | HighMemory(avgMemory: real)
    | LowMemory(avgMemory: real)

  datatype SizingAdvice = SizingAdvice(recommendedType: string, reason: seq<ReasonPart>, savings: real, confidence: Confidence)

  /** The ladder step the CPU rule asks for: up above the high threshold, else down below the low one. */
  function CpuStep(cfg: Thresholds, size: string, avgCpu: real): Option<string>
  {
    if avgCpu > cfg.cpuHigh then NextSizeUp(size)
    else if avgCpu < cfg.cpuLow then NextSizeDown(size)
    else None
  }

  /** The memory clause appended to the reason, if any. */
  function MemoryNote(cfg: Thresholds, avgMemory: Option<real>): seq<ReasonPart>
  {
    match avgMemory
    case None => []
    case Some(m) =>
      if m > cfg.memoryHigh then [HighMemory(m)]
      else if m < cfg.memoryLow then [LowMemory(m)]
      else []
  }

  /**
   * What `get_right_sizing_recommendation` decides, stated by outcome: the
   * type moves by the CPU step if there is one, the reason is the CPU clause
   * followed by the memory clause, only a step down is priced, and high
   * memory raises the confidence.
   */
  function Recommendation(cfg: Thresholds, currentType: string, avgCpu: real, avgMemory: Option<real>)
    : (r: Result<SizingAdvice, SizingError>)
    ensures r.Err? <==> InstanceSize(currentType).None?
    ensures r.Ok? ==> r.value.savings >= 0.0
    ensures r.Ok? && CpuStep(cfg, InstanceSize(currentType).value, avgCpu).None? ==>
              r.value.recommendedType == currentType && r.value.savings == 0.0
  {
    match InstanceSize(currentType)
    case None => Err(NoSizeInInstanceType)
    case Some(size) =>
      var step := CpuStep(cfg, size, avgCpu);
      var up := avgCpu > cfg.cpuHigh;
      var target := if step.Some? then InstanceFamily(currentType) + "." + step.value else currentType;
      var cpuReason := if step.None? then NoChange else if up then HighCpu(avgCpu) else LowCpu(avgCpu);
      var cpuConfidence := if step.None? then Low else if up then High else Medium;
      var savings := if step.Some? && !up then CalculateSavings(currentType, target) else 0.0;
      var memoryHigh := avgMemory.Some? && avgMemory.value > cfg.memoryHigh;
      Ok(SizingAdvice(target, [cpuReason] + MemoryNote(cfg, avgMemory), savings,
                      if memoryHigh then High else cpuConfidence))
  }

  /** `get_right_sizing_recommendation`, assigning the four results step by step as the handler does. */
  method GetRightSizingRecommendation(cfg: Thresholds, currentType: string, avgCpu: real, avgMemory: Option<real>)
    returns (r: Result<SizingAdvice, SizingError>)
    ensures r == Recommendation(cfg, currentType, avgCpu, avgMemory)
  {
    var instanceFamily := InstanceFamily(currentType);
    var currentSize := InstanceSize(currentType);
    if currentSize.None? {
      return Err(NoSizeInInstanceType);
    }

    var recommendedType := currentType;
    var reason := [NoChange];
    var savings := 0.0;
    var confidence := Low;

    if avgCpu > cfg.cpuHigh {
      var newSize := NextSizeUp(currentSize.value);
      if newSize.Some? {
        recommendedType := instanceFamily + "." + newSize.value;
        reason := [HighCpu(avgCpu)];
        savings := 0.0;
        confidence := High;
      }
    } else if avgCpu < cfg.cpuLow {
      var newSize := NextSizeDown(currentSize.value);
      if newSize.Some? {
        recommendedType := instanceFamily + "." + newSize.value;
        reason := [LowCpu(avgCpu)];
        savings := CalculateSavings(currentType, recommendedType);
        confidence := Medium;
      }
    }

    ghost var cpuReason := reason;
    if avgMemory.Some? {
      if avgMemory.value > cfg.memoryHigh {
        reason := reason + [HighMemory(avgMemory.value)];
        confidence := High;
      } else if avgMemory.value < cfg.memoryLow {
        reason := reason + [LowMemory(avgMemory.value)];
      }
    }

    assert reason == cpuReason + MemoryNote(cfg, avgMemory);
    r := Ok(SizingAdvice(recommendedType, reason, savings, confidence));
  }

  /** A type without a dot fails before any threshold is looked at, whatever the utilisation. */
  lemma TypeWithoutDotFails(cfg: Thresholds, currentType: string, avgCpu: real, avgMemory: Option<real>)
    requires '.' !in currentType
    ensures Recommendation(cfg, currentType, avgCpu, avgMemory) == Err(NoSizeInInstanceType)
  {
  }

  /**
   * The recommended type is the current type or the same family one rung
   * away; a rung up only when the CPU average is above the high threshold,
   * a rung down only when it is below the low one, and the type changes
   * exactly when a rung is taken.
   */
  lemma {:induction false} RecommendationOneRungAway(cfg: Thresholds, currentType: string, avgCpu: real, avgMemory: Option<real>)
    requires Recommendation(cfg, currentType, avgCpu, avgMemory).Ok?
    ensures var a := Recommendation(cfg, currentType, avgCpu, avgMemory).value;
            var size := InstanceSize(currentType).value;
            && (a.recommendedType != currentType <==> CpuStep(cfg, size, avgCpu).Some?)
            && (a.recommendedType != currentType ==>
                  && InstanceFamily(a.recommendedType) == InstanceFamily(currentType)
                  && (|| (avgCpu > cfg.cpuHigh && InstanceSize(a.recommendedType) == NextSizeUp(size))
                      || (!(avgCpu > cfg.cpuHigh) && avgCpu < cfg.cpuLow && InstanceSize(a.recommendedType) == NextSizeDown(size))))
  {
    var a := Recommendation(cfg, currentType, avgCpu, avgMemory).value;
    var size := InstanceSize(currentType).value;
    var step := CpuStep(cfg, size, avgCpu);
    if step.Some? {
      SizesWellFormed();
      var family := InstanceFamily(currentType);
      assert step.value in Sizes;
      TypeOfFamilyAndSize(family, step.value);
      assert InstanceSize(a.recommendedType) == Some(step.value);
      assert step.value != size;
    }
  }

  /**
   * Memory utilisation never changes the recommended type or the saving; high
   * memory forces High confidence, low memory only appends a clause.
   */
  lemma MemoryIsAdvisory(cfg: Thresholds, currentType: string, avgCpu: real, avgMemory: real)
    requires Recommendation(cfg, currentType, avgCpu, None).Ok?
    ensures var base := Recommendation(cfg, currentType, avgCpu, None).value;
            var withMemory := Recommendation(cfg, currentType, avgCpu, Some(avgMemory)).value;
            && withMemory.recommendedType == base.recommendedType
            && withMemory.savings == base.savings
            && (avgMemory > cfg.memoryHigh ==> withMemory.confidence == High && withMemory.reason == base.reason + [HighMemory(avgMemory)])
            && (!(avgMemory > cfg.memoryHigh) && avgMemory < cfg.memoryLow ==>
                  withMemory.confidence == base.confidence && withMemory.reason == base.reason + [LowMemory(avgMemory)])
  {
  }

  /** The recommendation never promises a negative saving, and a step up is never priced. */
  lemma RecommendationSavings(cfg: Thresholds, currentType: string, avgCpu: real, avgMemory: Option<real>)
    requires Recommendation(cfg, currentType, avgCpu, avgMemory).Ok?
    ensures Recommendation(cfg, currentType, avgCpu, avgMemory).value.savings >= 0.0
    ensures avgCpu > cfg.cpuHigh ==> Recommendation(cfg, currentType, avgCpu, avgMemory).value.savings == 0.0
  {
  }

  // ---------------------------------------------------------------------
  // Per-instance analysis and the report
  // ---------------------------------------------------------------------

  /** A running managed instance with the CloudWatch datapoint averages fetched for it. */
  datatype RunningInstance = RunningInstance(id: string, instanceType: string, cpu: seq<real>, memory: seq<real>)

  datatype InstanceRecommendation = InstanceRecommendation(
    instanceId: string,
    currentType: string,
    recommendedType: string,
    avgCpu: real,
    avgMemory: Option<real>,
    reason: seq<ReasonPart>,
    estimatedSavings: real,
    confidence: Confidence)

  /**
   * `analyze_instance`: nothing without CPU datapoints, nothing when the type
   * has no size (the error is caught and logged), nothing when the type would
   * not change. A memory average of exactly 0.0 is reported as `None`, as
   * Python's `if avg_memory` does.
   */
  function AnalyzeInstance(cfg: Thresholds, instance: RunningInstance): (r: Option<InstanceRecommendation>)
    ensures r.Some? ==> |instance.cpu| > 0 && r.value.instanceId == instance.id &&
                        r.value.currentType == instance.instanceType &&
                        r.value.recommendedType != instance.instanceType && r.value.estimatedSavings >= 0.0
  {
    if |instance.cpu| == 0 then None
    else
      var avgCpu := Mean(instance.cpu);
      var avgMemory := if |instance.memory| > 0 then Some(Mean(instance.memory)) else None;
      match Recommendation(cfg, instance.instanceType, avgCpu, avgMemory)
      case Err(_) => None
      case Ok(a) =>
        if a.recommendedType != instance.instanceType then
          Some(InstanceRecommendation(instance.id, instance.instanceType, a.recommendedType, avgCpu,
                                      if avgMemory.Some? && avgMemory.value != 0.0 then avgMemory else None,
                                      a.reason, a.savings, a.confidence))
        else None
  }

  /**
   * An instance is reported exactly when it has CPU datapoints, its type has
   * a size and the CPU rule takes a rung; the report names a different type
   * and a non-negative saving.
   */
  lemma AnalyzeInstanceKeeps(cfg: Thresholds, instance: RunningInstance)
    ensures AnalyzeInstance(cfg, instance).Some? <==>
              |instance.cpu| > 0 && InstanceSize(instance.instanceType).Some? &&
              CpuStep(cfg, InstanceSize(instance.instanceType).value, Mean(instance.cpu)).Some?
    ensures AnalyzeInstance(cfg, instance).Some? ==>
              var r := AnalyzeInstance(cfg, instance).value;
              r.instanceId == instance.id && r.currentType == instance.instanceType &&
              r.recommendedType != r.currentType && r.estimatedSavings >= 0.0
  {
    if |instance.cpu| > 0 && InstanceSize(instance.instanceType).Some? {
      var avgCpu := Mean(instance.cpu);
      var avgMemory := if |instance.memory| > 0 then Some(Mean(instance.memory)) else None;
      RecommendationOneRungAway(cfg, instance.instanceType, avgCpu, avgMemory);
    }
  }

  /** The recommendations `lambda_handler` collects, in instance order. */
  function Recommendations(cfg: Thresholds, instances: seq<RunningInstance>): seq<InstanceRecommendation>
  {
    if |instances| == 0 then []
    else
      var r := AnalyzeInstance(cfg, instances[|instances| - 1]);
      Recommendations(cfg, instances[..|instances| - 1]) + (if r.Some? then [r.value] else [])
  }

  function TotalSavings(recommendations: seq<InstanceRecommendation>): real
  {
    if |recommendations| == 0 then 0.0
    else TotalSavings(recommendations[..|recommendations| - 1]) + recommendations[|recommendations| - 1].estimatedSavings
  }

  datatype Report = Report(analysisPeriodDays: int, totalRecommendations: nat, totalSavings: real,
                           recommendations: seq<InstanceRecommendation>)

  /** `generate_report`: the count and the sum of the estimated savings (rounding is not modelled). */
  function GenerateReport(analysisPeriodDays: int, recommendations: seq<InstanceRecommendation>): (report: Report)
    ensures report.totalRecommendations == |recommendations|
    ensures report.recommendations == recommendations
    ensures report.totalSavings == TotalSavings(recommendations)
    ensures (forall i :: 0 <= i < |recommendations| ==> recommendations[i].estimatedSavings >= 0.0) ==> report.totalSavings >= 0.0
  {
    TotalSavingsNonNegative(recommendations);
    Report(analysisPeriodDays, |recommendations|, TotalSavings(recommendations), recommendations)
  }

  lemma {:induction false} TotalSavingsNonNegative(recommendations: seq<InstanceRecommendation>)
    ensures (forall i :: 0 <= i < |recommendations| ==> recommendations[i].estimatedSavings >= 0.0) ==>
              TotalSavings(recommendations) >= 0.0
  {
    if |recommendations| > 0 {
      TotalSavingsNonNegative(recommendations[..|recommendations| - 1]);
    }
  }

  /**
   * `lambda_handler`: analyse every running instance, keep the ones with a
   * recommendation, build the report. Every kept recommendation changes the
   * type, promises a non-negative saving and comes from an input instance.
   */
  method RightSizingAnalysis(cfg: Thresholds, analysisPeriodDays: int, instances: seq<RunningInstance>)
    returns (recommendations: seq<InstanceRecommendation>, report: Report)
    ensures recommendations == Recommendations(cfg, instances)
    ensures report == GenerateReport(analysisPeriodDays, recommendations)
    ensures |recommendations| <= |instances|
    ensures forall k :: 0 <= k < |recommendations| ==>
              && recommendations[k].recommendedType != recommendations[k].currentType
              && recommendations[k].estimatedSavings >= 0.0
              && exists i :: 0 <= i < |instances| && instances[i].id == recommendations[k].instanceId
    ensures report.totalSavings >= 0.0
  {
    recommendations := [];
    for i := 0 to |instances|
      invariant recommendations == Recommendations(cfg, instances[..i])
      invariant |recommendations| <= i
      invariant forall k :: 0 <= k < |recommendations| ==>
                  && recommendations[k].recommendedType != recommendations[k].currentType
                  && recommendations[k].estimatedSavings >= 0.0
                  && exists j :: 0 <= j < i && instances[j].id == recommendations[k].instanceId
    {
      assert instances[..i + 1][..i] == instances[..i];
      var recommendation := AnalyzeInstance(cfg, instances[i]);
      AnalyzeInstanceKeeps(cfg, instances[i]);
      if recommendation.Some? {
        recommendations := recommendations + [recommendation.value];
      }
    }
    assert instances[..|instances|] == instances;
    report := GenerateReport(analysisPeriodDays, recommendations);
  }
}
