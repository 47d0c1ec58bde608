/**
 * Auto-shutdown engine of the AWS Lambda handler: excludes instances by tag,
 * calls an instance idle when more than 80 % of its hourly CPU averages are
 * under 5 %, stops the idle ones and totals the monthly saving.
 *
 * The EC2 listing, the CloudWatch datapoints and the outcome of each
 * `stop_instances` call arrive as inputs.
 */
module AwsAutoShutdown {
  import opened Common
  import opened AwsPricing

  // ---------------------------------------------------------------------
  // Exclusion
  // ---------------------------------------------------------------------

  /**
   * `os.environ.get('EXCLUDED_TAGS', 'AutoShutdown=false').split(',')`: the
   * comma-separated entries of the setting, `AutoShutdown=false` when unset.
   */
  function ExcludedTags(setting: Option<string>): (entries: seq<string>)
    ensures |entries| >= 1
  {
    Split(setting.GetOr("AutoShutdown=false"), ',')
  }

  /** The ValueError raised when an entry does not unpack into exactly a key and a value. */
  datatype ShutdownError = MalformedExclusion(entry: string)

  /** An entry `key=value` splits into exactly two parts on `=`. */
  predicate WellFormedEntry(entry: string)
  {
    |Split(entry, '=')| == 2
  }

  /** A well-formed entry matches when the tag is present with exactly that value (case-sensitive). */
  predicate EntryMatches(entry: string, tags: map<string, string>)
    requires WellFormedEntry(entry)
  {
    var parts := Split(entry, '=');
    parts[0] in tags && tags[parts[0]] == parts[1]
  }

  predicate IsProduction(tags: map<string, string>)
  {
    "Environment" in tags && tags["Environment"] == "prod"
  }

  /**
   * `should_exclude_instance`: the entries are tried in order and the first
   * matching one excludes; an entry that does not unpack raises; without a
   * match only `Environment=prod` excludes.
   */
  function ShouldExclude(excluded: seq<string>, tags: map<string, string>): (r: Result<bool, ShutdownError>)
    ensures r.Err? ==> exists i :: 0 <= i < |excluded| && !WellFormedEntry(excluded[i]) &&
                                   r.error == MalformedExclusion(excluded[i])
    ensures r == Ok(false) ==> !IsProduction(tags) &&
                               forall i :: 0 <= i < |excluded| ==> WellFormedEntry(excluded[i]) && !EntryMatches(excluded[i], tags)
  {
    if |excluded| == 0 then Ok(IsProduction(tags))
    else if !WellFormedEntry(excluded[0]) then Err(MalformedExclusion(excluded[0]))
    else if EntryMatches(excluded[0], tags) then Ok(true)
    else ShouldExclude(excluded[1..], tags)
  }

  /** With well-formed entries, an instance is excluded exactly when some entry matches or it is production. */
  lemma {:induction false} ExclusionRule(excluded: seq<string>, tags: map<string, string>)
    requires forall i :: 0 <= i < |excluded| ==> WellFormedEntry(excluded[i])
    ensures ShouldExclude(excluded, tags) ==
              Ok((exists i :: 0 <= i < |excluded| && EntryMatches(excluded[i], tags)) || IsProduction(tags))
  {
    if |excluded| > 0 {
      ExclusionRule(excluded[1..], tags);
      if !EntryMatches(excluded[0], tags) {
        forall i | 0 <= i < |excluded| && EntryMatches(excluded[i], tags)
          ensures exists j :: 0 <= j < |excluded[1..]| && EntryMatches(excluded[1..][j], tags)
        {
          assert excluded[1..][i - 1] == excluded[i];
        }
      }
    }
  }

  /** A malformed entry raises unless an earlier entry already matched. */
  lemma {:induction false} MalformedEntryRaises(excluded: seq<string>, tags: map<string, string>, k: nat)
    requires k < |excluded| && !WellFormedEntry(excluded[k])
    requires forall i :: 0 <= i < k ==> WellFormedEntry(excluded[i]) && !EntryMatches(excluded[i], tags)
    ensures ShouldExclude(excluded, tags) == Err(MalformedExclusion(excluded[k]))
  {
    if k > 0 {
      MalformedEntryRaises(excluded[1..], tags, k - 1);
    }
  }

  /** A production instance is never found not-excluded, whatever the list holds. */
  lemma {:induction false} ProductionNeverKept(excluded: seq<string>, tags: map<string, string>)
    requires IsProduction(tags)
    ensures ShouldExclude(excluded, tags) != Ok(false)
  {
    if |excluded| > 0 {
      ProductionNeverKept(excluded[1..], tags);
    }
  }

  /** With EXCLUDED_TAGS unset, exactly `AutoShutdown=false` and `Environment=prod` exclude. */
  lemma DefaultExclusion(setting: Option<string>, tags: map<string, string>)
    requires setting.None?
    ensures ShouldExclude(ExcludedTags(setting), tags) ==
              Ok(("AutoShutdown" in tags && tags["AutoShutdown"] == "false") || IsProduction(tags))
  {
    DefaultSettingEntries(setting);
    DefaultEntryParts("AutoShutdown=false");
    SingleEntryExclusion("AutoShutdown=false", "AutoShutdown", "false", tags);
  }

  /** A list holding one entry `key=value` excludes exactly that tag and production. */
  lemma SingleEntryExclusion(entry: string, key: string, value: string, tags: map<string, string>)
    requires Split(entry, '=') == [key, value]
    ensures ShouldExclude([entry], tags) == Ok((key in tags && tags[key] == value) || IsProduction(tags))
  {
    assert [entry][1..] == [];
  }

  /** With EXCLUDED_TAGS unset the list is the single entry `AutoShutdown=false`. */
  lemma DefaultSettingEntries(setting: Option<string>)
    requires setting.None?
    ensures ExcludedTags(setting) == ["AutoShutdown=false"]
  {
    var entry := "AutoShutdown=false";
    assert setting.GetOr(entry) == entry;
    assert ',' !in entry;
    SplitWithoutSeparator(entry, ',');
  }

  /** The default entry unpacks into the key `AutoShutdown` and the value `false`. */
  lemma DefaultEntryParts(entry: string)
    requires entry == "AutoShutdown=false"
    ensures Split(entry, '=') == ["AutoShutdown", "false"]
  {
    var key, value := "AutoShutdown", "false";
    assert entry == key + ['='] + value;
    SplitInTwo(key, '=', value);
  }

  // ---------------------------------------------------------------------
  // Idleness
  // ---------------------------------------------------------------------

  /** Hourly averages under 5 %: `[dp for dp in datapoints if dp['Average'] < 5.0]`. */
  function LowCpuDatapoints(datapoints: seq<real>): (low: seq<real>)
    ensures |low| <= |datapoints|
    ensures forall x :: multiset(low)[x] == if x < 5.0 then multiset(datapoints)[x] else 0
  {
    if |datapoints| == 0 then []
    else
      var init, last := datapoints[..|datapoints| - 1], datapoints[|datapoints| - 1];
      assert datapoints == init + [last];
      LowCpuDatapoints(init) + (if last < 5.0 then [last] else [])
  }

  /**
   * `is_instance_idle`, with the CloudWatch answer as input (`None` when the
   * call raised, which counts as not idle): no datapoints is idle, otherwise
   * idle exactly when more than four fifths of them are under 5 %.
   */
  function IsInstanceIdle(datapoints: Option<seq<real>>): (idle: bool)
    ensures datapoints.None? ==> !idle
    ensures datapoints == Some([]) ==> idle
    ensures datapoints.Some? && |datapoints.value| > 0 ==>
              (idle <==> 5 * |LowCpuDatapoints(datapoints.value)| > 4 * |datapoints.value|)
  {
    match datapoints
    case None => false
    case Some(dps) =>
      if |dps| == 0 then true
      else
        var ratio := (|LowCpuDatapoints(dps)| as real) / (|dps| as real);
        RatioAboveFourFifths(|LowCpuDatapoints(dps)|, |dps|);
        ratio > 0.8
  }

  lemma RatioAboveFourFifths(low: nat, n: nat)
    requires n > 0
    ensures (low as real) / (n as real) > 0.8 <==> 5 * low > 4 * n
  {
    var l, m := low as real, n as real;
    var q := l / m;
    assert q * m == l;
    ScaleComparison(q, 0.8, m);
    assert q > 0.8 <==> l > 0.8 * m;
    assert l > 0.8 * m <==> 5.0 * l > 4.0 * m;
    assert (5 * low) as real == 5.0 * l && (4 * n) as real == 4.0 * m;
  }

  lemma ScaleComparison(a: real, b: real, c: real)
    requires c > 0.0
    ensures a > b <==> a * c > b * c
  {
    if a > b {
      assert (a - b) * c > 0.0;
    } else {
      assert (b - a) * c >= 0.0;
    }
  }

  // ---------------------------------------------------------------------
  // Selecting the idle instances
  // ---------------------------------------------------------------------

  /** A running managed instance as EC2 lists it, with the CPU datapoints fetched for it. */
  datatype Ec2Instance = Ec2Instance(id: string, instanceType: string, tags: seq<Tag>, cpuDatapoints: Option<seq<real>>)

  /** The record `get_idle_instances` keeps (the launch time is not modelled). */
  datatype IdleInstance = IdleInstance(id: string, instanceType: string, tags: map<string, string>)

  /** The record `get_idle_instances` builds for an instance it keeps. */
  function IdleRecordOf(instance: Ec2Instance): (r: IdleInstance)
    ensures r.id == instance.id && r.instanceType == instance.instanceType && r.tags == TagMap(instance.tags)
  {
    IdleInstance(instance.id, instance.instanceType, TagMap(instance.tags))
  }

  /** All instances of all reservations, in listing order. */
  function Flatten(reservations: seq<seq<Ec2Instance>>): seq<Ec2Instance>
  {
    if |reservations| == 0 then []
    else Flatten(reservations[..|reservations| - 1]) + reservations[|reservations| - 1]
  }

  /**
   * The idle list for instances in order: skip the excluded, keep the idle;
   * the first exclusion check that raises makes the whole listing raise.
   */
  function SelectIdle(excluded: seq<string>, instances: seq<Ec2Instance>): (r: Result<seq<IdleInstance>, ShutdownError>)
    ensures r.Ok? ==> |r.value| <= |instances|
  {
    if |instances| == 0 then Ok([])
    else Consider(excluded, SelectIdle(excluded, instances[..|instances| - 1]), instances[|instances| - 1])
  }

  /** One pass of the inner loop of `get_idle_instances` over `instance`. */
  function Consider(excluded: seq<string>, sofar: Result<seq<IdleInstance>, ShutdownError>, instance: Ec2Instance)
    : Result<seq<IdleInstance>, ShutdownError>
  {
    match sofar
    case Err(e) => Err(e)
    case Ok(idle) =>
      var tags := TagMap(instance.tags);
      match ShouldExclude(excluded, tags)
      case Err(e) => Err(e)
      case Ok(true) => Ok(idle)
      case Ok(false) =>
        if IsInstanceIdle(instance.cpuDatapoints) then Ok(idle + [IdleRecordOf(instance)])
        else Ok(idle)
  }

  lemma SelectIdleAppend(excluded: seq<string>, instances: seq<Ec2Instance>, instance: Ec2Instance)
    ensures SelectIdle(excluded, instances + [instance]) == Consider(excluded, SelectIdle(excluded, instances), instance)
  {
    assert (instances + [instance])[..|instances|] == instances;
  }

  /** An input instance the exclusion rule keeps and the idleness rule calls idle. */
  predicate Selected(excluded: seq<string>, instance: Ec2Instance)
  {
    ShouldExclude(excluded, TagMap(instance.tags)) == Ok(false) && IsInstanceIdle(instance.cpuDatapoints)
  }

  /** Every listed record is that of an input instance the exclusion rule keeps and the idleness rule calls idle. */
  lemma {:induction false} IdleListNeverExcluded(excluded: seq<string>, instances: seq<Ec2Instance>)
    requires SelectIdle(excluded, instances).Ok?
    ensures forall k :: 0 <= k < |SelectIdle(excluded, instances).value| ==>
              exists i :: 0 <= i < |instances| && Selected(excluded, instances[i]) &&
                          SelectIdle(excluded, instances).value[k] == IdleRecordOf(instances[i])
  {
    if |instances| > 0 {
      var init := instances[..|instances| - 1];
      IdleListNeverExcluded(excluded, init);
      var idle := SelectIdle(excluded, instances).value;
      var idle0 := SelectIdle(excluded, init).value;
      forall k | 0 <= k < |idle|
        ensures exists i :: 0 <= i < |instances| && Selected(excluded, instances[i]) && idle[k] == IdleRecordOf(instances[i])
      {
        if k < |idle0| {
          assert idle[k] == idle0[k];
          var i :| 0 <= i < |init| && Selected(excluded, init[i]) && idle0[k] == IdleRecordOf(init[i]);
          assert instances[i] == init[i];
        } else {
          assert idle[k] == IdleRecordOf(instances[|instances| - 1]);
        }
      }
    }
  }

  /** A raising selection raises the exclusion error of one of its input instances. */
  lemma {:induction false} SelectIdleErrorCause(excluded: seq<string>, instances: seq<Ec2Instance>) returns (i: nat)
    requires SelectIdle(excluded, instances).Err?
    ensures i < |instances| && ShouldExclude(excluded, TagMap(instances[i].tags)) == Err(SelectIdle(excluded, instances).error)
  {
    var init := instances[..|instances| - 1];
    if SelectIdle(excluded, init).Err? {
      i := SelectIdleErrorCause(excluded, init);
      assert instances[i] == init[i];
    } else {
      i := |instances| - 1;
    }
  }

  /** Every input instance the exclusion rule keeps and the idleness rule calls idle is listed. */
  lemma {:induction false} IdleListComplete(excluded: seq<string>, instances: seq<Ec2Instance>)
    requires SelectIdle(excluded, instances).Ok?
    ensures forall i :: 0 <= i < |instances| && Selected(excluded, instances[i]) ==>
              IdleRecordOf(instances[i]) in SelectIdle(excluded, instances).value
  {
    if |instances| > 0 {
      var init := instances[..|instances| - 1];
      IdleListComplete(excluded, init);
      assert forall i :: 0 <= i < |init| ==> init[i] == instances[i];
    }
  }

  /** `get_idle_instances`: walks the reservations and their instances in listing order. */
  method GetIdleInstances(excluded: seq<string>, reservations: seq<seq<Ec2Instance>>)
    returns (r: Result<seq<IdleInstance>, ShutdownError>)
    ensures r == SelectIdle(excluded, Flatten(reservations))
  {
    var idleInstances := [];
    for i := 0 to |reservations|
      invariant SelectIdle(excluded, Flatten(reservations[..i])) == Ok(idleInstances)
    {
      FlattenPrefix(reservations, i);
      var scanned := ScanReservation(excluded, Flatten(reservations[..i]), reservations[i], idleInstances);
      if scanned.Err? {
        SelectIdleErrSticky(excluded, Flatten(reservations[..i + 1]), Flatten(reservations));
        return scanned;
      }
      idleInstances := scanned.value;
    }
    assert reservations[..|reservations|] == reservations;
    r := Ok(idleInstances);
  }

  /** The inner loop of `get_idle_instances`, over the instances of one reservation. */
  method ScanReservation(excluded: seq<string>, ghost seen: seq<Ec2Instance>, reservation: seq<Ec2Instance>,
                         idleSoFar: seq<IdleInstance>)
    returns (r: Result<seq<IdleInstance>, ShutdownError>)
    requires SelectIdle(excluded, seen) == Ok(idleSoFar)
    ensures r == SelectIdle(excluded, seen + reservation)
  {
    var idleInstances := idleSoFar;
    assert seen + reservation[..0] == seen;
    for j := 0 to |reservation|
      invariant SelectIdle(excluded, seen + reservation[..j]) == Ok(idleInstances)
    {
      ScanStep(excluded, seen, reservation, j);
      var next := ConsiderInstance(excluded, idleInstances, reservation[j]);
      if next.Err? {
        ScanStopsAt(excluded, seen, reservation, j + 1);
        return next;
      }
      idleInstances := next.value;
    }
    assert reservation[..|reservation|] == reservation;
    r := Ok(idleInstances);
  }

  /** One more instance of the reservation is one more `Consider` step. */
  lemma ScanStep(excluded: seq<string>, seen: seq<Ec2Instance>, reservation: seq<Ec2Instance>, j: nat)
    requires j < |reservation|
    ensures SelectIdle(excluded, seen + reservation[..j + 1]) ==
            Consider(excluded, SelectIdle(excluded, seen + reservation[..j]), reservation[j])
  {
    assert (seen + reservation[..j]) + [reservation[j]] == seen + reservation[..j + 1];
    SelectIdleAppend(excluded, seen + reservation[..j], reservation[j]);
  }

  /** A raise after part of the reservation is the raise of the whole listing. */
  lemma ScanStopsAt(excluded: seq<string>, seen: seq<Ec2Instance>, reservation: seq<Ec2Instance>, j: nat)
    requires j <= |reservation|
    requires SelectIdle(excluded, seen + reservation[..j]).Err?
    ensures SelectIdle(excluded, seen + reservation) == SelectIdle(excluded, seen + reservation[..j])
  {
    assert seen + reservation[..j] <= seen + reservation;
    SelectIdleErrSticky(excluded, seen + reservation[..j], seen + reservation);
  }

  /** The body of the inner loop: skip an excluded instance, keep an idle one; a raising check raises. */
  method ConsiderInstance(excluded: seq<string>, idleSoFar: seq<IdleInstance>, instance: Ec2Instance)
    returns (r: Result<seq<IdleInstance>, ShutdownError>)
    ensures r == Consider(excluded, Ok(idleSoFar), instance)
  {
    var tags := TagMap(instance.tags);
    var exclude := ShouldExclude(excluded, tags);
    if exclude.Err? {
      return Err(exclude.error);
    }
    if exclude.value || !IsInstanceIdle(instance.cpuDatapoints) {
      return Ok(idleSoFar);
    }
    r := Ok(idleSoFar + [IdleRecordOf(instance)]);
  }

  /** Once a prefix of the listing raises, so does the whole listing. */
  lemma {:induction false} SelectIdleErrSticky(excluded: seq<string>, prefix: seq<Ec2Instance>, instances: seq<Ec2Instance>)
    requires prefix <= instances
    requires SelectIdle(excluded, prefix).Err?
    ensures SelectIdle(excluded, instances) == SelectIdle(excluded, prefix)
    decreases |instances|
  {
    if |instances| > |prefix| {
      var init := instances[..|instances| - 1];
      assert prefix <= init;
      SelectIdleErrSticky(excluded, prefix, init);
      assert instances == init + [instances[|instances| - 1]];
      SelectIdleAppend(excluded, init, instances[|instances| - 1]);
    } else {
      assert instances == prefix;
    }
  }

  /** The instances of the first `i` reservations and of reservation `i` begin the listing. */
  lemma {:induction false} FlattenPrefix(reservations: seq<seq<Ec2Instance>>, i: nat)
    requires i < |reservations|
    ensures Flatten(reservations[..i]) + reservations[i] <= Flatten(reservations)
    ensures Flatten(reservations[..i + 1]) == Flatten(reservations[..i]) + reservations[i]
  {
    assert reservations[..i + 1][..i] == reservations[..i];
    if i + 1 < |reservations| {
      var init := reservations[..|reservations| - 1];
      FlattenPrefix(init, i);
      assert init[..i] == reservations[..i] && init[..i + 1] == reservations[..i + 1];
    } else {
      assert reservations[..i + 1] == reservations;
    }
  }

  // ---------------------------------------------------------------------
  // Stopping them
  // ---------------------------------------------------------------------

  datatype ShutdownResult = ShutdownResult(shutdownCount: nat, estimatedSavings: real, instances: seq<string>)

  /** The instances whose `stop_instances` call did not raise, in order. */
  function Stopped(instances: seq<IdleInstance>, stopFails: set<string>): (stopped: seq<IdleInstance>)
    ensures |stopped| <= |instances|
  {
    if |instances| == 0 then []
    else
      var last := instances[|instances| - 1];
      Stopped(instances[..|instances| - 1], stopFails) + (if last.id in stopFails then [] else [last])
  }

  /** Sum of `rate * 24 * 30` over the given instances. */
  function MonthlyCost(instances: seq<IdleInstance>): real
  {
    if |instances| == 0 then 0.0
    else MonthlyCost(instances[..|instances| - 1]) + HourlyRate(instances[|instances| - 1].instanceType) * 24.0 * 30.0
  }

  function Ids(instances: seq<IdleInstance>): (ids: seq<string>)
    ensures |ids| == |instances|
    ensures forall k :: 0 <= k < |instances| ==> ids[k] == instances[k].id
  {
    if |instances| == 0 then [] else Ids(instances[..|instances| - 1]) + [instances[|instances| - 1].id]
  }

  lemma StoppedAppend(instances: seq<IdleInstance>, instance: IdleInstance, stopFails: set<string>)
    ensures Stopped(instances + [instance], stopFails) ==
              if instance.id in stopFails then Stopped(instances, stopFails)
              else Stopped(instances, stopFails) + [instance]
  {
    assert (instances + [instance])[..|instances|] == instances;
    assert Stopped(instances, stopFails) + [] == Stopped(instances, stopFails);
  }

  lemma MonthlyCostAppend(instances: seq<IdleInstance>, instance: IdleInstance)
    ensures MonthlyCost(instances + [instance]) == MonthlyCost(instances) + HourlyRate(instance.instanceType) * 24.0 * 30.0
  {
    assert (instances + [instance])[..|instances|] == instances;
  }

  /** Every stopped instance saves at least a month of the cheapest listed rate and at most a month of the dearest. */
  lemma {:induction false} MonthlyCostBounds(instances: seq<IdleInstance>)
    ensures (|instances| as real) * 0.0104 * 720.0 <= MonthlyCost(instances) <= (|instances| as real) * 0.192 * 720.0
  {
    if |instances| > 0 {
      MonthlyCostBounds(instances[..|instances| - 1]);
    }
  }

  /**
   * The loop of `shutdown_instances`: stop each instance in turn; a stop that
   * raises is logged and skipped, a successful one adds a month of its rate.
   * `stopped` lists the instances that stopped, in order.
   */
  method StopEach(instances: seq<IdleInstance>, stopFails: set<string>)
    returns (shutdownCount: nat, estimatedSavings: real, stopped: seq<IdleInstance>)
    ensures stopped == Stopped(instances, stopFails)
    ensures shutdownCount == |stopped| <= |instances|
    ensures estimatedSavings == MonthlyCost(stopped)
  {
    shutdownCount := 0;
    estimatedSavings := 0.0;
    stopped := [];
    for i := 0 to |instances|
      invariant stopped == Stopped(instances[..i], stopFails)
      invariant shutdownCount == |stopped|
      invariant estimatedSavings == MonthlyCost(stopped)
    {
      var instance := instances[i];
      assert instances[..i + 1] == instances[..i] + [instance];
      StoppedAppend(instances[..i], instance, stopFails);
      if instance.id in stopFails {
        continue;
      }
      var hourlyRate := HourlyRate(instance.instanceType);
      MonthlyCostAppend(stopped, instance);
      estimatedSavings := estimatedSavings + hourlyRate * 24.0 * 30.0;
      shutdownCount := shutdownCount + 1;
      stopped := stopped + [instance];
    }
    assert instances[..|instances|] == instances;
  }

  /**
   * `shutdown_instances` as written: the count and the saving follow the
   * stops that succeeded, but the reported ids are the first
   * `shutdown_count` input ids.
   */
  method ShutdownInstances(instances: seq<IdleInstance>, stopFails: set<string>) returns (r: ShutdownResult)
    ensures r.shutdownCount == |Stopped(instances, stopFails)| <= |instances|
    ensures r.estimatedSavings == MonthlyCost(Stopped(instances, stopFails))
    ensures r.instances == Ids(instances[..r.shutdownCount])
  {
    var shutdownCount, estimatedSavings, _ := StopEach(instances, stopFails);
    r := ShutdownResult(shutdownCount, estimatedSavings, Ids(instances[..shutdownCount]));
  }

  /** When the first of two instances fails to stop, the report names it and not the one that stopped. */
  lemma ReportedIdsMismatch()
    ensures var instances := [IdleInstance("i-a", "t3.micro", map[]), IdleInstance("i-b", "t3.micro", map[])];
            var stopped := Stopped(instances, {"i-a"});
            && |stopped| == 1
            && Ids(instances[..|stopped|]) == ["i-a"]
            && Ids(stopped) == ["i-b"]
  {
    var instances := [IdleInstance("i-a", "t3.micro", map[]), IdleInstance("i-b", "t3.micro", map[])];
    assert instances[..1] == [instances[0]];
    assert Stopped(instances[..1], {"i-a"}) == [];
  }

  lemma {:induction false} StoppedMembers(instances: seq<IdleInstance>, stopFails: set<string>)
    ensures forall x :: x in Stopped(instances, stopFails) <==> x in instances && x.id !in stopFails
  {
    if |instances| > 0 {
      var init := instances[..|instances| - 1];
      StoppedMembers(init, stopFails);
      assert instances == init + [instances[|instances| - 1]];
    }
  }

  /** The ids of the stopped instances are exactly the input ids whose stop did not fail. */
  lemma {:induction false} StoppedIds(instances: seq<IdleInstance>, stopFails: set<string>)
    ensures forall id :: id in Ids(Stopped(instances, stopFails)) <==>
              exists i :: 0 <= i < |instances| && instances[i].id == id && id !in stopFails
  {
    StoppedMembers(instances, stopFails);
    var stopped := Stopped(instances, stopFails);
    var ids := Ids(stopped);
    forall id | id in ids
      ensures exists i :: 0 <= i < |instances| && instances[i].id == id && id !in stopFails
    {
      var k :| 0 <= k < |ids| && ids[k] == id;
      assert stopped[k] in stopped;
    }
    forall i | 0 <= i < |instances| && instances[i].id !in stopFails
      ensures instances[i].id in ids
    {
      assert instances[i] in stopped;
      var k :| 0 <= k < |stopped| && stopped[k] == instances[i];
      assert ids[k] == instances[i].id;
    }
  }


  /**
   * `shutdown_instances` as evidently intended: same count and saving, and
   * the reported ids are those of the instances that stopped, in order.
   */
  method ShutdownInstancesReportingStopped(instances: seq<IdleInstance>, stopFails: set<string>) returns (r: ShutdownResult)
    ensures r.shutdownCount == |Stopped(instances, stopFails)| <= |instances|
    ensures r.estimatedSavings == MonthlyCost(Stopped(instances, stopFails))
    ensures r.instances == Ids(Stopped(instances, stopFails))
  {
    var shutdownCount, estimatedSavings, stopped := StopEach(instances, stopFails);
    r := ShutdownResult(shutdownCount, estimatedSavings, Ids(stopped));
  }

  /**
   * `lambda_handler`: select the idle instances, then stop them. A raising
   * exclusion check leaves nothing stopped (the handler answers 500).
   */
  method AutoShutdownHandler(excludedSetting: Option<string>, reservations: seq<seq<Ec2Instance>>, stopFails: set<string>)
    returns (r: Result<ShutdownResult, ShutdownError>)
    ensures var idle := SelectIdle(ExcludedTags(excludedSetting), Flatten(reservations));
            && (idle.Err? <==> r.Err?)
            && (r.Ok? ==> r.value.shutdownCount == |Stopped(idle.value, stopFails)| <= |idle.value|
                          && r.value.estimatedSavings == MonthlyCost(Stopped(idle.value, stopFails))
                          && r.value.instances == Ids(Stopped(idle.value, stopFails)))
  {
    var idle := GetIdleInstances(ExcludedTags(excludedSetting), reservations);
    if idle.Err? {
      return Err(idle.error);
    }
    var results := ShutdownInstancesReportingStopped(idle.value, stopFails);
    r := Ok(results);
  }
}
