/**
 * Auto-shutdown engine of the Azure Functions: a resource opts in with the
 * tag `AutoShutdown=true`, production is spared, and the `weekdays` schedule
 * powers resources off from 18:00 UTC on Monday to Friday; scale sets are
 * powered off directly, VMs only when an instance-view status says they run.
 *
 * The hour, the weekday (Monday = 0), the listings, the instance views and
 * the outcome of each power-off call arrive as inputs.
 */
module AzureAutoShutdown {
  import opened Common

  /** The tag checks of `should_shutdown_vm`: opted in (any case) and not production (any case). */
  predicate TagsAllowShutdown(tags: Option<map<string, string>>)
  {
    var t := TagsOrEmpty(tags);
    Lower(Get(t, "AutoShutdown", "")) == "true" && Lower(Get(t, "Environment", "")) != "prod"
  }

  /** `should_shutdown_vm(resource, schedule, hour)` with the weekday read by the caller. */
  predicate ShouldShutdownVm(tags: Option<map<string, string>>, schedule: string, hour: int, weekday: int)
    ensures ShouldShutdownVm(tags, schedule, hour, weekday) ==>
              TagsAllowShutdown(tags) && (schedule == "weekdays" || schedule == "always")
  {
    var t := TagsOrEmpty(tags);
    if Lower(Get(t, "AutoShutdown", "")) != "true" then false
    else if Lower(Get(t, "Environment", "")) == "prod" then false
    else if schedule == "weekdays" && hour >= 18 then weekday < 5
    else schedule == "always"
  }

  /** Nothing is shut down without the opt-in tag; missing tags count as none. */
  lemma OptInRequired(tags: Option<map<string, string>>, schedule: string, hour: int, weekday: int)
    requires Lower(Get(TagsOrEmpty(tags), "AutoShutdown", "")) != "true"
    ensures !ShouldShutdownVm(tags, schedule, hour, weekday)
    ensures !ShouldShutdownVm(None, schedule, hour, weekday)
  {
    assert Get(TagsOrEmpty(None), "AutoShutdown", "") == "";
  }

  /** Production, in any letter case, is never shut down. */
  lemma ProductionSpared(tags: Option<map<string, string>>, schedule: string, hour: int, weekday: int)
    requires Lower(Get(TagsOrEmpty(tags), "Environment", "")) == "prod"
    ensures !ShouldShutdownVm(tags, schedule, hour, weekday)
  {
  }

  /**
   * Once the tags allow it, the `weekdays` schedule shuts down exactly on
   * Monday to Friday from 18:00, and `always` shuts down at any hour.
   */
  lemma ScheduleRule(tags: Option<map<string, string>>, hour: int, weekday: int)
    requires TagsAllowShutdown(tags)
    ensures hour >= 18 ==> (ShouldShutdownVm(tags, "weekdays", hour, weekday) <==> weekday < 5)
    ensures hour < 18 ==> !ShouldShutdownVm(tags, "weekdays", hour, weekday)
    ensures ShouldShutdownVm(tags, "always", hour, weekday)
  {
  }

  /** The verdict is true exactly when the tags allow it and the schedule is due. */
  lemma ShutdownIffAllowedAndDue(tags: Option<map<string, string>>, schedule: string, hour: int, weekday: int)
    ensures ShouldShutdownVm(tags, schedule, hour, weekday) <==>
              TagsAllowShutdown(tags) &&
              ((schedule == "weekdays" && hour >= 18 && weekday < 5) || schedule == "always")
  {
  }

  /** The tag comparison ignores letter case: `AutoShutdown=True` opts in. */
  lemma OptInIgnoresCase()
    ensures ShouldShutdownVm(Some(map["AutoShutdown" := "True"]), "always", 3, 6)
    ensures !ShouldShutdownVm(Some(map["AutoShutdown" := "TRUE", "Environment" := "Prod"]), "always", 3, 6)
  {
    assert Lower("True") == "true";
    assert Lower("TRUE") == "true";
    assert Lower("Prod") == "prod";
  }

  // ---------------------------------------------------------------------
  // auto_shutdown_compute
  // ---------------------------------------------------------------------

  /** A scale set as listed, and whether its `power_off` call raises. */
  datatype ScaleSet = ScaleSet(name: string, tags: Option<map<string, string>>, powerOffFails: bool)

  /**
   * A VM as listed: its instance-view status codes (`None` when the `get`
   * call raised) and whether its `power_off` call raises.
   */
  datatype Vm = Vm(name: string, tags: Option<map<string, string>>, statuses: Option<seq<string>>, powerOffFails: bool)

  datatype PowerOffCall = PowerOffScaleSet(scaleSet: string) | PowerOffVm(vm: string)

  /** `any(status.code == 'PowerState/running' for status in statuses)`. */
  predicate IsRunning(statuses: seq<string>)
  {
    exists i :: 0 <= i < |statuses| && statuses[i] == "PowerState/running"
  }

  predicate ScaleSetDue(s: ScaleSet, hour: int, weekday: int)
  {
    ShouldShutdownVm(s.tags, "weekdays", hour, weekday)
  }

  /** A due VM gets a power-off call only when its instance view was read and says it runs. */
  predicate VmPoweredOff(v: Vm, hour: int, weekday: int)
  {
    ShouldShutdownVm(v.tags, "weekdays", hour, weekday) && v.statuses.Some? && IsRunning(v.statuses.value)
  }

  /** The power-off calls issued to scale sets, in listing order. */
  function ScaleSetCalls(scaleSets: seq<ScaleSet>, hour: int, weekday: int): seq<PowerOffCall>
  {
    if |scaleSets| == 0 then []
    else
      var last := scaleSets[|scaleSets| - 1];
      ScaleSetCalls(scaleSets[..|scaleSets| - 1], hour, weekday) +
      if ScaleSetDue(last, hour, weekday) then [PowerOffScaleSet(last.name)] else []
  }

  /** The scale sets counted as shut down: due, and the power-off did not raise. */
  function ScaleSetsShut(scaleSets: seq<ScaleSet>, hour: int, weekday: int): seq<ScaleSet>
  {
    if |scaleSets| == 0 then []
    else
      var last := scaleSets[|scaleSets| - 1];
      ScaleSetsShut(scaleSets[..|scaleSets| - 1], hour, weekday) +
      if ScaleSetDue(last, hour, weekday) && !last.powerOffFails then [last] else []
  }

  function VmCalls(vms: seq<Vm>, hour: int, weekday: int): seq<PowerOffCall>
  {
    if |vms| == 0 then []
    else
      var last := vms[|vms| - 1];
      VmCalls(vms[..|vms| - 1], hour, weekday) +
      if VmPoweredOff(last, hour, weekday) then [PowerOffVm(last.name)] else []
  }

  /** The VMs counted as shut down: due, running, and the power-off did not raise. */
  function VmsShut(vms: seq<Vm>, hour: int, weekday: int): seq<Vm>
  {
    if |vms| == 0 then []
    else
      var last := vms[|vms| - 1];
      VmsShut(vms[..|vms| - 1], hour, weekday) +
      if VmPoweredOff(last, hour, weekday) && !last.powerOffFails then [last] else []
  }

  /** A VM is counted exactly when it is listed, due, running and its power-off succeeded. */
  lemma {:induction false} VmsShutMembers(vms: seq<Vm>, hour: int, weekday: int)
    ensures |VmsShut(vms, hour, weekday)| <= |vms|
    ensures forall v :: v in VmsShut(vms, hour, weekday) <==>
              v in vms && ShouldShutdownVm(v.tags, "weekdays", hour, weekday) &&
              v.statuses.Some? && IsRunning(v.statuses.value) && !v.powerOffFails
  {
    if |vms| > 0 {
      var init := vms[..|vms| - 1];
      VmsShutMembers(init, hour, weekday);
      assert vms == init + [vms[|vms| - 1]];
    }
  }

  /** A scale set is counted exactly when it is listed, due, and its power-off succeeded. */
  lemma {:induction false} ScaleSetsShutMembers(scaleSets: seq<ScaleSet>, hour: int, weekday: int)
    ensures |ScaleSetsShut(scaleSets, hour, weekday)| <= |scaleSets|
    ensures forall s :: s in ScaleSetsShut(scaleSets, hour, weekday) <==>
              s in scaleSets && ShouldShutdownVm(s.tags, "weekdays", hour, weekday) && !s.powerOffFails
  {
    if |scaleSets| > 0 {
      var init := scaleSets[..|scaleSets| - 1];
      ScaleSetsShutMembers(init, hour, weekday);
      assert scaleSets == init + [scaleSets[|scaleSets| - 1]];
    }
  }

  /** Before 18:00 and at weekends the `weekdays` schedule powers off no scale set and counts none. */
  lemma {:induction false} NoScaleSetOutsideTheWindow(scaleSets: seq<ScaleSet>, hour: int, weekday: int)
    requires hour < 18 || weekday >= 5
    ensures ScaleSetCalls(scaleSets, hour, weekday) == [] && ScaleSetsShut(scaleSets, hour, weekday) == []
  {
    if |scaleSets| > 0 {
      NoScaleSetOutsideTheWindow(scaleSets[..|scaleSets| - 1], hour, weekday);
    }
  }

  /** Before 18:00 and at weekends the `weekdays` schedule powers off no VM and counts none. */
  lemma {:induction false} NoVmOutsideTheWindow(vms: seq<Vm>, hour: int, weekday: int)
    requires hour < 18 || weekday >= 5
    ensures VmCalls(vms, hour, weekday) == [] && VmsShut(vms, hour, weekday) == []
  {
    if |vms| > 0 {
      NoVmOutsideTheWindow(vms[..|vms| - 1], hour, weekday);
    }
  }

  /**
   * `auto_shutdown_compute` after the clients are set up: the calls issued
   * (scale sets first, then VMs) and the number of resources counted.
   */
  method AutoShutdownCompute(hour: int, weekday: int, scaleSets: seq<ScaleSet>, vms: seq<Vm>)
    returns (shutdownCount: nat, calls: seq<PowerOffCall>)
    ensures calls == ScaleSetCalls(scaleSets, hour, weekday) + VmCalls(vms, hour, weekday)
    ensures shutdownCount == |ScaleSetsShut(scaleSets, hour, weekday)| + |VmsShut(vms, hour, weekday)|
  {
    var scaleSetCalls, scaleSetCount := PowerOffScaleSets(hour, weekday, scaleSets);
    var vmCalls, vmCount := PowerOffVms(hour, weekday, vms);
    calls := scaleSetCalls + vmCalls;
    shutdownCount := scaleSetCount + vmCount;
  }

  /** The scale-set loop of `auto_shutdown_compute`. */
  method PowerOffScaleSets(hour: int, weekday: int, scaleSets: seq<ScaleSet>)
    returns (calls: seq<PowerOffCall>, shutdownCount: nat)
    ensures calls == ScaleSetCalls(scaleSets, hour, weekday)
    ensures shutdownCount == |ScaleSetsShut(scaleSets, hour, weekday)|
  {
    shutdownCount := 0;
    calls := [];
    for i := 0 to |scaleSets|
      invariant calls == ScaleSetCalls(scaleSets[..i], hour, weekday)
      invariant shutdownCount == |ScaleSetsShut(scaleSets[..i], hour, weekday)|
    {
      assert scaleSets[..i + 1][..i] == scaleSets[..i];
      var vmss := scaleSets[i];
      if ShouldShutdownVm(vmss.tags, "weekdays", hour, weekday) {
        calls := calls + [PowerOffScaleSet(vmss.name)];
        if !vmss.powerOffFails {
          shutdownCount := shutdownCount + 1;
        }
      }
    }
    assert scaleSets[..|scaleSets|] == scaleSets;
  }

  /** The VM loop of `auto_shutdown_compute`: a VM whose instance view cannot be read is skipped. */
  method PowerOffVms(hour: int, weekday: int, vms: seq<Vm>)
    returns (calls: seq<PowerOffCall>, shutdownCount: nat)
    ensures calls == VmCalls(vms, hour, weekday)
    ensures shutdownCount == |VmsShut(vms, hour, weekday)|
  {
    shutdownCount := 0;
    calls := [];
    for i := 0 to |vms|
      invariant calls == VmCalls(vms[..i], hour, weekday)
      invariant shutdownCount == |VmsShut(vms[..i], hour, weekday)|
    {
      assert vms[..i + 1][..i] == vms[..i];
      var vm := vms[i];
      if ShouldShutdownVm(vm.tags, "weekdays", hour, weekday) {
        if vm.statuses.None? {
          continue;
        }
        if IsRunning(vm.statuses.value) {
          calls := calls + [PowerOffVm(vm.name)];
          if !vm.powerOffFails {
            shutdownCount := shutdownCount + 1;
          }
        }
      }
    }
    assert vms[..|vms|] == vms;
  }
}
