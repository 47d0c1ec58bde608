/**
 * Cleanup engine of the Azure Functions: finds managed disks no VM uses,
 * snapshots older than 30 days that are not kept permanently, and stopped
 * VMs that have not opted out, then deletes the disks and snapshots unless
 * the run is a dry run. VMs are only reported, never deleted.
 *
 * The listings, the instance-view statuses and the current time (seconds)
 * arrive as inputs.
 */
module AzureCleanup {
  import opened Common

  // ---------------------------------------------------------------------
  // Resources as listed
  // ---------------------------------------------------------------------

  /** A managed disk; `diskState` is `None` when the attribute is absent or unset. */
  datatype Disk = Disk(name: string, id: string, diskState: Option<string>, sizeGb: Option<int>,
                       sku: Option<string>, timeCreated: Option<int>)

  datatype OsDisk = OsDisk(managedDiskId: Option<string>)

  datatype DataDisk = DataDisk(managedDiskId: Option<string>)

  datatype StorageProfile = StorageProfile(osDisk: Option<OsDisk>, dataDisks: seq<DataDisk>)

  /** A VM as listed, with the status codes of its instance view. */
  datatype VirtualMachine = VirtualMachine(name: string, id: string, vmSize: string,
                                           tags: Option<map<string, string>>,
                                           storageProfile: Option<StorageProfile>, statuses: seq<string>)

  datatype Snapshot = Snapshot(name: string, id: string, sizeGb: Option<int>, timeCreated: Option<int>,
                               tags: Option<map<string, string>>)

  /** A `created` field: the creation time (rendered as ISO text by the source), or `Unknown`. */
  datatype Created = CreatedAt(seconds: int) | UnknownCreated

  function CreatedOf(timeCreated: Option<int>): (c: Created)
    ensures c == UnknownCreated <==> timeCreated.None?
  {
    match timeCreated
    case None => UnknownCreated
    case Some(t) => CreatedAt(t)
  }

  // ---------------------------------------------------------------------
  // Unattached disks
  // ---------------------------------------------------------------------

  /** The VM's OS disk or one of its data disks is the managed disk `diskId`. */
  predicate References(vm: VirtualMachine, diskId: string)
  {
    vm.storageProfile.Some? &&
    ((vm.storageProfile.value.osDisk.Some? && vm.storageProfile.value.osDisk.value.managedDiskId == Some(diskId)) ||
     exists k :: 0 <= k < |vm.storageProfile.value.dataDisks| &&
                 vm.storageProfile.value.dataDisks[k].managedDiskId == Some(diskId))
  }

  predicate AttachedToSomeVm(vms: seq<VirtualMachine>, diskId: string)
  {
    exists j :: 0 <= j < |vms| && References(vms[j], diskId)
  }

  /** Not marked `Attached`, and no VM uses it. */
  predicate Unattached(disk: Disk, vms: seq<VirtualMachine>)
    ensures Unattached(disk, vms) ==> forall j :: 0 <= j < |vms| ==> !References(vms[j], disk.id)
  {
    disk.diskState != Some("Attached") && !AttachedToSomeVm(vms, disk.id)
  }

  datatype DiskRecord = DiskRecord(name: string, id: string, sizeGb: Option<int>, sku: string, created: Created)

  /** The reported record; a disk without a SKU reports `Unknown`. */
  function DiskRecordOf(disk: Disk): (r: DiskRecord)
    ensures r.name == disk.name && r.id == disk.id && r.sizeGb == disk.sizeGb
    ensures r.sku == (if disk.sku.Some? then disk.sku.value else "Unknown")
    ensures r.created == UnknownCreated <==> disk.timeCreated.None?
  {
    DiskRecord(disk.name, disk.id, disk.sizeGb, if disk.sku.Some? then disk.sku.value else "Unknown",
               CreatedOf(disk.timeCreated))
  }

  function UnattachedDisks(disks: seq<Disk>, vms: seq<VirtualMachine>): seq<DiskRecord>
  {
    if |disks| == 0 then []
    else UnattachedDisks(disks[..|disks| - 1], vms) +
         if Unattached(disks[|disks| - 1], vms) then [DiskRecordOf(disks[|disks| - 1])] else []
  }

  /** The attachment check of `find_unattached_disks`: OS disk first, then the data disks, stopping at the first use. */
  method IsDiskAttached(diskId: string, vms: seq<VirtualMachine>) returns (isAttached: bool)
    ensures isAttached <==> AttachedToSomeVm(vms, diskId)
  {
    isAttached := false;
    for j := 0 to |vms|
      invariant !isAttached
      invariant forall j' :: 0 <= j' < j ==> !References(vms[j'], diskId)
    {
      var vm := vms[j];
      if vm.storageProfile.Some? {
        var profile := vm.storageProfile.value;
        if profile.osDisk.Some? && profile.osDisk.value.managedDiskId == Some(diskId) {
          isAttached := true;
          break;
        }
        for k := 0 to |profile.dataDisks|
          invariant !isAttached
          invariant forall k' :: 0 <= k' < k ==> profile.dataDisks[k'].managedDiskId != Some(diskId)
        {
          if profile.dataDisks[k].managedDiskId == Some(diskId) {
            isAttached := true;
            break;
          }
        }
      }
      if isAttached {
        break;
      }
    }
  }

  /** The positions of the unattached disks reported, in order. */
  ghost function UnattachedPositions(disks: seq<Disk>, vms: seq<VirtualMachine>): seq<nat>
  {
    if |disks| == 0 then []
    else UnattachedPositions(disks[..|disks| - 1], vms) +
         if Unattached(disks[|disks| - 1], vms) then [|disks| - 1] else []
  }

  /** Record `k` of the report is that of the disk at position `k` of `UnattachedPositions`. */
  lemma {:induction false} UnattachedPositionsRecords(disks: seq<Disk>, vms: seq<VirtualMachine>)
    ensures |UnattachedPositions(disks, vms)| == |UnattachedDisks(disks, vms)|
    ensures forall k :: 0 <= k < |UnattachedPositions(disks, vms)| ==>
              UnattachedPositions(disks, vms)[k] < |disks| && UnattachedDisks(disks, vms)[k] == DiskRecordOf(disks[UnattachedPositions(disks, vms)[k]])
  {
    if |disks| > 0 {
      var init := disks[..|disks| - 1];
      UnattachedPositionsRecords(init, vms);
      assert forall i :: 0 <= i < |init| ==> init[i] == disks[i];
    }
  }

  /** The report follows listing order: the positions increase and stay inside the listing. */
  lemma {:induction false} UnattachedPositionsIncrease(disks: seq<Disk>, vms: seq<VirtualMachine>)
    ensures forall k :: 0 <= k < |UnattachedPositions(disks, vms)| ==> UnattachedPositions(disks, vms)[k] < |disks|
    ensures forall k1, k2 :: 0 <= k1 < k2 < |UnattachedPositions(disks, vms)| ==> UnattachedPositions(disks, vms)[k1] < UnattachedPositions(disks, vms)[k2]
  {
    if |disks| > 0 {
      var init := disks[..|disks| - 1];
      UnattachedPositionsIncrease(init, vms);
      var pos := UnattachedPositions(init, vms);
      assert UnattachedPositions(disks, vms) == pos + if Unattached(disks[|disks| - 1], vms) then [|disks| - 1] else [];
    }
  }

  /** A position is reported exactly when its disk qualifies. */
  lemma {:induction false} UnattachedPositionsExactly(disks: seq<Disk>, vms: seq<VirtualMachine>)
    ensures forall i :: 0 <= i < |disks| ==> (i in UnattachedPositions(disks, vms) <==> Unattached(disks[i], vms))
  {
    if |disks| > 0 {
      var init := disks[..|disks| - 1];
      UnattachedPositionsExactly(init, vms);
      UnattachedPositionsIncrease(init, vms);
      var pos := UnattachedPositions(init, vms);
      assert |init| !in pos;
      assert UnattachedPositions(disks, vms) == pos + if Unattached(disks[|disks| - 1], vms) then [|disks| - 1] else [];
      assert forall i :: 0 <= i < |init| ==> init[i] == disks[i];
    }
  }

  /**
   * `find_unattached_disks`: the records of the unattached disks, in listing
   * order; `picked` names the disk each record comes from.
   */
  method FindUnattachedDisks(disks: seq<Disk>, vms: seq<VirtualMachine>)
    returns (unattached: seq<DiskRecord>, ghost picked: seq<nat>)
    ensures unattached == UnattachedDisks(disks, vms)
    ensures |picked| == |unattached|
    ensures forall k :: 0 <= k < |picked| ==> picked[k] < |disks| && unattached[k] == DiskRecordOf(disks[picked[k]])
    ensures forall k1, k2 :: 0 <= k1 < k2 < |picked| ==> picked[k1] < picked[k2]
    ensures forall i :: 0 <= i < |disks| ==> (i in picked <==> Unattached(disks[i], vms))
  {
    unattached, picked := [], [];
    for i := 0 to |disks|
      invariant unattached == UnattachedDisks(disks[..i], vms)
      invariant picked == UnattachedPositions(disks[..i], vms)
    {
      assert disks[..i + 1][..i] == disks[..i];
      var disk := disks[i];
      if disk.diskState != Some("Attached") {
        var isAttached := IsDiskAttached(disk.id, vms);
        if !isAttached {
          unattached := unattached + [DiskRecordOf(disk)];
          picked := picked + [i];
        }
      }
    }
    assert disks[..|disks|] == disks;
    UnattachedPositionsRecords(disks, vms);
    UnattachedPositionsIncrease(disks, vms);
    UnattachedPositionsExactly(disks, vms);
  }

  // ---------------------------------------------------------------------
  // Unused snapshots
  // ---------------------------------------------------------------------

  const SecondsPerDay := 86400

  /** `(now - time_created).days` (rounded down), or 0 without a creation time. */
  function AgeDays(timeCreated: Option<int>, now: int): int
  {
    match timeCreated
    case None => 0
    case Some(t) => (now - t) / SecondsPerDay
  }

  /** Older than 30 days and the `Retention` tag (any case) is not `permanent`. */
  predicate Unused(snapshot: Snapshot, now: int)
    ensures Unused(snapshot, now) ==> snapshot.timeCreated.Some?
  {
    AgeDays(snapshot.timeCreated, now) > 30 &&
    Lower(Get(TagsOrEmpty(snapshot.tags), "Retention", "")) != "permanent"
  }

  /**
   * A snapshot is flagged exactly when it has a creation time at least 31
   * whole days back and is not kept permanently; one without a creation time
   * never is.
   */
  lemma UnusedRule(snapshot: Snapshot, now: int)
    ensures Unused(snapshot, now) <==>
              snapshot.timeCreated.Some? && now - snapshot.timeCreated.value >= 31 * SecondsPerDay &&
              Lower(Get(TagsOrEmpty(snapshot.tags), "Retention", "")) != "permanent"
  {
    if snapshot.timeCreated.Some? {
      var elapsed := now - snapshot.timeCreated.value;
      DaysAboveThirty(elapsed);
    }
  }

  lemma DaysAboveThirty(elapsed: int)
    ensures elapsed / SecondsPerDay > 30 <==> elapsed >= 31 * SecondsPerDay
  {
    var q := elapsed / SecondsPerDay;
    assert elapsed == q * SecondsPerDay + elapsed % SecondsPerDay;
    assert 0 <= elapsed % SecondsPerDay < SecondsPerDay;
  }

  datatype SnapshotRecord = SnapshotRecord(name: string, id: string, sizeGb: Option<int>, created: Created, ageDays: int)

  function SnapshotRecordOf(snapshot: Snapshot, now: int): (r: SnapshotRecord)
    ensures r.name == snapshot.name && r.id == snapshot.id && r.sizeGb == snapshot.sizeGb
    ensures r.created == UnknownCreated <==> snapshot.timeCreated.None?
    ensures r.ageDays == AgeDays(snapshot.timeCreated, now)
  {
    SnapshotRecord(snapshot.name, snapshot.id, snapshot.sizeGb, CreatedOf(snapshot.timeCreated),
                   AgeDays(snapshot.timeCreated, now))
  }

  function UnusedSnapshots(snapshots: seq<Snapshot>, now: int): seq<SnapshotRecord>
  {
    if |snapshots| == 0 then []
    else UnusedSnapshots(snapshots[..|snapshots| - 1], now) +
         if Unused(snapshots[|snapshots| - 1], now) then [SnapshotRecordOf(snapshots[|snapshots| - 1], now)] else []
  }

  /** The positions of the snapshots `find_unused_snapshots` reports, in order. */
  ghost function UnusedPositions(snapshots: seq<Snapshot>, now: int): seq<nat>
  {
    if |snapshots| == 0 then []
    else UnusedPositions(snapshots[..|snapshots| - 1], now) +
         if Unused(snapshots[|snapshots| - 1], now) then [|snapshots| - 1] else []
  }

  /** Record `k` of the report is that of the snapshot at position `k` of `UnusedPositions`. */
  lemma {:induction false} UnusedPositionsRecords(snapshots: seq<Snapshot>, now: int)
    ensures var unused, pos := UnusedSnapshots(snapshots, now), UnusedPositions(snapshots, now);
            && |pos| == |unused|
            && (forall k :: 0 <= k < |pos| ==> pos[k] < |snapshots| && unused[k] == SnapshotRecordOf(snapshots[pos[k]], now))
  {
    if |snapshots| > 0 {
      var init := snapshots[..|snapshots| - 1];
      UnusedPositionsRecords(init, now);
      assert forall i :: 0 <= i < |init| ==> init[i] == snapshots[i];
    }
  }

  /** The report follows listing order: the positions increase and stay inside the listing. */
  lemma {:induction false} UnusedPositionsIncrease(snapshots: seq<Snapshot>, now: int)
    ensures forall k :: 0 <= k < |UnusedPositions(snapshots, now)| ==> UnusedPositions(snapshots, now)[k] < |snapshots|
    ensures forall k1, k2 :: 0 <= k1 < k2 < |UnusedPositions(snapshots, now)| ==>
              UnusedPositions(snapshots, now)[k1] < UnusedPositions(snapshots, now)[k2]
  {
    if |snapshots| > 0 {
      var init := snapshots[..|snapshots| - 1];
      UnusedPositionsIncrease(init, now);
      var pos := UnusedPositions(init, now);
      assert forall k :: 0 <= k < |pos| ==> pos[k] < |init|;
      assert UnusedPositions(snapshots, now) ==
             pos + if Unused(snapshots[|snapshots| - 1], now) then [|snapshots| - 1] else [];
    }
  }

  /** A position is reported exactly when its snapshot is unused. */
  lemma {:induction false} UnusedPositionsExactly(snapshots: seq<Snapshot>, now: int)
    ensures forall i :: 0 <= i < |snapshots| ==> (i in UnusedPositions(snapshots, now) <==> Unused(snapshots[i], now))
  {
    if |snapshots| > 0 {
      var init := snapshots[..|snapshots| - 1];
      UnusedPositionsExactly(init, now);
      UnusedPositionsIncrease(init, now);
      var pos := UnusedPositions(init, now);
      assert |init| !in pos;
      assert UnusedPositions(snapshots, now) ==
             pos + if Unused(snapshots[|snapshots| - 1], now) then [|snapshots| - 1] else [];
      assert forall i :: 0 <= i < |init| ==> init[i] == snapshots[i];
    }
  }

  /** `find_unused_snapshots`, with one reading of the clock for the whole listing. */
  method FindUnusedSnapshots(snapshots: seq<Snapshot>, now: int)
    returns (unused: seq<SnapshotRecord>, ghost picked: seq<nat>)
    ensures unused == UnusedSnapshots(snapshots, now)
    ensures |picked| == |unused|
    ensures forall k :: 0 <= k < |picked| ==>
              picked[k] < |snapshots| && unused[k] == SnapshotRecordOf(snapshots[picked[k]], now)
    ensures forall k1, k2 :: 0 <= k1 < k2 < |picked| ==> picked[k1] < picked[k2]
    ensures forall i :: 0 <= i < |snapshots| ==> (i in picked <==> Unused(snapshots[i], now))
  {
    unused, picked := [], [];
    for i := 0 to |snapshots|
      invariant unused == UnusedSnapshots(snapshots[..i], now)
      invariant picked == UnusedPositions(snapshots[..i], now)
    {
      assert snapshots[..i + 1][..i] == snapshots[..i];
      var snapshot := snapshots[i];
      var ageDays := AgeDays(snapshot.timeCreated, now);
      var tags := TagsOrEmpty(snapshot.tags);
      if ageDays > 30 && Lower(Get(tags, "Retention", "")) != "permanent" {
        unused := unused + [SnapshotRecordOf(snapshot, now)];
        picked := picked + [i];
      }
    }
    assert snapshots[..|snapshots|] == snapshots;
    UnusedPositionsRecords(snapshots, now);
    UnusedPositionsIncrease(snapshots, now);
    UnusedPositionsExactly(snapshots, now);
  }

  // ---------------------------------------------------------------------
  // Idle VMs
  // ---------------------------------------------------------------------

  /** Some status code is `PowerState/deallocated` or `PowerState/stopped`. */
  predicate IsStopped(statuses: seq<string>)
  {
    exists i :: 0 <= i < |statuses| && (statuses[i] == "PowerState/deallocated" || statuses[i] == "PowerState/stopped")
  }

  /** Stopped, and the `AutoShutdown` tag (any case) is not `false`. */
  predicate Idle(vm: VirtualMachine)
    ensures Idle(vm) ==> |vm.statuses| > 0
  {
    IsStopped(vm.statuses) && Lower(Get(TagsOrEmpty(vm.tags), "AutoShutdown", "")) != "false"
  }

  datatype IdleVmRecord = IdleVmRecord(name: string, id: string, size: string, powerState: string)

  function IdleVmRecordOf(vm: VirtualMachine): (r: IdleVmRecord)
    ensures r.name == vm.name && r.id == vm.id && r.size == vm.vmSize && r.powerState == "stopped"
  {
    IdleVmRecord(vm.name, vm.id, vm.vmSize, "stopped")
  }

  function IdleVms(vms: seq<VirtualMachine>): seq<IdleVmRecord>
  {
    if |vms| == 0 then []
    else IdleVms(vms[..|vms| - 1]) + if Idle(vms[|vms| - 1]) then [IdleVmRecordOf(vms[|vms| - 1])] else []
  }

  /** The positions of the idle VMs reported, in order. */
  ghost function IdlePositions(vms: seq<VirtualMachine>): seq<nat>
  {
    if |vms| == 0 then []
    else IdlePositions(vms[..|vms| - 1]) +
         if Idle(vms[|vms| - 1]) then [|vms| - 1] else []
  }

  /** Record `k` of the report is that of the VM at position `k` of `IdlePositions`. */
  lemma {:induction false} IdlePositionsRecords(vms: seq<VirtualMachine>)
    ensures |IdlePositions(vms)| == |IdleVms(vms)|
    ensures forall k :: 0 <= k < |IdlePositions(vms)| ==>
              IdlePositions(vms)[k] < |vms| && IdleVms(vms)[k] == IdleVmRecordOf(vms[IdlePositions(vms)[k]])
  {
    if |vms| > 0 {
      var init := vms[..|vms| - 1];
      IdlePositionsRecords(init);
      assert forall i :: 0 <= i < |init| ==> init[i] == vms[i];
    }
  }

  /** The report follows listing order: the positions increase and stay inside the listing. */
  lemma {:induction false} IdlePositionsIncrease(vms: seq<VirtualMachine>)
    ensures forall k :: 0 <= k < |IdlePositions(vms)| ==> IdlePositions(vms)[k] < |vms|
    ensures forall k1, k2 :: 0 <= k1 < k2 < |IdlePositions(vms)| ==> IdlePositions(vms)[k1] < IdlePositions(vms)[k2]
  {
    if |vms| > 0 {
      var init := vms[..|vms| - 1];
      IdlePositionsIncrease(init);
      var pos := IdlePositions(init);
      assert IdlePositions(vms) == pos + if Idle(vms[|vms| - 1]) then [|vms| - 1] else [];
    }
  }

  /** A position is reported exactly when its VM qualifies. */
  lemma {:induction false} IdlePositionsExactly(vms: seq<VirtualMachine>)
    ensures forall i :: 0 <= i < |vms| ==> (i in IdlePositions(vms) <==> Idle(vms[i]))
  {
    if |vms| > 0 {
      var init := vms[..|vms| - 1];
      IdlePositionsExactly(init);
      IdlePositionsIncrease(init);
      var pos := IdlePositions(init);
      assert |init| !in pos;
      assert IdlePositions(vms) == pos + if Idle(vms[|vms| - 1]) then [|vms| - 1] else [];
      assert forall i :: 0 <= i < |init| ==> init[i] == vms[i];
    }
  }

  /** `find_idle_vms`. */
  method FindIdleVms(vms: seq<VirtualMachine>) returns (idle: seq<IdleVmRecord>, ghost picked: seq<nat>)
    ensures idle == IdleVms(vms)
    ensures |picked| == |idle|
    ensures forall k :: 0 <= k < |picked| ==> picked[k] < |vms| && idle[k] == IdleVmRecordOf(vms[picked[k]])
    ensures forall k1, k2 :: 0 <= k1 < k2 < |picked| ==> picked[k1] < picked[k2]
    ensures forall i :: 0 <= i < |vms| ==> (i in picked <==> Idle(vms[i]))
  {
    idle, picked := [], [];
    for i := 0 to |vms|
      invariant idle == IdleVms(vms[..i])
      invariant picked == IdlePositions(vms[..i])
    {
      assert vms[..i + 1][..i] == vms[..i];
      var vm := vms[i];
      var isStopped := IsStopped(vm.statuses);
      if isStopped {
        var tags := TagsOrEmpty(vm.tags);
        if Lower(Get(tags, "AutoShutdown", "")) != "false" {
          idle := idle + [IdleVmRecordOf(vm)];
          picked := picked + [i];
        }
      }
    }
    assert vms[..|vms|] == vms;
    IdlePositionsRecords(vms);
    IdlePositionsIncrease(vms);
    IdlePositionsExactly(vms);
  }

  // ---------------------------------------------------------------------
  // cleanup_resources
  // ---------------------------------------------------------------------

  /** `os.environ.get('DRY_RUN', 'true').lower() == 'true'`. */
  predicate DryRunEnabled(setting: Option<string>)
  {
    Lower(setting.GetOr("true")) == "true"
  }

  /** Unset means dry run; the comparison ignores case; any other value disables it. */
  lemma DryRunSetting()
    ensures DryRunEnabled(None)
    ensures DryRunEnabled(Some("TRUE")) && DryRunEnabled(Some("True"))
    ensures !DryRunEnabled(Some("false")) && !DryRunEnabled(Some("")) && !DryRunEnabled(Some("yes"))
  {
    assert Lower("TRUE") == "true";
    assert Lower("True") == "true";
    assert Lower("false") != "true";
    assert Lower("yes") != "true";
  }

  datatype DeleteCall = DeleteDisk(disk: string) | DeleteSnapshot(snapshot: string)

  /** The dictionary `cleanup_summary`. */
  datatype CleanupSummary = CleanupSummary(unattachedDisks: seq<DiskRecord>, unusedSnapshots: seq<SnapshotRecord>,
                                           idleVms: seq<IdleVmRecord>, dryRun: bool, timestamp: string)

  function DiskDeletes(disks: seq<DiskRecord>): (calls: seq<DeleteCall>)
    ensures |calls| == |disks|
    ensures forall k :: 0 <= k < |disks| ==> calls[k] == DeleteDisk(disks[k].name)
  {
    if |disks| == 0 then [] else DiskDeletes(disks[..|disks| - 1]) + [DeleteDisk(disks[|disks| - 1].name)]
  }

  function SnapshotDeletes(snapshots: seq<SnapshotRecord>): (calls: seq<DeleteCall>)
    ensures |calls| == |snapshots|
    ensures forall k :: 0 <= k < |snapshots| ==> calls[k] == DeleteSnapshot(snapshots[k].name)
  {
    if |snapshots| == 0 then []
    else SnapshotDeletes(snapshots[..|snapshots| - 1]) + [DeleteSnapshot(snapshots[|snapshots| - 1].name)]
  }

  /**
   * `cleanup_resources` after the clients are set up: the summary and the
   * delete calls issued (each is issued whether or not it then fails).
   */
  method CleanupResources(dryRunSetting: Option<string>, now: int, timestamp: string,
                          disks: seq<Disk>, snapshots: seq<Snapshot>, vms: seq<VirtualMachine>)
    returns (summary: CleanupSummary, deletes: seq<DeleteCall>)
    ensures summary == CleanupSummary(UnattachedDisks(disks, vms), UnusedSnapshots(snapshots, now), IdleVms(vms),
                                      DryRunEnabled(dryRunSetting), timestamp)
    ensures deletes == if summary.dryRun then []
                       else DiskDeletes(summary.unattachedDisks) + SnapshotDeletes(summary.unusedSnapshots)
  {
    var dryRun := DryRunEnabled(dryRunSetting);
    summary := CleanupSummary([], [], [], dryRun, timestamp);
    var unattachedDisks, _ := FindUnattachedDisks(disks, vms);
    summary := summary.(unattachedDisks := unattachedDisks);
    var unusedSnapshots, _ := FindUnusedSnapshots(snapshots, now);
    summary := summary.(unusedSnapshots := unusedSnapshots);
    var idleVms, _ := FindIdleVms(vms);
    summary := summary.(idleVms := idleVms);
    deletes := [];
    if !dryRun {
      deletes := DeleteFlagged(unattachedDisks, unusedSnapshots);
    }
  }

  /** The two delete loops of `cleanup_resources`: every flagged disk, then every flagged snapshot. */
  method DeleteFlagged(unattachedDisks: seq<DiskRecord>, unusedSnapshots: seq<SnapshotRecord>)
    returns (deletes: seq<DeleteCall>)
    ensures deletes == DiskDeletes(unattachedDisks) + SnapshotDeletes(unusedSnapshots)
  {
    deletes := [];
    for i := 0 to |unattachedDisks|
      invariant deletes == DiskDeletes(unattachedDisks[..i])
    {
      assert unattachedDisks[..i + 1][..i] == unattachedDisks[..i];
      deletes := deletes + [DeleteDisk(unattachedDisks[i].name)];
    }
    assert unattachedDisks[..|unattachedDisks|] == unattachedDisks;
    ghost var diskDeletes := deletes;
    for i := 0 to |unusedSnapshots|
      invariant deletes == diskDeletes + SnapshotDeletes(unusedSnapshots[..i])
    {
      assert unusedSnapshots[..i + 1][..i] == unusedSnapshots[..i];
      deletes := deletes + [DeleteSnapshot(unusedSnapshots[i].name)];
    }
    assert unusedSnapshots[..|unusedSnapshots|] == unusedSnapshots;
  }

  /**
   * Outside a dry run the disks deleted are exactly the unattached ones and
   * the snapshots deleted exactly the unused ones, by name; no call ever
   * deletes a VM.
   */
  lemma DeletesAreFlaggedResources(disks: seq<Disk>, vms: seq<VirtualMachine>, snapshots: seq<Snapshot>, now: int)
    ensures var calls := DiskDeletes(UnattachedDisks(disks, vms)) + SnapshotDeletes(UnusedSnapshots(snapshots, now));
            && (forall n :: DeleteDisk(n) in calls <==>
                  exists i :: 0 <= i < |disks| && disks[i].name == n && Unattached(disks[i], vms))
            && (forall n :: DeleteSnapshot(n) in calls <==>
                  exists i :: 0 <= i < |snapshots| && snapshots[i].name == n && Unused(snapshots[i], now))
  {
    var diskCalls := DiskDeletes(UnattachedDisks(disks, vms));
    var snapshotCalls := SnapshotDeletes(UnusedSnapshots(snapshots, now));
    DiskDeletesAreUnattached(disks, vms);
    SnapshotDeletesAreUnused(snapshots, now);
    assert forall n :: DeleteDisk(n) !in snapshotCalls;
    assert forall n :: DeleteSnapshot(n) !in diskCalls;
  }

  lemma DiskDeletesAreUnattached(disks: seq<Disk>, vms: seq<VirtualMachine>)
    ensures forall n :: DeleteDisk(n) in DiskDeletes(UnattachedDisks(disks, vms)) <==>
              exists i :: 0 <= i < |disks| && disks[i].name == n && Unattached(disks[i], vms)
  {
    var calls := DiskDeletes(UnattachedDisks(disks, vms));
    forall n | DeleteDisk(n) in calls
      ensures exists i :: 0 <= i < |disks| && disks[i].name == n && Unattached(disks[i], vms)
    {
      var k :| 0 <= k < |calls| && calls[k] == DeleteDisk(n);
      var i := UnattachedDiskSource(disks, vms, k);
    }
    forall i | 0 <= i < |disks| && Unattached(disks[i], vms) ensures DeleteDisk(disks[i].name) in calls {
      var k := UnattachedDiskReported(disks, vms, i);
      assert calls[k] == DeleteDisk(disks[i].name);
    }
  }

  lemma SnapshotDeletesAreUnused(snapshots: seq<Snapshot>, now: int)
    ensures forall n :: DeleteSnapshot(n) in SnapshotDeletes(UnusedSnapshots(snapshots, now)) <==>
              exists i :: 0 <= i < |snapshots| && snapshots[i].name == n && Unused(snapshots[i], now)
  {
    var calls := SnapshotDeletes(UnusedSnapshots(snapshots, now));
    forall n | DeleteSnapshot(n) in calls
      ensures exists i :: 0 <= i < |snapshots| && snapshots[i].name == n && Unused(snapshots[i], now)
    {
      var k :| 0 <= k < |calls| && calls[k] == DeleteSnapshot(n);
      var i := UnusedSnapshotSource(snapshots, now, k);
    }
    forall i | 0 <= i < |snapshots| && Unused(snapshots[i], now) ensures DeleteSnapshot(snapshots[i].name) in calls {
      var k := UnusedSnapshotReported(snapshots, now, i);
      assert calls[k] == DeleteSnapshot(snapshots[i].name);
    }
  }

  /** Each reported disk record is that of an unattached disk (the index `i`). */
  lemma {:induction false} UnattachedDiskSource(disks: seq<Disk>, vms: seq<VirtualMachine>, k: nat) returns (i: nat)
    requires k < |UnattachedDisks(disks, vms)|
    ensures i < |disks| && UnattachedDisks(disks, vms)[k] == DiskRecordOf(disks[i]) && Unattached(disks[i], vms)
  {
    var init := disks[..|disks| - 1];
    if k < |UnattachedDisks(init, vms)| {
      i := UnattachedDiskSource(init, vms, k);
      assert disks[i] == init[i];
    } else {
      i := |disks| - 1;
    }
  }

  /** Each unattached disk is reported (at position `k`). */
  lemma {:induction false} UnattachedDiskReported(disks: seq<Disk>, vms: seq<VirtualMachine>, i: nat) returns (k: nat)
    requires i < |disks| && Unattached(disks[i], vms)
    ensures k < |UnattachedDisks(disks, vms)| && UnattachedDisks(disks, vms)[k] == DiskRecordOf(disks[i])
  {
    var init := disks[..|disks| - 1];
    if i < |init| {
      assert init[i] == disks[i];
      k := UnattachedDiskReported(init, vms, i);
    } else {
      k := |UnattachedDisks(init, vms)|;
    }
  }

  /** Each reported snapshot record is that of an unused snapshot (the index `i`). */
  lemma {:induction false} UnusedSnapshotSource(snapshots: seq<Snapshot>, now: int, k: nat) returns (i: nat)
    requires k < |UnusedSnapshots(snapshots, now)|
    ensures i < |snapshots| && UnusedSnapshots(snapshots, now)[k] == SnapshotRecordOf(snapshots[i], now) &&
            Unused(snapshots[i], now)
  {
    var init := snapshots[..|snapshots| - 1];
    if k < |UnusedSnapshots(init, now)| {
      i := UnusedSnapshotSource(init, now, k);
      assert snapshots[i] == init[i];
    } else {
      i := |snapshots| - 1;
    }
  }

  /** Each unused snapshot is reported (at position `k`). */
  lemma {:induction false} UnusedSnapshotReported(snapshots: seq<Snapshot>, now: int, i: nat) returns (k: nat)
    requires i < |snapshots| && Unused(snapshots[i], now)
    ensures k < |UnusedSnapshots(snapshots, now)| && UnusedSnapshots(snapshots, now)[k] == SnapshotRecordOf(snapshots[i], now)
  {
    var init := snapshots[..|snapshots| - 1];
    if i < |init| {
      assert init[i] == snapshots[i];
      k := UnusedSnapshotReported(init, now, i);
    } else {
      k := |UnusedSnapshots(init, now)|;
    }
  }
}
