# Cost-optimisation decision rules, modelled in Dafny

This project models the decision rules at the centre of the KingMicky/COF
cost-optimisation handlers. These run as AWS Lambda functions, Azure
Functions and a Prometheus cost exporter. The model takes away the cloud SDK
calls that fetch inputs and apply outcomes. Each handler is then a rule over
plain records: tags as string maps, power-state codes, metric samples, an
instance type or SKU string, or a column/row cost table. It returns a verdict
or a derived record. The modules are:

- `Common` holds the shared vocabulary. It has `Option`/`Result`, Python's
  `str.split` and (ASCII) `str.lower`, tag lists turned into dictionaries, and
  sums, maxima and means of samples.
- `AwsPricing` holds the five-entry hourly price table. Both AWS handlers
  carry an identical copy of it.
- `AwsRightSizing` covers the EC2 right-sizing Lambda. It splits
  `family.size`, steps along the eight-rung size ladder, decides from the
  CPU and memory thresholds, prices the change and builds the report.
- `AwsAutoShutdown` covers the EC2 auto-shutdown Lambda. It reads the
  `key=value` exclusion list, excludes production, applies the
  "more than 80 % of hourly averages under 5 %" idleness ratio and
  accumulates the stop results.
- `AzureRightSizing` covers the Azure right-sizing function. It aggregates
  samples, walks the closed B-series SKU matrix, decides
  downsize/upsize/monitor/optimal, and applies what the scheduled analysis and the
  HTTP trigger record.
- `AzureAutoShutdown` covers `should_shutdown_vm` and the scale-set and VM
  loops of the power-off function.
- `AzureCleanup` holds the three finders (unattached disks, unused
  snapshots, stopped VMs) and the dry-run-gated deletes.
- `AzureCostExporter` holds the Cost Management answer parser and the
  client's cached OAuth token. The client is a class whose fields the token
  logic overwrites.

Where the source loops and updates variables, the model is a `method` with
loop invariants. Each such method is proved equal to a specification
function. The properties are proved as lemmas about those functions.

Inputs the source reads from the outside world are parameters:

- the clock: seconds, an hour and a weekday with Monday = 0
- the environment variables, as `Option<string>`
- the listings and instance views
- the metric answers, as the averages CloudWatch or Azure Monitor returns
- the token and query answers
- whether each stop, power-off or CloudWatch call raised

A Python exception that escapes a function is an `Err` result. One caught
and logged per item is a per-item flag.

## Model

| member | source | states |
|---|---|---|
| Common.Split | automation/aws-lambda/right_sizing.py:208-214 | `str.split(sep)` yields one part more than the separator occurs, and no part holds a separator |
| Common.JoinSplit | automation/aws-lambda/right_sizing.py:208-214 | splitting and re-joining with the same separator gives back the string |
| Common.Lower | automation/azure-functions/auto_shutdown.py:28-33 | `str.lower` keeps the length and lowers each (ASCII) character |
| Common.TagMapSpec | automation/aws-lambda/auto_shutdown.py:95 | the `{tag['Key']: tag['Value']}` dictionary has exactly the listed keys; a key's last listing gives its value |
| Common.Max | automation/azure-functions/right_sizing.py:66 | `max` is at least every sample and equals one of them |
| Common.MeanAtMostMax | automation/azure-functions/right_sizing.py:65-66 | the mean of a nonempty sample list never exceeds its maximum |
| AwsPricing.HourlyRate | automation/aws-lambda/right_sizing.py:243-252 | every rate, the 0.05 fallback included, lies between the cheapest (0.0104) and the dearest (0.192) listed rate |
| AwsPricing.RateTableShape | automation/aws-lambda/auto_shutdown.py:166-178 | the table lists exactly the five types with their five rates; every other type costs 0.05 per hour |
| AwsRightSizing.InstanceFamily | automation/aws-lambda/right_sizing.py:208-210 | the family is always defined and holds no dot |
| AwsRightSizing.InstanceSize | automation/aws-lambda/right_sizing.py:212-214 | the size is missing (IndexError) exactly when the type has no dot; a size holds no dot |
| AwsRightSizing.FamilySizeRoundTrip | automation/aws-lambda/right_sizing.py:208-214 | for a type with exactly one dot, family + "." + size is the type |
| AwsRightSizing.TypeOfFamilyAndSize | automation/aws-lambda/right_sizing.py:208-214 | `family.size` built from dot-free parts splits back into those parts |
| AwsRightSizing.IndexOf | automation/aws-lambda/right_sizing.py:220 | `list.index` gives the first position of the element, or fails (ValueError) for an absent one |
| AwsRightSizing.SizesWellFormed | automation/aws-lambda/right_sizing.py:218 | the eight ladder sizes are distinct and dot-free |
| AwsRightSizing.NextSizeUp | automation/aws-lambda/right_sizing.py:216-225 | defined exactly for ladder sizes other than `4xlarge`, and then the following rung |
| AwsRightSizing.NextSizeDown | automation/aws-lambda/right_sizing.py:227-236 | defined exactly for ladder sizes other than `nano`, and then the preceding rung |
| AwsRightSizing.DownAfterUp | automation/aws-lambda/right_sizing.py:216-236 | one step down undoes one step up wherever the step up exists |
| AwsRightSizing.UpAfterDown | automation/aws-lambda/right_sizing.py:216-236 | one step up undoes one step down wherever the step down exists |
| AwsRightSizing.CalculateSavings | automation/aws-lambda/right_sizing.py:238-257 | never negative; positive exactly when the new rate is lower, and then (current - new) * 24 * 30 |
| AwsRightSizing.UnlistedTypesSaveNothing | automation/aws-lambda/right_sizing.py:251-257 | two unlisted types cost the same 0.05, so moving between them saves nothing |
| AwsRightSizing.SavingsExamples | automation/aws-lambda/right_sizing.py:243-257 | t3.medium to t3.small saves 0.0208 * 720; the reverse saves 0 |
| AwsRightSizing.GetRightSizingRecommendation | automation/aws-lambda/right_sizing.py:162-206 | the step-by-step reassignment of type, reason, savings and confidence yields the declarative `Recommendation` |
| AwsRightSizing.Recommendation | automation/aws-lambda/right_sizing.py:162-206 | fails exactly when the type has no size part; a saving is never negative; without a CPU step the type is kept and nothing is saved |
| AwsRightSizing.TypeWithoutDotFails | automation/aws-lambda/right_sizing.py:167-168 | a type without a dot raises before any threshold is looked at |
| AwsRightSizing.RecommendationOneRungAway | automation/aws-lambda/right_sizing.py:170-191 | the type changes exactly when the CPU rule takes a rung; the new type keeps the family and is one rung up (only above the high threshold) or down (only below the low one) |
| AwsRightSizing.MemoryIsAdvisory | automation/aws-lambda/right_sizing.py:193-199 | memory never changes the type or the saving; high memory forces High confidence, low memory only appends to the reason |
| AwsRightSizing.RecommendationSavings | automation/aws-lambda/right_sizing.py:176-191 | the saving is never negative, and 0 for a step up |
| AwsRightSizing.AnalyzeInstanceKeeps | automation/aws-lambda/right_sizing.py:93-134 | an instance is reported exactly when it has CPU datapoints, its type has a size and a rung is taken; the entry names the instance, a different type and a non-negative saving |
| AwsRightSizing.AnalyzeInstance | automation/aws-lambda/right_sizing.py:93-134 | a report exists only for an instance with CPU datapoints; it names that instance and its type, a different recommended type and a non-negative saving |
| AwsRightSizing.GenerateReport | automation/aws-lambda/right_sizing.py:259-271 | the count is the number of recommendations, the list is passed through, the total is `TotalSavings` (the sum of the savings) and is non-negative when every saving is |
| AwsRightSizing.TotalSavingsNonNegative | automation/aws-lambda/right_sizing.py:263 | a sum of non-negative savings is non-negative |
| AwsRightSizing.RightSizingAnalysis | automation/aws-lambda/right_sizing.py:26-48 | the loop collects `Recommendations`, in order; no more recommendations than instances; each changes the type, saves a non-negative amount and names an input instance |
| AwsAutoShutdown.ExcludedTags | automation/aws-lambda/auto_shutdown.py:20 | the setting, `AutoShutdown=false` when unset, splits into at least one entry |
| AwsAutoShutdown.ShouldExclude | automation/aws-lambda/auto_shutdown.py:91-107 | a raised error names a malformed entry of the list; a kept instance (answer false) is not production and matches no entry, all entries being well-formed |
| AwsAutoShutdown.ExclusionRule | automation/aws-lambda/auto_shutdown.py:91-107 | with well-formed entries, excluded exactly when some entry matches a tag exactly or `Environment` is exactly `prod` |
| AwsAutoShutdown.MalformedEntryRaises | automation/aws-lambda/auto_shutdown.py:98-101 | an entry not splitting into two parts on `=` raises, unless an earlier entry matched |
| AwsAutoShutdown.ProductionNeverKept | automation/aws-lambda/auto_shutdown.py:103-105 | an `Environment=prod` instance is never found not-excluded |
| AwsAutoShutdown.DefaultExclusion | automation/aws-lambda/auto_shutdown.py:97-107 | with the default list (`EXCLUDED_TAGS` unset, line 20), exactly `AutoShutdown=false` and `Environment=prod` exclude |
| AwsAutoShutdown.SingleEntryExclusion | automation/aws-lambda/auto_shutdown.py:97-107 | a list holding the one entry `key=value` excludes exactly an instance tagged `key` with that value, or a production one |
| AwsAutoShutdown.DefaultSettingEntries | automation/aws-lambda/auto_shutdown.py:20 | the default setting is the single entry `AutoShutdown=false` |
| AwsAutoShutdown.DefaultEntryParts | automation/aws-lambda/auto_shutdown.py:99 | the default entry unpacks into key `AutoShutdown` and value `false` |
| AwsAutoShutdown.LowCpuDatapoints | automation/aws-lambda/auto_shutdown.py:131 | the comprehension keeps exactly the datapoints under 5.0, each as often as it occurs, and no others |
| AwsAutoShutdown.IsInstanceIdle | automation/aws-lambda/auto_shutdown.py:109-136 | a failed metric call is not idle; no datapoints is idle; otherwise idle exactly when 5 * low > 4 * n |
| AwsAutoShutdown.RatioAboveFourFifths | automation/aws-lambda/auto_shutdown.py:132 | `low / n > 0.8` is the integer comparison 5 * low > 4 * n |
| AwsAutoShutdown.IdleListNeverExcluded | automation/aws-lambda/auto_shutdown.py:72-89 | every listed record is the record (id, type, tag map) of an input instance that the exclusion rule keeps and the idleness rule calls idle |
| AwsAutoShutdown.SelectIdle | automation/aws-lambda/auto_shutdown.py:57-89 | the idle list is never longer than the instance listing |
| AwsAutoShutdown.SelectIdleErrorCause | automation/aws-lambda/auto_shutdown.py:72-89 | a raised listing error is the error the exclusion check raises for some input instance |
| AwsAutoShutdown.ConsiderInstance | automation/aws-lambda/auto_shutdown.py:73-87 | one pass of the inner loop body is one `Consider` step: a raising check raises, an excluded or busy instance is skipped, an idle one is appended |
| AwsAutoShutdown.IdleListComplete | automation/aws-lambda/auto_shutdown.py:72-89 | conversely, the record of every input instance that is kept and idle is listed |
| AwsAutoShutdown.IdleRecordOf | automation/aws-lambda/auto_shutdown.py:82-87 | the kept record carries the instance id, its type and its tag map |
| AwsAutoShutdown.GetIdleInstances | automation/aws-lambda/auto_shutdown.py:57-89 | the nested reservation/instance loops compute `SelectIdle` over the flattened listing, a raising exclusion check included |
| AwsAutoShutdown.ScanReservation | automation/aws-lambda/auto_shutdown.py:73-87 | the inner loop extends `SelectIdle` by one reservation |
| AwsAutoShutdown.MonthlyCostBounds | automation/aws-lambda/auto_shutdown.py:151-152 | the saving of n stopped instances lies between n months at 0.0104 and n months at 0.192 |
| AwsAutoShutdown.ShutdownInstances | automation/aws-lambda/auto_shutdown.py:138-164 | as written: the count is the number of successful stops (at most the input), the saving is their monthly cost, and the ids are the first `count` input ids |
| AwsAutoShutdown.ReportedIdsMismatch | automation/aws-lambda/auto_shutdown.py:163 | when the first of two instances fails to stop, the report names it and not the stopped one |
| AwsAutoShutdown.StoppedIds | automation/aws-lambda/auto_shutdown.py:145-158 | the ids of the stopped instances are exactly the input ids whose stop did not raise |
| AwsAutoShutdown.ShutdownInstancesReportingStopped | automation/aws-lambda/auto_shutdown.py:138-164 | as intended: same count and saving, reporting the ids of the instances that stopped, in order |
| AwsAutoShutdown.StopEach | automation/aws-lambda/auto_shutdown.py:142-159 | the stop loop: the instances stopped are exactly `Stopped` (input order, failures skipped), the count is their number (at most the input) and the saving their `MonthlyCost` |
| AwsAutoShutdown.AutoShutdownHandler | automation/aws-lambda/auto_shutdown.py:22-55 | fails exactly when the idle selection raises; otherwise stops the idle instances with the count and saving above and reports the ids of those that stopped (the corrected report) |
| AzureRightSizing.UtilizationOf | automation/azure-functions/right_sizing.py:64-70 | the counts are the sample numbers; the mean and maximum are 0 without samples; otherwise the mean is at most the maximum, which bounds every sample and is one of them |
| AzureRightSizing.SamplesMembers | automation/azure-functions/right_sizing.py:52-62 | a value enters the sample list exactly when some point of some series of some metric has it as its non-None average |
| AzureRightSizing.CollectAverages | automation/azure-functions/right_sizing.py:52-56 | the three nested loops build `Samples` |
| AzureRightSizing.CollectSeries | automation/azure-functions/right_sizing.py:53-56 | the two inner loops append exactly `SeriesSamples` of one metric to the list built so far |
| AzureRightSizing.CollectPoints | automation/azure-functions/right_sizing.py:54-56 | the innermost loop appends exactly the non-None averages of one series, in order |
| AzureRightSizing.GetVmUtilization | automation/azure-functions/right_sizing.py:26-70 | the returned utilisation is `UtilizationOf` the CPU and memory samples |
| AzureRightSizing.SkuMatrixConsistent | automation/azure-functions/right_sizing.py:78-88 | the matrix is a doubly linked ladder: next and prev are inverse; only B1s lacks a prev and only B20ms lacks a next |
| AzureRightSizing.SkuRows | automation/azure-functions/right_sizing.py:78-88 | the matrix has exactly the nine B-series keys, each with its weight, next size up and next size down |
| AzureRightSizing.NextLinksBack | automation/azure-functions/right_sizing.py:78-88 | every next size up is a key whose next size down is the size it came from |
| AzureRightSizing.PrevLinksBack | automation/azure-functions/right_sizing.py:78-88 | every next size down is a key whose next size up is the size it came from |
| AzureRightSizing.LadderEnds | automation/azure-functions/right_sizing.py:78-88 | only `Standard_B1s` lacks a smaller size and only `Standard_B20ms` a larger one |
| AzureRightSizing.GetRightSizingRecommendation | automation/azure-functions/right_sizing.py:90-91 | the action is `unknown` exactly for a SKU outside the matrix |
| AzureRightSizing.DownsizeRule | automation/azure-functions/right_sizing.py:95-102 | a known SKU is downsized exactly when avg < 20, max < 40 and a prev exists, to that prev |
| AzureRightSizing.SmallestNeverDownsized | automation/azure-functions/right_sizing.py:79-96 | Standard_B1s is never downsized |
| AzureRightSizing.UpsizeRule | automation/azure-functions/right_sizing.py:104-117 | when avg > 80 or max > 90 and the low band does not apply, the answer is upsize to next, or monitor at B20ms |
| AzureRightSizing.OptimalRule | automation/azure-functions/right_sizing.py:95-122 | a known SKU is `optimal` exactly when neither band applies |
| AzureRightSizing.RecommendedSkuIsNeighbour | automation/azure-functions/right_sizing.py:95-117 | a recommended SKU is the matrix prev (downsize) or next (upsize) of the current one |
| AzureRightSizing.Analyzed | automation/azure-functions/right_sizing.py:156-158 | a resource is analysed exactly when its metrics were fetched and give at least one CPU sample, and then its utilization is `UtilizationOf` those samples |
| AzureRightSizing.ScheduledIsHttpWithoutOptimal | automation/azure-functions/right_sizing.py:241-249 | on the same metric answers, the scheduled analysis records exactly the HTTP trigger's entries without the `optimal` ones, in order |
| AzureRightSizing.ScheduledEntries | automation/azure-functions/right_sizing.py:158-195 | every scheduled entry had CPU samples, is not `optimal`, carries its resource kind and names an input resource |
| AzureRightSizing.RightSizingAnalysis | automation/azure-functions/right_sizing.py:146-198 | the scheduled analysis records the scale sets, then the VMs |
| AzureRightSizing.AnalyzeAll | automation/azure-functions/right_sizing.py:150-198 | one loop of the analysis records exactly `ScheduledRecords` for its kind of resource, in listing order |
| AzureRightSizing.AnalyzeForSchedule | automation/azure-functions/right_sizing.py:150-172 | one pass of the scheduled analysis loop appends that resource's `ScheduledRecords` entry, if any |
| AzureRightSizing.HttpTriggerRightsizing | automation/azure-functions/right_sizing.py:232-252 | the HTTP trigger records every VM with CPU samples, with its recommendation |
| AzureAutoShutdown.OptInRequired | automation/azure-functions/auto_shutdown.py:25-29 | without `AutoShutdown=true` (any case) nothing is shut down; missing tags count as none |
| AzureAutoShutdown.ShouldShutdownVm | automation/azure-functions/auto_shutdown.py:23-42 | a resource is shut down only when its tags opt in and are not production, and only under the `weekdays` or `always` schedule |
| AzureAutoShutdown.ProductionSpared | automation/azure-functions/auto_shutdown.py:32-34 | `Environment=prod` in any case is never shut down |
| AzureAutoShutdown.ScheduleRule | automation/azure-functions/auto_shutdown.py:37-42 | once the tags allow it, `weekdays` shuts down exactly Monday to Friday from 18:00 and never earlier; `always` shuts down at any hour |
| AzureAutoShutdown.ShutdownIffAllowedAndDue | automation/azure-functions/auto_shutdown.py:23-42 | the verdict is true exactly when the tags allow it and the schedule is due |
| AzureAutoShutdown.OptInIgnoresCase | automation/azure-functions/auto_shutdown.py:28-33 | `AutoShutdown=True` opts in; `Environment=Prod` still spares |
| AzureAutoShutdown.ScaleSetsShutMembers | automation/azure-functions/auto_shutdown.py:73-85 | a scale set is counted exactly when it is due and its power-off did not raise |
| AzureAutoShutdown.VmsShutMembers | automation/azure-functions/auto_shutdown.py:88-106 | a VM is counted exactly when it is due, its instance view says `PowerState/running` and its power-off did not raise |
| AzureAutoShutdown.NoScaleSetOutsideTheWindow | automation/azure-functions/auto_shutdown.py:37-40 | before 18:00 and at weekends no scale set is powered off or counted |
| AzureAutoShutdown.NoVmOutsideTheWindow | automation/azure-functions/auto_shutdown.py:37-40 | before 18:00 and at weekends no VM is powered off or counted |
| AzureAutoShutdown.AutoShutdownCompute | automation/azure-functions/auto_shutdown.py:66-106 | the power-off calls issued, scale sets first, and the count of those that did not raise |
| AzureAutoShutdown.PowerOffScaleSets | automation/azure-functions/auto_shutdown.py:73-85 | the scale-set loop issues exactly `ScaleSetCalls` and counts the due scale sets whose power-off did not raise |
| AzureAutoShutdown.PowerOffVms | automation/azure-functions/auto_shutdown.py:88-106 | the VM loop issues exactly `VmCalls` (due, instance view read, running) and counts those whose power-off did not raise |
| AzureCleanup.CreatedOf | automation/azure-functions/cleanup.py:63 | `created` is `Unknown` exactly without a creation time |
| AzureCleanup.DiskRecordOf | automation/azure-functions/cleanup.py:58-64 | the record copies name, id and size; sku is `Unknown` without a SKU; created is `Unknown` without a creation time |
| AzureCleanup.Unattached | automation/azure-functions/cleanup.py:32-57 | a disk reported unattached is referenced by no VM, as OS disk or data disk |
| AzureCleanup.IsDiskAttached | automation/azure-functions/cleanup.py:34-55 | the nested loops with `break` find a use exactly when some VM's OS or data managed disk has the disk's id |
| AzureCleanup.FindUnattachedDisks | automation/azure-functions/cleanup.py:23-69 | the records of exactly the disks not marked `Attached` that no VM uses, in listing order |
| AzureCleanup.UnattachedPositionsRecords | automation/azure-functions/cleanup.py:30-64 | report record `k` is the record of the disk at the `k`-th reported position |
| AzureCleanup.UnattachedPositionsIncrease | automation/azure-functions/cleanup.py:30-64 | the reported positions lie in the listing and strictly increase (listing order) |
| AzureCleanup.UnattachedPositionsExactly | automation/azure-functions/cleanup.py:30-64 | a position is reported exactly when its disk is unattached |
| AzureCleanup.UnattachedDiskSource | automation/azure-functions/cleanup.py:57-64 | every reported record is that of an unattached disk |
| AzureCleanup.UnattachedDiskReported | automation/azure-functions/cleanup.py:32-64 | every unattached disk is reported |
| AzureCleanup.UnusedRule | automation/azure-functions/cleanup.py:80-83 | flagged exactly when created at least 31 whole days back and `Retention` (any case) is not `permanent`; without a creation time, never |
| AzureCleanup.Unused | automation/azure-functions/cleanup.py:80-83 | a snapshot is flagged only when it has a creation time (without one its age is 0) |
| AzureCleanup.DaysAboveThirty | automation/azure-functions/cleanup.py:80-83 | more than 30 whole days is at least 31 * 86400 seconds |
| AzureCleanup.SnapshotRecordOf | automation/azure-functions/cleanup.py:84-90 | the record copies name, id and size, carries the age in days, and `created` is `Unknown` without a creation time |
| AzureCleanup.FindUnusedSnapshots | automation/azure-functions/cleanup.py:71-95 | the records of exactly the unused snapshots, in listing order |
| AzureCleanup.UnusedPositionsRecords | automation/azure-functions/cleanup.py:78-90 | report record `k` is the record of the snapshot at the `k`-th reported position |
| AzureCleanup.UnusedPositionsIncrease | automation/azure-functions/cleanup.py:78-90 | the reported positions lie in the listing and strictly increase (listing order) |
| AzureCleanup.UnusedPositionsExactly | automation/azure-functions/cleanup.py:78-90 | a position is reported exactly when its snapshot is unused |
| AzureCleanup.UnusedSnapshotSource | automation/azure-functions/cleanup.py:83-90 | every reported snapshot record is that of an unused snapshot |
| AzureCleanup.UnusedSnapshotReported | automation/azure-functions/cleanup.py:78-90 | every unused snapshot is reported |
| AzureCleanup.IdleVmRecordOf | automation/azure-functions/cleanup.py:120-125 | the record copies name, id and size, with power state `stopped` |
| AzureCleanup.Idle | automation/azure-functions/cleanup.py:111-117 | a VM is flagged only when its instance view lists some status |
| AzureCleanup.FindIdleVms | automation/azure-functions/cleanup.py:97-130 | the records of exactly the VMs with a deallocated or stopped status whose `AutoShutdown` tag (any case) is not `false`, in order |
| AzureCleanup.IdlePositionsRecords | automation/azure-functions/cleanup.py:104-125 | report record `k` is the record of the VM at the `k`-th reported position |
| AzureCleanup.IdlePositionsIncrease | automation/azure-functions/cleanup.py:104-125 | the reported positions lie in the listing and strictly increase (listing order) |
| AzureCleanup.IdlePositionsExactly | automation/azure-functions/cleanup.py:104-125 | a position is reported exactly when its VM is idle |
| AzureCleanup.DryRunSetting | automation/azure-functions/cleanup.py:146 | unset means dry run; `TRUE`/`True` mean dry run; `false`, empty or `yes` do not |
| AzureCleanup.DiskDeletes | automation/azure-functions/cleanup.py:178-183 | one delete per unattached disk, by name, in order |
| AzureCleanup.SnapshotDeletes | automation/azure-functions/cleanup.py:186-191 | one delete per unused snapshot, by name, in order |
| AzureCleanup.CleanupResources | automation/azure-functions/cleanup.py:134-203 | the summary holds the three finders' lists, the dry-run flag and the timestamp; a dry run issues no delete, otherwise the disk deletes then the snapshot deletes |
| AzureCleanup.DeleteFlagged | automation/azure-functions/cleanup.py:176-193 | the two delete loops issue exactly `DiskDeletes` then `SnapshotDeletes` |
| AzureCleanup.DeletesAreFlaggedResources | automation/azure-functions/cleanup.py:176-193 | a disk is deleted exactly when some unattached disk has that name, a snapshot exactly when some unused one does; VMs never |
| AzureCleanup.DiskDeletesAreUnattached | automation/azure-functions/cleanup.py:178-184 | a disk deletion names some unattached disk, and every unattached disk is deleted |
| AzureCleanup.SnapshotDeletesAreUnused | automation/azure-functions/cleanup.py:186-191 | a snapshot deletion names some unused snapshot, and every unused snapshot is deleted |
| AzureCostExporter.ToFloat | monitoring/azure_cost_exporter.py:129 | `float()` of a number is that number, of null raises, of text succeeds exactly for the strings `float()` accepts |
| AzureCostExporter.LastIndexNamed | monitoring/azure_cost_exporter.py:116-123 | the column index is absent exactly when no column has the name; otherwise it is the last column so named |
| AzureCostExporter.EmptyWithoutRowsOrColumns | monitoring/azure_cost_exporter.py:111-125 | without `properties.rows`, or without a `ServiceName` or a `Cost` column, the result is empty |
| AzureCostExporter.AggregateIsServiceTotals | monitoring/azure_cost_exporter.py:126-130 | the row loop succeeds exactly when every kept row's cost converts; the keys are exactly the services of kept rows, each with the sum of their costs |
| AzureCostExporter.ServiceTotalUnmentioned | monitoring/azure_cost_exporter.py:126-130 | a service no kept row has totals 0 |
| AzureCostExporter.ParseCostData | monitoring/azure_cost_exporter.py:107-132 | the column loop and the row loop updating `costs` in place compute `CostsOf` |
| AzureCostExporter.CostsOf | monitoring/azure_cost_exporter.py:107-132 | the parse can only fail on a cost that does not convert, and only when the answer has rows |
| AzureCostExporter.FindColumns | monitoring/azure_cost_exporter.py:116-123 | the column loop finds the last `ServiceName` and the last `Cost` column (`LastIndexNamed`), `None` when absent |
| AzureCostExporter.SumRows | monitoring/azure_cost_exporter.py:125-130 | the row loop computes `Aggregate`: per-service sums of the kept rows, or the error of the first cost that does not convert |
| AzureCostExporter.CachedTokenReused | monitoring/azure_cost_exporter.py:40-59 | a valid cached token is returned unchanged and nothing is written; otherwise any token returned is the endpoint's |
| AzureCostExporter.RefreshSetsExpiry | monitoring/azure_cost_exporter.py:51-59 | a refresh stores the new token with expiry now + (expires_in - 60), i.e. now + 3540 by default |
| AzureCostExporter.CachedLifetime | monitoring/azure_cost_exporter.py:40-57 | a refreshed non-empty token is reused for exactly the next expires_in - 60 seconds; never with expires_in at most 60 |
| AzureCostExporter.NonNumericExpiry | monitoring/azure_cost_exporter.py:55-57 | a non-numeric `expires_in` raises after the token is stored, leaving the old expiry |
| AzureCostExporter.AccessTokenStep | monitoring/azure_cost_exporter.py:38-59 | a returned token is the one left in the cache; a failure never moves the expiry; a valid cache is returned unchanged |
| AzureCostExporter.CostDataOf | monitoring/azure_cost_exporter.py:61-105 | a token or query failure gives the empty result |
| AzureCostExporter.AzureCostManagementClient.constructor | monitoring/azure_cost_exporter.py:33-36 | a new client has no token, no expiry and the management base URL |
| AzureCostExporter.AzureCostManagementClient.GetAccessToken | monitoring/azure_cost_exporter.py:38-59 | the fields and the result after the call are `AccessTokenStep` of the fields before |
| AzureCostExporter.AzureCostManagementClient.GetCostData | monitoring/azure_cost_exporter.py:61-105 | the token fields step as in `GetAccessToken`, and the answer is `CostDataOf` the token result and the query: empty on any failure |

## Left out

- `AwsAutoShutdown.AutoShutdownHandler`: calls the corrected `ShutdownInstancesReportingStopped` (see Findings), so it reports the ids of the instances that stopped; the source's `lambda_handler` (auto_shutdown.py:33) calls `shutdown_instances` and reports the first `shutdown_count` ids, which `AwsAutoShutdown.ShutdownInstances` models as written.
- Every SDK and network call is left out. This covers the EC2, CloudWatch and SNS clients, the Azure compute and monitor clients, the OAuth and Cost Management `requests`, and the `.wait()` on pollers. Their results are inputs.
- `send_notification` in both AWS handlers and all logging are left out. They have no effect on the decisions.
- The checks for missing environment variables that return early are left out. So are the timer's `past_due` flag, the cron strings and the HTTP wrappers.
- `http_trigger_cleanup` and `http_trigger_shutdown` are left out. They are HTTP wrappers around the modelled operations.
- `monitoring/dashboard.py` and `monitoring/aws_cost_exporter.py` are not part of this model. They hold UI code, mock data and thin projections into gauges.
- `AzureCostExporter`'s Prometheus gauges, `get_budget_info`, `get_resource_counts`, `update_metrics` and `main` are not part of this model. They hold hard-coded values and a `while True` loop.
- Floating point is modelled as exact reals. `round(…, 2)` in the reports and the f-string reasons are not modelled. Reasons are structured values. The `potential_savings` texts are not modelled either. The `cpu` weights of the SKU matrix are carried and stated in `AzureRightSizing.SkuRows`, but no decision reads them.
- `Common.Lower`: lowers ASCII letters only, because Python's Unicode case mapping is not modelled.
- `AzureCostExporter.ToFloat`: which strings `float()` accepts, and their values, is the `floatOf` input. Python's float-literal grammar is not modelled. Booleans, lists and objects in a row are not modelled as cells.
- Time is whole seconds, and one clock reading serves for each operation. `get_access_token` reads the clock twice (lines 40 and 57); the model uses one `now`. `expires_in` is a whole number of seconds. Time zones and the ISO rendering of timestamps are not modelled. A `created` field carries the time itself.
- The metric query windows (7 days, 1 day in the Azure HTTP trigger, `IDLE_THRESHOLD_HOURS` in AWS) are not modelled. They only choose which samples the inputs hold.
- The `launch_time` field of the AWS idle record is not modelled.
- A finder whose listing call raises returns the partial list built so far. The model takes the listings as complete inputs, so this partial-list behaviour is not modelled.
- `AzureCleanup.FindIdleVms`: does not model a raising `virtual_machines.get`. In the source it ends the finder early with the partial list. The statuses are inputs.
- A raising `virtual_machines.get` in the Azure power-off loop is a missing status list (`None`). It issues no call and counts nothing, as the source's `except` does.
- The code and the descriptive material differ in places. The model follows the code:
  - `cpu_max` is the maximum of the hourly averages. The requested `Maximum` aggregation is never read.
  - Memory is the "Available Memory Bytes" metric.
  - The AWS exclusion entries compare tag values case-sensitively.

## Findings

| source | as written | input that shows it | evidently intended | confidence | as-written member | corrected member |
|---|---|---|---|---|---|---|
| automation/aws-lambda/auto_shutdown.py:163 | the reported ids are `instances[:shutdown_count]`, the first `shutdown_count` inputs | two idle instances `i-a`, `i-b`; stopping `i-a` raises, `i-b` stops: the count is 1 and the report names `i-a` | report the ids of the instances that actually stopped (`i-b`) | not executed | AwsAutoShutdown.ReportedIdsMismatch | AwsAutoShutdown.ShutdownInstancesReportingStopped |
