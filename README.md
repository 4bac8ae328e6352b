# AWS cost-housekeeping tool: a Dafny model

The tool is a command-line front end over the AWS SDK. Its Trusted Advisor report (`getAdvise`)
adds up the estimated monthly savings of every check and groups the checks by result status. Its
compute helpers do four things:

- select unattached volumes older than thirty days and delete them in dry-run mode;
- list instances and count them per instance type;
- list classic load balancers;
- audit "Idle Load Balancers" findings against live instance lookups, with a cleanup built on
  that audit.

A fixed-priority chain of flags picks the one action a run performs.

The model replaces every provider call with data (`Provider`). A listing becomes a sequence of
records. Describing a load balancer becomes `registered: string -> Option<seq<string>>`, and
describing an instance becomes a three-way `Lookup` (`Found`, `NotFound`, `OtherError`). Whether a
delete call returns becomes a `succeeds` predicate. Printed output is returned as a sequence of
lines, and an exception that escapes becomes `Err` (or `completed == false`).

The modules are:

- `Dicts`: Python's insertion-ordered dictionary (`keys` in first-insertion order plus a map).
- `Ec2Volumes`, `Ec2Instances`, `Ec2Elb`: model `AWS/ec2.py`.
- `Aws`: models `AWS/aws.py`. The report's status dictionary is a class, `StatusIndex`, because
  the source shares one such object between every category.

The docstring of `getOldUnusedVols` (AWS/ec2.py:25) says "30 days old at least", but the
comparison at AWS/ec2.py:39 is strict, and the model follows the code: a volume created exactly
thirty days ago is not selected (`StaleBoundary`). Only a volume record with no `Tags` key is
selected; one with an empty tag list is not.

## Model

| member | source | states |
|---|---|---|
| Dicts.Dict.Put | AWS/ec2.py:118-121 | `d[k] = v`: the map is updated at `k`, an existing key keeps its place, a new key goes last, and distinct keys stay distinct |
| Dicts.PutSum | AWS/ec2.py:118-121 | storing a value at a key replaces that key's old contribution to a sum over the dictionary by the new one |
| Common.FirstRefused | AWS/ec2.py:48-54 | the first item whose provider call raises: every earlier call returned and that one did not |
| Ec2Volumes.StaleVolumesMembers | AWS/ec2.py:36-39 | a volume is selected if and only if it is listed, has no `Tags` key, and was created strictly before now minus thirty days |
| Ec2Volumes.StaleVolumesAppend | AWS/ec2.py:36-43 | selection keeps listing order and judges each volume on its own |
| Ec2Volumes.StaleBoundary | AWS/ec2.py:34-39 | a volume exactly thirty days old is excluded, one with an empty tag list is excluded, one a second older with no tags is included |
| Ec2Volumes.EntriesSpec | AWS/ec2.py:40-43 | entry `i` is `id;createTime` of the `i`-th selected volume when verbose, and the entries are the bare ids otherwise |
| Ec2Volumes.GetOldUnusedVols | AWS/ec2.py:24-44 | one entry per selected volume, in listing order, of the verbose or plain form |
| Ec2Volumes.CleanupOldUnusedVols | AWS/ec2.py:46-56 | one dry-run delete per selected volume in order until one raises; verbose lines for the deletes that returned; the final count is the number of selected volumes, printed only when no delete raised |
| Ec2Instances.InstanceLine | AWS/ec2.py:92-111 | an instance prints no line exactly when the mode is verbose and it has no tag list |
| Ec2Instances.AppendTags | AWS/ec2.py:97-104 | the tag loop appends `value:` for each `Description`, `Owner` and `ManagedBy` tag, in tag order |
| Ec2Instances.InstanceLinesCount | AWS/ec2.py:92-112 | the number of printed instance lines is the number of instances, minus the untagged ones in verbose mode |
| Ec2Instances.ListInstances | AWS/ec2.py:89-112 | `nb` counts every instance, and the printed lines are the instance lines followed by `Found <nb> instances` |
| Ec2Instances.TypeCount | AWS/ec2.py:117-121 | a type's count never exceeds the number of instances |
| Ec2Instances.TypeCountAbsent | AWS/ec2.py:117-121 | a type no instance has is counted zero times |
| Ec2Instances.TallyStep | AWS/ec2.py:117-121 | the insert-or-increment of one more instance's type extends the per-type tally by that instance |
| Ec2Instances.TallyCounts | AWS/ec2.py:117-121 | after the insert-or-increment, every stored count is the number of instances of its type seen so far |
| Ec2Instances.KeysStep | AWS/ec2.py:117-121 | the insert-or-increment of one more instance's type keeps the keys in first-met order |
| Ec2Instances.CountStep | AWS/ec2.py:117-121 | one pass of the counting loop keeps the keys in first-met order, every count equal to its type's number of instances, and the counts summing to the instances read |
| Ec2Instances.PrintCounts | AWS/ec2.py:122-123 | one `type:count` line per key, in key order |
| Ec2Instances.CountInstanceByType | AWS/ec2.py:114-123 | every type is a key; each key's count is its number of instances and is positive; the counts add up to the number of instances; the keys are the types in the order they were first met, and one `type:count` line per key in that order |
| Ec2Elb.CommaPrefixedJoin | AWS/ec2.py:151-154 | dropping the first character of the comma-prefixed ids gives their comma-join, and the empty string when there are none |
| Ec2Elb.ListElb | AWS/ec2.py:145-159 | one entry per load balancer in order: name and subnets, then zones and instance ids in verbose mode |
| Ec2Elb.DanglingCount | AWS/ec2.py:185-195 | the number of registered instances reported not found never exceeds the number of instances |
| Ec2Elb.DanglingPrefix | AWS/ec2.py:185-195 | counting a prefix of the instances never gives more than counting all of them |
| Ec2Elb.NoDangling | AWS/ec2.py:185-193 | with no `NotFound` lookup, no instance is dangling |
| Ec2Elb.DanglingOnlyNotFound | AWS/ec2.py:187-193 | only the `NotFound` outcome matters: `Found` and any other error count the same |
| Ec2Elb.LookupErrorsCountAsFound | AWS/ec2.py:181-195 | a load balancer with registered instances, none reported not found, contributes nothing |
| Ec2Elb.FlaggedRun | AWS/ec2.py:181-195 | a marked resource contributes its load balancer `n` times, `n` being one for no instances plus one per dangling instance; its savings count `n` times; a failing amount raises only when `n > 0` |
| Ec2Elb.ScaledIsProduct | AWS/ec2.py:184-195 | adding the amount once per append adds `n` times the amount |
| Ec2Elb.RepeatParts | AWS/ec2.py:183-195 | a run of equal appends gives `n` copies of the name and `n` times the savings |
| Ec2Elb.EntriesAppend | AWS/ec2.py:179-195 | names and savings distribute over successive appends |
| Ec2Elb.RunningAppend | AWS/ec2.py:179-195 | continuing the running list and total with more entries gives those of all entries |
| Ec2Elb.FlaggedSound | AWS/ec2.py:180-195 | every entry of a flagged resource names its `metadata[1]` and carries its `metadata[3]` amount, and the resource has the marker |
| Ec2Elb.ResourcesSound | AWS/ec2.py:179-195 | every entry of the flagged resources comes from one of them |
| Ec2Elb.IdleSound | AWS/ec2.py:175-195 | every reported entry comes from a marked flagged resource of a cost-optimizing "Idle Load Balancers" check |
| Ec2Elb.IdleChecks | AWS/ec2.py:176 | the selected checks are among the given ones and are all idle-load-balancer checks |
| Ec2Elb.OnlyIdleChecksMatter | AWS/ec2.py:175-177 | the audit of all checks equals the audit of the idle-load-balancer checks alone |
| Ec2Elb.ResourcesStep | AWS/ec2.py:179-195 | one more flagged resource extends the entries, or raises its error |
| Ec2Elb.ResourcesErrSticky | AWS/ec2.py:179-195 | an error in a prefix of the resources is the error of the whole list |
| Ec2Elb.IdleErrSticky | AWS/ec2.py:175-195 | an error while reading one check ends the audit with that error |
| Ec2Elb.IdleErrStickyFrom | AWS/ec2.py:175-195 | an error in a prefix of the checks is the error of the whole audit |
| Ec2Elb.ScanInstances | AWS/ec2.py:185-195 | the instance loop appends the name and the amount once per dangling instance, and raises the amount's error if there is one |
| Ec2Elb.ScanRegistered | AWS/ec2.py:181-195 | one append when no instance is registered, then one per dangling instance |
| Ec2Elb.ScanFlagged | AWS/ec2.py:180-195 | the running names and total grow by exactly the flagged resource's entries, or the resource's error is raised |
| Ec2Elb.ScanCheck | AWS/ec2.py:179-195 | the running names and total grow by the entries of all flagged resources, or the first error is raised |
| Ec2Elb.GetIdleElb | AWS/ec2.py:170-197 | the names are those of the audit's entries in order, the total is the sum of their savings, the message is `You can save up to <total>$`, and the first exception ends the audit |
| Ec2Elb.DeleteElbs | AWS/ec2.py:199-209 | one delete per reported name in order, duplicates included, until one raises; verbose lines for those that returned |
| Ec2Elb.CleanupElb | AWS/ec2.py:205-209 | runs the audit, then deletes its names as `DeleteElbs` does; an audit error means no delete |
| Aws.WithStatusRecords | AWS/aws.py:62-71 | every record of a status list carries the id and name of a check with that status and, as savings, exactly that check's cost-optimizing summary; every such check has its record there |
| Aws.GroupedRecords | AWS/aws.py:62-71 | the same of the status dictionary the loop builds: a record keeps its own check's savings, present exactly when that check's result has a cost-optimizing summary |
| Aws.StatusIndex.constructor | AWS/aws.py:57 | the status dictionary starts empty |
| Aws.StatusIndex.Append | AWS/aws.py:68-71 | appends to the status's list, creating it on first use |
| Aws.GroupedSpec | AWS/aws.py:68-71 | the keys are exactly the statuses met, and each status's list holds the records of the checks with that status, once each, in check order |
| Aws.GroupedCount | AWS/aws.py:68-71 | the status lists hold one record per check in all |
| Aws.AdviceTotalStatusIndependent | AWS/aws.py:62-65 | the total depends only on the cost-optimizing summaries, whatever each check's status |
| Common.FirstSeen | AWS/aws.py:72 | the keys in first-insertion order are exactly the distinct inserted values (the categories of the checks, the types of the instances) |
| Aws.AdviceStep | AWS/aws.py:59-72 | one more check adds its savings (if any) to the total, its record to its status list, and its category if new |
| Aws.CollectStep | AWS/aws.py:59-72 | one pass of the loop keeps the total, the grouping and the shared category dictionary in step with the checks read |
| Aws.CollectAdvice | AWS/aws.py:55-72 | after the loop, the total is the sum of the savings, the status dictionary is the grouping, and every category maps to the same status dictionary |
| Aws.Render | AWS/aws.py:77-80 | a line starts with `category:status:name` and is longer exactly when the record has savings |
| Aws.StatusLinesVerboseCount | AWS/aws.py:74-80 | in verbose mode a category prints one line per record |
| Aws.VerboseReportCount | AWS/aws.py:73-80 | in verbose mode the report has one line per category and check: every category holds all checks |
| Aws.StatusLinesErrorsOnly | AWS/aws.py:81-89 | in non-verbose mode a category prints exactly the `error` records |
| Aws.NonVerboseReport | AWS/aws.py:81-89 | the non-verbose report is, category by category, the lines of the `error` records |
| Aws.PrintItems | AWS/aws.py:76-80 | one line per record of a status, in order |
| Aws.PrintCategory | AWS/aws.py:75-89 | a category prints its statuses in order, skipping non-`error` ones unless verbose |
| Aws.PrintReport | AWS/aws.py:73-89 | the report walks the categories in first-seen order over the shared status dictionary |
| Aws.GetAdvise | AWS/aws.py:53-90 | prints the report of every category over the grouping, and returns `You can save up to <total>$` |
| Aws.DispatchSpec | AWS/aws.py:187-226 | usage help exactly when no flag is set; otherwise the action of the first set flag in the fixed order |
| Aws.Run | AWS/aws.py:184-228 | with no flag set the run ends in usage help; otherwise, for the first set flag in the fixed order, it ends in usage help exactly when that flag's action raises, which the flavour listing and starting or stopping an instance always do, and otherwise that action runs with the verbose flag |

## Left out

- Building the SDK clients, the `secret` module, and the proxy variables (AWS/aws.py:43-50, AWS/ec2.py:8-19): these are credentials and plumbing.
- Argument parsing: a `Flags` value stands for the parsed command line.
- The bodies of the provider calls: their answers are inputs.
  - The volume listing is assumed to be already filtered to status `available` by the request.
  - `registered` returns `None` when describing a load balancer raises.
- `getInstanceTypes` and `ignoreCertificate`: they scrape a remote HTML page, so their behaviour depends on that page.
- `getUserInstances` (AWS/ec2.py:64-87): outside the modelled core. Its loop repeats the count-and-print loop of `listInstances`, tag loop and skipped line included, over a server-side filter on the `Owner` tag. Dispatch still chooses it as an action, and `Aws.Run` leaves whether it raises to `raises`.
- `startInstance` and `stopInstance` (AWS/ec2.py:125-142): their only statement calls `client`, which `AWS/ec2.py` never defines, so both raise `NameError`. The model keeps only that: `AlwaysRaises` holds for their actions.
- The `rds` module is not part of this model. Its three actions appear in `Action` only.
- Python floats. Money is `real`, so sums are exact.
  - `str` of a float is the parameter `show`, and `float` of a text is the parameter `parse`.
  - A total that was never added to prints as the integer `0` (`SavingsText`).
  - The creation time of a volume is an integer number of seconds, and its rendering is the parameter `showTime`.
- Ec2Elb.GetIdleElb: matching `InvalidInstanceID.NotFound` against the error text is folded into the `Lookup` outcome.
- Ec2Elb.GetIdleElb: the model follows the intended logic, not the crash. As written, `getIdleELB` calls `ec2.getElbInstance`, `ec2.getInstance` and `re.search`, but `AWS/ec2.py` imports neither `ec2` nor `re`. The first marked resource therefore raises `NameError`.
- Ec2Elb.GetIdleElb: a check result without a `flaggedResources` key is not modelled; the list is taken as given.
- Ec2Elb.CleanupElb: `deleteELB` passes no dry-run flag, unlike the volume cleanup; `calls` records the names sent.
- Aws.Run: output printed by an action before it raises is not kept; only the switch to usage help is modelled.
- Aws.Run: the flavour listing looks up `ec2.getInstanceTypes`, which `AWS/ec2.py` does not define. Every `--get-flavors` run therefore ends in usage help.
- Aws.Run: for the other actions, whether they raise is the parameter `raises`. This includes the idle-load-balancer actions, which as written raise `NameError` at the first marked resource (see `Ec2Elb.GetIdleElb` above).
- Ec2Volumes.CleanupOldUnusedVols and Ec2Elb.CleanupElb: whether a delete call returns is the parameter `succeeds`. The model does not fix that answer. With `DryRun` set, the provider answers a permitted request with a `DryRunOperation` error, so as configured the first volume delete raises.
- Rendering of volume creation times, instance states and addresses: the model takes them as already-rendered text, or as `showTime`.
