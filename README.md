# ecs-manager: a verified model of the batch logic

ecs-manager is a terminal tool for Amazon ECS clusters. Around its SDK calls
sits a layer of deterministic logic, and this project models that layer in
Dafny and proves properties of it:

- **The drain-and-terminate batch.** It visits the cluster's instances one by
  one. An excluded instance is skipped. Every other instance is drained and
  its record re-fetched. The batch then polls the instance's task list until
  a poll lists no tasks, and terminates its EC2 instance. A failed listing
  yields no task ids, so it too ends the wait and leads to the terminate. Last, it waits for the
  registered-instance count to drop to one below the start count and to come
  back up.
- **The agent-update batch.**
- **The instance-list export.**
- **The instance searcher of the menu.**
- **The `ecs` and `aws` packages.** These cover:
  - ARN to short-name extraction;
  - the conversion of described container instances into records, which
    carries over fields from one record to the next;
  - the two cluster-readiness tests;
  - the cluster lookups;
  - the mapping of call results to `FAILED` / `UP TO DATE`.
- **The `common` helpers.** These are list membership, duration formatting
  and the exclude-list parser.

Every cloud call is answered by `Cloud.Gateway`. The gateway keeps one queue
of scripted replies per kind of call and logs each call it answers. A call
whose queue is empty answers nothing, and the run stops there with
`ScriptEnded`. This bounds the polling loops, which in the program poll
without limit.

`Orchestration` holds pure functions that give, for a script, the events a
batch logs, the script left after it, and how it ended. The methods of
`Manager.Session` are imperative versions of the loops in main.go, and each is
proved to log exactly those events. `Protocol` states the order of calls the
batches promise as acceptors over the log, written independently of
`Orchestration`. It then proves that every log the batches produce is
accepted.

Modules:

| module | file | models |
|---|---|---|
| `Wrappers` | wrappers.dfy | `Option`, `Result` |
| `Seqs` | seqs.dfy | filter-map, map, last element |
| `GoText` | go_text.dfy | the parts of Go's `strings`, `strconv` and RE2 character classes that are used |
| `ArnPattern` | arn_pattern.dfy | the patterns `^arn:aws:ecs:.*:.*:<kind>(.*)$` |
| `Sdk` | sdk.dfy | the shapes of SDK replies, and last-match-wins lookup |
| `Common` | common.dfy | common/common.go |
| `Ecs` | ecs.dfy | ecs/ecs.go |
| `AwsEcs` | aws_ecs.dfy | aws/ecs.go |
| `Cloud` | cloud.dfy | the scripted gateway and its event log |
| `Orchestration` | orchestration.dfy | the batches of main.go as functions of the script |
| `Protocol` | protocol.dfy | the call-order acceptors and the theorems about them |
| `Manager` | manager.dfy | main.go: the `Session` class, its batch methods, file names, export format, searcher |

Two points where the model follows the code rather than what its comments
suggest:

- **`IsEcsClusterReady`.** Its doc comment (aws/ecs.go:220-222) says that
  `mustHaveRunningTasks` is checked. The body (aws/ecs.go:223-262) never
  reads that argument, and the model has no place for it.
- **The shutdown wait.** It polls the registered-instance count until it
  equals the start count minus one (main.go:446-456).

## Model

| member | source | states |
|---|---|---|
| Common.ElementInSlice | common/common.go:12-19 | true exactly when some element equals the query, so false on an empty list |
| Common.PartsDecompose | common/common.go:35-47 | hours, minutes and seconds recombine to the whole seconds of `d`, with minutes and seconds below 60 |
| Common.FormatDuration | common/common.go:31-62 | for `d >= 0`, the text is the layout of the truncated hours, minutes and seconds of `d` |
| Common.LayoutShape | common/common.go:49-57 | the text ends with `<s>s`, has an `h` exactly when there are hours and an `m` exactly when there are minutes, and never contains `hour` |
| Common.NoHour | common/common.go:38-49 | the intermediate `"%d hour"` text never survives into the result |
| Common.OneHour | common/common.go:31-62 | exactly one hour formats as `1h 0s` |
| Common.ScanJoinedLines | common/common.go:74-76 | scanning text made of newline-terminated lines gives those lines back |
| Common.JoinLinesSnoc | main.go:259-261 | appending one more line to the file appends that line and its newline |
| Common.LeadingNonSpaceOf | common/common.go:77 | `\S+` takes the longest prefix with no whitespace |
| Common.LeadingSpaceOf | common/common.go:77 | `\s+` takes the longest whitespace prefix |
| Common.ExcludeLineNameSound | common/common.go:77-80 | a line the parser accepts has the shape `name whitespace (note)`, and the token is that name |
| Common.ExcludeLineNameComplete | common/common.go:77-80 | every line of that shape is accepted with its name |
| Common.CollectExcludedNames | common/common.go:74-82 | the scanner loop keeps, in order, the names of the matching lines and drops the others |
| Common.ReadExcludedInstancesList | common/common.go:65-85 | a missing file or a directory gives no names and no error, a file that cannot be opened gives the error, and a readable one gives the names of its matching lines |
| ArnPattern.CaptureSound | ecs/ecs.go:112-115 | a capture comes from a decomposition of the ARN into prefix, region, account, kind and capture |
| ArnPattern.CaptureComplete | ecs/ecs.go:112-115 | every decomposition of a newline-free ARN yields a capture, and it is the greedy one (after the last kind) |
| ArnPattern.CaptureOfArn | ecs/ecs.go:112-115 | an ARN built from a colon-free id captures exactly that id |
| Sdk.LastValueSpec | ecs/ecs.go:158-162 | the last entry with the wanted name gives the value, and with no such entry the value carries over |
| Ecs.GetClusterInstances | ecs/ecs.go:96-120 | an error gives no names and the error; otherwise the result is the in-order captures of the matching ARNs; `GetEcsClusterInstances` (aws/ecs.go:98-122) is the same loop and is modelled by this member |
| Ecs.ListedNamesOfArns | ecs/ecs.go:111-117 | listing container-instance ARNs built from names gives the names back, in order |
| Ecs.ListedNamesMembers | ecs/ecs.go:111-117 | a name is listed exactly when some ARN captures it, so non-matching ARNs are dropped |
| Ecs.GetInstanceTasks | ecs/ecs.go:252-276 | an error gives no ids and the error; otherwise the result is the in-order captures after `:task/` |
| Ecs.ListedTasksOfArns | ecs/ecs.go:267-273 | task ARNs built from ids list those ids, in order |
| Ecs.Converted | ecs/ecs.go:140-165 | one record per described instance |
| Ecs.ConvertedIsSnapshot | ecs/ecs.go:124-165 | record `k` of the reused-record loop equals an independent definition: the last matching name among the first `k+1` descriptions and the last AMI among their attributes, with the other fields taken from description `k` |
| Ecs.ConvertedCarryOver | ecs/ecs.go:144-162 | a matching ARN sets the name; with no match so far the name is empty; with no AMI attribute the AMI is the previous record's |
| Ecs.TakeAmi | ecs/ecs.go:158-162 | the attribute loop sets the AMI to the last `ecs.ami-id` value, keeping the old one when there is none |
| Ecs.GetClusterInstancesInfo | ecs/ecs.go:123-169 | an error gives no records and the error; otherwise the loop gives the converted records |
| Ecs.DockerVersionStripped | ecs/ecs.go:156 | the `DockerVersion: ` prefix is removed, and a version without it is unchanged |
| Ecs.InstancesReady | ecs/ecs.go:196-206 | true exactly when every record is ACTIVE and, if running tasks are required, runs at least one task |
| Ecs.DescribedReadiness | ecs/ecs.go:196-206 | the test on the converted records is the same test on the descriptions |
| Ecs.IsClusterReady | ecs/ecs.go:174-207 | a failed call exits with its error, an empty cluster list panics, and otherwise the verdict is the readiness of the described instances |
| Ecs.EmptyClusterIsReady | ecs/ecs.go:196-206 | a cluster with no instances is ready |
| Ecs.ReadyWithTasksIsReady | ecs/ecs.go:196-206 | ready with running tasks required implies ready without |
| Ecs.UpdateContainerAgent | ecs/ecs.go:237-248 | NoUpdateAvailable gives `UP TO DATE` with no error, any other error gives `FAILED` with the error, and success gives the update status; `UpdateEcsContainerAgent` (aws/ecs.go:292-303) is the same mapping and is modelled by this member |
| Ecs.StopTask | ecs/ecs.go:219-225 | an error gives `FAILED` and the error; success gives the desired status |
| Ecs.UpdateInstanceState | ecs/ecs.go:318-343 | activate and drain: an error gives `FAILED`, success gives the first status, and an empty status list is the index panic |
| Ecs.TerminateContainerInstance | ecs/ecs.go:354-360 | an error gives `FAILED`; success gives the upper-cased first state name, and an empty list is the index panic |
| Ecs.FailedExactlyOnError | ecs/ecs.go:219-360 | stop, drain and terminate report `FAILED` exactly when the call errors, given the service never reports `FAILED` itself |
| Ecs.AgentUpdateOutcomes | ecs/ecs.go:237-248 | the agent update reports `FAILED` exactly when it returns an error, and `UP TO DATE` with no error exactly on NoUpdateAvailable |
| AwsEcs.ConvertedEcs | aws/ecs.go:142-177 | one record per described instance |
| AwsEcs.StripConverted | aws/ecs.go:142-177 | apart from CPU and memory, the conversion is the one of ecs/ecs.go |
| AwsEcs.ResourcesCarried | aws/ecs.go:126-168 | a record's CPU and MEMORY are the last such resources among the descriptions so far, and otherwise carry over |
| AwsEcs.TakeResources | aws/ecs.go:160-168 | the resource loop sets CPU and memory to the last matching values, keeping the old ones when absent |
| AwsEcs.TakeEcsAmi | aws/ecs.go:170-174 | the attribute loop sets the AMI to the last `ecs.ami-id` value |
| AwsEcs.GetEcsClusterInstancesInfo | aws/ecs.go:125-180 | an error gives no records and the error; otherwise the loop gives the converted records |
| AwsEcs.ZeroTaskCount | aws/ecs.go:252-254 | at most the number of records, and zero exactly when every record runs a task |
| AwsEcs.CountReady | aws/ecs.go:247-261 | the counting loop's verdict is: every record ACTIVE, and at most the tolerated number without tasks |
| AwsEcs.IsEcsClusterReady | aws/ecs.go:223-262 | the verdict depends on the tolerance and never on `mustHaveRunningTasks`; failed calls exit, and an empty cluster list panics |
| AwsEcs.EcsReadyCases | aws/ecs.go:247-261 | any record not ACTIVE makes the cluster unready; with all ACTIVE, ready exactly when the zero-task count is within the tolerance |
| AwsEcs.ToleranceBounds | aws/ecs.go:252-261 | tolerance 0 is the ecs test with tasks required, and tolerating every record is the test without |
| AwsEcs.ToleranceMonotone | aws/ecs.go:257-259 | raising the tolerance keeps a ready cluster ready |
| AwsEcs.GetEcsClusterNameByArn | aws/ecs.go:207-218 | an ARN the pattern matches gives its captured cluster name and no error; any other gives `""` and `No match` |
| AwsEcs.NameByArnSound | aws/ecs.go:209-212 | a name returned without error is the name part of some decomposition of the ARN into prefix, region, account and `cluster/` |
| AwsEcs.NameByArnRoundTrip | aws/ecs.go:209-212 | a cluster ARN built from a name gives that name back |
| AwsEcs.ArnNamedSpec | aws/ecs.go:197-201 | the ARN of the last cluster with the name, or `""` if none has it |
| AwsEcs.GetEcsClusters | aws/ecs.go:46-63 | an error gives no ARNs and the error; otherwise every listed ARN, in order |
| AwsEcs.GetEcsClusterArnByName | aws/ecs.go:183-204 | a failed listing or description gives `""` and the error; otherwise the loop gives the ARN of the last cluster with the name |
| Manager.FileNamesOfClusterArn | main.go:250-353 | for a cluster ARN, the files are `<name>-instances.list` and `<name>-instances.exclude` |
| Manager.ExportLineParses | main.go:260 | an exported line is a line the exclude parser accepts, with the record's name |
| Manager.ExportRoundTrip | main.go:259-262 | reading an exported list as an exclude list gives the exported names, in order |
| Manager.Searcher | main.go:178-184 | matches exactly when the input, lower-cased with spaces removed, occurs in the name normalised the same way |
| Manager.BlankInputMatchesAll | main.go:180-183 | an input of spaces only selects every record |
| Manager.NameMatchesItself | main.go:180-183 | every record is selected by its own name |
| Manager.SearchIgnoresCaseAndSpaces | main.go:180-183 | upper-casing the input or adding a leading space does not change the match |
| Manager.Session.WaitForNoTasks | main.go:398-422 | the task-poll loop logs exactly the polls and pauses of `AwaitNoTasks` |
| Manager.Session.WaitForCount | main.go:435-480 | each count loop logs exactly the polls and pauses of `AwaitCount` for its threshold |
| Manager.Session.Drain | main.go:385-396 | drains, re-fetches, and returns the re-fetched record as `DrainStep` does |
| Manager.Session.TerminateInstance | main.go:425-432 | terminates by EC2 id as `TerminateStep` does |
| Manager.Session.WaitForReplacement | main.go:435-480 | the two count waits in sequence |
| Manager.Session.RetireInstance | main.go:425-480 | terminate, then the two count waits |
| Manager.Session.EvictInstance | main.go:398-480 | task poll, terminate and count waits for the re-fetched record |
| Manager.Session.ProcessInstance | main.go:375-482 | one loop pass: excluded records are only reported; others go through `Visit` |
| Manager.Session.RunBatch | main.go:375-482 | the loop over the records logs exactly `Batch` and stops at the first halt |
| Manager.Session.DrainListedInstances | main.go:367-493 | with instances listed, describes them, stores the records in `instancesInfo` and runs the batch |
| Manager.Session.DrainAndTerminateAll | main.go:343-496 | lists, reads the start count once, then drains as `DrainAndTerminate` specifies |
| Manager.Session.Fetch | main.go:236-247 | lists and, if any instance is listed, describes and stores the records |
| Manager.Session.UpdateEach | main.go:303-315 | the agent loop logs exactly `AgentLoop` |
| Manager.Session.UpdateAllAgents | main.go:286-328 | fetch, then the agent loop, as `UpdateAgents` specifies |
| Manager.Session.FormatExport | main.go:259-267 | the lines written are the export content of the records, one per record, in order |
| Manager.Session.ExportInstancesList | main.go:231-283 | a file is written exactly when instances were listed and described, at `<cfgDir>/<name>-instances.list`, holding the export content |
| Protocol.AwaitNoTasksWalk | main.go:398-422 | the task poll ends ready to terminate only after a poll that listed no task ids, which a failed listing also is |
| Orchestration.FailedPollTerminates | main.go:403-428 | a failed task listing ends the wait at once, and the next call terminates the EC2 instance |
| Protocol.AwaitCountWalk | main.go:446-480 | the shutdown wait ends only at exactly start-1, and the replacement wait only at a count of at least the start |
| Protocol.VisitWalk | main.go:375-482 | one record follows the protocol and, unless halted, hands over to the next record |
| Protocol.BatchFollowsProtocol | main.go:375-482 | the batch log follows the drain-and-terminate protocol over the records in list order, and a batch that ends has visited all of them |
| Protocol.AcceptedSkipsExcluded | main.go:379-382 | a log the protocol accepts never drains an excluded instance |
| Protocol.AcceptedTerminatesAfterEmptyPoll | main.go:398-428 | in an accepted log, every terminate directly follows a poll that listed no task ids, a failed listing included |
| Protocol.BatchSafety | main.go:379-428 | the batch never drains an excluded instance and terminates only right after a task poll that listed no task ids, a failed listing included |
| Protocol.DrainErrorContinues | main.go:385-396 | a failed drain is still followed by the re-fetch, and the batch goes on |
| Protocol.TerminateErrorContinues | main.go:428-436 | a failed terminate is still followed by the shutdown wait |
| Protocol.AgentLoopFollowsProtocol | main.go:303-315 | each record's agent is updated exactly once, in order, with a pause only after a `PENDING` result that is not the last |

## Left out

- **SDK calls.** All calls are network I/O. Their replies are scripted queues, and the model logs each call made.
- **Unbounded polling.** The program polls without limit. In the model a run whose script is exhausted stops with `ScriptEnded`, so a wait that never ends appears as a log cut short.
- **Process exits and index panics.**
  - `os.Exit` in the readiness tests is the `Exited` outcome.
  - The panics at `clusterInfo[0]`, `ContainerInstances[0]`, `TerminatingInstances[0]` and `r1[0]` are `IndexPanic`, `None` or the `Panicked` halt.
- **The `strings.Split(cluster, "/")[1]` panic.** It is a precondition (`'/' in cluster`).
- **Callees that are not part of this model.** `ecs.GetClusterInfo` and `common.ReadFileLines` are among them.
  - The gateway answers the registered-instance count directly.
  - A failed count call is not modelled.
  - The exclusion list is a parameter of the batch.
- **`GetClustersInfo` and `GetEcsClustersInfo`.** These copy loops are reply values: `ClusterDesc` lists.
- **Duplicated wrappers in aws/ecs.go.** These are `GetEcsClusterInstances`, `StopEcsTask`, `UpdateEcsContainerAgent`, `GetEcsInstanceTasks`, `ActivateEcsContainerInstance` and `DrainEcsContainerInstance`. Each has the same code as its ecs/ecs.go counterpart and is modelled by that member.
- **aws/ec2.go.** The batch does not use it.
- **Manager.Session.ExportInstancesList: file errors.** It does not model the failure of `os.Create` or of `WriteString`: the file is always written with all its lines.
- **Common.ReadExcludedInstancesList: stat and scanner errors.**
  - An `os.Stat` error other than a missing file makes `FileExists` dereference a nil `FileInfo`. This is not modelled.
  - The scanner's 64 KiB token limit and `scanner.Err()` are not modelled.
- **Timing.** Sleeps are `Pause` events. `time.Now`, durations, `durafmt` and all printing are left out.
- **The menu.** The prompts and templates, the `goto` navigation, the confirmation prompt and prompt/*.go are left out.
- **main.go:307.** It prints `err` instead of `e`. Nothing is printed in the model.
- **Integer widths.** Counts and durations are unbounded integers, with no `int64` overflow.
- **Common.FormatDuration: negative durations.** It requires `d >= 0`, because Go's truncating division differs from Dafny's for negative values.
- **Case conversion.** `ToLower` and `ToUpper` are ASCII-only.
- **Manager.ConfigPath: path cleaning.** It is a plain join with `/` and does not model the cleaning `filepath.Join` does.
- **Regexp matching.** It is restricted to what the patterns need. The `.*` of the ARN patterns does not match a newline, so an ARN with one never matches, as in RE2 without multi-line mode. In the exclude pattern `\s+` does match a newline, but the scanned lines it is applied to never hold one.
