/** ecs/ecs.go: the ECS wrappers the menu program uses. Every SDK call is
    replaced by its reply, which the caller passes in. */
module Ecs {
  import opened Wrappers
  import opened GoText
  import opened Seqs
  import opened ArnPattern
  import opened Sdk

  /** `ecs.Instance`. The 64-bit counters are unbounded integers here. */
  datatype Instance = Instance(
    arn: string,
    name: string,
    ec2InstanceId: string,
    ami: string,
    status: string,
    agentVersion: string,
    dockerVersion: string,
    pendingTasksCount: int,
    runningTasksCount: int,
    registeredAt: string)

  /** The zero value `Instance{}`. */
  const EmptyInstance: Instance := Instance("", "", "", "", "", "", "", 0, 0, "")

  function InstanceName(inst: Instance): string {
    inst.name
  }

  const AmiAttribute: string := "ecs.ami-id"
  const DockerVersionPrefix: string := "DockerVersion: "
  const ActiveStatus: string := "ACTIVE"
  const DrainingStatus: string := "DRAINING"
  const Failed: string := "FAILED"
  const UpToDate: string := "UP TO DATE"

  /** The short name of a described container instance, when its ARN matches. */
  function DescName(d: ContainerInstanceDesc): Option<string> {
    ContainerInstanceName(d.arn)
  }

  /** `strings.Replace(v, "DockerVersion: ", "", -1)`. */
  function DockerVersionOf(v: string): string {
    RemoveAll(v, DockerVersionPrefix)
  }

  // ---------------------------------------------------------------------
  // GetClusterInstances and GetInstanceTasks (ecs/ecs.go:96-120, 252-276)
  // ---------------------------------------------------------------------

  /** ecs/ecs.go:96-120. */
  method GetClusterInstances(reply: Reply<seq<string>>) returns (instances: seq<string>, err: Option<CallError>)
    ensures reply.Failure? ==> instances == [] && err == Some(reply.error)
    ensures reply.Success? ==> instances == FilterMap(reply.value, ContainerInstanceName) && err == None
  {
    instances := [];
    if reply.Failure? {
      return instances, Some(reply.error);
    }
    var arns := reply.value;
    for i := 0 to |arns|
      invariant instances == FilterMap(arns[..i], ContainerInstanceName)
    {
      var m := ContainerInstanceName(arns[i]);
      if m.Some? {
        instances := instances + [m.value];
      }
      FilterMapPrefix(arns, i, ContainerInstanceName);
    }
    assert arns[..|arns|] == arns;
    return instances, None;
  }

  /** The names GetClusterInstances yields for a reply. */
  function ListedNames(reply: Reply<seq<string>>): seq<string> {
    if reply.Failure? then [] else FilterMap(reply.value, ContainerInstanceName)
  }

  /** ecs/ecs.go:252-276. Unlike GetClusterInstances it returns no error
      after a successful call. */
  method GetInstanceTasks(reply: Reply<seq<string>>) returns (tasks: seq<string>, err: Option<CallError>)
    ensures reply.Failure? ==> tasks == [] && err == Some(reply.error)
    ensures reply.Success? ==> tasks == FilterMap(reply.value, TaskId) && err == None
  {
    tasks := [];
    if reply.Failure? {
      return tasks, Some(reply.error);
    }
    var arns := reply.value;
    for i := 0 to |arns|
      invariant tasks == FilterMap(arns[..i], TaskId)
    {
      var m := TaskId(arns[i]);
      if m.Some? {
        tasks := tasks + [m.value];
      }
      FilterMapPrefix(arns, i, TaskId);
    }
    assert arns[..|arns|] == arns;
    return tasks, None;
  }

  /** The task ids GetInstanceTasks yields for a reply. */
  function ListedTasks(reply: Reply<seq<string>>): seq<string> {
    if reply.Failure? then [] else FilterMap(reply.value, TaskId)
  }

  /** Listing ARNs built from short names gives the names back, in order. */
  lemma ListedNamesOfArns(region: string, account: string, arns: seq<string>, names: seq<string>)
    requires |arns| == |names| && '\n' !in region && '\n' !in account
    requires forall i :: 0 <= i < |names| ==> ':' !in names[i] && '\n' !in names[i]
    requires forall i :: 0 <= i < |arns| ==> arns[i] == Prefix + region + ":" + account + ":" + ContainerInstanceKind + names[i]
    ensures ListedNames(Success(arns)) == names
  {
    forall i | 0 <= i < |arns|
      ensures ContainerInstanceName(arns[i]) == Some(names[i])
    {
      CaptureOfArn(region, account, ContainerInstanceKind, names[i]);
    }
    FilterMapAllMatch(arns, ContainerInstanceName);
  }

  /** Listing task ARNs built from ids gives the ids back, in order. */
  lemma ListedTasksOfArns(region: string, account: string, arns: seq<string>, ids: seq<string>)
    requires |arns| == |ids| && '\n' !in region && '\n' !in account
    requires forall i :: 0 <= i < |ids| ==> ':' !in ids[i] && '\n' !in ids[i]
    requires forall i :: 0 <= i < |arns| ==> arns[i] == Prefix + region + ":" + account + ":" + TaskKind + ids[i]
    ensures ListedTasks(Success(arns)) == ids
  {
    forall i | 0 <= i < |arns|
      ensures TaskId(arns[i]) == Some(ids[i])
    {
      CaptureOfArn(region, account, TaskKind, ids[i]);
    }
    FilterMapAllMatch(arns, TaskId);
  }

  /** A listed name is the capture of some listed ARN, and the capture of
      every matching ARN is listed. */
  lemma ListedNamesMembers(arns: seq<string>, name: string)
    ensures name in ListedNames(Success(arns)) <==> exists i :: 0 <= i < |arns| && ContainerInstanceName(arns[i]) == Some(name)
  {
    FilterMapMembers(arns, ContainerInstanceName, name);
  }

  // ---------------------------------------------------------------------
  // GetClusterInstancesInfo (ecs/ecs.go:123-169)
  // ---------------------------------------------------------------------

  /** One pass of the conversion loop over the reused record `prev`: the name
      is set only when the ARN matches, the AMI only by `ecs.ami-id`
      attributes, and `RegisteredAt` never. */
  function Refresh(prev: Instance, d: ContainerInstanceDesc): Instance {
    var name := match DescName(d) case Some(n) => n case None => prev.name;
    prev.(name := name, arn := d.arn, ec2InstanceId := d.ec2InstanceId, status := d.status,
          runningTasksCount := d.runningTasksCount, pendingTasksCount := d.pendingTasksCount,
          agentVersion := d.agentVersion, dockerVersion := DockerVersionOf(d.dockerVersion),
          ami := LastValue(d.attributes, AmiAttribute, prev.ami))
  }

  /** The records the loop appends, one per description, starting from `prev`. */
  function Converted(prev: Instance, ds: seq<ContainerInstanceDesc>): (r: seq<Instance>)
    ensures |r| == |ds|
    decreases |ds|
  {
    if ds == [] then []
    else var r := Refresh(prev, ds[0]); [r] + Converted(r, ds[1..])
  }

  /** The attributes of all descriptions, in order. */
  function AllAttributes(ds: seq<ContainerInstanceDesc>): seq<NamedValue<string>> {
    if ds == [] then [] else ds[0].attributes + AllAttributes(ds[1..])
  }

  /** Record `k` described on its own: the fields of description `k`, the
      name of the last matching ARN among descriptions `0..k`, and the value
      of the last `ecs.ami-id` attribute among them; what no description
      sets keeps its value in `prev`. */
  function Snapshot(prev: Instance, ds: seq<ContainerInstanceDesc>, k: nat): Instance
    requires k < |ds|
  {
    var d := ds[k];
    Instance(
      arn := d.arn,
      name := LastOr(FilterMap(ds[..k + 1], DescName), prev.name),
      ec2InstanceId := d.ec2InstanceId,
      ami := LastValue(AllAttributes(ds[..k + 1]), AmiAttribute, prev.ami),
      status := d.status,
      agentVersion := d.agentVersion,
      dockerVersion := DockerVersionOf(d.dockerVersion),
      pendingTasksCount := d.pendingTasksCount,
      runningTasksCount := d.runningTasksCount,
      registeredAt := prev.registeredAt)
  }

  lemma AllAttributesCons(d: ContainerInstanceDesc, ds: seq<ContainerInstanceDesc>)
    ensures AllAttributes([d] + ds) == d.attributes + AllAttributes(ds)
  {
    assert ([d] + ds)[1..] == ds;
  }

  lemma SnapshotFirst(prev: Instance, ds: seq<ContainerInstanceDesc>)
    requires |ds| > 0
    ensures Snapshot(prev, ds, 0) == Refresh(prev, ds[0])
  {
    assert ds[..1] == [ds[0]] + [];
    AllAttributesCons(ds[0], []);
    assert ds[0].attributes + [] == ds[0].attributes;
  }

  lemma SnapshotShift(prev: Instance, ds: seq<ContainerInstanceDesc>, k: nat)
    requires 0 < k < |ds|
    ensures Snapshot(Refresh(prev, ds[0]), ds[1..], k - 1) == Snapshot(prev, ds, k)
  {
    var r := Refresh(prev, ds[0]);
    var rest := ds[1..][..k];
    assert ds[..k + 1] == [ds[0]] + rest;
    FilterMapAppend([ds[0]], rest, DescName);
    LastOrAppend(FilterMap([ds[0]], DescName), FilterMap(rest, DescName), prev.name);
    assert r.name == LastOr(FilterMap([ds[0]], DescName), prev.name);
    AllAttributesCons(ds[0], rest);
    LastValueAppend(ds[0].attributes, AllAttributes(rest), AmiAttribute, prev.ami);
  }

  /** The loop's record reuse and the per-record description agree: one
      record per description, in order, each as Snapshot describes it. */
  lemma {:induction false} ConvertedIsSnapshot(prev: Instance, ds: seq<ContainerInstanceDesc>)
    ensures forall k :: 0 <= k < |ds| ==> Converted(prev, ds)[k] == Snapshot(prev, ds, k)
    decreases |ds|
  {
    if ds != [] {
      var r := Refresh(prev, ds[0]);
      ConvertedIsSnapshot(r, ds[1..]);
      SnapshotFirst(prev, ds);
      forall k | 0 < k < |ds|
        ensures Converted(prev, ds)[k] == Snapshot(prev, ds, k)
      {
        SnapshotShift(prev, ds, k);
      }
    }
  }

  /** What the carry-over means for the name and the AMI of record `k`. */
  lemma ConvertedCarryOver(ds: seq<ContainerInstanceDesc>, k: nat)
    requires k < |ds|
    ensures DescName(ds[k]).Some? ==> Converted(EmptyInstance, ds)[k].name == DescName(ds[k]).value
    ensures (forall j :: 0 <= j <= k ==> DescName(ds[j]).None?) ==> Converted(EmptyInstance, ds)[k].name == ""
    ensures (forall j :: 0 <= j < |ds[k].attributes| ==> ds[k].attributes[j].name != AmiAttribute) && k > 0 ==>
              Converted(EmptyInstance, ds)[k].ami == Converted(EmptyInstance, ds)[k - 1].ami
  {
    ConvertedIsSnapshot(EmptyInstance, ds);
    CarriedName(ds, k);
    if k > 0 {
      CarriedAmi(ds, k);
    }
  }

  /** The name of Snapshot `k`: the last match, or "" when none of the first `k + 1` matches. */
  lemma CarriedName(ds: seq<ContainerInstanceDesc>, k: nat)
    requires k < |ds|
    ensures DescName(ds[k]).Some? ==> Snapshot(EmptyInstance, ds, k).name == DescName(ds[k]).value
    ensures (forall j :: 0 <= j <= k ==> DescName(ds[j]).None?) ==> Snapshot(EmptyInstance, ds, k).name == ""
  {
    var pre := ds[..k + 1];
    assert pre == ds[..k] + [ds[k]];
    FilterMapAppend(ds[..k], [ds[k]], DescName);
    if forall j :: 0 <= j <= k ==> DescName(ds[j]).None? {
      FilterMapNone(pre);
    }
  }

  /** A description without an AMI attribute keeps the AMI of Snapshot `k - 1`. */
  lemma CarriedAmi(ds: seq<ContainerInstanceDesc>, k: nat)
    requires 0 < k < |ds|
    ensures (forall j :: 0 <= j < |ds[k].attributes| ==> ds[k].attributes[j].name != AmiAttribute) ==>
              Snapshot(EmptyInstance, ds, k).ami == Snapshot(EmptyInstance, ds, k - 1).ami
  {
    assert ds[..k + 1] == ds[..k] + [ds[k]];
    AllAttributesSnoc(ds[..k], ds[k]);
    LastValueAppend(AllAttributes(ds[..k]), ds[k].attributes, AmiAttribute, "");
    LastValueSpec(ds[k].attributes, AmiAttribute, LastValue(AllAttributes(ds[..k]), AmiAttribute, ""));
    assert ds[..k] == ds[..k - 1 + 1];
  }

  lemma {:induction false} FilterMapNone(ds: seq<ContainerInstanceDesc>)
    requires forall j :: 0 <= j < |ds| ==> DescName(ds[j]).None?
    ensures FilterMap(ds, DescName) == []
  {
    if ds != [] {
      FilterMapNone(ds[1..]);
    }
  }

  lemma {:induction false} AllAttributesSnoc(ds: seq<ContainerInstanceDesc>, d: ContainerInstanceDesc)
    ensures AllAttributes(ds + [d]) == AllAttributes(ds) + d.attributes
  {
    if ds == [] {
      assert ds + [d] == [d] + [];
      AllAttributesCons(d, []);
    } else {
      assert (ds + [d])[1..] == ds[1..] + [d];
      AllAttributesSnoc(ds[1..], d);
    }
  }

  /** The attribute loop of ecs/ecs.go:158-162 on the reused record. */
  method TakeAmi(inst: Instance, attributes: seq<NamedValue<string>>) returns (r: Instance)
    ensures r == inst.(ami := LastValue(attributes, AmiAttribute, inst.ami))
  {
    r := inst;
    for j := 0 to |attributes|
      invariant r == inst.(ami := LastValue(attributes[..j], AmiAttribute, inst.ami))
    {
      var att := attributes[j];
      assert attributes[..j + 1][..j] == attributes[..j];
      if att.name == AmiAttribute {
        r := r.(ami := att.value);
      }
    }
    assert attributes[..|attributes|] == attributes;
  }

  /** ecs/ecs.go:123-169: one record per described instance, reusing one
      record across iterations. */
  method GetClusterInstancesInfo(reply: Reply<seq<ContainerInstanceDesc>>) returns (instancesInfo: seq<Instance>, err: Option<CallError>)
    ensures reply.Failure? ==> instancesInfo == [] && err == Some(reply.error)
    ensures reply.Success? ==> instancesInfo == Converted(EmptyInstance, reply.value) && err == None
  {
    var instanceInfo := EmptyInstance;
    instancesInfo := [];
    if reply.Failure? {
      return instancesInfo, Some(reply.error);
    }
    var cis := reply.value;
    for i := 0 to |cis|
      invariant instancesInfo + Converted(instanceInfo, cis[i..]) == Converted(EmptyInstance, cis)
    {
      var ci := cis[i];
      ghost var target := Refresh(instanceInfo, ci);
      assert Converted(instanceInfo, cis[i..]) == [target] + Converted(target, cis[i + 1..]) by {
        assert cis[i..][0] == ci && cis[i..][1..] == cis[i + 1..];
      }
      AppendAssoc(instancesInfo, [target], Converted(target, cis[i + 1..]));
      var m := ContainerInstanceName(ci.arn);
      if m.Some? {
        instanceInfo := instanceInfo.(name := m.value);
      }
      instanceInfo := instanceInfo.(arn := ci.arn, ec2InstanceId := ci.ec2InstanceId, status := ci.status,
        runningTasksCount := ci.runningTasksCount, pendingTasksCount := ci.pendingTasksCount,
        agentVersion := ci.agentVersion, dockerVersion := RemoveAll(ci.dockerVersion, DockerVersionPrefix));
      instanceInfo := TakeAmi(instanceInfo, ci.attributes);
      assert instanceInfo == target;
      instancesInfo := instancesInfo + [instanceInfo];
    }
    return instancesInfo, None;
  }

  /** The records GetClusterInstancesInfo yields for a reply. */
  function Described(reply: Reply<seq<ContainerInstanceDesc>>): seq<Instance> {
    if reply.Failure? then [] else Converted(EmptyInstance, reply.value)
  }

  /** A Docker version with the SDK's prefix comes out bare. */
  lemma DockerVersionStripped(v: string)
    requires !Contains(v, DockerVersionPrefix)
    ensures DockerVersionOf(DockerVersionPrefix + v) == v
    ensures DockerVersionOf(v) == v
  {
    RemoveAllLeading(DockerVersionPrefix, v);
    RemoveAllAbsent(v, DockerVersionPrefix);
  }

  // ---------------------------------------------------------------------
  // IsClusterReady (ecs/ecs.go:174-207)
  // ---------------------------------------------------------------------

  /** The loop of ecs/ecs.go:196-206: every instance ACTIVE and, when
      `must` is set, running at least one task. */
  function InstancesReady(insts: seq<Instance>, must: bool): (r: bool)
    ensures r <==> forall i :: 0 <= i < |insts| ==>
                     insts[i].status == ActiveStatus && (must ==> insts[i].runningTasksCount >= 1)
  {
    if insts == [] then true
    else if insts[0].status != ActiveStatus then false
    else if must && insts[0].runningTasksCount < 1 then false
    else
      var r := InstancesReady(insts[1..], must);
      assert forall i :: 1 <= i < |insts| ==> insts[1..][i - 1] == insts[i];
      r
  }

  /** Readiness of the converted records is readiness of the descriptions. */
  lemma DescribedReadiness(ds: seq<ContainerInstanceDesc>, must: bool)
    ensures InstancesReady(Converted(EmptyInstance, ds), must) <==>
              forall i :: 0 <= i < |ds| ==> ds[i].status == ActiveStatus && (must ==> ds[i].runningTasksCount >= 1)
  {
    var insts := Converted(EmptyInstance, ds);
    forall i | 0 <= i < |ds|
      ensures insts[i].status == ds[i].status && insts[i].runningTasksCount == ds[i].runningTasksCount
    {
      ConvertedFields(ds, i);
    }
  }

  /** The `i`th converted record has the status and task count of the `i`th description. */
  lemma ConvertedFields(ds: seq<ContainerInstanceDesc>, i: nat)
    requires i < |ds|
    ensures |Converted(EmptyInstance, ds)| == |ds|
    ensures Converted(EmptyInstance, ds)[i].status == ds[i].status
    ensures Converted(EmptyInstance, ds)[i].runningTasksCount == ds[i].runningTasksCount
  {
    ConvertedIsSnapshot(EmptyInstance, ds);
    assert Converted(EmptyInstance, ds)[i] == Snapshot(EmptyInstance, ds, i);
  }

  /** The outcome of a readiness check: a verdict, a process exit after a
      failed call, or the index panic of `clusterInfo[0]`. */
  datatype Readiness = Ready(ready: bool) | Exited(error: CallError) | IndexPanic

  /** ecs/ecs.go:174-207. `clusters` and `arns` are the replies of the
      cluster and instance listings; `describe` answers the description
      request for a cluster name and instance names. */
  function IsClusterReady(must: bool, clusters: Reply<seq<ClusterDesc>>, arns: Reply<seq<string>>,
                          describe: (string, seq<string>) -> Reply<seq<ContainerInstanceDesc>>): (r: Readiness)
    ensures r.Exited? <==> clusters.Failure? || arns.Failure? ||
                           (|clusters.value| > 0 && describe(clusters.value[0].name, ListedNames(arns)).Failure?)
    ensures r.IndexPanic? <==> clusters.Success? && arns.Success? && |clusters.value| == 0
    ensures r.Ready? ==> var ds := describe(clusters.value[0].name, ListedNames(arns)).value;
              (r.ready <==> forall i :: 0 <= i < |ds| ==>
                              ds[i].status == ActiveStatus && (must ==> ds[i].runningTasksCount >= 1))
  {
    if clusters.Failure? then Exited(clusters.error)
    else if arns.Failure? then Exited(arns.error)
    else if |clusters.value| == 0 then IndexPanic
    else
      var info := describe(clusters.value[0].name, ListedNames(arns));
      if info.Failure? then Exited(info.error)
      else
        DescribedReadiness(info.value, must);
        Ready(InstancesReady(Converted(EmptyInstance, info.value), must))
  }

  /** A cluster without instances is ready, whatever the flag. */
  lemma EmptyClusterIsReady(must: bool, clusters: Reply<seq<ClusterDesc>>, arns: Reply<seq<string>>,
                            describe: (string, seq<string>) -> Reply<seq<ContainerInstanceDesc>>)
    requires clusters.Success? && |clusters.value| > 0 && arns.Success?
    requires describe(clusters.value[0].name, ListedNames(arns)) == Success([])
    ensures IsClusterReady(must, clusters, arns, describe) == Ready(true)
  {
  }

  /** Requiring running tasks can only make a ready cluster unready. */
  lemma ReadyWithTasksIsReady(clusters: Reply<seq<ClusterDesc>>, arns: Reply<seq<string>>,
                              describe: (string, seq<string>) -> Reply<seq<ContainerInstanceDesc>>)
    requires IsClusterReady(true, clusters, arns, describe) == Ready(true)
    ensures IsClusterReady(false, clusters, arns, describe) == Ready(true)
  {
  }

  // ---------------------------------------------------------------------
  // Result mappings (ecs/ecs.go:210-249, 309-361)
  // ---------------------------------------------------------------------

  /** The status text a wrapper returns and the error it passes on. */
  datatype CallOutcome = CallOutcome(text: string, err: Option<CallError>)

  /** ecs/ecs.go:229-249. */
  function UpdateContainerAgent(reply: Reply<string>): (r: CallOutcome)
    ensures r.err.Some? <==> reply.Failure? && !IsNoUpdateAvailable(reply.error)
    ensures r.err.Some? ==> r.err.value == reply.error && r.text == Failed
    ensures reply.Failure? && IsNoUpdateAvailable(reply.error) ==> r.text == UpToDate
    ensures reply.Success? ==> r.text == reply.value
  {
    match reply
    case Success(status) => CallOutcome(status, None)
    case Failure(e) => if IsNoUpdateAvailable(e) then CallOutcome(UpToDate, None) else CallOutcome(Failed, Some(e))
  }

  /** ecs/ecs.go:210-226. */
  function StopTask(reply: Reply<string>): (r: CallOutcome)
    ensures r.err.Some? <==> reply.Failure?
    ensures reply.Failure? ==> r == CallOutcome(Failed, Some(reply.error))
    ensures reply.Success? ==> r.text == reply.value
  {
    match reply
    case Success(desired) => CallOutcome(desired, None)
    case Failure(e) => CallOutcome(Failed, Some(e))
  }

  /** ecs/ecs.go:309-344: the reply of `UpdateContainerInstancesState`,
      shared by ActivateContainerInstance and DrainContainerInstance (the
      requested status is part of the call). `None` is the index panic on
      an empty list of updated instances. */
  function UpdateInstanceState(reply: Reply<seq<string>>): (r: Option<CallOutcome>)
    ensures r.None? <==> reply.Success? && |reply.value| == 0
    ensures r.Some? ==> (r.value.err.Some? <==> reply.Failure?)
    ensures reply.Failure? ==> r == Some(CallOutcome(Failed, Some(reply.error)))
    ensures r.Some? && reply.Success? ==> r.value.text == reply.value[0]
  {
    match reply
    case Success(statuses) => if |statuses| == 0 then None else Some(CallOutcome(statuses[0], None))
    case Failure(e) => Some(CallOutcome(Failed, Some(e)))
  }

  /** ecs/ecs.go:347-361: the upper-cased state of the first terminating
      instance. `None` is the index panic on an empty list. */
  function TerminateContainerInstance(reply: Reply<seq<string>>): (r: Option<CallOutcome>)
    ensures r.None? <==> reply.Success? && |reply.value| == 0
    ensures r.Some? ==> (r.value.err.Some? <==> reply.Failure?)
    ensures reply.Failure? ==> r == Some(CallOutcome(Failed, Some(reply.error)))
    ensures r.Some? && reply.Success? ==> r.value.text == ToUpper(reply.value[0])
  {
    match reply
    case Success(states) => if |states| == 0 then None else Some(CallOutcome(ToUpper(states[0]), None))
    case Failure(e) => Some(CallOutcome(Failed, Some(e)))
  }

  /** The names of the EC2 instance states. */
  const Ec2StateNames: seq<string> := ["pending", "running", "shutting-down", "terminated", "stopping", "stopped"]

  /** "FAILED" is returned exactly when the call failed, given that the
      service itself never reports "FAILED" (its statuses are names such as
      "DRAINING" or "STOPPED", and no EC2 state name has six letters). */
  lemma FailedExactlyOnError(stop: Reply<string>, state: Reply<seq<string>>, term: Reply<seq<string>>)
    requires stop.Success? ==> stop.value != Failed
    requires state.Success? ==> |state.value| > 0 && state.value[0] != Failed
    requires term.Success? ==> |term.value| > 0 && term.value[0] in Ec2StateNames
    ensures StopTask(stop).text == Failed <==> stop.Failure?
    ensures UpdateInstanceState(state).value.text == Failed <==> state.Failure?
    ensures TerminateContainerInstance(term).value.text == Failed <==> term.Failure?
  {
  }

  /** An agent update reports "FAILED" only on a real error, and "UP TO
      DATE" with no error when no update is available. */
  lemma AgentUpdateOutcomes(reply: Reply<string>)
    requires reply.Success? ==> reply.value != Failed && reply.value != UpToDate
    ensures UpdateContainerAgent(reply).text == Failed <==> UpdateContainerAgent(reply).err.Some?
    ensures UpdateContainerAgent(reply) == CallOutcome(UpToDate, None) <==> reply.Failure? && IsNoUpdateAvailable(reply.error)
  {
  }
}
