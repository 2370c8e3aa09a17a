/** aws/ecs.go: the second set of ECS wrappers. Its instance record also
    carries the remaining CPU and memory, and its readiness check tolerates a
    number of instances without tasks. The listing, the agent-update mapping
    and the state updates are the ones of ecs/ecs.go and are shared. */
module AwsEcs {
  import opened Wrappers
  import opened GoText
  import opened Seqs
  import opened ArnPattern
  import opened Sdk
  import opened Ecs

  /** `aws.EcsInstance`. */
  datatype EcsInstance = EcsInstance(
    arn: string,
    name: string,
    ec2InstanceId: string,
    ami: string,
    status: string,
    agentVersion: string,
    dockerVersion: string,
    pendingTasksCount: int,
    runningTasksCount: int,
    registeredAt: string,
    remainingCpu: int,
    remainingMemory: int)

  const EmptyEcsInstance: EcsInstance := EcsInstance("", "", "", "", "", "", "", 0, 0, "", 0, 0)

  const CpuResource: string := "CPU"
  const MemoryResource: string := "MEMORY"
  const NoMatch: string := "No match"

  /** The fields the two packages' records share. */
  function Strip(e: EcsInstance): Instance {
    Instance(e.arn, e.name, e.ec2InstanceId, e.ami, e.status, e.agentVersion, e.dockerVersion,
             e.pendingTasksCount, e.runningTasksCount, e.registeredAt)
  }

  // ---------------------------------------------------------------------
  // GetEcsClusterInstancesInfo (aws/ecs.go:125-180)
  // ---------------------------------------------------------------------

  /** One pass of the conversion loop of aws/ecs.go:142-177 over the reused record. */
  function RefreshEcs(prev: EcsInstance, d: ContainerInstanceDesc): EcsInstance {
    var name := match DescName(d) case Some(n) => n case None => prev.name;
    prev.(name := name, arn := d.arn, ec2InstanceId := d.ec2InstanceId, status := d.status,
          runningTasksCount := d.runningTasksCount, pendingTasksCount := d.pendingTasksCount,
          agentVersion := d.agentVersion, dockerVersion := DockerVersionOf(d.dockerVersion),
          remainingCpu := LastValue(d.remainingResources, CpuResource, prev.remainingCpu),
          remainingMemory := LastValue(d.remainingResources, MemoryResource, prev.remainingMemory),
          ami := LastValue(d.attributes, AmiAttribute, prev.ami))
  }

  function ConvertedEcs(prev: EcsInstance, ds: seq<ContainerInstanceDesc>): (r: seq<EcsInstance>)
    ensures |r| == |ds|
    decreases |ds|
  {
    if ds == [] then []
    else var r := RefreshEcs(prev, ds[0]); [r] + ConvertedEcs(r, ds[1..])
  }

  /** The remaining resources of all descriptions, in order. */
  function AllResources(ds: seq<ContainerInstanceDesc>): seq<NamedValue<int>> {
    if ds == [] then [] else ds[0].remainingResources + AllResources(ds[1..])
  }

  /** Without the resource fields the two conversions agree, so every fact
      proved about ecs/ecs.go's records holds here as well. */
  lemma {:induction false} StripConverted(prev: EcsInstance, ds: seq<ContainerInstanceDesc>)
    ensures Map(ConvertedEcs(prev, ds), Strip) == Converted(Strip(prev), ds)
    decreases |ds|
  {
    if ds != [] {
      var r := RefreshEcs(prev, ds[0]);
      assert Strip(r) == Refresh(Strip(prev), ds[0]);
      StripConverted(r, ds[1..]);
      MapCons(r, ConvertedEcs(r, ds[1..]), Strip);
    }
  }

  lemma AllResourcesCons(d: ContainerInstanceDesc, ds: seq<ContainerInstanceDesc>)
    ensures AllResources([d] + ds) == d.remainingResources + AllResources(ds)
  {
    assert ([d] + ds)[1..] == ds;
  }

  /** Record `k > 0` is record `k - 1` of the conversion of the rest from the first record on. */
  lemma ConvertedEcsShift(prev: EcsInstance, ds: seq<ContainerInstanceDesc>, k: nat)
    requires 0 < k < |ds|
    ensures ConvertedEcs(prev, ds)[k] == ConvertedEcs(RefreshEcs(prev, ds[0]), ds[1..])[k - 1]
  {
  }

  /** Record `k` holds the last "CPU" and the last "MEMORY" value among the
      resources of descriptions `0..k`, or what `prev` held. */
  lemma {:induction false} ResourcesCarried(prev: EcsInstance, ds: seq<ContainerInstanceDesc>, k: nat)
    requires k < |ds|
    ensures ConvertedEcs(prev, ds)[k].remainingCpu == LastValue(AllResources(ds[..k + 1]), CpuResource, prev.remainingCpu)
    ensures ConvertedEcs(prev, ds)[k].remainingMemory == LastValue(AllResources(ds[..k + 1]), MemoryResource, prev.remainingMemory)
    decreases k
  {
    var r := RefreshEcs(prev, ds[0]);
    if k == 0 {
      assert ConvertedEcs(prev, ds)[0] == r;
      assert ds[..1] == [ds[0]] + [];
      AllResourcesCons(ds[0], []);
      assert ds[0].remainingResources + [] == ds[0].remainingResources;
    } else {
      ConvertedEcsShift(prev, ds, k);
      ResourcesCarried(r, ds[1..], k - 1);
      var rest := ds[1..][..k];
      PrefixCons(ds, k);
      AllResourcesCons(ds[0], rest);
      LastValueAppend(ds[0].remainingResources, AllResources(rest), CpuResource, prev.remainingCpu);
      LastValueAppend(ds[0].remainingResources, AllResources(rest), MemoryResource, prev.remainingMemory);
    }
  }

  /** The resource loop of aws/ecs.go:160-168 on the reused record. */
  method TakeResources(inst: EcsInstance, resources: seq<NamedValue<int>>) returns (r: EcsInstance)
    ensures r == inst.(remainingCpu := LastValue(resources, CpuResource, inst.remainingCpu),
                       remainingMemory := LastValue(resources, MemoryResource, inst.remainingMemory))
  {
    r := inst;
    for j := 0 to |resources|
      invariant r == inst.(remainingCpu := LastValue(resources[..j], CpuResource, inst.remainingCpu),
                           remainingMemory := LastValue(resources[..j], MemoryResource, inst.remainingMemory))
    {
      var res := resources[j];
      assert resources[..j + 1][..j] == resources[..j];
      if res.name == CpuResource {
        r := r.(remainingCpu := res.value);
      }
      if res.name == MemoryResource {
        r := r.(remainingMemory := res.value);
      }
    }
    assert resources[..|resources|] == resources;
  }

  /** The attribute loop of aws/ecs.go:170-174 on the reused record. */
  method TakeEcsAmi(inst: EcsInstance, attributes: seq<NamedValue<string>>) returns (r: EcsInstance)
    ensures r == inst.(ami := LastValue(attributes, AmiAttribute, inst.ami))
  {
    r := inst;
    for j := 0 to |attributes|
      invariant r == inst.(ami := LastValue(attributes[..j], AmiAttribute, inst.ami))
    {
      var att := attributes[j];
      assert attributes[..j + 1][..j] == attributes[..j];
      if att.name == AmiAttribute {
        r := r.(ami := att.value);
      }
    }
    assert attributes[..|attributes|] == attributes;
  }

  /** aws/ecs.go:125-180. */
  method GetEcsClusterInstancesInfo(reply: Reply<seq<ContainerInstanceDesc>>) returns (instancesInfo: seq<EcsInstance>, err: Option<CallError>)
    ensures reply.Failure? ==> instancesInfo == [] && err == Some(reply.error)
    ensures reply.Success? ==> instancesInfo == ConvertedEcs(EmptyEcsInstance, reply.value) && err == None
  {
    var instanceInfo := EmptyEcsInstance;
    instancesInfo := [];
    if reply.Failure? {
      return instancesInfo, Some(reply.error);
    }
    var cis := reply.value;
    for i := 0 to |cis|
      invariant instancesInfo + ConvertedEcs(instanceInfo, cis[i..]) == ConvertedEcs(EmptyEcsInstance, cis)
    {
      var ci := cis[i];
      ghost var target := RefreshEcs(instanceInfo, ci);
      assert ConvertedEcs(instanceInfo, cis[i..]) == [target] + ConvertedEcs(target, cis[i + 1..]) by {
        assert cis[i..][0] == ci && cis[i..][1..] == cis[i + 1..];
      }
      AppendAssoc(instancesInfo, [target], ConvertedEcs(target, cis[i + 1..]));
      var m := ContainerInstanceName(ci.arn);
      if m.Some? {
        instanceInfo := instanceInfo.(name := m.value);
      }
      instanceInfo := instanceInfo.(arn := ci.arn, ec2InstanceId := ci.ec2InstanceId, status := ci.status,
        runningTasksCount := ci.runningTasksCount, pendingTasksCount := ci.pendingTasksCount,
        agentVersion := ci.agentVersion, dockerVersion := RemoveAll(ci.dockerVersion, DockerVersionPrefix));
      instanceInfo := TakeResources(instanceInfo, ci.remainingResources);
      instanceInfo := TakeEcsAmi(instanceInfo, ci.attributes);
      assert instanceInfo == target;
      instancesInfo := instancesInfo + [instanceInfo];
    }
    return instancesInfo, None;
  }

  // ---------------------------------------------------------------------
  // IsEcsClusterReady (aws/ecs.go:223-262)
  // ---------------------------------------------------------------------

  /** How many records run no task. */
  function ZeroTaskCount(insts: seq<EcsInstance>): (n: nat)
    ensures n <= |insts|
    ensures n == 0 <==> forall i :: 0 <= i < |insts| ==> insts[i].runningTasksCount >= 1
    decreases |insts|
  {
    if insts == [] then 0
    else
      var last := insts[|insts| - 1];
      var n := ZeroTaskCount(insts[..|insts| - 1]);
      assert forall i :: 0 <= i < |insts| - 1 ==> insts[..|insts| - 1][i] == insts[i];
      n + (if last.runningTasksCount < 1 then 1 else 0)
  }

  /** Every record is ACTIVE. */
  predicate AllActive(insts: seq<EcsInstance>) {
    forall i :: 0 <= i < |insts| ==> insts[i].status == ActiveStatus
  }

  /** The verdict of aws/ecs.go:247-261 on the converted records. */
  predicate EcsReady(insts: seq<EcsInstance>, tolerance: int) {
    AllActive(insts) && ZeroTaskCount(insts) <= tolerance
  }

  /** aws/ecs.go:223-262, without the calls: the records are those described
      for the listed instances of the first listed cluster. The spec has no
      place for `mustHaveRunningTasks`, which the code never reads. */
  function EcsReadiness(tolerance: int, clusters: Reply<seq<ClusterDesc>>, arns: Reply<seq<string>>,
                        describe: (string, seq<string>) -> Reply<seq<ContainerInstanceDesc>>): Readiness {
    if clusters.Failure? then Exited(clusters.error)
    else if arns.Failure? then Exited(arns.error)
    else if |clusters.value| == 0 then IndexPanic
    else
      var info := describe(clusters.value[0].name, ListedNames(arns));
      if info.Failure? then Exited(info.error)
      else Ready(EcsReady(ConvertedEcs(EmptyEcsInstance, info.value), tolerance))
  }

  /** One more ACTIVE record extends the checked prefix and adds to the
      count exactly when it runs no task. */
  lemma CountSnoc(insts: seq<EcsInstance>, i: nat)
    requires i < |insts| && AllActive(insts[..i]) && insts[i].status == ActiveStatus
    ensures AllActive(insts[..i + 1])
    ensures ZeroTaskCount(insts[..i + 1])
            == ZeroTaskCount(insts[..i]) + (if insts[i].runningTasksCount < 1 then 1 else 0)
  {
    assert insts[..i + 1][..i] == insts[..i];
  }

  /** The counting loop of aws/ecs.go:247-261. */
  method CountReady(insts: seq<EcsInstance>, numberOfZeroTasksInstances: int) returns (ready: bool)
    ensures ready == EcsReady(insts, numberOfZeroTasksInstances)
  {
    var zeroTasksInstanceCnt := 0;
    for i := 0 to |insts|
      invariant AllActive(insts[..i])
      invariant zeroTasksInstanceCnt == ZeroTaskCount(insts[..i])
    {
      var inst := insts[i];
      if inst.status != ActiveStatus {
        assert !AllActive(insts) by {
          assert insts[i].status != ActiveStatus;
        }
        return false;
      }
      CountSnoc(insts, i);
      if inst.runningTasksCount < 1 {
        zeroTasksInstanceCnt := zeroTasksInstanceCnt + 1;
      }
    }
    assert insts[..|insts|] == insts;
    if zeroTasksInstanceCnt > numberOfZeroTasksInstances {
      return false;
    }
    return true;
  }

  /** aws/ecs.go:223-262. */
  method IsEcsClusterReady(mustHaveRunningTasks: bool, numberOfZeroTasksInstances: int,
                           clusters: Reply<seq<ClusterDesc>>, arns: Reply<seq<string>>,
                           describe: (string, seq<string>) -> Reply<seq<ContainerInstanceDesc>>) returns (r: Readiness)
    ensures r == EcsReadiness(numberOfZeroTasksInstances, clusters, arns, describe)
  {
    if clusters.Failure? {
      return Exited(clusters.error);
    }
    var instances, err := GetClusterInstances(arns);
    if err.Some? {
      return Exited(err.value);
    }
    if |clusters.value| == 0 {
      return IndexPanic;
    }
    var infos, err2 := GetEcsClusterInstancesInfo(describe(clusters.value[0].name, instances));
    if err2.Some? {
      return Exited(err2.value);
    }
    var ready := CountReady(infos, numberOfZeroTasksInstances);
    return Ready(ready);
  }

  /** Any record that is not ACTIVE makes the cluster unready, whatever the
      tolerance; with all ACTIVE, readiness is the tolerance bound. */
  lemma EcsReadyCases(insts: seq<EcsInstance>, tolerance: int)
    ensures (exists i :: 0 <= i < |insts| && insts[i].status != ActiveStatus) ==> !EcsReady(insts, tolerance)
    ensures AllActive(insts) ==> (EcsReady(insts, tolerance) <==> ZeroTaskCount(insts) <= tolerance)
  {
  }

  /** With no tolerance the check is ecs/ecs.go's check with running tasks
      required; with a tolerance of every instance it is the check without. */
  lemma {:induction false} ToleranceBounds(insts: seq<EcsInstance>)
    ensures EcsReady(insts, 0) == InstancesReady(Map(insts, Strip), true)
    ensures EcsReady(insts, |insts|) == InstancesReady(Map(insts, Strip), false)
  {
    var s := Map(insts, Strip);
    assert forall i :: 0 <= i < |insts| ==> s[i].status == insts[i].status && s[i].runningTasksCount == insts[i].runningTasksCount;
  }

  /** Raising the tolerance never turns a ready cluster unready. */
  lemma ToleranceMonotone(insts: seq<EcsInstance>, t1: int, t2: int)
    requires t1 <= t2 && EcsReady(insts, t1)
    ensures EcsReady(insts, t2)
  {
  }

  // ---------------------------------------------------------------------
  // Cluster lookups (aws/ecs.go:183-218)
  // ---------------------------------------------------------------------

  /** aws/ecs.go:207-218: the capture after `:cluster/`, or "No match". */
  function GetEcsClusterNameByArn(arn: string): (r: (string, Option<string>))
    ensures r.1.None? <==> ClusterName(arn).Some?
    ensures r.1.None? ==> r.0 == ClusterName(arn).value
    ensures r.1.Some? ==> r == ("", Some(NoMatch))
  {
    var m := ClusterName(arn);
    if m.Some? then (m.value, None) else ("", Some(NoMatch))
  }

  /** A name GetEcsClusterNameByArn returns is the name part of the ARN. */
  lemma NameByArnSound(arn: string) returns (region: string, account: string)
    requires GetEcsClusterNameByArn(arn).1.None?
    ensures Decomposes(arn, ClusterKind, region, account, GetEcsClusterNameByArn(arn).0)
  {
    region, account := CaptureSound(arn, ClusterKind);
  }

  /** A cluster ARN built from a name gives the name back. */
  lemma NameByArnRoundTrip(region: string, account: string, name: string)
    requires ':' !in name && '\n' !in name && '\n' !in region && '\n' !in account
    ensures GetEcsClusterNameByArn(Prefix + region + ":" + account + ":" + ClusterKind + name) == (name, None)
  {
    CaptureOfArn(region, account, ClusterKind, name);
  }

  /** A cluster as a name-to-ARN entry. */
  function ClusterEntry(c: ClusterDesc): NamedValue<string> {
    NamedValue(c.name, c.arn)
  }

  /** The ARN the lookup by name leaves: that of the last cluster with the name. */
  function ArnNamed(infos: seq<ClusterDesc>, name: string): string {
    LastValue(Map(infos, ClusterEntry), name, "")
  }

  /** The last cluster bearing the name wins; "" when none bears it. */
  lemma ArnNamedSpec(infos: seq<ClusterDesc>, name: string)
    ensures (exists k :: 0 <= k < |infos| && infos[k].name == name) ==>
              exists k :: 0 <= k < |infos| && infos[k].name == name && ArnNamed(infos, name) == infos[k].arn &&
                forall j :: k < j < |infos| ==> infos[j].name != name
    ensures (forall k :: 0 <= k < |infos| ==> infos[k].name != name) ==> ArnNamed(infos, name) == ""
  {
    var es := Map(infos, ClusterEntry);
    LastValueSpec(es, name, "");
    assert forall k :: 0 <= k < |infos| ==> es[k].name == infos[k].name && es[k].value == infos[k].arn;
  }

  /** aws/ecs.go:46-63: the listed cluster ARNs. */
  method GetEcsClusters(reply: Reply<seq<string>>) returns (clusters: seq<string>, err: Option<CallError>)
    ensures reply.Failure? ==> clusters == [] && err == Some(reply.error)
    ensures reply.Success? ==> clusters == reply.value && err == None
  {
    clusters := [];
    if reply.Failure? {
      return clusters, Some(reply.error);
    }
    for i := 0 to |reply.value|
      invariant clusters == reply.value[..i]
    {
      clusters := clusters + [reply.value[i]];
    }
    return clusters, None;
  }

  /** aws/ecs.go:183-204. `listing` is the reply of the cluster listing and
      `describe` answers the description of the listed ARNs. */
  method GetEcsClusterArnByName(name: string, listing: Reply<seq<string>>,
                                describe: seq<string> -> Reply<seq<ClusterDesc>>) returns (arn: string, err: Option<CallError>)
    ensures listing.Failure? ==> arn == "" && err == Some(listing.error)
    ensures listing.Success? && describe(listing.value).Failure? ==> arn == "" && err == Some(describe(listing.value).error)
    ensures listing.Success? && describe(listing.value).Success? ==> arn == ArnNamed(describe(listing.value).value, name) && err == None
  {
    arn := "";
    var clusters, e := GetEcsClusters(listing);
    if e.Some? {
      return "", e;
    }
    var info := describe(clusters);
    if info.Failure? {
      return "", Some(info.error);
    }
    var clustersInfo := info.value;
    ghost var entries := Map(clustersInfo, ClusterEntry);
    for i := 0 to |clustersInfo|
      invariant arn == LastValue(entries[..i], name, "")
    {
      var clust := clustersInfo[i];
      assert entries[..i + 1][..i] == entries[..i];
      if clust.name == name {
        arn := clust.arn;
      }
    }
    assert entries[..|clustersInfo|] == entries;
    return arn, None;
  }
}
