/** main.go: the per-cluster batch actions of the menu program and the text
    they format. The menu itself, the prompts and the timing are not part of
    this model; a `Session` holds what the menu has chosen (the cluster) and
    the global `instancesInfo` the actions reassign. */
module Manager {
  import opened Wrappers
  import opened GoText
  import opened Seqs
  import opened ArnPattern
  import opened Sdk
  import opened Ecs
  import opened Common
  import opened Cloud
  import opened Orchestration

  // ---------------------------------------------------------------------
  // File names and the export format (main.go:250, 260, 353)
  // ---------------------------------------------------------------------

  const ListSuffix: string := "-instances.list"
  const ExcludeSuffix: string := "-instances.exclude"

  /** `strings.Split(cluster, "/")[1]`, which panics unless `cluster` has a "/". */
  function ClusterSegment(cluster: string): string
    requires '/' in cluster
  {
    SplitHasSecond(cluster, '/');
    Split(cluster, '/')[1]
  }

  /** main.go:250. */
  function ExportFileName(cluster: string): string
    requires '/' in cluster
  {
    ClusterSegment(cluster) + ListSuffix
  }

  /** main.go:353. */
  function ExcludeFileName(cluster: string): string
    requires '/' in cluster
  {
    ClusterSegment(cluster) + ExcludeSuffix
  }

  /** `filepath.Join(dir, file)` for a clean directory and a plain file name. */
  function ConfigPath(dir: string, file: string): string {
    dir + "/" + file
  }

  /** For a cluster ARN, both files are named after the cluster name, and
      they differ only in their suffix. */
  lemma FileNamesOfClusterArn(region: string, account: string, name: string)
    requires '/' !in region && '/' !in account && '/' !in name
    ensures var arn := Prefix + region + ":" + account + ":" + ClusterKind + name;
              ExportFileName(arn) == name + ListSuffix && ExcludeFileName(arn) == name + ExcludeSuffix
  {
    var head := Prefix + region + ":" + account + ":cluster";
    var arn := Prefix + region + ":" + account + ":" + ClusterKind + name;
    assert '/' !in Prefix;
    assert '/' !in head;
    assert arn == head + "/" + name;
    assert Join([head, name], '/') == head + "/" + name;
    SplitJoin([head, name], '/');
  }

  /** The parenthesised part of an export line. */
  function ExportNote(inst: Instance): string {
    "EC2:" + inst.ec2InstanceId + ", AMI:" + inst.ami
  }

  /** main.go:260, without the newline. */
  function ExportLine(inst: Instance): string {
    inst.name + " (EC2:" + inst.ec2InstanceId + ", AMI:" + inst.ami + ")"
  }

  /** An export line is the name, a space and the note in parentheses. */
  lemma ExportLineNested(inst: Instance)
    ensures ExportLine(inst) == inst.name + (" " + ("(" + ExportNote(inst) + ")"))
  {
    var tail := " (EC2:" + inst.ec2InstanceId + ", AMI:" + inst.ami + ")";
    assert tail == " " + ("(" + ExportNote(inst) + ")");
    assert ExportLine(inst) == inst.name + tail;
  }

  /** The pieces of an export line hold no newline when the record's do not. */
  lemma ExportLineOneLine(inst: Instance)
    requires Exportable(inst)
    ensures '\n' !in ExportLine(inst) && DropCR(ExportLine(inst)) == ExportLine(inst)
  {
    assert '\n' !in inst.name by {
      assert forall i :: 0 <= i < |inst.name| ==> inst.name[i] != '\n';
    }
  }

  /** The file main.go:259-267 writes: one line per record, in order. */
  function ExportContent(insts: seq<Instance>): string {
    JoinLines(Map(insts, ExportLine))
  }

  /** A record safe to export: a non-empty name without whitespace, and no
      newline in the EC2 id or the AMI. */
  ghost predicate Exportable(inst: Instance) {
    |inst.name| > 0 && (forall i :: 0 <= i < |inst.name| ==> !IsSpace(inst.name[i]))
    && '\n' !in inst.ec2InstanceId && '\n' !in inst.ami
  }

  /** One export line parses back to its name. */
  lemma ExportLineParses(inst: Instance)
    requires Exportable(inst)
    ensures ExcludeLineName(ExportLine(inst)) == Some(inst.name)
    ensures '\n' !in ExportLine(inst) && DropCR(ExportLine(inst)) == ExportLine(inst)
  {
    var note := ExportNote(inst);
    ExportLineNested(inst);
    assert ExcludeLineShape(ExportLine(inst), inst.name, " ", note);
    ExcludeLineNameComplete(ExportLine(inst), inst.name, " ", note);
    ExportLineOneLine(inst);
  }

  /** An exported list, read back as a list of excluded instances, gives the
      exported names in order. */
  lemma ExportRoundTrip(insts: seq<Instance>)
    requires forall i :: 0 <= i < |insts| ==> Exportable(insts[i])
    ensures ExcludedNames(ScanLines(ExportContent(insts))) == Map(insts, InstanceName)
  {
    var lines := Map(insts, ExportLine);
    forall k | 0 <= k < |lines|
      ensures '\n' !in lines[k] && DropCR(lines[k]) == lines[k] && ExcludeLineName(lines[k]) == Some(insts[k].name)
    {
      ExportLineParses(insts[k]);
    }
    ScanJoinedLines(lines);
    FilterMapAllMatch(lines, ExcludeLineName);
  }

  // ---------------------------------------------------------------------
  // The instance searcher (main.go:178-184)
  // ---------------------------------------------------------------------

  /** Lower-cased, with every space removed. */
  function Normalized(s: string): string {
    RemoveAll(ToLower(s), " ")
  }

  /** main.go:178-184: whether the typed `input` selects record `index`. */
  function Searcher(instancesInfo: seq<Instance>, input: string, index: int): (r: bool)
    requires 0 <= index < |instancesInfo|
    ensures r <==> exists i :: OccursAt(Normalized(instancesInfo[index].name), Normalized(input), i)
  {
    var inst := instancesInfo[index];
    var name := RemoveAll(ToLower(inst.name), " ");
    var normalizedInput := RemoveAll(ToLower(input), " ");
    assert name == Normalized(inst.name) && normalizedInput == Normalized(input);
    Contains(name, normalizedInput)
  }

  lemma {:induction false} RemoveSpacesOfBlank(s: string)
    requires forall i :: 0 <= i < |s| ==> s[i] == ' '
    ensures RemoveAll(s, " ") == ""
    decreases |s|
  {
    if |s| >= 1 {
      assert s[..1] == " ";
      RemoveSpacesOfBlank(s[1..]);
    }
  }

  /** An input of spaces only selects every record. */
  lemma BlankInputMatchesAll(instancesInfo: seq<Instance>, input: string, index: int)
    requires 0 <= index < |instancesInfo|
    requires forall i :: 0 <= i < |input| ==> input[i] == ' '
    ensures Searcher(instancesInfo, input, index)
  {
    assert ToLower(input) == input;
    RemoveSpacesOfBlank(input);
    assert OccursAt(Normalized(instancesInfo[index].name), "", 0);
  }

  /** Every record is selected by its own name. */
  lemma NameMatchesItself(instancesInfo: seq<Instance>, index: int)
    requires 0 <= index < |instancesInfo|
    ensures Searcher(instancesInfo, instancesInfo[index].name, index)
  {
    assert OccursAt(Normalized(instancesInfo[index].name), Normalized(instancesInfo[index].name), 0);
  }

  /** Case and leading spaces of the input do not matter. */
  lemma SearchIgnoresCaseAndSpaces(instancesInfo: seq<Instance>, input: string, index: int)
    requires 0 <= index < |instancesInfo|
    ensures Searcher(instancesInfo, ToUpper(input), index) == Searcher(instancesInfo, input, index)
    ensures Searcher(instancesInfo, " " + input, index) == Searcher(instancesInfo, input, index)
  {
    assert ToLower(ToUpper(input)) == ToLower(input);
    assert ToLower(" " + input) == " " + ToLower(input);
    RemoveAllLeading(" ", ToLower(input));
  }

  // ---------------------------------------------------------------------
  // The batch actions (main.go:231-496)
  // ---------------------------------------------------------------------

  /** A file the export writes: its path and everything written to it. */
  datatype ExportFile = ExportFile(path: string, content: string)

  class Session {
    /** The cluster chosen in the clusters menu. */
    const cluster: string
    /** The configuration directory (`cfgDir`). */
    const cfgDir: string
    /** The global `instancesInfo`. */
    var instancesInfo: seq<Instance>

    constructor(cluster: string, cfgDir: string)
      ensures this.cluster == cluster && this.cfgDir == cfgDir && instancesInfo == []
    {
      this.cluster := cluster;
      this.cfgDir := cfgDir;
      instancesInfo := [];
    }

    /** main.go:398-422. */
    method WaitForNoTasks(gw: Gateway, name: string) returns (halt: Option<Halt>)
      modifies gw
      ensures var w := AwaitNoTasks(cluster, name, old(gw.script));
                gw.log == old(gw.log) + w.events && gw.script == w.rest && halt == w.halt
    {
      ghost var whole := AwaitNoTasks(cluster, name, gw.script);
      ghost var log0 := gw.log;
      while true
        invariant var w := AwaitNoTasks(cluster, name, gw.script);
                    log0 + whole.events == gw.log + w.events && w.rest == whole.rest && w.halt == whole.halt
        decreases |gw.script.taskListings|
        modifies gw
      {
        ghost var log1 := gw.log;
        ghost var s1 := gw.script;
        var reply := gw.ListTasks(cluster, name);
        if reply.None? {
          return Some(ScriptEnded);
        }
        var tasks, err := GetInstanceTasks(reply.value);
        assert tasks == ListedTasks(reply.value);
        var runningTasksCount := |tasks|;
        if runningTasksCount == 0 {
          AwaitNoTasksPoll(cluster, name, s1);
          return None;
        }
        gw.Sleep();
        AwaitNoTasksResume(cluster, name, s1, log1, gw.log, log0 + whole.events, whole);
      }
    }

    /** main.go:435-456 (`ShutDown`) and 459-480 (`Replaced`). */
    method WaitForCount(gw: Gateway, registeredInstancesCount: int, t: Threshold) returns (halt: Option<Halt>)
      modifies gw
      ensures var w := AwaitCount(cluster, registeredInstancesCount, t, old(gw.script));
                gw.log == old(gw.log) + w.events && gw.script == w.rest && halt == w.halt
    {
      ghost var whole := AwaitCount(cluster, registeredInstancesCount, t, gw.script);
      ghost var log0 := gw.log;
      while true
        invariant var w := AwaitCount(cluster, registeredInstancesCount, t, gw.script);
                    log0 + whole.events == gw.log + w.events && w.rest == whole.rest && w.halt == whole.halt
        decreases |gw.script.clusterCounts|
        modifies gw
      {
        ghost var log1 := gw.log;
        ghost var s1 := gw.script;
        var r := gw.GetClusterInfo(cluster);
        if r.None? {
          return Some(ScriptEnded);
        }
        var reached := match t
          case ShutDown => r.value == registeredInstancesCount - 1
          case Replaced => r.value >= registeredInstancesCount;
        if reached {
          return None;
        }
        gw.Sleep();
        AwaitCountResume(cluster, registeredInstancesCount, t, s1, log1, gw.log, log0 + whole.events, whole);
      }
    }

    /** main.go:385-396. */
    method Drain(gw: Gateway, name: string) returns (halt: Option<Halt>, inst: Instance)
      modifies gw
      ensures var d := DrainStep(cluster, name, old(gw.script));
                gw.log == old(gw.log) + d.run.events && gw.script == d.run.rest && halt == d.run.halt &&
                (halt.None? ==> inst == d.record)
    {
      inst := EmptyInstance;
      var updated := gw.UpdateContainerInstancesState(cluster, name, DrainingStatus);
      if updated.None? {
        return Some(ScriptEnded), inst;
      }
      var r := UpdateInstanceState(updated.value);
      if r.None? {
        return Some(Panicked), inst;
      }
      var described := gw.DescribeContainerInstances(cluster, [name]);
      if described.None? {
        return Some(ScriptEnded), inst;
      }
      var r1, err := GetClusterInstancesInfo(described.value);
      if |r1| == 0 {
        return Some(Panicked), inst;
      }
      return None, r1[0];
    }

    /** main.go:428. */
    method TerminateInstance(gw: Gateway, ec2InstanceId: string) returns (halt: Option<Halt>)
      modifies gw
      ensures var t := TerminateStep(ec2InstanceId, old(gw.script));
                gw.log == old(gw.log) + t.events && gw.script == t.rest && halt == t.halt
    {
      var reply := gw.TerminateInstances(ec2InstanceId);
      if reply.None? {
        return Some(ScriptEnded);
      }
      var r := TerminateContainerInstance(reply.value);
      if r.None? {
        return Some(Panicked);
      }
      return None;
    }

    /** main.go:435-480. */
    method WaitForReplacement(gw: Gateway, registeredInstancesCount: int) returns (halt: Option<Halt>)
      modifies gw
      ensures var w := AwaitReplacement(cluster, registeredInstancesCount, old(gw.script));
                gw.log == old(gw.log) + w.events && gw.script == w.rest && halt == w.halt
    {
      ghost var log0 := gw.log;
      ghost var down := AwaitCount(cluster, registeredInstancesCount, ShutDown, gw.script);
      halt := WaitForCount(gw, registeredInstancesCount, ShutDown);
      if halt.None? {
        ghost var log1 := gw.log;
        ghost var up := AwaitCount(cluster, registeredInstancesCount, Replaced, gw.script);
        halt := WaitForCount(gw, registeredInstancesCount, Replaced);
        Sequenced(down, up, log0, log1, gw.log);
      }
    }

    /** main.go:428-480. */
    method RetireInstance(gw: Gateway, registeredInstancesCount: int, ec2InstanceId: string) returns (halt: Option<Halt>)
      modifies gw
      ensures var r := Retire(cluster, registeredInstancesCount, ec2InstanceId, old(gw.script));
                gw.log == old(gw.log) + r.events && gw.script == r.rest && halt == r.halt
    {
      ghost var log0 := gw.log;
      ghost var term := TerminateStep(ec2InstanceId, gw.script);
      halt := TerminateInstance(gw, ec2InstanceId);
      if halt.None? {
        ghost var log1 := gw.log;
        ghost var wait := AwaitReplacement(cluster, registeredInstancesCount, gw.script);
        halt := WaitForReplacement(gw, registeredInstancesCount);
        Sequenced(term, wait, log0, log1, gw.log);
      }
    }

    /** main.go:398-480 for the re-fetched record. */
    method EvictInstance(gw: Gateway, registeredInstancesCount: int, refetched: Instance) returns (halt: Option<Halt>)
      modifies gw
      ensures var e := Evict(cluster, registeredInstancesCount, refetched, old(gw.script));
                gw.log == old(gw.log) + e.events && gw.script == e.rest && halt == e.halt
    {
      ghost var log0 := gw.log;
      ghost var tasks := AwaitNoTasks(cluster, refetched.name, gw.script);
      halt := WaitForNoTasks(gw, refetched.name);
      if halt.None? {
        ghost var log1 := gw.log;
        ghost var retire := Retire(cluster, registeredInstancesCount, refetched.ec2InstanceId, gw.script);
        halt := RetireInstance(gw, registeredInstancesCount, refetched.ec2InstanceId);
        Sequenced(tasks, retire, log0, log1, gw.log);
      }
    }

    /** The body of the loop of main.go:375-482 for one record. */
    method ProcessInstance(gw: Gateway, excludedInstances: seq<string>, registeredInstancesCount: int, inst: Instance)
      returns (halt: Option<Halt>)
      modifies gw
      ensures var v := Visit(cluster, excludedInstances, registeredInstancesCount, inst, old(gw.script));
                gw.log == old(gw.log) + v.events && gw.script == v.rest && halt == v.halt
    {
      var excluded := ElementInSlice(inst.name, excludedInstances);
      if excluded {
        gw.ReportExcluded(inst.name);
        return None;
      }
      ghost var log0 := gw.log;
      ghost var drained := DrainStep(cluster, inst.name, gw.script);
      var refetched: Instance;
      halt, refetched := Drain(gw, inst.name);
      if halt.None? {
        ghost var log1 := gw.log;
        ghost var evict := Evict(cluster, registeredInstancesCount, refetched, gw.script);
        halt := EvictInstance(gw, registeredInstancesCount, refetched);
        Sequenced(drained.run, evict, log0, log1, gw.log);
      }
    }

    /** The loop of main.go:375-482 over the records. */
    method RunBatch(gw: Gateway, excludedInstances: seq<string>, registeredInstancesCount: int, insts: seq<Instance>)
      returns (halt: Option<Halt>)
      modifies gw
      ensures var b := Batch(cluster, excludedInstances, registeredInstancesCount, insts, old(gw.script));
                gw.log == old(gw.log) + b.events && gw.script == b.rest && halt == b.halt
    {
      ghost var whole := Batch(cluster, excludedInstances, registeredInstancesCount, insts, gw.script);
      ghost var log0 := gw.log;
      for i := 0 to |insts|
        invariant var b := Batch(cluster, excludedInstances, registeredInstancesCount, insts[i..], gw.script);
                    log0 + whole.events == gw.log + b.events && b.rest == whole.rest && b.halt == whole.halt
        modifies gw
      {
        ghost var log1 := gw.log;
        ghost var s1 := gw.script;
        halt := ProcessInstance(gw, excludedInstances, registeredInstancesCount, insts[i]);
        if halt.Some? {
          BatchHalts(cluster, excludedInstances, registeredInstancesCount, insts, i, s1);
          return;
        }
        BatchAdvance(cluster, excludedInstances, registeredInstancesCount, insts, i, s1, gw.script, log1, gw.log, log0 + whole.events);
      }
      assert insts[|insts|..] == [];
      return None;
    }

    /** main.go:367-483. */
    method DrainListedInstances(gw: Gateway, excludedInstances: seq<string>, registeredInstancesCount: int,
                                instances: seq<string>) returns (halt: Option<Halt>)
      modifies this, gw
      ensures var d := DrainListed(cluster, excludedInstances, old(instancesInfo), registeredInstancesCount, instances, old(gw.script));
                gw.log == old(gw.log) + d.run.events && gw.script == d.run.rest && halt == d.run.halt &&
                instancesInfo == d.instancesInfo
    {
      if |instances| > 0 {
        var described := gw.DescribeContainerInstances(cluster, instances);
        if described.None? {
          return Some(ScriptEnded);
        }
        ghost var log1 := gw.log;
        ghost var s1 := gw.script;
        var infos, err := GetClusterInstancesInfo(described.value);
        instancesInfo := infos;
        halt := RunBatch(gw, excludedInstances, registeredInstancesCount, infos);
        DrainListedBatch(cluster, excludedInstances, old(instancesInfo), registeredInstancesCount, instances, old(gw.script),
                         s1, infos, old(gw.log), gw.log, gw.script, halt);
        return;
      }
      return None;
    }

    /** main.go:331-496, from the confirmation on. The exclude file's path is
        computed as the program computes it, which needs a `/` in the cluster
        ARN, but the file is never read here: `excludedInstances` stands for
        what `common.ReadFileLines` would return for it, and that function is
        not part of this model. */
    method DrainAndTerminateAll(gw: Gateway, excludedInstances: seq<string>) returns (halt: Option<Halt>)
      requires '/' in cluster
      modifies this, gw
      ensures var a := DrainAndTerminate(cluster, excludedInstances, old(instancesInfo), old(gw.script));
                gw.log == old(gw.log) + a.run.events && gw.script == a.run.rest && halt == a.run.halt &&
                instancesInfo == a.instancesInfo
    {
      ghost var s0, log0, info0 := gw.script, gw.log, instancesInfo;
      var listed := gw.ListContainerInstances(cluster);
      if listed.None? {
        return Some(ScriptEnded);
      }
      var instances, err := GetClusterInstances(listed.value);
      assert instances == ListedNames(s0.listings[0]);
      var excludeFilename := ConfigPath(cfgDir, ExcludeFileName(cluster));
      var r := gw.GetClusterInfo(cluster);
      if r.None? {
        return Some(ScriptEnded);
      }
      var registeredInstancesCount := r.value;
      ghost var s2 := gw.script;
      assert s2 == s0.(listings := s0.listings[1..], clusterCounts := s0.clusterCounts[1..]);
      assert gw.log == log0 + [ListInstances(cluster, s0.listings[0]), ClusterInfo(cluster, s0.clusterCounts[0])];
      halt := DrainListedInstances(gw, excludedInstances, registeredInstancesCount, instances);
      DrainAndTerminateListed(cluster, excludedInstances, info0, s0, s2, log0, gw.log, gw.script, halt, instancesInfo);
    }

    /** The listing and description opening main.go:231-247 and 286-300. */
    method Fetch(gw: Gateway) returns (halt: Option<Halt>, fetched: bool)
      modifies this, gw
      ensures var f := FetchInstances(cluster, old(instancesInfo), old(gw.script));
                gw.log == old(gw.log) + f.run.events && gw.script == f.run.rest && halt == f.run.halt &&
                instancesInfo == f.instancesInfo && fetched == Fetched(cluster, old(gw.script))
    {
      var listed := gw.ListContainerInstances(cluster);
      if listed.None? {
        return Some(ScriptEnded), false;
      }
      var instances, err := GetClusterInstances(listed.value);
      if |instances| == 0 {
        return None, false;
      }
      var described := gw.DescribeContainerInstances(cluster, instances);
      if described.None? {
        return Some(ScriptEnded), false;
      }
      var infos, err2 := GetClusterInstancesInfo(described.value);
      instancesInfo := infos;
      return None, true;
    }

    /** The loop of main.go:303-315 over `insts`. */
    method UpdateEach(gw: Gateway, insts: seq<Instance>) returns (halt: Option<Halt>)
      modifies gw
      ensures var l := AgentLoop(cluster, insts, old(gw.script));
                gw.log == old(gw.log) + l.events && gw.script == l.rest && halt == l.halt
    {
      ghost var log0 := gw.log;
      ghost var whole := AgentLoop(cluster, insts, gw.script);
      var n := |insts|;
      for i := 0 to n
        invariant var l := AgentLoop(cluster, insts[i..], gw.script);
                    log0 + whole.events == gw.log + l.events && l.rest == whole.rest && l.halt == whole.halt
      {
        var inst := insts[i];
        ghost var log1 := gw.log;
        ghost var s1 := gw.script;
        var reply := gw.UpdateContainerAgent(cluster, inst.name);
        if reply.None? {
          assert insts[i..] != [];
          return Some(ScriptEnded);
        }
        var r := UpdateContainerAgent(reply.value).text;
        if r == Pending && i < n - 1 {
          gw.Sleep();
        }
        AgentLoopResume(cluster, insts, i, s1, log1, gw.log, log0 + whole.events, whole);
      }
      assert insts[n..] == [];
      return None;
    }

    /** main.go:286-328. */
    method UpdateAllAgents(gw: Gateway) returns (halt: Option<Halt>)
      modifies this, gw
      ensures var a := UpdateAgents(cluster, old(instancesInfo), old(gw.script));
                gw.log == old(gw.log) + a.run.events && gw.script == a.run.rest && halt == a.run.halt &&
                instancesInfo == a.instancesInfo
    {
      ghost var log0 := gw.log;
      ghost var f := FetchInstances(cluster, instancesInfo, gw.script);
      var fetched;
      halt, fetched := Fetch(gw);
      if fetched {
        ghost var log1 := gw.log;
        ghost var loop := AgentLoop(cluster, instancesInfo, gw.script);
        halt := UpdateEach(gw, instancesInfo);
        Sequenced(f.run, loop, log0, log1, gw.log);
      }
    }

    /** The lines main.go:259-267 write, one per record. */
    static method FormatExport(insts: seq<Instance>) returns (content: string)
      ensures content == ExportContent(insts)
    {
      content := "";
      for i := 0 to |insts|
        invariant content == JoinLines(Map(insts[..i], ExportLine))
      {
        var inst := insts[i];
        var line := inst.name + " (EC2:" + inst.ec2InstanceId + ", AMI:" + inst.ami + ")\n";
        assert line == ExportLine(inst) + "\n";
        MapPrefix(insts, i, ExportLine);
        JoinLinesSnoc(Map(insts[..i], ExportLine), ExportLine(inst));
        content := content + line;
      }
      assert insts[..|insts|] == insts;
    }

    /** main.go:231-283: the file written, if instances were listed. */
    method ExportInstancesList(gw: Gateway) returns (halt: Option<Halt>, written: Option<ExportFile>)
      requires '/' in cluster
      modifies this, gw
      ensures var f := FetchInstances(cluster, old(instancesInfo), old(gw.script));
                gw.log == old(gw.log) + f.run.events && gw.script == f.run.rest && halt == f.run.halt &&
                instancesInfo == f.instancesInfo
      ensures written.Some? <==> Fetched(cluster, old(gw.script))
      ensures written.Some? ==>
                written.value == ExportFile(ConfigPath(cfgDir, ExportFileName(cluster)), ExportContent(instancesInfo))
    {
      var fetched;
      halt, fetched := Fetch(gw);
      if !fetched {
        return halt, None;
      }
      var filename := ConfigPath(cfgDir, ExportFileName(cluster));
      var content := FormatExport(instancesInfo);
      return halt, Some(ExportFile(filename, content));
    }
  }
}
