/** The batches of main.go as functions of the scripted replies: which calls
    they make, in which order, and where they stop. The methods of
    `Manager.Session` are proved to log exactly these events. */
module Orchestration {
  import opened Wrappers
  import opened Seqs
  import opened Sdk
  import opened Cloud
  import opened Ecs

  /** Why a run stopped early: the script had no reply left for the next
      call, or the program indexed an empty reply and panicked. */
  datatype Halt = ScriptEnded | Panicked

  /** The events of a stretch of a run, the script left after it, and how it ended. */
  datatype Run = Run(events: seq<Event>, rest: Script, halt: Option<Halt>)

  /** `a`, then `b` on what `a` left. */
  function Then(a: Run, b: Run): Run {
    Run(a.events + b.events, b.rest, b.halt)
  }

  /** `a`, then `b` unless `a` halted. */
  function AndThen(a: Run, b: Run): Run {
    if a.halt.Some? then a else Then(a, b)
  }

  /** Logging `a` and then `b` logs `Then(a, b)`. */
  lemma Sequenced(a: Run, b: Run, log0: seq<Event>, log1: seq<Event>, log2: seq<Event>)
    requires log1 == log0 + a.events && log2 == log1 + b.events
    ensures log2 == log0 + Then(a, b).events
  {
    AppendAssoc(log0, a.events, b.events);
  }

  // The task-count poll of main.go:398-422.

  /** Polls the running tasks of `name` until a poll lists none, pausing
      between polls. A failed listing counts as no tasks. */
  function AwaitNoTasks(cluster: string, name: string, s: Script): Run
    decreases |s.taskListings|
  {
    if s.taskListings == [] then Run([], s, Some(ScriptEnded))
    else
      var reply := s.taskListings[0];
      var s1 := s.(taskListings := s.taskListings[1..]);
      var poll := Event.ListTasks(cluster, name, reply);
      if |ListedTasks(reply)| == 0 then Run([poll], s1, None)
      else Then(Run([poll, Pause], s1, None), AwaitNoTasks(cluster, name, s1))
  }

  /** One poll of AwaitNoTasks: what it logs and whether it polls again. */
  lemma AwaitNoTasksPoll(cluster: string, name: string, s: Script)
    requires s.taskListings != []
    ensures var reply := s.taskListings[0];
            var s1 := s.(taskListings := s.taskListings[1..]);
            var w := AwaitNoTasks(cluster, name, s);
            if |ListedTasks(reply)| == 0 then w == Run([Event.ListTasks(cluster, name, reply)], s1, None)
            else w.events == [Event.ListTasks(cluster, name, reply), Pause] + AwaitNoTasks(cluster, name, s1).events &&
                 w.rest == AwaitNoTasks(cluster, name, s1).rest && w.halt == AwaitNoTasks(cluster, name, s1).halt
  {
  }

  /** After a poll that listed tasks and the pause, what is left of the wait
      is the wait on the rest of the script. */
  lemma AwaitNoTasksResume(cluster: string, name: string, s: Script, log: seq<Event>, log': seq<Event>,
                           target: seq<Event>, whole: Run)
    requires s.taskListings != [] && |ListedTasks(s.taskListings[0])| != 0
    requires log' == log + [Event.ListTasks(cluster, name, s.taskListings[0]), Pause]
    requires var w := AwaitNoTasks(cluster, name, s);
             target == log + w.events && w.rest == whole.rest && w.halt == whole.halt
    ensures var w := AwaitNoTasks(cluster, name, s.(taskListings := s.taskListings[1..]));
            target == log' + w.events && w.rest == whole.rest && w.halt == whole.halt
  {
    AwaitNoTasksPoll(cluster, name, s);
    var reply := s.taskListings[0];
    AppendAssoc(log, [Event.ListTasks(cluster, name, reply), Pause],
                AwaitNoTasks(cluster, name, s.(taskListings := s.taskListings[1..])).events);
  }

  // The registered-count polls of main.go:435-456 and 459-480.

  /** The two count waits: until the count is one below the start
      (main.go:449), then until it is back to at least the start (main.go:473). */
  datatype Threshold = ShutDown | Replaced

  predicate Reached(t: Threshold, start: int, count: int) {
    match t
    case ShutDown => count == start - 1
    case Replaced => count >= start
  }

  function AwaitCount(cluster: string, start: int, t: Threshold, s: Script): Run
    decreases |s.clusterCounts|
  {
    if s.clusterCounts == [] then Run([], s, Some(ScriptEnded))
    else
      var count := s.clusterCounts[0];
      var s1 := s.(clusterCounts := s.clusterCounts[1..]);
      if Reached(t, start, count) then Run([ClusterInfo(cluster, count)], s1, None)
      else Then(Run([ClusterInfo(cluster, count), Pause], s1, None), AwaitCount(cluster, start, t, s1))
  }

  /** After a count short of the threshold and the pause, what is left of
      the wait is the wait on the rest of the script. */
  lemma AwaitCountResume(cluster: string, start: int, t: Threshold, s: Script, log: seq<Event>, log': seq<Event>,
                         target: seq<Event>, whole: Run)
    requires s.clusterCounts != [] && !Reached(t, start, s.clusterCounts[0])
    requires log' == log + [ClusterInfo(cluster, s.clusterCounts[0]), Pause]
    requires var w := AwaitCount(cluster, start, t, s);
             target == log + w.events && w.rest == whole.rest && w.halt == whole.halt
    ensures var w := AwaitCount(cluster, start, t, s.(clusterCounts := s.clusterCounts[1..]));
            target == log' + w.events && w.rest == whole.rest && w.halt == whole.halt
  {
    AppendAssoc(log, [ClusterInfo(cluster, s.clusterCounts[0]), Pause],
                AwaitCount(cluster, start, t, s.(clusterCounts := s.clusterCounts[1..])).events);
  }

  // One instance of the drain-and-terminate batch (main.go:375-482).

  /** A run together with the re-fetched record, which is meaningful only
      when the run did not halt. */
  datatype Drained = Drained(run: Run, record: Instance)

  /** main.go:385-396: drain, then re-fetch the record. The drain outcome is
      only printed; an empty re-fetch panics at `r1[0]`. */
  function DrainStep(cluster: string, name: string, s: Script): Drained {
    if s.stateUpdates == [] then Drained(Run([], s, Some(ScriptEnded)), EmptyInstance)
    else
      var updated := s.stateUpdates[0];
      var s1 := s.(stateUpdates := s.stateUpdates[1..]);
      var drain := SetState(cluster, name, DrainingStatus, updated);
      if UpdateInstanceState(updated).None? then Drained(Run([drain], s1, Some(Panicked)), EmptyInstance)
      else if s1.descriptions == [] then Drained(Run([drain], s1, Some(ScriptEnded)), EmptyInstance)
      else
        var described := s1.descriptions[0];
        var s2 := s1.(descriptions := s1.descriptions[1..]);
        var refetch := DescribeInstances(cluster, [name], described);
        var r1 := Described(described);
        if r1 == [] then Drained(Run([drain, refetch], s2, Some(Panicked)), EmptyInstance)
        else Drained(Run([drain, refetch], s2, None), r1[0])
  }

  /** main.go:428: terminate by EC2 id; the outcome is only printed, and an
      empty list of terminating instances panics. */
  function TerminateStep(ec2InstanceId: string, s: Script): Run {
    if s.terminations == [] then Run([], s, Some(ScriptEnded))
    else
      var reply := s.terminations[0];
      var s1 := s.(terminations := s.terminations[1..]);
      var ev := Terminate(ec2InstanceId, reply);
      if TerminateContainerInstance(reply).None? then Run([ev], s1, Some(Panicked))
      else Run([ev], s1, None)
  }

  /** main.go:459-480 after 435-456: the count drops to one below the
      start, then comes back to at least the start. */
  function AwaitReplacement(cluster: string, start: int, s: Script): Run {
    var down := AwaitCount(cluster, start, ShutDown, s);
    AndThen(down, AwaitCount(cluster, start, Replaced, down.rest))
  }

  /** main.go:428-480: terminate, then wait for the replacement. */
  function Retire(cluster: string, start: int, ec2InstanceId: string, s: Script): Run {
    var term := TerminateStep(ec2InstanceId, s);
    AndThen(term, AwaitReplacement(cluster, start, term.rest))
  }

  /** main.go:398-480 for the re-fetched record: wait for its tasks to
      stop, then retire it. */
  function Evict(cluster: string, start: int, rec: Instance, s: Script): Run {
    var tasks := AwaitNoTasks(cluster, rec.name, s);
    AndThen(tasks, Retire(cluster, start, rec.ec2InstanceId, tasks.rest))
  }

  /** A failed task listing ends the wait at once, because the failed call
      yields no task ids (ecs/ecs.go:263-265): the next call terminates the
      EC2 instance (main.go:403-428). */
  lemma FailedPollTerminates(cluster: string, start: int, rec: Instance, s: Script, e: CallError)
    requires s.taskListings != [] && s.taskListings[0] == Failure(e) && s.terminations != []
    ensures var ev := Evict(cluster, start, rec, s).events;
            |ev| >= 2 && ev[0] == Event.ListTasks(cluster, rec.name, Failure(e)) &&
            ev[1] == Terminate(rec.ec2InstanceId, s.terminations[0])
  {
    AwaitNoTasksPoll(cluster, rec.name, s);
  }

  /** One pass of the loop body of main.go:375-482. */
  function Visit(cluster: string, excluded: seq<string>, start: int, inst: Instance, s: Script): Run {
    if inst.name in excluded then Run([ReportedExcluded(inst.name)], s, None)
    else
      var d := DrainStep(cluster, inst.name, s);
      AndThen(d.run, Evict(cluster, start, d.record, d.run.rest))
  }

  /** The loop of main.go:375-482 over `insts`, stopping at the first halt. */
  function Batch(cluster: string, excluded: seq<string>, start: int, insts: seq<Instance>, s: Script): Run
    decreases |insts|
  {
    if insts == [] then Run([], s, None)
    else
      var v := Visit(cluster, excluded, start, insts[0], s);
      AndThen(v, Batch(cluster, excluded, start, insts[1..], v.rest))
  }

  /** After a visit that did not halt, what is left of a batch is the batch
      over the remaining records. */
  lemma BatchAdvance(cluster: string, excluded: seq<string>, start: int, insts: seq<Instance>, i: nat,
                     s: Script, s': Script, before: seq<Event>, after: seq<Event>, target: seq<Event>)
    requires i < |insts|
    requires var v := Visit(cluster, excluded, start, insts[i], s);
             v.halt.None? && after == before + v.events && s' == v.rest
    requires target == before + Batch(cluster, excluded, start, insts[i..], s).events
    ensures target == after + Batch(cluster, excluded, start, insts[i + 1..], s').events
    ensures Batch(cluster, excluded, start, insts[i + 1..], s').rest == Batch(cluster, excluded, start, insts[i..], s).rest
    ensures Batch(cluster, excluded, start, insts[i + 1..], s').halt == Batch(cluster, excluded, start, insts[i..], s).halt
  {
    BatchUnfold(cluster, excluded, start, insts, i, s);
    ResumeAfter(Visit(cluster, excluded, start, insts[i], s), Batch(cluster, excluded, start, insts[i + 1..], s'),
                before, after, target);
  }

  lemma BatchUnfold(cluster: string, excluded: seq<string>, start: int, insts: seq<Instance>, i: nat, s: Script)
    requires i < |insts|
    ensures var v := Visit(cluster, excluded, start, insts[i], s);
            Batch(cluster, excluded, start, insts[i..], s) == AndThen(v, Batch(cluster, excluded, start, insts[i + 1..], v.rest))
  {
    assert insts[i..][0] == insts[i] && insts[i..][1..] == insts[i + 1..];
  }

  /** Logging `a` and then `b` is logging `a`, then `b`. */
  lemma ResumeAfter(a: Run, b: Run, before: seq<Event>, after: seq<Event>, target: seq<Event>)
    requires a.halt.None? && after == before + a.events
    requires target == before + AndThen(a, b).events
    ensures target == after + b.events
  {
    AppendAssoc(before, a.events, b.events);
  }

  /** A visit that halted ends the batch. */
  lemma BatchHalts(cluster: string, excluded: seq<string>, start: int, insts: seq<Instance>, i: nat, s: Script)
    requires i < |insts|
    requires Visit(cluster, excluded, start, insts[i], s).halt.Some?
    ensures Batch(cluster, excluded, start, insts[i..], s) == Visit(cluster, excluded, start, insts[i], s)
  {
    assert insts[i..][0] == insts[i];
  }

  /** A run of a whole menu action, with the value it leaves in the global
      `instancesInfo`. */
  datatype Action = Action(run: Run, instancesInfo: seq<Instance>)

  /** main.go:367-483: if any instance is listed, describe them all and run
      the batch over the records, which become the new `instancesInfo`. A
      failed description only prints an error. */
  function DrainListed(cluster: string, excluded: seq<string>, info: seq<Instance>, start: int,
                       instances: seq<string>, s: Script): Action
  {
    if |instances| == 0 then Action(Run([], s, None), info)
    else if s.descriptions == [] then Action(Run([], s, Some(ScriptEnded)), info)
    else
      var described := s.descriptions[0];
      var s1 := s.(descriptions := s.descriptions[1..]);
      var insts := Described(described);
      Action(Then(Run([DescribeInstances(cluster, instances, described)], s1, None), Batch(cluster, excluded, start, insts, s1)), insts)
  }

  /** main.go:343-496: list the instances and read the start count once;
      a failed listing only prints an error. */
  function DrainAndTerminate(cluster: string, excluded: seq<string>, info: seq<Instance>, s: Script): Action {
    if s.listings == [] then Action(Run([], s, Some(ScriptEnded)), info)
    else
      var listed := s.listings[0];
      var s1 := s.(listings := s.listings[1..]);
      var list := ListInstances(cluster, listed);
      if s1.clusterCounts == [] then Action(Run([list], s1, Some(ScriptEnded)), info)
      else
        var start := s1.clusterCounts[0];
        var s2 := s1.(clusterCounts := s1.clusterCounts[1..]);
        var d := DrainListed(cluster, excluded, info, start, ListedNames(listed), s2);
        Action(Then(Run([list, ClusterInfo(cluster, start)], s2, None), d.run), d.instancesInfo)
  }

  /** DrainListed when it reaches the batch: the description, then the
      batch over the described records. */
  lemma DrainListedBatch(cluster: string, excluded: seq<string>, info: seq<Instance>, start: int,
                         instances: seq<string>, s: Script, s1: Script, insts: seq<Instance>,
                         before: seq<Event>, after: seq<Event>, rest: Script, halt: Option<Halt>)
    requires |instances| > 0 && s.descriptions != []
    requires s1 == s.(descriptions := s.descriptions[1..]) && insts == Described(s.descriptions[0])
    requires var b := Batch(cluster, excluded, start, insts, s1);
             after == before + [DescribeInstances(cluster, instances, s.descriptions[0])] + b.events &&
             rest == b.rest && halt == b.halt
    ensures var d := DrainListed(cluster, excluded, info, start, instances, s);
            after == before + d.run.events && rest == d.run.rest && halt == d.run.halt && insts == d.instancesInfo
  {
    AppendAssoc(before, [DescribeInstances(cluster, instances, s.descriptions[0])],
                Batch(cluster, excluded, start, insts, s1).events);
  }

  /** DrainAndTerminate once the listing and the count are read. */
  lemma DrainAndTerminateListed(cluster: string, excluded: seq<string>, info: seq<Instance>, s: Script, s2: Script,
                                before: seq<Event>, after: seq<Event>, rest: Script, halt: Option<Halt>, info': seq<Instance>)
    requires s.listings != [] && s.clusterCounts != []
    requires s2 == s.(listings := s.listings[1..], clusterCounts := s.clusterCounts[1..])
    requires var d := DrainListed(cluster, excluded, info, s.clusterCounts[0], ListedNames(s.listings[0]), s2);
             after == before + [ListInstances(cluster, s.listings[0]), ClusterInfo(cluster, s.clusterCounts[0])] + d.run.events &&
             rest == d.run.rest && halt == d.run.halt && info' == d.instancesInfo
    ensures var a := DrainAndTerminate(cluster, excluded, info, s);
            after == before + a.run.events && rest == a.run.rest && halt == a.run.halt && info' == a.instancesInfo
  {
    assert s.(listings := s.listings[1..]).clusterCounts == s.clusterCounts;
    var d := DrainListed(cluster, excluded, info, s.clusterCounts[0], ListedNames(s.listings[0]), s2);
    AppendAssoc(before, [ListInstances(cluster, s.listings[0]), ClusterInfo(cluster, s.clusterCounts[0])], d.run.events);
  }

  /** The listing and description that open the export and the agent
      update (main.go:236-247, 290-300). */
  function FetchInstances(cluster: string, info: seq<Instance>, s: Script): Action {
    if s.listings == [] then Action(Run([], s, Some(ScriptEnded)), info)
    else
      var listed := s.listings[0];
      var s1 := s.(listings := s.listings[1..]);
      var instances := ListedNames(listed);
      var list := ListInstances(cluster, listed);
      if |instances| == 0 then Action(Run([list], s1, None), info)
      else if s1.descriptions == [] then Action(Run([list], s1, Some(ScriptEnded)), info)
      else
        var described := s1.descriptions[0];
        var s2 := s1.(descriptions := s1.descriptions[1..]);
        Action(Run([list, DescribeInstances(cluster, instances, described)], s2, None), Described(described))
  }

  /** Whether FetchInstances went on to describe instances. */
  predicate Fetched(cluster: string, s: Script) {
    s.listings != [] && |ListedNames(s.listings[0])| > 0 && s.descriptions != []
  }

  const Pending: string := "PENDING"

  /** The loop of main.go:303-315 over the records still to update: one agent
      update per record, then a pause if it is pending and not the last. */
  function AgentLoop(cluster: string, insts: seq<Instance>, s: Script): Run
    decreases |insts|
  {
    if insts == [] then Run([], s, None)
    else if s.agentUpdates == [] then Run([], s, Some(ScriptEnded))
    else
      var reply := s.agentUpdates[0];
      var s1 := s.(agentUpdates := s.agentUpdates[1..]);
      var r := UpdateContainerAgent(reply).text;
      var pause := if r == Pending && |insts| > 1 then [Pause] else [];
      Then(Run([UpdateAgent(cluster, insts[0].name, reply)] + pause, s1, None), AgentLoop(cluster, insts[1..], s1))
  }

  /** After the update of record `i` (and its pause, if any), what is left
      of the loop is the loop over the records after `i`. */
  lemma AgentLoopResume(cluster: string, insts: seq<Instance>, i: nat, s: Script,
                        log: seq<Event>, log': seq<Event>, target: seq<Event>, whole: Run)
    requires i < |insts| && s.agentUpdates != []
    requires var update := UpdateAgent(cluster, insts[i].name, s.agentUpdates[0]);
             if UpdateContainerAgent(s.agentUpdates[0]).text == Pending && i < |insts| - 1
             then log' == log + [update, Pause]
             else log' == log + [update]
    requires var l := AgentLoop(cluster, insts[i..], s);
             target == log + l.events && l.rest == whole.rest && l.halt == whole.halt
    ensures var l := AgentLoop(cluster, insts[i + 1..], s.(agentUpdates := s.agentUpdates[1..]));
            target == log' + l.events && l.rest == whole.rest && l.halt == whole.halt
  {
    assert insts[i..][0] == insts[i] && insts[i..][1..] == insts[i + 1..];
    var update := UpdateAgent(cluster, insts[i].name, s.agentUpdates[0]);
    var pause := if UpdateContainerAgent(s.agentUpdates[0]).text == Pending && i < |insts| - 1 then [Pause] else [];
    assert log' == log + ([update] + pause);
    AppendAssoc(log, [update] + pause,
                AgentLoop(cluster, insts[i + 1..], s.(agentUpdates := s.agentUpdates[1..])).events);
  }

  /** main.go:286-328. */
  function UpdateAgents(cluster: string, info: seq<Instance>, s: Script): Action {
    var f := FetchInstances(cluster, info, s);
    if !Fetched(cluster, s) then f
    else Action(Then(f.run, AgentLoop(cluster, f.instancesInfo, f.run.rest)), f.instancesInfo)
  }
}
