/** The order of calls the drain-and-terminate batch of main.go:375-482 and
    the agent update of main.go:303-315 promise, written as acceptors over
    the event log independently of how `Orchestration` produces the log, and
    the theorems that every log those batches produce is accepted. */
module Protocol {
  import opened Wrappers
  import opened Seqs
  import opened Sdk
  import opened Cloud
  import opened Ecs
  import opened Orchestration

  // ---------------------------------------------------------------------
  // The drain-and-terminate protocol
  // ---------------------------------------------------------------------

  /** What a batch is run with: the cluster, the exclusion list and the
      registered-instance count read once before the loop. */
  datatype Setting = Setting(cluster: string, excluded: seq<string>, start: int)

  /** Where the batch is. `todo` holds the names of the records still to
      visit, in list order. */
  datatype Phase =
    | Idle(todo: seq<string>)
    | Draining(name: string, todo: seq<string>)
    | Polling(name: string, ec2InstanceId: string, todo: seq<string>)
    | PollNap(name: string, ec2InstanceId: string, todo: seq<string>)
    | Terminable(ec2InstanceId: string, todo: seq<string>)
    | ShuttingDown(todo: seq<string>)
    | ShutdownNap(todo: seq<string>)
    | Replacing(todo: seq<string>)
    | ReplaceNap(todo: seq<string>)
    | Crashed

  /** The allowed moves. Between instances only the next record may be
      touched: reported if excluded, otherwise set to DRAINING. Then that
      instance alone is re-fetched, its re-fetched name is polled for tasks
      until a poll lists none, the re-fetched EC2 id is terminated, and the
      count is awaited until it is exactly one below the start and then at
      least the start again. A drain or terminate that fails goes on. */
  function Step(g: Setting, p: Phase, e: Event): Option<Phase> {
    match (p, e)
    case (Idle(todo), ReportedExcluded(n)) =>
      if todo != [] && n == todo[0] && n in g.excluded then Some(Idle(todo[1..])) else None
    case (Idle(todo), SetState(c, n, status, _)) =>
      if todo != [] && n == todo[0] && n !in g.excluded && c == g.cluster && status == DrainingStatus
      then Some(Draining(n, todo[1..])) else None
    case (Draining(n, todo), DescribeInstances(c, names, d)) =>
      if c == g.cluster && names == [n] then
        var r1 := Described(d);
        if r1 == [] then Some(Crashed) else Some(Polling(r1[0].name, r1[0].ec2InstanceId, todo))
      else None
    case (Polling(n, ec2, todo), ListTasks(c, m, t)) =>
      if c == g.cluster && m == n then
        if |ListedTasks(t)| == 0 then Some(Terminable(ec2, todo)) else Some(PollNap(n, ec2, todo))
      else None
    case (PollNap(n, ec2, todo), Pause) => Some(Polling(n, ec2, todo))
    case (Terminable(ec2, todo), Terminate(id, t)) =>
      if id == ec2 then (if TerminateContainerInstance(t).None? then Some(Crashed) else Some(ShuttingDown(todo)))
      else None
    case (ShuttingDown(todo), ClusterInfo(c, k)) =>
      if c == g.cluster then (if k == g.start - 1 then Some(Replacing(todo)) else Some(ShutdownNap(todo))) else None
    case (ShutdownNap(todo), Pause) => Some(ShuttingDown(todo))
    case (Replacing(todo), ClusterInfo(c, k)) =>
      if c == g.cluster then (if k >= g.start then Some(Idle(todo)) else Some(ReplaceNap(todo))) else None
    case (ReplaceNap(todo), Pause) => Some(Replacing(todo))
    case _ => None
  }

  /** The phase after `events`, or None if some event is not allowed. */
  function Walk(g: Setting, p: Phase, events: seq<Event>): Option<Phase>
    decreases |events|
  {
    if events == [] then Some(p)
    else
      match Step(g, p, events[0])
      case None => None
      case Some(q) => Walk(g, q, events[1..])
  }

  lemma {:induction false} WalkAppend(g: Setting, p: Phase, a: seq<Event>, b: seq<Event>)
    ensures Walk(g, p, a + b) == if Walk(g, p, a).None? then None else Walk(g, Walk(g, p, a).value, b)
    decreases |a|
  {
    if a == [] {
      assert a + b == b;
    } else {
      assert (a + b)[0] == a[0] && (a + b)[1..] == a[1..] + b;
      match Step(g, p, a[0])
      case None =>
      case Some(q) => WalkAppend(g, q, a[1..], b);
    }
  }

  /** `AndThen` as the acceptor sees it. */
  lemma WalkAndThen(g: Setting, p: Phase, a: Run, b: Run, q: Phase)
    requires Walk(g, p, a.events) == Some(q)
    ensures a.halt.None? ==> Walk(g, p, AndThen(a, b).events) == Walk(g, q, b.events)
    ensures a.halt.Some? ==> Walk(g, p, AndThen(a, b).events) == Some(q)
  {
    WalkAppend(g, p, a.events, b.events);
  }

  /** A poll that lists tasks, then the pause, returns to polling. */
  lemma PollNapWalk(g: Setting, name: string, ec2: string, todo: seq<string>, reply: Reply<seq<string>>)
    requires |ListedTasks(reply)| != 0
    ensures Walk(g, Polling(name, ec2, todo), [Event.ListTasks(g.cluster, name, reply), Pause]) == Some(Polling(name, ec2, todo))
  {
    var poll := Event.ListTasks(g.cluster, name, reply);
    assert Step(g, Polling(name, ec2, todo), poll) == Some(PollNap(name, ec2, todo));
    assert Walk(g, PollNap(name, ec2, todo), [Pause]) == Some(Polling(name, ec2, todo));
    assert [poll, Pause][1..] == [Pause];
  }

  /** The task poll ends ready to terminate the EC2 id it was given. */
  lemma {:induction false} AwaitNoTasksWalk(g: Setting, name: string, ec2: string, todo: seq<string>, s: Script)
    ensures var w := AwaitNoTasks(g.cluster, name, s);
            Walk(g, Polling(name, ec2, todo), w.events) ==
              if w.halt.None? then Some(Terminable(ec2, todo)) else Some(Polling(name, ec2, todo))
    decreases |s.taskListings|
  {
    if s.taskListings != [] {
      var reply := s.taskListings[0];
      var s1 := s.(taskListings := s.taskListings[1..]);
      AwaitNoTasksPoll(g.cluster, name, s);
      if |ListedTasks(reply)| != 0 {
        AwaitNoTasksWalk(g, name, ec2, todo, s1);
        PollNapWalk(g, name, ec2, todo, reply);
        WalkAppend(g, Polling(name, ec2, todo), [Event.ListTasks(g.cluster, name, reply), Pause],
                   AwaitNoTasks(g.cluster, name, s1).events);
      }
    }
  }

  function WaitingFor(t: Threshold, todo: seq<string>): Phase {
    match t
    case ShutDown => ShuttingDown(todo)
    case Replaced => Replacing(todo)
  }

  function AfterWait(t: Threshold, todo: seq<string>): Phase {
    match t
    case ShutDown => Replacing(todo)
    case Replaced => Idle(todo)
  }

  /** A count short of the threshold, then the pause, returns to waiting. */
  lemma CountNapWalk(g: Setting, t: Threshold, todo: seq<string>, count: int)
    requires !Reached(t, g.start, count)
    ensures Walk(g, WaitingFor(t, todo), [ClusterInfo(g.cluster, count), Pause]) == Some(WaitingFor(t, todo))
  {
    var nap := [ClusterInfo(g.cluster, count), Pause];
    var napping := match t case ShutDown => ShutdownNap(todo) case Replaced => ReplaceNap(todo);
    assert Step(g, WaitingFor(t, todo), nap[0]) == Some(napping);
    assert Walk(g, napping, [Pause]) == Some(WaitingFor(t, todo));
    assert nap[1..] == [Pause];
  }

  /** Each count wait ends in the phase that follows it. */
  lemma {:induction false} AwaitCountWalk(g: Setting, t: Threshold, todo: seq<string>, s: Script)
    ensures var w := AwaitCount(g.cluster, g.start, t, s);
            Walk(g, WaitingFor(t, todo), w.events) ==
              if w.halt.None? then Some(AfterWait(t, todo)) else Some(WaitingFor(t, todo))
    decreases |s.clusterCounts|
  {
    if s.clusterCounts != [] {
      var count := s.clusterCounts[0];
      var s1 := s.(clusterCounts := s.clusterCounts[1..]);
      if !Reached(t, g.start, count) {
        AwaitCountWalk(g, t, todo, s1);
        CountNapWalk(g, t, todo, count);
        WalkAppend(g, WaitingFor(t, todo), [ClusterInfo(g.cluster, count), Pause],
                   AwaitCount(g.cluster, g.start, t, s1).events);
      }
    }
  }

  lemma AwaitReplacementWalk(g: Setting, todo: seq<string>, s: Script)
    ensures var w := AwaitReplacement(g.cluster, g.start, s);
            Walk(g, ShuttingDown(todo), w.events).Some? &&
            (w.halt.None? ==> Walk(g, ShuttingDown(todo), w.events) == Some(Idle(todo)))
  {
    var down := AwaitCount(g.cluster, g.start, ShutDown, s);
    AwaitCountWalk(g, ShutDown, todo, s);
    AwaitCountWalk(g, Replaced, todo, down.rest);
    WalkAndThen(g, ShuttingDown(todo), down, AwaitCount(g.cluster, g.start, Replaced, down.rest),
                Walk(g, ShuttingDown(todo), down.events).value);
  }

  lemma RetireWalk(g: Setting, ec2: string, todo: seq<string>, s: Script)
    ensures var r := Retire(g.cluster, g.start, ec2, s);
            Walk(g, Terminable(ec2, todo), r.events).Some? &&
            (r.halt.None? ==> Walk(g, Terminable(ec2, todo), r.events) == Some(Idle(todo)))
  {
    var term := TerminateStep(ec2, s);
    var q := if term.halt == None then ShuttingDown(todo) else if s.terminations == [] then Terminable(ec2, todo) else Crashed;
    assert Walk(g, Terminable(ec2, todo), term.events) == Some(q);
    AwaitReplacementWalk(g, todo, term.rest);
    WalkAndThen(g, Terminable(ec2, todo), term, AwaitReplacement(g.cluster, g.start, term.rest), q);
  }

  lemma EvictWalk(g: Setting, rec: Instance, todo: seq<string>, s: Script)
    ensures var e := Evict(g.cluster, g.start, rec, s);
            var p := Polling(rec.name, rec.ec2InstanceId, todo);
            Walk(g, p, e.events).Some? && (e.halt.None? ==> Walk(g, p, e.events) == Some(Idle(todo)))
  {
    var p := Polling(rec.name, rec.ec2InstanceId, todo);
    var tasks := AwaitNoTasks(g.cluster, rec.name, s);
    AwaitNoTasksWalk(g, rec.name, rec.ec2InstanceId, todo, s);
    RetireWalk(g, rec.ec2InstanceId, todo, tasks.rest);
    WalkAndThen(g, p, tasks, Retire(g.cluster, g.start, rec.ec2InstanceId, tasks.rest), Walk(g, p, tasks.events).value);
  }

  lemma DrainStepWalk(g: Setting, name: string, todo: seq<string>, s: Script)
    requires name !in g.excluded
    ensures var d := DrainStep(g.cluster, name, s);
            var p := Idle([name] + todo);
            Walk(g, p, d.run.events).Some? &&
            (d.run.halt.None? ==> Walk(g, p, d.run.events) == Some(Polling(d.record.name, d.record.ec2InstanceId, todo)))
  {
    var p := Idle([name] + todo);
    assert ([name] + todo)[1..] == todo;
    if s.stateUpdates != [] {
      var updated := s.stateUpdates[0];
      var s1 := s.(stateUpdates := s.stateUpdates[1..]);
      var drain := SetState(g.cluster, name, DrainingStatus, updated);
      assert Step(g, p, drain) == Some(Draining(name, todo));
      assert Walk(g, p, [drain]) == Some(Draining(name, todo));
      if UpdateInstanceState(updated).Some? && s1.descriptions != [] {
        var refetch := DescribeInstances(g.cluster, [name], s1.descriptions[0]);
        var r1 := Described(s1.descriptions[0]);
        var q := if r1 == [] then Crashed else Polling(r1[0].name, r1[0].ec2InstanceId, todo);
        assert Step(g, Draining(name, todo), refetch) == Some(q);
        assert Walk(g, Draining(name, todo), [refetch]) == Some(q);
        WalkAppend(g, p, [drain], [refetch]);
        assert [drain] + [refetch] == [drain, refetch];
      }
    }
  }

  /** One record, visited from the phase where it is next. */
  lemma VisitWalk(g: Setting, inst: Instance, todo: seq<string>, s: Script)
    ensures var v := Visit(g.cluster, g.excluded, g.start, inst, s);
            var p := Idle([inst.name] + todo);
            Walk(g, p, v.events).Some? && (v.halt.None? ==> Walk(g, p, v.events) == Some(Idle(todo)))
  {
    var p := Idle([inst.name] + todo);
    assert ([inst.name] + todo)[1..] == todo;
    if inst.name !in g.excluded {
      var d := DrainStep(g.cluster, inst.name, s);
      DrainStepWalk(g, inst.name, todo, s);
      EvictWalk(g, d.record, todo, d.run.rest);
      WalkAndThen(g, p, d.run, Evict(g.cluster, g.start, d.record, d.run.rest), Walk(g, p, d.run.events).value);
    }
  }

  /** The batch follows the protocol over the records in list order, and a
      batch that runs to its end has visited every record. */
  lemma {:induction false} BatchFollowsProtocol(g: Setting, insts: seq<Instance>, s: Script)
    ensures var b := Batch(g.cluster, g.excluded, g.start, insts, s);
            var p := Idle(Map(insts, InstanceName));
            Walk(g, p, b.events).Some? && (b.halt.None? ==> Walk(g, p, b.events) == Some(Idle([])))
    decreases |insts|
  {
    if insts != [] {
      var names := Map(insts, InstanceName);
      assert names == [insts[0].name] + Map(insts[1..], InstanceName);
      var v := Visit(g.cluster, g.excluded, g.start, insts[0], s);
      VisitWalk(g, insts[0], Map(insts[1..], InstanceName), s);
      BatchFollowsProtocol(g, insts[1..], v.rest);
      WalkAndThen(g, Idle(names), v, Batch(g.cluster, g.excluded, g.start, insts[1..], v.rest),
                  Walk(g, Idle(names), v.events).value);
    }
  }

  // What acceptance implies.

  /** An accepted log never drains an excluded instance. */
  lemma {:induction false} AcceptedSkipsExcluded(g: Setting, p: Phase, events: seq<Event>)
    requires Walk(g, p, events).Some?
    ensures forall j :: 0 <= j < |events| && events[j].SetState? ==> events[j].instance !in g.excluded
    decreases |events|
  {
    if events != [] {
      AcceptedSkipsExcluded(g, Step(g, p, events[0]).value, events[1..]);
      forall j | 1 <= j < |events| ensures events[j] == events[1..][j - 1] { }
    }
  }

  predicate EmptyPoll(e: Event) {
    e.ListTasks? && |ListedTasks(e.tasks)| == 0
  }

  /** Only a poll that listed no tasks makes an instance terminable. */
  lemma IntoTerminable(g: Setting, p: Phase, e: Event)
    requires Step(g, p, e).Some? && Step(g, p, e).value.Terminable?
    ensures EmptyPoll(e)
  {
  }

  /** In an accepted log every terminate comes right after a poll that
      listed no tasks (or is the first move from a terminable phase). */
  lemma {:induction false} AcceptedTerminatesAfterEmptyPoll(g: Setting, p: Phase, events: seq<Event>)
    requires Walk(g, p, events).Some?
    ensures forall j :: 0 <= j < |events| && events[j].Terminate? ==>
              (j == 0 && p.Terminable?) || (j > 0 && EmptyPoll(events[j - 1]))
    decreases |events|
  {
    if events != [] {
      var q := Step(g, p, events[0]).value;
      AcceptedTerminatesAfterEmptyPoll(g, q, events[1..]);
      forall j | 1 <= j < |events| && events[j].Terminate?
        ensures EmptyPoll(events[j - 1])
      {
        assert events[j] == events[1..][j - 1];
        if j == 1 {
          IntoTerminable(g, p, events[0]);
        } else {
          assert events[j - 1] == events[1..][j - 2];
        }
      }
    }
  }

  /** The batch never drains an excluded instance, and terminates only right
      after a poll that listed no tasks. */
  lemma BatchSafety(g: Setting, insts: seq<Instance>, s: Script)
    ensures var events := Batch(g.cluster, g.excluded, g.start, insts, s).events;
            (forall j :: 0 <= j < |events| && events[j].SetState? ==> events[j].instance !in g.excluded) &&
            (forall j :: 0 <= j < |events| && events[j].Terminate? ==> j > 0 && EmptyPoll(events[j - 1]))
  {
    var events := Batch(g.cluster, g.excluded, g.start, insts, s).events;
    BatchFollowsProtocol(g, insts, s);
    AcceptedSkipsExcluded(g, Idle(Map(insts, InstanceName)), events);
    AcceptedTerminatesAfterEmptyPoll(g, Idle(Map(insts, InstanceName)), events);
  }

  /** A drain that fails does not skip the instance: it is still re-fetched. */
  lemma DrainErrorContinues(cluster: string, name: string, s: Script)
    requires s.stateUpdates != [] && s.stateUpdates[0].Failure?
    requires s.descriptions != [] && Described(s.descriptions[0]) != []
    ensures var d := DrainStep(cluster, name, s);
            d.run.halt.None? && d.record == Described(s.descriptions[0])[0] &&
            d.run.events == [SetState(cluster, name, DrainingStatus, s.stateUpdates[0]),
                             DescribeInstances(cluster, [name], s.descriptions[0])]
  {
  }

  /** A terminate that fails does not stop the batch: the shutdown wait follows. */
  lemma TerminateErrorContinues(cluster: string, start: int, ec2InstanceId: string, s: Script)
    requires s.terminations != [] && s.terminations[0].Failure?
    ensures var r := Retire(cluster, start, ec2InstanceId, s);
            var s1 := s.(terminations := s.terminations[1..]);
            r.events == [Terminate(ec2InstanceId, s.terminations[0])] + AwaitReplacement(cluster, start, s1).events
  {
  }

  // ---------------------------------------------------------------------
  // The agent-update protocol
  // ---------------------------------------------------------------------

  /** `todo` holds the names still to update; `Napping` is the pause owed
      after a pending update that was not the last. */
  datatype AgentPhase = Updating(todo: seq<string>) | Napping(todo: seq<string>)

  function AgentStep(cluster: string, p: AgentPhase, e: Event): Option<AgentPhase> {
    match (p, e)
    case (Updating(todo), UpdateAgent(c, n, reply)) =>
      if c == cluster && todo != [] && n == todo[0] then
        if UpdateContainerAgent(reply).text == Pending && |todo| > 1 then Some(Napping(todo[1..]))
        else Some(Updating(todo[1..]))
      else None
    case (Napping(todo), Pause) => Some(Updating(todo))
    case _ => None
  }

  function AgentWalk(cluster: string, p: AgentPhase, events: seq<Event>): Option<AgentPhase>
    decreases |events|
  {
    if events == [] then Some(p)
    else
      match AgentStep(cluster, p, events[0])
      case None => None
      case Some(q) => AgentWalk(cluster, q, events[1..])
  }

  lemma {:induction false} AgentWalkAppend(cluster: string, p: AgentPhase, a: seq<Event>, b: seq<Event>)
    ensures AgentWalk(cluster, p, a + b) ==
              if AgentWalk(cluster, p, a).None? then None else AgentWalk(cluster, AgentWalk(cluster, p, a).value, b)
    decreases |a|
  {
    if a == [] {
      assert a + b == b;
    } else {
      assert (a + b)[0] == a[0] && (a + b)[1..] == a[1..] + b;
      match AgentStep(cluster, p, a[0])
      case None =>
      case Some(q) => AgentWalkAppend(cluster, q, a[1..], b);
    }
  }

  /** The agent loop updates every record exactly once, in order, pausing
      only after a pending update that is not the last. */
  lemma {:induction false} AgentLoopFollowsProtocol(cluster: string, insts: seq<Instance>, s: Script)
    ensures var l := AgentLoop(cluster, insts, s);
            var w := AgentWalk(cluster, Updating(Map(insts, InstanceName)), l.events);
            w.Some? && w.value.Updating? && (l.halt.None? ==> w == Some(Updating([])))
    decreases |insts|
  {
    if insts != [] && s.agentUpdates != [] {
      var names := Map(insts, InstanceName);
      var rest := Map(insts[1..], InstanceName);
      assert names[0] == insts[0].name && names[1..] == rest;
      var reply := s.agentUpdates[0];
      var s1 := s.(agentUpdates := s.agentUpdates[1..]);
      var pause := if UpdateContainerAgent(reply).text == Pending && |insts| > 1 then [Pause] else [];
      var head := [UpdateAgent(cluster, insts[0].name, reply)] + pause;
      var q := if pause == [] then Updating(rest) else Napping(rest);
      assert AgentStep(cluster, Updating(names), head[0]) == Some(q);
      assert AgentWalk(cluster, q, head[1..]) == Some(Updating(rest));
      AgentLoopFollowsProtocol(cluster, insts[1..], s1);
      AgentWalkAppend(cluster, Updating(names), head, AgentLoop(cluster, insts[1..], s1).events);
    }
  }
}
