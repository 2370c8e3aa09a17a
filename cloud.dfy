/** The cloud as the batch loops of main.go see it. Each kind of call answers
    from its own queue of scripted replies, and each call made is logged. A
    call whose queue is exhausted answers nothing: the run stops there. This
    is how the model bounds the polling loops, which in the program are
    unbounded. */
module Cloud {
  import opened Wrappers
  import opened Sdk

  /** The replies still to come, one queue per kind of call. */
  datatype Script = Script(
    listings: seq<Reply<seq<string>>>,
    descriptions: seq<Reply<seq<ContainerInstanceDesc>>>,
    clusterCounts: seq<int>,
    stateUpdates: seq<Reply<seq<string>>>,
    taskListings: seq<Reply<seq<string>>>,
    terminations: seq<Reply<seq<string>>>,
    agentUpdates: seq<Reply<string>>)

  /** Everything the batches do that a reader of the cloud or of the terminal
      can observe, in order. */
  datatype Event =
    | ListInstances(cluster: string, listed: Reply<seq<string>>)
    | DescribeInstances(cluster: string, names: seq<string>, described: Reply<seq<ContainerInstanceDesc>>)
    | ClusterInfo(cluster: string, registered: int)
    | SetState(cluster: string, instance: string, status: string, updated: Reply<seq<string>>)
    | ListTasks(cluster: string, instance: string, tasks: Reply<seq<string>>)
    | Terminate(ec2InstanceId: string, terminated: Reply<seq<string>>)
    | UpdateAgent(cluster: string, instance: string, agent: Reply<string>)
    | Pause
    | ReportedExcluded(instance: string)

  class Gateway {
    var script: Script
    ghost var log: seq<Event>

    constructor(s: Script)
      ensures script == s && log == []
    {
      script := s;
      log := [];
    }

    /** `ListContainerInstances`. */
    method ListContainerInstances(cluster: string) returns (reply: Option<Reply<seq<string>>>)
      modifies this
      ensures old(script.listings) == [] ==> reply.None? && script == old(script) && log == old(log)
      ensures old(script.listings) != [] ==>
                reply == Some(old(script.listings[0])) &&
                script == old(script.(listings := script.listings[1..])) &&
                log == old(log) + [ListInstances(cluster, reply.value)]
    {
      if script.listings == [] {
        return None;
      }
      reply := Some(script.listings[0]);
      script := script.(listings := script.listings[1..]);
      log := log + [ListInstances(cluster, reply.value)];
    }

    /** `DescribeContainerInstances`. */
    method DescribeContainerInstances(cluster: string, names: seq<string>) returns (reply: Option<Reply<seq<ContainerInstanceDesc>>>)
      modifies this
      ensures old(script.descriptions) == [] ==> reply.None? && script == old(script) && log == old(log)
      ensures old(script.descriptions) != [] ==>
                reply == Some(old(script.descriptions[0])) &&
                script == old(script.(descriptions := script.descriptions[1..])) &&
                log == old(log) + [DescribeInstances(cluster, names, reply.value)]
    {
      if script.descriptions == [] {
        return None;
      }
      reply := Some(script.descriptions[0]);
      script := script.(descriptions := script.descriptions[1..]);
      log := log + [DescribeInstances(cluster, names, reply.value)];
    }

    /** `ecs.GetClusterInfo`, whose source is not part of this model: it
        answers the registered-instance count of the cluster. */
    method GetClusterInfo(cluster: string) returns (registered: Option<int>)
      modifies this
      ensures old(script.clusterCounts) == [] ==> registered.None? && script == old(script) && log == old(log)
      ensures old(script.clusterCounts) != [] ==>
                registered == Some(old(script.clusterCounts[0])) &&
                script == old(script.(clusterCounts := script.clusterCounts[1..])) &&
                log == old(log) + [ClusterInfo(cluster, registered.value)]
    {
      if script.clusterCounts == [] {
        return None;
      }
      registered := Some(script.clusterCounts[0]);
      script := script.(clusterCounts := script.clusterCounts[1..]);
      log := log + [ClusterInfo(cluster, registered.value)];
    }

    /** `UpdateContainerInstancesState` for one instance. */
    method UpdateContainerInstancesState(cluster: string, instance: string, status: string) returns (reply: Option<Reply<seq<string>>>)
      modifies this
      ensures old(script.stateUpdates) == [] ==> reply.None? && script == old(script) && log == old(log)
      ensures old(script.stateUpdates) != [] ==>
                reply == Some(old(script.stateUpdates[0])) &&
                script == old(script.(stateUpdates := script.stateUpdates[1..])) &&
                log == old(log) + [SetState(cluster, instance, status, reply.value)]
    {
      if script.stateUpdates == [] {
        return None;
      }
      reply := Some(script.stateUpdates[0]);
      script := script.(stateUpdates := script.stateUpdates[1..]);
      log := log + [SetState(cluster, instance, status, reply.value)];
    }

    /** `ListTasks` with desired status RUNNING. */
    method ListTasks(cluster: string, instance: string) returns (reply: Option<Reply<seq<string>>>)
      modifies this
      ensures old(script.taskListings) == [] ==> reply.None? && script == old(script) && log == old(log)
      ensures old(script.taskListings) != [] ==>
                reply == Some(old(script.taskListings[0])) &&
                script == old(script.(taskListings := script.taskListings[1..])) &&
                log == old(log) + [Event.ListTasks(cluster, instance, reply.value)]
    {
      if script.taskListings == [] {
        return None;
      }
      reply := Some(script.taskListings[0]);
      script := script.(taskListings := script.taskListings[1..]);
      log := log + [Event.ListTasks(cluster, instance, reply.value)];
    }

    /** EC2 `TerminateInstances` for one instance. */
    method TerminateInstances(ec2InstanceId: string) returns (reply: Option<Reply<seq<string>>>)
      modifies this
      ensures old(script.terminations) == [] ==> reply.None? && script == old(script) && log == old(log)
      ensures old(script.terminations) != [] ==>
                reply == Some(old(script.terminations[0])) &&
                script == old(script.(terminations := script.terminations[1..])) &&
                log == old(log) + [Terminate(ec2InstanceId, reply.value)]
    {
      if script.terminations == [] {
        return None;
      }
      reply := Some(script.terminations[0]);
      script := script.(terminations := script.terminations[1..]);
      log := log + [Terminate(ec2InstanceId, reply.value)];
    }

    /** `UpdateContainerAgent`. */
    method UpdateContainerAgent(cluster: string, instance: string) returns (reply: Option<Reply<string>>)
      modifies this
      ensures old(script.agentUpdates) == [] ==> reply.None? && script == old(script) && log == old(log)
      ensures old(script.agentUpdates) != [] ==>
                reply == Some(old(script.agentUpdates[0])) &&
                script == old(script.(agentUpdates := script.agentUpdates[1..])) &&
                log == old(log) + [UpdateAgent(cluster, instance, reply.value)]
    {
      if script.agentUpdates == [] {
        return None;
      }
      reply := Some(script.agentUpdates[0]);
      script := script.(agentUpdates := script.agentUpdates[1..]);
      log := log + [UpdateAgent(cluster, instance, reply.value)];
    }

    /** `time.Sleep`: only its place in the log is kept. */
    method Sleep()
      modifies this
      ensures script == old(script) && log == old(log) + [Pause]
    {
      log := log + [Pause];
    }

    /** The `EXCLUDED` line the batch prints for a skipped instance. */
    method ReportExcluded(instance: string)
      modifies this
      ensures script == old(script) && log == old(log) + [ReportedExcluded(instance)]
    {
      log := log + [ReportedExcluded(instance)];
    }
  }
}
