/** The shapes of the AWS SDK replies the wrappers consume. Every SDK call is
    an oracle: its reply is an input of the model, never computed by it. */
module Sdk {
  import opened Wrappers

  /** An SDK error: an AWS service error with its code, or any other error. */
  datatype CallError = AwsError(code: string, message: string) | OtherError(message: string)

  /** `ecs.ErrCodeNoUpdateAvailableException`. */
  const NoUpdateAvailable: string := "NoUpdateAvailableException"

  predicate IsNoUpdateAvailable(e: CallError) {
    e.AwsError? && e.code == NoUpdateAvailable
  }

  /** The reply of one SDK call: its output, or the error it returned. */
  type Reply<T> = Result<T, CallError>

  /** A named attribute (`ecs.Attribute`) or resource (`ecs.Resource`). */
  datatype NamedValue<V> = NamedValue(name: string, value: V)

  /** `ecs.ContainerInstance` as `DescribeContainerInstances` returns it. */
  datatype ContainerInstanceDesc = ContainerInstanceDesc(
    arn: string,
    ec2InstanceId: string,
    status: string,
    runningTasksCount: int,
    pendingTasksCount: int,
    agentVersion: string,
    dockerVersion: string,
    attributes: seq<NamedValue<string>>,
    remainingResources: seq<NamedValue<int>>)

  /** The value of the last entry named `key`, or `default` when there is none:
      what a loop that overwrites a variable on every match leaves behind. */
  function LastValue<V>(xs: seq<NamedValue<V>>, key: string, default: V): V
    decreases |xs|
  {
    if xs == [] then default
    else if xs[|xs| - 1].name == key then xs[|xs| - 1].value
    else LastValue(xs[..|xs| - 1], key, default)
  }

  /** The last entry named `key` wins; without one the default stays. */
  lemma {:induction false} LastValueSpec<V>(xs: seq<NamedValue<V>>, key: string, default: V)
    ensures (exists k :: 0 <= k < |xs| && xs[k].name == key) ==>
              exists k :: 0 <= k < |xs| && xs[k].name == key && LastValue(xs, key, default) == xs[k].value &&
                forall j :: k < j < |xs| ==> xs[j].name != key
    ensures (forall k :: 0 <= k < |xs| ==> xs[k].name != key) ==> LastValue(xs, key, default) == default
    decreases |xs|
  {
    if xs != [] && xs[|xs| - 1].name != key {
      var ys := xs[..|xs| - 1];
      LastValueSpec(ys, key, default);
      assert forall k :: 0 <= k < |ys| ==> ys[k] == xs[k];
    }
  }

  /** Overwriting across two lists in turn is overwriting across their concatenation. */
  lemma {:induction false} LastValueAppend<V>(xs: seq<NamedValue<V>>, ys: seq<NamedValue<V>>, key: string, default: V)
    ensures LastValue(xs + ys, key, default) == LastValue(ys, key, LastValue(xs, key, default))
    decreases |ys|
  {
    if ys == [] {
      assert xs + ys == xs;
    } else {
      var zs := xs + ys;
      assert zs[|zs| - 1] == ys[|ys| - 1];
      assert zs[..|zs| - 1] == xs + ys[..|ys| - 1];
      LastValueAppend(xs, ys[..|ys| - 1], key, default);
    }
  }

  /** `ecs.Cluster` as `DescribeClusters` returns it, with the fields the
      modelled code reads. */
  datatype ClusterDesc = ClusterDesc(arn: string, name: string, status: string, registeredInstancesCount: int)
}
