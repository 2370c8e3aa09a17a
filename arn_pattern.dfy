/** The ARN patterns `^arn:aws:ecs:.*:.*:<kind>(.*)$` of the ECS wrappers,
    written as string functions. RE2 semantics: `.` matches anything but a
    newline, `^` and `$` anchor at the ends of the whole text, and the greedy
    `.*` parts make the capture the text after the LAST `:<kind>` that is
    preceded by a further `:` (the one after the account part). */
module ArnPattern {
  import opened Wrappers
  import opened GoText

  const Prefix: string := "arn:aws:ecs:"
  const ContainerInstanceKind: string := "container-instance/"
  const TaskKind: string := "task/"
  const ClusterKind: string := "cluster/"

  /** The start of the last occurrence of `p` in `t`. */
  function LastOccurrence(t: string, p: string): (r: Option<nat>)
    ensures r.Some? ==> OccursAt(t, p, r.value)
    ensures r.Some? ==> forall j :: r.value < j ==> !OccursAt(t, p, j)
    ensures r.None? ==> forall j :: !OccursAt(t, p, j)
    decreases |t|
  {
    if |t| < |p| then None
    else if t[|t| - |p|..] == p then Some(|t| - |p|)
    else
      OccursDropLast(t, p);
      LastOccurrence(t[..|t| - 1], p)
  }

  /** Dropping the last character keeps every occurrence but the one that
      ends the text, and adds none. */
  lemma OccursDropLast(t: string, p: string)
    requires |p| <= |t| && 0 < |t|
    ensures forall j :: OccursAt(t, p, j) && j != |t| - |p| ==> OccursAt(t[..|t| - 1], p, j)
    ensures forall j :: OccursAt(t[..|t| - 1], p, j) ==> OccursAt(t, p, j)
  {
    forall j | OccursAt(t, p, j) && j != |t| - |p|
      ensures OccursAt(t[..|t| - 1], p, j)
    {
      assert t[..|t| - 1][j..j + |p|] == t[j..j + |p|];
    }
    forall j | OccursAt(t[..|t| - 1], p, j)
      ensures OccursAt(t, p, j)
    {
      assert t[..|t| - 1][j..j + |p|] == t[j..j + |p|];
    }
  }

  /** The capture group of `^arn:aws:ecs:.*:.*:<kind>(.*)$`, if `s` matches. */
  function Capture(s: string, kind: string): Option<string> {
    if '\n' in s || |s| < |Prefix| || s[..|Prefix|] != Prefix then None
    else
      var t := s[|Prefix|..];
      match LastOccurrence(t, ":" + kind)
      case None => None
      case Some(j) => if ':' in t[..j] then Some(t[j + 1 + |kind|..]) else None
  }

  /** `s` is `arn:aws:ecs:<region>:<account>:<kind><id>` with no newline:
      one way the regular expression can match, with `id` as the capture. */
  ghost predicate Decomposes(s: string, kind: string, region: string, account: string, id: string) {
    '\n' !in s && s == Prefix + region + ":" + account + ":" + kind + id
  }

  /** A prefix of `s` grows by the slice that follows it. */
  lemma Grow(s: string, a: nat, b: nat)
    requires a <= b <= |s|
    ensures s[..b] == s[..a] + s[a..b]
  {
  }

  /** An occurrence in a suffix is an occurrence in the whole text. */
  lemma OccursInSuffix(s: string, n: nat, p: string, j: nat)
    requires n <= |s| && OccursAt(s[n..], p, j)
    ensures OccursAt(s, p, n + j)
  {
    assert s[n + j..n + j + |p|] == s[n..][j..j + |p|];
  }

  /** An ARN with a `:` at `a` and `:<kind>` at `b > a`, both after the
      prefix, decomposes around them. */
  lemma DecomposesAround(s: string, kind: string, a: nat, b: nat, id: string)
    requires '\n' !in s && |Prefix| <= a < b && OccursAt(s, ":" + kind, b)
    requires s[..|Prefix|] == Prefix && s[a] == ':' && id == s[b + 1 + |kind|..]
    ensures Decomposes(s, kind, s[|Prefix|..a], s[a + 1..b], id)
  {
    var c := b + 1 + |kind|;
    assert s[a..a + 1] == ":";
    assert s[b..b + 1] == ":" by {
      assert s[b] == s[b..c][0];
    }
    assert s[b + 1..c] == kind by {
      forall k | 0 <= k < |kind|
        ensures s[b + 1..c][k] == kind[k]
      {
        assert s[b + 1 + k] == s[b..c][1 + k];
      }
    }
    Grow(s, |Prefix|, a);
    Grow(s, a, a + 1);
    Grow(s, a + 1, b);
    Grow(s, b, b + 1);
    Grow(s, b + 1, c);
    assert s == s[..c] + s[c..];
  }

  /** Where the `:` after the region and the `:<kind>` that `Capture` found lie in `s`. */
  lemma CaptureParts(s: string, kind: string) returns (a: nat, b: nat)
    requires Capture(s, kind).Some?
    ensures '\n' !in s && |Prefix| <= a < b && OccursAt(s, ":" + kind, b)
    ensures s[..|Prefix|] == Prefix && s[a] == ':' && Capture(s, kind).value == s[b + 1 + |kind|..]
  {
    var n := |Prefix|;
    var t := s[n..];
    var j := LastOccurrence(t, ":" + kind).value;
    var i :| 0 <= i < j && t[..j][i] == ':';
    OccursInSuffix(s, n, ":" + kind, j);
    assert s[n + i] == ':';
    assert s[n + j + 1 + |kind|..] == t[j + 1 + |kind|..];
    a, b := n + i, n + j;
  }

  /** What `Capture` returns is a capture of some way of matching. */
  lemma CaptureSound(s: string, kind: string) returns (region: string, account: string)
    requires Capture(s, kind).Some?
    ensures Decomposes(s, kind, region, account, Capture(s, kind).value)
  {
    var a, b := CaptureParts(s, kind);
    region, account := s[|Prefix|..a], s[a + 1..b];
    DecomposesAround(s, kind, a, b, Capture(s, kind).value);
  }

  /** Whenever the pattern can match, `Capture` finds a match, and its capture
      is no longer than any other: the greedy `.*` parts take all they can. */
  lemma CaptureComplete(s: string, kind: string, region: string, account: string, id: string)
    requires Decomposes(s, kind, region, account, id)
    ensures Capture(s, kind).Some? && |Capture(s, kind).value| <= |id|
  {
    assert s[..|Prefix|] == Prefix;
    var t := s[|Prefix|..];
    assert t == region + ":" + account + ":" + kind + id;
    var j0 := |region| + 1 + |account|;
    assert OccursAt(t, ":" + kind, j0);
    var j := LastOccurrence(t, ":" + kind).value;
    assert t[..j][|region|] == ':';
  }

  /** An occurrence of a pattern starting with `:`, with no `:` after its
      start, is the last occurrence. */
  lemma LastOccurrenceAt(t: string, p: string, j0: nat)
    requires OccursAt(t, p, j0) && p != [] && p[0] == ':'
    requires forall k :: j0 < k < |t| ==> t[k] != ':'
    ensures LastOccurrence(t, p) == Some(j0)
  {
    var j := LastOccurrence(t, p).value;
    assert t[j..j + |p|][0] == ':';
  }

  /** In `a:<kind><id>` with no `:` in `kind` or `id`, the `:<kind>` right
      after `a` occurs, and no `:` follows its start. */
  lemma KindAfter(a: string, kind: string, id: string)
    requires ':' !in kind && ':' !in id
    ensures OccursAt(a + ":" + kind + id, ":" + kind, |a|)
    ensures forall k :: |a| < k < |a + ":" + kind + id| ==> (a + ":" + kind + id)[k] != ':'
  {
    var t := a + ":" + kind + id;
    var q := kind + id;
    assert t == a + ":" + q;
    assert t[|a|..|a| + 1 + |kind|] == ":" + kind;
    assert forall k :: |a| < k < |t| ==> t[k] == q[k - |a| - 1];
  }

  /** With a `:` after the prefix and `:<kind>` after it followed by no
      further `:`, `Capture` takes what follows `:<kind>`. */
  lemma CaptureAt(s: string, kind: string, a: nat, b: nat)
    requires '\n' !in s && |Prefix| <= a < b && OccursAt(s, ":" + kind, b)
    requires s[..|Prefix|] == Prefix && s[a] == ':'
    requires forall k :: b < k < |s| ==> s[k] != ':'
    ensures Capture(s, kind) == Some(s[b + 1 + |kind|..])
  {
    var n := |Prefix|;
    var t := s[n..];
    assert t[b - n..b - n + 1 + |kind|] == s[b..b + 1 + |kind|];
    LastOccurrenceAt(t, ":" + kind, b - n);
    assert t[..b - n][a - n] == ':';
    assert t[b - n + 1 + |kind|..] == s[b + 1 + |kind|..];
  }

  /** A well-formed ARN whose id part has no `:` yields exactly that id. */
  lemma CaptureOfArn(region: string, account: string, kind: string, id: string)
    requires ':' !in kind && ':' !in id
    requires '\n' !in region && '\n' !in account && '\n' !in kind && '\n' !in id
    ensures Capture(Prefix + region + ":" + account + ":" + kind + id, kind) == Some(id)
  {
    var head := Prefix + region + ":" + account;
    var s := head + ":" + kind + id;
    KindAfter(head, kind, id);
    assert s[|Prefix| + |region|] == ':';
    assert s[..|Prefix|] == Prefix;
    assert s[|head| + 1 + |kind|..] == id;
    CaptureAt(s, kind, |Prefix| + |region|, |head|);
  }

  /** `...:container-instance/(.*)$`: the container instance id of an ARN. */
  function ContainerInstanceName(arn: string): Option<string> {
    Capture(arn, ContainerInstanceKind)
  }

  /** `...:task/(.*)$`: the task id of an ARN. */
  function TaskId(arn: string): Option<string> {
    Capture(arn, TaskKind)
  }

  /** `...:cluster/(.*)$`: the cluster name of an ARN. */
  function ClusterName(arn: string): Option<string> {
    Capture(arn, ClusterKind)
  }
}
