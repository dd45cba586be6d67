/** What collect_ops and collect_summary build: the two parallel run lists
    and the scalar summaries registered for the allow-listed names. */
module OpsCollection {
  import opened Engine

  /** The run op for one named output: the gradient output becomes the
      optimizer's apply op grouped with the update ops; every other output
      is passed through. */
  function RunOpFor(key: string, op: Op, step: Op, updateOps: seq<Op>): Op {
    if key == "grads" then Group(ApplyGradients(op, step), updateOps) else op
  }

  /** The run ops for a named-op dict, in its order. */
  function RunOpsOf(ops: NamedOps, step: Op, updateOps: seq<Op>): (runOps: seq<Op>)
    ensures |runOps| == |ops|
    ensures forall i :: 0 <= i < |ops| ==> runOps[i] == RunOpFor(ops[i].0, ops[i].1, step, updateOps)
  {
    seq(|ops|, i requires 0 <= i < |ops| => RunOpFor(ops[i].0, ops[i].1, step, updateOps))
  }

  /** The scalar summaries registered while walking zip(names, ops): one per
      pair whose name is allow-listed, in walking order. */
  function Scalars(names: seq<string>, ops: seq<Op>, allowed: seq<string>): seq<Op>
    decreases |names|
  {
    var n := Min(|names|, |ops|);
    if n == 0 then []
    else
      Scalars(names[..n - 1], ops[..n - 1], allowed) +
      (if names[n - 1] in allowed then [ScalarSummary(names[n - 1], ops[n - 1])] else [])
  }

  /** zip stops at the shorter list: only that prefix matters. */
  lemma {:induction false} ScalarsPrefix(names: seq<string>, ops: seq<Op>, allowed: seq<string>)
    ensures Scalars(names[..Min(|names|, |ops|)], ops[..Min(|names|, |ops|)], allowed)
         == Scalars(names, ops, allowed)
  {
    var n := Min(|names|, |ops|);
    if n > 0 {
      assert names[..n][..n - 1] == names[..n - 1];
      assert ops[..n][..n - 1] == ops[..n - 1];
    }
  }

  /** A summary is registered exactly for an allow-listed pair of the zip. */
  lemma {:induction false} ScalarsMember(names: seq<string>, ops: seq<Op>, allowed: seq<string>, s: Op)
    ensures s in Scalars(names, ops, allowed) <==>
      exists i :: 0 <= i < Min(|names|, |ops|) && names[i] in allowed &&
                  s == ScalarSummary(names[i], ops[i])
    decreases |names|
  {
    var n := Min(|names|, |ops|);
    if n > 0 {
      ScalarsMember(names[..n - 1], ops[..n - 1], allowed, s);
      if s in Scalars(names, ops, allowed) && s !in Scalars(names[..n - 1], ops[..n - 1], allowed) {
        assert names[n - 1] in allowed && s == ScalarSummary(names[n - 1], ops[n - 1]);
      }
    }
  }

  /** Registration follows list order: the summaries of a concatenation are
      those of the first part followed by those of the second. */
  lemma {:induction false} ScalarsAppend(n1: seq<string>, o1: seq<Op>, n2: seq<string>, o2: seq<Op>,
                                         allowed: seq<string>)
    requires |n1| == |o1| && |n2| == |o2|
    ensures Scalars(n1 + n2, o1 + o2, allowed) == Scalars(n1, o1, allowed) + Scalars(n2, o2, allowed)
    decreases |n2|
  {
    if |n2| > 0 {
      var k := |n2| - 1;
      ScalarsAppend(n1, o1, n2[..k], o2[..k], allowed);
      assert (n1 + n2)[..|n1| + k] == n1 + n2[..k];
      assert (o1 + o2)[..|o1| + k] == o1 + o2[..k];
    } else {
      assert n1 + n2 == n1 && o1 + o2 == o1;
    }
  }

  /** The two lists collect_ops returns, given the named outputs, the mode,
      the modeler's global step, the graph's update ops, the allow-list and
      the summaries already registered in the graph. */
  function Collected(ops: NamedOps, mode: string, step: Op, updateOps: seq<Op>,
                     allowed: seq<string>, registered: seq<Op>): RunOps
  {
    var runOps := RunOpsOf(ops, step, updateOps);
    var names := Names(ops);
    if mode == "train" then
      RunOps(runOps + [MergeAll(registered + Scalars(names, runOps, allowed))], names + ["summary"])
    else
      RunOps(runOps, names)
  }

  /** Shape of the result: parallel lists, one entry per named output plus
      the summary entry in training mode; every output keeps its key and
      position; only the gradient output's op is replaced. */
  lemma CollectedShape(ops: NamedOps, mode: string, step: Op, updateOps: seq<Op>,
                       allowed: seq<string>, registered: seq<Op>)
    ensures var r := Collected(ops, mode, step, updateOps, allowed, registered);
      && |r.ops| == |r.names| == |ops| + (if mode == "train" then 1 else 0)
      && (forall i :: 0 <= i < |ops| ==> r.names[i] == ops[i].0)
      && (forall i :: 0 <= i < |ops| && ops[i].0 != "grads" ==> r.ops[i] == ops[i].1)
      && (forall i :: 0 <= i < |ops| && ops[i].0 == "grads" ==>
            r.ops[i] == Group(ApplyGradients(ops[i].1, step), updateOps))
  {
  }

  /** The summary entry: in training mode the last entry is named "summary"
      and merges what was registered before plus the allow-listed run ops;
      in any other mode nothing is appended. */
  lemma CollectedSummary(ops: NamedOps, mode: string, step: Op, updateOps: seq<Op>,
                         allowed: seq<string>, registered: seq<Op>)
    ensures var r := Collected(ops, mode, step, updateOps, allowed, registered);
      && (mode == "train" ==>
            && r.names[|r.names| - 1] == "summary"
            && r.ops[|r.ops| - 1] ==
                 MergeAll(registered + Scalars(Names(ops), RunOpsOf(ops, step, updateOps), allowed)))
      && (mode != "train" ==> r.names == Names(ops) && r.ops == RunOpsOf(ops, step, updateOps))
  {
  }

  /** With an empty allow-list the summary entry merges only what the graph
      already held: nothing is registered. */
  lemma {:induction false} ScalarsNoneAllowed(names: seq<string>, ops: seq<Op>)
    ensures Scalars(names, ops, []) == []
    decreases |names|
  {
    var n := Min(|names|, |ops|);
    if n > 0 {
      ScalarsNoneAllowed(names[..n - 1], ops[..n - 1]);
    }
  }
}
