/** The data model shared by the runner and the modeler.

    The computation graph, the session and the callbacks are opaque
    collaborators. Graph operations are terms that record only what they were
    built from; engine values are identified by equality alone; what the
    engine and the callbacks do is supplied as functions (an `Env`), and every
    request the runner makes of them is appended to an event log, so that
    call counts and ordering can be stated about the log. */
module Engine {

  datatype Option<T> = None | Some(value: T)

  function Min(a: int, b: int): int { if a <= b then a else b }

  /** An unevaluated graph operation. Numerics are not modelled: each
      constructor names the library or modeler call that built it. */
  datatype Op =
    | Tensor(id: nat)                          // built by code outside the model (inputs, network)
    | GlobalStep                               // tf.train.get_or_create_global_step()
    | LearningRate(step: Op)                   // create_learning_rate_fn(global_step)
    | Loss(logits: Op, labels: Op)             // create_loss_fn
    | Gradients(loss: Op)                      // create_grad_fn
    | Accuracy(classes: Op, labels: Op)        // create_eval_metrics_fn
    | ApplyGradients(grads: Op, step: Op)      // optimizer.apply_gradients(grads, global_step=step)
    | Group(first: Op, rest: seq<Op>)          // tf.group(first, rest)
    | ScalarSummary(name: string, scalar: Op)  // tf.summary.scalar(name, op)
    | MergeAll(summaries: seq<Op>)             // tf.summary.merge_all() over the graph's summaries

  /** A concrete value produced by the engine or supplied by the modeler. */
  datatype Value = Value(id: int)

  /** An entry of feed_dict_pre or feed_dict_seq: a tensor still to be
      evaluated, or a value already concrete. */
  datatype FeedValue = Pending(op: Op) | Ready(value: Value)

  /** A Python dict in insertion order. */
  type NamedOps = seq<(string, Op)>
  type FeedSource = seq<(Op, FeedValue)>

  /** The feed mapping handed to the engine: placeholder -> value. */
  type Feed = map<Op, Value>

  datatype Callback = Callback(id: nat)

  /** The four callback hook points. */
  datatype Hook = BeforeRun | BeforeStep | AfterStep | AfterRun

  /** One entry of the runner's event log. */
  datatype Event =
    | Call(hook: Hook, callback: Callback)       // one hook called on one callback
    | Execute(ops: seq<Op>, feed: Feed)          // one sess.run(run_ops, feed_dict=...)
    | Progress(message: string)                  // one progress line printed

  /** What a callback's after_step leaves behind: the feed mapping and the
      shared outputs dict after its in-place updates, and the dict it
      returned (None, or its items in order). */
  datatype Reply = Reply(feed: Feed, outputs: map<string, Value>, display: Option<seq<(string, string)>>)

  /** The opaque collaborators. Their behaviour may depend on everything that
      happened before, which the event log records. */
  datatype Env = Env(
    eval: Op -> Value,                                              // sess.run(tensor)
    execute: (seq<Event>, seq<Op>, Feed) -> seq<Value>,             // sess.run(run_ops, feed_dict)
    afterStep: (Callback, seq<Event>, map<string, Value>, Feed) -> Reply)

  /** The two parallel lists collect_ops returns. */
  datatype RunOps = RunOps(ops: seq<Op>, names: seq<string>)

  /** The keys of a named-op dict, in order. */
  function Names(ops: NamedOps): (names: seq<string>)
    ensures |names| == |ops|
    ensures forall i :: 0 <= i < |ops| ==> names[i] == ops[i].0
  {
    seq(|ops|, i requires 0 <= i < |ops| => ops[i].0)
  }

  /** The default graph's collections that the runner reads and extends. */
  class Graph {
    var summaries: seq<Op>   // the SUMMARIES collection
    var updateOps: seq<Op>   // the UPDATE_OPS collection

    constructor (summaries: seq<Op>, updateOps: seq<Op>)
      ensures this.summaries == summaries && this.updateOps == updateOps
    {
      this.summaries := summaries;
      this.updateOps := updateOps;
    }
  }
}
