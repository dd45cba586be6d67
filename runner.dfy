/** The orchestrator. Its methods follow runner.py statement by statement;
    each is proved to leave the state that a function of the OpsCollection,
    FeedDict or StepLoop module describes, and the properties of a run are
    proved about those functions. */
module Runner {
  import opened Engine
  import opened ImageClassificationModeler
  import opened OpsCollection
  import opened FeedDict
  import opened StepLoop

  /** The zip loop of after_step. */
  method ZipOutputs(names: seq<string>, values: seq<Value>) returns (outputsDict: map<string, Value>)
    ensures outputsDict == ZipDict(names, values)
  {
    outputsDict := map[];
    var n := Min(|names|, |values|);
    for i := 0 to n
      invariant outputsDict == ZipDict(names[..i], values[..i])
    {
      assert names[..i + 1][..i] == names[..i] && values[..i + 1][..i] == values[..i];
      outputsDict := outputsDict[names[i] := values[i]];
    }
    ZipDictPrefix(names, values);
  }

  /** The inner loop of after_step over one returned dict. */
  method AppendDisplay(message: string, display: seq<(string, string)>) returns (extended: string)
    ensures extended == message + Shown(display)
  {
    extended := message;
    for i := 0 to |display|
      invariant extended == message + Shown(display[..i])
    {
      assert display[..i + 1][..i] == display[..i];
      extended := extended + display[i].1 + " ";
    }
    assert display[..|display|] == display;
  }

  class Runner {
    const args: Args
    const inputter: Inputter
    const modeler: ImageClassificationModeler
    const graph: Graph
    const batchSize: int
    var feedDict: Feed
    var outputs: Option<seq<Value>>
    var runOps: seq<Op>
    var runOpsNames: seq<string>
    var trace: seq<Event>

    constructor (args: Args, inputter: Inputter, modeler: ImageClassificationModeler, graph: Graph)
      modifies modeler`numSamples
      ensures this.args == args && this.inputter == inputter
      ensures this.modeler == modeler && this.graph == graph
      ensures modeler.numSamples == Some(inputter.numSamples)
      ensures batchSize == args.batchSizePerGpu * args.numGpu
      ensures feedDict == map[] && outputs == None
      ensures runOps == [] && runOpsNames == [] && trace == []
    {
      this.args := args;
      this.inputter := inputter;
      this.modeler := modeler;
      this.graph := graph;
      batchSize := args.batchSizePerGpu * args.numGpu;
      feedDict := map[];
      outputs := None;
      runOps := [];
      runOpsNames := [];
      trace := [];
      new;
      modeler.GetDatasetInfo(inputter);
    }

    /** One hook round: the hook called on each callback in list order. */
    method Notify(hook: Hook, callbacks: seq<Callback>)
      modifies this`trace
      ensures trace == old(trace) + Calls(hook, callbacks)
    {
      for i := 0 to |callbacks|
        invariant trace == old(trace) + Calls(hook, callbacks[..i])
      {
        assert callbacks[..i + 1][..i] == callbacks[..i];
        trace := trace + [Call(hook, callbacks[i])];
      }
      assert callbacks[..|callbacks|] == callbacks;
    }

    method BeforeRun(callbacks: seq<Callback>)
      modifies this`trace
      ensures trace == old(trace) + Calls(Hook.BeforeRun, callbacks)
    {
      Notify(Hook.BeforeRun, callbacks);
    }

    method BeforeStep(callbacks: seq<Callback>)
      modifies this`trace
      ensures trace == old(trace) + Calls(Hook.BeforeStep, callbacks)
    {
      Notify(Hook.BeforeStep, callbacks);
    }

    method AfterRun(callbacks: seq<Callback>)
      modifies this`trace
      ensures trace == old(trace) + Calls(Hook.AfterRun, callbacks)
    {
      Notify(Hook.AfterRun, callbacks);
    }

    /** Zips the run names with the last outputs, calls after_step on each
        callback with the same outputs dict, so that a callback sees the
        changes earlier ones made to it, and prints the progress line built
        from their replies. */
    method AfterStep(env: Env, callbacks: seq<Callback>)
      requires outputs.Some?
      modifies this`feedDict, this`trace
      ensures var r := AfterStepRound(env, callbacks, ZipDict(runOpsNames, outputs.value),
                                      old(feedDict), old(trace));
        feedDict == r.feed && trace == r.trace + [Progress(r.message)]
    {
      var outputsDict := ZipOutputs(runOpsNames, outputs.value);
      var message := "\r";
      ghost var dict0, feed0, trace0 := outputsDict, feedDict, trace;
      for i := 0 to |callbacks|
        invariant Round(feedDict, outputsDict, trace, message)
                  == AfterStepRound(env, callbacks[..i], dict0, feed0, trace0)
      {
        assert callbacks[..i + 1][..i] == callbacks[..i];
        var reply := env.afterStep(callbacks[i], trace, outputsDict, feedDict);
        trace := trace + [Call(Hook.AfterStep, callbacks[i])];
        feedDict := reply.feed;
        outputsDict := reply.outputs;
        if reply.display.Some? && reply.display.value != [] {
          message := AppendDisplay(message, reply.display.value);
        }
      }
      assert callbacks[..|callbacks|] == callbacks;
      RoundShape(env, callbacks, dict0, feed0, trace0);
      if |message| > 0 {
        trace := trace + [Progress(message)];
      }
    }

    /** Folds feed_dict_pre and then feed_dict_seq into the feed mapping,
        evaluating the entries that are tensors. */
    method PrepareFeedDict(eval: Op -> Value)
      modifies this`feedDict
      ensures feedDict == Prepared(old(feedDict), modeler.feedDictPre, modeler.feedDictSeq, eval)
    {
      var pre := modeler.feedDictPre;
      for i := 0 to |pre|
        invariant feedDict == Folded(old(feedDict), pre[..i], eval)
      {
        assert pre[..i + 1][..i] == pre[..i];
        var key := pre[i].0;
        if pre[i].1.Pending? {
          feedDict := feedDict[key := eval(pre[i].1.op)];
        } else {
          feedDict := feedDict[key := pre[i].1.value];
        }
      }
      assert pre[..|pre|] == pre;
      ghost var afterPre := feedDict;
      var sequential := modeler.feedDictSeq;
      for i := 0 to |sequential|
        invariant feedDict == Folded(afterPre, sequential[..i], eval)
      {
        assert sequential[..i + 1][..i] == sequential[..i];
        var key := sequential[i].0;
        if sequential[i].1.Pending? {
          feedDict := feedDict[key := eval(sequential[i].1.op)];
        } else {
          feedDict := feedDict[key := sequential[i].1.value];
        }
      }
      assert sequential[..|sequential|] == sequential;
    }

    /** Registers a scalar summary for each allow-listed pair of
        zip(names, ops) and returns the merge of the graph's summaries. */
    method CollectSummary(names: seq<string>, ops: seq<Op>) returns (summary: Op)
      modifies graph`summaries
      ensures graph.summaries == old(graph.summaries) + Scalars(names, ops, args.summaryNames)
      ensures summary == MergeAll(graph.summaries)
    {
      var n := Min(|names|, |ops|);
      for i := 0 to n
        invariant graph.summaries == old(graph.summaries) + Scalars(names[..i], ops[..i], args.summaryNames)
      {
        assert names[..i + 1][..i] == names[..i] && ops[..i + 1][..i] == ops[..i];
        if names[i] in args.summaryNames {
          graph.summaries := graph.summaries + [ScalarSummary(names[i], ops[i])];
        }
      }
      ScalarsPrefix(names, ops, args.summaryNames);
      summary := MergeAll(graph.summaries);
    }

    /** Turns the named outputs into the parallel run lists, replacing the
        gradient output by the grouped apply op and, in training mode,
        appending the merged summary. */
    method CollectOps(ops: NamedOps) returns (collectedOps: seq<Op>, collectedNames: seq<string>)
      modifies graph`summaries
      ensures RunOps(collectedOps, collectedNames)
           == Collected(ops, args.mode, modeler.globalStep, graph.updateOps, args.summaryNames,
                        old(graph.summaries))
      ensures graph.summaries == if args.mode == "train"
        then old(graph.summaries)
             + Scalars(Names(ops), RunOpsOf(ops, modeler.globalStep, graph.updateOps), args.summaryNames)
        else old(graph.summaries)
    {
      collectedOps, collectedNames := [], [];
      for i := 0 to |ops|
        invariant collectedOps == RunOpsOf(ops[..i], modeler.globalStep, graph.updateOps)
        invariant collectedNames == Names(ops[..i])
      {
        var op;
        if ops[i].0 == "grads" {
          var minimize := ApplyGradients(ops[i].1, modeler.globalStep);
          var updateOps := graph.updateOps;
          op := Group(minimize, updateOps);
        } else {
          op := ops[i].1;
        }
        collectedOps := collectedOps + [op];
        collectedNames := collectedNames + [ops[i].0];
      }
      assert ops[..|ops|] == ops;
      if args.mode == "train" {
        var summary := CollectSummary(collectedNames, collectedOps);
        collectedOps := collectedOps + [summary];
        collectedNames := collectedNames + ["summary"];
      }
    }

    /** The body of the run loop: before_step round, one engine run on the
        run lists and the current feed, after_step round. */
    method RunStep(env: Env, built: RunOps)
      requires runOps == built.ops && runOpsNames == built.names
      modifies this`feedDict, this`outputs, this`trace
      ensures LoopState(feedDict, outputs, trace)
           == Step(env, built, modeler.callbacks, LoopState(old(feedDict), old(outputs), old(trace)))
    {
      ghost var feed0 := feedDict;
      BeforeStep(modeler.callbacks);
      outputs := Some(env.execute(trace, runOps, feedDict));
      trace := trace + [Execute(runOps, feedDict)];
      ghost var t2 := trace;
      AfterStep(env, modeler.callbacks);
      ghost var round := AfterStepRound(env, modeler.callbacks, ZipDict(built.names, outputs.value), feed0, t2);
      RoundShape(env, modeler.callbacks, ZipDict(built.names, outputs.value), feed0, t2);
      assert PrintedLine(round.message) == [Progress(round.message)];
    }

    /** The run loop. The graph construction that precedes it is not part of
        this model: `built` stands for the run lists it leaves behind, and
        `persistedStep`, `maxStep` for what the global-step and max-step ops
        evaluate to. */
    method Run(env: Env, built: RunOps, persistedStep: int, maxStep: int)
      modifies this
      ensures runOps == built.ops && runOpsNames == built.names
      ensures LoopState(feedDict, outputs, trace)
           == RunState(env, args.mode, built, modeler.callbacks, modeler.feedDictPre, modeler.feedDictSeq,
                       LoopState(old(feedDict), old(outputs), old(trace)), persistedStep, maxStep)
    {
      runOps, runOpsNames := built.ops, built.names;
      BeforeRun(modeler.callbacks);
      PrepareFeedDict(env.eval);
      var globalStep := 0;
      if args.mode == "train" {
        globalStep := persistedStep;
      }
      var max := maxStep;
      ghost var start := LoopState(feedDict, outputs, trace);
      ghost var first := globalStep;
      while globalStep < max
        invariant first <= globalStep
        invariant globalStep <= max || globalStep == first
        invariant LoopState(feedDict, outputs, trace)
                  == Steps(env, built, modeler.callbacks, start, globalStep - first)
        invariant runOps == built.ops && runOpsNames == built.names
        decreases max - globalStep
      {
        ghost var before := LoopState(feedDict, outputs, trace);
        RunStep(env, built);
        assert Steps(env, built, modeler.callbacks, start, globalStep + 1 - first)
            == Step(env, built, modeler.callbacks, before);
        globalStep := globalStep + 1;
      }
      assert first == InitialStep(args.mode, persistedStep);
      assert globalStep - first == Iterations(first, max);
      AfterRun(modeler.callbacks);
    }
  }

  /** The run names follow the mode's required keys, with "summary" last in
      training mode, whatever the graph and allow-list hold. */
  lemma CollectedNamesFollowMode(m: ImageClassificationModeler, x: (Op, Op), step: Op,
                                 updateOps: seq<Op>, allowed: seq<string>, registered: seq<Op>)
    requires m.ModelFn(x).Outputs?
    ensures Collected(m.ModelFn(x).ops, m.args.mode, step, updateOps, allowed, registered).names
         == RequiredKeys(m.args.mode) + (if m.args.mode == "train" then ["summary"] else [])
  {
  }

  lemma RunNamesDistinct(mode: string)
    ensures var names := RequiredKeys(mode) + (if mode == "train" then ["summary"] else []);
      forall i, j :: 0 <= i < j < |names| ==> names[i] != names[j]
  {
  }

  /** The names a model run produces are distinct, so after_step's outputs
      dict maps each of them to the output at its position. */
  lemma ModelRunOutputsDict(mode: string, values: seq<Value>)
    ensures var names := RequiredKeys(mode) + (if mode == "train" then ["summary"] else []);
      forall i :: 0 <= i < Min(|names|, |values|) ==>
        names[i] in ZipDict(names, values) && ZipDict(names, values)[names[i]] == values[i]
  {
    RunNamesDistinct(mode);
    ZipDictDistinct(RequiredKeys(mode) + (if mode == "train" then ["summary"] else []), values);
  }
}
