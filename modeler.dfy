/** The image-classification model strategy: which named outputs exist in
    each mode, with which network flag the graph is built, and the two fields
    it records about the dataset and the training schedule. */
module ImageClassificationModeler {
  import opened Engine

  /** The run configuration the runner and the modeler share. */
  datatype Args = Args(
    mode: string,
    batchSizePerGpu: int,
    numGpu: int,
    numClasses: int,
    dataFormat: string,
    summaryNames: seq<string>)

  /** The input source, through what its get_num_samples() reports. */
  datatype Inputter = Inputter(numSamples: int)

  /** The arguments the network function is called with. */
  datatype NetCall = NetCall(input: Op, numClasses: int, isTraining: bool, dataFormat: string)

  /** What the network returns: logits and a dict of prediction tensors. */
  datatype NetOutput = NetOutput(logits: Op, predictions: map<string, Op>)

  /** The outcome of model_fn: a named-op dict, nothing at all when the mode
      matches no branch, or the KeyError raised by a missing prediction. */
  datatype ModelFnResult = Outputs(ops: NamedOps) | NoOutputs | KeyError(key: string)

  predicate KnownMode(mode: string) {
    mode == "train" || mode == "eval" || mode == "infer"
  }

  /** The required keys of each mode, in the order model_fn builds them. */
  function RequiredKeys(mode: string): seq<string> {
    if mode == "train" then ["loss", "grads", "accuracy", "learning_rate"]
    else if mode == "eval" then ["loss", "accuracy"]
    else if mode == "infer" then ["classes", "probabilities"]
    else []
  }

  /** The prediction entries each mode reads, in the order it reads them. */
  function PredictionsRead(mode: string): seq<string> {
    if mode == "infer" then ["classes", "probabilities"]
    else if KnownMode(mode) then ["classes"]
    else []
  }

  class ImageClassificationModeler {
    const args: Args
    const net: NetCall -> NetOutput
    // Attributes provided by the base Modeler class.
    const callbacks: seq<Callback>
    const feedDictPre: FeedSource
    const feedDictSeq: FeedSource
    var globalStep: Op
    var learningRate: Op
    // Set by get_dataset_info.
    var numSamples: Option<int>

    constructor (args: Args, net: NetCall -> NetOutput, callbacks: seq<Callback>,
                 feedDictPre: FeedSource, feedDictSeq: FeedSource,
                 globalStep: Op, learningRate: Op)
      ensures this.args == args && this.net == net && this.callbacks == callbacks
      ensures this.feedDictPre == feedDictPre && this.feedDictSeq == feedDictSeq
      ensures this.globalStep == globalStep && this.learningRate == learningRate
      ensures numSamples == None
    {
      this.args := args;
      this.net := net;
      this.callbacks := callbacks;
      this.feedDictPre := feedDictPre;
      this.feedDictSeq := feedDictSeq;
      this.globalStep := globalStep;
      this.learningRate := learningRate;
      numSamples := None;
    }

    /** Records the number of samples the input source reports. */
    method GetDatasetInfo(inputter: Inputter)
      modifies this`numSamples
      ensures numSamples == Some(inputter.numSamples)
    {
      numSamples := Some(inputter.numSamples);
    }

    /** Creates the global step and the learning-rate schedule driven by it. */
    method CreateNonreplicatedFn()
      modifies this`globalStep, this`learningRate
      ensures globalStep == GlobalStep && learningRate == LearningRate(GlobalStep)
    {
      globalStep := GlobalStep;
      learningRate := LearningRate(globalStep);
    }

    /** The arguments create_graph_fn hands to the network. */
    function NetArguments(input: Op): (call: NetCall)
      ensures call.input == input && call.numClasses == args.numClasses
      ensures call.dataFormat == args.dataFormat
      ensures call.isTraining <==> args.mode == "train"
    {
      NetCall(input, args.numClasses, args.mode == "train", args.dataFormat)
    }

    function CreateGraphFn(input: Op): NetOutput {
      net(NetArguments(input))
    }

    /** model_fn: dispatch on the mode string over the images/labels pair. */
    function ModelFn(x: (Op, Op)): (r: ModelFnResult)
      reads this
      ensures r.NoOutputs? <==> !KnownMode(args.mode)
      ensures r.Outputs? ==> Names(r.ops) == RequiredKeys(args.mode)
      ensures r.KeyError? ==>
        r.key in PredictionsRead(args.mode) && r.key !in CreateGraphFn(x.0).predictions
      ensures KnownMode(args.mode) &&
        (forall k :: k in PredictionsRead(args.mode) ==> k in CreateGraphFn(x.0).predictions)
        ==> r.Outputs?
      ensures r.Outputs? ==>
        forall k :: k in PredictionsRead(args.mode) ==> k in CreateGraphFn(x.0).predictions
      ensures r.Outputs? && args.mode == "infer" ==>
        r.ops == [("classes", CreateGraphFn(x.0).predictions["classes"]),
                  ("probabilities", CreateGraphFn(x.0).predictions["probabilities"])]
      ensures r.Outputs? && args.mode == "train" ==>
        r.ops[1].1 == Gradients(r.ops[0].1) && r.ops[3].1 == learningRate
    {
      var images := x.0;
      var labels := x.1;
      var graph := CreateGraphFn(images);
      var predictions := graph.predictions;
      if args.mode == "train" then
        var loss := Loss(graph.logits, labels);
        var grads := Gradients(loss);
        if "classes" !in predictions then KeyError("classes")
        else
          var accuracy := Accuracy(predictions["classes"], labels);
          Outputs([("loss", loss), ("grads", grads), ("accuracy", accuracy),
                   ("learning_rate", learningRate)])
      else if args.mode == "eval" then
        var loss := Loss(graph.logits, labels);
        if "classes" !in predictions then KeyError("classes")
        else
          var accuracy := Accuracy(predictions["classes"], labels);
          Outputs([("loss", loss), ("accuracy", accuracy)])
      else if args.mode == "infer" then
        if "classes" !in predictions then KeyError("classes")
        else if "probabilities" !in predictions then KeyError("probabilities")
        else
          Outputs([("classes", predictions["classes"]),
                   ("probabilities", predictions["probabilities"])])
      else
        NoOutputs
    }
  }

  /** The network is built in training mode exactly when model_fn produces
      a gradient output. */
  lemma IsTrainingExactlyWithGrads(m: ImageClassificationModeler, x: (Op, Op))
    requires m.ModelFn(x).Outputs?
    ensures m.NetArguments(x.0).isTraining <==> "grads" in Names(m.ModelFn(x).ops)
  {
    var names := Names(m.ModelFn(x).ops);
    assert names == RequiredKeys(m.args.mode);
  }
}
