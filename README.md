# Training-loop orchestrator, modelled in Dafny

This project models the core of an iterative train/eval/infer orchestrator
built on a computational-graph engine. It is based on `source/runner/runner.py`
(the `Runner`) and on the mode contract of
`source/modeler/image_classification_modeler.py`.

- **`ImageClassificationModeler`** says which named outputs `model_fn`
  produces in each mode. It also says whether the network is built in
  training mode, and which dataset and schedule fields the modeler sets.
- **`OpsCollection`** models `collect_ops` and `collect_summary`. They turn
  the named outputs into two parallel run lists. The `"grads"` output
  becomes an optimizer-apply op grouped with the update ops. In training
  mode a merged `"summary"` entry is appended, built from the scalars of
  the allow-listed names.
- **`FeedDict`** models `prepare_feed_dict`. It folds the pre-computed and
  the sequential feed sources into the runner's feed mapping, evaluating
  the tensor entries.
- **`StepLoop`** describes a run as pure functions of the runner's state:
  the hook rounds, the outputs dict and progress line of `after_step`, one
  iteration, and the whole run. Lemmas on these functions state, over the
  event log, how often and in which order each callback hook, each engine
  execution and each printed line happens.
- **`Runner`** is the `Runner` class. It has the fields the source updates
  (`feed_dict`, `outputs`, `run_ops`, `run_ops_names`) and an event log
  `trace`. Each method follows the source's loops and is proved to leave
  exactly the state the matching `StepLoop`, `FeedDict` or `OpsCollection`
  function describes.
- **`Engine`** holds the shared data model.
  - Graph operations are terms that record only what built them.
  - Engine values are compared by equality alone.
  - The engine and the callbacks are an `Env` of functions.
  - The results of `execute` and `afterStep` may depend on the whole event
    history, which stands for their hidden state.
  - `eval` depends on the op alone.

The step counter starts differently by mode (runner.py:149-153):

- Outside "train" it is the Python integer 0.
- In "train" it is the engine's global step.
- `max_step` is whatever `max_step_op` evaluates to; `max_step_op` is not
  part of this model.

The counter is incremented only while it is strictly below `max_step`
(runner.py:155, 163), so it never passes `max_step`. Even a 64-bit counter
therefore never wraps, and the model's unbounded `int` agrees with the
source in every mode.

Where the intended design and the code differ, the model follows the code:

- A key present in both feed sources is not rejected. The
  `feed_dict_seq` entry simply wins, because it is written second.
- `model_fn` never checks the key set. For a mode outside
  train/eval/infer it falls through and returns nothing (`NoOutputs`). A
  missing prediction entry raises a `KeyError` (`KeyError(key)`).
- The progress line is checked for being non-empty before it is printed.
  It always starts with `"\r"`, so it is printed after every step.

## Model

| member | source | states |
|---|---|---|
| `ImageClassificationModeler.ImageClassificationModeler.GetDatasetInfo` | source/modeler/image_classification_modeler.py:16-17 | `num_samples` becomes what the inputter reports; the frame allows no other field to change |
| `ImageClassificationModeler.ImageClassificationModeler.CreateNonreplicatedFn` | source/modeler/image_classification_modeler.py:19-21 | the global step is created and the learning rate becomes the schedule driven by it |
| `ImageClassificationModeler.ImageClassificationModeler.NetArguments` | source/modeler/image_classification_modeler.py:23-26 | the network receives the input, `num_classes` and `data_format`, and `is_training` is true exactly in mode "train" |
| `ImageClassificationModeler.ImageClassificationModeler.ModelFn` | source/modeler/image_classification_modeler.py:48-70 | an unknown mode yields nothing, and only it does; outputs have exactly the mode's keys in order (train: loss, grads, accuracy, learning_rate; eval: loss, accuracy; infer: classes, probabilities); infer outputs are the two prediction entries; train's grads are the gradients of its loss and its learning_rate is the modeler's; a KeyError names a prediction entry the mode reads that the network did not return, and with every such entry present the outputs exist |
| `ImageClassificationModeler.IsTrainingExactlyWithGrads` | source/modeler/image_classification_modeler.py:24-61 | the network is built in training mode exactly when model_fn's outputs contain "grads" |
| `OpsCollection.ScalarsMember` | source/runner/runner.py:100-103 | a scalar summary is registered exactly for a pair of zip(names, ops) whose name is allow-listed |
| `OpsCollection.ScalarsAppend` | source/runner/runner.py:101-103 | registration follows list order: the summaries of a concatenation are those of the first part followed by those of the second |
| `OpsCollection.ScalarsNoneAllowed` | source/runner/runner.py:100-104 | with an empty allow-list nothing is registered |
| `OpsCollection.CollectedShape` | source/runner/runner.py:106-121 | the lists have equal length, the number of keys plus 1 in "train" and plus 0 otherwise; each key keeps its position; every op but the "grads" one is unchanged; the "grads" op becomes the apply-gradients op against the global step grouped with the update ops |
| `OpsCollection.CollectedSummary` | source/runner/runner.py:122-125 | in "train" the last name is "summary" and its op merges the summaries already in the graph plus those registered for the allow-listed entries before the append; in any other mode nothing is appended |
| `FeedDict.LookupFound` | source/runner/runner.py:85-93 | a feed source holds an entry for a key exactly when some pair has that key |
| `FeedDict.LookupDistinct` | source/runner/runner.py:85-93 | in a source with distinct keys, the entry found for a pair's key is that pair's value |
| `FeedDict.FoldedAt` | source/runner/runner.py:85-90 | one pass: a key is present after it when it was before or the source holds it; the source's entry is evaluated if it is a tensor and copied otherwise; any other key keeps its value |
| `FeedDict.PreparedAt` | source/runner/runner.py:82-98 | every key of either source is present; the sequential entry wins on a shared key; otherwise the pre-computed entry holds; a key in neither source keeps its earlier value |
| `FeedDict.PreparedIdempotent` | source/runner/runner.py:82-98 | running the initial feed pass again with the same engine leaves the mapping unchanged |
| `StepLoop.CallsAt` | source/runner/runner.py:51-57 | a hook round calls the hook once per callback, in list order |
| `StepLoop.ZipDictKeys` | source/runner/runner.py:61-63 | the outputs dict's keys are the names zip reaches, up to the shorter list |
| `StepLoop.ZipDictAt` | source/runner/runner.py:61-63 | `outputs_dict[names[i]] == outputs[i]` unless a later name within the shorter list repeats `names[i]` |
| `StepLoop.ZipDictDistinct` | source/runner/runner.py:61-63 | with distinct names, `outputs_dict[names[i]] == outputs[i]` for every i up to the shorter list |
| `StepLoop.ShownAppend` | source/runner/runner.py:71-72 | the text a returned dict adds is each value followed by a space, in dict order, so it splits over a concatenation |
| `StepLoop.RoundKeepsOutputs` | source/runner/runner.py:61-69 | when no callback changes the shared outputs dict in place, the round ends with the zipped dict it started with |
| `StepLoop.RoundShape` | source/runner/runner.py:65-76 | an after_step round calls every callback once, in list order, and its progress line starts with "\r", so it is never empty and is always printed |
| `StepLoop.StepTrace` | source/runner/runner.py:155-163 | one iteration logs the before_step round, one execution of the run ops with the current feed, the after_step round and one progress line, in that order |
| `StepLoop.StepMarks` | source/runner/runner.py:155-163 | the same order, stated on the log with payloads erased |
| `StepLoop.StepsMarks` | source/runner/runner.py:155-163 | n iterations log n such blocks, one after another |
| `StepLoop.RunMarks` | source/runner/runner.py:145-165 | a run logs the before_run round, then exactly max(0, max_step − start) iterations, then the after_run round; start is the persisted step in "train" and 0 otherwise |
| `StepLoop.CallsCount` | source/runner/runner.py:51-57 | a hook round logs each callback as often as the list holds it, and nothing else |
| `StepLoop.RepeatCount` | source/runner/runner.py:155-163 | n repeated blocks hold every mark n times as often as one block |
| `StepLoop.IterationCount` | source/runner/runner.py:155-163 | an iteration holds one before_step and one after_step call per callback entry, one execution and one printed line |
| `StepLoop.RunCounts` | source/runner/runner.py:145-165 | a run adds before_run and after_run calls once per callback entry, before_step and after_step once per entry and iteration, and one execution and one printed line per iteration |
| `StepLoop.OneCallbackStep` | source/runner/runner.py:155-163 | with one callback that returns {"loss": "0.5"} and leaves the feed alone, an iteration logs exactly before_step, the execution, after_step and the line "\r0.5 ", and keeps the feed |
| `StepLoop.ThreeStepTrainingRun` | source/runner/runner.py:139-165 | training from step 0 to 3 with that callback: exactly three executions, each followed by the line "\r0.5 ", and one after_run call after the third |
| `Runner.ZipOutputs` | source/runner/runner.py:61-63 | the loop builds exactly the zipped outputs dict |
| `Runner.AppendDisplay` | source/runner/runner.py:71-72 | the loop appends each returned value and a space, in order |
| `Runner.Runner.constructor` | source/runner/runner.py:14-32 | the modeler records the inputter's sample count; batch_size is batch_size_per_gpu × num_gpu; the feed, outputs, run lists and log start empty |
| `Runner.Runner.Notify` | source/runner/runner.py:51-57 | one hook round appends the hook's call on each callback, in list order |
| `Runner.Runner.BeforeRun` | source/runner/runner.py:51-53 | before_run called on every callback, in list order |
| `Runner.Runner.BeforeStep` | source/runner/runner.py:55-57 | before_step called on every callback, in list order |
| `Runner.Runner.AfterRun` | source/runner/runner.py:78-80 | after_run called on every callback, in list order |
| `Runner.Runner.AfterStep` | source/runner/runner.py:59-76 | the new feed and log are those of the after_step round over the zipped outputs, followed by the printed line; every callback gets the one outputs dict as the earlier callbacks left it |
| `Runner.Runner.PrepareFeedDict` | source/runner/runner.py:82-98 | the feed mapping becomes the pre-computed source folded in, then the sequential one |
| `Runner.Runner.CollectSummary` | source/runner/runner.py:100-104 | the graph gains the allow-listed scalars in order, and the result merges all of the graph's summaries |
| `Runner.Runner.CollectOps` | source/runner/runner.py:106-127 | returns the two lists that `Collected` describes; the graph gains scalar summaries only in "train" |
| `Runner.Runner.RunStep` | source/runner/runner.py:155-163 | one loop iteration leaves the feed, outputs and log that `Step` describes: before_step round, one execution of the run lists with the current feed, after_step round with its printed line |
| `Runner.Runner.Run` | source/runner/runner.py:139-165 | the run lists are installed and the feed, outputs and log become those `RunState` describes: the counted loop from the mode's start step while below max_step |
| `Runner.CollectedNamesFollowMode` | source/runner/runner.py:106-127 | for model_fn's outputs, the run names are the mode's required keys, with "summary" appended only in "train" |
| `Runner.ModelRunOutputsDict` | source/runner/runner.py:61-63 | the run names of every mode are distinct, so after_step's outputs dict maps each of them to the output at its position |

## Left out

- `create_session_config` (runner.py:34-49) only builds library configuration objects from constants.
- `print_trainable_variables` and `print_global_variables` are console output over library collections.
- Printing and `sys.stdout.flush` are console output. The model records only the message, as a `Progress` event.
- The `tf.Session` context manager and its release are left out: session lifetime belongs to the library. So are the `sess`, `saver` and `summary_writer` handles passed to callbacks.
- `source/app.py` is left out: it resets the default graph and delegates to `run`.
- The numerics of the modeler are left out: cross-entropy, L2 regularisation, accuracy and argmax. `Loss`, `Gradients` and `Accuracy` are opaque op constructors.
- `gether_train_vars` and `l2_regularization` are not shown, and neither are their side effects.
- The internals of `apply_gradients`, `tf.group`, `get_collection`, `tf.summary.scalar` and `merge_all` are left out. They are opaque op constructors over an explicit `Graph` object.
  - Errors these raise while the graph is built are not modelled.
  - For example, if `"grads"` is allow-listed, `tf.summary.scalar` receives the grouped apply op. It rejects that op, because it is not a tensor. The model registers `ScalarSummary("grads", Group(...))` instead.
  - `MergeAll([])` stands for what `merge_all` returns when nothing is registered.
  - In the library that is `None`, which the engine would then refuse to run. This is not modelled.
- `create_graph`, `global_step_op` and `max_step_op` are not shown. `Runner.Runner.Run` takes as parameters:
  - the run lists that `create_graph` leaves behind;
  - the values the two step ops evaluate to.
- The base `Modeler` class is not shown. The modeler's constructor takes the attributes it supplies as parameters: `callbacks`, `feed_dict_pre`, `feed_dict_seq`, `global_step`, `learning_rate` and the network.
- `create_grad_fn` and `create_learning_rate_fn` are not shown. They are the opaque constructors `Gradients` and `LearningRate`.
- Exceptions raised by the engine or by a callback abort the run in the source. The model has no failure path for them: `Env` functions are total.
- `Runner.Runner.PrepareFeedDict`: evaluating a tensor entry is a function of the op alone. It does not depend on the engine's state or on earlier evaluations, and it is not recorded in the log.
- `Runner.Runner.AfterStep`: `before_run`, `before_step` and `after_run` are logged but have no other effect. A callback's `after_step` may change the feed mapping and the shared outputs dict. Its effect on the callback's own state shows only through the log it is given.
- Python dicts (the named outputs of `model_fn`, a callback's returned dict, the feed sources) are taken to iterate in insertion order. That holds from Python 3.7 on. Under Python 2, which the code's `__future__` import still allows, `for key in ops` (runner.py:111) and `for key in return_dict` (runner.py:71) follow hash order. The key orders stated for `ModelFn` and `CollectedNamesFollowMode` then do not hold.
- The feed mapping is keyed by graph ops (placeholders). Python's `isinstance(value, tf.Tensor)` is the `Pending`/`Ready` tag of a feed entry.
