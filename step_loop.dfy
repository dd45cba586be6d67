/** The run loop as functions of the runner's state: the hook rounds, the
    outputs dict and progress line of after_step, one iteration, n
    iterations, and a whole run. Lemmas state the shape of the event log
    these produce: which calls happen, how often, and in which order. */
module StepLoop {
  import opened Engine
  import opened FeedDict

  /** The events of one hook round: the hook called on each callback in list order. */
  function Calls(hook: Hook, callbacks: seq<Callback>): (events: seq<Event>)
    ensures |events| == |callbacks|
  {
    if callbacks == [] then []
    else Calls(hook, callbacks[..|callbacks| - 1]) + [Call(hook, callbacks[|callbacks| - 1])]
  }

  lemma {:induction false} CallsAt(hook: Hook, callbacks: seq<Callback>, i: int)
    requires 0 <= i < |callbacks|
    ensures Calls(hook, callbacks)[i] == Call(hook, callbacks[i])
  {
    if i < |callbacks| - 1 {
      CallsAt(hook, callbacks[..|callbacks| - 1], i);
    }
  }

  /** The outputs dict of after_step: zip(names, outputs) written key by key. */
  function ZipDict(names: seq<string>, values: seq<Value>): map<string, Value>
    decreases |names|
  {
    var n := Min(|names|, |values|);
    if n == 0 then map[]
    else ZipDict(names[..n - 1], values[..n - 1])[names[n - 1] := values[n - 1]]
  }

  lemma {:induction false} ZipDictPrefix(names: seq<string>, values: seq<Value>)
    ensures ZipDict(names[..Min(|names|, |values|)], values[..Min(|names|, |values|)])
         == ZipDict(names, values)
  {
    var n := Min(|names|, |values|);
    if n > 0 {
      assert names[..n][..n - 1] == names[..n - 1];
      assert values[..n][..n - 1] == values[..n - 1];
    }
  }

  /** The keys of the outputs dict are the names that zip reaches. */
  lemma {:induction false} ZipDictKeys(names: seq<string>, values: seq<Value>, k: string)
    ensures k in ZipDict(names, values) <==> k in names[..Min(|names|, |values|)]
    decreases |names|
  {
    var n := Min(|names|, |values|);
    if n > 0 {
      ZipDictKeys(names[..n - 1], values[..n - 1], k);
      assert names[..n - 1][..n - 1] == names[..n - 1];
      assert names[..n] == names[..n - 1] + [names[n - 1]];
    }
  }

  /** The i-th name maps to the i-th output unless a later name repeats it. */
  lemma {:induction false} ZipDictAt(names: seq<string>, values: seq<Value>, i: int)
    requires 0 <= i < Min(|names|, |values|)
    requires forall j :: i < j < Min(|names|, |values|) ==> names[j] != names[i]
    ensures names[i] in ZipDict(names, values) && ZipDict(names, values)[names[i]] == values[i]
    decreases |names|
  {
    var n := Min(|names|, |values|);
    if i < n - 1 {
      ZipDictAt(names[..n - 1], values[..n - 1], i);
    }
  }

  /** With distinct names, outputs_dict[names[i]] == outputs[i] for every i
      up to the shorter of the two lists. */
  lemma ZipDictDistinct(names: seq<string>, values: seq<Value>)
    requires forall i, j :: 0 <= i < j < |names| ==> names[i] != names[j]
    ensures forall i :: 0 <= i < Min(|names|, |values|) ==>
      names[i] in ZipDict(names, values) && ZipDict(names, values)[names[i]] == values[i]
  {
    forall i | 0 <= i < Min(|names|, |values|)
      ensures names[i] in ZipDict(names, values) && ZipDict(names, values)[names[i]] == values[i]
    {
      ZipDictAt(names, values, i);
    }
  }

  /** The text one returned dict adds to the progress line: each value
      followed by a space, in the dict's order. */
  function Shown(display: seq<(string, string)>): string {
    if display == [] then ""
    else Shown(display[..|display| - 1]) + display[|display| - 1].1 + " "
  }

  /** A None or empty dict adds nothing. */
  function Displayed(display: Option<seq<(string, string)>>): string {
    if display.Some? && display.value != [] then Shown(display.value) else ""
  }

  lemma {:induction false} ShownAppend(d1: seq<(string, string)>, d2: seq<(string, string)>)
    ensures Shown(d1 + d2) == Shown(d1) + Shown(d2)
    decreases |d2|
  {
    if d2 == [] {
      assert d1 + d2 == d1;
    } else {
      var k := |d2| - 1;
      var d := d1 + d2;
      ShownAppend(d1, d2[..k]);
      assert d[..|d| - 1] == d1 + d2[..k];
      assert d[|d| - 1] == d2[k];
      calc {
        Shown(d);
        Shown(d1 + d2[..k]) + d2[k].1 + " ";
        Shown(d1) + Shown(d2[..k]) + d2[k].1 + " ";
        Shown(d1) + (Shown(d2[..k]) + d2[k].1 + " ");
      }
    }
  }

  /** The state one after_step round threads through the callbacks. */
  datatype Round = Round(feed: Feed, outputs: map<string, Value>, trace: seq<Event>, message: string)

  /** The callbacks' after_step calls in list order: each sees the log, the
      feed and the shared outputs dict as the previous one left them, and
      its returned dict extends the progress line, which starts as a
      carriage return. */
  function AfterStepRound(env: Env, callbacks: seq<Callback>, outputs: map<string, Value>,
                          feed: Feed, trace: seq<Event>): Round
  {
    if callbacks == [] then Round(feed, outputs, trace, "\r")
    else
      var prev := AfterStepRound(env, callbacks[..|callbacks| - 1], outputs, feed, trace);
      var callback := callbacks[|callbacks| - 1];
      var reply := env.afterStep(callback, prev.trace, prev.outputs, prev.feed);
      Round(reply.feed, reply.outputs, prev.trace + [Call(AfterStep, callback)],
            prev.message + Displayed(reply.display))
  }

  /** The round calls after_step once per callback in list order, and its
      progress line starts with a carriage return, so it is never empty. */
  lemma {:induction false} RoundShape(env: Env, callbacks: seq<Callback>, outputs: map<string, Value>,
                                      feed: Feed, trace: seq<Event>)
    ensures AfterStepRound(env, callbacks, outputs, feed, trace).trace == trace + Calls(AfterStep, callbacks)
    ensures |AfterStepRound(env, callbacks, outputs, feed, trace).message| > 0
    ensures AfterStepRound(env, callbacks, outputs, feed, trace).message[0] == '\r'
  {
    if callbacks != [] {
      RoundShape(env, callbacks[..|callbacks| - 1], outputs, feed, trace);
    }
  }

  /** When no callback changes the shared outputs dict in place, every one
      of them sees the zipped dict, and so does whatever follows the round. */
  lemma {:induction false} RoundKeepsOutputs(env: Env, callbacks: seq<Callback>, outputs: map<string, Value>,
                                             feed: Feed, trace: seq<Event>)
    requires forall cb, t, d, f :: env.afterStep(cb, t, d, f).outputs == d
    ensures AfterStepRound(env, callbacks, outputs, feed, trace).outputs == outputs
  {
    if callbacks != [] {
      RoundKeepsOutputs(env, callbacks[..|callbacks| - 1], outputs, feed, trace);
    }
  }

  /** The line after_step prints when it is non-empty. */
  function PrintedLine(message: string): seq<Event> {
    if |message| > 0 then [Progress(message)] else []
  }

  /** What one iteration of run changes: the feed mapping, self.outputs and the log. */
  datatype LoopState = LoopState(feed: Feed, outputs: Option<seq<Value>>, trace: seq<Event>)

  /** One iteration: before_step round, one engine run, after_step round. */
  function Step(env: Env, plan: RunOps, callbacks: seq<Callback>, s: LoopState): LoopState {
    var t1 := s.trace + Calls(BeforeStep, callbacks);
    var out := env.execute(t1, plan.ops, s.feed);
    var t2 := t1 + [Execute(plan.ops, s.feed)];
    var round := AfterStepRound(env, callbacks, ZipDict(plan.names, out), s.feed, t2);
    LoopState(round.feed, Some(out), round.trace + PrintedLine(round.message))
  }

  function Steps(env: Env, plan: RunOps, callbacks: seq<Callback>, s: LoopState, n: nat): LoopState {
    if n == 0 then s else Step(env, plan, callbacks, Steps(env, plan, callbacks, s, n - 1))
  }

  /** The local step counter run starts from: the persisted one in training, 0 otherwise. */
  function InitialStep(mode: string, persistedStep: int): int {
    if mode == "train" then persistedStep else 0
  }

  /** The number of loop iterations from start while the counter is below max. */
  function Iterations(start: int, maxStep: int): nat {
    if start < maxStep then maxStep - start else 0
  }

  /** A whole run after graph construction: before_run round, the initial
      feed pass, the loop, after_run round. */
  function RunState(env: Env, mode: string, plan: RunOps, callbacks: seq<Callback>,
                    pre: FeedSource, sequential: FeedSource, s: LoopState,
                    persistedStep: int, maxStep: int): LoopState
  {
    var started := LoopState(Prepared(s.feed, pre, sequential, env.eval), s.outputs,
                             s.trace + Calls(BeforeRun, callbacks));
    var looped := Steps(env, plan, callbacks, started, Iterations(InitialStep(mode, persistedStep), maxStep));
    LoopState(looped.feed, looped.outputs, looped.trace + Calls(AfterRun, callbacks))
  }

  /** The log with payloads erased: which hook on which callback, which ops
      executed, and where a line was printed. */
  datatype Mark = Called(hook: Hook, callback: Callback) | Executed(ops: seq<Op>) | Printed

  function MarkOf(e: Event): Mark {
    match e
    case Call(h, c) => Called(h, c)
    case Execute(ops, _) => Executed(ops)
    case Progress(_) => Printed
  }

  function Marks(trace: seq<Event>): (marks: seq<Mark>)
    ensures |marks| == |trace|
    ensures forall i :: 0 <= i < |trace| ==> marks[i] == MarkOf(trace[i])
  {
    seq(|trace|, i requires 0 <= i < |trace| => MarkOf(trace[i]))
  }

  lemma MarksAppend(a: seq<Event>, b: seq<Event>)
    ensures Marks(a + b) == Marks(a) + Marks(b)
  {
    assert forall i :: 0 <= i < |a + b| ==> Marks(a + b)[i] == (Marks(a) + Marks(b))[i];
  }

  /** The marks of one iteration. */
  function IterationMarks(ops: seq<Op>, callbacks: seq<Callback>): seq<Mark> {
    Marks(Calls(BeforeStep, callbacks)) + [Executed(ops)] + Marks(Calls(AfterStep, callbacks)) + [Printed]
  }

  function Repeat(block: seq<Mark>, n: nat): seq<Mark> {
    if n == 0 then [] else Repeat(block, n - 1) + block
  }

  /** One iteration's log: the before_step round, the execution, the
      after_step round and the progress line, appended in that order. */
  lemma StepTrace(env: Env, plan: RunOps, callbacks: seq<Callback>, s: LoopState)
    ensures exists message ::
      Step(env, plan, callbacks, s).trace == s.trace + Calls(BeforeStep, callbacks)
        + [Execute(plan.ops, s.feed)] + Calls(AfterStep, callbacks) + [Progress(message)]
  {
    var t1 := s.trace + Calls(BeforeStep, callbacks);
    var out := env.execute(t1, plan.ops, s.feed);
    var t2 := t1 + [Execute(plan.ops, s.feed)];
    var round := AfterStepRound(env, callbacks, ZipDict(plan.names, out), s.feed, t2);
    RoundShape(env, callbacks, ZipDict(plan.names, out), s.feed, t2);
    assert Step(env, plan, callbacks, s).trace == t2 + Calls(AfterStep, callbacks) + [Progress(round.message)];
  }

  lemma MarksSingle(e: Event)
    ensures Marks([e]) == [MarkOf(e)]
  {
    assert [e][..0] == [];
  }

  lemma IterationLogMarks(a: seq<Event>, ops: seq<Op>, feed: Feed, callbacks: seq<Callback>, message: string)
    ensures Marks(a + Calls(BeforeStep, callbacks) + [Execute(ops, feed)] + Calls(AfterStep, callbacks)
                  + [Progress(message)])
         == Marks(a) + IterationMarks(ops, callbacks)
  {
    var b, d := Calls(BeforeStep, callbacks), Calls(AfterStep, callbacks);
    var c, e := [Execute(ops, feed)], [Progress(message)];
    MarksAppend(a, b);
    MarksAppend(a + b, c);
    MarksAppend(a + b + c, d);
    MarksAppend(a + b + c + d, e);
    MarksSingle(Execute(ops, feed));
    MarksSingle(Progress(message));
    calc {
      Marks(a + b + c + d + e);
      Marks(a) + Marks(b) + Marks(c) + Marks(d) + Marks(e);
      Marks(a) + Marks(b) + [Executed(ops)] + Marks(d) + [Printed];
      Marks(a) + (Marks(b) + [Executed(ops)] + Marks(d) + [Printed]);
    }
  }

  /** One iteration logs: before_step on every callback, one execution,
      after_step on every callback, and one printed progress line. */
  lemma StepMarks(env: Env, plan: RunOps, callbacks: seq<Callback>, s: LoopState)
    ensures Marks(Step(env, plan, callbacks, s).trace) == Marks(s.trace) + IterationMarks(plan.ops, callbacks)
  {
    StepTrace(env, plan, callbacks, s);
    var message :| Step(env, plan, callbacks, s).trace == s.trace + Calls(BeforeStep, callbacks)
        + [Execute(plan.ops, s.feed)] + Calls(AfterStep, callbacks) + [Progress(message)];
    IterationLogMarks(s.trace, plan.ops, s.feed, callbacks, message);
  }

  lemma {:induction false} StepsMarks(env: Env, plan: RunOps, callbacks: seq<Callback>, s: LoopState, n: nat)
    ensures Marks(Steps(env, plan, callbacks, s, n).trace)
         == Marks(s.trace) + Repeat(IterationMarks(plan.ops, callbacks), n)
  {
    if n > 0 {
      var prev := Steps(env, plan, callbacks, s, n - 1);
      StepsMarks(env, plan, callbacks, s, n - 1);
      StepMarks(env, plan, callbacks, prev);
      var block := IterationMarks(plan.ops, callbacks);
      assert Marks(s.trace) + Repeat(block, n - 1) + block == Marks(s.trace) + (Repeat(block, n - 1) + block);
    }
  }

  /** The order of a whole run: one before_run round, then exactly
      max(0, max_step - start) iterations, then one after_run round. */
  lemma RunMarks(env: Env, mode: string, plan: RunOps, callbacks: seq<Callback>,
                 pre: FeedSource, sequential: FeedSource, s: LoopState,
                 persistedStep: int, maxStep: int)
    ensures Marks(RunState(env, mode, plan, callbacks, pre, sequential, s, persistedStep, maxStep).trace)
         == Marks(s.trace) + Marks(Calls(BeforeRun, callbacks))
            + Repeat(IterationMarks(plan.ops, callbacks), Iterations(InitialStep(mode, persistedStep), maxStep))
            + Marks(Calls(AfterRun, callbacks))
  {
    var started := LoopState(Prepared(s.feed, pre, sequential, env.eval), s.outputs,
                             s.trace + Calls(BeforeRun, callbacks));
    var n := Iterations(InitialStep(mode, persistedStep), maxStep);
    var looped := Steps(env, plan, callbacks, started, n);
    StepsMarks(env, plan, callbacks, started, n);
    MarksAppend(s.trace, Calls(BeforeRun, callbacks));
    MarksAppend(looped.trace, Calls(AfterRun, callbacks));
  }

  /** A hook round holds each callback as many times as the list does, and
      no other mark. */
  lemma {:induction false} CallsCount(hook: Hook, callbacks: seq<Callback>, m: Mark)
    ensures multiset(Marks(Calls(hook, callbacks)))[m] ==
      if m.Called? && m.hook == hook then multiset(callbacks)[m.callback] else 0
  {
    if callbacks != [] {
      var k := |callbacks| - 1;
      var init, last := callbacks[..k], callbacks[k];
      CallsCount(hook, init, m);
      MarksAppend(Calls(hook, init), [Call(hook, last)]);
      MarksSingle(Call(hook, last));
      assert callbacks == init + [last];
      assert multiset(callbacks) == multiset(init) + multiset{last};
    }
  }

  lemma {:induction false} RepeatCount(block: seq<Mark>, n: nat, m: Mark)
    ensures multiset(Repeat(block, n))[m] == n * multiset(block)[m]
  {
    if n > 0 {
      RepeatCount(block, n - 1, m);
      assert n * multiset(block)[m] == (n - 1) * multiset(block)[m] + multiset(block)[m];
    }
  }

  /** How many marks m a hook round adds. */
  function CallsOf(hook: Hook, callbacks: seq<Callback>, m: Mark): nat {
    if m.Called? && m.hook == hook then multiset(callbacks)[m.callback] else 0
  }

  /** An iteration holds each of its before_step and after_step calls, one
      execution and one printed line. */
  lemma IterationCount(ops: seq<Op>, callbacks: seq<Callback>, m: Mark)
    ensures multiset(IterationMarks(ops, callbacks))[m] ==
      CallsOf(BeforeStep, callbacks, m) + (if m == Executed(ops) then 1 else 0)
      + CallsOf(AfterStep, callbacks, m) + (if m == Printed then 1 else 0)
  {
    CallsCount(BeforeStep, callbacks, m);
    CallsCount(AfterStep, callbacks, m);
  }

  /** The count of a mark in the four parts of a run's log, taken together,
      is the sum of its counts in each part. */
  lemma CountOverConcatenation(before: seq<Mark>, opening: seq<Mark>, loop: seq<Mark>, closing: seq<Mark>, m: Mark)
    ensures multiset(before + opening + loop + closing)[m]
         == multiset(before)[m] + multiset(opening)[m] + multiset(loop)[m] + multiset(closing)[m]
  {
  }

  /** How often a run logs each mark: before_run and after_run once per
      callback entry, and per iteration one before_step and after_step per
      callback entry, one execution of the run ops and one printed line. */
  lemma RunCounts(env: Env, mode: string, plan: RunOps, callbacks: seq<Callback>,
                  pre: FeedSource, sequential: FeedSource, s: LoopState,
                  persistedStep: int, maxStep: int, m: Mark)
    ensures multiset(Marks(RunState(env, mode, plan, callbacks, pre, sequential, s,
                                    persistedStep, maxStep).trace))[m]
         == multiset(Marks(s.trace))[m] + CallsOf(BeforeRun, callbacks, m)
            + Iterations(InitialStep(mode, persistedStep), maxStep) *
                (CallsOf(BeforeStep, callbacks, m) + (if m == Executed(plan.ops) then 1 else 0)
                 + CallsOf(AfterStep, callbacks, m) + (if m == Printed then 1 else 0))
            + CallsOf(AfterRun, callbacks, m)
  {
    var n := Iterations(InitialStep(mode, persistedStep), maxStep);
    var block := IterationMarks(plan.ops, callbacks);
    RunMarks(env, mode, plan, callbacks, pre, sequential, s, persistedStep, maxStep);
    CountOverConcatenation(Marks(s.trace), Marks(Calls(BeforeRun, callbacks)), Repeat(block, n),
                           Marks(Calls(AfterRun, callbacks)), m);
    CallsCount(BeforeRun, callbacks, m);
    CallsCount(AfterRun, callbacks, m);
    RepeatCount(block, n, m);
    IterationCount(plan.ops, callbacks, m);
  }

  /** One iteration with a single callback whose after_step leaves the feed
      and the outputs dict alone and returns {"loss": "0.5"}. */
  lemma OneCallbackStep(env: Env, plan: RunOps, c: Callback, s: LoopState)
    requires forall cb, t, d, f :: env.afterStep(cb, t, d, f) == Reply(f, d, Some([("loss", "0.5")]))
    ensures Step(env, plan, [c], s).feed == s.feed
    ensures Step(env, plan, [c], s).trace
         == s.trace + [Call(BeforeStep, c), Execute(plan.ops, s.feed), Call(AfterStep, c), Progress("\r0.5 ")]
  {
    assert [c][..0] == [];
    assert Calls(BeforeStep, [c]) == [Call(BeforeStep, c)];
    var display := [("loss", "0.5")];
    assert display[..0] == [];
    assert Shown(display) == "0.5 ";
    var t2 := s.trace + [Call(BeforeStep, c)] + [Execute(plan.ops, s.feed)];
    var out := env.execute(s.trace + [Call(BeforeStep, c)], plan.ops, s.feed);
    var outputs := ZipDict(plan.names, out);
    assert AfterStepRound(env, [], outputs, s.feed, t2) == Round(s.feed, outputs, t2, "\r");
    assert env.afterStep(c, t2, outputs, s.feed) == Reply(s.feed, outputs, Some(display));
    assert Displayed(Some(display)) == "0.5 ";
    assert "\r" + "0.5 " == "\r0.5 ";
    assert AfterStepRound(env, [c], outputs, s.feed, t2)
        == Round(s.feed, outputs, t2 + [Call(AfterStep, c)], "\r0.5 ");
  }

  /** The training scenario: start at step 0, stop at 3, one callback that
      reports the loss "0.5". The run executes exactly three times, prints
      "\r0.5 " after each execution and calls after_run once, after the third. */
  lemma ThreeStepTrainingRun(env: Env, plan: RunOps, c: Callback, pre: FeedSource,
                             sequential: FeedSource, s: LoopState)
    requires forall cb, t, d, f :: env.afterStep(cb, t, d, f) == Reply(f, d, Some([("loss", "0.5")]))
    ensures var feed := Prepared(s.feed, pre, sequential, env.eval);
      var iteration := [Call(BeforeStep, c), Execute(plan.ops, feed), Call(AfterStep, c), Progress("\r0.5 ")];
      RunState(env, "train", plan, [c], pre, sequential, s, 0, 3).trace
        == s.trace + [Call(BeforeRun, c)] + iteration + iteration + iteration + [Call(AfterRun, c)]
  {
    var feed := Prepared(s.feed, pre, sequential, env.eval);
    assert [c][..0] == [];
    assert Calls(BeforeRun, [c]) == [Call(BeforeRun, c)];
    assert Calls(AfterRun, [c]) == [Call(AfterRun, c)];
    var started := LoopState(feed, s.outputs, s.trace + [Call(BeforeRun, c)]);
    assert Iterations(InitialStep("train", 0), 3) == 3;
    var s1 := Steps(env, plan, [c], started, 1);
    var s2 := Steps(env, plan, [c], started, 2);
    var s3 := Steps(env, plan, [c], started, 3);
    assert Steps(env, plan, [c], started, 0) == started;
    OneCallbackStep(env, plan, c, started);
    assert s1 == Step(env, plan, [c], started);
    OneCallbackStep(env, plan, c, s1);
    assert s2 == Step(env, plan, [c], s1);
    OneCallbackStep(env, plan, c, s2);
    assert s3 == Step(env, plan, [c], s2);
  }
}
