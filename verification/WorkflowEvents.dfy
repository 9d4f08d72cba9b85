/** The executor's event stream, the frontend's events, and the executor as the producer
    of the stream: it tallies a run aggregate while it emits. */
module WorkflowEvents {
  import opened Wrappers
  import opened Outcomes

  datatype StepOutcome = StepSucceeded | StepFailed | StepSkipped | StepCancelled

  function OutcomeLabel(outcome: StepOutcome): string {
    match outcome
    case StepSucceeded => "success"
    case StepFailed => "failed"
    case StepSkipped => "skipped"
    case StepCancelled => "cancelled"
  }

  datatype OperationReference = OperationReference(service: string, operation: string)

  /** Either an API operation, a local action, or (by compile-time error) neither. */
  datatype CompiledStep = CompiledStep(operation: Option<OperationReference>, action: Option<string>)

  /** The facts of a run that no step event carries. */
  datatype RunContext = RunContext(
    runMode: Option<string>,
    durationMs: nat,
    inputsFromFlag: nat,
    inputsFromPrompt: nat,
    inputsFromDefault: nat,
    inputsEditedInForm: nat)

  const NO_CONTEXT := RunContext(None, 0, 0, 0, 0, 0)

  datatype RunFacts = RunFacts(
    reason: Option<string>,
    started: nat,
    succeeded: nat,
    failed: nat,
    skipped: nat,
    cancelled: nat,
    lastStep: Option<nat>,
    context: RunContext)

  const NO_FACTS := RunFacts(None, 0, 0, 0, 0, 0, None, NO_CONTEXT)

  datatype StepErrorFacts = StepErrorFacts(
    errorClass: string,
    httpStatus: Option<int>,
    code: Option<string>,
    inputFields: seq<string>)

  /** What a finished step reports beside its outcome and reason. */
  datatype StepDetail = StepDetail(
    captures: seq<(string, string)>,
    attempts: nat,
    durationMs: nat,
    error: Option<StepErrorFacts>)

  datatype WorkflowEvent =
    | WorkflowStarted(name: string, steps: seq<CompiledStep>)
    | StepStarted(index: nat, id: string)
    | StepFinished(index: nat, id: string, summary: string, outcome: StepOutcome, reason: Option<string>,
                   detail: StepDetail)
    | WorkflowFinished(facts: RunFacts)
    | Progress(stepIndex: Option<nat>, signal: string)

  datatype FrontendEvent =
    | RunStarted(banner: Option<string>)
    | StepBegan(index: nat, id: string)
    | StepEnded(index: nat, summary: string, captures: seq<(string, string)>, outcome: StepOutcome)
    | RunProgress(stepIndex: Option<nat>, signal: string)
    | RunFinished(runOutcome: RunOutcome)

  /* ---- The producer. ---- */

  /** What one iteration of the step loop does between its two events. `finished` is `None`
      when an error escapes the executor before the step's final event. */
  datatype StepRun = StepRun(
    id: string,
    summary: string,
    signals: seq<string>,
    finished: Option<(StepOutcome, Option<string>, StepDetail)>)

  /** One `Executor::execute` call. `Rejected` is the `--no-input` precheck, before any event;
      `stopped` a briefing or gather that ended the run before its first step. */
  datatype Script =
    | Rejected
    | Ran(name: string, steps: seq<CompiledStep>, stopped: Option<Option<string>>, runs: seq<StepRun>,
          context: RunContext)

  function Tally(facts: RunFacts, outcome: StepOutcome): RunFacts {
    match outcome
    case StepSucceeded => facts.(succeeded := facts.succeeded + 1)
    case StepFailed => facts.(failed := facts.failed + 1)
    case StepSkipped => facts.(skipped := facts.skipped + 1)
    case StepCancelled => facts.(cancelled := facts.cancelled + 1)
  }

  function Signals(index: nat, signals: seq<string>): seq<WorkflowEvent> {
    if signals == [] then [] else [Progress(Some(index), signals[0])] + Signals(index, signals[1..])
  }

  /** Events and aggregate of the step loop from step `index` on; `None` when it escaped. */
  function StepLoop(runs: seq<StepRun>, index: nat, facts: RunFacts): (seq<WorkflowEvent>, Option<RunFacts>)
    decreases |runs|
  {
    if runs == [] then ([], Some(facts)) else
    var run := runs[0];
    var begun := facts.(started := facts.started + 1, lastStep := Some(index));
    var opening := [StepStarted(index, run.id)] + Signals(index, run.signals);
    match run.finished
    case None => (opening, None)
    case Some((outcome, reason, detail)) =>
      var closed := opening + [StepFinished(index, run.id, run.summary, outcome, reason, detail)];
      var tallied := Tally(begun, outcome);
      if outcome.StepFailed? || outcome.StepCancelled? then (closed, Some(tallied))
      else
        var (rest, end) := StepLoop(runs[1..], index + 1, tallied);
        (closed + rest, end)
  }

  /** Every event of one call, in order. */
  function Produce(script: Script): seq<WorkflowEvent> {
    match script
    case Rejected => []
    case Ran(name, steps, Some(reason), _, context) =>
      [WorkflowStarted(name, steps), WorkflowFinished(NO_FACTS.(reason := reason, context := context))]
    case Ran(name, steps, None, runs, context) =>
      var (events, end) := StepLoop(runs, 0, NO_FACTS);
      [WorkflowStarted(name, steps)] + events
      + (if end.Some? then [WorkflowFinished(end.value.(context := context))] else [])
  }

  /** An error left the executor from inside a step, so the aggregate was never emitted. */
  predicate Escaped(script: Script) {
    script.Ran? && script.stopped.None? && StepLoop(script.runs, 0, NO_FACTS).1.None?
  }

  /* ---- Counting. ---- */

  function CountStarted(events: seq<WorkflowEvent>): nat {
    if events == [] then 0 else (if events[0].StepStarted? then 1 else 0) + CountStarted(events[1..])
  }

  function CountOutcome(events: seq<WorkflowEvent>, outcome: StepOutcome): nat {
    if events == [] then 0
    else (if events[0].StepFinished? && events[0].outcome == outcome then 1 else 0) + CountOutcome(events[1..], outcome)
  }

  lemma {:induction false} CountConcat(a: seq<WorkflowEvent>, b: seq<WorkflowEvent>, outcome: StepOutcome)
    ensures CountStarted(a + b) == CountStarted(a) + CountStarted(b)
    ensures CountOutcome(a + b, outcome) == CountOutcome(a, outcome) + CountOutcome(b, outcome)
  {
    if a == [] {
      assert a + b == b;
    } else {
      assert (a + b)[1..] == a[1..] + b;
      CountConcat(a[1..], b, outcome);
    }
  }

  /** The aggregate's count for one outcome. */
  function Counted(facts: RunFacts, outcome: StepOutcome): nat {
    match outcome
    case StepSucceeded => facts.succeeded
    case StepFailed => facts.failed
    case StepSkipped => facts.skipped
    case StepCancelled => facts.cancelled
  }

  lemma {:induction false} SignalsCountNothing(index: nat, signals: seq<string>, outcome: StepOutcome)
    ensures CountStarted(Signals(index, signals)) == 0 && CountOutcome(Signals(index, signals), outcome) == 0
  {
    if signals != [] {
      var rest := Signals(index, signals[1..]);
      SignalsCountNothing(index, signals[1..], outcome);
      CountConcat([Progress(Some(index), signals[0])], rest, outcome);
    }
  }

  /** The loop's aggregate grows by exactly the step events it emits. */
  lemma {:induction false} StepLoopCounts(runs: seq<StepRun>, index: nat, facts: RunFacts, outcome: StepOutcome)
    ensures var (events, end) := StepLoop(runs, index, facts);
            && (end.Some? ==>
                  && end.value.started == facts.started + CountStarted(events)
                  && Counted(end.value, outcome) == Counted(facts, outcome) + CountOutcome(events, outcome)
                  && end.value.reason == facts.reason)
            && (end.None? ==> CountStarted(events) > 0)
    decreases |runs|
  {
    if runs != [] {
      hide Signals;
      var run := runs[0];
      var started, signals := [StepStarted(index, run.id)], Signals(index, run.signals);
      var begun := facts.(started := facts.started + 1, lastStep := Some(index));
      SignalsCountNothing(index, run.signals, outcome);
      CountConcat(started, signals, outcome);
      assert CountStarted(started) == 1 && CountOutcome(started, outcome) == 0;
      if run.finished.Some? {
        var (final, reason, detail) := run.finished.value;
        var finish := [StepFinished(index, run.id, run.summary, final, reason, detail)];
        assert CountStarted(finish) == 0 && CountOutcome(finish, outcome) == if final == outcome then 1 else 0;
        CountConcat(started + signals, finish, outcome);
        if !final.StepFailed? && !final.StepCancelled? {
          StepLoopCounts(runs[1..], index + 1, Tally(begun, final), outcome);
          CountConcat(started + signals + finish, StepLoop(runs[1..], index + 1, Tally(begun, final)).0, outcome);
        }
      }
    }
  }

  /** Every started step ends with exactly one outcome, unless an error escaped. */
  lemma {:induction false} StepLoopBalances(runs: seq<StepRun>, index: nat, facts: RunFacts)
    requires facts.started == facts.succeeded + facts.failed + facts.skipped + facts.cancelled
    ensures var end := StepLoop(runs, index, facts).1;
            end.Some? ==>
              end.value.started == end.value.succeeded + end.value.failed + end.value.skipped + end.value.cancelled
    decreases |runs|
  {
    if runs != [] && runs[0].finished.Some? {
      var outcome := runs[0].finished.value.0;
      if !outcome.StepFailed? && !outcome.StepCancelled? {
        StepLoopBalances(runs[1..], index + 1,
                         Tally(facts.(started := facts.started + 1, lastStep := Some(index)), outcome));
      }
    }
  }
}
