/** The run's telemetry: what the queued captures say about the steps that really ran, for
    every stream the executor can produce. */
module RunAccounting {
  import opened Wrappers
  import opened Outcomes
  import opened WorkflowEvents
  import opened ExecutionAdapter
  import opened RunLifecycle

  /** Captures announcing a started step. */
  function StartsCaptured(captures: seq<Capture>): nat {
    if captures == [] then 0 else
    StartsCaptured(captures[..|captures| - 1]) + (if captures[|captures| - 1].StepStartedCapture? then 1 else 0)
  }

  /** Captures announcing a step that ended with `outcome`. */
  function EndsCaptured(captures: seq<Capture>, outcome: StepOutcome): nat {
    if captures == [] then 0 else
    var last := captures[|captures| - 1];
    EndsCaptured(captures[..|captures| - 1], outcome)
    + (if last.StepCompletedCapture? && last.step.outcome == OutcomeLabel(outcome) then 1 else 0)
  }

  lemma {:induction false} CapturedConcat(a: seq<Capture>, b: seq<Capture>, outcome: StepOutcome)
    ensures StartsCaptured(a + b) == StartsCaptured(a) + StartsCaptured(b)
    ensures EndsCaptured(a + b, outcome) == EndsCaptured(a, outcome) + EndsCaptured(b, outcome)
    decreases |b|
  {
    if b == [] {
      assert a + b == a;
    } else {
      assert (a + b)[..|a + b| - 1] == a + b[..|b| - 1];
      CapturedConcat(a, b[..|b| - 1], outcome);
    }
  }

  lemma OutcomeLabelsDiffer(a: StepOutcome, b: StepOutcome)
    ensures OutcomeLabel(a) == OutcomeLabel(b) <==> a == b
  {
    assert OutcomeLabel(StepSucceeded)[1] == 'u' && OutcomeLabel(StepSkipped)[1] == 'k';
    assert OutcomeLabel(StepFailed)[0] == 'f' && OutcomeLabel(StepCancelled)[0] == 'c';
    assert OutcomeLabel(StepSucceeded)[0] == 's' && OutcomeLabel(StepSkipped)[0] == 's';
  }

  /** The capture one more event adds, if it is a step event. */
  function CapturesOfLast(before: seq<WorkflowEvent>, last: WorkflowEvent): seq<Capture> {
    if last.StepStarted? || last.StepFinished? then [StepCapture(last, NamedOperation(before, last.index))] else []
  }

  lemma CapturesOfLastCount(before: seq<WorkflowEvent>, last: WorkflowEvent, outcome: StepOutcome)
    ensures StepCaptures(before + [last]) == StepCaptures(before) + CapturesOfLast(before, last)
    ensures StartsCaptured(CapturesOfLast(before, last)) == CountStarted([last])
    ensures EndsCaptured(CapturesOfLast(before, last), outcome) == CountOutcome([last], outcome)
  {
    hide OutcomeLabel, NamedOperation;
    assert (before + [last])[..|before|] == before;
    assert [last][1..] == [];
    var captures := CapturesOfLast(before, last);
    assert captures != [] ==> captures[..|captures| - 1] == [];
    if last.StepFinished? {
      OutcomeLabelsDiffer(last.outcome, outcome);
    }
  }

  /** One capture per step event, with the event's own outcome. */
  lemma {:induction false} StepCapturesCount(events: seq<WorkflowEvent>, outcome: StepOutcome)
    ensures StartsCaptured(StepCaptures(events)) == CountStarted(events)
    ensures EndsCaptured(StepCaptures(events), outcome) == CountOutcome(events, outcome)
    decreases |events|
  {
    if events != [] {
      var before, last := events[..|events| - 1], events[|events| - 1];
      hide StepCaptures, StartsCaptured, EndsCaptured, CountStarted, CountOutcome, CapturesOfLast;
      assert events == before + [last];
      StepCapturesCount(before, outcome);
      CapturesOfLastCount(before, last, outcome);
      CountConcat(before, [last], outcome);
      CapturedConcat(StepCaptures(before), CapturesOfLast(before, last), outcome);
    }
  }

  /* ---- The aggregate the adapter ends up holding. ---- */

  lemma {:induction false} SignalsCarryNoAggregate(index: nat, signals: seq<string>)
    ensures forall event <- Signals(index, signals) :: !event.WorkflowFinished?
  {
    if signals != [] {
      SignalsCarryNoAggregate(index, signals[1..]);
    }
  }

  lemma {:induction false} StepLoopCarriesNoAggregate(runs: seq<StepRun>, index: nat, facts: RunFacts)
    ensures forall event <- StepLoop(runs, index, facts).0 :: !event.WorkflowFinished?
    decreases |runs|
  {
    if runs != [] {
      SignalsCarryNoAggregate(index, runs[0].signals);
      if runs[0].finished.Some? {
        var begun := facts.(started := facts.started + 1, lastStep := Some(index));
        StepLoopCarriesNoAggregate(runs[1..], index + 1, Tally(begun, runs[0].finished.value.0));
      }
    }
  }

  lemma {:induction false} NoAggregate(events: seq<WorkflowEvent>)
    requires forall event <- events :: !event.WorkflowFinished?
    ensures LatestFacts(events).None?
    decreases |events|
  {
    if events != [] {
      NoAggregate(events[..|events| - 1]);
    }
  }

  /** The aggregate reported for a script: the executor's own when it was emitted, else zeros. */
  function Aggregate(script: Script): RunFacts {
    var latest := LatestFacts(Produce(script));
    if latest.Some? then latest.value else NO_FACTS
  }

  /** The aggregate of a run agrees with its step events unless an error escaped mid-step,
      in which case it stays zero although steps were started. */
  lemma AggregateCounts(script: Script, outcome: StepOutcome)
    ensures !Escaped(script) ==>
              && Aggregate(script).started == CountStarted(Produce(script))
              && Counted(Aggregate(script), outcome) == CountOutcome(Produce(script), outcome)
              && Aggregate(script).started == Aggregate(script).succeeded + Aggregate(script).failed
                                              + Aggregate(script).skipped + Aggregate(script).cancelled
    ensures Escaped(script) ==> Aggregate(script) == NO_FACTS && CountStarted(Produce(script)) > 0
    ensures Aggregate(script).context == if script.Ran? && !Escaped(script) then script.context else NO_CONTEXT
    ensures Aggregate(script).reason == if script.Ran? && script.stopped.Some? then script.stopped.value else None
  {
    if script.Ran? {
      var opening := [WorkflowStarted(script.name, script.steps)];
      assert CountStarted(opening) == 0 && CountOutcome(opening, outcome) == 0;
      if script.stopped.Some? {
        var closing := [WorkflowFinished(NO_FACTS.(reason := script.stopped.value, context := script.context))];
        assert Produce(script) == opening + closing;
        CountConcat(opening, closing, outcome);
        assert CountStarted(closing) == 0 && CountOutcome(closing, outcome) == 0;
      } else {
        var (events, end) := StepLoop(script.runs, 0, NO_FACTS);
        StepLoopCounts(script.runs, 0, NO_FACTS, outcome);
        StepLoopBalances(script.runs, 0, NO_FACTS);
        CountConcat(opening, events, outcome);
        if end.Some? {
          var closing := [WorkflowFinished(end.value.(context := script.context))];
          assert Produce(script) == (opening + events) + closing;
          CountConcat(opening + events, closing, outcome);
          assert CountStarted(closing) == 0 && CountOutcome(closing, outcome) == 0;
        } else {
          StepLoopCarriesNoAggregate(script.runs, 0, NO_FACTS);
          assert Produce(script) == opening + events;
          NoAggregate(opening + events);
        }
      }
    }
  }

  /* ---- The captures of a whole run. ---- */

  lemma {:induction false} NoCaptures(log: seq<Entry>)
    requires forall entry <- log :: !entry.Queue?
    ensures Captures(log) == []
    decreases |log|
  {
    if log != [] {
      NoCaptures(log[..|log| - 1]);
    }
  }

  function CompletedFacts(plan: Plan): RunCompletedFacts {
    var classified := Classify(plan.execution);
    RunCompletedFactsFor(LatestFacts(plan.events), classified.after, classified.failure)
  }

  lemma DriveLogCaptures(surface: SurfaceId, plan: Plan, client: Client)
    requires plan.mode == FullLifecycle(Some(client))
    ensures Captures(DriveLog(surface, plan)) ==
            [RunStartedCapture(plan.options)] + StepCaptures(plan.events)
            + [RunCompletedCapture(CompletedFacts(plan), plan.options)]
  {
    AdapterTrace(false, Some(client), surface, plan.events);
    var (end, calls) := Feed(InitialAdapter(plan.mode), surface, plan.events);
    var closing := ClosingLog(surface, plan, end.facts, Some(client));
    var opening := [OnEvent(surface, RunStarted(None))] + [Queue(client, RunStartedCapture(plan.options))];
    ProjectionsConcat([OnEvent(surface, RunStarted(None))], [Queue(client, RunStartedCapture(plan.options))]);
    ProjectionsOfOne(OnEvent(surface, RunStarted(None)));
    ProjectionsOfOne(Queue(client, RunStartedCapture(plan.options)));
    ClosingCaptures(surface, plan, end.facts, client);
    ProjectionsConcat(opening, calls);
    ProjectionsConcat(opening + calls, closing);
  }

  lemma ClosingCaptures(surface: SurfaceId, plan: Plan, aggregate: Option<RunFacts>, client: Client)
    ensures var classified := Classify(plan.execution);
            Captures(ClosingLog(surface, plan, aggregate, Some(client))) ==
            [RunCompletedCapture(RunCompletedFactsFor(aggregate, classified.after, classified.failure), plan.options)]
  {
    var classified := Classify(plan.execution);
    var facts := RunCompletedFactsFor(aggregate, classified.after, classified.failure);
    var queued := Queue(client, RunCompletedCapture(facts, plan.options));
    var rest := [OnEvent(surface, RunFinished(classified.after))] + (if plan.trace then [RenderTrace(surface)] else []);
    assert ClosingLog(surface, plan, aggregate, Some(client)) == [queued] + rest;
    NoCaptures(rest);
    ProjectionsOfOne(queued);
    ProjectionsConcat([queued], rest);
  }

  /** With step telemetry on, a run queues `run_started`, then one capture per step event
      naming that step's operation, then `run_completed`, whatever the surfaces do. */
  lemma CapturesOfARun(failures: Failures, plan: Plan, client: Client)
    requires plan.mode == FullLifecycle(Some(client))
    ensures Captures(Lifecycle(failures, plan).1) ==
            [RunStartedCapture(plan.options)] + StepCaptures(plan.events)
            + [RunCompletedCapture(CompletedFacts(plan), plan.options)]
  {
    var tail := Aftermath(failures, Classify(plan.execution), ClientOf(plan.mode)).1;
    DriveLogCaptures(DrivingSurface(failures), plan, client);
    NoCaptures(tail);
    ProjectionsConcat(DriveLog(DrivingSurface(failures), plan), tail);
  }

  lemma CountedReads(facts: RunFacts)
    ensures Counted(facts, StepSucceeded) == facts.succeeded && Counted(facts, StepFailed) == facts.failed
    ensures Counted(facts, StepSkipped) == facts.skipped && Counted(facts, StepCancelled) == facts.cancelled
  {
  }

  /** `run_completed` counts exactly the step captures queued before it, with every started
      step ended once, if and only if no error escaped the executor from inside a step. */
  lemma RunCompletedCountsExactly(failures: Failures, options: RunOptions, script: Script, execution: Execution,
          trace: bool, client: Client)
    ensures var plan := Plan(FullLifecycle(Some(client)), options, Produce(script), execution, trace);
            var captures := Captures(Lifecycle(failures, plan).1);
            var counts := CompletedFacts(plan).counts;
            && captures != [] && captures[|captures| - 1] == RunCompletedCapture(CompletedFacts(plan), options)
            && (!Escaped(script) <==>
                  && counts.started == StartsCaptured(captures)
                  && counts.succeeded == EndsCaptured(captures, StepSucceeded)
                  && counts.failed == EndsCaptured(captures, StepFailed)
                  && counts.skipped == EndsCaptured(captures, StepSkipped)
                  && counts.cancelled == EndsCaptured(captures, StepCancelled))
            && counts.started == counts.succeeded + counts.failed + counts.skipped + counts.cancelled
  {
    var plan := Plan(FullLifecycle(Some(client)), options, Produce(script), execution, trace);
    CapturesOfARun(failures, plan, client);
    forall outcome
      ensures StartsCaptured(Captures(Lifecycle(failures, plan).1)) == CountStarted(plan.events)
      ensures EndsCaptured(Captures(Lifecycle(failures, plan).1), outcome) == CountOutcome(plan.events, outcome)
      ensures !Escaped(script) ==> Counted(Aggregate(script), outcome) == CountOutcome(plan.events, outcome)
    {
      BookendsCount(StepCaptures(plan.events), CompletedFacts(plan), options, outcome);
      StepCapturesCount(plan.events, outcome);
      AggregateCounts(script, outcome);
    }
    AggregateCounts(script, StepSucceeded);
    assert Captures(Lifecycle(failures, plan).1)[|Captures(Lifecycle(failures, plan).1)| - 1] ==
           RunCompletedCapture(CompletedFacts(plan), options);
    CountedReads(Aggregate(script));
  }

  lemma BookendsCount(steps: seq<Capture>, facts: RunCompletedFacts, options: RunOptions, outcome: StepOutcome)
    ensures var captures := [RunStartedCapture(options)] + steps + [RunCompletedCapture(facts, options)];
            && StartsCaptured(captures) == StartsCaptured(steps)
            && EndsCaptured(captures, outcome) == EndsCaptured(steps, outcome)
  {
    CapturedConcat([RunStartedCapture(options)], steps, outcome);
    CapturedConcat([RunStartedCapture(options)] + steps, [RunCompletedCapture(facts, options)], outcome);
    assert [RunStartedCapture(options)][..0] == [];
    assert [RunCompletedCapture(facts, options)][..0] == [];
  }

  /** The reported reason: the stage that stopped the run before its first step, else
      `no_input` exactly when the failure's own code says so, escaped errors included. */
  lemma CompletedReason(options: RunOptions, script: Script, execution: Execution, trace: bool, mode: AdapterMode)
    ensures var plan := Plan(mode, options, Produce(script), execution, trace);
            var code := ErrorCode(Classify(execution).failure);
            CompletedFacts(plan).reason ==
            if script.Ran? && script.stopped.Some? && script.stopped.value.Some? then script.stopped.value
            else if code.Some? && "no_input." <= code.value then Some("no_input")
            else None
  {
    AggregateCounts(script, StepSucceeded);
  }

  /** A step that started and then let an error escape: one step captured, none counted. */
  lemma EscapedErrorIsNotCounted(error: CliError, client: Client, options: RunOptions)
    ensures var run := StepRun("s", "failed", [], None);
            var script := Ran("w", [CompiledStep(None, Some("a"))], None, [run], NO_CONTEXT);
            var plan := Plan(FullLifecycle(Some(client)), options, Produce(script), Errored(error), false);
            && Escaped(script)
            && CompletedFacts(plan).counts.started == 0
            && StartsCaptured(StepCaptures(plan.events)) == 1
  {
    var run := StepRun("s", "failed", [], None);
    var script := Ran("w", [CompiledStep(None, Some("a"))], None, [run], NO_CONTEXT);
    assert Signals(0, []) == [];
    assert StepLoop([run], 0, NO_FACTS).0 == [StepStarted(0, "s")] + Signals(0, run.signals);
    assert StepLoop([run], 0, NO_FACTS).1 == None;
    AggregateCounts(script, StepSucceeded);
    StepCapturesCount(Produce(script), StepSucceeded);
    var opening := [WorkflowStarted("w", script.steps)];
    assert Produce(script) == opening + [StepStarted(0, "s")];
    CountConcat(opening, [StepStarted(0, "s")], StepSucceeded);
  }
}
