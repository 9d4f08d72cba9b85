/** What a run hands back, announces and reports, read off the executor's result, the
    failures of the surfaces and the executor's events. */
module LifecycleMeaning {
  import opened Wrappers
  import opened Outcomes
  import opened WorkflowEvents
  import opened ExecutionAdapter
  import opened RunLifecycle
  import opened LifecycleTheorems
  import opened RunAccounting

  /* ---- What is handed back. ---- */

  /** The teardown that counts: of the surface that carried the run. */
  function TeardownFailure(failures: Failures): Option<CliError> {
    if failures.SplitFailures? then failures.progressFinish else failures.finish
  }

  predicate ShownBadly(failures: Failures, execution: Execution) {
    OwnOutput(execution).Some? && RenderFailure(failures).Some?
  }

  /** A successful run ends in the error of its teardown, unless a failed rendering on the
      same surface came first. */
  predicate TeardownEndsTheRun(failures: Failures, execution: Execution) {
    && OwnOutcome(execution).RunSuccess? && TeardownFailure(failures).Some?
    && (failures.SplitFailures? || !ShownBadly(failures, execution))
  }

  /** The outcome handed back: the run's own error, else that of a failed rendering, else
      the executor's outcome. */
  function HandedBack(failures: Failures, execution: Execution): InvocationOutcome {
    if OwnError(execution).Some? then Exit(OwnError(execution).value.ExitCode())
    else if ShownBadly(failures, execution) then Exit(RenderFailure(failures).value.ExitCode())
    else if OwnOutcome(execution).RunSuccess? then Complete
    else if OwnOutcome(execution).RunFailed? then Exit(1)
    else Cancelled
  }

  /** The result of every run. The body handed back is the service output's own. */
  lemma RunReturnsExactly(failures: Failures, plan: Plan)
    ensures var ret, output := Lifecycle(failures, plan).0, OwnOutput(plan.execution);
            if TeardownEndsTheRun(failures, plan.execution) then ret == Err(TeardownFailure(failures).value)
            else
              && ret.Ok? && ret.value.outcome == HandedBack(failures, plan.execution)
              && ret.value.client == (if plan.mode.FullLifecycle? then plan.mode.telemetry else None)
              && ret.value.body == if output.Some? && output.value.ServiceOutput? then output.value.body else None
  {
    hide DriveLog;
  }

  /** With no error, no failed rendering and a clean teardown, the outcome is the exit code. */
  lemma CleanRunExits(failures: Failures, plan: Plan)
    requires plan.execution.Returned? && plan.execution.pendingError.None?
    requires plan.execution.output.Some? ==> RenderFailure(failures).None?
    requires TeardownFailure(failures).None?
    ensures ProcessExitCode(Reported(Lifecycle(failures, plan).0)) ==
            match plan.execution.runOutcome {
              case RunSuccess => 0
              case RunFailed => 1
              case RunCancelled => 2
            }
  {
    RunReturnsExactly(failures, plan);
  }

  /* ---- The order of the calls. ---- */

  predicate Announces(entry: Entry) {
    entry.OnEvent? && entry.event.RunFinished?
  }

  /** A run opens with `RunStarted` and the capture of its start; it announces its outcome
      right after the capture of its end, with the trace, if asked for, next; nothing is
      captured from there on. */
  predicate Bookended(log: seq<Entry>, k: nat, surface: SurfaceId, plan: Plan) {
    && 0 < k < |log| && log[0] == OnEvent(surface, RunStarted(None))
    && log[k] == OnEvent(surface, RunFinished(OwnOutcome(plan.execution)))
    && (forall i :: 0 <= i < k ==> Driving(log[i], surface, ClientOf(plan.mode)) && !Announces(log[i]))
    && (forall i :: k < i < |log| ==> !log[i].Queue?)
    && (plan.trace ==> k + 1 < |log| && log[k + 1] == RenderTrace(surface))
    && (plan.mode.FullLifecycle? && plan.mode.telemetry.Some? ==>
          && 2 < k && log[1] == Queue(plan.mode.telemetry.value, RunStartedCapture(plan.options))
          && log[k - 1].Queue? && log[k - 1].client == plan.mode.telemetry.value
          && log[k - 1].capture.RunCompletedCapture?)
  }

  lemma CallOrder(failures: Failures, plan: Plan) returns (k: nat)
    ensures Bookended(Lifecycle(failures, plan).1, k,
                      if failures.SplitFailures? then ProgressSurface else UnifiedSurface, plan)
  {
    hide Classify, Translate, RunCompletedFactsFor;
    var surface, client := DrivingSurface(failures), ClientOf(plan.mode);
    var (end, calls) := Feed(InitialAdapter(plan.mode), surface, plan.events);
    FeedDrives(InitialAdapter(plan.mode), surface, plan.events);
    ClassifyReads(plan.execution);
    var classified := Classify(plan.execution);
    var tail := Aftermath(failures, classified, client).1;
    AftermathCapturesNothing(failures, classified, client);
    var opening := [OnEvent(surface, RunStarted(None))] + QueueIf(client, RunStartedCapture(plan.options));
    var facts := RunCompletedFactsFor(end.facts, classified.after, classified.failure);
    k := |opening| + |calls| + |QueueIf(client, RunCompletedCapture(facts, plan.options))|;
    BookendsHold(opening, calls, ClosingLog(surface, plan, end.facts, client), tail, k, surface, plan, facts);
  }

  lemma AftermathCapturesNothing(failures: Failures, classified: Classified, client: Option<Client>)
    ensures forall entry <- Aftermath(failures, classified, client).1 :: !entry.Queue?
  {
  }

  lemma BookendsHold(opening: seq<Entry>, calls: seq<Entry>, closing: seq<Entry>, tail: seq<Entry>, k: nat,
          surface: SurfaceId, plan: Plan, facts: RunCompletedFacts)
    requires var client := ClientOf(plan.mode);
             && opening == [OnEvent(surface, RunStarted(None))] + QueueIf(client, RunStartedCapture(plan.options))
             && closing == QueueIf(client, RunCompletedCapture(facts, plan.options))
                           + [OnEvent(surface, RunFinished(OwnOutcome(plan.execution)))]
                           + (if plan.trace then [RenderTrace(surface)] else [])
             && k == |opening| + |calls| + |QueueIf(client, RunCompletedCapture(facts, plan.options))|
             && (forall entry <- calls :: Driving(entry, surface, client) && !Announces(entry))
             && (forall entry <- tail :: !entry.Queue?)
    ensures Bookended(opening + calls + closing + tail, k, surface, plan)
  {
    var log := opening + calls + closing + tail;
    var n := |opening| + |calls|;
    assert forall i :: 0 <= i < |opening| ==> log[i] == opening[i];
    assert forall i :: |opening| <= i < n ==> log[i] == calls[i - |opening|] && calls[i - |opening|] in calls;
    assert forall i :: n <= i < n + |closing| ==> log[i] == closing[i - n];
    assert forall i :: n + |closing| <= i < |log| ==> log[i] == tail[i - n - |closing|] && log[i] in tail;
  }

  /* ---- What telemetry reports. ---- */

  /** The transmitted projection of an error, or of none. */
  predicate ReportsError(facts: RunCompletedFacts, failure: Option<CliError>) {
    match failure
    case None => facts.errorClass.None? && facts.httpStatus.None? && facts.errorCode.None?
    case Some(error) =>
      && facts.errorClass == Some(error.Class())
      && facts.httpStatus == (if error.Internal? || error.metadata.None? then None else error.metadata.value.httpStatus)
      && facts.errorCode == if error.Internal? || error.metadata.None? then None else error.metadata.value.code
  }

  /** A run's last capture says how it ended, describes its own error if it had one, and
      carries the aggregate of the latest `WorkflowFinished`, zeros before the first. */
  lemma RunCompletedSays(failures: Failures, plan: Plan, client: Client)
    requires plan.mode == FullLifecycle(Some(client))
    ensures var captures := Captures(Lifecycle(failures, plan).1);
            && |captures| >= 2 && captures[0] == RunStartedCapture(plan.options)
            && captures[|captures| - 1].RunCompletedCapture? && captures[|captures| - 1].options == plan.options
            && var facts := captures[|captures| - 1].facts;
            && (facts.outcome == "completed" <==> OwnOutcome(plan.execution).RunSuccess?)
            && (facts.outcome == "failed" <==> OwnOutcome(plan.execution).RunFailed?)
            && (facts.outcome == "cancelled" <==> OwnOutcome(plan.execution).RunCancelled?)
            && ReportsError(facts, OwnError(plan.execution))
            && facts.counts == if LatestFacts(plan.events).Some? then LatestFacts(plan.events).value
                               else RunFacts(None, 0, 0, 0, 0, 0, None, RunContext(None, 0, 0, 0, 0, 0))
  {
    hide Lifecycle, StepCaptures, LatestFacts, Classify;
    CapturesOfARun(failures, plan, client);
    ClassifyReads(plan.execution);
    assert "completed"[1] == 'o' && "failed"[1] == 'a' && "cancelled"[1] == 'a';
    assert "failed"[0] == 'f' && "cancelled"[0] == 'c';
  }

  /** The operation a step is reported under: its service's, or the local action it runs. */
  predicate NamesStep(steps: seq<CompiledStep>, index: nat, service: string, operation: string) {
    if index < |steps| && steps[index].operation.Some? then
      service == steps[index].operation.value.service && operation == steps[index].operation.value.operation
    else if index < |steps| && steps[index].action.Some? then
      service == "local" && operation == steps[index].action.value
    else service == "" && operation == ""
  }

  predicate StepStartReported(event: WorkflowEvent, steps: seq<CompiledStep>, capture: Capture) {
    && event.StepStarted? && capture.StepStartedCapture?
    && capture.index == event.index && capture.id == event.id
    && NamesStep(steps, event.index, capture.service, capture.operation)
  }

  predicate StepEndReported(event: WorkflowEvent, steps: seq<CompiledStep>, capture: Capture) {
    && event.StepFinished? && capture.StepCompletedCapture?
    && capture.index == event.index && capture.id == event.id
    && capture.step.reason == event.reason
    && (capture.step.outcome == match event.outcome {
          case StepSucceeded => "success"
          case StepFailed => "failed"
          case StepSkipped => "skipped"
          case StepCancelled => "cancelled"
        })
    && DetailReported(event.detail, capture.step)
    && NamesStep(steps, event.index, capture.step.service, capture.step.operation)
  }

  predicate DetailReported(detail: StepDetail, step: StepCompletedFacts) {
    && step.attempts == detail.attempts && step.durationMs == detail.durationMs
    && match detail.error
       case None => step.errorClass.None? && step.httpStatus.None? && step.errorCode.None? && step.inputFields == []
       case Some(error) =>
         && step.errorClass == Some(error.errorClass) && step.httpStatus == error.httpStatus
         && step.errorCode == error.code && step.inputFields == error.inputFields
  }

  /** Every event adds what it should to the captures: a step event one capture of its own
      fields under the operation of its step in the latest announcement, others nothing. */
  lemma StepEventReported(events: seq<WorkflowEvent>, k: nat)
    requires k < |events|
    ensures var before, after := StepCaptures(events[..k]), StepCaptures(events[..k + 1]);
            if events[k].StepStarted? || events[k].StepFinished? then
              && |after| == |before| + 1 && before <= after
              && (events[k].StepStarted? ==> StepStartReported(events[k], LatestSteps(events[..k]), after[|before|]))
              && (events[k].StepFinished? ==> StepEndReported(events[k], LatestSteps(events[..k]), after[|before|]))
            else after == before
  {
    hide LatestSteps;
    assert events[..k + 1][..k] == events[..k];
  }

  /* ---- What the frontend is shown. ---- */

  /** The events of a run: its opening, what the adapter forwards, and its verdicts. */
  lemma EventsOfARun(failures: Failures, plan: Plan)
    ensures OnEvents(Lifecycle(failures, plan).1) ==
            [RunStarted(None)] + FilterMap(plan.mode.SuppressedLifecycle?, plan.events)
            + [RunFinished(OwnOutcome(plan.execution))]
            + (if failures.UnifiedFailures? && ShownBadly(failures, plan.execution) then [RunFinished(RunFailed)]
               else [])
  {
    hide Classify, FilterMap, Translate, RunCompletedFactsFor;
    var surface, client := DrivingSurface(failures), ClientOf(plan.mode);
    var (end, calls) := Feed(InitialAdapter(plan.mode), surface, plan.events);
    AdapterTrace(plan.mode.SuppressedLifecycle?, client, surface, plan.events);
    ClassifyReads(plan.execution);
    OutputMeansNoError(plan.execution);
    var classified := Classify(plan.execution);
    var opening := [OnEvent(surface, RunStarted(None))] + QueueIf(client, RunStartedCapture(plan.options));
    var closing := ClosingLog(surface, plan, end.facts, client);
    OpeningShown(surface, client, plan.options);
    ClosingShown(surface, plan, end.facts, client);
    AftermathShown(failures, classified, client);
    ProjectionsConcat(opening, calls);
    ProjectionsConcat(opening + calls, closing);
    ProjectionsConcat(opening + calls + closing, Aftermath(failures, classified, client).1);
  }

  lemma OpeningShown(surface: SurfaceId, client: Option<Client>, options: RunOptions)
    ensures OnEvents([OnEvent(surface, RunStarted(None))] + QueueIf(client, RunStartedCapture(options))) ==
            [RunStarted(None)]
  {
    ProjectionsConcat([OnEvent(surface, RunStarted(None))], QueueIf(client, RunStartedCapture(options)));
    ProjectionsOfOne(OnEvent(surface, RunStarted(None)));
    NothingShown(QueueIf(client, RunStartedCapture(options)));
  }

  lemma ClosingShown(surface: SurfaceId, plan: Plan, aggregate: Option<RunFacts>, client: Option<Client>)
    ensures OnEvents(ClosingLog(surface, plan, aggregate, client)) == [RunFinished(OwnOutcome(plan.execution))]
  {
    ClassifyReads(plan.execution);
    var classified := Classify(plan.execution);
    var facts := RunCompletedFactsFor(aggregate, classified.after, classified.failure);
    var capture := QueueIf(client, RunCompletedCapture(facts, plan.options));
    var verdict := [OnEvent(surface, RunFinished(classified.after))];
    var trace := if plan.trace then [RenderTrace(surface)] else [];
    NothingShown(capture);
    NothingShown(trace);
    ProjectionsOfOne(verdict[0]);
    ProjectionsConcat(capture, verdict);
    ProjectionsConcat(capture + verdict, trace);
  }

  lemma AftermathShown(failures: Failures, classified: Classified, client: Option<Client>)
    ensures OnEvents(Aftermath(failures, classified, client).1) ==
            if failures.UnifiedFailures? && RenderFails(classified, failures.render) then [RunFinished(RunFailed)]
            else []
  {
    var tail := Aftermath(failures, classified, client).1;
    if failures.UnifiedFailures? && RenderFails(classified, failures.render) {
      var shown := Present(UnifiedSurface, classified, failures.render).1;
      var flip, close := [OnEvent(UnifiedSurface, RunFinished(RunFailed))], [Finish(UnifiedSurface)];
      NothingShown(shown);
      NothingShown(close);
      ProjectionsOfOne(flip[0]);
      ProjectionsConcat(shown, flip);
      ProjectionsConcat(shown + flip, close);
    } else {
      NothingShown(tail);
    }
  }

  lemma {:induction false} NothingShown(log: seq<Entry>)
    requires forall entry <- log :: !entry.OnEvent?
    ensures OnEvents(log) == []
    decreases |log|
  {
    if log != [] {
      NothingShown(log[..|log| - 1]);
    }
  }

  /** Every event adds to what is shown its own fields, or nothing: a run's end never, and
      under suppression only progress. */
  lemma EventIsShown(suppress: bool, events: seq<WorkflowEvent>, k: nat)
    requires k < |events|
    ensures var before, after := FilterMap(suppress, events[..k]), FilterMap(suppress, events[..k + 1]);
            match events[k] {
              case Progress(stepIndex, signal) => after == before + [RunProgress(stepIndex, signal)]
              case WorkflowFinished(_) => after == before
              case WorkflowStarted(name, _) => after == before + (if suppress then [] else [RunStarted(Some(name))])
              case StepStarted(index, id) => after == before + (if suppress then [] else [StepBegan(index, id)])
              case StepFinished(index, _, summary, outcome, _, detail) =>
                after == before + if suppress then [] else [StepEnded(index, summary, detail.captures, outcome)]
            }
  {
    assert events[..k + 1][..k] == events[..k];
  }
}
