/** The post-prologue lifecycle of one run: drive the executor on the progress surface, tear
    the surface down, render the result, and hand back or flush the telemetry client. */
module RunLifecycle {
  import opened Wrappers
  import opened Outcomes
  import opened WorkflowEvents
  import opened ExecutionAdapter

  datatype AdapterMode = FullLifecycle(telemetry: Option<Client>) | SuppressedLifecycle

  datatype Output = ServiceOutput(body: Option<string>) | OtherOutput

  /** What `Executor::execute` returned, next to the events it emitted. */
  datatype Execution =
    | Returned(runOutcome: RunOutcome, output: Option<Output>, pendingError: Option<CliError>)
    | Errored(error: CliError)

  datatype Plan = Plan(
    mode: AdapterMode,
    options: RunOptions,
    events: seq<WorkflowEvent>,
    execution: Execution,
    trace: bool)

  function ClientOf(mode: AdapterMode): Option<Client> {
    if mode.FullLifecycle? then mode.telemetry else None
  }

  function InitialAdapter(mode: AdapterMode): AdapterState {
    AdapterState(mode.SuppressedLifecycle?, ClientOf(mode), [], None)
  }

  /** The executor's result, sorted out before any final rendering. */
  datatype Classified = Classified(
    outcome: InvocationOutcome,
    after: RunOutcome,
    failure: Option<CliError>,
    output: Option<Output>)

  function RunOutcomeToInvocation(runOutcome: RunOutcome): InvocationOutcome {
    match runOutcome
    case RunSuccess => Complete
    case RunFailed => Exit(1)
    case RunCancelled => Cancelled
  }

  function Classify(execution: Execution): Classified {
    match execution
    case Returned(_, _, Some(error)) => Classified(Exit(error.ExitCode()), RunFailed, Some(error), None)
    case Returned(runOutcome, output, None) =>
      Classified(RunOutcomeToInvocation(runOutcome), runOutcome, None, output)
    case Errored(error) => Classified(Exit(error.ExitCode()), RunFailed, Some(error), None)
  }

  function ErrorCode(failure: Option<CliError>): Option<string> {
    if failure.Some? && failure.value.Metadata().Some? then failure.value.Metadata().value.code else None
  }

  /** The executor's own reason first, then `no_input` for a failure whose code says so. */
  function RunReasonLabel(facts: RunFacts, failure: Option<CliError>): Option<string> {
    if facts.reason.Some? then facts.reason
    else
      var code := ErrorCode(failure);
      if code.Some? && "no_input." <= code.value then Some("no_input") else None
  }

  function RunCompletedFactsFor(aggregate: Option<RunFacts>, outcome: RunOutcome, failure: Option<CliError>):
      RunCompletedFacts
  {
    var facts := if aggregate.Some? then aggregate.value else NO_FACTS;
    var metadata := if failure.Some? then failure.value.Metadata() else None;
    RunCompletedFacts(
      StatusLabel(outcome),
      RunReasonLabel(facts, failure),
      facts,
      if failure.Some? then Some(failure.value.Class()) else None,
      if metadata.Some? then metadata.value.httpStatus else None,
      ErrorCode(failure))
  }

  /* ---- The calls, as functions of the plan. ---- */

  function ClosingLog(surface: SurfaceId, plan: Plan, aggregate: Option<RunFacts>, client: Option<Client>): seq<Entry> {
    var classified := Classify(plan.execution);
    var facts := RunCompletedFactsFor(aggregate, classified.after, classified.failure);
    QueueIf(client, RunCompletedCapture(facts, plan.options))
    + [OnEvent(surface, RunFinished(classified.after))]
    + (if plan.trace then [RenderTrace(surface)] else [])
  }

  /** Everything up to and including the resolution trace, all on one surface. */
  function DriveLog(surface: SurfaceId, plan: Plan): seq<Entry> {
    var client := ClientOf(plan.mode);
    var (end, calls) := Feed(InitialAdapter(plan.mode), surface, plan.events);
    [OnEvent(surface, RunStarted(None))] + QueueIf(client, RunStartedCapture(plan.options))
    + calls
    + ClosingLog(surface, plan, end.facts, client)
  }

  function FlushIf(client: Option<Client>): seq<Entry> {
    if client.Some? then [Flush(client.value)] else []
  }

  function RawBody(output: Option<Output>): Option<string> {
    if output.Some? && output.value.ServiceOutput? then output.value.body else None
  }

  datatype Handback = Handback(outcome: InvocationOutcome, client: Option<Client>, body: Option<string>)

  type RunReturn = Result<Handback, CliError>

  /** The failures the surfaces will report: separate progress and final surfaces, or one. */
  datatype Failures =
    | SplitFailures(progressFinish: Option<CliError>, finalRender: Option<CliError>)
    | UnifiedFailures(finish: Option<CliError>, render: Option<CliError>)

  /** Rendering the error or the output on `surface`, with the outcome that leaves. */
  function Present(surface: SurfaceId, classified: Classified, renderFailure: Option<CliError>):
      (InvocationOutcome, seq<Entry>)
  {
    if classified.failure.Some? then (classified.outcome, [RenderError(surface, classified.failure.value)])
    else if classified.output.None? then (classified.outcome, [])
    else if renderFailure.None? then (classified.outcome, [Render(surface)])
    else (Exit(renderFailure.value.ExitCode()), [Render(surface), RenderError(surface, renderFailure.value)])
  }

  /** There is an output to render and rendering it fails. */
  predicate RenderFails(classified: Classified, renderFailure: Option<CliError>) {
    classified.failure.None? && classified.output.Some? && renderFailure.Some?
  }

  /** Teardown and final rendering: what is returned, and the calls made. */
  function Aftermath(failures: Failures, classified: Classified, client: Option<Client>): (RunReturn, seq<Entry>) {
    var body := RawBody(classified.output);
    match failures
    case SplitFailures(progressFinish, finalRender) =>
      if classified.outcome.Complete? && progressFinish.Some? then
        (Err(progressFinish.value), [Finish(ProgressSurface)] + FlushIf(client))
      else
        var (outcome, shown) := Present(FinalSurface, classified, finalRender);
        (Ok(Handback(outcome, client, body)), [Finish(ProgressSurface)] + shown + [Finish(FinalSurface)])
    case UnifiedFailures(finish, render) =>
      var (outcome, shown) := Present(UnifiedSurface, classified, render);
      var flipped := if RenderFails(classified, render) then [OnEvent(UnifiedSurface, RunFinished(RunFailed))] else [];
      if outcome.Complete? && finish.Some? then
        (Err(finish.value), shown + flipped + [Finish(UnifiedSurface)] + FlushIf(client))
      else (Ok(Handback(outcome, client, body)), shown + flipped + [Finish(UnifiedSurface)])
  }

  function DrivingSurface(failures: Failures): SurfaceId {
    if failures.SplitFailures? then ProgressSurface else UnifiedSurface
  }

  function Lifecycle(failures: Failures, plan: Plan): (RunReturn, seq<Entry>) {
    var (ret, calls) := Aftermath(failures, Classify(plan.execution), ClientOf(plan.mode));
    (ret, DriveLog(DrivingSurface(failures), plan) + calls)
  }

  /* ---- The procedures. ---- */

  /** Events never change which client an adapter holds, nor whether it suppresses. */
  lemma {:induction false} FeedKeepsConfiguration(a: AdapterState, surface: SurfaceId, events: seq<WorkflowEvent>)
    ensures var end := Feed(a, surface, events).0;
            end.telemetry == a.telemetry && end.suppress == a.suppress
    decreases |events|
  {
    if events != [] {
      FeedKeepsConfiguration(a, surface, events[..|events| - 1]);
    }
  }

  datatype PhaseSurfaces = Split(progress: Surface, final: Surface) | Unified(surface: Surface)
  {
    /** All surfaces record their calls on one journal, under their own names. */
    predicate Wired(journal: Journal) {
      match this
      case Split(progress, final) =>
        && progress.journal == journal && progress.id == ProgressSurface
        && final.journal == journal && final.id == FinalSurface
      case Unified(surface) => surface.journal == journal && surface.id == UnifiedSurface
    }

    function Failing(): Failures {
      match this
      case Split(progress, final) => SplitFailures(progress.finishFailure, final.renderFailure)
      case Unified(surface) => UnifiedFailures(surface.finishFailure, surface.renderFailure)
    }
  }

  method DriveRun(progress: Surface, plan: Plan) returns (classified: Classified, client: Option<Client>)
    modifies progress.journal
    ensures classified == Classify(plan.execution) && client == ClientOf(plan.mode)
    ensures progress.journal.log == old(progress.journal.log) + DriveLog(progress.id, plan)
  {
    var adapter := OpenRun(progress, plan.mode, plan.options);
    adapter.HandleEvents(plan.events);
    client := adapter.stepTelemetry;
    FeedKeepsConfiguration(InitialAdapter(plan.mode), progress.id, plan.events);
    classified := CloseRun(progress, plan, adapter.runFacts, client);
  }

  /** From `RunStarted` to the executor call. */
  method OpenRun(progress: Surface, mode: AdapterMode, options: RunOptions) returns (adapter: ExecutionFrontendAdapter)
    modifies progress.journal
    ensures fresh(adapter) && adapter.frontend == progress && adapter.State() == InitialAdapter(mode)
    ensures progress.journal.log ==
            old(progress.journal.log)
            + ([OnEvent(progress.id, RunStarted(None))] + QueueIf(ClientOf(mode), RunStartedCapture(options)))
  {
    progress.ShowEvent(RunStarted(None));
    match mode {
      case FullLifecycle(telemetry) =>
        progress.journal.AppendCapture(telemetry, RunStartedCapture(options));
        adapter := new ExecutionFrontendAdapter(progress, false, telemetry);
      case SuppressedLifecycle =>
        adapter := new ExecutionFrontendAdapter(progress, true, None);
    }
  }

  /** From the executor's return to the resolution trace. */
  method CloseRun(progress: Surface, plan: Plan, runFacts: Option<RunFacts>, client: Option<Client>)
    returns (classified: Classified)
    modifies progress.journal
    ensures classified == Classify(plan.execution)
    ensures progress.journal.log == old(progress.journal.log) + ClosingLog(progress.id, plan, runFacts, client)
  {
    match plan.execution {
      case Returned(runOutcome, output, pendingError) =>
        if pendingError.Some? {
          classified := Classified(Exit(pendingError.value.ExitCode()), RunFailed, pendingError, None);
        } else {
          classified := Classified(RunOutcomeToInvocation(runOutcome), runOutcome, None, output);
        }
      case Errored(error) =>
        classified := Classified(Exit(error.ExitCode()), RunFailed, Some(error), None);
    }
    var facts := RunCompletedFactsFor(runFacts, classified.after, classified.failure);
    progress.journal.AppendCapture(client, RunCompletedCapture(facts, plan.options));
    progress.ShowEvent(RunFinished(classified.after));
    if plan.trace {
      progress.ShowTrace();
    }
  }

  method FlushStepTelemetry(journal: Journal, client: Option<Client>)
    modifies journal
    ensures journal.log == old(journal.log) + FlushIf(client)
  {
    if client.Some? {
      journal.Append(Flush(client.value));
    }
  }

  method RunPhaseOwnedExecution(surfaces: PhaseSurfaces, journal: Journal, plan: Plan) returns (result: RunReturn)
    requires surfaces.Wired(journal)
    modifies journal
    ensures result == Lifecycle(surfaces.Failing(), plan).0
    ensures journal.log == old(journal.log) + Lifecycle(surfaces.Failing(), plan).1
  {
    match surfaces {
      case Split(progress, final) => result := RunSplit(progress, final, journal, plan);
      case Unified(surface) => result := RunUnified(surface, journal, plan);
    }
  }

  method RunSplit(progress: Surface, final: Surface, journal: Journal, plan: Plan) returns (result: RunReturn)
    requires Split(progress, final).Wired(journal)
    modifies journal
    ensures result == Lifecycle(Split(progress, final).Failing(), plan).0
    ensures journal.log == old(journal.log) + Lifecycle(Split(progress, final).Failing(), plan).1
  {
    hide DriveLog, Classify, ClientOf;
    var classified, client := DriveRun(progress, plan);
    var outcome := classified.outcome;
    var teardown := progress.TearDown();
    if outcome.Complete? && teardown.Some? {
      FlushStepTelemetry(journal, client);
      return Err(teardown.value);
    }
    if classified.failure.Some? {
      final.ShowError(classified.failure.value);
    } else if classified.output.Some? {
      var failure := final.ShowResult();
      if failure.Some? {
        final.ShowError(failure.value);
        outcome := Exit(failure.value.ExitCode());
      }
    }
    var _ := final.TearDown();
    result := Ok(Handback(outcome, client, RawBody(classified.output)));
  }

  method RunUnified(surface: Surface, journal: Journal, plan: Plan) returns (result: RunReturn)
    requires Unified(surface).Wired(journal)
    modifies journal
    ensures result == Lifecycle(Unified(surface).Failing(), plan).0
    ensures journal.log == old(journal.log) + Lifecycle(Unified(surface).Failing(), plan).1
  {
    hide DriveLog, Classify, ClientOf;
    var classified, client := DriveRun(surface, plan);
    var outcome := classified.outcome;
    if classified.failure.Some? {
      surface.ShowError(classified.failure.value);
    } else if classified.output.Some? {
      var failure := surface.ShowResult();
      if failure.Some? {
        surface.ShowError(failure.value);
        surface.ShowEvent(RunFinished(RunFailed));
        outcome := Exit(failure.value.ExitCode());
      }
    }
    var teardown := surface.TearDown();
    if outcome.Complete? && teardown.Some? {
      FlushStepTelemetry(journal, client);
      return Err(teardown.value);
    }
    result := Ok(Handback(outcome, client, RawBody(classified.output)));
  }
}
