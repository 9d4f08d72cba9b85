/** What holds of every run's call trace, for every event stream, every executor result and
    every combination of render and teardown failures. */
module LifecycleTheorems {
  import opened Wrappers
  import opened Outcomes
  import opened WorkflowEvents
  import opened ExecutionAdapter
  import opened RunLifecycle

  /* ---- What the executor's result says. ---- */

  /** The run's own error: what the executor raised, or left pending. */
  function OwnError(execution: Execution): Option<CliError> {
    if execution.Errored? then Some(execution.error) else execution.pendingError
  }

  /** The output to show: an error leaves none. */
  function OwnOutput(execution: Execution): Option<Output> {
    if execution.Returned? && execution.pendingError.None? then execution.output else None
  }

  /** The outcome of the run itself: the executor's, or failed under an error. */
  function OwnOutcome(execution: Execution): RunOutcome {
    if execution.Returned? && execution.pendingError.None? then execution.runOutcome else RunFailed
  }

  lemma ClassifyReads(execution: Execution)
    ensures var classified := Classify(execution);
            && classified.failure == OwnError(execution) && classified.output == OwnOutput(execution)
            && classified.after == OwnOutcome(execution)
            && (classified.outcome.Complete? <==> OwnOutcome(execution).RunSuccess?)
            && (classified.outcome.Cancelled? <==> OwnOutcome(execution).RunCancelled?)
            && (classified.outcome.Exit? ==>
                  classified.outcome.code ==
                  if OwnError(execution).Some? then OwnError(execution).value.ExitCode() else 1)
  {
  }

  predicate OnSurface(entry: Entry, surface: SurfaceId) {
    !entry.Queue? && !entry.Flush? && entry.surface == surface
  }

  /** A call made while the run is being driven: an event or a trace on the progress surface,
      or a capture queued on the run's own client. */
  predicate Driving(entry: Entry, surface: SurfaceId, client: Option<Client>) {
    || ((entry.OnEvent? || entry.RenderTrace?) && entry.surface == surface)
    || (entry.Queue? && client == Some(entry.client))
  }

  lemma {:induction false} FeedDrives(a: AdapterState, surface: SurfaceId, events: seq<WorkflowEvent>)
    ensures forall entry <- Feed(a, surface, events).1 ::
              Driving(entry, surface, a.telemetry) && !(entry.OnEvent? && entry.event.RunFinished?)
    decreases |events|
  {
    if events != [] {
      FeedDrives(a, surface, events[..|events| - 1]);
      FeedKeepsConfiguration(a, surface, events[..|events| - 1]);
    }
  }

  lemma DriveLogDrives(surface: SurfaceId, plan: Plan)
    ensures DriveLog(surface, plan) != [] && DriveLog(surface, plan)[0] == OnEvent(surface, RunStarted(None))
    ensures forall entry <- DriveLog(surface, plan) :: Driving(entry, surface, ClientOf(plan.mode))
  {
    FeedDrives(InitialAdapter(plan.mode), surface, plan.events);
  }

  /* ---- Order of surface calls. ---- */

  /** Separate surfaces: nothing touches the final surface before the progress surface's one
      `finish`, nothing touches the progress surface after it, and the final surface is
      closed by one last `finish` or, when the run stopped there, never touched. */
  ghost predicate SplitGrammar(log: seq<Entry>, completed: bool) {
    && log != [] && log[0] == OnEvent(ProgressSurface, RunStarted(None))
    && (exists k :: 0 <= k < |log| && log[k] == Finish(ProgressSurface)
          && (forall i :: 0 <= i < k ==> !log[i].Finish? && !OnSurface(log[i], FinalSurface))
          && (forall i :: k < i < |log| ==> !log[i].Queue? && !OnSurface(log[i], ProgressSurface)))
    && (completed ==> log[|log| - 1] == Finish(FinalSurface)
                      && forall i :: 0 <= i < |log| - 1 ==> log[i] != Finish(FinalSurface))
    && (!completed ==> forall i :: 0 <= i < |log| ==> !OnSurface(log[i], FinalSurface))
  }

  /** One surface: exactly one `finish`, after every other call on it. */
  ghost predicate UnifiedGrammar(log: seq<Entry>) {
    && log != [] && log[0] == OnEvent(UnifiedSurface, RunStarted(None))
    && exists k :: 0 <= k < |log| && log[k] == Finish(UnifiedSurface)
         && (forall i :: 0 <= i < k ==> !log[i].Finish?)
         && (forall i :: k < i < |log| ==> log[i].Flush?)
  }

  /** The driving calls of a run: a non-empty trace opened by `RunStarted`. */
  predicate Driven(log: seq<Entry>, surface: SurfaceId, client: Option<Client>) {
    && log != [] && log[0] == OnEvent(surface, RunStarted(None))
    && forall i :: 0 <= i < |log| ==> Driving(log[i], surface, client)
  }

  lemma DriveLogDriven(surface: SurfaceId, plan: Plan)
    ensures Driven(DriveLog(surface, plan), surface, ClientOf(plan.mode))
  {
    DriveLogDrives(surface, plan);
    var log := DriveLog(surface, plan);
    assert forall i :: 0 <= i < |log| ==> log[i] in log;
  }

  /** What a split run's tail looks like. */
  predicate SplitTail(tail: seq<Entry>, completed: bool) {
    && tail != [] && tail[0] == Finish(ProgressSurface)
    && (forall i :: 0 < i < |tail| ==> !tail[i].Queue? && !OnSurface(tail[i], ProgressSurface))
    && (completed ==> tail[|tail| - 1] == Finish(FinalSurface)
                      && forall i :: 0 <= i < |tail| - 1 ==> tail[i] != Finish(FinalSurface))
    && (!completed ==> forall i :: 0 <= i < |tail| ==> !OnSurface(tail[i], FinalSurface))
  }

  lemma SplitTailHolds(failures: Failures, classified: Classified, client: Option<Client>)
    requires failures.SplitFailures?
    ensures var (ret, tail) := Aftermath(failures, classified, client);
            SplitTail(tail, ret.Ok?)
  {
    // Unfolding the definitions suffices.
  }

  lemma SplitTraceJoins(driven: seq<Entry>, tail: seq<Entry>, client: Option<Client>, completed: bool)
    requires Driven(driven, ProgressSurface, client) && SplitTail(tail, completed)
    ensures SplitGrammar(driven + tail, completed)
  {
    var log := driven + tail;
    assert forall i :: 0 <= i < |driven| ==> log[i] == driven[i];
    assert forall i :: |driven| <= i < |log| ==> log[i] == tail[i - |driven|];
    assert log[|driven|] == Finish(ProgressSurface);
  }

  /** With separate surfaces, the final one is touched only after the progress surface's one
      `finish`; when that `finish` fails a successful run, it is never touched at all. */
  lemma SplitOrder(progressFinish: Option<CliError>, finalRender: Option<CliError>, plan: Plan)
    ensures var (ret, log) := Lifecycle(SplitFailures(progressFinish, finalRender), plan);
            SplitGrammar(log, ret.Ok?)
  {
    var failures := SplitFailures(progressFinish, finalRender);
    DriveLogDriven(ProgressSurface, plan);
    var client := ClientOf(plan.mode);
    SplitTailHolds(failures, Classify(plan.execution), client);
    var (ret, tail) := Aftermath(failures, Classify(plan.execution), client);
    SplitTraceJoins(DriveLog(ProgressSurface, plan), tail, client, ret.Ok?);
  }

  lemma UnifiedTraceJoins(driven: seq<Entry>, shown: seq<Entry>, flush: seq<Entry>, client: Option<Client>)
    requires Driven(driven, UnifiedSurface, client)
    requires forall i :: 0 <= i < |shown| ==> !shown[i].Finish?
    requires forall i :: 0 <= i < |flush| ==> flush[i].Flush?
    ensures UnifiedGrammar(driven + (shown + [Finish(UnifiedSurface)] + flush))
  {
    var log := driven + (shown + [Finish(UnifiedSurface)] + flush);
    var k := |driven| + |shown|;
    assert forall i :: 0 <= i < |driven| ==> log[i] == driven[i];
    assert forall i :: |driven| <= i < k ==> log[i] == shown[i - |driven|];
    assert forall i :: k < i < |log| ==> log[i] == flush[i - k - 1];
    assert log[k] == Finish(UnifiedSurface);
  }

  /** With one surface, `finish` is called exactly once and after every other call on it. */
  lemma UnifiedOrder(finish: Option<CliError>, render: Option<CliError>, plan: Plan)
    ensures UnifiedGrammar(Lifecycle(UnifiedFailures(finish, render), plan).1)
  {
    var failures := UnifiedFailures(finish, render);
    DriveLogDriven(UnifiedSurface, plan);
    var classified := Classify(plan.execution);
    var (outcome, shown) := Present(UnifiedSurface, classified, render);
    var flipped := if RenderFails(classified, render) then [OnEvent(UnifiedSurface, RunFinished(RunFailed))] else [];
    var flush := if outcome.Complete? && finish.Some? then FlushIf(ClientOf(plan.mode)) else [];
    UnifiedTraceJoins(DriveLog(UnifiedSurface, plan), shown + flipped, flush, ClientOf(plan.mode));
    assert Aftermath(failures, classified, ClientOf(plan.mode)).1 == shown + flipped + [Finish(UnifiedSurface)] + flush;
  }

  /* ---- The recorded verdict. ---- */

  /** The outcomes announced by `RunFinished`, in order. */
  function Verdicts(log: seq<Entry>): seq<RunOutcome> {
    if log == [] then [] else
    var last := log[|log| - 1];
    Verdicts(log[..|log| - 1]) + (if last.OnEvent? && last.event.RunFinished? then [last.event.runOutcome] else [])
  }

  lemma {:induction false} VerdictsConcat(a: seq<Entry>, b: seq<Entry>)
    ensures Verdicts(a + b) == Verdicts(a) + Verdicts(b)
    decreases |b|
  {
    if b == [] {
      assert a + b == a;
    } else {
      assert (a + b)[..|a + b| - 1] == a + b[..|b| - 1];
      VerdictsConcat(a, b[..|b| - 1]);
    }
  }

  lemma {:induction false} NoVerdicts(log: seq<Entry>)
    requires forall entry <- log :: !(entry.OnEvent? && entry.event.RunFinished?)
    ensures Verdicts(log) == []
    decreases |log|
  {
    if log != [] {
      NoVerdicts(log[..|log| - 1]);
    }
  }

  lemma OneVerdict(surface: SurfaceId, outcome: RunOutcome)
    ensures Verdicts([OnEvent(surface, RunFinished(outcome))]) == [outcome]
  {
    assert [OnEvent(surface, RunFinished(outcome))][..0] == [];
  }

  lemma DriveLogVerdict(surface: SurfaceId, plan: Plan)
    ensures Verdicts(DriveLog(surface, plan)) == [Classify(plan.execution).after]
  {
    var client := ClientOf(plan.mode);
    var (end, calls) := Feed(InitialAdapter(plan.mode), surface, plan.events);
    var classified := Classify(plan.execution);
    FeedDrives(InitialAdapter(plan.mode), surface, plan.events);
    var opening := [OnEvent(surface, RunStarted(None))] + QueueIf(client, RunStartedCapture(plan.options));
    var facts := RunCompletedFactsFor(end.facts, classified.after, classified.failure);
    var capture := QueueIf(client, RunCompletedCapture(facts, plan.options));
    var verdict := [OnEvent(surface, RunFinished(classified.after))];
    var trace := if plan.trace then [RenderTrace(surface)] else [];
    NoVerdicts(opening + calls);
    NoVerdicts(capture);
    NoVerdicts(trace);
    OneVerdict(surface, classified.after);
    VerdictsConcat(capture, verdict);
    VerdictsConcat(capture + verdict, trace);
    VerdictsConcat(opening + calls, capture + verdict + trace);
    assert DriveLog(surface, plan) == (opening + calls) + (capture + verdict + trace);
  }

  /** The aftermath announces a verdict only to record a failed render as a failure. */
  lemma AftermathVerdict(failures: Failures, classified: Classified, client: Option<Client>)
    ensures Verdicts(Aftermath(failures, classified, client).1) ==
            if failures.UnifiedFailures? && RenderFails(classified, failures.render) then [RunFailed] else []
  {
    var tail := Aftermath(failures, classified, client).1;
    if failures.UnifiedFailures? && RenderFails(classified, failures.render) {
      var shown := Present(UnifiedSurface, classified, failures.render).1;
      var flip, close := [OnEvent(UnifiedSurface, RunFinished(RunFailed))], [Finish(UnifiedSurface)];
      FlippedVerdict(shown, flip, close);
    } else {
      NoVerdicts(tail);
    }
  }

  lemma FlippedVerdict(shown: seq<Entry>, flip: seq<Entry>, close: seq<Entry>)
    requires flip == [OnEvent(UnifiedSurface, RunFinished(RunFailed))]
    requires forall entry <- shown :: !entry.OnEvent?
    requires forall entry <- close :: !entry.OnEvent?
    ensures Verdicts(shown + flip + close) == [RunFailed]
  {
    NoVerdicts(shown);
    NoVerdicts(close);
    OneVerdict(UnifiedSurface, RunFailed);
    VerdictsConcat(shown, flip);
    VerdictsConcat(shown + flip, close);
  }

  /** `RunFinished` carries the run's own outcome and is repeated, as failed, exactly when
      rendering the output fails on a unified surface. */
  lemma RunFinishedRepeats(failures: Failures, plan: Plan)
    ensures Verdicts(Lifecycle(failures, plan).1) ==
            [OwnOutcome(plan.execution)]
            + (if failures.UnifiedFailures? && OwnOutput(plan.execution).Some? && failures.render.Some?
               then [RunFailed] else [])
  {
    hide Classify;
    ClassifyReads(plan.execution);
    var tail := Aftermath(failures, Classify(plan.execution), ClientOf(plan.mode)).1;
    VerdictsConcat(DriveLog(DrivingSurface(failures), plan), tail);
    DriveLogVerdict(DrivingSurface(failures), plan);
    AftermathVerdict(failures, Classify(plan.execution), ClientOf(plan.mode));
    OutputMeansNoError(plan.execution);
  }

  lemma OutputMeansNoError(execution: Execution)
    ensures OwnOutput(execution).Some? ==> OwnError(execution).None?
  {
  }

  /* ---- The telemetry client as a linear resource. ---- */

  /** Every capture sits on the run's own client, and that client is either handed back
      unflushed or flushed exactly once, as the last call: never both, never neither. */
  predicate Linear(log: seq<Entry>, client: Option<Client>, ret: RunReturn) {
    && (forall i :: 0 <= i < |log| && log[i].Queue? ==> client == Some(log[i].client))
    && (ret.Ok? ==> ret.value.client == client && forall i :: 0 <= i < |log| ==> !log[i].Flush?)
    && (ret.Err? && client.Some? ==>
          && log != [] && log[|log| - 1] == Flush(client.value)
          && forall i :: 0 <= i < |log| - 1 ==> !log[i].Flush?)
    && (client.None? ==> forall i :: 0 <= i < |log| ==> !log[i].Flush?)
  }

  lemma AftermathIsLinear(failures: Failures, classified: Classified, client: Option<Client>)
    ensures var (ret, tail) := Aftermath(failures, classified, client);
            Linear(tail, client, ret)
  {
    // Unfolding the definitions suffices.
  }

  lemma LinearJoins(driven: seq<Entry>, tail: seq<Entry>, surface: SurfaceId, client: Option<Client>, ret: RunReturn)
    requires Driven(driven, surface, client) && Linear(tail, client, ret)
    ensures Linear(driven + tail, client, ret)
  {
    var log := driven + tail;
    assert forall i :: 0 <= i < |driven| ==> log[i] == driven[i];
    assert forall i :: |driven| <= i < |log| ==> log[i] == tail[i - |driven|];
  }

  lemma ClientIsLinear(failures: Failures, plan: Plan)
    ensures Linear(Lifecycle(failures, plan).1, ClientOf(plan.mode), Lifecycle(failures, plan).0)
  {
    var surface := DrivingSurface(failures);
    DriveLogDriven(surface, plan);
    var client := ClientOf(plan.mode);
    AftermathIsLinear(failures, Classify(plan.execution), client);
    var (ret, tail) := Aftermath(failures, Classify(plan.execution), client);
    LinearJoins(DriveLog(surface, plan), tail, surface, client, ret);
  }

  /* ---- What is shown. ---- */

  function ShowingSurface(failures: Failures): SurfaceId {
    if failures.SplitFailures? then FinalSurface else UnifiedSurface
  }

  function RenderFailure(failures: Failures): Option<CliError> {
    if failures.SplitFailures? then failures.finalRender else failures.render
  }

  /** A failed teardown of the progress surface ended the run before anything was shown. */
  predicate CutShort(failures: Failures, execution: Execution) {
    failures.SplitFailures? && failures.progressFinish.Some? && OwnOutcome(execution).RunSuccess?
  }

  /** The output is rendered exactly when there is one and no error; the errors rendered are
      exactly the run's own, or the one its rendering raised; and the trace exactly when asked for. */
  lemma ResultIsShownExactly(failures: Failures, plan: Plan, surface: SurfaceId, error: CliError)
    ensures var log := Lifecycle(failures, plan).1;
            && (Render(surface) in log <==>
                  surface == ShowingSurface(failures) && OwnOutput(plan.execution).Some?
                  && !CutShort(failures, plan.execution))
            && (RenderError(surface, error) in log <==>
                  surface == ShowingSurface(failures) && !CutShort(failures, plan.execution)
                  && (OwnError(plan.execution) == Some(error)
                      || (OwnOutput(plan.execution).Some? && RenderFailure(failures) == Some(error))))
            && (RenderTrace(surface) in log <==> plan.trace && surface == DrivingSurface(failures))
  {
    hide DriveLog, Aftermath, Classify;
    DriveLogDrives(DrivingSurface(failures), plan);
    DriveLogTrace(DrivingSurface(failures), plan, surface);
    ClassifyReads(plan.execution);
    OutputMeansNoError(plan.execution);
    AftermathShows(failures, Classify(plan.execution), ClientOf(plan.mode), surface, error);
  }

  predicate StopsShort(failures: Failures, classified: Classified) {
    failures.SplitFailures? && failures.progressFinish.Some? && classified.outcome.Complete?
  }

  lemma AftermathShows(failures: Failures, classified: Classified, client: Option<Client>, surface: SurfaceId,
          error: CliError)
    ensures var log := Aftermath(failures, classified, client).1;
            && RenderTrace(surface) !in log
            && (Render(surface) in log <==>
                  surface == ShowingSurface(failures) && classified.failure.None? && classified.output.Some?
                  && !StopsShort(failures, classified))
            && (RenderError(surface, error) in log <==>
                  surface == ShowingSurface(failures) && !StopsShort(failures, classified)
                  && (classified.failure == Some(error)
                      || (RenderFails(classified, RenderFailure(failures)) && RenderFailure(failures) == Some(error))))
  {
    // Unfolding the definitions suffices.
  }

  lemma DriveLogTrace(driving: SurfaceId, plan: Plan, surface: SurfaceId)
    ensures RenderTrace(surface) in DriveLog(driving, plan) <==> plan.trace && surface == driving
  {
    FeedDrives(InitialAdapter(plan.mode), driving, plan.events);
    FeedHasNoTrace(InitialAdapter(plan.mode), driving, plan.events);
  }

  lemma {:induction false} FeedHasNoTrace(a: AdapterState, surface: SurfaceId, events: seq<WorkflowEvent>)
    ensures forall entry <- Feed(a, surface, events).1 :: !entry.RenderTrace?
    decreases |events|
  {
    if events != [] {
      FeedHasNoTrace(a, surface, events[..|events| - 1]);
    }
  }

  /* ---- Exit codes. ---- */

  function Reported(ret: RunReturn): RunResult {
    match ret
    case Ok(handback) => Ok(handback.outcome)
    case Err(error) => Err(error)
  }

  /** The process exits 0 exactly when the executor succeeded with no pending error, its
      output (if any) rendered, and the surface carrying the run tore down cleanly. */
  lemma ExitsZeroExactly(failures: Failures, plan: Plan)
    ensures ProcessExitCode(Reported(Lifecycle(failures, plan).0)) == 0 <==>
            && plan.execution.Returned? && plan.execution.runOutcome.RunSuccess? && plan.execution.pendingError.None?
            && (plan.execution.output.Some? ==>
                  (if failures.SplitFailures? then failures.finalRender else failures.render).None?)
            && (if failures.SplitFailures? then failures.progressFinish else failures.finish).None?
  {
    assert forall error: CliError :: error.ExitCode() > 0;
  }

  /** An executor error keeps its own exit code whatever the surfaces do, and is what the
      error surface shows. */
  lemma ExecutorErrorKeepsItsCode(failures: Failures, plan: Plan, error: CliError)
    requires plan.execution == Errored(error)
             || (plan.execution.Returned? && plan.execution.pendingError == Some(error))
    ensures ProcessExitCode(Reported(Lifecycle(failures, plan).0)) == error.ExitCode()
    ensures RenderError(ShowingSurface(failures), error) in Lifecycle(failures, plan).1
    ensures Verdicts(Lifecycle(failures, plan).1) == [RunFailed]
  {
    RunFinishedRepeats(failures, plan);
    assert RenderError(ShowingSurface(failures), error)
        in Aftermath(failures, Classify(plan.execution), ClientOf(plan.mode)).1;
  }
}
