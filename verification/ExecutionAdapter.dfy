/** The shared journal of calls, the presentation surfaces, and the adapter that turns
    executor events into surface calls and step telemetry. */
module ExecutionAdapter {
  import opened Wrappers
  import opened Outcomes
  import opened WorkflowEvents

  datatype SurfaceId = ProgressSurface | FinalSurface | UnifiedSurface

  /** One telemetry client instance; events queued on it are lost unless it is flushed. */
  type Client = nat

  datatype RunCompletedFacts = RunCompletedFacts(
    outcome: string,
    reason: Option<string>,
    counts: RunFacts,
    errorClass: Option<string>,
    httpStatus: Option<int>,
    errorCode: Option<string>)

  /** The run's own options, reported with both of its run captures. */
  datatype RunOptions = RunOptions(assumeYes: bool, noInput: bool)

  datatype StepCompletedFacts = StepCompletedFacts(
    outcome: string,
    reason: Option<string>,
    attempts: nat,
    durationMs: nat,
    errorClass: Option<string>,
    httpStatus: Option<int>,
    errorCode: Option<string>,
    inputFields: seq<string>,
    service: string,
    operation: string)

  datatype Capture =
    | RunStartedCapture(options: RunOptions)
    | StepStartedCapture(index: nat, id: string, service: string, operation: string)
    | StepCompletedCapture(index: nat, id: string, step: StepCompletedFacts)
    | RunCompletedCapture(facts: RunCompletedFacts, options: RunOptions)

  /** One observable call, in the order the calls happen. */
  datatype Entry =
    | OnEvent(surface: SurfaceId, event: FrontendEvent)
    | Render(surface: SurfaceId)
    | RenderError(surface: SurfaceId, error: CliError)
    | RenderTrace(surface: SurfaceId)
    | Finish(surface: SurfaceId)
    | Queue(client: Client, capture: Capture)
    | Flush(client: Client)

  /* ---- The adapter as a function of its state. ---- */

  type OperationName = (string, string)

  datatype AdapterState = AdapterState(
    suppress: bool,
    telemetry: Option<Client>,
    operations: seq<OperationName>,
    facts: Option<RunFacts>)

  function OperationOf(step: CompiledStep): OperationName {
    if step.operation.Some? then (step.operation.value.service, step.operation.value.operation)
    else if step.action.Some? then ("local", step.action.value)
    else ("", "")
  }

  function OperationsOf(steps: seq<CompiledStep>): seq<OperationName> {
    if steps == [] then [] else [OperationOf(steps[0])] + OperationsOf(steps[1..])
  }

  function OperationFor(operations: seq<OperationName>, index: nat): OperationName {
    if index < |operations| then operations[index] else ("", "")
  }

  /** The transmittable projection of a finished step. */
  function StepFacts(outcome: StepOutcome, reason: Option<string>, detail: StepDetail, service: string,
          operation: string): StepCompletedFacts
  {
    var error := detail.error;
    StepCompletedFacts(
      OutcomeLabel(outcome),
      reason,
      detail.attempts,
      detail.durationMs,
      if error.Some? then Some(error.value.errorClass) else None,
      if error.Some? then error.value.httpStatus else None,
      if error.Some? then error.value.code else None,
      if error.Some? then error.value.inputFields else [],
      service,
      operation)
  }

  function QueueIf(client: Option<Client>, capture: Capture): seq<Entry> {
    if client.Some? then [Queue(client.value, capture)] else []
  }

  /** One executor event: the adapter's next state and the calls it makes on `surface`. */
  function Translate(a: AdapterState, surface: SurfaceId, event: WorkflowEvent): (AdapterState, seq<Entry>) {
    if a.suppress && !event.Progress? then (a, []) else
    match event
    case WorkflowStarted(name, steps) =>
      (a.(operations := OperationsOf(steps)), [OnEvent(surface, RunStarted(Some(name)))])
    case StepStarted(index, id) =>
      var (service, operation) := OperationFor(a.operations, index);
      (a, QueueIf(a.telemetry, StepStartedCapture(index, id, service, operation))
          + [OnEvent(surface, StepBegan(index, id))])
    case StepFinished(index, id, summary, outcome, reason, detail) =>
      var (service, operation) := OperationFor(a.operations, index);
      (a, QueueIf(a.telemetry, StepCompletedCapture(index, id, StepFacts(outcome, reason, detail, service, operation)))
          + [OnEvent(surface, StepEnded(index, summary, detail.captures, outcome))])
    case WorkflowFinished(facts) => (a.(facts := Some(facts)), [])
    case Progress(stepIndex, signal) => (a, [OnEvent(surface, RunProgress(stepIndex, signal))])
  }

  /** A whole stream of executor events, in order. */
  function Feed(a: AdapterState, surface: SurfaceId, events: seq<WorkflowEvent>): (AdapterState, seq<Entry>)
    decreases |events|
  {
    if events == [] then (a, []) else
    var (middle, first) := Feed(a, surface, events[..|events| - 1]);
    var (last, calls) := Translate(middle, surface, events[|events| - 1]);
    (last, first + calls)
  }

  /* ---- The objects. ---- */

  class Journal {
    var log: seq<Entry>

    constructor ()
      ensures log == []
    {
      log := [];
    }

    method Append(entry: Entry)
      modifies this
      ensures log == old(log) + [entry]
    {
      log := log + [entry];
    }

    method AppendCapture(client: Option<Client>, capture: Capture)
      modifies this
      ensures log == old(log) + QueueIf(client, capture)
    {
      if client.Some? {
        Append(Queue(client.value, capture));
      }
    }
  }

  /** A presentation surface, with the failures its `render` and `finish` will report. */
  class Surface {
    const id: SurfaceId
    const journal: Journal
    const renderFailure: Option<CliError>
    const finishFailure: Option<CliError>

    constructor (id: SurfaceId, journal: Journal, renderFailure: Option<CliError>, finishFailure: Option<CliError>)
      ensures this.id == id && this.journal == journal
      ensures this.renderFailure == renderFailure && this.finishFailure == finishFailure
    {
      this.id, this.journal, this.renderFailure, this.finishFailure := id, journal, renderFailure, finishFailure;
    }

    method ShowEvent(event: FrontendEvent)
      modifies journal
      ensures journal.log == old(journal.log) + [OnEvent(id, event)]
    {
      journal.Append(OnEvent(id, event));
    }

    method ShowResult() returns (failure: Option<CliError>)
      modifies journal
      ensures failure == renderFailure && journal.log == old(journal.log) + [Render(id)]
    {
      journal.Append(Render(id));
      failure := renderFailure;
    }

    method ShowError(error: CliError)
      modifies journal
      ensures journal.log == old(journal.log) + [RenderError(id, error)]
    {
      journal.Append(RenderError(id, error));
    }

    method ShowTrace()
      modifies journal
      ensures journal.log == old(journal.log) + [RenderTrace(id)]
    {
      journal.Append(RenderTrace(id));
    }

    method TearDown() returns (failure: Option<CliError>)
      modifies journal
      ensures failure == finishFailure && journal.log == old(journal.log) + [Finish(id)]
    {
      journal.Append(Finish(id));
      failure := finishFailure;
    }
  }

  class ExecutionFrontendAdapter {
    const frontend: Surface
    const suppressLifecycle: bool
    const stepTelemetry: Option<Client>
    var stepOperations: seq<OperationName>
    var runFacts: Option<RunFacts>

    function State(): AdapterState
      reads this
    {
      AdapterState(suppressLifecycle, stepTelemetry, stepOperations, runFacts)
    }

    constructor (frontend: Surface, suppressLifecycle: bool, stepTelemetry: Option<Client>)
      ensures this.frontend == frontend
      ensures State() == AdapterState(suppressLifecycle, stepTelemetry, [], None)
    {
      this.frontend, this.suppressLifecycle, this.stepTelemetry := frontend, suppressLifecycle, stepTelemetry;
      stepOperations, runFacts := [], None;
    }

    method HandleEvent(event: WorkflowEvent)
      modifies this, frontend.journal
      ensures var (next, calls) := Translate(old(State()), frontend.id, event);
              State() == next && frontend.journal.log == old(frontend.journal.log) + calls
    {
      if suppressLifecycle && !event.Progress? {
        return;
      }
      match event {
        case WorkflowStarted(name, steps) =>
          stepOperations := OperationsOf(steps);
          frontend.ShowEvent(RunStarted(Some(name)));
        case StepStarted(index, id) =>
          var (service, operation) := OperationFor(stepOperations, index);
          frontend.journal.AppendCapture(stepTelemetry, StepStartedCapture(index, id, service, operation));
          frontend.ShowEvent(StepBegan(index, id));
        case StepFinished(index, id, summary, outcome, reason, detail) =>
          var (service, operation) := OperationFor(stepOperations, index);
          var facts := StepFacts(outcome, reason, detail, service, operation);
          frontend.journal.AppendCapture(stepTelemetry, StepCompletedCapture(index, id, facts));
          frontend.ShowEvent(StepEnded(index, summary, detail.captures, outcome));
        case WorkflowFinished(facts) => runFacts := Some(facts);
        case Progress(stepIndex, signal) => frontend.ShowEvent(RunProgress(stepIndex, signal));
      }
    }

    /** The executor driving this adapter with its events, in order. */
    method HandleEvents(events: seq<WorkflowEvent>)
      modifies this, frontend.journal
      ensures var (next, calls) := Feed(old(State()), frontend.id, events);
              State() == next && frontend.journal.log == old(frontend.journal.log) + calls
    {
      var i := 0;
      while i < |events|
        invariant 0 <= i <= |events|
        invariant var (next, calls) := Feed(old(State()), frontend.id, events[..i]);
                  State() == next && frontend.journal.log == old(frontend.journal.log) + calls
      {
        assert events[..i + 1][..i] == events[..i];
        HandleEvent(events[i]);
        i := i + 1;
      }
      assert events[..i] == events;
    }
  }

  /* ---- What the frontend sees, and what telemetry says. ---- */

  function OnEvents(log: seq<Entry>): seq<FrontendEvent> {
    if log == [] then [] else
    OnEvents(log[..|log| - 1]) + (if log[|log| - 1].OnEvent? then [log[|log| - 1].event] else [])
  }

  function Captures(log: seq<Entry>): seq<Capture> {
    if log == [] then [] else
    Captures(log[..|log| - 1]) + (if log[|log| - 1].Queue? then [log[|log| - 1].capture] else [])
  }

  lemma {:induction false} ProjectionsConcat(a: seq<Entry>, b: seq<Entry>)
    ensures OnEvents(a + b) == OnEvents(a) + OnEvents(b)
    ensures Captures(a + b) == Captures(a) + Captures(b)
    decreases |b|
  {
    if b == [] {
      assert a + b == a;
    } else {
      assert (a + b)[..|a + b| - 1] == a + b[..|b| - 1];
      ProjectionsConcat(a, b[..|b| - 1]);
    }
  }

  /** Which executor events reach the frontend; when suppressed, progress only. */
  predicate Forwarded(suppress: bool, event: WorkflowEvent) {
    if suppress then event.Progress? else !event.WorkflowFinished?
  }

  /** The frontend's rendering of one forwarded event. */
  function Shown(event: WorkflowEvent): FrontendEvent
    requires !event.WorkflowFinished?
  {
    match event
    case WorkflowStarted(name, _) => RunStarted(Some(name))
    case StepStarted(index, id) => StepBegan(index, id)
    case StepFinished(index, _, summary, outcome, _, detail) => StepEnded(index, summary, detail.captures, outcome)
    case Progress(stepIndex, signal) => RunProgress(stepIndex, signal)
  }

  function FilterMap(suppress: bool, events: seq<WorkflowEvent>): seq<FrontendEvent> {
    if events == [] then [] else
    var last := events[|events| - 1];
    FilterMap(suppress, events[..|events| - 1]) + (if Forwarded(suppress, last) then [Shown(last)] else [])
  }

  /** The steps announced by the latest `WorkflowStarted`, none before the first. */
  function LatestSteps(events: seq<WorkflowEvent>): seq<CompiledStep> {
    if events == [] then []
    else if events[|events| - 1].WorkflowStarted? then events[|events| - 1].steps
    else LatestSteps(events[..|events| - 1])
  }

  /** The operation of the step at `index` among the latest announced steps. */
  function NamedOperation(before: seq<WorkflowEvent>, index: nat): OperationName {
    var steps := LatestSteps(before);
    if index < |steps| then OperationOf(steps[index]) else ("", "")
  }

  /** The capture a step event queues when `operation` names its step. */
  function StepCapture(event: WorkflowEvent, operation: OperationName): Capture
    requires event.StepStarted? || event.StepFinished?
  {
    if event.StepStarted? then StepStartedCapture(event.index, event.id, operation.0, operation.1)
    else
      StepCompletedCapture(event.index, event.id,
                           StepFacts(event.outcome, event.reason, event.detail, operation.0, operation.1))
  }

  /** One capture per step event, naming the operation at its index. */
  function StepCaptures(events: seq<WorkflowEvent>): seq<Capture> {
    if events == [] then [] else
    var before := events[..|events| - 1];
    var last := events[|events| - 1];
    StepCaptures(before) +
    (if last.StepStarted? || last.StepFinished? then [StepCapture(last, NamedOperation(before, last.index))] else [])
  }

  /** The aggregate of the latest `WorkflowFinished`. */
  function LatestFacts(events: seq<WorkflowEvent>): Option<RunFacts> {
    if events == [] then None
    else if events[|events| - 1].WorkflowFinished? then Some(events[|events| - 1].facts)
    else LatestFacts(events[..|events| - 1])
  }

  lemma {:induction false} OperationsOfAt(steps: seq<CompiledStep>, index: nat)
    ensures OperationFor(OperationsOf(steps), index) == if index < |steps| then OperationOf(steps[index]) else ("", "")
    ensures |OperationsOf(steps)| == |steps|
  {
    if steps != [] {
      OperationsOfAt(steps[1..], if index > 0 then index - 1 else 0);
    }
  }

  /** A full-lifecycle adapter shows every event but the last, and queues one capture per step
      event naming the operation at its index in the latest `WorkflowStarted`; a suppressed
      one shows progress only and queues nothing. */
  lemma {:induction false} AdapterTrace(suppress: bool, telemetry: Option<Client>, surface: SurfaceId,
          events: seq<WorkflowEvent>)
    requires suppress ==> telemetry.None?
    ensures var (end, log) := Feed(AdapterState(suppress, telemetry, [], None), surface, events);
            && OnEvents(log) == FilterMap(suppress, events)
            && Captures(log) == (if telemetry.Some? then StepCaptures(events) else [])
            && end.facts == (if suppress then None else LatestFacts(events))
            && end.suppress == suppress && end.telemetry == telemetry
            && (!suppress ==> end.operations == OperationsOf(LatestSteps(events)))
    decreases |events|
  {
    if events != [] {
      hide Translate, OnEvents, Captures, OperationsOf, OperationFor, OperationOf, StepCapture, Shown;
      var before, last := events[..|events| - 1], events[|events| - 1];
      var start := AdapterState(suppress, telemetry, [], None);
      AdapterTrace(suppress, telemetry, surface, before);
      var (middle, log) := Feed(start, surface, before);
      ProjectionsConcat(log, Translate(middle, surface, last).1);
      if last.StepStarted? || last.StepFinished? {
        OperationsOfAt(LatestSteps(before), last.index);
      }
      CallsProjected(middle, surface, last);
      StateAfter(middle, surface, last);
    } else {
      assert OnEvents([]) == [] && Captures([]) == [];
    }
  }

  /** What one event leaves the adapter holding. */
  lemma StateAfter(a: AdapterState, surface: SurfaceId, event: WorkflowEvent)
    ensures var next := Translate(a, surface, event).0;
            && next.suppress == a.suppress && next.telemetry == a.telemetry
            && next.facts == (if !a.suppress && event.WorkflowFinished? then Some(event.facts) else a.facts)
            && next.operations ==
               if !a.suppress && event.WorkflowStarted? then OperationsOf(event.steps) else a.operations
  {
  }

  /** The calls of one event: at most one capture, then at most one frontend event. */
  lemma CallsProjected(a: AdapterState, surface: SurfaceId, event: WorkflowEvent)
    requires a.suppress ==> a.telemetry.None?
    ensures var calls := Translate(a, surface, event).1;
            && OnEvents(calls) == (if Forwarded(a.suppress, event) then [Shown(event)] else [])
            && Captures(calls) ==
               if a.telemetry.Some? && (event.StepStarted? || event.StepFinished?)
               then [StepCapture(event, OperationFor(a.operations, event.index))] else []
  {
    var calls := Translate(a, surface, event).1;
    if Forwarded(a.suppress, event) {
      var shown := Shown(event);
      if a.telemetry.Some? && (event.StepStarted? || event.StepFinished?) {
        var capture := StepCapture(event, OperationFor(a.operations, event.index));
        assert calls == [Queue(a.telemetry.value, capture)] + [OnEvent(surface, shown)];
        PairProjected(a.telemetry.value, capture, surface, shown);
      } else {
        assert calls == [OnEvent(surface, shown)];
        ProjectionsOfOne(OnEvent(surface, shown));
      }
    } else {
      assert calls == [];
    }
  }

  lemma PairProjected(client: Client, capture: Capture, surface: SurfaceId, shown: FrontendEvent)
    ensures OnEvents([Queue(client, capture)] + [OnEvent(surface, shown)]) == [shown]
    ensures Captures([Queue(client, capture)] + [OnEvent(surface, shown)]) == [capture]
  {
    ProjectionsConcat([Queue(client, capture)], [OnEvent(surface, shown)]);
    ProjectionsOfOne(Queue(client, capture));
    ProjectionsOfOne(OnEvent(surface, shown));
  }

  lemma ProjectionsOfOne(entry: Entry)
    ensures OnEvents([entry]) == if entry.OnEvent? then [entry.event] else []
    ensures Captures([entry]) == if entry.Queue? then [entry.capture] else []
  {
    assert [entry][..0] == [];
  }
}
