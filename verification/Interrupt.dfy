/** The Ctrl-C / telemetry hand-off as a labelled transition system.

    Three actors share the process-wide statics: the command path that ends in
    `finish_self_owned` (`main`), the spawned gather task (`gather`) and the
    Ctrl-C watcher (`handler`). A schedule is a sequence of actions; every
    interleaving, with any number of SIGINTs, is some schedule. Sending an event
    takes two steps, because the other actor's `process::exit` can fall between. */
module Interrupt {
  import opened Wrappers
  import opened Outcomes

  datatype CommandTelemetry = CommandTelemetry(commandPath: string, uiSurface: string)

  datatype Event = Event(context: CommandTelemetry, outcome: TelemetryOutcome)

  /** The process-wide statics. */
  datatype Statics = Statics(
    slot: Option<CommandTelemetry>,
    requested: bool,
    owns: bool,
    surface: Option<string>)

  function Publish(s: Statics, context: CommandTelemetry): Statics {
    s.(slot := Some(context))
  }

  function Take(s: Statics): (Statics, Option<CommandTelemetry>) {
    (s.(slot := None), s.slot)
  }

  predicate ShouldForceInterruptExit(s: Statics) {
    s.requested && !s.owns
  }

  /** Overwrite the gathered surface label when a route resolved one. */
  function Retag(context: CommandTelemetry, surface: Option<string>): CommandTelemetry {
    if surface.Some? then context.(uiSurface := surface.value) else context
  }

  datatype Actor = Command | Watcher

  datatype MainPc =
    | Running
    | Joining(result: RunResult)
    | TakingBack(result: RunResult)
    | Retagging(result: RunResult, context: CommandTelemetry)
    | Sending(result: RunResult, event: Event)
    | Checking(result: RunResult)
    | Leaving(code: int)

  datatype GatherPc = Absent | Gathering | Gathered(context: CommandTelemetry) | Finished

  datatype HandlerPc =
    | Armed
    | Woken
    | Flagged
    | Deferring
    | Claiming
    | Labelling(context: CommandTelemetry)
    | Flushing(event: Event)
    | Quitting
    | Gone

  /** `sigints` to `completed` are history: they record a run and never steer it. */
  datatype State = State(
    statics: Statics,
    main: MainPc,
    gather: GatherPc,
    handler: HandlerPc,
    exited: Option<int>,
    sigints: nat,
    ownedAtFirst: bool,
    published: Option<CommandTelemetry>,
    result: Option<RunResult>,
    takers: seq<Actor>,
    begun: seq<Event>,
    completed: seq<Event>)

  /** `hasTask` is false exactly for an empty command line, where nothing is gathered. */
  function Init(hasTask: bool): State {
    State(Statics(None, false, false, None), Running, if hasTask then Gathering else Absent, Armed,
          None, 0, false, None, None, [], [], [])
  }

  datatype Action =
    | Sigint
    | WatcherFails
    | Declare
    | Finalize(surface: string)
    | Return(result: RunResult)
    | GatherYields(context: CommandTelemetry)
    | GatherFails
    | GatherPublishes
    | MainStep
    | HandlerStep

  /** A SIGINT wakes whoever is waiting on `ctrl_c()`; with no waiter it is lost. */
  function DeliverSigint(s: State): State {
    s.(sigints := s.sigints + 1,
       ownedAtFirst := if s.sigints == 0 then s.statics.owns else s.ownedAtFirst,
       handler :=
         match s.handler
         case Armed => Woken
         case Deferring => Quitting
         case Flushing(_) => Quitting
         case _ => s.handler)
  }

  function StepMain(s: State): Option<State> {
    match s.main
    case Running => None
    case Joining(result) =>
      if s.gather.Finished? then Some(s.(main := TakingBack(result))) else None
    case TakingBack(result) =>
      var (statics, taken) := Take(s.statics);
      if taken.Some? then
        Some(s.(statics := statics, main := Retagging(result, taken.value), takers := s.takers + [Command]))
      else
        Some(s.(main := Checking(result)))
    case Retagging(result, context) =>
      var event := Event(Retag(context, s.statics.surface), TelemetryOutcomeFor(result));
      Some(s.(main := Sending(result, event), begun := s.begun + [event]))
    case Sending(result, event) =>
      Some(s.(main := Checking(result), completed := s.completed + [event]))
    case Checking(result) =>
      // Only this actor ever writes `owns`, so the two loads behave as one.
      Some(s.(main := Leaving(if ShouldForceInterruptExit(s.statics) then INTERRUPT_EXIT_CODE
                              else ProcessExitCode(result))))
    case Leaving(code) => Some(s.(exited := Some(code)))
  }

  function StepHandler(s: State): Option<State> {
    match s.handler
    case Armed => None
    case Woken => Some(s.(handler := Flagged, statics := s.statics.(requested := true)))
    case Flagged => Some(s.(handler := if s.statics.owns then Deferring else Claiming))
    case Deferring => None
    case Claiming =>
      var (statics, taken) := Take(s.statics);
      if taken.Some? then
        Some(s.(statics := statics, handler := Labelling(taken.value), takers := s.takers + [Watcher]))
      else
        Some(s.(handler := Quitting))
    case Labelling(context) =>
      var event := Event(Retag(context, s.statics.surface), INTERRUPT_OUTCOME);
      Some(s.(handler := Flushing(event), begun := s.begun + [event]))
    case Flushing(event) => Some(s.(handler := Quitting, completed := s.completed + [event]))
    case Quitting => Some(s.(exited := Some(INTERRUPT_EXIT_CODE)))
    case Gone => None
  }

  function StepCommand(s: State, action: Action): Option<State>
    requires action.Declare? || action.Finalize? || action.Return?
  {
    if !s.main.Running? then None else
    match action
    case Declare => Some(s.(statics := s.statics.(owns := true)))
    case Finalize(surface) => Some(s.(statics := s.statics.(surface := Some(surface))))
    case Return(result) =>
      Some(s.(main := if s.gather.Absent? then Checking(result) else Joining(result), result := Some(result)))
  }

  function StepGather(s: State, action: Action): Option<State>
    requires action.GatherYields? || action.GatherFails? || action.GatherPublishes?
  {
    match action
    case GatherYields(context) => if s.gather.Gathering? then Some(s.(gather := Gathered(context))) else None
    case GatherFails => if s.gather.Gathering? then Some(s.(gather := Finished)) else None
    case GatherPublishes =>
      if s.gather.Gathered? then
        Some(s.(gather := Finished, statics := Publish(s.statics, s.gather.context),
                published := Some(s.gather.context)))
      else None
  }

  /** One step; `None` when the action is not enabled. Nothing runs after the exit. */
  function Step(s: State, action: Action): Option<State> {
    if s.exited.Some? then None else
    match action
    case Sigint => Some(DeliverSigint(s))
    case WatcherFails =>
      (match s.handler
       case Armed => Some(s.(handler := Gone))
       case Deferring => Some(s.(handler := Gone))
       case Flushing(_) => Some(s.(handler := Quitting))
       case _ => None)
    case MainStep => StepMain(s)
    case HandlerStep => StepHandler(s)
    case Declare => StepCommand(s, action)
    case Finalize(_) => StepCommand(s, action)
    case Return(_) => StepCommand(s, action)
    case GatherYields(_) => StepGather(s, action)
    case GatherFails => StepGather(s, action)
    case GatherPublishes => StepGather(s, action)
  }

  function Exec(s: State, schedule: seq<Action>): Option<State>
    decreases |schedule|
  {
    if schedule == [] then Some(s) else
    match Step(s, schedule[0])
    case None => None
    case Some(next) => Exec(next, schedule[1..])
  }

  ghost predicate Reachable(s: State) {
    exists hasTask, schedule :: Exec(Init(hasTask), schedule) == Some(s)
  }
}
