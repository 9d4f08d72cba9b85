/** How one invocation ends: the error taxonomy, the invocation outcome, and the
    projections of both onto a process exit code and onto a telemetry outcome. */
module Outcomes {
  import opened Wrappers

  datatype ApiErrorCategory = Permission | NotFound | Rejected | Timeout | Upstream

  /** The machine-readable part of an error; free text is never transmitted. */
  datatype ErrorMetadata = ErrorMetadata(httpStatus: Option<int>, code: Option<string>)

  datatype CliError =
    | Usage(metadata: Option<ErrorMetadata>)
    | Auth(metadata: Option<ErrorMetadata>)
    | Api(metadata: Option<ErrorMetadata>, category: ApiErrorCategory)
    | Network(metadata: Option<ErrorMetadata>)
    | Internal
  {
    function ExitCode(): int {
      match this
      case Usage(_) => 1
      case Auth(_) => 2
      case Api(_, category) => if category.Timeout? then 6 else 3
      case Network(_) => 4
      case Internal => 5
    }

    function Class(): string {
      match this
      case Usage(_) => "usage"
      case Auth(_) => "auth"
      case Api(_, Permission) => "permission"
      case Api(_, NotFound) => "not_found"
      case Api(_, Rejected) => "rejected"
      case Api(_, Timeout) => "timeout"
      case Api(_, Upstream) => "upstream"
      case Network(_) => "network"
      case Internal => "internal"
    }

    function Metadata(): Option<ErrorMetadata> {
      if Internal? then None else metadata
    }
  }

  datatype InvocationOutcome = Complete | Exit(code: int) | Cancelled

  type RunResult = Result<InvocationOutcome, CliError>

  datatype RunOutcome = RunSuccess | RunFailed | RunCancelled

  /** Cancellation is carried by the outcome, never inferred from an exit code. */
  function RunOutcomeFor(result: RunResult): RunOutcome {
    match result
    case Ok(Cancelled) => RunCancelled
    case Ok(_) => RunSuccess
    case Err(_) => RunFailed
  }

  function StatusLabel(outcome: RunOutcome): string {
    match outcome
    case RunSuccess => "completed"
    case RunFailed => "failed"
    case RunCancelled => "cancelled"
  }

  datatype TelemetryOutcome = TelemetryOutcome(
    status: string,
    exitCode: int,
    errorClass: Option<string>,
    httpStatus: Option<int>,
    errorCode: Option<string>)

  function TelemetryOutcomeFor(result: RunResult): TelemetryOutcome {
    var status := StatusLabel(RunOutcomeFor(result));
    match result
    case Ok(Complete) => TelemetryOutcome(status, 0, None, None, None)
    case Ok(Exit(code)) => TelemetryOutcome(status, code, None, None, None)
    case Ok(Cancelled) => TelemetryOutcome(status, 2, None, None, None)
    case Err(error) =>
      var metadata := error.Metadata();
      TelemetryOutcome(status, error.ExitCode(), Some(error.Class()),
                       if metadata.Some? then metadata.value.httpStatus else None,
                       if metadata.Some? then metadata.value.code else None)
  }

  /** The code the process really exits with when nothing interrupts it: the last
      `match` of `finish_self_owned`, where returning from `main` is exit 0. */
  function ProcessExitCode(result: RunResult): int {
    match result
    case Err(error) => error.ExitCode()
    case Ok(Exit(code)) => code
    case Ok(Cancelled) => 2
    case Ok(Complete) => 0
  }

  const INTERRUPT_EXIT_CODE := 130

  const INTERRUPT_OUTCOME :=
    TelemetryOutcome("cancelled", INTERRUPT_EXIT_CODE, None, None, None)
}
