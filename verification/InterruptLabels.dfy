/** Which surface label an event carries: the one finalized last before it was begun, else
    the one gathered. */
module InterruptLabels {
  import opened Wrappers
  import opened Outcomes
  import opened Interrupt
  import opened InterruptInvariant
  import opened InterruptTheorems

  /** The event speaks for `context`, under the finalized label where there is one. */
  predicate Labelled(event: Event, context: CommandTelemetry, finalized: Option<string>) {
    && event.context.commandPath == context.commandPath
    && event.context.uiSurface == (if finalized.Some? then finalized.value else context.uiSurface)
  }

  /** The event of an uninterrupted run speaks for the gathered context, under the label
      finalized last, and reports the code the process exits with. */
  lemma UninterruptedLabel(hasTask: bool, schedule: seq<Action>)
    requires Exec(Init(hasTask), schedule).Some? && Sigint !in schedule
    requires Exec(Init(hasTask), schedule).value.exited.Some?
    ensures var end := Exec(Init(hasTask), schedule).value;
            forall event :: event in end.completed ==>
              && Yielded(schedule).Some?
              && Labelled(event, Yielded(schedule).value, LastFinalized(schedule, None))
              && event.outcome.exitCode == end.exited.value
  {
    UninterruptedRun(hasTask, schedule);
  }

  /** Interrupted or not, the event the command path begins speaks for the published context
      under the label finalized last, with the outcome of the command's own result. */
  lemma CommandEventLabel(s: State)
    requires Reachable(s) && s.takers == [Command] && s.begun != []
    ensures s.published.Some? && s.result.Some?
    ensures Labelled(s.begun[0], s.published.value, s.statics.surface)
    ensures s.begun[0].outcome == TelemetryOutcomeFor(s.result.value)
  {
    ReachableInv(s);
  }

  /** An outcome says how the run ended, with the code the process exits with uninterrupted,
      and describes an error if and only if there was one. */
  lemma OutcomeReportsResult(result: RunResult)
    ensures var outcome := TelemetryOutcomeFor(result);
            && (outcome.status == "cancelled" <==> result == Ok(Cancelled))
            && (outcome.status == "failed" <==> result.Err?)
            && (outcome.status == "completed" <==> result.Ok? && !result.value.Cancelled?)
            && outcome.exitCode == ProcessExitCode(result)
            && (outcome.errorClass.Some? <==> result.Err?)
            && (result.Ok? ==> outcome.httpStatus.None? && outcome.errorCode.None?)
            && (result.Err? ==> outcome.errorClass == Some(result.error.Class()))
            && (result.Err? && result.error.Metadata().Some? ==>
                  outcome.httpStatus == result.error.Metadata().value.httpStatus
                  && outcome.errorCode == result.error.Metadata().value.code)
  {
    assert "cancelled"[0] == 'c' && "failed"[0] == 'f' && "completed"[2] == 'm' && "cancelled"[2] == 'n';
  }

  /** The codes a process can exit with of its own accord. */
  lemma ExitCodesOfResults(error: CliError, code: int)
    ensures ProcessExitCode(Ok(Complete)) == 0 && ProcessExitCode(Ok(Exit(code))) == code
    ensures ProcessExitCode(Ok(Cancelled)) == 2 && ProcessExitCode(Err(error)) == error.ExitCode()
    ensures 1 <= error.ExitCode() <= 6 && (error.ExitCode() == 6 <==> error.Api? && error.category.Timeout?)
    ensures (error.ExitCode() == 1 <==> error.Usage?) && (error.ExitCode() == 2 <==> error.Auth?)
    ensures (error.ExitCode() == 4 <==> error.Network?) && (error.ExitCode() == 5 <==> error.Internal?)
  {
  }

  /** What is transmitted about each error: its class, and its metadata unless it has none. */
  lemma ErrorsAreClassified(metadata: Option<ErrorMetadata>)
    ensures Usage(metadata).Class() == "usage" && Auth(metadata).Class() == "auth"
    ensures Network(metadata).Class() == "network" && Internal.Class() == "internal"
    ensures Api(metadata, Permission).Class() == "permission" && Api(metadata, NotFound).Class() == "not_found"
    ensures Api(metadata, Rejected).Class() == "rejected" && Api(metadata, Timeout).Class() == "timeout"
    ensures Api(metadata, Upstream).Class() == "upstream"
    ensures forall error: CliError :: error.Metadata() == if error.Internal? then None else error.metadata
  {
  }

  /* ---- The watcher's event. ---- */

  /** What later steps never take back. */
  predicate Extends(s: State, next: State) {
    && (s.takers != [] ==> next.takers == s.takers)
    && s.begun <= next.begun
    && (s.published.Some? ==> next.published == s.published)
  }

  lemma StepExtends(s: State, action: Action)
    requires SlotInv(s) && MainInv(s) && HandlerInv(s) && Step(s, action).Some?
    ensures Extends(s, Step(s, action).value)
  {
  }

  lemma {:induction false} RunExtends(s: State, schedule: seq<Action>)
    requires Inv(s) && Exec(s, schedule).Some?
    ensures Extends(s, Exec(s, schedule).value)
    decreases |schedule|
  {
    if schedule != [] {
      hide Step;
      StepKeepsInv(s, schedule[0]);
      StepExtends(s, schedule[0]);
      RunExtends(Step(s, schedule[0]).value, schedule[1..]);
    }
  }

  /** Only the watcher begins an event of its own, when it labels the context it took. */
  lemma FirstEvent(s: State, action: Action)
    requires Inv(s) && Step(s, action).Some? && s.begun == [] && Step(s, action).value.begun != []
    requires Step(s, action).value.takers == [Watcher]
    ensures action == HandlerStep && s.published.Some?
    ensures Labelled(Step(s, action).value.begun[0], s.published.value, s.statics.surface)
    ensures Step(s, action).value.begun[0].outcome.exitCode == 130
    ensures Step(s, action).value.begun[0].outcome.status == "cancelled"
  {
  }

  lemma SurfaceAfter(s: State, action: Action)
    requires SlotInv(s) && MainInv(s) && Step(s, action).Some?
    ensures Step(s, action).value.statics.surface ==
            if action.Finalize? then Some(action.surface) else s.statics.surface
  {
    StepIsRecorded(s, action);
  }

  /** The moment the watcher labelled its event: it speaks for the published context, under the
      label finalized last by then, as a cancelled run that exits 130. */
  predicate LabelledAt(schedule: seq<Action>, k: nat, surface: Option<string>, end: State) {
    && k < |schedule| && schedule[k] == HandlerStep && end.published.Some? && end.begun != []
    && Labelled(end.begun[0], end.published.value, LastFinalized(schedule[..k], surface))
    && end.begun[0].outcome.exitCode == 130 && end.begun[0].outcome.status == "cancelled"
  }

  lemma {:induction false} WatcherLabels(s: State, schedule: seq<Action>) returns (k: nat)
    requires Inv(s) && Exec(s, schedule).Some? && s.begun == []
    requires Exec(s, schedule).value.takers == [Watcher] && Exec(s, schedule).value.begun != []
    ensures LabelledAt(schedule, k, s.statics.surface, Exec(s, schedule).value)
    decreases |schedule|
  {
    hide Step;
    var action, rest := schedule[0], schedule[1..];
    var next := Step(s, action).value;
    StepKeepsInv(s, action);
    StepExtends(s, action);
    RunExtends(next, rest);
    if next.begun == [] {
      SurfaceAfter(s, action);
      var j := WatcherLabels(next, rest);
      k := j + 1;
      assert schedule[..k][0] == action && schedule[..k][1..] == rest[..j];
    } else {
      TakerBegins(s, action);
      FirstEvent(s, action);
      k := 0;
      assert schedule[..k] == [];
    }
  }

  lemma TakerBegins(s: State, action: Action)
    requires Inv(s) && Step(s, action).Some? && s.begun == [] && Step(s, action).value.begun != []
    ensures Step(s, action).value.takers != []
  {
  }

  /** In every run whose watcher began an event, that event is labelled so. */
  lemma WatcherEventLabel(hasTask: bool, schedule: seq<Action>)
    requires Exec(Init(hasTask), schedule).Some?
    requires var end := Exec(Init(hasTask), schedule).value; end.takers == [Watcher] && end.begun != []
    ensures exists k :: LabelledAt(schedule, k, None, Exec(Init(hasTask), schedule).value)
  {
    InitInv(hasTask);
    var k := WatcherLabels(Init(hasTask), schedule);
  }
}
