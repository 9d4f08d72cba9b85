/** The process-wide statics as the object the actors really share, and
    `finish_self_owned` as the sequential code the command path runs on it. */
module InterruptStatics {
  import opened Wrappers
  import opened Outcomes
  import opened Interrupt

  predicate AtFinish(s: State) {
    s.exited.None? && !s.main.Running? && (s.main.Joining? ==> s.gather.Finished?)
  }

  function Remaining(main: MainPc): nat {
    match main
    case Running => 7
    case Joining(_) => 6
    case TakingBack(_) => 5
    case Retagging(_, _) => 4
    case Sending(_, _) => 3
    case Checking(_) => 2
    case Leaving(_) => 1
  }

  /** The transition system with only the command path moving, until it exits. */
  function RunMain(s: State): State
    requires AtFinish(s)
    decreases Remaining(s.main)
  {
    var next := StepMain(s).value;
    if next.exited.Some? then next else RunMain(next)
  }

  /** One step of the command path that does not exit. */
  function Advance(s: State): (next: State)
    requires AtFinish(s) && !s.main.Leaving?
    ensures AtFinish(next) && RunMain(next) == RunMain(s)
  {
    StepMain(s).value
  }

  lemma {:induction false} RunMainIsARun(s: State) returns (schedule: seq<Action>)
    requires AtFinish(s)
    ensures Exec(s, schedule) == Some(RunMain(s)) && RunMain(s).exited.Some?
    ensures forall action :: action in schedule ==> action.MainStep?
    decreases Remaining(s.main)
  {
    var next := StepMain(s).value;
    if next.exited.Some? {
      schedule := [MainStep];
      assert Exec(next, []) == Some(next);
    } else {
      var rest := RunMainIsARun(next);
      schedule := [MainStep] + rest;
      assert schedule[1..] == rest;
    }
  }

  class ProcessStatics {
    var slot: Option<CommandTelemetry>
    var requested: bool
    var owns: bool
    var surface: Option<string>

    ghost function Snapshot(): Statics
      reads this
    {
      Statics(slot, requested, owns, surface)
    }

    constructor ()
      ensures Snapshot() == Init(true).statics
    {
      slot, requested, owns, surface := None, false, false, None;
    }

    method PublishInterruptTelemetry(context: CommandTelemetry)
      modifies this`slot
      ensures Snapshot() == Publish(old(Snapshot()), context)
    {
      slot := Some(context);
    }

    method TakeInterruptTelemetry() returns (taken: Option<CommandTelemetry>)
      modifies this`slot
      ensures (Snapshot(), taken) == Take(old(Snapshot()))
    {
      taken := slot;
      slot := None;
    }

    method PublishFinalizedUiSurface(resolved: string)
      modifies this`surface
      ensures Snapshot() == old(Snapshot()).(surface := Some(resolved))
    {
      surface := Some(resolved);
    }

    method DeclareCommandOwnsInterruptPath()
      modifies this`owns
      ensures Snapshot() == old(Snapshot()).(owns := true)
    {
      owns := true;
    }

    /** With the gather task joined and nobody else moving, this is the command path of
        the transition system from `machine`: same exit code, same events, same statics. */
    method FinishSelfOwned(result: RunResult, hasTask: bool, ghost machine: State)
      returns (code: int, sent: seq<Event>)
      requires machine.statics == Snapshot() && machine.exited.None?
      requires machine.main == if hasTask then Joining(result) else Checking(result)
      requires hasTask ==> machine.gather.Finished?
      modifies this`slot
      ensures var end := RunMain(machine);
              && end.exited == Some(code) && end.statics == Snapshot()
              && end.begun == machine.begun + sent && end.completed == machine.completed + sent
      ensures if hasTask && old(slot).Some? then
                && |sent| == 1 && sent[0].context.commandPath == old(slot).value.commandPath
                && sent[0].context.uiSurface == (if surface.Some? then surface.value else old(slot).value.uiSurface)
                && sent[0].outcome == TelemetryOutcomeFor(result)
              else sent == []
      ensures code == if requested && !owns then 130 else TelemetryOutcomeFor(result).exitCode
    {
      sent := [];
      ghost var s := machine;
      if hasTask {
        s := Advance(s);
        var taken := TakeInterruptTelemetry();
        s := Advance(s);
        if taken.Some? {
          s := Advance(s);
          s := Advance(s);
          sent := sent + [Event(Retag(taken.value, surface), TelemetryOutcomeFor(result))];
        }
      }
      assert s.main == Checking(result) && RunMain(s) == RunMain(machine);
      assert RunMain(s) == RunMain(StepMain(s).value);
      if requested && !owns {
        return INTERRUPT_EXIT_CODE, sent;
      }
      match result {
        case Err(error) => code := error.ExitCode();
        case Ok(Exit(c)) => code := c;
        case Ok(Cancelled) => code := 2;
        case Ok(Complete) => code := 0;
      }
    }
  }
}
