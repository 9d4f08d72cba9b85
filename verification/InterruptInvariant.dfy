/** The inductive invariant of the hand-off, and its preservation by every action. */
module InterruptInvariant {
  import opened Wrappers
  import opened Outcomes
  import opened Interrupt

  /** The event the command path sends: published context, surface and result. */
  function CommandEvent(s: State): Event
    requires s.published.Some? && s.result.Some?
  {
    Event(Retag(s.published.value, s.statics.surface), TelemetryOutcomeFor(s.result.value))
  }

  /** Main is past `take_interrupt_telemetry`, whatever it found there. */
  predicate PastTake(main: MainPc) {
    main.Retagging? || main.Sending? || main.Checking? || main.Leaving?
  }

  /** The context is conserved: published once, then in the slot or with one taker. */
  predicate SlotInv(s: State) {
    match s.published
    case None => s.statics.slot.None? && s.takers == []
    case Some(context) =>
      && s.gather.Finished?
      && (if s.takers == [] then s.statics.slot == Some(context)
          else s.statics.slot.None? && (s.takers == [Command] || s.takers == [Watcher]))
  }

  predicate MainInv(s: State) {
    && (s.main.Running? <==> s.result.None?)
    && (s.main.Joining? || s.main.TakingBack? || s.main.Retagging? || s.main.Sending? || s.main.Checking? ==>
          s.result == Some(s.main.result))
    && (s.main.Joining? ==> !s.gather.Absent?)
    && (s.main.TakingBack? ==> s.gather.Finished?)
    && (PastTake(s.main) ==> s.statics.slot.None? && (s.gather.Finished? || s.gather.Absent?))
    && (s.main.Retagging? || s.main.Sending? ==> s.takers == [Command])
    && (s.takers == [Command] ==> PastTake(s.main))
    && (s.main.Leaving? ==>
          || (s.main.code == INTERRUPT_EXIT_CODE && ShouldForceInterruptExit(s.statics))
          || s.main.code == ProcessExitCode(s.result.value))
  }

  predicate HandlerInv(s: State) {
    && (s.handler.Armed? ==> s.sigints == 0)
    && (s.handler.Armed? || s.handler.Woken? ==> !s.statics.requested)
    && (!s.handler.Armed? && !s.handler.Woken? && !s.handler.Gone? ==> s.statics.requested)
    && (s.statics.requested || s.handler.Woken? ==> s.sigints > 0)
    && (s.handler.Deferring? ==> s.statics.owns)
    && (s.handler.Labelling? || s.handler.Flushing? ==> s.takers == [Watcher])
    && (s.takers == [Watcher] ==> s.handler.Labelling? || s.handler.Flushing? || s.handler.Quitting?)
    && (s.ownedAtFirst ==>
          s.statics.owns && s.sigints > 0 && !s.handler.Claiming? && s.takers != [Watcher])
  }

  /** What the watcher relies on: publish before join, join before take, take before check. */
  predicate OrderInv(s: State) {
    s.takers == [Watcher] && s.main.Leaving? ==> s.main.code == INTERRUPT_EXIT_CODE || s.statics.owns
  }

  predicate LogInv(s: State) {
    if s.takers == [] then s.begun == [] && s.completed == []
    else if s.published.None? then false
    else if s.takers == [Command] then
      s.result.Some? &&
      match s.main
      case Retagging(_, context) => context == s.published.value && s.begun == [] && s.completed == []
      case Sending(_, event) => event == CommandEvent(s) && s.begun == [event] && s.completed == []
      case _ => s.begun == [CommandEvent(s)] && s.completed == s.begun
    else
      match s.handler
      case Labelling(context) => context == s.published.value && s.begun == [] && s.completed == []
      case Flushing(event) => event.outcome == INTERRUPT_OUTCOME && s.begun == [event] && s.completed == []
      case _ =>
        |s.begun| == 1 && s.begun[0].outcome == INTERRUPT_OUTCOME && (s.completed == [] || s.completed == s.begun)
  }

  predicate ExitInv(s: State) {
    s.exited.Some? ==>
      s.main == Leaving(s.exited.value) || (s.exited.value == INTERRUPT_EXIT_CODE && s.handler.Quitting?)
  }

  predicate Inv(s: State) {
    SlotInv(s) && MainInv(s) && HandlerInv(s) && OrderInv(s) && LogInv(s) && ExitInv(s)
  }

  lemma InitInv(hasTask: bool)
    ensures Inv(Init(hasTask))
  {
  }

  lemma {:induction false} StepKeepsInv(s: State, action: Action)
    requires Inv(s) && Step(s, action).Some?
    ensures Inv(Step(s, action).value)
  {
    hide SlotInv, MainInv, HandlerInv, OrderInv, ExitInv, LogInv, StepMain, StepHandler;
    if action.MainStep? {
      MainStepKeepsInv(s);
    } else if action.HandlerStep? {
      HandlerStepKeepsInv(s);
    } else if action.Sigint? || action.WatcherFails? {
      SignalKeepsInv(s, action);
    } else if action.Declare? || action.Finalize? || action.Return? {
      CommandKeepsInv(s, action);
    } else {
      GatherKeepsInv(s, action);
    }
  }

  lemma SignalKeepsInv(s: State, action: Action)
    requires Inv(s) && (action.Sigint? || action.WatcherFails?) && Step(s, action).Some?
    ensures Inv(Step(s, action).value)
  {
    hide StepMain, StepHandler;
  }

  lemma CommandKeepsInv(s: State, action: Action)
    requires Inv(s) && (action.Declare? || action.Finalize? || action.Return?) && Step(s, action).Some?
    ensures Inv(Step(s, action).value)
  {
    hide StepMain, StepHandler;
  }

  lemma GatherKeepsInv(s: State, action: Action)
    requires Inv(s) && (action.GatherYields? || action.GatherFails? || action.GatherPublishes?) && Step(s, action).Some?
    ensures Inv(Step(s, action).value)
  {
    hide StepMain, StepHandler;
  }

  lemma MainStepKeepsInv(s: State)
    requires Inv(s) && s.exited.None? && StepMain(s).Some?
    ensures Inv(StepMain(s).value)
  {
    MainStepKeepsMain(s);
    MainStepKeepsOrder(s);
    MainStepKeepsLog(s);
    hide SlotInv, MainInv, HandlerInv, OrderInv, ExitInv, LogInv, StepMain;
  }

  lemma MainStepKeepsMain(s: State)
    requires Inv(s) && s.exited.None? && StepMain(s).Some?
    ensures MainInv(StepMain(s).value)
  {
    hide LogInv, HandlerInv, ExitInv;
    if s.main.TakingBack? {
      assert [] + [Command] == [Command];
    }
  }

  lemma MainStepKeepsOrder(s: State)
    requires Inv(s) && s.exited.None? && StepMain(s).Some?
    ensures var next := StepMain(s).value;
            SlotInv(next) && HandlerInv(next) && OrderInv(next) && ExitInv(next)
  {
    hide LogInv;
    if s.main.TakingBack? {
      assert [] + [Command] == [Command];
    }
  }

  lemma MainStepKeepsLog(s: State)
    requires Inv(s) && s.exited.None? && StepMain(s).Some?
    ensures LogInv(StepMain(s).value)
  {
    var next := StepMain(s).value;
    match s.main {
      case Joining(_) =>
      case TakingBack(_) => assert [] + [Command] == [Command];
      case Retagging(_, _) =>
        assert next.begun == [CommandEvent(next)];
      case Sending(_, event) =>
        assert next.completed == [event];
      case Checking(_) =>
      case Leaving(_) =>
    }
  }

  lemma HandlerStepKeepsInv(s: State)
    requires Inv(s) && s.exited.None? && StepHandler(s).Some?
    ensures Inv(StepHandler(s).value)
  {
    HandlerStepKeepsOrder(s);
    HandlerStepKeepsLog(s);
    hide SlotInv, MainInv, HandlerInv, OrderInv, ExitInv, LogInv, StepHandler;
  }

  lemma HandlerStepKeepsOrder(s: State)
    requires Inv(s) && s.exited.None? && StepHandler(s).Some?
    ensures var next := StepHandler(s).value;
            SlotInv(next) && MainInv(next) && HandlerInv(next) && OrderInv(next) && ExitInv(next)
  {
    hide LogInv;
    if s.handler.Claiming? {
      assert [] + [Watcher] == [Watcher];
    }
  }

  lemma HandlerStepKeepsLog(s: State)
    requires Inv(s) && s.exited.None? && StepHandler(s).Some?
    ensures LogInv(StepHandler(s).value)
  {
    var next := StepHandler(s).value;
    match s.handler {
      case Woken =>
      case Flagged =>
      case Claiming => assert [] + [Watcher] == [Watcher];
      case Labelling(_) => assert |next.begun| == 1;
      case Flushing(event) => assert next.completed == [event];
      case Quitting =>
    }
  }

  lemma {:induction false} ExecKeepsInv(s: State, schedule: seq<Action>)
    requires Inv(s) && Exec(s, schedule).Some?
    ensures Inv(Exec(s, schedule).value)
    decreases |schedule|
  {
    if schedule != [] {
      StepKeepsInv(s, schedule[0]);
      ExecKeepsInv(Step(s, schedule[0]).value, schedule[1..]);
    }
  }

  /** The invariant holds in every state of every interleaving. */
  lemma ReachableInv(s: State)
    requires Reachable(s)
    ensures Inv(s)
  {
    var hasTask, schedule :| Exec(Init(hasTask), schedule) == Some(s);
    InitInv(hasTask);
    ExecKeepsInv(Init(hasTask), schedule);
  }
}
