/** What the hand-off guarantees, over every interleaving and any number of SIGINTs,
    and the runs that show where the guarantee ends. */
module InterruptTheorems {
  import opened Wrappers
  import opened Outcomes
  import opened Interrupt
  import opened InterruptInvariant

  /** Exactly one taker, not exactly one delivered event: nobody takes twice, no second
      event begins, and an event that completes is the one that began. */
  lemma AtMostOneTaker(s: State)
    requires Reachable(s)
    ensures |s.takers| <= 1 && |s.begun| <= |s.takers|
    ensures s.completed == [] || s.completed == s.begun
    ensures s.takers != [] ==> s.statics.slot.None? && s.published.Some?
  {
    ReachableInv(s);
  }

  /* ---- Once the watcher holds the context, its event says 130. ---- */

  /** Ownership was declared before the first SIGINT, or never. */
  predicate OwnershipSettled(s: State) {
    s.statics.owns && s.sigints > 0 ==> s.ownedAtFirst
  }

  lemma WatcherEventForces130(s: State)
    requires Reachable(s) && OwnershipSettled(s)
    requires s.takers == [Watcher] && s.exited.Some?
    ensures s.exited.value == INTERRUPT_EXIT_CODE
  {
    ReachableInv(s);
  }

  /** After the command returned, a run whose event says 130 can only exit 130, exactly
      when ownership is not set (or the command's own code happens to be 130). */
  lemma WatcherEventForces130Exactly(s: State)
    requires Reachable(s) && s.takers == [Watcher] && s.exited.None? && !s.main.Running?
    ensures s.result.Some?
    ensures (forall schedule :: ExitsOnly130(s, schedule)) <==>
            !s.statics.owns || ProcessExitCode(s.result.value) == INTERRUPT_EXIT_CODE
  {
    ReachableInv(s);
    if s.statics.owns {
      var schedule := OwnedFinish(s);
      assert !ExitsOnly130(s, schedule) || ProcessExitCode(s.result.value) == INTERRUPT_EXIT_CODE;
    }
    forall schedule | !s.statics.owns || ProcessExitCode(s.result.value) == INTERRUPT_EXIT_CODE
      ensures ExitsOnly130(s, schedule)
    {
      if Exec(s, schedule).Some? {
        ExecKeepsInv(s, schedule);
        ReturnedCommandIsFixed(s, schedule);
      }
    }
  }

  predicate ExitsOnly130(s: State, schedule: seq<Action>) {
    var end := Exec(s, schedule);
    end.Some? && end.value.exited.Some? ==> end.value.exited.value == INTERRUPT_EXIT_CODE
  }

  /** What no action changes after the command has returned. */
  predicate Fixed(s: State, end: State) {
    && !end.main.Running? && end.result == s.result
    && end.statics.owns == s.statics.owns && end.statics.surface == s.statics.surface
    && (s.statics.requested ==> end.statics.requested)
    && (s.takers != [] ==> end.takers == s.takers)
    && (s.main.Leaving? ==> end.main == s.main)
  }

  lemma StepIsFixed(s: State, action: Action)
    requires SlotInv(s) && MainInv(s) && !s.main.Running? && Step(s, action).Some?
    ensures Fixed(s, Step(s, action).value)
  {
  }

  /** Once the command has returned, its result, its ownership and its surface are final,
      and taken contexts stay taken. */
  lemma {:induction false} ReturnedCommandIsFixed(s: State, schedule: seq<Action>)
    requires Inv(s) && !s.main.Running? && Exec(s, schedule).Some?
    ensures Fixed(s, Exec(s, schedule).value)
    decreases |schedule|
  {
    if schedule != [] {
      StepKeepsInv(s, schedule[0]);
      StepIsFixed(s, schedule[0]);
      ReturnedCommandIsFixed(Step(s, schedule[0]).value, schedule[1..]);
    }
  }

  /** With the context gone and ownership set, main alone reaches its own exit code. */
  lemma {:induction false} OwnedFinish(s: State) returns (schedule: seq<Action>)
    requires Inv(s) && s.takers == [Watcher] && s.exited.None? && s.statics.owns && !s.main.Running?
    ensures Exec(s, schedule).Some?
    ensures Exec(s, schedule).value.exited == Some(ProcessExitCode(s.result.value))
    decreases if s.main.Joining? then 3 else if s.main.TakingBack? then 2 else if s.main.Checking? then 1 else 0
  {
    var next := StepMain(s).value;
    if s.main.Leaving? {
      assert Exec(next, []) == Some(next);
      schedule := [MainStep];
    } else {
      MainStepKeepsInv(s);
      var rest := OwnedFinish(next);
      schedule := [MainStep] + rest;
      assert schedule[1..] == rest;
    }
  }

  /** An unowned command whose interrupt flag is set before the check exits 130 on
      every continuation. */
  lemma UnownedInterruptExits130(s: State, schedule: seq<Action>)
    requires Reachable(s) && s.exited.None?
    requires s.statics.requested && !s.statics.owns
    requires !s.main.Running? && !s.main.Leaving?
    ensures ExitsOnly130(s, schedule)
  {
    ReachableInv(s);
    if Exec(s, schedule).Some? {
      UnownedInterruptLeaves130(s, schedule);
    }
  }

  /** The command has returned unowned and interrupted, and can only leave with 130. */
  predicate Forcing(s: State) {
    && s.statics.requested && !s.statics.owns && !s.main.Running?
    && (s.main.Leaving? ==> s.main.code == INTERRUPT_EXIT_CODE)
    && (s.exited.Some? ==> s.exited.value == INTERRUPT_EXIT_CODE)
  }

  lemma StepKeepsForcing(s: State, action: Action)
    requires Forcing(s) && Step(s, action).Some?
    ensures Forcing(Step(s, action).value)
  {
  }

  lemma {:induction false} UnownedInterruptLeaves130(s: State, schedule: seq<Action>)
    requires Forcing(s)
    requires Exec(s, schedule).Some?
    ensures Exec(s, schedule).value.exited.Some? ==>
              Exec(s, schedule).value.exited.value == INTERRUPT_EXIT_CODE
    decreases |schedule|
  {
    hide Step;
    if schedule != [] {
      StepKeepsForcing(s, schedule[0]);
      UnownedInterruptLeaves130(Step(s, schedule[0]).value, schedule[1..]);
    }
  }

  /* ---- Runs nothing interrupts. ---- */

  function LastFinalized(schedule: seq<Action>, surface: Option<string>): Option<string>
    decreases |schedule|
  {
    if schedule == [] then surface else
    LastFinalized(schedule[1..], if schedule[0].Finalize? then Some(schedule[0].surface) else surface)
  }

  function Yielded(schedule: seq<Action>): Option<CommandTelemetry>
    decreases |schedule|
  {
    if schedule == [] then None else
    if schedule[0].GatherYields? then Some(schedule[0].context) else Yielded(schedule[1..])
  }

  function Returned(schedule: seq<Action>): Option<RunResult>
    decreases |schedule|
  {
    if schedule == [] then None else
    if schedule[0].Return? then Some(schedule[0].result) else Returned(schedule[1..])
  }

  /** The context a gather task has produced so far, published or not. */
  function Produced(s: State): Option<CommandTelemetry> {
    if s.gather.Gathered? then Some(s.gather.context) else s.published
  }

  /** The state's history fields say what the schedule did to reach it from `s`. */
  predicate Recorded(s: State, schedule: seq<Action>, end: State) {
    && end.statics.surface == LastFinalized(schedule, s.statics.surface)
    && Produced(end) == (if Yielded(schedule).Some? then Yielded(schedule) else Produced(s))
    && end.result == (if Returned(schedule).Some? then Returned(schedule) else s.result)
    && (Sigint !in schedule ==> end.sigints == s.sigints)
    && (!s.gather.Gathering? ==> Yielded(schedule).None?)
    && (s.result.Some? ==> Returned(schedule).None?)
  }

  lemma StepIsRecorded(s: State, action: Action)
    requires SlotInv(s) && MainInv(s) && Step(s, action).Some?
    ensures RecordsAs(s, action, Step(s, action).value)
  {
    if action.MainStep? {
      MainStepIsRecorded(s);
    } else if action.HandlerStep? {
      HandlerStepIsRecorded(s);
    } else {
      hide StepMain, StepHandler;
    }
  }

  /** What one step adds to the history a schedule determines. */
  predicate RecordsAs(s: State, action: Action, next: State) {
    && next.statics.surface == (if action.Finalize? then Some(action.surface) else s.statics.surface)
    && Produced(next) == (if action.GatherYields? then Some(action.context) else Produced(s))
    && next.result == (if action.Return? then Some(action.result) else s.result)
    && (action != Sigint ==> next.sigints == s.sigints)
    && (action.GatherYields? ==> s.gather.Gathering? && !next.gather.Gathering?)
    && (!s.gather.Gathering? ==> !next.gather.Gathering?)
    && (action.Return? ==> s.result.None?)
  }

  lemma MainStepIsRecorded(s: State)
    requires StepMain(s).Some?
    ensures RecordsAs(s, MainStep, StepMain(s).value)
  {
  }

  lemma HandlerStepIsRecorded(s: State)
    requires StepHandler(s).Some?
    ensures RecordsAs(s, HandlerStep, StepHandler(s).value)
  {
  }

  lemma {:induction false} HistoryOfSchedule(s: State, schedule: seq<Action>)
    requires Inv(s) && Exec(s, schedule).Some?
    ensures Recorded(s, schedule, Exec(s, schedule).value)
    decreases |schedule|
  {
    if schedule != [] {
      StepKeepsInv(s, schedule[0]);
      StepIsRecorded(s, schedule[0]);
      HistoryOfSchedule(Step(s, schedule[0]).value, schedule[1..]);
    }
  }

  /** The one event of an uninterrupted run. */
  function UninterruptedEvents(schedule: seq<Action>): seq<Event>
    requires Returned(schedule).Some?
  {
    match Yielded(schedule)
    case None => []
    case Some(context) =>
      var surface := LastFinalized(schedule, None);
      var named := if surface.Some? then surface.value else context.uiSurface;
      [Event(CommandTelemetry(context.commandPath, named), TelemetryOutcomeFor(Returned(schedule).value))]
  }

  /** With no SIGINT the process exits with the command's own code, and exactly when
      gathering succeeded one event completes, carrying that code and the surface last
      finalized (else the gathered one). */
  lemma UninterruptedRun(hasTask: bool, schedule: seq<Action>)
    requires Exec(Init(hasTask), schedule).Some? && Sigint !in schedule
    requires Exec(Init(hasTask), schedule).value.exited.Some?
    ensures Returned(schedule).Some?
    ensures var end := Exec(Init(hasTask), schedule).value;
            && end.exited.value == ProcessExitCode(Returned(schedule).value)
            && end.completed == end.begun == UninterruptedEvents(schedule)
            && (Yielded(schedule).Some? <==> |end.completed| == 1)
            && (forall event :: event in end.completed ==> event.outcome.exitCode == end.exited.value)
  {
    InitInv(hasTask);
    ExecKeepsInv(Init(hasTask), schedule);
    HistoryOfSchedule(Init(hasTask), schedule);
  }

  /** A lost event, and an event whose code is not the exit code, both need a SIGINT. */
  lemma OnlyInterruptsSpoilDelivery(s: State)
    requires Reachable(s) && s.exited.Some?
    requires s.completed != s.begun || exists event :: event in s.begun && event.outcome.exitCode != s.exited.value
    ensures s.sigints > 0
  {
    ReachableInv(s);
  }

  /* ---- An owned run with one Ctrl-C is an uninterrupted run. ---- */

  /** Everything the interrupt machinery alone does. */
  predicate OfInterrupt(action: Action) {
    action.Sigint? || action.HandlerStep? || action.WatcherFails?
  }

  function EraseInterrupt(schedule: seq<Action>): seq<Action>
    decreases |schedule|
  {
    if schedule == [] then [] else
    (if OfInterrupt(schedule[0]) then [] else [schedule[0]]) + EraseInterrupt(schedule[1..])
  }

  /** Forget that anything interrupted the run. */
  function Calm(s: State): State {
    s.(handler := Armed, sigints := 0, ownedAtFirst := false, statics := s.statics.(requested := false))
  }

  /** The watcher can at most be deferring: any SIGINT so far found ownership declared. */
  predicate Deferred(s: State) {
    && (s.sigints == 0 || (s.sigints == 1 && s.statics.owns))
    && (s.handler.Armed? || s.handler.Woken? || s.handler.Flagged? || s.handler.Deferring? || s.handler.Gone?)
    && (!s.handler.Armed? && !s.handler.Gone? ==> s.sigints == 1)
    && (s.handler.Armed? ==> s.sigints == 0)
    && (s.statics.requested ==> s.statics.owns)
  }

  lemma InterruptStepIsErased(s: State, action: Action)
    requires Deferred(s) && OfInterrupt(action) && Step(s, action).Some?
    requires Step(s, action).value.sigints <= 1
    requires Step(s, action).value.sigints > s.sigints ==> Step(s, action).value.ownedAtFirst
    ensures Deferred(Step(s, action).value) && Calm(Step(s, action).value) == Calm(s)
  {
  }

  lemma OtherStepIsKept(s: State, action: Action)
    requires Deferred(s) && !OfInterrupt(action) && Step(s, action).Some?
    ensures Deferred(Step(s, action).value)
    ensures Step(Calm(s), action) == Some(Calm(Step(s, action).value))
  {
  }

  lemma {:induction false} ErasedRunIsCalm(s: State, schedule: seq<Action>)
    requires Deferred(s) && Exec(s, schedule).Some?
    requires var end := Exec(s, schedule).value;
             end.sigints <= 1 && (end.sigints > s.sigints ==> end.ownedAtFirst)
    ensures Exec(Calm(s), EraseInterrupt(schedule)) == Some(Calm(Exec(s, schedule).value))
    decreases |schedule|
  {
    if schedule != [] {
      var action := schedule[0];
      var next := Step(s, action).value;
      SigintsOnlyGrow(next, schedule[1..]);
      if OfInterrupt(action) {
        InterruptStepIsErased(s, action);
        ErasedRunIsCalm(next, schedule[1..]);
        assert EraseInterrupt(schedule) == EraseInterrupt(schedule[1..]);
      } else {
        OtherStepIsKept(s, action);
        ErasedRunIsCalm(next, schedule[1..]);
        var erased := EraseInterrupt(schedule);
        assert erased == [action] + EraseInterrupt(schedule[1..]);
        assert erased[0] == action && erased[1..] == EraseInterrupt(schedule[1..]);
      }
    }
  }

  lemma {:induction false} SigintsOnlyGrow(s: State, schedule: seq<Action>)
    requires Exec(s, schedule).Some?
    ensures s.sigints <= Exec(s, schedule).value.sigints
    ensures s.sigints > 0 ==> Exec(s, schedule).value.ownedAtFirst == s.ownedAtFirst
    decreases |schedule|
  {
    if schedule != [] {
      SigintsOnlyGrow(Step(s, schedule[0]).value, schedule[1..]);
    }
  }

  /** Ownership declared before a single Ctrl-C: deleting the interrupt from the schedule
      leaves a possible run with the same exit code, the same events and the same surface. */
  lemma OwnedInterruptChangesNothing(hasTask: bool, schedule: seq<Action>)
    requires Exec(Init(hasTask), schedule).Some?
    requires var end := Exec(Init(hasTask), schedule).value; end.sigints <= 1 && (end.sigints == 1 ==> end.ownedAtFirst)
    ensures Sigint !in EraseInterrupt(schedule)
    ensures var end := Exec(Init(hasTask), schedule).value;
            var calm := Exec(Init(hasTask), EraseInterrupt(schedule));
            && calm.Some?
            && calm.value.exited == end.exited && calm.value.main == end.main && calm.value.result == end.result
            && calm.value.begun == end.begun && calm.value.completed == end.completed
            && calm.value.statics.surface == end.statics.surface
  {
    ErasedRunIsCalm(Init(hasTask), schedule);
    assert Calm(Init(hasTask)) == Init(hasTask);
    ErasedHasNoInterrupt(schedule);
  }

  lemma {:induction false} ErasedHasNoInterrupt(schedule: seq<Action>)
    ensures forall action :: action in EraseInterrupt(schedule) ==> !OfInterrupt(action) && action in schedule
    decreases |schedule|
  {
    if schedule != [] {
      ErasedHasNoInterrupt(schedule[1..]);
    }
  }

  /** Owned before the first SIGINT, only a second one can make the exit code 130, and
      the watcher never takes the context. */
  lemma OwnedRunNeedsSecondInterrupt(s: State)
    requires Reachable(s) && s.exited.Some? && s.sigints > 0 && s.ownedAtFirst
    requires s.result.None? || s.exited.value != ProcessExitCode(s.result.value)
    ensures s.exited.value == INTERRUPT_EXIT_CODE && s.sigints >= 2
    ensures s.takers != [Watcher]
  {
    var hasTask, schedule :| Exec(Init(hasTask), schedule) == Some(s);
    ReachableInv(s);
    if s.sigints == 1 {
      ErasedRunIsCalm(Init(hasTask), schedule);
      assert Calm(Init(hasTask)) == Init(hasTask);
      InitInv(hasTask);
      ExecKeepsInv(Init(hasTask), EraseInterrupt(schedule));
    }
  }

  /** And a further one always can: a watcher that defers, or is still sending its event, then
      quits with 130 at once, and sends nothing more. */
  lemma SecondInterruptForceQuits(s: State)
    requires Reachable(s) && s.exited.None? && (s.handler.Deferring? || s.handler.Flushing?)
    ensures var end := Exec(s, [Sigint, HandlerStep]);
            && end.Some? && end.value.exited == Some(INTERRUPT_EXIT_CODE)
            && end.value.begun == s.begun && end.value.completed == s.completed
  {
    var woken := Step(s, Sigint).value;
    var end := Step(woken, HandlerStep).value;
    assert [Sigint, HandlerStep][1..] == [HandlerStep];
    assert Exec(end, []) == Some(end);
    assert Exec(woken, [HandlerStep]) == Some(end);
  }

  /* ---- Witness runs: where the guarantee ends. ---- */

  const SAMPLE := CommandTelemetry("iam users get", "plain")

  /** Both contexts and events of the witness runs come from `SAMPLE`. */
  const WATCHER_EVENT := Event(SAMPLE, INTERRUPT_OUTCOME)

  const GATHER_AND_SIGINT: seq<Action> := [GatherYields(SAMPLE), GatherPublishes, Sigint]

  const WATCHER_BEGINS: seq<Action> := [HandlerStep, HandlerStep, HandlerStep, HandlerStep]

  const MAIN_FINDS_NOTHING_AND_EXITS: seq<Action> := [MainStep, MainStep, MainStep, MainStep]

  /** A schedule justified state by state. */
  lemma {:induction false} ExecThrough(states: seq<State>, schedule: seq<Action>)
    requires |states| == |schedule| + 1
    requires forall i :: 0 <= i < |schedule| ==> Step(states[i], schedule[i]) == Some(states[i + 1])
    ensures Exec(states[0], schedule) == Some(states[|schedule|])
    decreases |schedule|
  {
    if schedule != [] {
      ExecThrough(states[1..], schedule[1..]);
    }
  }

  lemma {:induction false} ExecConcat(s: State, first: seq<Action>, second: seq<Action>)
    requires Exec(s, first).Some?
    ensures Exec(s, first + second) == Exec(Exec(s, first).value, second)
    decreases |first|
  {
    if first == [] {
      assert first + second == second;
    } else {
      ExecConcat(Step(s, first[0]).value, first[1..], second);
      assert (first + second)[1..] == first[1..] + second;
    }
  }

  /** Unowned, one SIGINT, and the watcher's event is under way. */
  function WatcherSending(): State {
    State(Statics(None, true, false, None), Running, Finished, Flushing(WATCHER_EVENT),
          None, 1, false, Some(SAMPLE), None, [Watcher], [WATCHER_EVENT], [])
  }

  lemma WatcherCanBeSending()
    ensures Exec(Init(true), GATHER_AND_SIGINT + WATCHER_BEGINS) == Some(WatcherSending())
  {
    var gathered := Init(true).(gather := Gathered(SAMPLE));
    var slot := State(Statics(Some(SAMPLE), false, false, None), Running, Finished, Armed,
                      None, 0, false, Some(SAMPLE), None, [], [], []);
    var woken := slot.(handler := Woken, sigints := 1);
    ExecThrough([Init(true), gathered, slot, woken], GATHER_AND_SIGINT);
    var flagged := woken.(handler := Flagged, statics := Statics(Some(SAMPLE), true, false, None));
    var claiming := flagged.(handler := Claiming);
    var labelling := claiming.(handler := Labelling(SAMPLE), statics := Statics(None, true, false, None),
                               takers := [Watcher]);
    assert [] + [Watcher] == [Watcher] && [] + [WATCHER_EVENT] == [WATCHER_EVENT];
    ExecThrough([woken, flagged, claiming, labelling, WatcherSending()], WATCHER_BEGINS);
    ExecConcat(Init(true), GATHER_AND_SIGINT, WATCHER_BEGINS);
  }

  /** With the slot already empty, a returned command joins, checks and exits. */
  lemma MainExits(s: State, result: RunResult)
    requires s.exited.None? && s.main == Joining(result) && s.gather.Finished? && s.statics.slot.None?
    ensures var code := if ShouldForceInterruptExit(s.statics) then INTERRUPT_EXIT_CODE else ProcessExitCode(result);
            Exec(s, MAIN_FINDS_NOTHING_AND_EXITS) == Some(s.(main := Leaving(code), exited := Some(code)))
  {
    var code := if ShouldForceInterruptExit(s.statics) then INTERRUPT_EXIT_CODE else ProcessExitCode(result);
    var leaving := s.(main := Leaving(code));
    ExecThrough([s, s.(main := TakingBack(result)), s.(main := Checking(result)), leaving,
                 leaving.(exited := Some(code))], MAIN_FINDS_NOTHING_AND_EXITS);
  }

  /** "Either ordering yields exactly one event" fails with a single SIGINT: main's forced
      exit cuts the watcher's event short, and nothing is delivered. */
  lemma OneSigintCanLoseTheEvent()
    ensures exists schedule :: var end := Exec(Init(true), schedule);
            && end.Some? && end.value.sigints == 1 && end.value.exited == Some(INTERRUPT_EXIT_CODE)
            && |end.value.begun| == 1 && end.value.completed == []
  {
    var prefix := GATHER_AND_SIGINT + WATCHER_BEGINS;
    WatcherCanBeSending();
    var joining := WatcherSending().(main := Joining(Ok(Complete)), result := Some(Ok(Complete)));
    ExecThrough([WatcherSending(), joining], [Return(Ok(Complete))]);
    MainExits(joining, Ok(Complete));
    ExecConcat(WatcherSending(), [Return(Ok(Complete))], MAIN_FINDS_NOTHING_AND_EXITS);
    ExecConcat(Init(true), prefix, [Return(Ok(Complete))] + MAIN_FINDS_NOTHING_AND_EXITS);
  }

  /** Declaring ownership after the watcher decided defeats `WatcherEventForces130`: the
      event says 130 and the process exits with any code the command likes. */
  lemma LateOwnershipCanDisagree(code: int)
    ensures exists schedule :: var end := Exec(Init(true), schedule);
            && end.Some? && end.value.takers == [Watcher] && end.value.exited == Some(code)
            && end.value.begun == [WATCHER_EVENT] && !OwnershipSettled(end.value)
  {
    var result := Ok(Exit(code));
    var prefix := GATHER_AND_SIGINT + WATCHER_BEGINS;
    WatcherCanBeSending();
    var owning := WatcherSending().(statics := Statics(None, true, true, None));
    var joining := owning.(main := Joining(result), result := Some(result));
    ExecThrough([WatcherSending(), owning, joining], [Declare, Return(result)]);
    MainExits(joining, result);
    ExecConcat(WatcherSending(), [Declare, Return(result)], MAIN_FINDS_NOTHING_AND_EXITS);
    ExecConcat(Init(true), prefix, [Declare, Return(result)] + MAIN_FINDS_NOTHING_AND_EXITS);
  }

  const COMPLETES: RunResult := Ok(Complete)

  const GATHER_AND_RETURN: seq<Action> := [GatherYields(SAMPLE), GatherPublishes, Return(COMPLETES)]

  const MAIN_DELIVERS: seq<Action> := [MainStep, MainStep, MainStep, MainStep]

  const INTERRUPT_BEFORE_CHECK: seq<Action> := [Sigint, HandlerStep, MainStep, MainStep]

  const MAIN_EVENT := Event(SAMPLE, TelemetryOutcomeFor(COMPLETES))

  /** Main has delivered "exit 0" and is about to look at the interrupt flag. */
  function MainDelivered(): State {
    State(Init(true).statics, Checking(COMPLETES), Finished, Armed,
          None, 0, false, Some(SAMPLE), Some(COMPLETES), [Command], [MAIN_EVENT], [MAIN_EVENT])
  }

  lemma MainCanDeliver()
    ensures Exec(Init(true), GATHER_AND_RETURN + MAIN_DELIVERS) == Some(MainDelivered())
  {
    var gathered := Init(true).(gather := Gathered(SAMPLE));
    var published := State(Statics(Some(SAMPLE), false, false, None), Running, Finished, Armed,
                           None, 0, false, Some(SAMPLE), None, [], [], []);
    var joining := published.(main := Joining(COMPLETES), result := Some(COMPLETES));
    ExecThrough([Init(true), gathered, published, joining], GATHER_AND_RETURN);
    var retagging := joining.(main := Retagging(COMPLETES, SAMPLE), statics := Init(true).statics, takers := [Command]);
    var sending := retagging.(main := Sending(COMPLETES, MAIN_EVENT), begun := [MAIN_EVENT]);
    assert [] + [Command] == [Command] && [] + [MAIN_EVENT] == [MAIN_EVENT];
    ExecThrough([joining, joining.(main := TakingBack(COMPLETES)), retagging, sending, MainDelivered()], MAIN_DELIVERS);
    ExecConcat(Init(true), GATHER_AND_RETURN, MAIN_DELIVERS);
  }

  /** A delivered event can carry a code the process did not exit with: main delivers
      "exit 0", then observes the interrupt. */
  lemma DeliveredCodeCanDisagree()
    ensures exists schedule :: var end := Exec(Init(true), schedule);
            && end.Some? && end.value.sigints == 1 && end.value.exited == Some(INTERRUPT_EXIT_CODE)
            && end.value.completed == [MAIN_EVENT] && MAIN_EVENT.outcome.exitCode == 0
  {
    MainCanDeliver();
    var woken := MainDelivered().(handler := Woken, sigints := 1);
    var flagged := woken.(handler := Flagged, statics := Statics(None, true, false, None));
    var leaving := flagged.(main := Leaving(INTERRUPT_EXIT_CODE));
    ExecThrough([MainDelivered(), woken, flagged, leaving, leaving.(exited := Some(INTERRUPT_EXIT_CODE))],
                INTERRUPT_BEFORE_CHECK);
    ExecConcat(Init(true), GATHER_AND_RETURN + MAIN_DELIVERS, INTERRUPT_BEFORE_CHECK);
  }
}
