/** The order of the step events one executor call can emit. */
module StepProtocol {
  import opened Wrappers
  import opened WorkflowEvents

  /** Where a run stands: before step `next`, inside a step, ended by a step that failed or
      was cancelled, or off the protocol. */
  datatype Position = Between(next: nat) | Within(index: nat, id: string) | Ended(index: nat) | Wrong

  /** Steps start in order, one at a time; each ends under its own name before the next
      starts; signals belong to the step running; nothing follows a failed or cancelled step. */
  function Follow(p: Position, event: WorkflowEvent): Position {
    match event
    case StepStarted(index, id) => if p == Between(index) then Within(index, id) else Wrong
    case Progress(stepIndex, _) => if p.Within? && stepIndex == Some(p.index) then p else Wrong
    case StepFinished(index, id, _, outcome, _, _) =>
      if p != Within(index, id) then Wrong
      else if outcome.StepFailed? || outcome.StepCancelled? then Ended(index)
      else Between(index + 1)
    case _ => Wrong
  }

  function FollowAll(p: Position, events: seq<WorkflowEvent>): Position
    decreases |events|
  {
    if events == [] then p else FollowAll(Follow(p, events[0]), events[1..])
  }

  lemma {:induction false} FollowConcat(p: Position, a: seq<WorkflowEvent>, b: seq<WorkflowEvent>)
    ensures FollowAll(p, a + b) == FollowAll(FollowAll(p, a), b)
    decreases |a|
  {
    if a == [] {
      assert a + b == b;
    } else {
      assert (a + b)[1..] == a[1..] + b;
      FollowConcat(Follow(p, a[0]), a[1..], b);
    }
  }

  lemma {:induction false} SignalsStayWithin(index: nat, id: string, signals: seq<string>)
    ensures FollowAll(Within(index, id), Signals(index, signals)) == Within(index, id)
  {
    if signals != [] {
      SignalsStayWithin(index, id, signals[1..]);
      assert ([Progress(Some(index), signals[0])] + Signals(index, signals[1..]))[1..] == Signals(index, signals[1..]);
    }
  }

  /** The last step the aggregate names, for where the run stands. */
  function LastStep(p: Position, before: nat, lastStep: Option<nat>): Option<nat> {
    match p
    case Between(next) => if next == before then lastStep else if next > 0 then Some(next - 1) else None
    case Within(index, _) => Some(index)
    case Ended(index) => Some(index)
    case Wrong => None
  }

  lemma FollowOpening(index: nat, run: StepRun)
    ensures FollowAll(Between(index), [StepStarted(index, run.id)] + Signals(index, run.signals)) ==
            Within(index, run.id)
  {
    var started := [StepStarted(index, run.id)];
    FollowConcat(Between(index), started, Signals(index, run.signals));
    assert started[1..] == [];
    assert FollowAll(Between(index), started) == Within(index, run.id);
    SignalsStayWithin(index, run.id, run.signals);
  }

  lemma FollowNothing(p: Position)
    ensures FollowAll(p, []) == p
  {
  }

  lemma FollowOne(p: Position, event: WorkflowEvent)
    ensures FollowAll(p, [event]) == Follow(p, event)
  {
    assert [event][1..] == [];
  }

  lemma FollowEnding(index: nat, id: string, event: WorkflowEvent)
    requires event.StepFinished? && event.index == index && event.id == id
    ensures Follow(Within(index, id), event) ==
            if event.outcome.StepFailed? || event.outcome.StepCancelled? then Ended(index) else Between(index + 1)
  {
  }

  /** The step loop keeps to the protocol, runs every step unless one ends the run, and names
      the last step it started. */
  lemma {:induction false} StepLoopFollows(runs: seq<StepRun>, index: nat, facts: RunFacts)
    ensures var (events, end) := StepLoop(runs, index, facts);
            var p := FollowAll(Between(index), events);
            && !p.Wrong? && (end.None? <==> p.Within?)
            && (p.Between? ==> p.next == index + |runs|)
            && (p.Ended? ==> index <= p.index < index + |runs|)
            && (end.Some? ==> end.value.lastStep == LastStep(p, index, facts.lastStep))
    decreases |runs|
  {
    hide Signals, Tally, FollowAll, Follow;
    if runs == [] {
      FollowNothing(Between(index));
    } else {
      var run := runs[0];
      var begun := facts.(started := facts.started + 1, lastStep := Some(index));
      var opening := [StepStarted(index, run.id)] + Signals(index, run.signals);
      FollowOpening(index, run);
      if run.finished.Some? {
        var (outcome, reason, detail) := run.finished.value;
        var finish := [StepFinished(index, run.id, run.summary, outcome, reason, detail)];
        FollowOne(Within(index, run.id), finish[0]);
        FollowEnding(index, run.id, finish[0]);
        FollowConcat(Between(index), opening, finish);
        TallyKeepsLastStep(begun, outcome);
        if !outcome.StepFailed? && !outcome.StepCancelled? {
          StepLoopFollows(runs[1..], index + 1, Tally(begun, outcome));
          FollowConcat(Between(index), opening + finish, StepLoop(runs[1..], index + 1, Tally(begun, outcome)).0);
        }
      }
    }
  }

  lemma TallyKeepsLastStep(facts: RunFacts, outcome: StepOutcome)
    ensures Tally(facts, outcome).lastStep == facts.lastStep
  {
  }

  /** A run that got past the precheck announces itself first and, unless an error escaped
      from inside a step, reports its aggregate last; the step events in between keep to the
      protocol, and a run stopped before its first step has none. */
  lemma RunFollows(script: Script)
    requires script.Ran?
    ensures var events := Produce(script);
            && events != [] && events[0] == WorkflowStarted(script.name, script.steps)
            && if Escaped(script) then FollowAll(Between(0), events[1..]).Within?
               else
                 && |events| > 1 && events[|events| - 1].WorkflowFinished?
                 && var p := FollowAll(Between(0), events[1..|events| - 1]);
                 && (p.Between? || p.Ended?)
                 && (p.Between? ==> p.next == if script.stopped.Some? then 0 else |script.runs|)
                 && events[|events| - 1].facts.lastStep == LastStep(p, 0, None)
  {
    var events := Produce(script);
    if script.stopped.Some? {
      assert events[1..|events| - 1] == [];
    } else {
      hide StepLoop;
      var (steps, end) := StepLoop(script.runs, 0, NO_FACTS);
      StepLoopFollows(script.runs, 0, NO_FACTS);
      if end.Some? {
        assert events[1..|events| - 1] == steps;
      } else {
        assert events[1..] == steps;
      }
    }
  }
}
