/** Exactly when an ended run has delivered one event carrying the real exit code. */
module InterruptDelivery {
  import opened Wrappers
  import opened Outcomes
  import opened Interrupt
  import opened InterruptInvariant
  import opened InterruptTheorems

  /** One event completed, and it carries the code the process exited with. */
  predicate Delivered(s: State)
    requires s.exited.Some?
  {
    |s.completed| == 1 && s.completed[0].outcome.exitCode == s.exited.value
  }

  /** A run that gathered its context and ended, with `n` SIGINTs, ownership declared (or
      not) when the first of them came. */
  ghost predicate Ended(s: State, n: nat, owned: bool) {
    Reachable(s) && s.exited.Some? && s.published.Some? && s.sigints == n && s.ownedAtFirst == owned
  }

  /** Every ended run has delivered its one event, with the real exit code, if and only if it
      saw no SIGINT, or a single one after ownership was declared. */
  lemma {:induction false} DeliveryExactly(n: nat, owned: bool)
    ensures (forall s :: Ended(s, n, owned) ==> Delivered(s)) <==> n == 0 || (n == 1 && owned)
  {
    if n == 0 || (n == 1 && owned) {
      forall s | Ended(s, n, owned)
        ensures Delivered(s)
      {
        CalmRunsDeliver(s);
      }
    } else if owned {
      SecondSigintLosesTheEvent(n);
    } else {
      UnownedSigintsLoseTheEvent(n);
    }
  }

  lemma CalmRunsDeliver(s: State)
    requires Reachable(s) && s.exited.Some? && s.published.Some?
    requires s.sigints == 0 || (s.sigints == 1 && s.ownedAtFirst)
    ensures Delivered(s)
  {
    var hasTask, schedule :| Exec(Init(hasTask), schedule) == Some(s);
    var erased := EraseInterrupt(schedule);
    ErasedRunIsCalm(Init(hasTask), schedule);
    OwnedInterruptChangesNothing(hasTask, schedule);
    assert Calm(Init(hasTask)) == Init(hasTask);
    var calm := Exec(Init(hasTask), erased).value;
    InitInv(hasTask);
    ExecKeepsInv(Init(hasTask), erased);
    HistoryOfSchedule(Init(hasTask), erased);
    assert calm.published == s.published && Yielded(erased).Some?;
    UninterruptedRun(hasTask, erased);
    assert calm.completed[0] in calm.completed;
  }

  /* ---- Lost events, for every larger number of SIGINTs. ---- */

  function Sigints(k: nat): seq<Action> {
    if k == 0 then [] else [Sigint] + Sigints(k - 1)
  }

  /** Further SIGINTs find nobody waiting and are lost. */
  lemma {:induction false} SurplusIsLost(s: State, k: nat)
    requires s.exited.None? && s.sigints > 0 && (s.handler.Woken? || s.handler.Quitting?)
    ensures Exec(s, Sigints(k)) == Some(s.(sigints := s.sigints + k))
    decreases k
  {
    if k > 0 {
      SurplusIsLost(s.(sigints := s.sigints + 1), k - 1);
      assert Sigints(k)[1..] == Sigints(k - 1);
    }
  }

  /** The context is in the slot, and the watcher has just been woken `n` times over. */
  function Woken(n: nat, owns: bool): State {
    State(Statics(Some(SAMPLE), false, owns, None), Running, Finished, HandlerPc.Woken,
          None, n, owns, Some(SAMPLE), None, [], [], [])
  }

  /* Unowned: the watcher takes the context, and the returning command exits 130 first. */

  lemma UnownedIsWoken(n: nat)
    requires n > 0
    ensures Exec(Init(true), GATHER_AND_SIGINT + Sigints(n - 1)) == Some(Woken(n, false))
  {
    var published := Woken(0, false).(handler := Armed);
    var gathered := Init(true).(gather := Gathered(SAMPLE));
    ExecThrough([Init(true), gathered, published, Woken(1, false)], GATHER_AND_SIGINT);
    SurplusIsLost(Woken(1, false), n - 1);
    ExecConcat(Init(true), GATHER_AND_SIGINT, Sigints(n - 1));
  }

  /** The watcher holds the context and has not begun its event. */
  function WatcherHolds(n: nat): State {
    Woken(n, false).(handler := Labelling(SAMPLE), statics := Statics(None, true, false, None), takers := [Watcher])
  }

  const WATCHER_TAKES: seq<Action> := [HandlerStep, HandlerStep, HandlerStep]

  lemma WatcherTakes(n: nat)
    ensures Exec(Woken(n, false), WATCHER_TAKES) == Some(WatcherHolds(n))
  {
    var woken := Woken(n, false);
    var flagged := woken.(handler := Flagged, statics := Statics(Some(SAMPLE), true, false, None));
    assert [] + [Watcher] == [Watcher];
    ExecThrough([woken, flagged, flagged.(handler := Claiming), WatcherHolds(n)], WATCHER_TAKES);
  }

  const COMMAND_ENDS: seq<Action> := [Return(COMPLETES)] + MAIN_FINDS_NOTHING_AND_EXITS

  function CommandEnded(n: nat): State {
    WatcherHolds(n).(main := Leaving(INTERRUPT_EXIT_CODE), result := Some(COMPLETES),
                     exited := Some(INTERRUPT_EXIT_CODE))
  }

  lemma CommandEnds(n: nat)
    ensures Exec(WatcherHolds(n), COMMAND_ENDS) == Some(CommandEnded(n))
  {
    var joining := WatcherHolds(n).(main := Joining(COMPLETES), result := Some(COMPLETES));
    ExecThrough([WatcherHolds(n), joining], [Return(COMPLETES)]);
    MainExits(joining, COMPLETES);
    ExecConcat(WatcherHolds(n), [Return(COMPLETES)], MAIN_FINDS_NOTHING_AND_EXITS);
  }

  lemma UnownedSigintsLoseTheEvent(n: nat)
    requires n > 0
    ensures exists s :: Ended(s, n, false) && !Delivered(s)
  {
    hide Step;
    var prefix := GATHER_AND_SIGINT + Sigints(n - 1);
    UnownedIsWoken(n);
    WatcherTakes(n);
    CommandEnds(n);
    ExecConcat(Woken(n, false), WATCHER_TAKES, COMMAND_ENDS);
    ExecConcat(Init(true), prefix, WATCHER_TAKES + COMMAND_ENDS);
    assert Ended(CommandEnded(n), n, false) && !Delivered(CommandEnded(n));
  }

  /* Owned: the second SIGINT makes the deferring watcher quit before anything is sent. */

  const OWN_GATHER_AND_SIGINT: seq<Action> := [Declare] + GATHER_AND_SIGINT

  lemma OwnedIsWoken()
    ensures Exec(Init(true), OWN_GATHER_AND_SIGINT) == Some(Woken(1, true))
  {
    var owning := Init(true).(statics := Statics(None, false, true, None));
    var gathered := owning.(gather := Gathered(SAMPLE));
    var published := Woken(0, true).(handler := Armed, ownedAtFirst := false);
    ExecThrough([Init(true), owning, gathered, published, Woken(1, true)], OWN_GATHER_AND_SIGINT);
  }

  function WatcherQuits(n: nat): State {
    Woken(n, true).(handler := Quitting, statics := Statics(Some(SAMPLE), true, true, None))
  }

  const DEFERS_THEN_QUITS: seq<Action> := [HandlerStep, HandlerStep, Sigint]

  lemma SecondSigintQuits()
    ensures Exec(Woken(1, true), DEFERS_THEN_QUITS) == Some(WatcherQuits(2))
  {
    var flagged := Woken(1, true).(handler := Flagged, statics := Statics(Some(SAMPLE), true, true, None));
    ExecThrough([Woken(1, true), flagged, flagged.(handler := Deferring), WatcherQuits(2)], DEFERS_THEN_QUITS);
  }

  function WatcherExited(n: nat): State {
    WatcherQuits(n).(exited := Some(INTERRUPT_EXIT_CODE))
  }

  lemma QuitsAfterSurplus(n: nat)
    requires n > 1
    ensures Exec(WatcherQuits(2), Sigints(n - 2) + [HandlerStep]) == Some(WatcherExited(n))
  {
    SurplusIsLost(WatcherQuits(2), n - 2);
    ExecThrough([WatcherQuits(n), WatcherExited(n)], [HandlerStep]);
    ExecConcat(WatcherQuits(2), Sigints(n - 2), [HandlerStep]);
  }

  lemma SecondSigintLosesTheEvent(n: nat)
    requires n > 1
    ensures exists s :: Ended(s, n, true) && !Delivered(s)
  {
    hide Step;
    OwnedIsWoken();
    SecondSigintQuits();
    QuitsAfterSurplus(n);
    var last := Sigints(n - 2) + [HandlerStep];
    ExecConcat(Woken(1, true), DEFERS_THEN_QUITS, last);
    ExecConcat(Init(true), OWN_GATHER_AND_SIGINT, DEFERS_THEN_QUITS + last);
    assert Ended(WatcherExited(n), n, true) && !Delivered(WatcherExited(n));
  }
}
