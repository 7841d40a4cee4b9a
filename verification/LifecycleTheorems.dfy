// Teardown safety and the delayed-work chain of tutorial-05, for every interleaving.
module LifecycleTheorems {
  import opened LifecycleModel

  // ---- A static check of scripts ----

  // What may be going on: which sources are live, and whether work may be queued.
  datatype May = May(queue: Workqueue, line: bool, timer: bool, delay: bool, work: bool)

  // What may be going on after a completed call.
  function Advance(op: Op, may: May): May
  {
    match op
    case CreateWorkqueue => may.(queue := Alive)
    case QueueDelayed => may.(delay := true)
    case StartTimer => may.(timer := true, work := true)
    case RequestIrq => may.(line := true, work := true)
    case FreeIrq => may.(line := false)
    case CancelTimer => may.(timer := false)
    case CancelDelayedSync => may.(delay := false)
    case Flush => may.(work := may.line || may.timer)
    case DestroyWorkqueue => may.(queue := Destroyed)
  }

  // A script is well ordered when it starts sources only on a live queue, and destroys the
  // queue only once every source is stopped, the chain cancelled and then the queue flushed.
  predicate WellOrdered(script: seq<Op>, may: May)
  {
    script != [] ==> Permitted(script[0], may) && WellOrdered(script[1..], Advance(script[0], may))
  }

  predicate Permitted(op: Op, may: May)
  {
    match op
    case CreateWorkqueue => may.queue == Absent
    case QueueDelayed => may.queue == Alive && !may.delay
    case StartTimer => may.queue == Alive
    case RequestIrq => may.queue == Alive
    case DestroyWorkqueue => may.queue == Alive && !may.line && !may.timer && !may.delay && !may.work
    case _ => true
  }

  const NOTHING := May(Absent, false, false, false, false)

  // The delayed work's token: armed, pending, or running before its re-queue.
  function Token(s: State): nat
  {
    (if s.delayArmed then 1 else 0) + (if s.delayPending then 1 else 0) + (if s.delayBody == Before then 1 else 0)
  }

  ghost predicate TokenOk(s: State)
  {
    match s.chain
    case Live => Token(s) == 1
    case Cancelling => !s.delayArmed && !s.delayPending
    case _ => DelayIdle(s)
  }

  // The state is within what may be going on, and the rest of the script is well ordered.
  ghost predicate Covered(s: State, may: May)
  {
    && !s.fault && TokenOk(s)
    && s.queue == may.queue
    && (s.line || s.topHalves > 0 ==> may.line)
    && (s.timer != Off ==> may.timer)
    && (s.workPending || s.workRunning || may.line || may.timer ==> may.work)
    && (s.chain == Live || s.chain == Cancelling ==> may.delay)
    && (may.line || may.timer || may.delay || may.work ==> may.queue == Alive)
    && WellOrdered(s.script, may)
  }

  lemma StartingCallCovered(s: State, may: May)
    requires Covered(s, may) && s.script != []
    requires s.script[0] in {CreateWorkqueue, QueueDelayed, Op.StartTimer, RequestIrq}
    ensures Covered(Call(s), Advance(s.script[0], may))
  {
  }

  lemma StoppingCallCovered(s: State, may: May)
    requires Covered(s, may) && s.script != []
    requires s.script[0].FreeIrq? || s.script[0].CancelTimer? || s.script[0].CancelDelayedSync?
    ensures Covered(Call(s), if Call(s).script == s.script then may else Advance(s.script[0], may))
  {
  }

  lemma EndingCallCovered(s: State, may: May)
    requires Covered(s, may) && s.script != [] && (s.script[0].Flush? || s.script[0].DestroyWorkqueue?)
    ensures Covered(Call(s), if Call(s).script == s.script then may else Advance(s.script[0], may))
  {
  }

  lemma CallCovered(s: State, may: May) returns (may': May)
    requires Covered(s, may) && s.script != []
    ensures Covered(Call(s), may')
  {
    var waits := Call(s).script == s.script;
    may' := if waits then may else Advance(s.script[0], may);
    match s.script[0] {
      case FreeIrq => StoppingCallCovered(s, may);
      case CancelTimer => StoppingCallCovered(s, may);
      case CancelDelayedSync => StoppingCallCovered(s, may);
      case Flush => EndingCallCovered(s, may);
      case DestroyWorkqueue => EndingCallCovered(s, may);
      case _ => StartingCallCovered(s, may);
    }
  }

  lemma TimerCovered(s: State, may: May, m: Move)
    requires Covered(s, may) && (m.TimerFires? || m.TimerQueues? || m.TimerReturns?)
    ensures Covered(Next(s, m), may)
  {
  }

  lemma LineCovered(s: State, may: May, m: Move)
    requires Covered(s, may) && (m.LineFires? || m.LineQueues?)
    ensures Covered(Next(s, m), may)
  {
  }

  lemma WorkCovered(s: State, may: May, m: Move)
    requires Covered(s, may) && (m.WorkStarts? || m.WorkEnds?)
    ensures Covered(Next(s, m), may)
  {
  }

  lemma DelayCovered(s: State, may: May, m: Move)
    requires Covered(s, may) && (m.DelayExpires? || m.DelayStarts? || m.DelayRequeues? || m.DelayReturns?)
    ensures Covered(Next(s, m), may)
  {
  }

  // The environment never leaves what may be going on.
  lemma EnvironmentCovered(s: State, may: May, m: Move)
    requires Covered(s, may) && m != Main
    ensures Covered(Next(s, m), may)
  {
    if m.TimerFires? || m.TimerQueues? || m.TimerReturns? {
      TimerCovered(s, may, m);
    } else if m.LineFires? || m.LineQueues? {
      LineCovered(s, may, m);
    } else if m.WorkStarts? || m.WorkEnds? {
      WorkCovered(s, may, m);
    } else {
      DelayCovered(s, may, m);
    }
  }

  lemma {:induction false} RunCovered(script: seq<Op>, moves: seq<Move>) returns (may: May)
    requires WellOrdered(script, NOTHING)
    ensures Covered(Exec(Start(script), moves), may)
  {
    if moves == [] {
      may := NOTHING;
    } else {
      var m := moves[|moves| - 1];
      var s := Exec(Start(script), moves[..|moves| - 1]);
      may := RunCovered(script, moves[..|moves| - 1]);
      if m != Main {
        EnvironmentCovered(s, may, m);
      } else if s.script != [] {
        may := CallCovered(s, may);
      }
    }
  }

  // Nothing that could queue work is left.
  predicate Stopped(s: State)
  {
    !s.line && s.topHalves == 0 && s.timer == Off && !s.workPending && !s.workRunning && DelayIdle(s)
  }

  // A well-ordered script is safe in every interleaving: nothing is ever queued without a
  // live queue, the queue is empty when it is destroyed, and from then on no source is left.
  lemma WellOrderedIsSafe(script: seq<Op>, moves: seq<Move>)
    requires WellOrdered(script, NOTHING)
    ensures !Exec(Start(script), moves).fault
    ensures Exec(Start(script), moves).queue == Destroyed ==> Stopped(Exec(Start(script), moves))
  {
    var may := RunCovered(script, moves);
  }

  // ---- The module's own scripts ----

  lemma Then(op: Op, rest: seq<Op>, may: May)
    requires Permitted(op, may) && WellOrdered(rest, Advance(op, may))
    ensures WellOrdered([op] + rest, may)
  {
    assert ([op] + rest)[1..] == rest;
  }

  lemma FreesFirst(usingGpio: bool, rest: seq<Op>, may: May)
    requires WellOrdered(rest, may.(line := false)) && (may.line ==> usingGpio)
    ensures WellOrdered((if usingGpio then [FreeIrq] else []) + rest, may)
  {
    if usingGpio { Then(FreeIrq, rest, may); } else { assert [] + rest == rest; }
  }

  lemma UnwindIsWellOrdered(point: Label, usingGpio: bool, usingTimer: bool, may: May)
    requires may.queue == Alive
    requires may.line ==> usingGpio && !OfGpio(point)
    requires may.timer ==> usingTimer
    ensures WellOrdered(Unwind(point, usingGpio, usingTimer), may)
    decreases Below(point)
  {
    match point
    case FailGpio => LastSteps(usingTimer, may);
    case FailRegisterChrdev =>
      UnwindIsWellOrdered(FailRequestIrq, usingGpio, usingTimer, may.(line := false));
      FreesFirst(usingGpio, Unwind(FailRequestIrq, usingGpio, usingTimer), may);
    case FailProcCreate => UnwindIsWellOrdered(FailCdevAdd, usingGpio, usingTimer, may);
    case FailCdevAdd => UnwindIsWellOrdered(FailDeviceCreate, usingGpio, usingTimer, may);
    case FailDeviceCreate => UnwindIsWellOrdered(FailClassCreate, usingGpio, usingTimer, may);
    case FailClassCreate => UnwindIsWellOrdered(FailRegisterChrdev, usingGpio, usingTimer, may);
    case FailRequestIrq => UnwindIsWellOrdered(FailGpioToIrq, usingGpio, usingTimer, may);
    case FailGpioToIrq => UnwindIsWellOrdered(FailGpioDirection, usingGpio, usingTimer, may);
    case FailGpioDirection => UnwindIsWellOrdered(FailGpio, usingGpio, usingTimer, may);
  }

  const ENDING: seq<Op> := [CancelDelayedSync, Flush, DestroyWorkqueue]

  lemma LastSteps(usingTimer: bool, may: May)
    requires may.queue == Alive && !may.line && (may.timer ==> usingTimer)
    ensures WellOrdered((if usingTimer then [CancelTimer] else []) + ENDING, may)
  {
    var may' := may.(timer := false);
    assert ENDING[1..] == [Flush, DestroyWorkqueue] && [Flush, DestroyWorkqueue][1..] == [DestroyWorkqueue];
    assert WellOrdered(ENDING, may');
    if usingTimer { assert ([CancelTimer] + ENDING)[1..] == ENDING; } else { assert [] + ENDING == ENDING; }
  }

  // The set-up calls may be followed by whatever copes with what they have started.
  lemma SetupIsWellOrdered(requested: bool, usingTimer: bool, rest: seq<Op>)
    requires WellOrdered(rest, May(Alive, requested, usingTimer, true, requested || usingTimer))
    ensures WellOrdered(Setup(requested, usingTimer) + rest, NOTHING)
  {
    var script := rest;
    if requested {
      Then(RequestIrq, script, May(Alive, false, usingTimer, true, usingTimer));
      script := [RequestIrq] + script;
    }
    if usingTimer {
      Then(StartTimer, script, May(Alive, false, false, true, false));
      script := [StartTimer] + script;
    }
    Then(QueueDelayed, script, May(Alive, false, false, false, false));
    Then(CreateWorkqueue, [QueueDelayed] + script, NOTHING);
    assert Setup(requested, usingTimer) + rest == [CreateWorkqueue] + ([QueueDelayed] + script);
  }

  lemma FailedInitIsWellOrdered(point: Label, usingGpio: bool, usingTimer: bool)
    requires OfGpio(point) ==> usingGpio
    ensures WellOrdered(FailedInit(point, usingGpio, usingTimer), NOTHING)
  {
    var requested := usingGpio && !OfGpio(point);
    var may := May(Alive, requested, usingTimer, true, requested || usingTimer);
    UnwindIsWellOrdered(point, usingGpio, usingTimer, may);
    SetupIsWellOrdered(requested, usingTimer, Unwind(point, usingGpio, usingTimer));
  }

  // Every failure label of irq_demo_init, with and without GPIO and timer.
  lemma FailedInitIsSafe(point: Label, usingGpio: bool, usingTimer: bool, moves: seq<Move>)
    requires OfGpio(point) ==> usingGpio
    ensures var s := Exec(Start(FailedInit(point, usingGpio, usingTimer)), moves);
      !s.fault && (s.queue == Destroyed ==> Stopped(s))
  {
    FailedInitIsWellOrdered(point, usingGpio, usingTimer);
    WellOrderedIsSafe(FailedInit(point, usingGpio, usingTimer), moves);
  }

  lemma LifeIsWellOrdered(usingTimer: bool)
    ensures WellOrdered(Life(false, usingTimer), NOTHING)
  {
    var may := May(Alive, false, usingTimer, true, usingTimer);
    LastSteps(usingTimer, may);
    assert Exit(false, usingTimer) == (if usingTimer then [CancelTimer] else []) + ENDING;
    SetupIsWellOrdered(false, usingTimer, Exit(false, usingTimer));
  }

  // Loading, living and unloading as configured, without GPIO.
  lemma ExitWithoutGpioIsSafe(usingTimer: bool, moves: seq<Move>)
    ensures var s := Exec(Start(Life(false, usingTimer)), moves);
      !s.fault && (s.queue == Destroyed ==> Stopped(s))
  {
    LifeIsWellOrdered(usingTimer);
    WellOrderedIsSafe(Life(false, usingTimer), moves);
  }

  lemma Go(script: seq<Op>, moves: seq<Move>, m: Move) returns (moves': seq<Move>)
    ensures Exec(Start(script), moves') == Next(Exec(Start(script), moves), m)
  {
    moves' := moves + [m];
    assert moves'[..|moves|] == moves;
  }

  // A quiet run of the set-up.
  lemma SetupRuns(usingTimer: bool) returns (moves: seq<Move>)
    ensures Exec(Start(Life(true, usingTimer)), moves)
      == State(Exit(true, usingTimer), Alive, true, 0, if usingTimer then Timer.Armed else Off,
               false, false, true, false, Out, Live, false)
  {
    var life := Life(true, usingTimer);
    var s := Start(life);
    moves := Go(life, [], Main);
    moves := Go(life, moves, Main);
    var s2 := s.(script := life[2..], queue := Alive, delayArmed := true, chain := Live);
    assert life[1..][1..] == life[2..];
    assert Exec(s, moves) == s2;
    if usingTimer {
      moves := Go(life, moves, Main);
      assert life[2..][1..] == life[3..];
      moves := Go(life, moves, Main);
      assert life[3..][1..] == Exit(true, usingTimer);
    } else {
      moves := Go(life, moves, Main);
      assert life[2..][1..] == Exit(true, usingTimer);
    }
  }

  const CALLS: seq<Op> := [CancelDelayedSync, Flush, DestroyWorkqueue, FreeIrq]

  // The line still in use, everything else stopped.
  function Ending(script: seq<Op>, queue: Workqueue): State
  {
    State(script, queue, true, 0, Off, false, false, false, false, Out, Dead, false)
  }

  lemma ChainGoes(life: seq<Op>, moves: seq<Move>) returns (moves': seq<Move>)
    requires Exec(Start(life), moves) == State(CALLS, Alive, true, 0, Off, false, false, true, false, Out, Live, false)
    ensures Exec(Start(life), moves') == Ending([Flush, DestroyWorkqueue, FreeIrq], Alive)
  {
    moves' := Go(life, moves, Main);
    moves' := Go(life, moves', Main);
    assert CALLS[1..] == [Flush, DestroyWorkqueue, FreeIrq];
  }

  lemma QueueGoes(life: seq<Op>, moves: seq<Move>) returns (moves': seq<Move>)
    requires Exec(Start(life), moves) == Ending([Flush, DestroyWorkqueue, FreeIrq], Alive)
    ensures Exec(Start(life), moves') == Ending([FreeIrq], Destroyed)
  {
    moves' := Go(life, moves, Main);
    assert [Flush, DestroyWorkqueue, FreeIrq][1..] == [DestroyWorkqueue, FreeIrq];
    moves' := Go(life, moves', Main);
    assert [DestroyWorkqueue, FreeIrq][1..] == [FreeIrq];
  }

  // Unloading with the GPIO line in use frees the interrupt only after the queue is gone:
  // an interrupt in between queues its work on nothing.
  lemma ExitWithGpioFaults(usingTimer: bool) returns (moves: seq<Move>)
    ensures Exec(Start(Life(true, usingTimer)), moves).fault
  {
    var life := Life(true, usingTimer);
    moves := SetupRuns(usingTimer);
    if usingTimer {
      assert Exit(true, usingTimer)[1..] == CALLS;
      moves := Go(life, moves, Main);
    } else {
      assert Exit(true, usingTimer) == CALLS;
    }
    moves := ChainGoes(life, moves);
    moves := QueueGoes(life, moves);
    moves := Go(life, moves, LineFires);
    moves := Go(life, moves, LineQueues);
  }

  // Unloading is safe in every interleaving exactly when the GPIO line is not used.
  lemma ExitIsSafeExactlyWithoutGpio(usingGpio: bool, usingTimer: bool)
    ensures (forall moves: seq<Move> :: !Exec(Start(Life(usingGpio, usingTimer)), moves).fault) <==> !usingGpio
  {
    if usingGpio {
      var moves := ExitWithGpioFaults(usingTimer);
    } else {
      forall moves: seq<Move> ensures !Exec(Start(Life(false, usingTimer)), moves).fault {
        ExitWithoutGpioIsSafe(usingTimer, moves);
      }
    }
  }

  // ---- The delayed-work chain ----

  // From its first queueing until its cancellation exactly one of armed, pending and running
  // before the re-queue holds: the chain neither dies nor doubles. Once cancelled, none does.
  lemma OneToken(script: seq<Op>, moves: seq<Move>)
    requires WellOrdered(script, NOTHING)
    ensures var s := Exec(Start(script), moves);
      && (s.chain == Live ==> Token(s) == 1)
      && (s.chain == Unborn || s.chain == Dead ==> DelayIdle(s))
  {
    var may := RunCovered(script, moves);
  }

  // The delayed work is queued by the second call and by no later one.
  predicate QueuesOnce(script: seq<Op>)
  {
    |script| >= 2 && script[0] != QueueDelayed && QueueDelayed !in script[2..]
  }

  lemma CallShrinks(s: State)
    requires s.script != []
    ensures Call(s).script == s.script || Call(s).script == s.script[1..]
    ensures s.chain == Unborn && Call(s).chain != Unborn ==>
              s.script[0] == QueueDelayed && Call(s).script == s.script[1..]
  {
    match s.script[0]
    case CreateWorkqueue => case QueueDelayed => case StartTimer => case RequestIrq =>
    case FreeIrq => case CancelTimer => case CancelDelayedSync => case Flush => case DestroyWorkqueue =>
  }

  lemma ScriptShrinks(s: State, m: Move)
    ensures var s' := Next(s, m);
      && (s'.script == s.script || (s.script != [] && s'.script == s.script[1..]))
      && (s.chain == Unborn && s'.chain != Unborn ==>
            s.script != [] && s.script[0] == QueueDelayed && s'.script == s.script[1..])
  {
    if m != Main {
      assert Next(s, m).script == s.script && Next(s, m).chain == s.chain;
    } else if s.script != [] {
      CallShrinks(s);
    }
  }

  lemma {:induction false} NotQueuedAgain(script: seq<Op>, moves: seq<Move>)
    requires QueuesOnce(script)
    ensures var s := Exec(Start(script), moves);
      if s.chain == Unborn then s.script == script || s.script == script[1..] || QueueDelayed !in s.script
      else QueueDelayed !in s.script
  {
    if moves != [] {
      NotQueuedAgain(script, moves[..|moves| - 1]);
      var s := Exec(Start(script), moves[..|moves| - 1]);
      ScriptShrinks(s, moves[|moves| - 1]);
      assert script[1..][1..] == script[2..];
      assert s.script != [] ==> forall op :: op in s.script[1..] ==> op in s.script;
    }
  }

  lemma DeadStep(s: State, m: Move)
    requires s.chain == Dead && DelayIdle(s) && QueueDelayed !in s.script
    ensures Next(s, m).chain == Dead && DelayIdle(Next(s, m))
  {
    assert s.script != [] ==> s.script[0] in s.script;
  }

  lemma {:induction false} DeadStaysDead(s: State, more: seq<Move>)
    requires s.chain == Dead && DelayIdle(s) && QueueDelayed !in s.script
    ensures var e := Exec(s, more); e.chain == Dead && DelayIdle(e) && QueueDelayed !in e.script
  {
    if more != [] {
      DeadStaysDead(s, more[..|more| - 1]);
      var e := Exec(s, more[..|more| - 1]);
      DeadStep(e, more[|more| - 1]);
      ScriptShrinks(e, more[|more| - 1]);
      assert e.script != [] ==> forall op :: op in e.script[1..] ==> op in e.script;
    }
  }

  // After cancel_delayed_work_sync has returned the delayed work never runs again.
  lemma CancelledForGood(script: seq<Op>, moves: seq<Move>, more: seq<Move>)
    requires WellOrdered(script, NOTHING) && QueuesOnce(script)
    requires Exec(Start(script), moves).chain == Dead
    ensures DelayIdle(Exec(Exec(Start(script), moves), more))
  {
    OneToken(script, moves);
    NotQueuedAgain(script, moves);
    DeadStaysDead(Exec(Start(script), moves), more);
  }

  lemma UnwindQueuesNothing(point: Label, usingGpio: bool, usingTimer: bool)
    ensures QueueDelayed !in Unwind(point, usingGpio, usingTimer)
    decreases Below(point)
  {
    match point
    case FailProcCreate => UnwindQueuesNothing(FailCdevAdd, usingGpio, usingTimer);
    case FailCdevAdd => UnwindQueuesNothing(FailDeviceCreate, usingGpio, usingTimer);
    case FailDeviceCreate => UnwindQueuesNothing(FailClassCreate, usingGpio, usingTimer);
    case FailClassCreate => UnwindQueuesNothing(FailRegisterChrdev, usingGpio, usingTimer);
    case FailRegisterChrdev => UnwindQueuesNothing(FailRequestIrq, usingGpio, usingTimer);
    case FailRequestIrq => UnwindQueuesNothing(FailGpioToIrq, usingGpio, usingTimer);
    case FailGpioToIrq => UnwindQueuesNothing(FailGpioDirection, usingGpio, usingTimer);
    case FailGpioDirection => UnwindQueuesNothing(FailGpio, usingGpio, usingTimer);
    case FailGpio =>
  }

  lemma SetupQueuesOnce(requested: bool, usingTimer: bool, rest: seq<Op>)
    requires QueueDelayed !in rest
    ensures QueuesOnce(Setup(requested, usingTimer) + rest)
  {
    var more := (if usingTimer then [StartTimer] else []) + (if requested then [RequestIrq] else []);
    assert Setup(requested, usingTimer) + rest == [CreateWorkqueue, QueueDelayed] + (more + rest);
  }

  // On every failure path, and on unloading without GPIO, the chain ends for good.
  lemma ModuleCancelsForGood(failed: bool, point: Label, usingGpio: bool, usingTimer: bool,
                             moves: seq<Move>, more: seq<Move>)
    requires if failed then OfGpio(point) ==> usingGpio else !usingGpio
    ensures var script := if failed then FailedInit(point, usingGpio, usingTimer) else Life(false, usingTimer);
      var s := Exec(Start(script), moves);
      s.chain == Dead ==> DelayIdle(Exec(s, more))
  {
    if failed {
      var requested := usingGpio && !OfGpio(point);
      var rest := Unwind(point, usingGpio, usingTimer);
      FailedInitIsWellOrdered(point, usingGpio, usingTimer);
      UnwindQueuesNothing(point, usingGpio, usingTimer);
      SetupQueuesOnce(requested, usingTimer, rest);
      if Exec(Start(FailedInit(point, usingGpio, usingTimer)), moves).chain == Dead {
        CancelledForGood(FailedInit(point, usingGpio, usingTimer), moves, more);
      }
    } else {
      LifeIsWellOrdered(usingTimer);
      SetupQueuesOnce(false, usingTimer, Exit(false, usingTimer));
      if Exec(Start(Life(false, usingTimer)), moves).chain == Dead {
        CancelledForGood(Life(false, usingTimer), moves, more);
      }
    }
  }
}
