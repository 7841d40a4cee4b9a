// That nothing in the teardown of tutorial-05 is idle: each source does what it is started
// for, and a sequence of calls is safe only if it is well ordered.
module LifecycleExact {
  import opened LifecycleModel
  import opened LifecycleTheorems
  import opened LifecycleProgress

  lemma LastMove(s: State, moves: seq<Move>, m: Move)
    ensures Exec(s, moves + [m]) == Next(Exec(s, moves), m)
  {
    assert (moves + [m])[..|moves|] == moves;
  }

  lemma ThreeMoves(s: State, a: Move, b: Move, c: Move)
    ensures Exec(s, [a]) == Next(s, a)
    ensures Exec(s, [a, b]) == Next(Next(s, a), b)
    ensures Exec(s, [a, b, c]) == Next(Next(Next(s, a), b), c)
  {
    assert Exec(s, []) == s;
    LastMove(s, [], a);
    LastMove(s, [a], b);
    LastMove(s, [a, b], c);
    assert [] + [a] == [a] && [a] + [b] == [a, b] && [a, b] + [c] == [a, b, c];
  }

  lemma TwoMoves(s: State, a: Move, b: Move)
    ensures Exec(s, [a]) == Next(s, a)
    ensures Exec(s, [a, b]) == Next(Next(s, a), b)
  {
    ThreeMoves(s, a, b, Main);
  }

  // ---- One round of each source ----

  // The timer's callback queues work and leaves the timer armed.
  lemma TimerGoesRound(s: State)
    requires s.timer == Timer.Armed && s.queue == Alive
    ensures Exec(s, [TimerFires]) == s.(timer := Firing)
    ensures Exec(s, [TimerFires, TimerQueues]) == s.(timer := Fired, workPending := true)
    ensures Exec(s, [TimerFires, TimerQueues, TimerReturns]) == s.(workPending := true)
  {
    ThreeMoves(s, TimerFires, TimerQueues, TimerReturns);
  }

  // With no queue to take it, it is a fault.
  lemma TimerWithoutQueueFaults(s: State)
    requires s.timer == Timer.Armed && s.queue != Alive
    ensures Exec(s, [TimerFires, TimerQueues]).fault
  {
    ThreeMoves(s, TimerFires, TimerQueues, TimerReturns);
  }

  lemma LineGoesRound(s: State)
    requires s.line && s.queue == Alive
    ensures Exec(s, [LineFires, LineQueues]) == s.(workPending := true)
  {
    TwoMoves(s, LineFires, LineQueues);
  }

  lemma LineWithoutQueueFaults(s: State)
    requires s.line && s.queue != Alive
    ensures Exec(s, [LineFires, LineQueues]).fault
  {
    TwoMoves(s, LineFires, LineQueues);
  }

  // The worker takes the item and is done with it.
  lemma WorkGoesRound(s: State)
    requires s.workPending && !s.workRunning
    ensures Exec(s, [WorkStarts]).workRunning && !Exec(s, [WorkStarts]).workPending
    ensures Exec(s, [WorkStarts, WorkEnds]) == s.(workPending := false)
  {
    TwoMoves(s, WorkStarts, WorkEnds);
  }

  // An item that is queued again while it runs is not lost: it waits for that run to end.
  lemma PendingWaits(s: State)
    requires s.workPending && s.workRunning
    ensures Exec(s, [WorkStarts]) == s && Exec(s, [WorkEnds, WorkStarts]) == s.(workPending := false)
  {
    TwoMoves(s, WorkStarts, WorkEnds);
    TwoMoves(s, WorkEnds, WorkStarts);
  }

  lemma ChainStarts(s: State)
    requires s.delayArmed && !s.delayPending && s.delayBody == Out && s.queue == Alive
    ensures Exec(s, [DelayExpires, DelayStarts]) == s.(delayArmed := false, delayBody := Before)
  {
    TwoMoves(s, DelayExpires, DelayStarts);
    assert Next(s, DelayExpires) == s.(delayArmed := false, delayPending := true);
  }

  lemma ChainRequeues(s: State)
    requires !s.delayArmed && !s.delayPending && s.delayBody == Before && s.chain == Live && s.queue == Alive
    ensures Exec(s, [DelayRequeues, DelayReturns]) == s.(delayArmed := true, delayBody := Out)
  {
    TwoMoves(s, DelayRequeues, DelayReturns);
    assert Next(s, DelayRequeues) == s.(delayArmed := true, delayBody := After);
  }

  // The delayed work expires, runs, and has queued itself anew when it is over.
  lemma ChainGoesRound(s: State)
    requires s.delayArmed && !s.delayPending && s.delayBody == Out && s.chain == Live && s.queue == Alive
    ensures Exec(s, [DelayExpires, DelayStarts]) == s.(delayArmed := false, delayBody := Before)
    ensures Exec(Exec(s, [DelayExpires, DelayStarts]), [DelayRequeues, DelayReturns]) == s
  {
    ChainStarts(s);
    ChainRequeues(s.(delayArmed := false, delayBody := Before));
  }

  // What is running before a move runs on after it, unless the move is its own: the callback,
  // top halves, the worker, the delayed handler.
  predicate RunsOn(s: State, m: Move, s': State)
  {
    && (s.timer == Firing && m != TimerQueues ==> s'.timer == Firing)
    && (s.timer == Fired && m != TimerReturns ==> s'.timer == Fired)
    && (m != LineQueues ==> s'.topHalves >= s.topHalves)
    && (s.workRunning && m != WorkEnds ==> s'.workRunning)
    && (s.delayBody == Before && m != DelayRequeues ==> s'.delayBody == Before)
    && (s.delayBody == After && m != DelayReturns ==> s'.delayBody == After)
  }

  lemma StopCutsNothing(s: State)
    requires s.script != [] && (s.script[0].FreeIrq? || s.script[0].CancelTimer? || s.script[0].CancelDelayedSync?)
    ensures RunsOn(s, Main, Call(s))
  {
  }

  lemma StartCutsNothing(s: State)
    requires s.script != [] && (s.script[0].StartTimer? ==> s.timer == Off)
    requires s.script[0].QueueDelayed? || s.script[0].StartTimer? || s.script[0].RequestIrq?
    ensures RunsOn(s, Main, Call(s))
  {
  }

  lemma QueueCutsNothing(s: State)
    requires s.script != [] && (s.script[0].CreateWorkqueue? || s.script[0].Flush? || s.script[0].DestroyWorkqueue?)
    ensures RunsOn(s, Main, Call(s))
  {
  }

  lemma CallCutsNothing(s: State)
    requires s.script != [] && (s.script[0].StartTimer? ==> s.timer == Off)
    ensures RunsOn(s, Main, Call(s))
  {
    match s.script[0] {
      case FreeIrq => StopCutsNothing(s);
      case CancelTimer => StopCutsNothing(s);
      case CancelDelayedSync => StopCutsNothing(s);
      case CreateWorkqueue => QueueCutsNothing(s);
      case Flush => QueueCutsNothing(s);
      case DestroyWorkqueue => QueueCutsNothing(s);
      case _ => StartCutsNothing(s);
    }
  }

  lemma TimerCutsNothing(s: State, m: Move)
    requires m.TimerFires? || m.TimerQueues? || m.TimerReturns?
    ensures RunsOn(s, m, Next(s, m))
  {
  }

  lemma LineCutsNothing(s: State, m: Move)
    requires m.LineFires? || m.LineQueues?
    ensures RunsOn(s, m, Next(s, m))
  {
  }

  lemma ItemsCutNothing(s: State, m: Move)
    requires m.WorkStarts? || m.WorkEnds? || m.DelayExpires? || m.DelayStarts? || m.DelayRequeues? || m.DelayReturns?
    ensures RunsOn(s, m, Next(s, m))
  {
  }

  // Nothing but its own step ends a handler, when a timer is only started while it is off.
  lemma NothingIsCutShort(s: State, m: Move)
    requires m == Main && s.script != [] && s.script[0].StartTimer? ==> s.timer == Off
    ensures RunsOn(s, m, Next(s, m))
  {
    if m == Main {
      if s.script != [] { CallCutsNothing(s); }
    } else if m.TimerFires? || m.TimerQueues? || m.TimerReturns? {
      TimerCutsNothing(s, m);
    } else if m.LineFires? || m.LineQueues? {
      LineCutsNothing(s, m);
    } else {
      ItemsCutNothing(s, m);
    }
  }

  // So a call that stops a source returns only when its handler is out, and leaves the source
  // off; a flush returns only when nothing is queued or running.
  lemma StopsWait(s: State)
    requires s.script != [] && Next(s, Main).script != s.script
    ensures var s' := Next(s, Main);
      match s.script[0]
      case FreeIrq => !s'.line && s.topHalves == 0 && s'.topHalves == 0
      case CancelTimer => s'.timer == Off && s.timer != Firing && s.timer != Fired
      case CancelDelayedSync => s.chain == Cancelling ==> s'.chain == Dead && s.delayBody == Out
      case Flush => !s'.workPending && !s'.workRunning && !s'.delayPending && s'.delayBody == Out
      case _ => true
  {
  }

  // Once all is stopped and all calls are made, nothing ever happens again.
  lemma {:induction false} StoppedForGood(s: State, moves: seq<Move>)
    requires Stopped(s) && s.script == []
    ensures Exec(s, moves) == s
  {
    if moves != [] { StoppedForGood(s, moves[..|moves| - 1]); }
  }

  // ---- Safe only if well ordered ----

  ghost predicate Leads(s: State, s': State) { exists moves: seq<Move> :: Exec(s, moves) == s' }

  lemma LeadsBy(s: State, s1: State, moves: seq<Move>)
    requires Leads(s, s1)
    ensures Leads(s, Exec(s1, moves))
  {
    var before: seq<Move> :| Exec(s, before) == s1;
    ExecAppend(s, before, moves);
  }

  lemma LeadsOn(s: State, s1: State, s2: State)
    requires Leads(s, s1) && Leads(s1, s2)
    ensures Leads(s, s2)
  {
    var moves: seq<Move> :| Exec(s1, moves) == s2;
    LeadsBy(s, s1, moves);
  }

  lemma LeadsMain(s: State, s1: State)
    requires Leads(s, s1)
    ensures Leads(s, Next(s1, Main))
  {
    LeadsBy(s, s1, [Main]);
    ThreeMoves(s1, Main, Main, Main);
  }

  // Between two calls, nobody in the middle of anything, with all that may go on going on.
  function Calm(script: seq<Op>, may: May, chain: Chain): State
  {
    State(script, may.queue, may.line, 0, if may.timer then Timer.Armed else Off, may.work, false,
          may.delay, false, Out, chain, false)
  }

  predicate Grounded(may: May, chain: Chain)
  {
    && (may.line || may.timer || may.delay || may.work ==> may.queue == Alive)
    && (may.line || may.timer ==> may.work)
    && (chain == Live <==> may.delay) && chain != Cancelling
  }

  // A script that does not repeat a call where the model has no fault for it: it creates one
  // queue, destroys one it has, and does not queue delayed work that is already queued.
  predicate Sensible(script: seq<Op>, may: May)
  {
    script != [] ==>
      && (script[0] == CreateWorkqueue ==> may.queue == Absent)
      && (script[0] == QueueDelayed ==> !may.delay)
      && (script[0] == DestroyWorkqueue ==> may.queue == Alive)
      && Sensible(script[1..], Advance(script[0], may))
  }

  function ChainAfter(op: Op, chain: Chain): Chain
  {
    if op == QueueDelayed then Live
    else if op == CancelDelayedSync && chain == Live then Dead else chain
  }

  // The source that has work pending again after a flush, or at once when it is started.
  lemma SourceRings(s: State, s1: State)
    requires Leads(s, s1) && s1.queue == Alive && (s1.line || s1.timer == Timer.Armed)
    ensures Leads(s, s1.(workPending := true))
  {
    if s1.line {
      LineGoesRound(s1);
      LeadsBy(s, s1, [LineFires, LineQueues]);
    } else {
      TimerGoesRound(s1);
      LeadsBy(s, s1, [TimerFires, TimerQueues, TimerReturns]);
    }
  }

  lemma Stays(s: State)
    ensures Leads(s, s)
  {
    assert Exec(s, []) == s;
  }

  // A permitted call leads from one calm state to the next.
  lemma CalmStarts(script: seq<Op>, may: May, chain: Chain)
    requires script != [] && Grounded(may, chain) && Permitted(script[0], may)
    requires script[0] in {CreateWorkqueue, QueueDelayed, Op.StartTimer, RequestIrq}
    ensures Leads(Calm(script, may, chain), Calm(script[1..], Advance(script[0], may), ChainAfter(script[0], chain)))
  {
    var s := Calm(script, may, chain);
    Stays(s);
    LeadsMain(s, s);
    if script[0] == Op.StartTimer || script[0] == RequestIrq { SourceRings(s, Next(s, Main)); }
  }

  lemma CalmStops(script: seq<Op>, may: May, chain: Chain)
    requires script != [] && Grounded(may, chain) && Permitted(script[0], may)
    requires script[0] in {FreeIrq, CancelTimer, CancelDelayedSync, DestroyWorkqueue}
    ensures Leads(Calm(script, may, chain), Calm(script[1..], Advance(script[0], may), ChainAfter(script[0], chain)))
  {
    var s := Calm(script, may, chain);
    Stays(s);
    LeadsMain(s, s);
    if script[0] == CancelDelayedSync && chain == Live { LeadsMain(s, Next(s, Main)); }
  }

  lemma CalmFlushes(script: seq<Op>, may: May, chain: Chain)
    requires script != [] && Grounded(may, chain) && script[0] == Flush
    ensures Leads(Calm(script, may, chain), Calm(script[1..], Advance(Flush, may), chain))
  {
    var s := Calm(script, may, chain);
    Stays(s);
    var idle := s.(workPending := false);
    if may.work {
      WorkGoesRound(s);
      LeadsBy(s, s, [WorkStarts, WorkEnds]);
    }
    LeadsMain(s, idle);
    if may.line || may.timer { SourceRings(s, Next(idle, Main)); }
  }

  lemma CalmGoesOn(script: seq<Op>, may: May, chain: Chain)
    requires script != [] && Grounded(may, chain) && Permitted(script[0], may)
    ensures Leads(Calm(script, may, chain), Calm(script[1..], Advance(script[0], may), ChainAfter(script[0], chain)))
    ensures Grounded(Advance(script[0], may), ChainAfter(script[0], chain))
  {
    match script[0]
    case Flush => CalmFlushes(script, may, chain);
    case FreeIrq => CalmStops(script, may, chain);
    case CancelTimer => CalmStops(script, may, chain);
    case CancelDelayedSync => CalmStops(script, may, chain);
    case DestroyWorkqueue => CalmStops(script, may, chain);
    case _ => CalmStarts(script, may, chain);
  }

  // A call that is not permitted leads from a calm state to a fault.
  lemma CalmFaults(script: seq<Op>, may: May, chain: Chain) returns (bad: State)
    requires script != [] && Grounded(may, chain) && Sensible(script, may) && !Permitted(script[0], may)
    ensures Leads(Calm(script, may, chain), bad) && bad.fault
  {
    var s := Calm(script, may, chain);
    Stays(s);
    LeadsMain(s, s);
    bad := Next(s, Main);
    if !bad.fault {
      if bad.line {
        LineWithoutQueueFaults(bad);
        LeadsBy(s, bad, [LineFires, LineQueues]);
        bad := Exec(bad, [LineFires, LineQueues]);
      } else {
        TimerWithoutQueueFaults(bad);
        LeadsBy(s, bad, [TimerFires, TimerQueues]);
        bad := Exec(bad, [TimerFires, TimerQueues]);
      }
    }
  }

  lemma {:induction false} UnorderedFaults(script: seq<Op>, may: May, chain: Chain) returns (bad: State)
    requires Grounded(may, chain) && Sensible(script, may) && !WellOrdered(script, may)
    ensures Leads(Calm(script, may, chain), bad) && bad.fault
  {
    if Permitted(script[0], may) {
      CalmGoesOn(script, may, chain);
      var next, chain' := Advance(script[0], may), ChainAfter(script[0], chain);
      bad := UnorderedFaults(script[1..], next, chain');
      LeadsOn(Calm(script, may, chain), Calm(script[1..], next, chain'), bad);
    } else {
      bad := CalmFaults(script, may, chain);
    }
  }

  ghost predicate Safe(script: seq<Op>) { forall moves: seq<Move> :: !Exec(Start(script), moves).fault }

  // A sensible script is safe in every interleaving if and only if it is well ordered: the
  // static check refuses nothing that is safe.
  lemma SafeExactlyWhenWellOrdered(script: seq<Op>)
    requires Sensible(script, NOTHING)
    ensures Safe(script) <==> WellOrdered(script, NOTHING)
  {
    if WellOrdered(script, NOTHING) {
      forall moves: seq<Move> ensures !Exec(Start(script), moves).fault { WellOrderedIsSafe(script, moves); }
    } else {
      var bad := UnorderedFaults(script, NOTHING, Unborn);
      assert Calm(script, NOTHING, Unborn) == Start(script);
      var moves: seq<Move> :| Exec(Start(script), moves) == bad;
    }
  }

  // ---- No call of the teardown can be spared ----

  function If(on: bool, op: Op): seq<Op> { if on then [op] else [] }

  // A teardown with any of its calls left out.
  function Teardown(frees: bool, stopsTimer: bool, cancels: bool, flushes: bool): seq<Op>
  {
    If(frees, FreeIrq) + (If(stopsTimer, CancelTimer)
      + (If(cancels, CancelDelayedSync) + (If(flushes, Flush) + [DestroyWorkqueue])))
  }

  lemma OrderedFirst(on: bool, op: Op, rest: seq<Op>, may: May)
    ensures WellOrdered(If(on, op) + rest, may)
       <==> if on then Permitted(op, may) && WellOrdered(rest, Advance(op, may)) else WellOrdered(rest, may)
  {
    if on { assert ([op] + rest)[1..] == rest; } else { assert [] + rest == rest; }
  }

  lemma SensibleFirst(on: bool, op: Op, rest: seq<Op>, may: May)
    requires op in {Op.StartTimer, RequestIrq, FreeIrq, CancelTimer, CancelDelayedSync, Flush}
    ensures Sensible(If(on, op) + rest, may) <==> Sensible(rest, if on then Advance(op, may) else may)
  {
    if on { assert ([op] + rest)[1..] == rest; } else { assert [] + rest == rest; }
  }

  // After the set-up the teardown is well ordered exactly with all calls that it needs.
  lemma TeardownOrdered(frees: bool, stopsTimer: bool, cancels: bool, flushes: bool, may: May)
    requires may.queue == Alive && may.delay && (may.work <==> may.line || may.timer)
    ensures Sensible(Teardown(frees, stopsTimer, cancels, flushes), may)
    ensures WellOrdered(Teardown(frees, stopsTimer, cancels, flushes), may) <==>
      && (may.line ==> frees) && (may.timer ==> stopsTimer) && cancels
      && (may.line || may.timer ==> flushes)
  {
    var m1 := if frees then Advance(FreeIrq, may) else may;
    var m2 := if stopsTimer then Advance(CancelTimer, m1) else m1;
    var m3 := if cancels then Advance(CancelDelayedSync, m2) else m2;
    var m4 := if flushes then Advance(Flush, m3) else m3;
    var end: seq<Op> := [DestroyWorkqueue];
    assert end[1..] == [];
    assert Sensible(end, m4);
    var r4 := If(flushes, Flush) + end;
    var r3 := If(cancels, CancelDelayedSync) + r4;
    var r2 := If(stopsTimer, CancelTimer) + r3;
    SensibleFirst(flushes, Flush, end, m3);
    SensibleFirst(cancels, CancelDelayedSync, r4, m2);
    SensibleFirst(stopsTimer, CancelTimer, r3, m1);
    SensibleFirst(frees, FreeIrq, r2, may);
    OrderedFirst(flushes, Flush, end, m3);
    OrderedFirst(cancels, CancelDelayedSync, r4, m2);
    OrderedFirst(stopsTimer, CancelTimer, r3, m1);
    OrderedFirst(frees, FreeIrq, r2, may);
  }

  lemma SetupByCalls(requested: bool, usingTimer: bool, rest: seq<Op>)
    ensures Setup(requested, usingTimer) + rest
         == [CreateWorkqueue] + ([QueueDelayed] + (If(usingTimer, Op.StartTimer) + (If(requested, RequestIrq) + rest)))
  {
  }

  lemma SetupOrdered(requested: bool, usingTimer: bool, rest: seq<Op>)
    ensures var may := May(Alive, requested, usingTimer, true, requested || usingTimer);
      && (WellOrdered(Setup(requested, usingTimer) + rest, NOTHING) <==> WellOrdered(rest, may))
      && (Sensible(Setup(requested, usingTimer) + rest, NOTHING) <==> Sensible(rest, may))
  {
    var m1 := May(Alive, false, false, true, false);
    var m2 := if usingTimer then Advance(Op.StartTimer, m1) else m1;
    var r2 := If(requested, RequestIrq) + rest;
    var r1 := If(usingTimer, Op.StartTimer) + r2;
    OrderedFirst(requested, RequestIrq, rest, m2);
    SensibleFirst(requested, RequestIrq, rest, m2);
    OrderedFirst(usingTimer, Op.StartTimer, r2, m1);
    SensibleFirst(usingTimer, Op.StartTimer, r2, m1);
    var whole := [CreateWorkqueue] + ([QueueDelayed] + r1);
    SetupByCalls(requested, usingTimer, rest);
    assert whole[1..] == [QueueDelayed] + r1 && ([QueueDelayed] + r1)[1..] == r1;
  }

  // Unloading is safe in every interleaving if and only if it frees the line that is in use,
  // stops the timer that is, cancels the delayed work, and flushes when either could have
  // queued: each call is needed, and nothing else is.
  lemma EveryStopIsNeeded(requested: bool, usingTimer: bool,
                          frees: bool, stopsTimer: bool, cancels: bool, flushes: bool)
    ensures Safe(Setup(requested, usingTimer) + Teardown(frees, stopsTimer, cancels, flushes)) <==>
      && (requested ==> frees) && (usingTimer ==> stopsTimer) && cancels
      && (requested || usingTimer ==> flushes)
  {
    var rest := Teardown(frees, stopsTimer, cancels, flushes);
    TeardownOrdered(frees, stopsTimer, cancels, flushes,
                    May(Alive, requested, usingTimer, true, requested || usingTimer));
    SetupOrdered(requested, usingTimer, rest);
    SafeExactlyWhenWellOrdered(Setup(requested, usingTimer) + rest);
  }

  // ---- What is started is stopped, and nothing else ----

  // Control falling through the labels makes the calls of a teardown, the line's only from
  // the labels that are reached with the line requested.
  lemma {:induction false} UnwindIsTeardown(point: Label, usingGpio: bool, usingTimer: bool)
    ensures Unwind(point, usingGpio, usingTimer) == Teardown(usingGpio && !OfGpio(point), usingTimer, true, true)
    decreases Below(point)
  {
    match point
    case FailProcCreate => UnwindIsTeardown(FailCdevAdd, usingGpio, usingTimer);
    case FailCdevAdd => UnwindIsTeardown(FailDeviceCreate, usingGpio, usingTimer);
    case FailDeviceCreate => UnwindIsTeardown(FailClassCreate, usingGpio, usingTimer);
    case FailClassCreate => UnwindIsTeardown(FailRegisterChrdev, usingGpio, usingTimer);
    case FailRegisterChrdev => UnwindIsTeardown(FailRequestIrq, usingGpio, usingTimer);
    case FailRequestIrq => UnwindIsTeardown(FailGpioToIrq, usingGpio, usingTimer);
    case FailGpioToIrq => UnwindIsTeardown(FailGpioDirection, usingGpio, usingTimer);
    case FailGpioDirection => UnwindIsTeardown(FailGpio, usingGpio, usingTimer);
    case FailGpio =>
  }

  function Times(script: seq<Op>, op: Op): nat { multiset(script)[op] }

  // How often a script makes a call that stops exactly what it starts, each once.
  function Matched(requested: bool, usingTimer: bool, op: Op): nat
  {
    match op
    case StartTimer => if usingTimer then 1 else 0
    case CancelTimer => if usingTimer then 1 else 0
    case RequestIrq => if requested then 1 else 0
    case FreeIrq => if requested then 1 else 0
    case _ => 1
  }

  lemma TimesFirst(on: bool, o: Op, rest: seq<Op>, op: Op)
    ensures Times(If(on, o) + rest, op) == Times(rest, op) + if on && o == op then 1 else 0
  {
    if on { assert multiset([o] + rest) == multiset([o]) + multiset(rest); } else { assert [] + rest == rest; }
  }

  lemma SetupTimes(requested: bool, usingTimer: bool, rest: seq<Op>, op: Op)
    ensures Times(Setup(requested, usingTimer) + rest, op) == Times(rest, op)
      + match op
        case CreateWorkqueue => 1
        case QueueDelayed => 1
        case StartTimer => if usingTimer then 1 else 0
        case RequestIrq => if requested then 1 else 0
        case _ => 0
  {
    SetupByCalls(requested, usingTimer, rest);
    var r2 := If(requested, RequestIrq) + rest;
    var r1 := If(usingTimer, Op.StartTimer) + r2;
    TimesFirst(requested, RequestIrq, rest, op);
    TimesFirst(usingTimer, Op.StartTimer, r2, op);
    TimesFirst(true, QueueDelayed, r1, op);
    TimesFirst(true, CreateWorkqueue, [QueueDelayed] + r1, op);
  }

  lemma TeardownTimes(frees: bool, stopsTimer: bool, op: Op)
    ensures Times(Teardown(frees, stopsTimer, true, true), op)
      == match op
        case CancelDelayedSync => 1
        case Flush => 1
        case DestroyWorkqueue => 1
        case CancelTimer => if stopsTimer then 1 else 0
        case FreeIrq => if frees then 1 else 0
        case _ => 0
  {
    var end: seq<Op> := [DestroyWorkqueue];
    var r4 := If(true, Flush) + end;
    var r3 := If(true, CancelDelayedSync) + r4;
    TimesFirst(true, DestroyWorkqueue, [], op);
    assert If(true, DestroyWorkqueue) + [] == end;
    TimesFirst(true, Flush, end, op);
    TimesFirst(true, CancelDelayedSync, r4, op);
    TimesFirst(stopsTimer, CancelTimer, r3, op);
    TimesFirst(frees, FreeIrq, If(stopsTimer, CancelTimer) + r3, op);
  }

  lemma ExitByCalls(usingGpio: bool, usingTimer: bool)
    ensures Exit(usingGpio, usingTimer) == If(usingTimer, CancelTimer) + (If(true, CancelDelayedSync)
              + (If(true, Flush) + (If(true, DestroyWorkqueue) + (If(usingGpio, FreeIrq) + []))))
  {
  }

  lemma ExitTimes(usingGpio: bool, usingTimer: bool, op: Op)
    ensures Times(Exit(usingGpio, usingTimer), op) == Times(Teardown(usingGpio, usingTimer, true, true), op)
  {
    ExitByCalls(usingGpio, usingTimer);
    TeardownTimes(usingGpio, usingTimer, op);
    var r5 := If(usingGpio, FreeIrq) + [];
    var r4 := If(true, DestroyWorkqueue) + r5;
    var r3 := If(true, Flush) + r4;
    TimesFirst(usingGpio, FreeIrq, [], op);
    TimesFirst(true, DestroyWorkqueue, r5, op);
    TimesFirst(true, Flush, r4, op);
    TimesFirst(true, CancelDelayedSync, r3, op);
    TimesFirst(usingTimer, CancelTimer, If(true, CancelDelayedSync) + r3, op);
  }

  // A set-up and the teardown it asks for match call by call.
  lemma BothMatch(requested: bool, usingTimer: bool, rest: seq<Op>, op: Op)
    requires Times(rest, op) == Times(Teardown(requested, usingTimer, true, true), op)
    ensures Times(Setup(requested, usingTimer) + rest, op) == Matched(requested, usingTimer, op)
  {
    SetupTimes(requested, usingTimer, rest, op);
    TeardownTimes(requested, usingTimer, op);
  }

  // All failure paths of irq_demo_init and its exit, with and without GPIO and timer, stop
  // exactly what was started, each once: no line is freed that was not requested, and no
  // timer stopped that was not started.
  lemma CallsMatch(failed: bool, point: Label, usingGpio: bool, usingTimer: bool, op: Op)
    requires failed && OfGpio(point) ==> usingGpio
    ensures if failed then
              Times(FailedInit(point, usingGpio, usingTimer), op)
           == Matched(usingGpio && !OfGpio(point), usingTimer, op)
            else Times(Life(usingGpio, usingTimer), op) == Matched(usingGpio, usingTimer, op)
  {
    if failed {
      UnwindIsTeardown(point, usingGpio, usingTimer);
      BothMatch(usingGpio && !OfGpio(point), usingTimer, Unwind(point, usingGpio, usingTimer), op);
    } else {
      ExitTimes(usingGpio, usingTimer, op);
      BothMatch(usingGpio, usingTimer, Exit(usingGpio, usingTimer), op);
    }
  }
}
