// The calls of tutorial-05 that wait do not wait for ever: every failure path of
// irq_demo_init, and unloading without GPIO, can be carried to its end from any point.
module LifecycleProgress {
  import opened LifecycleModel
  import opened LifecycleTheorems

  // A step that finishes something; the others start something anew: the timer and the line
  // fire, the delayed work's five seconds run out.
  predicate Finishing(m: Move) { !m.TimerFires? && !m.LineFires? && !m.DelayExpires? }

  // How many finishing steps there are to make: the calls, two of which may take two steps,
  // and what has been started and is not over.
  function Remaining(s: State): nat
  {
    2 * |s.script|
    + (if s.chain == Live then 1 else 0)
    + 3 * s.topHalves
    + (match s.timer case Firing => 4 case Fired => 1 case _ => 0)
    + (if s.workPending then 2 else 0) + (if s.workRunning then 1 else 0)
    + (if s.delayPending then 3 else 0)
    + (match s.delayBody case Before => 2 case After => 1 case Out => 0)
  }

  lemma StartingCallIsOneLess(s: State)
    requires s.script != [] && s.script[0] in {CreateWorkqueue, QueueDelayed, Op.StartTimer, RequestIrq}
    ensures Remaining(Call(s)) < Remaining(s)
  {
  }

  lemma StoppingCallIsOneLess(s: State)
    requires s.script != [] && (s.script[0] == FreeIrq || s.script[0] == CancelTimer) && Call(s) != s
    ensures Remaining(Call(s)) < Remaining(s)
  {
  }

  lemma CancellingCallIsOneLess(s: State)
    requires s.script != [] && s.script[0] == CancelDelayedSync && Call(s) != s
    ensures Remaining(Call(s)) < Remaining(s)
  {
  }

  lemma EndingCallIsOneLess(s: State)
    requires s.script != [] && s.script[0] in {Flush, DestroyWorkqueue} && Call(s) != s
    ensures Remaining(Call(s)) < Remaining(s)
  {
  }

  lemma CallIsOneLess(s: State)
    requires s.script != [] && Call(s) != s
    ensures Remaining(Call(s)) < Remaining(s)
  {
    match s.script[0]
    case FreeIrq => StoppingCallIsOneLess(s);
    case CancelTimer => StoppingCallIsOneLess(s);
    case CancelDelayedSync => CancellingCallIsOneLess(s);
    case Flush => EndingCallIsOneLess(s);
    case DestroyWorkqueue => EndingCallIsOneLess(s);
    case _ => StartingCallIsOneLess(s);
  }

  lemma DelayIsOneLess(s: State, m: Move)
    requires (m.DelayStarts? || m.DelayRequeues? || m.DelayReturns?) && Next(s, m) != s
    ensures Remaining(Next(s, m)) < Remaining(s)
  {
  }

  lemma WorkIsOneLess(s: State, m: Move)
    requires (m.WorkStarts? || m.WorkEnds?) && Next(s, m) != s
    ensures Remaining(Next(s, m)) < Remaining(s)
  {
  }

  lemma TimerIsOneLess(s: State, m: Move)
    requires (m.TimerQueues? || m.TimerReturns?) && Next(s, m) != s
    ensures Remaining(Next(s, m)) < Remaining(s)
  {
  }

  lemma LineIsOneLess(s: State)
    requires Next(s, LineQueues) != s
    ensures Remaining(Next(s, LineQueues)) < Remaining(s)
  {
  }

  // Every finishing step that changes anything is one less to make, so only sources that
  // keep firing can keep a schedule going.
  lemma RemainingDecreases(s: State, m: Move)
    requires Finishing(m) && Next(s, m) != s
    ensures Remaining(Next(s, m)) < Remaining(s)
  {
    match m
    case Main => CallIsOneLess(s);
    case WorkStarts => WorkIsOneLess(s, m);
    case WorkEnds => WorkIsOneLess(s, m);
    case DelayStarts => DelayIsOneLess(s, m);
    case DelayRequeues => DelayIsOneLess(s, m);
    case DelayReturns => DelayIsOneLess(s, m);
    case LineQueues => LineIsOneLess(s);
    case _ => TimerIsOneLess(s, m);
  }

  lemma WhoWaits(s: State)
    requires s.script != [] && Call(s) == s
    ensures match s.script[0]
      case FreeIrq => s.topHalves > 0
      case CancelTimer => s.timer == Firing || s.timer == Fired
      case CancelDelayedSync => s.delayBody != Out
      case Flush => s.workPending || s.workRunning || s.delayPending || s.delayBody != Out
      case _ => false
  {
    assert Call(s).script == s.script;
  }

  // What a waiting call waits for can go on.
  lemma WaitsFor(s: State) returns (m: Move)
    requires s.script != [] && Call(s) == s
    ensures Finishing(m) && Next(s, m) != s
  {
    WhoWaits(s);
    var op := s.script[0];
    if op == FreeIrq {
      m := LineQueues;
    } else if op == CancelTimer {
      m := if s.timer == Firing then TimerQueues else TimerReturns;
    } else if s.delayBody == Before {
      m := DelayRequeues;
    } else if s.delayBody == After {
      m := DelayReturns;
    } else if s.workRunning {
      m := WorkEnds;
    } else if s.workPending {
      m := WorkStarts;
    } else {
      m := DelayStarts;
    }
  }

  lemma {:induction false} ExecAppend(s: State, a: seq<Move>, b: seq<Move>)
    ensures Exec(s, a + b) == Exec(Exec(s, a), b)
  {
    if b == [] {
      assert a + b == a;
    } else {
      var n := |b| - 1;
      assert (a + b)[..|a + b| - 1] == a + b[..n];
      ExecAppend(s, a, b[..n]);
    }
  }

  // Exec peels its last move; this peels the first.
  lemma ExecFirst(s: State, m: Move, rest: seq<Move>)
    ensures Exec(s, [m] + rest) == Exec(Next(s, m), rest)
  {
    ExecAppend(s, [m], rest);
    assert [m][..0] == [];
  }

  // From every state whatever, at most Remaining(s) finishing steps make all the calls that
  // are left: no call waits for something that cannot come.
  lemma {:induction false} ScriptEnds(s: State) returns (more: seq<Move>)
    ensures |more| <= Remaining(s) && forall k :: 0 <= k < |more| ==> Finishing(more[k])
    ensures Exec(s, more).script == []
    decreases Remaining(s)
  {
    if s.script == [] {
      more := [];
    } else {
      var m := Main;
      if Call(s) == s { m := WaitsFor(s); }
      RemainingDecreases(s, m);
      var rest := ScriptEnds(Next(s, m));
      ExecFirst(s, m, rest);
      more := [m] + rest;
    }
  }

  // ---- A script that ends by destroying the queue ----

  predicate EndsTheQueue(script: seq<Op>)
  {
    script != [] && script[|script| - 1] == DestroyWorkqueue
  }

  lemma EndCall(s: State, s': State)
    requires EndsTheQueue(s.script) && s' == Call(s)
    ensures EndsTheQueue(s'.script) || (s'.script == [] && s'.queue == Destroyed)
  {
    CallShrinks(s);
    if s'.script == [] { assert s.script[0] == DestroyWorkqueue; }
  }

  lemma EndElse(s: State, m: Move)
    requires m != Main || s.script == []
    ensures Next(s, m).script == s.script && Next(s, m).queue == s.queue
  {
    match m
    case Main => case TimerFires => case TimerQueues => case TimerReturns => case LineFires => case LineQueues =>
    case WorkStarts => case WorkEnds =>
    case DelayExpires => case DelayStarts => case DelayRequeues => case DelayReturns =>
  }

  lemma EndStep(s: State, m: Move)
    requires EndsTheQueue(s.script) || (s.script == [] && s.queue == Destroyed)
    ensures var s' := Next(s, m); EndsTheQueue(s'.script) || (s'.script == [] && s'.queue == Destroyed)
  {
    if m != Main || s.script == [] {
      EndElse(s, m);
    } else {
      EndCall(s, Next(s, m));
    }
  }

  lemma {:induction false} EndRun(s: State, moves: seq<Move>)
    requires EndsTheQueue(s.script)
    ensures var e := Exec(s, moves); EndsTheQueue(e.script) || (e.script == [] && e.queue == Destroyed)
  {
    if moves != [] {
      EndRun(s, moves[..|moves| - 1]);
      EndStep(Exec(s, moves[..|moves| - 1]), moves[|moves| - 1]);
    }
  }

  // After any interleaving of a well-ordered script that ends by destroying the queue, a
  // bounded number of finishing steps completes it: the queue is gone, nothing is left that
  // could queue work, and no fault has happened.
  lemma TeardownFinishes(script: seq<Op>, moves: seq<Move>) returns (more: seq<Move>)
    requires WellOrdered(script, NOTHING) && EndsTheQueue(script)
    ensures |more| <= Remaining(Exec(Start(script), moves)) && forall k :: 0 <= k < |more| ==> Finishing(more[k])
    ensures var e := Exec(Exec(Start(script), moves), more);
      e.script == [] && e.queue == Destroyed && Stopped(e) && !e.fault
  {
    more := ScriptEnds(Exec(Start(script), moves));
    ExecAppend(Start(script), moves, more);
    EndRun(Start(script), moves + more);
    WellOrderedIsSafe(script, moves + more);
  }

  lemma {:induction false} UnwindEndsTheQueue(point: Label, usingGpio: bool, usingTimer: bool)
    ensures EndsTheQueue(Unwind(point, usingGpio, usingTimer))
    decreases Below(point)
  {
    match point
    case FailProcCreate => UnwindEndsTheQueue(FailCdevAdd, usingGpio, usingTimer);
    case FailCdevAdd => UnwindEndsTheQueue(FailDeviceCreate, usingGpio, usingTimer);
    case FailDeviceCreate => UnwindEndsTheQueue(FailClassCreate, usingGpio, usingTimer);
    case FailClassCreate => UnwindEndsTheQueue(FailRegisterChrdev, usingGpio, usingTimer);
    case FailRegisterChrdev => UnwindEndsTheQueue(FailRequestIrq, usingGpio, usingTimer);
    case FailRequestIrq => UnwindEndsTheQueue(FailGpioToIrq, usingGpio, usingTimer);
    case FailGpioToIrq => UnwindEndsTheQueue(FailGpioDirection, usingGpio, usingTimer);
    case FailGpioDirection => UnwindEndsTheQueue(FailGpio, usingGpio, usingTimer);
    case FailGpio =>
  }

  // So does every failure path of irq_demo_init, and loading and unloading without GPIO,
  // wherever the schedule has got to.
  lemma ModuleFinishes(failed: bool, point: Label, usingGpio: bool, usingTimer: bool, moves: seq<Move>)
    returns (more: seq<Move>)
    requires if failed then OfGpio(point) ==> usingGpio else !usingGpio
    ensures var script := if failed then FailedInit(point, usingGpio, usingTimer) else Life(false, usingTimer);
      var e := Exec(Exec(Start(script), moves), more);
      e.script == [] && e.queue == Destroyed && Stopped(e) && !e.fault
    ensures forall k :: 0 <= k < |more| ==> Finishing(more[k])
  {
    if failed {
      FailedInitIsWellOrdered(point, usingGpio, usingTimer);
      UnwindEndsTheQueue(point, usingGpio, usingTimer);
      more := TeardownFinishes(FailedInit(point, usingGpio, usingTimer), moves);
    } else {
      LifeIsWellOrdered(usingTimer);
      more := TeardownFinishes(Life(false, usingTimer), moves);
    }
  }
}
