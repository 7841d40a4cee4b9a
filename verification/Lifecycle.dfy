// Loading and unloading tutorial-05 in place: the state of its sources of work, changed
// step by step by its own calls and by the environment.
module Lifecycle {
  import opened LifecycleModel
  import opened LifecycleTheorems

  class Module {
    var script: seq<Op>
    var queue: Workqueue
    var line: bool
    var topHalves: nat
    var timer: Timer
    var workPending: bool
    var workRunning: bool
    var delayArmed: bool
    var delayPending: bool
    var delayBody: Body
    var chain: Chain
    var fault: bool

    ghost function View(): State
      reads this
    {
      State(script, queue, line, topHalves, timer, workPending, workRunning,
            delayArmed, delayPending, delayBody, chain, fault)
    }

    constructor (calls: seq<Op>)
      ensures View() == Start(calls)
    {
      script, queue, line, topHalves, timer := calls, Absent, false, 0, Off;
      workPending, workRunning := false, false;
      delayArmed, delayPending, delayBody := false, false, Out;
      chain, fault := Unborn, false;
    }

    method QueueRegularWork()
      modifies this
      ensures View() == QueueWork(old(View()))
    {
      if queue == Alive {
        workPending := true;
      } else {
        fault := true;
      }
    }

    method QueueDelayedWork()
      modifies this
      ensures View() == QueueDelay(old(View()))
    {
      if !delayArmed && !delayPending && chain != Cancelling {
        delayArmed := true;
        fault := fault || queue != Alive;
      }
    }

    method CreateQueue()
      requires script != [] && script[0] == CreateWorkqueue
      modifies this
      ensures View() == Call(old(View()))
    {
      queue := Alive;
      script := script[1..];
    }

    method StartChain()
      requires script != [] && script[0] == QueueDelayed
      modifies this
      ensures View() == Call(old(View()))
    {
      QueueDelayedWork();
      chain := Live;
      script := script[1..];
    }

    method StartTimer()
      requires script != [] && script[0] == Op.StartTimer
      modifies this
      ensures View() == Call(old(View()))
    {
      timer := Timer.Armed;
      script := script[1..];
    }

    method RequestLine()
      requires script != [] && script[0] == RequestIrq
      modifies this
      ensures View() == Call(old(View()))
    {
      line := true;
      script := script[1..];
    }

    method FreeLine()
      requires script != [] && script[0] == FreeIrq
      modifies this
      ensures View() == Call(old(View()))
    {
      if topHalves == 0 {
        line := false;
        script := script[1..];
      }
    }

    method StopTimer()
      requires script != [] && script[0] == CancelTimer
      modifies this
      ensures View() == Call(old(View()))
    {
      if timer != Firing && timer != Fired {
        timer := Off;
        script := script[1..];
      }
    }

    method CancelChain()
      requires script != [] && script[0] == CancelDelayedSync
      modifies this
      ensures View() == Call(old(View()))
    {
      if chain == Live {
        chain := Cancelling;
        delayArmed, delayPending := false, false;
      } else if chain != Cancelling {
        script := script[1..];
      } else if delayBody == Out {
        chain := Dead;
        script := script[1..];
      }
    }

    method FlushQueue()
      requires script != [] && script[0] == Flush
      modifies this
      ensures View() == Call(old(View()))
    {
      if !workPending && !workRunning && !delayPending && delayBody == Out {
        script := script[1..];
      }
    }

    method DestroyQueue()
      requires script != [] && script[0] == DestroyWorkqueue
      modifies this
      ensures View() == Call(old(View()))
    {
      queue := Destroyed;
      fault := fault || workPending || workRunning || delayArmed || delayPending || delayBody != Out;
      script := script[1..];
    }

    method MainStep()
      requires script != []
      modifies this
      ensures View() == Call(old(View()))
    {
      match script[0] {
        case CreateWorkqueue => CreateQueue();
        case QueueDelayed => StartChain();
        case StartTimer => StartTimer();
        case RequestIrq => RequestLine();
        case FreeIrq => FreeLine();
        case CancelTimer => StopTimer();
        case CancelDelayedSync => CancelChain();
        case Flush => FlushQueue();
        case DestroyWorkqueue => DestroyQueue();
      }
    }

    method StepTimer(m: Move)
      requires m.TimerFires? || m.TimerQueues? || m.TimerReturns?
      modifies this
      ensures View() == Next(old(View()), m)
    {
      if m.TimerFires? && timer == Timer.Armed {
        timer := Firing;
      } else if m.TimerQueues? && timer == Firing {
        timer := Fired;
        QueueRegularWork();
      } else if m.TimerReturns? && timer == Fired {
        timer := Timer.Armed;
      }
    }

    method StepLine(m: Move)
      requires m.LineFires? || m.LineQueues?
      modifies this
      ensures View() == Next(old(View()), m)
    {
      if m.LineFires? && line {
        topHalves := topHalves + 1;
      } else if m.LineQueues? && topHalves > 0 {
        topHalves := topHalves - 1;
        QueueRegularWork();
      }
    }

    method StepWork(m: Move)
      requires m.WorkStarts? || m.WorkEnds?
      modifies this
      ensures View() == Next(old(View()), m)
    {
      if m.WorkEnds? {
        workRunning := false;
      } else if workPending && !workRunning {
        workPending, workRunning := false, true;
      }
    }

    method StepDelay(m: Move)
      requires m.DelayExpires? || m.DelayStarts? || m.DelayRequeues? || m.DelayReturns?
      modifies this
      ensures View() == Next(old(View()), m)
    {
      if m.DelayExpires? && delayArmed {
        delayArmed, delayPending := false, true;
        fault := fault || queue != Alive;
      } else if m.DelayStarts? && delayPending && delayBody == Out {
        delayPending, delayBody := false, Before;
      } else if m.DelayRequeues? && delayBody == Before {
        delayBody := After;
        QueueDelayedWork();
      } else if m.DelayReturns? && delayBody == After {
        delayBody := Out;
      }
    }

    method Step(m: Move)
      modifies this
      ensures View() == Next(old(View()), m)
    {
      if m.Main? {
        if script != [] {
          MainStep();
        }
      } else if m.TimerFires? || m.TimerQueues? || m.TimerReturns? {
        StepTimer(m);
      } else if m.LineFires? || m.LineQueues? {
        StepLine(m);
      } else if m.WorkStarts? || m.WorkEnds? {
        StepWork(m);
      } else {
        StepDelay(m);
      }
    }

    // Any schedule.
    method Schedule(moves: seq<Move>)
      modifies this
      ensures View() == Exec(old(View()), moves)
    {
      for n := 0 to |moves|
        invariant View() == Exec(old(View()), moves[..n])
      {
        assert moves[..n + 1][..n] == moves[..n];
        Step(moves[n]);
      }
      assert moves[..|moves|] == moves;
    }
  }

  // A module that makes well-ordered calls, under any schedule: no work is ever queued
  // without a live queue, and once the queue is destroyed no source is left.
  method LiveAndDie(calls: seq<Op>, moves: seq<Move>) returns (m: Module)
    requires WellOrdered(calls, NOTHING)
    ensures fresh(m) && !m.fault && (m.queue == Destroyed ==> Stopped(m.View()))
  {
    m := new Module(calls);
    m.Schedule(moves);
    WellOrderedIsSafe(calls, moves);
  }
}
