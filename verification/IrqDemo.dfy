// The module of tutorial-05 in place: its counters, times and locks, one method an atomic
// step of its handlers, and the scheduler that interleaves them.
module IrqDemo {
  import opened Int32
  import opened Ledger
  import opened IrqModel
  import opened IrqInvariants

  class Demo {
    var clock: nat
    var irqCount: int
    var bottomHalfCount: int
    var delayedWorkCount: int
    var lastIrqTime: nat
    var lastBhTime: nat
    var statsLock: bool
    var procMutex: bool
    var workPending: bool
    var tasks: seq<Task>
    ghost var log: Log

    ghost function View(): State
      reads this
    {
      var counts := [irqCount, bottomHalfCount, delayedWorkCount];
      assert |counts| == 3;
      State(clock, counts, lastIrqTime, lastBhTime,
            statsLock, procMutex, workPending, tasks, log)
    }

    constructor (now: nat)
      ensures View() == Init(now)
    {
      clock := now;
      irqCount, bottomHalfCount, delayedWorkCount := 0, 0, 0;
      lastIrqTime, lastBhTime := 0, 0;
      statsLock, procMutex, workPending := false, false, false;
      tasks := [Fresh(Bottom)];
      log := Empty;
    }

    method Goto(i: nat, at: Point)
      requires i < |tasks|
      modifies this`tasks
      ensures tasks == old(tasks)[i := old(tasks)[i].(at := at)]
    {
      tasks := tasks[i := tasks[i].(at := at)];
    }

    // The workqueue hands the pending item to the worker.
    method StartWork(i: nat)
      requires i < |tasks| && tasks[i].at == Idle
      modifies this
      ensures View() == AtIdle(old(View()), i)
    {
      if workPending {
        workPending := false;
        Goto(i, Stamp);
      }
    }

    // ktime_get.
    method TakeTime(i: nat)
      requires i < |tasks| && tasks[i].at == Stamp
      modifies this
      ensures View() == AtStamp(old(View()), i)
    {
      tasks := tasks[i := tasks[i].(now := clock)];
      Goto(i, Count);
    }

    // atomic_inc of the handler's counter.
    method BumpCounter(i: nat)
      requires i < |tasks| && tasks[i].at == Count
      modifies this
      ensures View() == AtCount(old(View()), i)
    {
      match tasks[i].kind {
        case Bottom => bottomHalfCount := Wrap(bottomHalfCount + 1);
        case Delayed => delayedWorkCount := Wrap(delayedWorkCount + 1);
        case _ => irqCount := Wrap(irqCount + 1);
      }
      log := Snoc(log, Add(CounterOf(tasks[i].kind)));
      Goto(i, if tasks[i].kind == Delayed then Done else Want);
    }

    method TryStatsLock(i: nat)
      requires i < |tasks| && tasks[i].at == Want
      modifies this
      ensures View() == AtWant(old(View()), i)
    {
      if !statsLock {
        statsLock := true;
        Goto(i, if tasks[i].kind == Show then LoadIrq else Store);
      }
    }

    method StoreTime(i: nat)
      requires i < |tasks| && tasks[i].at == Store
      modifies this
      ensures View() == AtStore(old(View()), i)
    {
      if tasks[i].kind == Bottom {
        lastBhTime := tasks[i].now;
      } else {
        lastIrqTime := tasks[i].now;
      }
      Goto(i, Unlock);
    }

    method LoadIrqTime(i: nat)
      requires i < |tasks| && tasks[i].at == LoadIrq
      modifies this
      ensures View() == AtLoadIrq(old(View()), i)
    {
      tasks := tasks[i := tasks[i].(irqSeen := lastIrqTime)];
      Goto(i, LoadBh);
    }

    method LoadBhTime(i: nat)
      requires i < |tasks| && tasks[i].at == LoadBh
      modifies this
      ensures View() == AtLoadBh(old(View()), i)
    {
      tasks := tasks[i := tasks[i].(bhSeen := lastBhTime, owedThen := Owing(workPending, tasks))];
      Goto(i, Unlock);
    }

    method UnlockStats(i: nat)
      requires i < |tasks| && tasks[i].at == Unlock
      modifies this
      ensures View() == AtUnlock(old(View()), i)
    {
      statsLock := false;
      match tasks[i].kind {
        case Bottom => Goto(i, Idle);
        case Show => Goto(i, UnlockMutex);
        case _ => Goto(i, Queue);
      }
    }

    method QueueWork(i: nat)
      requires i < |tasks| && tasks[i].at == Queue
      modifies this
      ensures View() == AtQueue(old(View()), i)
    {
      if workPending {
        log := Snoc(log, Add(MERGED));
      } else {
        workPending := true;
      }
      Goto(i, Done);
    }

    // One atomic_set of the reset command.
    method ZeroCounter(i: nat, c: nat)
      requires i < |tasks| && tasks[i].at == Zeroing(c)
      modifies this
      ensures View() == AtZeroing(old(View()), i, c)
    {
      if c == IRQ {
        irqCount := 0;
      } else if c == BH {
        bottomHalfCount := 0;
      } else if c == DELAYED {
        delayedWorkCount := 0;
      }
      log := Snoc(log, Zero(c, i));
      Goto(i, if c < DELAYED then Zeroing(c + 1) else Done);
    }

    method TryProcMutex(i: nat)
      requires i < |tasks| && tasks[i].at == WantMutex
      modifies this
      ensures View() == AtWantMutex(old(View()), i)
    {
      if !procMutex {
        procMutex := true;
        Goto(i, Want);
      }
    }

    method UnlockProcMutex(i: nat)
      requires i < |tasks| && tasks[i].at == UnlockMutex
      modifies this
      ensures View() == AtUnlockMutex(old(View()), i)
    {
      procMutex := false;
      Goto(i, Done);
    }

    method Step(m: Move)
      modifies this
      ensures View() == Next(old(View()), m)
    {
      match m {
        case Run(i) =>
          if i < |tasks| {
            match tasks[i].at {
              case Idle => StartWork(i);
              case Stamp => TakeTime(i);
              case Count => BumpCounter(i);
              case Want => TryStatsLock(i);
              case Store => StoreTime(i);
              case LoadIrq => LoadIrqTime(i);
              case LoadBh => LoadBhTime(i);
              case Unlock => UnlockStats(i);
              case Queue => QueueWork(i);
              case Zeroing(c) => ZeroCounter(i, c);
              case WantMutex => TryProcMutex(i);
              case UnlockMutex => UnlockProcMutex(i);
              case Done =>
            }
          }
        case Open(k) =>
          if k != Bottom {
            tasks := tasks + [Fresh(k)];
          }
        case Tick(d) =>
          clock := clock + d;
      }
    }

    // Any schedule, from the initial state or from any state it leads to.
    method Schedule(moves: seq<Move>)
      requires Inv(View())
      modifies this
      ensures View() == Exec(old(View()), moves) && Inv(View())
    {
      for n := 0 to |moves|
        invariant View() == Exec(old(View()), moves[..n]) && Inv(View())
      {
        assert moves[..n + 1][..n] == moves[..n];
        StepInv(View(), moves[n]);
        Step(moves[n]);
      }
      assert moves[..|moves|] == moves;
    }
  }
}
