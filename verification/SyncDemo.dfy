// The module of tutorial-04 in place: its variables, one method an atomic step of its
// functions, and the scheduler that interleaves them. Every method is proved against the
// step system, so what the theorems say of reachable states holds of these variables.
module SyncDemo {
  import opened Int32
  import opened Ledger
  import opened SyncModel
  import opened SyncInvariants

  class Demo {
    var atomicCounter: int
    const counterValues: array<int>
    var spinLocked: bool
    var mutexLocked: bool
    var semCount: int
    var rwReaders: int
    var rwWriter: bool
    var shouldStop: bool
    var tasks: seq<Task>
    ghost var log: Log
    ghost var rounds: nat

    ghost predicate Valid()
      reads this
    {
      counterValues.Length == 4
    }

    ghost function View(): State
      requires Valid()
      reads this, counterValues
    {
      State(atomicCounter, counterValues[..], Words(spinLocked, mutexLocked, semCount, rwReaders, rwWriter),
            shouldStop, tasks, log, rounds)
    }

    // sync_demo_init, up to the running thread.
    constructor ()
      ensures Valid() && fresh(counterValues) && View() == Init()
    {
      atomicCounter := 0;
      counterValues := new int[4](_ => 0);
      spinLocked, mutexLocked, semCount := false, false, 1;
      rwReaders, rwWriter := 0, false;
      shouldStop := false;
      tasks := [Task(Worker, Head, 0, [])];
      log, rounds := Empty, 0;
      new;
      assert counterValues[..] == [0, 0, 0, 0];
    }

    method Goto(i: nat, at: Point)
      requires Valid() && i < |tasks|
      modifies this`tasks
      ensures tasks == old(tasks)[i := old(tasks)[i].(at := at)]
    {
      tasks := tasks[i := tasks[i].(at := at)];
    }

    // The thread's loop condition.
    method CheckStop(i: nat)
      requires Valid() && i < |tasks| && tasks[i].at == Head
      modifies this
      ensures View() == AtHead(old(View()), i)
    {
      if shouldStop {
        Goto(i, Finished);
      } else {
        Goto(i, Atomic);
      }
    }

    // atomic_inc, atomic_set or atomic_read of atomic_counter.
    method AccessAtomic(i: nat)
      requires Valid() && i < |tasks| && tasks[i].at == Atomic
      modifies this
      ensures View() == AtAtomic(old(View()), i)
    {
      match tasks[i].kind {
        case Worker =>
          atomicCounter := Wrap(atomicCounter + 1);
          log := Snoc(log, Add(ATOMIC));
        case Reset =>
          atomicCounter := 0;
          log := Snoc(log, Zero(ATOMIC, i));
        case Show =>
          tasks := tasks[i := tasks[i].(seen := tasks[i].seen + [atomicCounter])];
      }
      Goto(i, Want(Spin));
    }

    // One attempt to take the gate's lock; whoever finds it taken stays where it is.
    method TryLock(i: nat, g: Gate)
      requires Valid() && i < |tasks| && tasks[i].at == Want(g)
      modifies this
      ensures View() == AtWant(old(View()), i, g)
    {
      var free := false;
      match LockOf(tasks[i].kind, g) {
        case SpinLock =>
          free := !spinLocked;
          spinLocked := true;
        case MutexLock =>
          free := !mutexLocked;
          mutexLocked := true;
        case SemUnit =>
          free := semCount > 0;
          semCount := if free then semCount - 1 else semCount;
        case RwWrite =>
          free := !rwWriter && rwReaders == 0;
          rwWriter := rwWriter || free;
        case RwRead =>
          free := !rwWriter;
          rwReaders := if free then rwReaders + 1 else rwReaders;
      }
      if free {
        Goto(i, Inside(tasks[i].kind, g));
      }
    }

    // The load inside a section.
    method Load(i: nat, g: Gate)
      requires Valid() && i < |tasks| && tasks[i].at == Read(g)
      modifies this
      ensures View() == AtRead(old(View()), i, g)
    {
      var t := tasks[i];
      var v := counterValues[Cell(g)];
      if t.kind == Show {
        tasks := tasks[i := t.(seen := t.seen + [v])];
        Goto(i, Leave(g));
      } else if g == Rw {
        tasks := tasks[i := t.(reg := atomicCounter)];
        Goto(i, Write(g));
        log := Snoc(log, Copy(ATOMIC, MIRROR));
      } else {
        tasks := tasks[i := t.(reg := v)];
        Goto(i, Write(g));
      }
    }

    // The store inside a section.
    method Store(i: nat, g: Gate)
      requires Valid() && i < |tasks| && tasks[i].at == Write(g)
      modifies this, counterValues
      ensures View() == AtWrite(old(View()), i, g)
    {
      var t := tasks[i];
      if t.kind == Reset {
        counterValues[Cell(g)] := 0;
        log := Snoc(log, Zero(Counter(g), i));
      } else if g == Rw {
        counterValues[Cell(g)] := t.reg;
      } else {
        counterValues[Cell(g)] := Wrap(t.reg + 1);
        log := Snoc(log, Add(Counter(g)));
      }
      Goto(i, Leave(g));
    }

    method Unlock(i: nat, g: Gate)
      requires Valid() && i < |tasks| && tasks[i].at == Leave(g)
      modifies this
      ensures View() == AtLeave(old(View()), i, g)
    {
      match LockOf(tasks[i].kind, g) {
        case SpinLock => spinLocked := false;
        case MutexLock => mutexLocked := false;
        case SemUnit => semCount := semCount + 1;
        case RwWrite => rwWriter := false;
        case RwRead => rwReaders := rwReaders - 1;
      }
      if tasks[i].kind == Worker && g == Rw {
        rounds := rounds + 1;
      }
      Goto(i, Onward(tasks[i].kind, g));
    }

    method Step(m: Move)
      requires Valid()
      modifies this, counterValues
      ensures View() == Next(old(View()), m)
    {
      match m {
        case Run(i) =>
          if i < |tasks| {
            match tasks[i].at {
              case Head => CheckStop(i);
              case Atomic => AccessAtomic(i);
              case Want(g) => TryLock(i, g);
              case Read(g) => Load(i, g);
              case Write(g) => Store(i, g);
              case Leave(g) => Unlock(i, g);
              case Finished =>
            }
          }
        case Open(k) =>
          if k != Worker {
            tasks := tasks + [Task(k, Atomic, 0, [])];
          }
        case RequestStop =>
          shouldStop := true;
      }
    }

    // Any schedule, from the initial state or from any state it leads to.
    method Schedule(moves: seq<Move>)
      requires Valid() && Inv(View())
      modifies this, counterValues
      ensures View() == Exec(old(View()), moves) && Inv(View())
    {
      for n := 0 to |moves|
        invariant View() == Exec(old(View()), moves[..n]) && Inv(View())
      {
        assert moves[..n + 1][..n] == moves[..n];
        StepInv(View(), moves[n]);
        Step(moves[n]);
      }
      assert moves[..|moves|] == moves;
    }
  }
}
