// Runs of tutorial-04 that show the conditions of its theorems to be needed.
module SyncExamples {
  import opened Int32
  import opened Ledger
  import opened SyncModel
  import opened SyncInvariants
  import opened SyncQuiet

  const FREE := Words(false, false, 1, 0, false)

  // The thread alone, its four cells and its history given, at a point of its loop.
  function Alone(atomic: int, cells: Cells, at: Point, reg: int, log: Log, rounds: nat): State
  {
    State(atomic, cells, FREE, false, [Task(Worker, at, reg, [])], log, rounds)
  }

  // s' follows s by some moves.
  ghost predicate Leads(s: State, s': State) { exists moves: seq<Move> :: Exec(s, moves) == s' }

  lemma LeadsStep(s: State, m: Move)
    ensures Leads(s, Next(s, m))
  {
    assert [m][..0] == [];
    assert Exec(s, [m]) == Next(s, m);
  }

  lemma LeadsOn(s: State, s1: State, s2: State)
    requires Leads(s, s1) && Leads(s1, s2)
    ensures Leads(s, s2)
  {
    var a: seq<Move> :| Exec(s, a) == s1;
    var b: seq<Move> :| Exec(s1, b) == s2;
    ExecAppend(s, a, b);
  }

  lemma LeadsVia(s: State, s1: State, m: Move)
    requires Leads(s, s1)
    ensures Leads(s, Next(s1, m))
  {
    LeadsStep(s1, m);
    LeadsOn(s, s1, Next(s1, m));
  }

  function Loaded(s: State, g: Gate): int { if g == Rw then s.atomic else s.cells[Cell(g)] }

  function Stored(s: State, g: Gate): int { if g == Rw then s.atomic else Wrap(s.cells[Cell(g)] + 1) }

  function EntryOf(g: Gate): Entry { if g == Rw then Copy(ATOMIC, MIRROR) else Add(Counter(g)) }

  // Inside a gate, about to store.
  function Entered(s: State, g: Gate): State
  {
    s.(words := Take(FREE, LockOf(Worker, g)), tasks := [Task(Worker, Write(g), Loaded(s, g), [])],
       log := if g == Rw then Snoc(s.log, EntryOf(g)) else s.log)
  }

  lemma VisitIn(s: State, g: Gate, reg: int)
    requires s == Alone(s.atomic, s.cells, Want(g), reg, s.log, s.rounds)
    ensures Leads(s, Entered(s, g))
  {
    var s1 := s.(words := Take(FREE, LockOf(Worker, g)), tasks := [Task(Worker, Read(g), reg, [])]);
    LeadsStep(s, Run(0));
    assert AtWant(s, 0, g) == s1;
    LeadsVia(s, s1, Run(0));
    assert AtRead(s1, 0, g) == Entered(s, g);
  }

  // One visit to a gate, undisturbed: take, load, store, release.
  lemma Visit(s: State, g: Gate, reg: int)
    requires s == Alone(s.atomic, s.cells, Want(g), reg, s.log, s.rounds)
    ensures Leads(s, Alone(s.atomic, s.cells[Cell(g) := Stored(s, g)], Onward(Worker, g), Loaded(s, g),
                           Snoc(s.log, EntryOf(g)), s.rounds + if g == Rw then 1 else 0))
  {
    VisitIn(s, g, reg);
    var s2 := Entered(s, g);
    LeadsVia(s, s2, Run(0));
    var t := Task(Worker, Leave(g), Loaded(s, g), []);
    var s3 := s2.(cells := s.cells[Cell(g) := Stored(s, g)], tasks := [t], log := Snoc(s.log, EntryOf(g)));
    assert AtWrite(s2, 0, g) == s3;
    LeadsVia(s, s3, Run(0));
    assert s3.tasks[0 := t.(at := Onward(Worker, g))] == [t.(at := Onward(Worker, g))];
    assert Drop(s3.words, LockOf(Worker, g)) == FREE;
  }

  // The histories of n undisturbed rounds, and of the round after them up to a gate.
  function LapLog(n: nat): Log
    decreases n, 0
  {
    if n == 0 then Empty else Snoc(StageLog(n - 1, Rw), Copy(ATOMIC, MIRROR))
  }

  function StageLog(n: nat, g: Gate): Log
    decreases n, Rank(g)
  {
    match g
    case Spin => Snoc(LapLog(n), Add(ATOMIC))
    case Mutex => Snoc(StageLog(n, Spin), Add(1))
    case Sem => Snoc(StageLog(n, Mutex), Add(2))
    case Rw => Snoc(StageLog(n, Sem), Add(3))
  }

  // The thread at its loop condition after n undisturbed rounds.
  function Lapped(n: nat): State
  {
    var v := Wrap(n);
    Alone(v, [v, v, v, v], Head, v, LapLog(n), n)
  }

  // The thread in round n + 1, about to enter a gate.
  function Stage(n: nat, g: Gate): State
  {
    var v, w := Wrap(n), Wrap(n + 1);
    var cells := match g
      case Spin => [v, v, v, v]
      case Mutex => [v, w, v, v]
      case Sem => [v, w, w, v]
      case Rw => [v, w, w, w];
    Alone(w, cells, Want(g), v, StageLog(n, g), n)
  }

  lemma Enter(n: nat)
    ensures Leads(Lapped(n), Stage(n, Spin))
  {
    var s := Lapped(n);
    LeadsStep(s, Run(0));
    var s1 := s.(tasks := [Task(Worker, Atomic, s.atomic, [])]);
    assert AtHead(s, 0) == s1;
    LeadsVia(s, s1, Run(0));
    WrapSuccessor(n);
    assert s1.tasks[0 := Task(Worker, Want(Spin), s.atomic, [])] == [Task(Worker, Want(Spin), s.atomic, [])];
  }

  lemma Pass(n: nat, g: Gate)
    ensures Leads(Stage(n, g), if g == Rw then Lapped(n + 1) else Stage(n, Onward(Worker, g).gate))
  {
    WrapSuccessor(n);
    Visit(Stage(n, g), g, Wrap(n));
    var cells := Stage(n, g).cells;
    assert cells[Cell(g) := Wrap(n + 1)]
        == if g == Rw then Lapped(n + 1).cells else Stage(n, Onward(Worker, g).gate).cells;
  }

  lemma Lap(n: nat)
    ensures Leads(Lapped(n), Lapped(n + 1))
  {
    Enter(n);
    Pass(n, Spin);
    LeadsOn(Lapped(n), Stage(n, Spin), Stage(n, Mutex));
    Pass(n, Mutex);
    LeadsOn(Lapped(n), Stage(n, Mutex), Stage(n, Sem));
    Pass(n, Sem);
    LeadsOn(Lapped(n), Stage(n, Sem), Stage(n, Rw));
    Pass(n, Rw);
    LeadsOn(Lapped(n), Stage(n, Rw), Lapped(n + 1));
  }

  // Any number of rounds can be made.
  lemma {:induction false} Laps(n: nat)
    ensures Leads(Init(), Lapped(n))
  {
    if n == 0 {
      assert Exec(Init(), []) == Lapped(0);
    } else {
      Laps(n - 1);
      Lap(n - 1);
      LeadsOn(Init(), Lapped(n - 1), Lapped(n));
    }
  }

  lemma {:induction false} StageTotal(n: nat, g: Gate)
    ensures Total(StageLog(n, g), ATOMIC) == n + 1
    decreases n, Rank(g)
  {
    match g
    case Spin => if n > 0 { StageTotal(n - 1, Rw); }
    case Mutex => StageTotal(n, Spin);
    case Sem => StageTotal(n, Mutex);
    case Rw => StageTotal(n, Sem);
  }

  // The mirror is ahead while a reset is between its first and its last store: the
  // exception in MirrorNeverAhead happens.
  lemma MirrorAheadDuringReset() returns (s: State)
    ensures Reachable(s) && Total(s.log, ATOMIC) < HALF && s.cells[0] > s.atomic
  {
    Laps(1);
    StageTotal(0, Rw);
    var s0 := Lapped(1);
    LeadsVia(Init(), s0, Open(Reset));
    var s1 := Next(s0, Open(Reset));
    LeadsVia(Init(), s1, Run(1));
    s := Next(s1, Run(1));
    assert s == AtAtomic(s1, 1);
  }

  // And 2^31 is the least number of increments that ends it: with that one the atomic wraps
  // below the mirror, no reset being anywhere.
  lemma MirrorAheadAfterWrap() returns (s: State)
    ensures Reachable(s) && Total(s.log, ATOMIC) == HALF && NoResets(s) && s.cells[0] > s.atomic
  {
    var n := HALF - 1;
    Laps(n);
    StageTotal(n, Spin);
    Enter(n);
    s := Stage(n, Spin);
    LeadsOn(Init(), Lapped(n), s);
  }

  // The thread with one reader beside it.
  function Beside(s: State, at: Point, reg: int, reader: Task): State
  {
    s.(tasks := [Task(Worker, at, reg, []), reader])
  }

  // One step of the thread with the reader beside it.
  lemma ThreadStep(s: State, at: Point, reg: int, reader: Task, s': State, at': Point, reg': int)
    requires Leads(Init(), Beside(s, at, reg, reader)) && TaskOk(Task(Worker, at, reg, []))
    requires var next := RunTask(Beside(s, at, reg, reader), 0);
      next.tasks[0] == Task(Worker, at', reg', []) && next.(tasks := []) == s'.(tasks := [])
    ensures Leads(Init(), Beside(s', at', reg', reader))
  {
    var b := Beside(s, at, reg, reader);
    StepEffect(b, 0);
    assert b.tasks[0 := Task(Worker, at', reg', [])] == [Task(Worker, at', reg', []), reader];
    LeadsVia(Init(), b, Run(0));
  }

  // One step of the reader beside the thread.
  lemma ReaderStep(s: State, at: Point, reg: int, reader: Task, s': State, reader': Task)
    requires Leads(Init(), Beside(s, at, reg, reader)) && reader.kind == Show && TaskOk(reader)
    requires var next := RunTask(Beside(s, at, reg, reader), 1);
      next.tasks[1] == reader' && next.(tasks := []) == s'.(tasks := [])
    ensures Leads(Init(), Beside(s', at, reg, reader'))
  {
    var b := Beside(s, at, reg, reader);
    StepEffect(b, 1);
    assert b.tasks[1 := reader'] == [Task(Worker, at, reg, []), reader'];
    LeadsVia(Init(), b, Run(1));
  }

  lemma EntersBeside(n: nat, reader: Task)
    requires Leads(Init(), Beside(Lapped(n), Head, Wrap(n), reader))
    ensures Leads(Init(), Beside(Stage(n, Spin), Want(Spin), Wrap(n), reader))
  {
    ThreadStep(Lapped(n), Head, Wrap(n), reader, Lapped(n), Atomic, Wrap(n));
    WrapSuccessor(n);
    ThreadStep(Lapped(n), Atomic, Wrap(n), reader, Stage(n, Spin), Want(Spin), Wrap(n));
  }

  // The thread's visit to the spinlock's counter, with a reader beside it.
  lemma BumpsBeside(n: nat, reader: Task)
    requires Leads(Init(), Beside(Stage(n, Spin), Want(Spin), Wrap(n), reader))
    ensures Leads(Init(), Beside(Stage(n, Mutex), Want(Mutex), Wrap(n), reader))
  {
    var v, s1, s4 := Wrap(n), Stage(n, Spin), Stage(n, Mutex);
    var s2 := s1.(words := Take(FREE, SpinLock));
    ThreadStep(s1, Want(Spin), v, reader, s2, Read(Spin), v);
    ThreadStep(s2, Read(Spin), v, reader, s2, Write(Spin), v);
    var s3 := s4.(words := s2.words);
    WrapSuccessor(n);
    ThreadStep(s2, Write(Spin), v, reader, s3, Leave(Spin), v);
    ThreadStep(s3, Leave(Spin), v, reader, s4, Want(Mutex), v);
  }

  // A reader that samples the atomic counter at its greatest value and the next counter when
  // it has turned over prints them 2^32 - 1 apart, in the wrong order.
  lemma PrintedOrderFails() returns (s: State)
    ensures Reachable(s) && NoResets(s) && |s.tasks| == 2
    ensures s.tasks[1].kind == Show && s.tasks[1].seen == [HALF - 1, -HALF]
  {
    var n := HALF - 1;
    Laps(n);
    var s0 := Lapped(n);
    LeadsVia(Init(), s0, Open(Show));
    assert Next(s0, Open(Show)) == Beside(s0, Head, n, Task(Show, Atomic, 0, []));
    var reader := Task(Show, Want(Spin), 0, [n]);
    ReaderStep(s0, Head, n, Task(Show, Atomic, 0, []), s0, reader);
    EntersBeside(n, reader);
    BumpsBeside(n, reader);
    var s1 := Stage(n, Mutex);
    var s2 := s1.(words := Take(FREE, SpinLock));
    ReaderStep(s1, Want(Mutex), n, reader, s2, reader.(at := Read(Spin)));
    ReaderStep(s2, Want(Mutex), n, reader.(at := Read(Spin)), s2, Task(Show, Leave(Spin), 0, [n, -HALF]));
    s := Beside(s2, Want(Mutex), n, Task(Show, Leave(Spin), 0, [n, -HALF]));
  }
}
