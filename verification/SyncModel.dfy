// tutorial-04/sync_demo.c as an interleaving step system: one background thread, any number
// of "reset" writers and any number of /proc readers over five counters and four locks.
module SyncModel {
  import opened Int32
  import opened Ledger
  import T = Tally

  // The lock-protected sections, in the order in which all three programs visit them.
  datatype Gate = Spin | Mutex | Sem | Rw

  // What a task can hold: the read-write semaphore has two modes.
  datatype Lock = SpinLock | MutexLock | SemUnit | RwWrite | RwRead

  datatype Kind = Worker | Reset | Show

  datatype Point =
    | Head               // the thread's loop condition
    | Atomic             // the access to atomic_counter
    | Want(gate: Gate)   // about to take the lock
    | Read(gate: Gate)   // inside: about to load
    | Write(gate: Gate)  // inside: about to store
    | Leave(gate: Gate)  // inside: about to release
    | Finished

  // `reg` is the register between a load and a store; `seen` is what a reader has sampled.
  datatype Task = Task(kind: Kind, at: Point, reg: int, seen: seq<int>)

  type Cells = c: seq<int> | |c| == 4 witness [0, 0, 0, 0]

  // The lock words as the kernel keeps them, without owners.
  datatype Words = Words(spin: bool, mutex: bool, sem: int, readers: int, writer: bool)

  // The module's variables, its tasks, and two records that no code reads: the reference
  // history and the number of completed rounds of the thread's loop.
  datatype State = State(
    atomic: int,
    cells: Cells,
    words: Words,
    stop: bool,
    tasks: seq<Task>,
    log: Log,
    rounds: nat)

  // What the scheduler may do next.
  datatype Move = Run(task: nat) | Open(kind: Kind) | RequestStop

  const ATOMIC: nat := 0
  const MIRROR: nat := 4

  function Counter(g: Gate): nat { match g case Spin => 1 case Mutex => 2 case Sem => 3 case Rw => MIRROR }

  // The index in counter_values of the cell a gate protects.
  function Cell(g: Gate): nat { match g case Spin => 1 case Mutex => 2 case Sem => 3 case Rw => 0 }

  function LockOf(k: Kind, g: Gate): Lock
  {
    match g
    case Spin => SpinLock
    case Mutex => MutexLock
    case Sem => SemUnit
    case Rw => if k == Show then RwRead else RwWrite
  }

  predicate CanTake(w: Words, l: Lock)
  {
    match l
    case SpinLock => !w.spin
    case MutexLock => !w.mutex
    case SemUnit => w.sem > 0
    case RwWrite => !w.writer && w.readers == 0
    case RwRead => !w.writer
  }

  function Take(w: Words, l: Lock): Words
  {
    match l
    case SpinLock => w.(spin := true)
    case MutexLock => w.(mutex := true)
    case SemUnit => w.(sem := w.sem - 1)
    case RwWrite => w.(writer := true)
    case RwRead => w.(readers := w.readers + 1)
  }

  function Drop(w: Words, l: Lock): Words
  {
    match l
    case SpinLock => w.(spin := false)
    case MutexLock => w.(mutex := false)
    case SemUnit => w.(sem := w.sem + 1)
    case RwWrite => w.(writer := false)
    case RwRead => w.(readers := w.readers - 1)
  }

  // Where each program goes from the access to atomic_counter on.
  function Inside(k: Kind, g: Gate): Point { if k == Reset then Write(g) else Read(g) }

  function Onward(k: Kind, g: Gate): Point
  {
    match g
    case Spin => Want(Mutex)
    case Mutex => Want(Sem)
    case Sem => Want(Rw)
    case Rw => if k == Worker then Head else Finished
  }

  function AtHead(s: State, i: nat): State
    requires i < |s.tasks|
  {
    s.(tasks := s.tasks[i := s.tasks[i].(at := if s.stop then Finished else Atomic)])
  }

  function AtAtomic(s: State, i: nat): State
    requires i < |s.tasks|
  {
    var t := s.tasks[i].(at := Want(Spin));
    match t.kind
    case Worker => s.(atomic := Wrap(s.atomic + 1), tasks := s.tasks[i := t], log := Snoc(s.log, Add(ATOMIC)))
    case Reset => s.(atomic := 0, tasks := s.tasks[i := t], log := Snoc(s.log, Zero(ATOMIC, i)))
    case Show => s.(tasks := s.tasks[i := t.(seen := t.seen + [s.atomic])])
  }

  function AtWant(s: State, i: nat, g: Gate): State
    requires i < |s.tasks|
  {
    var t := s.tasks[i];
    var l := LockOf(t.kind, g);
    if CanTake(s.words, l) then
      s.(words := Take(s.words, l), tasks := s.tasks[i := t.(at := Inside(t.kind, g))])
    else
      s
  }

  // The thread's load before `++` (or of the atomic, for the mirror); a reader's sample.
  function AtRead(s: State, i: nat, g: Gate): State
    requires i < |s.tasks|
  {
    var t := s.tasks[i];
    if t.kind == Show then
      s.(tasks := s.tasks[i := t.(at := Leave(g), seen := t.seen + [s.cells[Cell(g)]])])
    else if g == Rw then
      s.(tasks := s.tasks[i := t.(at := Write(g), reg := s.atomic)], log := Snoc(s.log, Copy(ATOMIC, MIRROR)))
    else
      s.(tasks := s.tasks[i := t.(at := Write(g), reg := s.cells[Cell(g)])])
  }

  function AtWrite(s: State, i: nat, g: Gate): State
    requires i < |s.tasks|
  {
    var t := s.tasks[i];
    var tasks := s.tasks[i := t.(at := Leave(g))];
    if t.kind == Reset then
      s.(cells := s.cells[Cell(g) := 0], tasks := tasks, log := Snoc(s.log, Zero(Counter(g), i)))
    else if g == Rw then
      s.(cells := s.cells[Cell(g) := t.reg], tasks := tasks)
    else
      s.(cells := s.cells[Cell(g) := Wrap(t.reg + 1)], tasks := tasks, log := Snoc(s.log, Add(Counter(g))))
  }

  function AtLeave(s: State, i: nat, g: Gate): State
    requires i < |s.tasks|
  {
    var t := s.tasks[i];
    s.(words := Drop(s.words, LockOf(t.kind, g)),
       tasks := s.tasks[i := t.(at := Onward(t.kind, g))],
       rounds := s.rounds + if t.kind == Worker && g == Rw then 1 else 0)
  }

  function RunTask(s: State, i: nat): (s': State)
    requires i < |s.tasks|
    ensures |s'.tasks| == |s.tasks|
  {
    match s.tasks[i].at
    case Head => AtHead(s, i)
    case Atomic => AtAtomic(s, i)
    case Want(g) => AtWant(s, i, g)
    case Read(g) => AtRead(s, i, g)
    case Write(g) => AtWrite(s, i, g)
    case Leave(g) => AtLeave(s, i, g)
    case Finished => s
  }

  // One atomic step. A move that cannot be made leaves the state as it is, so every
  // sequence of moves is a run. There is one thread: only writers and readers are opened.
  function Next(s: State, m: Move): (s': State)
    ensures |s'.tasks| >= |s.tasks|
  {
    match m
    case Run(i) => if i < |s.tasks| then RunTask(s, i) else s
    case Open(k) => if k == Worker then s else s.(tasks := s.tasks + [Task(k, Atomic, 0, [])])
    case RequestStop => s.(stop := true)
  }

  function Exec(s: State, moves: seq<Move>): (s': State)
    ensures |s'.tasks| >= |s.tasks|
  {
    if moves == [] then s else Next(Exec(s, moves[..|moves| - 1]), moves[|moves| - 1])
  }

  // The state sync_demo_init leaves behind once the thread runs.
  function Init(): State
  {
    State(0, [0, 0, 0, 0], Words(false, false, 1, 0, false), false, [Task(Worker, Head, 0, [])], Empty, 0)
  }

  // The lock a task is inside, if any.
  predicate Holds(t: Task, l: Lock)
  {
    (t.at.Read? || t.at.Write? || t.at.Leave?) && LockOf(t.kind, t.at.gate) == l
  }

  function HoldsLock(l: Lock): Task -> bool { t => Holds(t, l) }

  function Holders(s: State, l: Lock): nat { T.Tally(s.tasks, HoldsLock(l)) }

  // A task can make progress: its next move changes its point.
  predicate CanStep(s: State, i: nat)
    requires i < |s.tasks|
  {
    RunTask(s, i).tasks[i].at != s.tasks[i].at
  }

  // The place of a point in the programs' common order of visits.
  function Rank(g: Gate): nat { match g case Spin => 1 case Mutex => 2 case Sem => 3 case Rw => 4 }

  // The number of counters, in ledger order, that a task's program has written (thread,
  // reset) or sampled (reader) since it passed the top of its program.
  function Written(t: Task): nat
  {
    match t.at
    case Head => 0
    case Atomic => 0
    case Want(g) => Rank(g)
    case Read(g) => Rank(g)
    case Write(g) => Rank(g)
    case Leave(g) => Rank(g) + 1
    case Finished => if t.kind == Worker then 0 else 5
  }

  // A reset between its atomic_set and its write-locked store of zero.
  predicate InFlight(t: Task) { t.kind == Reset && 0 < Written(t) < 5 }

  predicate ResetInFlight(s: State) { exists i :: 0 <= i < |s.tasks| && InFlight(s.tasks[i]) }

  predicate NoResets(s: State) { forall i :: 0 <= i < |s.tasks| ==> s.tasks[i].kind != Reset }

  // The concrete memory holding a ledger counter.
  function Memory(s: State, c: nat): int
    requires c <= MIRROR
  {
    if c == 0 then s.atomic else if c == MIRROR then s.cells[0] else s.cells[c]
  }

  // How many increments of a counter the thread has completed.
  function Done(s: State, c: nat): nat
    requires |s.tasks| > 0
  {
    s.rounds + if c < Written(s.tasks[0]) then 1 else 0
  }
}
