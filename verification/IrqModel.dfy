// tutorial-05/irq_demo.c as an interleaving step system: any number of top halves (timer,
// GPIO line, "trigger" writers), the worker that runs the one regular work item, delayed
// work runs, "reset" writers and /proc readers.
module IrqModel {
  import opened Basics
  import opened Int32
  import opened Ledger
  import T = Tally

  datatype Kind = Bottom | Top | Delayed | Reset | Show

  datatype Point =
    | Idle              // the worker waits for the work item to become pending
    | Stamp             // ktime_get
    | Count             // atomic_inc
    | Want              // spin_lock_irqsave of stats_lock
    | Store             // inside: the timestamp store
    | LoadIrq | LoadBh  // inside: a reader's two loads
    | Unlock            // spin_unlock_irqrestore
    | Queue             // queue_work
    | Zeroing(counter: nat)
    | WantMutex | UnlockMutex
    | Done

  // `now` is a task's timestamp; a reader keeps the pair of times it loaded and whether a
  // bottom half was owed when it had loaded both.
  datatype Task = Task(kind: Kind, at: Point, now: nat, irqSeen: nat, bhSeen: nat, owedThen: bool)

  // irq_count, bottom_half_count and delayed_work_count, by ledger number.
  type Counts = c: seq<int> | |c| == 3 witness [0, 0, 0]

  datatype State = State(
    clock: nat,
    counts: Counts,
    lastIrq: nat, lastBh: nat,
    statsLock: bool, procMutex: bool,
    pending: bool,      // the work item's pending bit
    tasks: seq<Task>,   // task 0 is the worker
    log: Log)

  datatype Move = Run(task: nat) | Open(kind: Kind) | Tick(ns: nat)

  const IRQ: nat := 0
  const BH: nat := 1
  const DELAYED: nat := 2
  const MERGED: nat := 3   // queue_work calls that found the item pending

  function Start(k: Kind): Point
  {
    match k
    case Bottom => Idle
    case Top => Stamp
    case Delayed => Count
    case Reset => Zeroing(IRQ)
    case Show => WantMutex
  }

  function Fresh(k: Kind): Task { Task(k, Start(k), 0, 0, 0, false) }

  // The pending bit is cleared before the handler's body runs.
  function AtIdle(s: State, i: nat): State
    requires i < |s.tasks|
  {
    if s.pending then s.(pending := false, tasks := s.tasks[i := s.tasks[i].(at := Stamp)]) else s
  }

  function AtStamp(s: State, i: nat): State
    requires i < |s.tasks|
  {
    s.(tasks := s.tasks[i := s.tasks[i].(at := Count, now := s.clock)])
  }

  // The counter that a handler bumps.
  function CounterOf(k: Kind): nat { match k case Bottom => BH case Delayed => DELAYED case _ => IRQ }

  function AtCount(s: State, i: nat): State
    requires i < |s.tasks|
  {
    var t := s.tasks[i];
    var c := CounterOf(t.kind);
    s.(counts := s.counts[c := Wrap(s.counts[c] + 1)],
       tasks := s.tasks[i := t.(at := if t.kind == Delayed then Done else Want)],
       log := Snoc(s.log, Add(c)))
  }

  function AtWant(s: State, i: nat): State
    requires i < |s.tasks|
  {
    var t := s.tasks[i];
    if s.statsLock then s
    else s.(statsLock := true, tasks := s.tasks[i := t.(at := if t.kind == Show then LoadIrq else Store)])
  }

  function AtStore(s: State, i: nat): State
    requires i < |s.tasks|
  {
    var t := s.tasks[i];
    var tasks := s.tasks[i := t.(at := Unlock)];
    if t.kind == Bottom then s.(lastBh := t.now, tasks := tasks) else s.(lastIrq := t.now, tasks := tasks)
  }

  function AtLoadIrq(s: State, i: nat): State
    requires i < |s.tasks|
  {
    s.(tasks := s.tasks[i := s.tasks[i].(at := LoadBh, irqSeen := s.lastIrq)])
  }

  function AtLoadBh(s: State, i: nat): State
    requires i < |s.tasks|
  {
    s.(tasks := s.tasks[i := s.tasks[i].(at := Unlock, bhSeen := s.lastBh, owedThen := Owed(s))])
  }

  function AtUnlock(s: State, i: nat): State
    requires i < |s.tasks|
  {
    var t := s.tasks[i];
    var next := match t.kind case Bottom => Idle case Show => UnlockMutex case _ => Queue;
    s.(statsLock := false, tasks := s.tasks[i := t.(at := next)])
  }

  // queue_work: a pending item is not queued again.
  function AtQueue(s: State, i: nat): State
    requires i < |s.tasks|
  {
    var tasks := s.tasks[i := s.tasks[i].(at := Done)];
    if s.pending then s.(tasks := tasks, log := Snoc(s.log, Add(MERGED)))
    else s.(pending := true, tasks := tasks)
  }

  function AtZeroing(s: State, i: nat, c: nat): State
    requires i < |s.tasks|
  {
    s.(counts := if c <= DELAYED then s.counts[c := 0] else s.counts,
       tasks := s.tasks[i := s.tasks[i].(at := if c < DELAYED then Zeroing(c + 1) else Done)],
       log := Snoc(s.log, Zero(c, i)))
  }

  function AtWantMutex(s: State, i: nat): State
    requires i < |s.tasks|
  {
    if s.procMutex then s else s.(procMutex := true, tasks := s.tasks[i := s.tasks[i].(at := Want)])
  }

  function AtUnlockMutex(s: State, i: nat): State
    requires i < |s.tasks|
  {
    s.(procMutex := false, tasks := s.tasks[i := s.tasks[i].(at := Done)])
  }

  function RunTask(s: State, i: nat): (s': State)
    requires i < |s.tasks|
    ensures |s'.tasks| == |s.tasks|
  {
    match s.tasks[i].at
    case Idle => AtIdle(s, i)
    case Stamp => AtStamp(s, i)
    case Count => AtCount(s, i)
    case Want => AtWant(s, i)
    case Store => AtStore(s, i)
    case LoadIrq => AtLoadIrq(s, i)
    case LoadBh => AtLoadBh(s, i)
    case Unlock => AtUnlock(s, i)
    case Queue => AtQueue(s, i)
    case Zeroing(c) => AtZeroing(s, i, c)
    case WantMutex => AtWantMutex(s, i)
    case UnlockMutex => AtUnlockMutex(s, i)
    case Done => s
  }

  // One atomic step; a move that cannot be made changes nothing. There is one worker, so
  // the work item never runs concurrently with itself, and the clock never goes back.
  function Next(s: State, m: Move): (s': State)
    ensures |s'.tasks| >= |s.tasks|
  {
    match m
    case Run(i) => if i < |s.tasks| then RunTask(s, i) else s
    case Open(k) => if k == Bottom then s else s.(tasks := s.tasks + [Fresh(k)])
    case Tick(d) => s.(clock := s.clock + d)
  }

  function Exec(s: State, moves: seq<Move>): (s': State)
    ensures |s'.tasks| >= |s.tasks|
  {
    if moves == [] then s else Next(Exec(s, moves[..|moves| - 1]), moves[|moves| - 1])
  }

  function Init(clock: nat): State
  {
    State(clock, [0, 0, 0], 0, 0, false, false, false, [Fresh(Bottom)], Empty)
  }

  // A top half that has stored its time and not yet queued the bottom half.
  predicate Announcing(t: Task) { t.kind == Top && (t.at.Unlock? || t.at.Queue?) }

  // The worker has taken the item and not yet stored its time.
  predicate Serving(t: Task) { t.kind == Bottom && (t.at.Stamp? || t.at.Count? || t.at.Want? || t.at.Store?) }

  // A bottom half is still to come.
  predicate Owing(pending: bool, tasks: seq<Task>)
  {
    pending || exists i :: 0 <= i < |tasks| && (Announcing(tasks[i]) || Serving(tasks[i]))
  }

  predicate Owed(s: State) { Owing(s.pending, s.tasks) }

  // A top half that is counted and has not reached its queue_work; or the worker, when it
  // has taken the item and not yet counted it.
  predicate Owes(t: Task)
  {
    || (t.kind == Top && (t.at.Want? || t.at.Store? || t.at.Unlock? || t.at.Queue?))
    || (t.kind == Bottom && (t.at.Stamp? || t.at.Count?))
  }

  function IsOwing(): Task -> bool { t => Owes(t) }

  // The bottom-half counts still to come of the interrupts counted so far: the pending
  // item, the item taken and not counted, the top halves yet to queue.
  function Outstanding(s: State): nat
  {
    Bit(s.pending) + T.Tally(s.tasks, IsOwing())
  }

  // What irq_proc_show prints as the latency, when it prints one.
  datatype Printed = Nothing | Latency(ns: int)

  function Report(t: Task): Printed
  {
    if t.bhSeen != 0 && t.irqSeen != 0 then Latency(t.bhSeen - t.irqSeen) else Nothing
  }

  // The number of counters a reset has zeroed.
  function Zeroed(t: Task): nat
  {
    if t.kind != Reset then 0 else if t.at.Zeroing? then t.at.counter else 3
  }
}
