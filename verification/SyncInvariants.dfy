// What every step of the counter protocol keeps.
module SyncInvariants {
  import opened Int32
  import opened Ledger
  import opened SyncModel
  import T = Tally

  // One thread, and every entry only at points of its own program.
  ghost predicate TaskOk(t: Task)
  {
    && (t.at.Head? ==> t.kind == Worker)
    && (t.at.Read? ==> t.kind != Reset)
    && (t.at.Write? ==> t.kind != Show)
    && (t.kind == Show ==> |t.seen| == Written(t))
  }

  ghost predicate Shape(s: State)
  {
    && |s.tasks| > 0
    && (forall i :: 0 <= i < |s.tasks| ==> TaskOk(s.tasks[i]) && (s.tasks[i].kind == Worker <==> i == 0))
  }

  // What one step of task i does to its own table entry, to the history and to the round
  // count: the programs write (or sample) the counters one by one in ledger order.
  ghost predicate Effect(s: State, i: nat, s': State)
    requires i < |s.tasks|
  {
    var t := s.tasks[i];
    && |s'.tasks| == |s.tasks|
    && var t' := s'.tasks[i];
    && s'.tasks == s.tasks[i := t']
    && t'.kind == t.kind
    && TaskOk(t')
    && match t.kind
       case Reset =>
         && s'.rounds == s.rounds
         && if Written(t') == Written(t) then s'.log == s.log
            else Written(t') == Written(t) + 1 <= 5 && s'.log == Snoc(s.log, Zero(Written(t), i))
       case Show => s'.log == s.log && s'.rounds == s.rounds
       case Worker =>
         if t.at == Read(Rw) then
           s'.rounds == s.rounds && Written(t') == Written(t) == 4 && s'.log == Snoc(s.log, Copy(ATOMIC, MIRROR))
         else if t.at == Leave(Rw) then
           s'.rounds == s.rounds + 1 && Written(t') == 0 && Written(t) == 5 && s'.log == s.log
         else if Written(t') == Written(t) then s'.rounds == s.rounds && s'.log == s.log
         else
           && s'.rounds == s.rounds
           && Written(t') == Written(t) + 1
           && if Written(t) < MIRROR then s'.log == Snoc(s.log, Add(Written(t))) else s'.log == s.log
  }

  lemma StepEffect(s: State, i: nat)
    requires i < |s.tasks| && TaskOk(s.tasks[i])
    ensures Effect(s, i, RunTask(s, i))
  {
    match s.tasks[i].at
    case Head =>
    case Atomic =>
    case Want(g) => EffectWant(s, i, g);
    case Read(g) => EffectRead(s, i, g);
    case Write(g) => EffectWrite(s, i, g);
    case Leave(g) => EffectLeave(s, i, g);
    case Finished =>
  }

  lemma EffectWant(s: State, i: nat, g: Gate)
    requires i < |s.tasks| && s.tasks[i].at == Want(g) && TaskOk(s.tasks[i])
    ensures Effect(s, i, AtWant(s, i, g))
  {
  }

  lemma EffectRead(s: State, i: nat, g: Gate)
    requires i < |s.tasks| && s.tasks[i].at == Read(g) && TaskOk(s.tasks[i])
    ensures Effect(s, i, AtRead(s, i, g))
  {
  }

  lemma EffectWrite(s: State, i: nat, g: Gate)
    requires i < |s.tasks| && s.tasks[i].at == Write(g) && TaskOk(s.tasks[i])
    ensures Effect(s, i, AtWrite(s, i, g))
  {
  }

  lemma EffectLeave(s: State, i: nat, g: Gate)
    requires i < |s.tasks| && s.tasks[i].at == Leave(g) && TaskOk(s.tasks[i])
    ensures Effect(s, i, AtLeave(s, i, g))
  {
  }

  // How many tasks the lock word says are inside.
  function Taken(w: Words, l: Lock): int
  {
    match l
    case SpinLock => if w.spin then 1 else 0
    case MutexLock => if w.mutex then 1 else 0
    case SemUnit => 1 - w.sem
    case RwWrite => if w.writer then 1 else 0
    case RwRead => w.readers
  }

  // The lock words count who is inside, and a writer keeps readers out.
  ghost predicate Locks(s: State)
  {
    && (forall l: Lock :: Holders(s, l) == Taken(s.words, l))
    && s.words.sem >= 0
    && (s.words.writer ==> s.words.readers == 0)
  }

  // A step moves the lock words exactly as somebody enters or leaves the sections, and
  // nobody enters unless the word allows it.
  lemma LocksWant(s: State, i: nat, g: Gate)
    requires Locks(s) && i < |s.tasks| && s.tasks[i].at == Want(g) && TaskOk(s.tasks[i])
    ensures Locks(AtWant(s, i, g))
  {
    var s' := AtWant(s, i, g);
    forall l: Lock ensures Holders(s', l) == Taken(s'.words, l) {
      assert Holders(s, l) == Taken(s.words, l);
      T.Update(s.tasks, i, s'.tasks[i], HoldsLock(l));
    }
  }

  lemma LocksLeave(s: State, i: nat, g: Gate)
    requires Locks(s) && i < |s.tasks| && s.tasks[i].at == Leave(g) && TaskOk(s.tasks[i])
    ensures Locks(AtLeave(s, i, g))
  {
    var s' := AtLeave(s, i, g);
    var h := LockOf(s.tasks[i].kind, g);
    T.Member(s.tasks, i, HoldsLock(h));
    assert Holders(s, h) == Taken(s.words, h);
    forall l: Lock ensures Holders(s', l) == Taken(s'.words, l) {
      assert Holders(s, l) == Taken(s.words, l);
      T.Update(s.tasks, i, s'.tasks[i], HoldsLock(l));
    }
  }

  // Every other step leaves the words alone and moves nobody in or out.
  lemma LocksElse(s: State, i: nat, s': State)
    requires Locks(s) && i < |s.tasks| && Effect(s, i, s') && s'.words == s.words
    requires forall l: Lock :: Holds(s'.tasks[i], l) == Holds(s.tasks[i], l)
    ensures Locks(s')
  {
    forall l: Lock ensures Holders(s', l) == Taken(s'.words, l) {
      assert Holders(s, l) == Taken(s.words, l);
      T.Update(s.tasks, i, s'.tasks[i], HoldsLock(l));
    }
  }

  lemma LocksRun(s: State, i: nat)
    requires Locks(s) && i < |s.tasks| && TaskOk(s.tasks[i])
    ensures Locks(RunTask(s, i))
  {
    StepEffect(s, i);
    match s.tasks[i].at
    case Want(g) => LocksWant(s, i, g);
    case Leave(g) => LocksLeave(s, i, g);
    case _ => LocksElse(s, i, RunTask(s, i));
  }

  lemma LocksOpen(s: State, t: Task)
    requires Locks(s) && t.at == Atomic
    ensures Locks(s.(tasks := s.tasks + [t]))
  {
    forall l: Lock ensures Holders(s.(tasks := s.tasks + [t]), l) == Taken(s.words, l) {
      assert Holders(s, l) == Taken(s.words, l);
      T.Append(s.tasks, t, HoldsLock(l));
    }
  }

  // Two tasks are never inside the same section together, except as readers.
  lemma Exclusive(s: State, i: nat, j: nat, l: Lock, k: Lock)
    requires Locks(s)
    requires i < |s.tasks| && j < |s.tasks| && i != j
    requires Holds(s.tasks[i], l) && Holds(s.tasks[j], k)
    ensures l == k ==> l == RwRead
    ensures !(l == RwWrite && k == RwRead)
  {
    T.Member(s.tasks, i, HoldsLock(l));
    T.Member(s.tasks, j, HoldsLock(k));
    assert Holders(s, l) == Taken(s.words, l) && Holders(s, k) == Taken(s.words, k);
    if l == k {
      if i < j { T.Two(s.tasks, i, j, HoldsLock(l)); } else { T.Two(s.tasks, j, i, HoldsLock(l)); }
    }
  }

  // What a gate's cell holds: the reference value, except that the mirror trails while the
  // thread carries the value it read from the atomic to the store; and a register loaded
  // for an increment still equals the cell.
  ghost predicate CellOk(s: State, g: Gate)
    requires |s.tasks| > 0
  {
    var t := s.tasks[0];
    if t.at == Write(g) then
      && t.reg == Wrap(Value(s.log, Counter(g)))
      && (g != Rw ==> t.reg == s.cells[Cell(g)])
    else
      s.cells[Cell(g)] == Wrap(Value(s.log, Counter(g)))
  }

  ghost predicate MemoryOk(s: State)
  {
    && |s.tasks| > 0
    && s.atomic == Wrap(Value(s.log, ATOMIC))
    && forall g: Gate :: CellOk(s, g)
  }

  // No store comes between the thread's load and its store.
  lemma Undisturbed(s: State, i: nat, g: Gate)
    requires Shape(s) && Locks(s) && i < |s.tasks| && s.tasks[i].at == Write(g)
    ensures s.tasks[0].at == Write(g) ==> i == 0
  {
    var l := LockOf(Worker, g);
    if s.tasks[0].at == Write(g) && i != 0 {
      Exclusive(s, i, 0, l, l);
    }
  }

  lemma MemoryWrite(s: State, i: nat, g: Gate, h: Gate)
    requires Shape(s) && Locks(s) && i < |s.tasks| && s.tasks[i].at == Write(g)
    requires CellOk(s, h) && (i == 0 ==> CellOk(s, g))
    ensures CellOk(AtWrite(s, i, g), h)
  {
    WrapSuccessor(Value(s.log, Counter(g)));
    Undisturbed(s, i, g);
  }

  lemma MemoryRead(s: State, i: nat, g: Gate, h: Gate)
    requires Shape(s) && i < |s.tasks| && s.tasks[i].at == Read(g) && CellOk(s, h)
    requires s.atomic == Wrap(Value(s.log, ATOMIC))
    ensures CellOk(AtRead(s, i, g), h)
  {
  }

  lemma CellRun(s: State, i: nat, h: Gate)
    requires Shape(s) && Locks(s) && MemoryOk(s) && i < |s.tasks|
    ensures CellOk(RunTask(s, i), h)
  {
    assert CellOk(s, h);
    match s.tasks[i].at
    case Read(g) => MemoryRead(s, i, g, h);
    case Write(g) => assert CellOk(s, g); MemoryWrite(s, i, g, h);
    case _ =>
  }

  lemma AtomicRun(s: State, i: nat)
    requires i < |s.tasks| && TaskOk(s.tasks[i]) && s.atomic == Wrap(Value(s.log, ATOMIC))
    ensures RunTask(s, i).atomic == Wrap(Value(RunTask(s, i).log, ATOMIC))
  {
    WrapSuccessor(Value(s.log, ATOMIC));
  }

  lemma MemoryRun(s: State, i: nat)
    requires Shape(s) && Locks(s) && MemoryOk(s) && i < |s.tasks|
    ensures MemoryOk(RunTask(s, i))
  {
    AtomicRun(s, i);
    forall h: Gate ensures CellOk(RunTask(s, i), h) { CellRun(s, i, h); }
  }

  // The thread's increments: each counter has one a completed round, and one more once
  // the current round has reached it. Nothing but the mirror is ever copied.
  ghost predicate Progress(s: State)
  {
    && |s.tasks| > 0
    && (forall c: nat :: c < MIRROR ==> !Copied(s.log, c))
    && (forall c: nat :: c < MIRROR ==>
          Total(s.log, c) == s.rounds + if c < Written(s.tasks[0]) then 1 else 0)
    && AlwaysLags(s.log)
  }

  // Of two counters, the one the loop bumps first is ahead by at most one.
  ghost predicate Lags(log: Log)
  {
    forall c: nat, d: nat :: c < d < MIRROR ==> Total(log, d) <= Total(log, c) <= Total(log, d) + 1
  }

  ghost predicate AlwaysLags(log: Log)
  {
    Lags(log) && (log.Snoc? ==> AlwaysLags(log.prev))
  }

  lemma ProgressEffect(s: State, i: nat, s': State)
    requires Shape(s) && Progress(s) && i < |s.tasks| && Effect(s, i, s')
    ensures Progress(s')
  {
    forall c: nat | c < MIRROR
      ensures !Copied(s'.log, c)
      ensures Total(s'.log, c) == s'.rounds + if c < Written(s'.tasks[0]) then 1 else 0
    {
      assert !Copied(s.log, c);
      assert Total(s.log, c) == s.rounds + if c < Written(s.tasks[0]) then 1 else 0;
    }
  }

  lemma {:induction false} LagsAtZero(log: Log, c: nat)
    requires AlwaysLags(log)
    ensures Lags(AtZero(log, c))
  {
    if log.Snoc? && AtZero(log, c) != log { LagsAtZero(log.prev, c); }
  }

  // Each reset's stores stand in the history in program order.
  ghost predicate Trails(s: State)
  {
    && Ordered(s.log)
    && (forall c: nat, i: nat :: Has(s.log, c, i) <==>
          i < |s.tasks| && s.tasks[i].kind == Reset && c < Written(s.tasks[i]))
  }

  lemma TrailsEffect(s: State, i: nat, s': State)
    requires Trails(s) && i < |s.tasks| && Effect(s, i, s')
    ensures Trails(s')
  {
    forall c: nat, j: nat
      ensures Has(s'.log, c, j) <==>
        j < |s'.tasks| && s'.tasks[j].kind == Reset && c < Written(s'.tasks[j])
    {
      assert Has(s.log, c, j) <==>
        j < |s.tasks| && s.tasks[j].kind == Reset && c < Written(s.tasks[j]);
    }
  }

  // The mirror is not ahead of the atomic unless a reset is under way.
  ghost predicate Mirrored(s: State)
  {
    Value(s.log, MIRROR) <= Value(s.log, ATOMIC) || ResetInFlight(s)
  }

  lemma MirroredEffect(s: State, i: nat, s': State)
    requires Mirrored(s) && i < |s.tasks| && Effect(s, i, s')
    ensures Mirrored(s')
  {
    if j :| 0 <= j < |s.tasks| && InFlight(s.tasks[j]) {
      assert j < |s'.tasks|;
      if !InFlight(s'.tasks[j]) {
        assert s'.log == Snoc(s.log, Zero(MIRROR, i));
      }
    } else if s'.log == Snoc(s.log, Zero(ATOMIC, i)) {
      assert InFlight(s'.tasks[i]);
    }
  }

  // The same of the memory itself, while the atomic counter's unwrapped value fits in 31 bits.
  ghost predicate Behind(s: State)
  {
    Value(s.log, ATOMIC) < HALF ==> s.cells[0] <= s.atomic || ResetInFlight(s)
  }

  lemma BehindWrite(s: State, i: nat)
    requires Shape(s) && MemoryOk(s) && Progress(s) && Mirrored(s)
    requires i < |s.tasks| && s.tasks[i].at == Write(Rw)
    ensures Behind(AtWrite(s, i, Rw))
  {
    var s' := AtWrite(s, i, Rw);
    assert CellOk(s, Rw);
    if i == 0 {
      if j :| 0 <= j < |s.tasks| && InFlight(s.tasks[j]) { assert InFlight(s'.tasks[j]); }
    }
  }

  lemma BehindRun(s: State, i: nat)
    requires Shape(s) && MemoryOk(s) && Progress(s) && Mirrored(s) && Behind(s) && i < |s.tasks|
    ensures Behind(RunTask(s, i))
  {
    var s' := RunTask(s, i);
    StepEffect(s, i);
    if s.tasks[i].at == Write(Rw) {
      BehindWrite(s, i);
    } else {
      if j :| 0 <= j < |s.tasks| && InFlight(s.tasks[j]) {
        assert InFlight(s'.tasks[j]);
      } else if s.tasks[i].kind == Reset && s.tasks[i].at == Atomic {
        assert InFlight(s'.tasks[i]);
      }
    }
  }

  ghost predicate Inv(s: State)
  {
    Shape(s) && Locks(s) && MemoryOk(s) && Progress(s) && Trails(s) && Mirrored(s) && Behind(s)
  }

  lemma InitInv()
    ensures Inv(Init())
  {
    var s := Init();
    assert s.tasks[..0] == [];
    forall l: Lock ensures Holders(s, l) == 0 {
      assert T.Tally(s.tasks[..0], HoldsLock(l)) == 0;
    }
  }

  lemma OpenInv(s: State, k: Kind)
    requires Inv(s)
    ensures Inv(Next(s, Open(k)))
  {
    var s' := Next(s, Open(k));
    if k != Worker { LocksOpen(s, Task(k, Atomic, 0, [])); }
    assert MemoryOk(s') by { assert forall g: Gate :: CellOk(s, g) ==> CellOk(s', g); }
    assert Mirrored(s') && Behind(s') by {
      if i :| 0 <= i < |s.tasks| && InFlight(s.tasks[i]) { assert InFlight(s'.tasks[i]); }
    }
    assert Trails(s') by {
      assert forall c: nat, i: nat :: Has(s.log, c, i) <==>
        i < |s.tasks| && s.tasks[i].kind == Reset && c < Written(s.tasks[i]);
    }
  }

  lemma StopInv(s: State)
    requires Inv(s)
    ensures Inv(s.(stop := true))
  {
    var s' := s.(stop := true);
    assert forall l: Lock :: Holders(s', l) == Holders(s, l) && s'.words == s.words;
    assert MemoryOk(s') by { assert forall g: Gate :: CellOk(s, g) ==> CellOk(s', g); }
    assert Mirrored(s') && Behind(s') by {
      if i :| 0 <= i < |s.tasks| && InFlight(s.tasks[i]) { assert InFlight(s'.tasks[i]); }
    }
  }

  lemma RunTaskInv(s: State, i: nat)
    requires Inv(s) && i < |s.tasks|
    ensures Inv(RunTask(s, i))
  {
    var s' := RunTask(s, i);
    StepEffect(s, i);
    LocksRun(s, i);
    MemoryRun(s, i);
    ProgressEffect(s, i, s');
    TrailsEffect(s, i, s');
    MirroredEffect(s, i, s');
    BehindRun(s, i);
  }

  lemma StepInv(s: State, m: Move)
    requires Inv(s)
    ensures Inv(Next(s, m))
  {
    match m
    case Run(i) => if i < |s.tasks| { RunTaskInv(s, i); }
    case Open(k) => OpenInv(s, k);
    case RequestStop => StopInv(s);
  }

  lemma {:induction false} RunInv(moves: seq<Move>)
    ensures Inv(Exec(Init(), moves))
  {
    if moves == [] {
      InitInv();
    } else {
      RunInv(moves[..|moves| - 1]);
      StepInv(Exec(Init(), moves[..|moves| - 1]), moves[|moves| - 1]);
    }
  }

  // The states of all runs: any number of writers and readers, any interleaving.
  ghost predicate Reachable(s: State)
  {
    exists moves: seq<Move> :: s == Exec(Init(), moves)
  }

  lemma ReachableInv(s: State)
    requires Reachable(s)
    ensures Inv(s)
  {
    var moves: seq<Move> :| s == Exec(Init(), moves);
    RunInv(moves);
  }
}
