// The locking of tutorial-05 on any number of CPUs: any number of process contexts and
// workers, which the scheduler takes off a CPU and puts back, and top halves that interrupt
// whatever a CPU is running while its interrupts are on.
module CpuLocks {
  import opened Basics
  import T = Tally

  datatype Kind = TopHalf | BottomHalf | Show

  datatype Point =
    | WantMutex   // a reader, before mutex_lock(&proc_mutex)
    | Before      // before spin_lock_irqsave
    | Spin        // interrupts saved and off, spinning on stats_lock
    | Inside      // holding stats_lock
    | Restore     // stats_lock released, interrupts not yet restored
    | After       // after spin_unlock_irqrestore
    | Finished

  // `saved` is the flags variable of the critical section; `found` records the interrupt
  // flag that the context's code started with, which no code reads.
  datatype Frame = Frame(kind: Kind, interrupt: bool, at: Point, saved: bool, found: bool)

  datatype Cpu = Cpu(irqOn: bool, stack: seq<Frame>)

  // `parked` are the process contexts on no CPU: preempted, or asleep on proc_mutex.
  datatype State = State(cpus: seq<Cpu>, parked: seq<Frame>, statsLock: bool, procMutex: bool)

  // Call starts a context on an idle CPU; Interrupt delivers an interrupt, whose handler
  // runs with interrupts off or, on some kernels, on; Park takes a CPU's process context off
  // it, Resume puts a parked one on an idle CPU.
  datatype Move =
    | Run(cpu: nat)
    | Call(cpu: nat, kind: Kind)
    | Interrupt(cpu: nat, keepOn: bool)
    | Park(cpu: nat)
    | Resume(cpu: nat, context: nat)

  function Top(c: Cpu): Frame
    requires c.stack != []
  {
    c.stack[|c.stack| - 1]
  }

  function SetTop(c: Cpu, f: Frame): Cpu
    requires c.stack != []
  {
    c.(stack := c.stack[|c.stack| - 1 := f])
  }

  // A return from an interrupt puts back the flag it interrupted: on.
  function Pop(c: Cpu): Cpu
    requires c.stack != []
  {
    Cpu(c.irqOn || Top(c).interrupt, c.stack[..|c.stack| - 1])
  }

  function Push(c: Cpu, kind: Kind, interrupt: bool, flag: bool): Cpu
  {
    Cpu(flag, c.stack + [Frame(kind, interrupt, if kind == Show then WantMutex else Before, false, flag)])
  }

  // What the running context does to its own CPU; `go` says that the lock it wants is free.
  function StepCpu(c: Cpu, go: bool): Cpu
    requires c.stack != []
  {
    var f := Top(c);
    match f.at
    case WantMutex => if go then SetTop(c, f.(at := Before)) else c
    case Before => SetTop(c, f.(at := Spin, saved := c.irqOn)).(irqOn := false)
    case Spin => if go then SetTop(c, f.(at := Inside)) else c
    case Inside => SetTop(c, f.(at := Restore))
    case Restore => SetTop(c, f.(at := After)).(irqOn := f.saved)
    case After => SetTop(c, f.(at := Finished))
    case Finished => Pop(c)
  }

  function RunCpu(s: State, i: nat): State
    requires i < |s.cpus| && s.cpus[i].stack != []
  {
    var f := Top(s.cpus[i]);
    var go := if f.at == WantMutex then !s.procMutex else !s.statsLock;
    State(
      s.cpus[i := StepCpu(s.cpus[i], go)],
      s.parked,
      if f.at == Spin then true else if f.at == Inside then false else s.statsLock,
      if f.at == WantMutex then true else if f.at == After && f.kind == Show then false else s.procMutex)
  }

  // Nobody is preempted by another process while a handler runs on top of it, or while its
  // interrupts are off: a spinlock forbids it.
  predicate CanPark(c: Cpu) { |c.stack| == 1 && !c.stack[0].interrupt && c.irqOn }

  function ParkCpu(s: State, i: nat): State
    requires i < |s.cpus| && CanPark(s.cpus[i])
  {
    s.(cpus := s.cpus[i := Cpu(true, [])], parked := s.parked + [Top(s.cpus[i])])
  }

  function ResumeOn(s: State, i: nat, n: nat): State
    requires i < |s.cpus| && n < |s.parked|
  {
    s.(cpus := s.cpus[i := Cpu(true, [s.parked[n]])], parked := s.parked[..n] + s.parked[n + 1..])
  }

  function Next(s: State, m: Move): State
  {
    match m
    case Run(i) => if i < |s.cpus| && s.cpus[i].stack != [] then RunCpu(s, i) else s
    case Call(i, k) =>
      if i < |s.cpus| && s.cpus[i].stack == [] then
        s.(cpus := s.cpus[i := Push(s.cpus[i], k, false, s.cpus[i].irqOn)])
      else s
    case Interrupt(i, keep) =>
      if i < |s.cpus| && s.cpus[i].irqOn then s.(cpus := s.cpus[i := Push(s.cpus[i], TopHalf, true, keep)]) else s
    case Park(i) => if i < |s.cpus| && CanPark(s.cpus[i]) then ParkCpu(s, i) else s
    case Resume(i, n) =>
      if i < |s.cpus| && s.cpus[i].stack == [] && n < |s.parked| then ResumeOn(s, i, n) else s
  }

  function Exec(s: State, moves: seq<Move>): State
  {
    if moves == [] then s else Next(Exec(s, moves[..|moves| - 1]), moves[|moves| - 1])
  }

  function Init(n: nat): State { State(seq(n, _ => Cpu(true, [])), [], false, false) }

  // ---- What every step keeps ----

  predicate Critical(f: Frame) { f.at.Spin? || f.at.Inside? || f.at.Restore? }

  // One CPU: only its running context can be in a critical section, and then its interrupts
  // are off and its flags variable is what it found; outside, the flag is what it found.
  // Interrupted contexts had interrupts on. Only a process reads /proc.
  ghost predicate CpuOk(c: Cpu)
  {
    && (forall k :: 0 <= k < |c.stack| - 1 ==> !Critical(c.stack[k]) && c.stack[k].found)
    && (forall k :: 0 <= k < |c.stack| ==> FrameOk(c.stack[k]) && (k > 0 ==> c.stack[k].interrupt))
    && if c.stack == [] then c.irqOn
       else if Critical(Top(c)) then !c.irqOn && Top(c).saved == Top(c).found
       else c.irqOn == Top(c).found
  }

  ghost predicate FrameOk(f: Frame)
  {
    && (f.interrupt ==> f.kind == TopHalf)
    && (f.at.WantMutex? ==> f.kind == Show)
    && (!f.interrupt ==> f.found)
  }

  predicate InStats(c: Cpu) { c.stack != [] && Top(c).at == Inside }

  // A reader past its mutex_lock and not past its mutex_unlock.
  predicate Reader(f: Frame) { f.kind == Show && !f.at.WantMutex? && !f.at.Finished? }

  predicate InMutex(c: Cpu) { c.stack != [] && Reader(c.stack[0]) }

  function HoldsStats(): Cpu -> bool { c => InStats(c) }

  function HoldsMutex(): Cpu -> bool { c => InMutex(c) }

  function IsReader(): Frame -> bool { f => Reader(f) }

  // A parked context is a process's, outside every critical section.
  ghost predicate ParkedOk(f: Frame) { FrameOk(f) && !f.interrupt && !Critical(f) }

  ghost predicate Inv(s: State)
  {
    && |s.cpus| > 0
    && (forall i :: 0 <= i < |s.cpus| ==> CpuOk(s.cpus[i]))
    && (forall n :: 0 <= n < |s.parked| ==> ParkedOk(s.parked[n]))
    && T.Tally(s.cpus, HoldsStats()) == Bit(s.statsLock)
    && T.Tally(s.cpus, HoldsMutex()) + T.Tally(s.parked, IsReader()) == Bit(s.procMutex)
  }

  lemma PushOk(c: Cpu, kind: Kind, interrupt: bool, flag: bool)
    requires CpuOk(c)
    requires if interrupt then kind == TopHalf && c.irqOn else c.stack == [] && flag == c.irqOn
    ensures CpuOk(Push(c, kind, interrupt, flag))
    ensures InStats(Push(c, kind, interrupt, flag)) == InStats(c)
    ensures InMutex(Push(c, kind, interrupt, flag)) == InMutex(c)
  {
  }

  lemma StepOk(c: Cpu, go: bool)
    requires CpuOk(c) && c.stack != []
    ensures CpuOk(StepCpu(c, go))
  {
    var c' := StepCpu(c, go);
    if Top(c).at == Finished && |c.stack| > 1 { assert Top(c') == c.stack[|c.stack| - 2]; }
  }

  // A step moves the lock words exactly as it moves the context in or out.
  lemma StepBalance(s: State, i: nat)
    requires i < |s.cpus| && s.cpus[i].stack != [] && CpuOk(s.cpus[i])
    requires InStats(s.cpus[i]) ==> s.statsLock
    requires InMutex(s.cpus[i]) ==> s.procMutex
    ensures var c, c', s' := s.cpus[i], RunCpu(s, i).cpus[i], RunCpu(s, i);
      && Bit(s'.statsLock) + Bit(InStats(c)) == Bit(s.statsLock) + Bit(InStats(c'))
      && Bit(s'.procMutex) + Bit(InMutex(c)) == Bit(s.procMutex) + Bit(InMutex(c'))
  {
    var c := s.cpus[i];
    if Top(c).at == Finished && |c.stack| > 1 { assert !Critical(c.stack[|c.stack| - 2]); }
  }

  lemma RunInv(s: State, i: nat)
    requires Inv(s) && i < |s.cpus| && s.cpus[i].stack != []
    ensures Inv(RunCpu(s, i))
  {
    var s' := RunCpu(s, i);
    if InStats(s.cpus[i]) { T.Member(s.cpus, i, HoldsStats()); }
    if InMutex(s.cpus[i]) { T.Member(s.cpus, i, HoldsMutex()); }
    var go := if Top(s.cpus[i]).at == WantMutex then !s.procMutex else !s.statsLock;
    StepOk(s.cpus[i], go);
    StepBalance(s, i);
    T.Update(s.cpus, i, s'.cpus[i], HoldsStats());
    T.Update(s.cpus, i, s'.cpus[i], HoldsMutex());
  }

  lemma PushInv(s: State, i: nat, kind: Kind, interrupt: bool, flag: bool)
    requires Inv(s) && i < |s.cpus|
    requires if interrupt then kind == TopHalf && s.cpus[i].irqOn
             else s.cpus[i].stack == [] && flag == s.cpus[i].irqOn
    ensures Inv(s.(cpus := s.cpus[i := Push(s.cpus[i], kind, interrupt, flag)]))
  {
    var c' := Push(s.cpus[i], kind, interrupt, flag);
    PushOk(s.cpus[i], kind, interrupt, flag);
    T.Update(s.cpus, i, c', HoldsStats());
    T.Update(s.cpus, i, c', HoldsMutex());
  }

  // Nothing is lost or gained by parking a context or putting one back.
  lemma ParkInv(s: State, i: nat)
    requires Inv(s) && i < |s.cpus| && CanPark(s.cpus[i])
    ensures Inv(ParkCpu(s, i))
  {
    T.Update(s.cpus, i, Cpu(true, []), HoldsStats());
    T.Update(s.cpus, i, Cpu(true, []), HoldsMutex());
    T.Append(s.parked, Top(s.cpus[i]), IsReader());
  }

  lemma ResumeInv(s: State, i: nat, n: nat)
    requires Inv(s) && i < |s.cpus| && s.cpus[i].stack == [] && n < |s.parked|
    ensures Inv(ResumeOn(s, i, n))
  {
    var c := Cpu(true, [s.parked[n]]);
    assert ParkedOk(s.parked[n]);
    T.Update(s.cpus, i, c, HoldsStats());
    T.Update(s.cpus, i, c, HoldsMutex());
    T.Remove(s.parked, n, IsReader());
  }

  lemma {:induction false} IdleTallies(n: nat)
    ensures T.Tally(Init(n).cpus, HoldsStats()) == 0 && T.Tally(Init(n).cpus, HoldsMutex()) == 0
  {
    if n > 0 {
      IdleTallies(n - 1);
      assert Init(n).cpus[..n - 1] == Init(n - 1).cpus;
    }
  }

  lemma {:induction false} ExecInv(n: nat, moves: seq<Move>)
    requires n > 0
    ensures Inv(Exec(Init(n), moves))
  {
    if moves == [] {
      IdleTallies(n);
    } else {
      var s := Exec(Init(n), moves[..|moves| - 1]);
      ExecInv(n, moves[..|moves| - 1]);
      match moves[|moves| - 1]
      case Run(i) => if i < |s.cpus| && s.cpus[i].stack != [] { RunInv(s, i); }
      case Call(i, k) => if i < |s.cpus| && s.cpus[i].stack == [] { PushInv(s, i, k, false, s.cpus[i].irqOn); }
      case Interrupt(i, keep) => if i < |s.cpus| && s.cpus[i].irqOn { PushInv(s, i, TopHalf, true, keep); }
      case Park(i) => if i < |s.cpus| && CanPark(s.cpus[i]) { ParkInv(s, i); }
      case Resume(i, k) =>
        if i < |s.cpus| && s.cpus[i].stack == [] && k < |s.parked| { ResumeInv(s, i, k); }
    }
  }

  // The states of all runs on any number of CPUs, at least one.
  ghost predicate Reachable(s: State)
  {
    exists n: nat, moves: seq<Move> :: n > 0 && s == Exec(Init(n), moves)
  }

  lemma ReachableInv(s: State)
    requires Reachable(s)
    ensures Inv(s)
  {
    var n: nat, moves: seq<Move> :| n > 0 && s == Exec(Init(n), moves);
    ExecInv(n, moves);
  }

  // ---- The claims ----

  // A context that holds stats_lock runs with interrupts off on top of its CPU, and no other
  // context on any CPU holds it; in particular no top half ever spins on a lock that the
  // context it interrupted holds.
  lemma HolderIsUndisturbed(s: State, i: nat, k: nat, j: nat, l: nat)
    requires Reachable(s) && i < |s.cpus| && k < |s.cpus[i].stack| && s.cpus[i].stack[k].at == Inside
    requires j < |s.cpus| && l < |s.cpus[j].stack|
    ensures s.statsLock && !s.cpus[i].irqOn && k == |s.cpus[i].stack| - 1
    ensures s.cpus[j].stack[l].at == Inside ==> (i, k) == (j, l)
    ensures s.cpus[j].stack[l].at == Spin ==> i != j
    ensures !CanPark(s.cpus[i])
  {
    ReachableInv(s);
    T.Member(s.cpus, i, HoldsStats());
    if s.cpus[j].stack[l].at == Inside && i < j { T.Two(s.cpus, i, j, HoldsStats()); }
    if s.cpus[j].stack[l].at == Inside && j < i { T.Two(s.cpus, j, i, HoldsStats()); }
  }

  // Every critical section puts back the interrupt flag it found: a context that is past it,
  // or not yet in it, runs with the flag it started with; what an interrupt returns to runs
  // with interrupts on, as when it was interrupted; and so does a parked context once resumed.
  lemma FlagRestored(s: State, i: nat)
    requires Reachable(s) && i < |s.cpus|
    ensures var c := s.cpus[i];
      if c.stack == [] then c.irqOn
      else !Critical(Top(c)) ==> c.irqOn == Top(c).found
    ensures forall k :: 0 <= k < |s.cpus[i].stack| - 1 ==>
      s.cpus[i].stack[k].found && !Critical(s.cpus[i].stack[k])
    ensures forall n :: 0 <= n < |s.parked| ==> s.parked[n].found && !Critical(s.parked[n])
  {
    ReachableInv(s);
    assert forall n :: 0 <= n < |s.parked| ==> ParkedOk(s.parked[n]);
  }

  // At most one context is past its mutex_lock(&proc_mutex), on whatever CPU or on none.
  lemma OneReader(s: State, i: nat, j: nat)
    requires Reachable(s) && i < |s.cpus| && InMutex(s.cpus[i])
    ensures s.procMutex
    ensures j < |s.cpus| && InMutex(s.cpus[j]) ==> i == j
    ensures j < |s.parked| ==> !Reader(s.parked[j])
  {
    ReachableInv(s);
    T.Member(s.cpus, i, HoldsMutex());
    if j < |s.parked| && Reader(s.parked[j]) { T.Member(s.parked, j, IsReader()); }
    if j < |s.cpus| && InMutex(s.cpus[j]) && i < j { T.Two(s.cpus, i, j, HoldsMutex()); }
    if j < |s.cpus| && InMutex(s.cpus[j]) && j < i { T.Two(s.cpus, j, i, HoldsMutex()); }
  }

  // proc_mutex always comes first: whoever waits for it is a reader in process context with
  // no critical section open on its CPU but that of an interrupt on top of it.
  lemma MutexComesFirst(s: State, i: nat, k: nat)
    requires Reachable(s) && i < |s.cpus| && k < |s.cpus[i].stack| && s.cpus[i].stack[k].at == WantMutex
    ensures k == 0 && s.cpus[i].stack[0].kind == Show && !s.cpus[i].stack[0].interrupt
    ensures forall l :: 0 <= l < |s.cpus[i].stack| && Critical(s.cpus[i].stack[l]) ==>
      l > 0 && s.cpus[i].stack[l].interrupt
  {
    ReachableInv(s);
  }

  predicate CanStep(s: State, i: nat)
    requires i < |s.cpus|
  {
    s.cpus[i].stack != [] && RunCpu(s, i) != s
  }

  lemma TopSteps(s: State, i: nat)
    requires i < |s.cpus| && s.cpus[i].stack != []
    requires Top(s.cpus[i]).at == WantMutex ==> !s.procMutex
    requires Top(s.cpus[i]).at == Spin ==> !s.statsLock
    ensures CanStep(s, i)
  {
    var c := s.cpus[i];
    var go := if Top(c).at == WantMutex then !s.procMutex else !s.statsLock;
    var c' := StepCpu(c, go);
    assert |c'.stack| != |c.stack| || Top(c').at != Top(c).at;
    assert RunCpu(s, i).cpus[i] == c';
  }

  // Only waiting for proc_mutex, as a process with interrupts on, or spinning for stats_lock
  // can keep a CPU's running context from stepping.
  lemma StuckMeansWaiting(s: State, i: nat)
    requires Inv(s) && i < |s.cpus| && s.cpus[i].stack != [] && !CanStep(s, i) && !s.statsLock
    ensures s.procMutex && CanPark(s.cpus[i])
  {
    if Top(s.cpus[i]).at != WantMutex || !s.procMutex { TopSteps(s, i); }
    assert FrameOk(Top(s.cpus[i]));
  }

  lemma ResumedSteps(s: State, i: nat, n: nat)
    requires i < |s.cpus| && n < |s.parked| && !s.statsLock
    requires s.parked[n].at == WantMutex ==> !s.procMutex
    ensures CanStep(ResumeOn(s, i, n), i)
  {
    var e := ResumeOn(s, i, n);
    assert Top(e.cpus[i]) == s.parked[n];
    TopSteps(e, i);
  }

  lemma ExecOne(s: State, m: Move)
    ensures Exec(s, [m]) == Next(s, m)
  {
    assert [m][..0] == [];
  }

  lemma ExecTwo(s: State, m: Move, m': Move)
    ensures Exec(s, [m, m']) == Next(Next(s, m), m')
  {
    assert [m, m'][..1] == [m];
    ExecOne(s, m);
  }

  // The scheduler frees CPU i, if it is stuck, and puts parked context n there.
  lemma PutOn(s: State, i: nat, n: nat) returns (choices: seq<Move>)
    requires i < |s.cpus| && n < |s.parked| && !s.statsLock
    requires s.cpus[i].stack != [] ==> CanPark(s.cpus[i])
    requires s.parked[n].at == WantMutex ==> !s.procMutex
    ensures |choices| <= 2 && forall k :: 0 <= k < |choices| ==> choices[k].Park? || choices[k].Resume?
    ensures i < |Exec(s, choices).cpus| && CanStep(Exec(s, choices), i)
  {
    if s.cpus[i].stack == [] {
      choices := [Resume(i, n)];
      ExecOne(s, Resume(i, n));
      ResumedSteps(s, i, n);
    } else {
      choices := [Park(i), Resume(i, n)];
      ExecTwo(s, Park(i), Resume(i, n));
      assert ParkCpu(s, i).parked[n] == s.parked[n];
      ResumedSteps(ParkCpu(s, i), i, n);
    }
  }

  // When proc_mutex is held and no CPU can step, its holder is parked.
  lemma ParkedReader(s: State) returns (n: nat)
    requires Inv(s) && s.procMutex && !s.statsLock
    requires forall k: nat :: k < |s.cpus| && s.cpus[k].stack != [] ==> !CanStep(s, k)
    ensures n < |s.parked| && Reader(s.parked[n])
  {
    if T.Tally(s.cpus, HoldsMutex()) >= 1 {
      var k := T.Witness(s.cpus, HoldsMutex());
      StuckMeansWaiting(s, k);
      TopSteps(s, k);
    }
    n := T.Witness(s.parked, IsReader());
  }

  // While any context is unfinished, on a CPU or parked, nothing deadlocks: after at most two
  // decisions of the scheduler, to take a stuck process off a CPU and to put a parked one on
  // it, some context can step. None is needed while somebody holds stats_lock.
  lemma SomeoneSteps(s: State, i: nat) returns (choices: seq<Move>, j: nat)
    requires Reachable(s) && (s.parked != [] || (i < |s.cpus| && s.cpus[i].stack != []))
    ensures |choices| <= 2 && forall k :: 0 <= k < |choices| ==> choices[k].Park? || choices[k].Resume?
    ensures j < |Exec(s, choices).cpus| && CanStep(Exec(s, choices), j)
    ensures s.statsLock ==> choices == []
  {
    ReachableInv(s);
    choices := [];
    if s.statsLock {
      j := T.Witness(s.cpus, HoldsStats());
      TopSteps(s, j);
    } else if k: nat :| k < |s.cpus| && s.cpus[k].stack != [] && CanStep(s, k) {
      j := k;
    } else {
      j := 0;
      var n := 0;
      if s.procMutex { n := ParkedReader(s); }
      if s.cpus[0].stack != [] { StuckMeansWaiting(s, 0); }
      if !s.procMutex && s.parked == [] { StuckMeansWaiting(s, i); }
      choices := PutOn(s, 0, n);
    }
  }

  // ---- What one context does, undisturbed ----

  function With(s: State, i: nat, c: Cpu, stats: bool, mutex: bool): State
    requires i < |s.cpus|
  {
    State(s.cpus[i := c], s.parked, stats, mutex)
  }

  lemma RunWith(s: State, i: nat, c: Cpu, stats: bool, mutex: bool)
    requires i < |s.cpus| && c.stack != []
    ensures var f := Top(c);
      Next(With(s, i, c, stats, mutex), Run(i)) == With(s, i,
        StepCpu(c, if f.at == WantMutex then !mutex else !stats),
        if f.at == Spin then true else if f.at == Inside then false else stats,
        if f.at == WantMutex then true else if f.at == After && f.kind == Show then false else mutex)
  {
    var c' := StepCpu(c, if Top(c).at == WantMutex then !mutex else !stats);
    assert s.cpus[i := c][i := c'] == s.cpus[i := c'];
  }

  lemma {:induction false} ExecAppend(s: State, a: seq<Move>, b: seq<Move>)
    ensures Exec(s, a + b) == Exec(Exec(s, a), b)
  {
    if b == [] {
      assert a + b == a;
    } else {
      var n := |b| - 1;
      assert (a + b)[..|a + b| - 1] == a + b[..n];
      ExecAppend(s, a, b[..n]);
    }
  }

  // A CPU's stack under a context, and that context.
  function On(below: seq<Frame>, irqOn: bool, f: Frame): Cpu { Cpu(irqOn, below + [f]) }

  lemma StepOn(below: seq<Frame>, irqOn: bool, f: Frame, go: bool)
    requires f.at != Finished
    ensures StepCpu(On(below, irqOn, f), go) ==
      match f.at
      case WantMutex => On(below, irqOn, if go then f.(at := Before) else f)
      case Before => On(below, false, f.(at := Spin, saved := irqOn))
      case Spin => On(below, irqOn, if go then f.(at := Inside) else f)
      case Inside => On(below, irqOn, f.(at := Restore))
      case Restore => On(below, f.saved, f.(at := After))
      case After => On(below, irqOn, f.(at := Finished))
  {
    assert forall g: Frame :: (below + [f])[|below| := g] == below + [g];
  }

  lemma TwoRuns(s: State, i: nat)
    ensures Exec(s, [Run(i), Run(i)]) == Next(Next(s, Run(i)), Run(i))
  {
    ExecTwo(s, Run(i), Run(i));
  }

  // To the critical section: interrupts off, stats_lock taken, nothing under it touched.
  lemma Enters(s: State, i: nat, below: seq<Frame>, flag: bool, f: Frame, mutex: bool)
    requires i < |s.cpus| && f.at == Before
    ensures Exec(With(s, i, On(below, flag, f), false, mutex), [Run(i), Run(i)])
         == With(s, i, On(below, false, f.(at := Inside, saved := flag)), true, mutex)
  {
    TwoRuns(With(s, i, On(below, flag, f), false, mutex), i);
    RunWith(s, i, On(below, flag, f), false, mutex);
    StepOn(below, flag, f, true);
    var f1 := f.(at := Spin, saved := flag);
    RunWith(s, i, On(below, false, f1), false, mutex);
    StepOn(below, false, f1, true);
  }

  // Out of it: stats_lock free, the flag as it was found.
  lemma Leaves(s: State, i: nat, below: seq<Frame>, f: Frame, mutex: bool)
    requires i < |s.cpus| && f.at == Inside
    ensures Exec(With(s, i, On(below, false, f), true, mutex), [Run(i), Run(i)])
         == With(s, i, On(below, f.saved, f.(at := After)), false, mutex)
  {
    TwoRuns(With(s, i, On(below, false, f), true, mutex), i);
    RunWith(s, i, On(below, false, f), true, mutex);
    StepOn(below, false, f, false);
    var f1 := f.(at := Restore);
    RunWith(s, i, On(below, false, f1), false, mutex);
    StepOn(below, false, f1, true);
  }

  // And off the CPU; a reader gives proc_mutex back.
  lemma Returns(s: State, i: nat, below: seq<Frame>, flag: bool, f: Frame, mutex: bool)
    requires i < |s.cpus| && f.at == After
    ensures Exec(With(s, i, On(below, flag, f), false, mutex), [Run(i), Run(i)])
         == With(s, i, Cpu(flag || f.interrupt, below), false, mutex && f.kind != Show)
  {
    TwoRuns(With(s, i, On(below, flag, f), false, mutex), i);
    RunWith(s, i, On(below, flag, f), false, mutex);
    StepOn(below, flag, f, true);
    var mutex' := mutex && f.kind != Show;
    var f1 := f.(at := Finished);
    RunWith(s, i, On(below, flag, f1), false, mutex');
    assert (below + [f1])[..|below|] == below;
  }

  // An interrupt on any CPU with interrupts on, whatever that is running, puts its handler on
  // top of it; there it takes stats_lock if that is free, with interrupts off; and when it
  // returns, everything is as it was.
  lemma InterruptComesAndGoes(s: State, i: nat, keep: bool)
    requires i < |s.cpus| && s.cpus[i].irqOn && !s.statsLock
    ensures var inside := Exec(Next(s, Interrupt(i, keep)), [Run(i), Run(i)]);
      && inside.statsLock && i < |inside.cpus|
      && inside.cpus[i] == Cpu(false, s.cpus[i].stack + [Frame(TopHalf, true, Inside, keep, keep)])
      && Exec(Exec(inside, [Run(i), Run(i)]), [Run(i), Run(i)]) == s
  {
    var below, f := s.cpus[i].stack, Frame(TopHalf, true, Before, false, keep);
    assert Next(s, Interrupt(i, keep)) == With(s, i, On(below, keep, f), false, s.procMutex);
    Enters(s, i, below, keep, f, s.procMutex);
    var f1 := f.(at := Inside, saved := keep);
    Leaves(s, i, below, f1, s.procMutex);
    Returns(s, i, below, keep, f1.(at := After), s.procMutex);
    assert s.cpus[i := Cpu(true, below)] == s.cpus;
  }

  // A process or worker on an idle CPU, both locks free: a reader takes proc_mutex, then
  // everybody stats_lock; when it is over, everything is as it was.
  lemma ContextComesAndGoes(s: State, i: nat, kind: Kind)
    requires i < |s.cpus| && s.cpus[i] == Cpu(true, []) && !s.statsLock && !s.procMutex
    ensures var begun := Next(s, Call(i, kind));
      var ready := if kind == Show then Next(begun, Run(i)) else begun;
      var inside := Exec(ready, [Run(i), Run(i)]);
      && ready.procMutex == (kind == Show) && !ready.statsLock
      && inside.statsLock && inside.procMutex == (kind == Show)
      && i < |inside.cpus| && inside.cpus[i] == Cpu(false, [Frame(kind, false, Inside, true, true)])
      && Exec(Exec(inside, [Run(i), Run(i)]), [Run(i), Run(i)]) == s
  {
    var f := Frame(kind, false, if kind == Show then WantMutex else Before, false, true);
    assert Next(s, Call(i, kind)) == With(s, i, On([], true, f), false, false);
    RunWith(s, i, On([], true, f), false, false);
    StepOn([], true, f, true);
    var mutex, f0 := kind == Show, f.(at := Before);
    Enters(s, i, [], true, f0, mutex);
    var f1 := f0.(at := Inside, saved := true);
    Leaves(s, i, [], f1, mutex);
    Returns(s, i, [], true, f1.(at := After), mutex);
    assert s.cpus[i := Cpu(true, [])] == s.cpus;
  }

  // A process or worker with interrupts on and no handler on top of it, a reader or not, can be
  // taken off its CPU; putting it back changes nothing else.
  lemma ParkAndResume(s: State, i: nat)
    requires i < |s.cpus| && s.cpus[i].irqOn && |s.cpus[i].stack| == 1 && !s.cpus[i].stack[0].interrupt
    ensures |Next(s, Park(i)).parked| == |s.parked| + 1 && Next(s, Park(i)).cpus[i].stack == []
    ensures Exec(s, [Park(i), Resume(i, |s.parked|)]) == s
  {
    ExecTwo(s, Park(i), Resume(i, |s.parked|));
    var t := ParkCpu(s, i);
    var n := |s.parked|;
    assert t.parked[..n] + t.parked[n + 1..] == s.parked;
    assert s.cpus[i].stack == [Top(s.cpus[i])];
    assert t.cpus[i := s.cpus[i]] == s.cpus;
  }
}
