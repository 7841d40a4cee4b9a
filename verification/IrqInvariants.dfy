// What every step of the interrupt protocol keeps.
module IrqInvariants {
  import opened Basics
  import opened Int32
  import opened Ledger
  import opened IrqModel
  import T = Tally

  ghost predicate TaskOk(t: Task)
  {
    match t.kind
    case Bottom => t.at.Idle? || t.at.Stamp? || t.at.Count? || t.at.Want? || t.at.Store? || t.at.Unlock?
    case Top => t.at.Stamp? || t.at.Count? || t.at.Want? || t.at.Store? || t.at.Unlock? || t.at.Queue? || t.at.Done?
    case Delayed => t.at.Count? || t.at.Done?
    case Reset => t.at == Zeroing(IRQ) || t.at == Zeroing(BH) || t.at == Zeroing(DELAYED) || t.at.Done?
    case Show => t.at.WantMutex? || InMutex(t) || t.at.Done?
  }

  ghost predicate Shape(s: State)
  {
    && |s.tasks| > 0
    && forall i :: 0 <= i < |s.tasks| ==> TaskOk(s.tasks[i]) && (s.tasks[i].kind == Bottom <==> i == 0)
  }

  // What one step of task i does to its table entry and to the history.
  ghost predicate Effect(s: State, i: nat, s': State)
    requires i < |s.tasks|
  {
    && |s'.tasks| == |s.tasks|
    && var t, t' := s.tasks[i], s'.tasks[i];
    && s'.tasks == s.tasks[i := t']
    && t'.kind == t.kind && TaskOk(t')
    && s'.clock == s.clock
    && match t.kind
       case Reset =>
         if t.at == Done then s'.log == s.log && Zeroed(t') == Zeroed(t)
         else Zeroed(t') == Zeroed(t) + 1 && s'.log == Snoc(s.log, Zero(Zeroed(t), i))
       case Bottom => s'.log == if t.at == Count then Snoc(s.log, Add(BH)) else s.log
       case Delayed => s'.log == if t.at == Count then Snoc(s.log, Add(DELAYED)) else s.log
       case Show => s'.log == s.log
       case Top =>
         s'.log == if t.at == Count then Snoc(s.log, Add(IRQ))
                   else if t.at == Queue && s.pending then Snoc(s.log, Add(MERGED)) else s.log
  }

  lemma StepEffect(s: State, i: nat)
    requires i < |s.tasks| && TaskOk(s.tasks[i])
    ensures Effect(s, i, RunTask(s, i))
  {
    match s.tasks[i].at
    case Idle => case Stamp => case Count => case Want => case Store => case LoadIrq =>
    case LoadBh => case Unlock => case Queue => case Zeroing(c) => case WantMutex =>
    case UnlockMutex => case Done =>
  }

  // ---- The two locks ----

  predicate InStats(t: Task) { t.at.Store? || t.at.LoadIrq? || t.at.LoadBh? || t.at.Unlock? }

  predicate InMutex(t: Task)
  {
    t.kind == Show && (t.at.Want? || t.at.LoadIrq? || t.at.LoadBh? || t.at.Unlock? || t.at.UnlockMutex?)
  }

  function HoldsStats(): Task -> bool { t => InStats(t) }

  function HoldsMutex(): Task -> bool { t => InMutex(t) }

  ghost predicate Locks(s: State)
  {
    && T.Tally(s.tasks, HoldsStats()) == Bit(s.statsLock)
    && T.Tally(s.tasks, HoldsMutex()) == Bit(s.procMutex)
  }

  // A step moves the lock words exactly as a context enters or leaves the sections.
  ghost predicate Balanced(s: State, i: nat, s': State)
    requires i < |s.tasks| <= |s'.tasks|
  {
    && Bit(s'.statsLock) + Bit(InStats(s.tasks[i])) == Bit(s.statsLock) + Bit(InStats(s'.tasks[i]))
    && Bit(s'.procMutex) + Bit(InMutex(s.tasks[i])) == Bit(s.procMutex) + Bit(InMutex(s'.tasks[i]))
  }

  lemma BalanceStats(s: State, i: nat)
    requires i < |s.tasks| && TaskOk(s.tasks[i])
    ensures s.tasks[i].at.Want? ==> Balanced(s, i, AtWant(s, i))
    ensures s.tasks[i].at.Unlock? && s.statsLock ==> Balanced(s, i, AtUnlock(s, i))
  {
  }

  lemma StepBalance(s: State, i: nat)
    requires i < |s.tasks| && TaskOk(s.tasks[i])
    requires InStats(s.tasks[i]) ==> s.statsLock
    requires InMutex(s.tasks[i]) ==> s.procMutex
    ensures Balanced(s, i, RunTask(s, i))
  {
    match s.tasks[i].at
    case Want => BalanceStats(s, i);
    case Unlock => BalanceStats(s, i);
    case _ =>
  }

  lemma LocksRun(s: State, i: nat)
    requires Locks(s) && i < |s.tasks| && TaskOk(s.tasks[i])
    ensures Locks(RunTask(s, i))
  {
    if InStats(s.tasks[i]) { T.Member(s.tasks, i, HoldsStats()); }
    if InMutex(s.tasks[i]) { T.Member(s.tasks, i, HoldsMutex()); }
    StepEffect(s, i);
    StepBalance(s, i);
    LocksEffect(s, i, RunTask(s, i));
  }

  lemma LocksEffect(s: State, i: nat, s': State)
    requires Locks(s) && i < |s.tasks| && Effect(s, i, s') && Balanced(s, i, s')
    ensures Locks(s')
  {
    T.Update(s.tasks, i, s'.tasks[i], HoldsStats());
    T.Update(s.tasks, i, s'.tasks[i], HoldsMutex());
  }

  lemma Exclusive(s: State, i: nat, j: nat)
    requires Locks(s) && i < |s.tasks| && j < |s.tasks|
    requires InStats(s.tasks[i]) && InStats(s.tasks[j])
    ensures i == j
  {
    if i < j { T.Two(s.tasks, i, j, HoldsStats()); } else if j < i { T.Two(s.tasks, j, i, HoldsStats()); }
  }

  // ---- The counters ----

  ghost predicate Counted(s: State)
  {
    && (forall c: nat :: c <= DELAYED ==> s.counts[c] == Wrap(Value(s.log, c)))
    && (forall c: nat :: !Copied(s.log, c))
  }

  lemma CountedCount(s: State, i: nat)
    requires Counted(s) && i < |s.tasks|
    ensures Counted(AtCount(s, i))
  {
    WrapSuccessor(Value(s.log, CounterOf(s.tasks[i].kind)));
  }

  lemma CountedRun(s: State, i: nat)
    requires Counted(s) && i < |s.tasks| && TaskOk(s.tasks[i])
    ensures Counted(RunTask(s, i))
  {
    match s.tasks[i].at
    case Count => CountedCount(s, i);
    case Zeroing(c) =>
    case Queue =>
    case _ => assert RunTask(s, i).log == s.log;
  }

  // Every interrupt counted is a bottom half counted, a queue_work that found the item
  // pending, or still outstanding: over the whole history, resets notwithstanding.
  ghost predicate Conserved(s: State)
  {
    Total(s.log, IRQ) == Total(s.log, BH) + Total(s.log, MERGED) + Outstanding(s)
  }

  // What one step moves between the terms of the balance.
  ghost predicate Flow(s: State, i: nat, s': State)
    requires i < |s.tasks| <= |s'.tasks|
  {
    Bit(s.pending) + Bit(Owes(s.tasks[i])) + Total(s.log, BH) + Total(s.log, MERGED) + Total(s'.log, IRQ)
    == Bit(s'.pending) + Bit(Owes(s'.tasks[i])) + Total(s'.log, BH) + Total(s'.log, MERGED) + Total(s.log, IRQ)
  }

  lemma FlowQueue(s: State, i: nat)
    requires i < |s.tasks| && s.tasks[i].at == Queue && s.tasks[i].kind == Top
    ensures Flow(s, i, AtQueue(s, i))
  {
  }

  lemma FlowCount(s: State, i: nat)
    requires i < |s.tasks| && s.tasks[i].at == Count && s.tasks[i].kind != Show && s.tasks[i].kind != Reset
    ensures Flow(s, i, AtCount(s, i))
  {
  }

  lemma FlowIdle(s: State, i: nat)
    requires i < |s.tasks| && TaskOk(s.tasks[i]) && s.tasks[i].at.Idle?
    ensures Flow(s, i, AtIdle(s, i))
  {
  }

  // Up to the release of stats_lock a context owes what it owed.
  lemma StaysOwing(s: State, i: nat)
    requires i < |s.tasks| && TaskOk(s.tasks[i]) && !s.tasks[i].at.Zeroing? && !s.tasks[i].at.Unlock?
    requires !s.tasks[i].at.Count? && !s.tasks[i].at.Queue? && !s.tasks[i].at.Idle?
    ensures var s' := RunTask(s, i);
      s'.log == s.log && s'.pending == s.pending && Owes(s'.tasks[i]) == Owes(s.tasks[i])
  {
  }

  lemma FlowElse(s: State, i: nat)
    requires i < |s.tasks| && TaskOk(s.tasks[i])
    requires !s.tasks[i].at.Count? && !s.tasks[i].at.Queue? && !s.tasks[i].at.Idle?
    ensures Flow(s, i, RunTask(s, i))
  {
    match s.tasks[i].at
    case Zeroing(c) => assert RunTask(s, i) == AtZeroing(s, i, c);
    case Unlock => assert RunTask(s, i) == AtUnlock(s, i);
    case _ => StaysOwing(s, i);
  }

  lemma StepFlow(s: State, i: nat)
    requires i < |s.tasks| && TaskOk(s.tasks[i])
    ensures Flow(s, i, RunTask(s, i))
  {
    match s.tasks[i].at
    case Count => FlowCount(s, i);
    case Queue => FlowQueue(s, i);
    case Idle => FlowIdle(s, i);
    case _ => FlowElse(s, i);
  }

  lemma ConservedEffect(s: State, i: nat, s': State)
    requires Conserved(s) && i < |s.tasks| && Effect(s, i, s') && Flow(s, i, s')
    ensures Conserved(s')
  {
    T.Update(s.tasks, i, s'.tasks[i], IsOwing());
  }

  lemma ConservedRun(s: State, i: nat)
    requires Shape(s) && Conserved(s) && i < |s.tasks|
    ensures Conserved(RunTask(s, i))
  {
    StepEffect(s, i);
    StepFlow(s, i);
    ConservedEffect(s, i, RunTask(s, i));
  }

  // Each reset's stores stand in the history in program order.
  ghost predicate Trails(s: State)
  {
    && Ordered(s.log)
    && (forall c: nat, i: nat :: Has(s.log, c, i) <==> i < |s.tasks| && c < Zeroed(s.tasks[i]))
  }

  lemma TrailsEffect(s: State, i: nat, s': State)
    requires Trails(s) && i < |s.tasks| && Effect(s, i, s')
    ensures Trails(s')
  {
    forall c: nat, j: nat
      ensures Has(s'.log, c, j) <==> j < |s'.tasks| && c < Zeroed(s'.tasks[j])
    {
      assert Has(s.log, c, j) <==> j < |s.tasks| && c < Zeroed(s.tasks[j]);
    }
  }

  // ---- The timestamps ----

  // A top half whose time has been stored.
  predicate Stored(t: Task) { t.kind == Top && (t.at.Unlock? || t.at.Queue? || t.at.Done?) }

  // The bottom half owed to a stored top half, or the proof that it has come: a bottom half
  // whose time is no earlier has been stored.
  predicate Answered(s: State, t: Task)
    requires |s.tasks| > 0
  {
    var worker := s.tasks[0];
    || t.now <= s.lastBh
    || t.at.Unlock? || t.at.Queue?
    || s.pending
    || worker.at == Stamp
    || ((worker.at.Count? || worker.at.Want? || worker.at.Store?) && t.now <= worker.now)
  }

  ghost predicate Clocks(s: State)
  {
    && |s.tasks| > 0
    && s.lastBh <= s.clock
    && (forall i :: 0 <= i < |s.tasks| ==> s.tasks[i].now <= s.clock)
    && ((s.tasks[0].at.Count? || s.tasks[0].at.Want? || s.tasks[0].at.Store?) ==> s.lastBh <= s.tasks[0].now)
  }

  ghost predicate AllAnswered(s: State)
  {
    |s.tasks| > 0 && forall i :: 0 <= i < |s.tasks| && Stored(s.tasks[i]) ==> Answered(s, s.tasks[i])
  }

  // The latest interrupt time belongs to a top half that has stored it.
  ghost predicate Traced(s: State)
  {
    s.lastIrq == 0 || exists i :: 0 <= i < |s.tasks| && Stored(s.tasks[i]) && s.tasks[i].now == s.lastIrq
  }

  lemma ClocksRun(s: State, i: nat)
    requires Shape(s) && Clocks(s) && i < |s.tasks|
    ensures Clocks(RunTask(s, i))
  {
    StepEffect(s, i);
  }

  lemma AnsweredRun(s: State, i: nat, j: nat)
    requires Shape(s) && Clocks(s) && i < |s.tasks| && j < |s.tasks|
    requires Stored(s.tasks[j]) ==> Answered(s, s.tasks[j])
    ensures Stored(RunTask(s, i).tasks[j]) ==> Answered(RunTask(s, i), RunTask(s, i).tasks[j])
  {
    StepEffect(s, i);
  }

  lemma TracedRun(s: State, i: nat)
    requires Shape(s) && Traced(s) && i < |s.tasks|
    ensures Traced(RunTask(s, i))
  {
    var s' := RunTask(s, i);
    StepEffect(s, i);
    if s.tasks[i].at == Store && s.tasks[i].kind == Top {
      assert Stored(s'.tasks[i]);
    } else if s.lastIrq != 0 {
      var j :| 0 <= j < |s.tasks| && Stored(s.tasks[j]) && s.tasks[j].now == s.lastIrq;
      assert Stored(s'.tasks[j]);
    }
  }

  // A reader between its loads still sees the first value in place; a reader that has both
  // knows that an earlier bottom-half time meant an owed bottom half.
  predicate Reading(s: State, t: Task)
  {
    && (t.kind == Show && t.at == LoadBh ==> t.irqSeen == s.lastIrq)
    && (t.kind == Show && (t.at.Unlock? || t.at.UnlockMutex? || t.at.Done?) && t.bhSeen < t.irqSeen ==> t.owedThen)
  }

  ghost predicate AllReading(s: State)
  {
    forall i :: 0 <= i < |s.tasks| ==> Reading(s, s.tasks[i])
  }

  // The heart of the latency claim: an interrupt time after the bottom-half time means that
  // a bottom half is still to come.
  lemma LateMeansOwed(s: State)
    requires Shape(s) && AllAnswered(s) && Traced(s) && s.lastIrq > s.lastBh
    ensures Owed(s)
  {
    var i :| 0 <= i < |s.tasks| && Stored(s.tasks[i]) && s.tasks[i].now == s.lastIrq;
    assert Answered(s, s.tasks[i]);
    if !s.pending && !Announcing(s.tasks[i]) { assert Serving(s.tasks[0]); }
  }

  lemma ReadingStore(s: State, i: nat, j: nat)
    requires Locks(s) && i < |s.tasks| && j < |s.tasks| && s.tasks[i].at == Store
    requires Reading(s, s.tasks[j])
    ensures Reading(AtStore(s, i), AtStore(s, i).tasks[j]) || (i == j && s.tasks[j].kind == Show)
  {
    if InStats(s.tasks[j]) { Exclusive(s, i, j); }
  }

  lemma ReadingLoadBh(s: State, i: nat, j: nat)
    requires Shape(s) && AllAnswered(s) && Traced(s)
    requires i < |s.tasks| && j < |s.tasks| && s.tasks[i].at == LoadBh
    requires Reading(s, s.tasks[i]) && Reading(s, s.tasks[j])
    ensures Reading(AtLoadBh(s, i), AtLoadBh(s, i).tasks[j])
  {
    if s.lastIrq > s.lastBh { LateMeansOwed(s); }
  }

  // Every other step leaves both times alone.
  lemma ReadingElse(s: State, i: nat, j: nat)
    requires i < |s.tasks| && j < |s.tasks| && s.tasks[i].at != Store && s.tasks[i].at != LoadBh
    requires TaskOk(s.tasks[i]) && Reading(s, s.tasks[i]) && Reading(s, s.tasks[j])
    ensures Reading(RunTask(s, i), RunTask(s, i).tasks[j])
  {
  }

  lemma ReadingRun(s: State, i: nat, j: nat)
    requires Shape(s) && Locks(s) && AllAnswered(s) && Traced(s) && AllReading(s)
    requires i < |s.tasks| && j < |s.tasks|
    ensures Reading(RunTask(s, i), RunTask(s, i).tasks[j])
  {
    assert Reading(s, s.tasks[i]) && Reading(s, s.tasks[j]);
    match s.tasks[i].at
    case Store => ReadingStore(s, i, j);
    case LoadBh => ReadingLoadBh(s, i, j);
    case _ => ReadingElse(s, i, j);
  }

  ghost predicate Inv(s: State)
  {
    && Shape(s) && Locks(s) && Counted(s) && Conserved(s) && Trails(s)
    && Clocks(s) && AllAnswered(s) && Traced(s) && AllReading(s)
  }

  lemma RunTaskInv(s: State, i: nat)
    requires Inv(s) && i < |s.tasks|
    ensures Inv(RunTask(s, i))
  {
    var s' := RunTask(s, i);
    StepEffect(s, i);
    LocksRun(s, i);
    CountedRun(s, i);
    ConservedRun(s, i);
    TrailsEffect(s, i, s');
    ClocksRun(s, i);
    TracedRun(s, i);
    forall j | 0 <= j < |s'.tasks| && Stored(s'.tasks[j]) ensures Answered(s', s'.tasks[j]) {
      AnsweredRun(s, i, j);
    }
    forall j | 0 <= j < |s'.tasks| ensures Reading(s', s'.tasks[j]) {
      ReadingRun(s, i, j);
    }
  }

  lemma TalliesOpen(s: State, k: Kind)
    requires Locks(s) && Conserved(s) && k != Bottom
    ensures Locks(Next(s, Open(k))) && Conserved(Next(s, Open(k)))
  {
    T.Append(s.tasks, Fresh(k), HoldsStats());
    T.Append(s.tasks, Fresh(k), HoldsMutex());
    T.Append(s.tasks, Fresh(k), IsOwing());
  }

  lemma OpenInv(s: State, k: Kind)
    requires Inv(s) && k != Bottom
    ensures Inv(Next(s, Open(k)))
  {
    var s' := Next(s, Open(k));
    TalliesOpen(s, k);
    assert forall i :: 0 <= i < |s.tasks| ==> s'.tasks[i] == s.tasks[i];
    forall c: nat, j: nat ensures Has(s'.log, c, j) <==> j < |s'.tasks| && c < Zeroed(s'.tasks[j]) {
      assert Has(s.log, c, j) <==> j < |s.tasks| && c < Zeroed(s.tasks[j]);
    }
    forall j | 0 <= j < |s'.tasks| && Stored(s'.tasks[j]) ensures Answered(s', s'.tasks[j]) {
      assert Answered(s, s.tasks[j]);
    }
    forall j | 0 <= j < |s'.tasks| ensures Reading(s', s'.tasks[j]) {
      assert j < |s.tasks| ==> Reading(s, s.tasks[j]);
    }
  }

  lemma TickInv(s: State, d: nat)
    requires Inv(s)
    ensures Inv(s.(clock := s.clock + d))
  {
    var s' := s.(clock := s.clock + d);
    forall j | 0 <= j < |s'.tasks| && Stored(s'.tasks[j]) ensures Answered(s', s'.tasks[j]) {
      assert Answered(s, s.tasks[j]);
    }
    forall j | 0 <= j < |s'.tasks| ensures Reading(s', s'.tasks[j]) {
      assert Reading(s, s.tasks[j]);
    }
  }

  lemma InitInv(clock: nat)
    ensures Inv(Init(clock))
  {
    var s := Init(clock);
    assert s.tasks[..0] == [];
    T.Append([], Fresh(Bottom), HoldsStats());
    T.Append([], Fresh(Bottom), HoldsMutex());
    T.Append([], Fresh(Bottom), IsOwing());
    assert [] + [Fresh(Bottom)] == s.tasks;
  }

  lemma StepInv(s: State, m: Move)
    requires Inv(s)
    ensures Inv(Next(s, m))
  {
    match m
    case Run(i) => if i < |s.tasks| { RunTaskInv(s, i); }
    case Open(k) => if k != Bottom { OpenInv(s, k); }
    case Tick(d) => TickInv(s, d);
  }

  lemma {:induction false} RunInv(clock: nat, moves: seq<Move>)
    ensures Inv(Exec(Init(clock), moves))
  {
    if moves == [] {
      InitInv(clock);
    } else {
      RunInv(clock, moves[..|moves| - 1]);
      StepInv(Exec(Init(clock), moves[..|moves| - 1]), moves[|moves| - 1]);
    }
  }

  // The states of all runs, whatever the clock shows at the start.
  ghost predicate Reachable(s: State)
  {
    exists clock: nat, moves: seq<Move> :: s == Exec(Init(clock), moves)
  }

  lemma ReachableInv(s: State)
    requires Reachable(s)
    ensures Inv(s)
  {
    var clock: nat, moves: seq<Move> :| s == Exec(Init(clock), moves);
    RunInv(clock, moves);
  }
}
