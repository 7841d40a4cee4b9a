// When no further interrupt comes, every schedule of tutorial-05 that keeps making steps
// ends quiescent, with every interrupt answered.
module IrqProgress {
  import opened Basics
  import opened Int32
  import opened IrqModel
  import opened IrqInvariants
  import opened IrqTheorems
  import T = Tally

  // The steps a context still has to make, counting for a top half the worker's run that
  // its queue_work may cause.
  function Left(t: Task): nat
  {
    match t.at
    case Idle => 0
    case Stamp => 7 + Extra(t)
    case Count => 6 + Extra(t)
    case Want => 5 + Extra(t)
    case Store => 4 + Extra(t)
    case LoadIrq => 4
    case LoadBh => 3
    case Unlock => 2 + Extra(t)
    case Queue => 10
    case Zeroing(c) => if c <= DELAYED then 3 - c else 0
    case WantMutex => 6
    case UnlockMutex => 1
    case Done => 0
  }

  function Extra(t: Task): nat { if t.kind == Top then 9 else 0 }

  function StepsOf(): Task -> nat { t => Left(t) }

  function Work(s: State): nat { T.Sum(s.tasks, StepsOf()) + 8 * Bit(s.pending) }

  predicate CanStep(s: State, i: nat)
    requires i < |s.tasks|
  {
    RunTask(s, i) != s
  }

  // A step moves a context to a point with less left, except that the worker takes, and a
  // top half makes, a pending item.
  lemma LeftAtItem(s: State, i: nat)
    requires i < |s.tasks| && TaskOk(s.tasks[i]) && CanStep(s, i)
    requires s.tasks[i].at.Idle? || s.tasks[i].at.Queue?
    ensures var s' := RunTask(s, i);
      Left(s'.tasks[i]) + 8 * Bit(s'.pending) < Left(s.tasks[i]) + 8 * Bit(s.pending)
  {
  }

  predicate AtLock(t: Task) { t.at.Want? || t.at.WantMutex? || t.at.Unlock? || t.at.UnlockMutex? }

  lemma LeftAtLock(s: State, i: nat)
    requires i < |s.tasks| && TaskOk(s.tasks[i]) && CanStep(s, i) && AtLock(s.tasks[i])
    ensures Left(RunTask(s, i).tasks[i]) < Left(s.tasks[i]) && RunTask(s, i).pending == s.pending
  {
  }

  lemma LeftElsewhere(s: State, i: nat)
    requires i < |s.tasks| && TaskOk(s.tasks[i]) && CanStep(s, i)
    requires !s.tasks[i].at.Idle? && !s.tasks[i].at.Queue? && !AtLock(s.tasks[i])
    ensures Left(RunTask(s, i).tasks[i]) < Left(s.tasks[i]) && RunTask(s, i).pending == s.pending
  {
  }

  lemma LeftDecreases(s: State, i: nat)
    requires i < |s.tasks| && TaskOk(s.tasks[i]) && CanStep(s, i)
    ensures var s' := RunTask(s, i);
      Left(s'.tasks[i]) + 8 * Bit(s'.pending) < Left(s.tasks[i]) + 8 * Bit(s.pending)
  {
    if s.tasks[i].at.Idle? || s.tasks[i].at.Queue? {
      LeftAtItem(s, i);
    } else if AtLock(s.tasks[i]) {
      LeftAtLock(s, i);
    } else {
      LeftElsewhere(s, i);
    }
  }

  // Every effective step is one less to make, so without new contexts no schedule can go
  // on for ever.
  lemma WorkDecreases(s: State, i: nat)
    requires Reachable(s) && i < |s.tasks| && CanStep(s, i)
    ensures Work(RunTask(s, i)) < Work(s)
  {
    assert TaskOk(s.tasks[i]) by { ReachableInv(s); }
    LeftDecreases(s, i);
    StepEffect(s, i);
    T.SumUpdate(s.tasks, i, RunTask(s, i).tasks[i], StepsOf());
  }

  // All contexts are done and the worker has nothing to do.
  predicate Quiescent(s: State)
  {
    !s.pending && forall i :: 0 <= i < |s.tasks| ==> s.tasks[i].at.Done? || s.tasks[i].at.Idle?
  }

  lemma Unblocked(s: State, i: nat)
    requires i < |s.tasks| && !s.tasks[i].at.Done?
    requires s.tasks[i].at.Idle? ==> s.pending
    requires s.tasks[i].at.Want? ==> !s.statsLock
    requires s.tasks[i].at.WantMutex? ==> !s.procMutex
    ensures CanStep(s, i)
  {
    assert RunTask(s, i).tasks[i].at != s.tasks[i].at;
  }

  lemma DeadlockFree(s: State) returns (j: nat)
    requires Reachable(s) && !Quiescent(s)
    ensures j < |s.tasks| && CanStep(s, j)
  {
    ReachableInv(s);
    if s.statsLock {
      j := T.Witness(s.tasks, HoldsStats());
    } else if s.procMutex {
      j := T.Witness(s.tasks, HoldsMutex());
    } else if s.pending {
      j := 0;
    } else {
      var i :| 0 <= i < |s.tasks| && !s.tasks[i].at.Done? && !s.tasks[i].at.Idle?;
      j := i;
    }
    Unblocked(s, j);
  }

  lemma {:induction false} ExecAppend(s: State, a: seq<Move>, b: seq<Move>)
    ensures Exec(s, a + b) == Exec(Exec(s, a), b)
  {
    if b == [] {
      assert a + b == a;
    } else {
      var n := |b| - 1;
      assert (a + b)[..|a + b| - 1] == a + b[..n];
      ExecAppend(s, a, b[..n]);
    }
  }

  // Exec peels its last move; this peels the first.
  lemma RunFirst(s: State, i: nat, rest: seq<Move>)
    requires i < |s.tasks|
    ensures Exec(s, [Run(i)] + rest) == Exec(RunTask(s, i), rest)
  {
    ExecAppend(s, [Run(i)], rest);
    assert [Run(i)][..0] == [];
  }

  lemma ReachableStep(s: State, i: nat)
    requires Reachable(s) && i < |s.tasks|
    ensures Reachable(RunTask(s, i))
  {
    var clock: nat, moves: seq<Move> :| s == Exec(Init(clock), moves);
    ExecAppend(Init(clock), moves, [Run(i)]);
    RunFirst(s, i, []);
  }

  lemma AllAnswered(s: State)
    requires Reachable(s) && Quiescent(s)
    ensures !Owed(s) && s.lastIrq <= s.lastBh
    ensures forall i :: 0 <= i < |s.tasks| && s.tasks[i].kind == Top ==> s.tasks[i].now <= s.lastBh
  {
    ReachableInv(s);
    forall i | 0 <= i < |s.tasks| && s.tasks[i].kind == Top ensures s.tasks[i].now <= s.lastBh {
      assert s.tasks[i].at.Done?;
      NoLostBottomHalf(s, i);
    }
    if s.lastIrq > s.lastBh { LateInterruptIsOwed(s); }
  }

  // From every reachable state at most Work(s) steps of the contexts there are lead to
  // quiescence, and there a bottom half has answered every interrupt.
  lemma {:induction false} BottomHalfComes(s: State) returns (moves: seq<Move>)
    requires Reachable(s)
    ensures |moves| <= Work(s) && forall k :: 0 <= k < |moves| ==> moves[k].Run?
    ensures var e := Exec(s, moves);
      && Quiescent(e) && !Owed(e) && e.lastIrq <= e.lastBh
      && forall i :: 0 <= i < |e.tasks| && e.tasks[i].kind == Top ==> e.tasks[i].now <= e.lastBh
    decreases Work(s)
  {
    if Quiescent(s) {
      moves := [];
      AllAnswered(s);
    } else {
      var j := DeadlockFree(s);
      WorkDecreases(s, j);
      ReachableStep(s, j);
      var rest := BottomHalfComes(RunTask(s, j));
      RunFirst(s, j, rest);
      moves := [Run(j)] + rest;
    }
  }

  // ---- What an interrupt, a reset and a delayed run are for ----

  lemma {:induction false} TopsKeepTheirTime(s: State, moves: seq<Move>, i: nat)
    requires Shape(s) && i < |s.tasks| && s.tasks[i] == Fresh(Top)
    requires forall k :: 0 <= k < |moves| ==> moves[k].Run?
    ensures var e := Exec(s, moves);
      && Shape(e) && e.clock == s.clock && i < |e.tasks| && e.tasks[i].kind == Top
      && (e.tasks[i].at != Stamp ==> e.tasks[i].now == s.clock)
  {
    if moves != [] {
      var before := Exec(s, moves[..|moves| - 1]);
      TopsKeepTheirTime(s, moves[..|moves| - 1], i);
      var j := moves[|moves| - 1].task;
      if j < |before.tasks| {
        StepEffect(before, j);
        TimeOnlyAtStamp(before, j);
      }
    }
  }

  lemma TimeOnlyAtStamp(s: State, i: nat)
    requires i < |s.tasks| && TaskOk(s.tasks[i])
    ensures RunTask(s, i).tasks[i].now == if s.tasks[i].at == Stamp then s.clock else s.tasks[i].now
    ensures s.tasks[i].at != Stamp ==> s.tasks[i].at == Idle || RunTask(s, i).tasks[i].at != Stamp
  {
  }

  lemma ReachableOpen(s: State, k: Kind)
    requires Reachable(s)
    ensures Reachable(Next(s, Open(k)))
  {
    var clock: nat, moves: seq<Move> :| s == Exec(Init(clock), moves);
    assert (moves + [Open(k)])[..|moves|] == moves;
    assert Next(s, Open(k)) == Exec(Init(clock), moves + [Open(k)]);
  }

  // An interrupt at any reachable moment is carried through and served: a bounded number of
  // steps ends with its time taken at that moment, its top half done, and a bottom half that
  // has stored a time no earlier.
  lemma InterruptIsServed(s: State) returns (rest: seq<Move>)
    requires Reachable(s)
    ensures |rest| <= Work(Next(s, Open(Top))) && forall k :: 0 <= k < |rest| ==> rest[k].Run?
    ensures var e, i := Exec(Next(s, Open(Top)), rest), |s.tasks|;
      && Quiescent(e) && i < |e.tasks|
      && e.tasks[i].kind == Top && e.tasks[i].at == Done && e.tasks[i].now == s.clock
      && s.clock <= e.lastBh && e.lastIrq <= e.lastBh
  {
    var begun, i := Next(s, Open(Top)), |s.tasks|;
    ReachableOpen(s, Top);
    rest := BottomHalfComes(begun);
    assert Shape(begun) by { ReachableInv(begun); }
    TopsKeepTheirTime(begun, rest, i);
    var e := Exec(begun, rest);
    assert TaskOk(e.tasks[i]);
  }

  lemma RunThree(s: State, i: nat)
    ensures Exec(s, [Run(i), Run(i), Run(i)]) == Next(Next(Next(s, Run(i)), Run(i)), Run(i))
  {
    var one, two, three := [Run(i)], [Run(i), Run(i)], [Run(i), Run(i), Run(i)];
    assert one[..0] == [] && two[..1] == one && three[..2] == two;
    assert Exec(s, two) == Next(Exec(s, one), Run(i));
  }

  // A reset at any moment, undisturbed, leaves all three counters zero, and nothing else of
  // the protocol changed.
  lemma ResetClears(s: State)
    requires |s.tasks| > 0
    ensures var i := |s.tasks|;
      var e := Exec(Next(s, Open(Reset)), [Run(i), Run(i), Run(i)]);
      && e.counts == [0, 0, 0]
      && e == s.(counts := e.counts, tasks := s.tasks + [Fresh(Reset).(at := Done)], log := e.log)
  {
    var i := |s.tasks|;
    var s0 := Next(s, Open(Reset));
    RunThree(s0, i);
    var s1 := AtZeroing(s0, i, IRQ);
    assert s1.tasks == s.tasks + [Fresh(Reset).(at := Zeroing(BH))];
    var s2 := AtZeroing(s1, i, BH);
    assert s2.tasks == s.tasks + [Fresh(Reset).(at := Zeroing(DELAYED))];
    var s3 := AtZeroing(s2, i, DELAYED);
    assert s3.tasks == s.tasks + [Fresh(Reset).(at := Done)];
    assert s3.counts == [0, 0, 0];
    assert Next(s0, Run(i)) == s1 && Next(s1, Run(i)) == s2 && Next(s2, Run(i)) == s3;
  }

  // A run of the delayed work counts itself, wrapping, and touches neither of the others.
  lemma DelayedRunCounts(s: State)
    ensures var e := Next(Next(s, Open(Delayed)), Run(|s.tasks|));
      && e.counts == [s.counts[IRQ], s.counts[BH], Wrap(s.counts[DELAYED] + 1)]
      && e.tasks == s.tasks + [Fresh(Delayed).(at := Done)]
  {
    var s0 := Next(s, Open(Delayed));
    assert RunTask(s0, |s.tasks|) == AtCount(s0, |s.tasks|);
  }
}
