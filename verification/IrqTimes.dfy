// When the two times of tutorial-05 go back: the bottom half's never does, the interrupt's
// does exactly when a top half that has been overtaken stores its own.
module IrqTimes {
  import opened IrqModel
  import opened IrqInvariants

  // ---- One step ----

  // A top half about to store its time.
  predicate Storing(s: State, m: Move, i: nat)
  {
    m == Run(i) && i < |s.tasks| && s.tasks[i].kind == Top && s.tasks[i].at == Store
  }

  lemma OnlyStoresSetIrqTime(s: State, m: Move)
    requires Shape(s) && Next(s, m).lastIrq != s.lastIrq
    ensures m.Run? && Storing(s, m, m.task) && Next(s, m).lastIrq == s.tasks[m.task].now
  {
    assert m.Run? && m.task < |s.tasks|;
    assert TaskOk(s.tasks[m.task]);
  }

  lemma StoreSetsIrqTime(s: State, m: Move, i: nat)
    requires Storing(s, m, i)
    ensures Next(s, m).lastIrq == s.tasks[i].now
  {
  }

  // A step sets last_irq_time back exactly when it is the store of a top half whose time is
  // before that of another one, which has stored the time that stands.
  lemma IrqTimeGoesBackExactly(s: State, m: Move)
    requires Reachable(s)
    ensures Next(s, m).lastIrq < s.lastIrq <==>
      exists i: nat, j: nat :: (Storing(s, m, i) && j < |s.tasks| && Stored(s.tasks[j])
                                && s.tasks[j].now == s.lastIrq && s.tasks[i].now < s.tasks[j].now)
  {
    ReachableInv(s);
    if Next(s, m).lastIrq < s.lastIrq {
      OnlyStoresSetIrqTime(s, m);
      var j :| 0 <= j < |s.tasks| && Stored(s.tasks[j]) && s.tasks[j].now == s.lastIrq;
      assert Storing(s, m, m.task) && s.tasks[m.task].now < s.tasks[j].now;
    }
    if i: nat, j: nat :| (Storing(s, m, i) && j < |s.tasks| && Stored(s.tasks[j])
                          && s.tasks[j].now == s.lastIrq && s.tasks[i].now < s.tasks[j].now) {
      StoreSetsIrqTime(s, m, i);
    }
  }

  lemma OnlyTheWorkerSetsBhTime(s: State, m: Move)
    requires Shape(s) && Next(s, m).lastBh != s.lastBh
    ensures s.tasks[0].at == Store && Next(s, m).lastBh == s.tasks[0].now
  {
    assert m.Run? && m.task < |s.tasks|;
    assert TaskOk(s.tasks[m.task]);
  }

  // No step sets last_bh_time back: there is one worker, and its times grow.
  lemma BhTimeNeverGoesBack(s: State, m: Move)
    requires Reachable(s)
    ensures Next(s, m).lastBh >= s.lastBh
  {
    assert Shape(s) && Clocks(s) by { ReachableInv(s); }
    if Next(s, m).lastBh != s.lastBh { OnlyTheWorkerSetsBhTime(s, m); }
  }

  // ---- Whole runs ----

  // The state of a run after its first n moves.
  function At(clock: nat, moves: seq<Move>, n: nat): State
    requires n <= |moves|
  {
    Exec(Init(clock), moves[..n])
  }

  lemma AtStep(clock: nat, moves: seq<Move>, n: nat)
    requires n < |moves|
    ensures At(clock, moves, n + 1) == Next(At(clock, moves, n), moves[n])
    ensures Reachable(At(clock, moves, n))
  {
    assert moves[..n + 1][..n] == moves[..n];
  }

  // Along every run last_bh_time never decreases.
  lemma {:induction false} BhTimeGrows(clock: nat, moves: seq<Move>, m: nat, n: nat)
    requires m <= n <= |moves|
    ensures At(clock, moves, m).lastBh <= At(clock, moves, n).lastBh
  {
    if m < n {
      BhTimeGrows(clock, moves, m, n - 1);
      AtStep(clock, moves, n - 1);
      var s := At(clock, moves, n - 1);
      BhTimeNeverGoesBack(s, moves[n - 1]);
    }
  }

  // Move n of the run sets last_irq_time back.
  predicate GoesBack(clock: nat, moves: seq<Move>, n: nat)
  {
    n < |moves| && At(clock, moves, n + 1).lastIrq < At(clock, moves, n).lastIrq
  }

  // A top half that has its time and has not stored it.
  predicate Holding(t: Task) { t.kind == Top && (t.at.Count? || t.at.Want? || t.at.Store?) }

  predicate Stamped(s: State, i: nat) { i < |s.tasks| && Holding(s.tasks[i]) }

  // Move m overtakes top half i: another one, with a later time, stores first.
  predicate Overtakes(s: State, m: Move, i: nat)
  {
    m.Run? && Storing(s, m, m.task) && Stamped(s, i) && s.tasks[i].now < s.tasks[m.task].now
  }

  predicate OvertakenAt(clock: nat, moves: seq<Move>, n: nat, i: nat)
  {
    n < |moves| && Overtakes(At(clock, moves, n), moves[n], i)
  }

  predicate StoresAt(clock: nat, moves: seq<Move>, n: nat, i: nat)
  {
    n < |moves| && Storing(At(clock, moves, n), moves[n], i)
  }

  // What its own steps do to a top half: it takes the clock's time once and keeps it.
  lemma OwnStep(s: State, i: nat)
    requires i < |s.tasks| && TaskOk(s.tasks[i]) && s.tasks[i].kind == Top
    ensures var t, t' := s.tasks[i], RunTask(s, i).tasks[i];
      && (Holding(t') ==> if Holding(t) then t'.now == t.now else t.at == Stamp && t'.now == s.clock)
      && (Holding(t) || Stored(t) ==> Holding(t') || Stored(t'))
  {
    match s.tasks[i].at
    case Stamp => case Count => case Want => case Store => case Unlock => case Queue => case Done =>
  }

  lemma TopStep(s: State, m: Move, i: nat)
    requires Shape(s) && i < |Next(s, m).tasks| && Next(s, m).tasks[i].kind == Top
    ensures var t' := Next(s, m).tasks[i];
      && (Stamped(s, i) || (i < |s.tasks| && Stored(s.tasks[i])) ==> Holding(t') || Stored(t'))
      && (Holding(t') && Stamped(s, i) ==> t'.now == s.tasks[i].now)
      && (Holding(t') && !Stamped(s, i) ==> t'.now == s.clock && Next(s, m).lastIrq == s.lastIrq)
  {
    if m.Run? && m.task < |s.tasks| { StepEffect(s, m.task); }
    if m == Run(i) && i < |s.tasks| { OwnStep(s, i); }
  }

  lemma IrqTimeIsPast(s: State)
    requires Inv(s)
    ensures s.lastIrq <= s.clock
  {
    if s.lastIrq != 0 {
      var j :| 0 <= j < |s.tasks| && Stored(s.tasks[j]) && s.tasks[j].now == s.lastIrq;
    }
  }

  // One step, seen from a top half i with its time: a later time appears in last_irq_time
  // only by overtaking i.
  lemma StampedStep(s: State, m: Move, i: nat)
    requires Inv(s) && Stamped(Next(s, m), i)
    ensures var now' := Next(s, m).tasks[i].now;
      if Stamped(s, i) then
        && now' == s.tasks[i].now
        && (Next(s, m).lastIrq == s.lastIrq || Overtakes(s, m, i) || Next(s, m).lastIrq <= now')
      else Next(s, m).lastIrq <= now'
  {
    TopStep(s, m, i);
    IrqTimeIsPast(s);
    if Next(s, m).lastIrq != s.lastIrq { OnlyStoresSetIrqTime(s, m); }
  }

  // Whoever holds a time earlier than the one that stands has been overtaken.
  lemma {:induction false} EarlierMeansOvertaken(clock: nat, moves: seq<Move>, n: nat, i: nat) returns (m: nat)
    requires n <= |moves| && Stamped(At(clock, moves, n), i)
    requires At(clock, moves, n).tasks[i].now < At(clock, moves, n).lastIrq
    ensures m < n && OvertakenAt(clock, moves, m, i)
  {
    assert moves[..0] == [];
    AtStep(clock, moves, n - 1);
    var s := At(clock, moves, n - 1);
    ReachableInv(s);
    StampedStep(s, moves[n - 1], i);
    if Overtakes(s, moves[n - 1], i) {
      m := n - 1;
    } else {
      m := EarlierMeansOvertaken(clock, moves, n - 1, i);
    }
  }

  // A top half that has its time either still has to store it or has stored it.
  lemma KeepsHavingIt(s: State, m: Move, i: nat, next: State)
    requires Shape(s) && next == Next(s, m) && i < |s.tasks|
    requires Holding(s.tasks[i]) || Stored(s.tasks[i])
    ensures i < |next.tasks| && (Holding(next.tasks[i]) || Stored(next.tasks[i]))
  {
    if m.Run? && m.task < |s.tasks| { StepEffect(s, m.task); }
    TopStep(s, m, i);
  }

  lemma {:induction false} HasItsTime(clock: nat, moves: seq<Move>, m: nat, n: nat, i: nat)
    requires m <= n <= |moves| && Stamped(At(clock, moves, m), i)
    ensures i < |At(clock, moves, n).tasks|
    ensures Holding(At(clock, moves, n).tasks[i]) || Stored(At(clock, moves, n).tasks[i])
  {
    if m < n {
      HasItsTime(clock, moves, m, n - 1, i);
      AtStep(clock, moves, n - 1);
      var s, next := At(clock, moves, n - 1), At(clock, moves, n);
      assert Shape(s) by { ReachableInv(s); }
      KeepsHavingIt(s, moves[n - 1], i, next);
    }
  }

  // A time once stored is not held again.
  lemma StoredStays(s: State, m: Move, i: nat, next: State)
    requires Shape(s) && i < |s.tasks| && next == Next(s, m) && Stamped(next, i)
    requires Holding(s.tasks[i]) || Stored(s.tasks[i])
    ensures Stamped(s, i)
  {
    if m.Run? && m.task < |s.tasks| { StepEffect(s, m.task); }
    if m == Run(i) { OwnStep(s, i); }
  }

  // Between being overtaken and its store it is on its way to it.
  lemma StaysStamped(clock: nat, moves: seq<Move>, m: nat, n: nat, i: nat)
    requires m <= n < |moves| && Stamped(At(clock, moves, m), i) && Stamped(At(clock, moves, n + 1), i)
    ensures Stamped(At(clock, moves, n), i)
  {
    HasItsTime(clock, moves, m, n, i);
    AtStep(clock, moves, n);
    ReachableInv(At(clock, moves, n));
    StoredStays(At(clock, moves, n), moves[n], i, At(clock, moves, n + 1));
  }

  lemma KeepsItsTime(s: State, m: Move, i: nat, next: State)
    requires Shape(s) && next == Next(s, m) && Stamped(s, i) && Stamped(next, i)
    ensures next.tasks[i].now == s.tasks[i].now
  {
    TopStep(s, m, i);
  }

  lemma OvertakingPutsBehind(s: State, m: Move, i: nat, next: State)
    requires Shape(s) && next == Next(s, m) && Overtakes(s, m, i) && Stamped(next, i)
    ensures next.tasks[i].now < next.lastIrq
  {
    KeepsItsTime(s, m, i, next);
    StoreSetsIrqTime(s, m, m.task);
  }

  // An overtaken top half that has not stored stays behind the time that stands, in a stretch
  // of a run that does not go back.
  lemma {:induction false} OvertakenStaysBehind(clock: nat, moves: seq<Move>, m: nat, n: nat, i: nat)
    requires m < n <= |moves| && OvertakenAt(clock, moves, m, i) && Stamped(At(clock, moves, n), i)
    requires forall k: nat :: m < k < n ==> !GoesBack(clock, moves, k)
    ensures At(clock, moves, n).tasks[i].now < At(clock, moves, n).lastIrq
  {
    AtStep(clock, moves, n - 1);
    var s, next := At(clock, moves, n - 1), At(clock, moves, n);
    assert Shape(s) by { ReachableInv(s); }
    if m == n - 1 {
      OvertakingPutsBehind(s, moves[m], i, next);
    } else {
      StaysStamped(clock, moves, m, n - 1, i);
      OvertakenStaysBehind(clock, moves, m, n - 1, i);
      KeepsItsTime(s, moves[n - 1], i, next);
      assert !GoesBack(clock, moves, n - 1);
    }
  }

  // A step back is the store of a top half overtaken before.
  lemma OvertakenBefore(clock: nat, moves: seq<Move>, n: nat) returns (m: nat, i: nat)
    requires GoesBack(clock, moves, n)
    ensures m < n && OvertakenAt(clock, moves, m, i) && StoresAt(clock, moves, n, i)
  {
    AtStep(clock, moves, n);
    ReachableInv(At(clock, moves, n));
    OnlyStoresSetIrqTime(At(clock, moves, n), moves[n]);
    i := moves[n].task;
    m := EarlierMeansOvertaken(clock, moves, n, i);
  }

  // From the overtaking to the overtaken one's store there is a step back.
  lemma BackAfterOvertaking(clock: nat, moves: seq<Move>, m: nat, n: nat, i: nat) returns (k: nat)
    requires m < n && OvertakenAt(clock, moves, m, i) && StoresAt(clock, moves, n, i)
    ensures m < k <= n && GoesBack(clock, moves, k)
  {
    AtStep(clock, moves, m);
    StoreSetsIrqTime(At(clock, moves, m), moves[m], moves[m].task);
    if k' : nat :| m < k' < n && GoesBack(clock, moves, k') {
      k := k';
    } else {
      k := n;
      OvertakenStaysBehind(clock, moves, m, n, i);
      AtStep(clock, moves, n);
      StoreSetsIrqTime(At(clock, moves, n), moves[n], i);
    }
  }

  // Along any run last_irq_time goes back at some step if and only if some top half is
  // overtaken between its timestamp and its store and then makes that store.
  lemma RunGoesBackExactly(clock: nat, moves: seq<Move>)
    ensures (exists n: nat :: GoesBack(clock, moves, n)) <==>
      exists m: nat, n: nat, i: nat :: m < n && OvertakenAt(clock, moves, m, i) && StoresAt(clock, moves, n, i)
  {
    if n: nat :| GoesBack(clock, moves, n) {
      var m, i := OvertakenBefore(clock, moves, n);
      assert m < n && OvertakenAt(clock, moves, m, i) && StoresAt(clock, moves, n, i);
    }
    if m: nat, n: nat, i: nat :| m < n && OvertakenAt(clock, moves, m, i) && StoresAt(clock, moves, n, i) {
      var k := BackAfterOvertaking(clock, moves, m, n, i);
    }
  }

  // So last_irq_time never decreases along a run in which nobody is overtaken.
  lemma {:induction false} IrqTimeGrows(clock: nat, moves: seq<Move>, m: nat, n: nat)
    requires m <= n <= |moves|
    requires forall k: nat, i: nat :: !OvertakenAt(clock, moves, k, i)
    ensures At(clock, moves, m).lastIrq <= At(clock, moves, n).lastIrq
  {
    if m < n {
      IrqTimeGrows(clock, moves, m, n - 1);
      if GoesBack(clock, moves, n - 1) {
        var k, i := OvertakenBefore(clock, moves, n - 1);
      }
    }
  }
}
