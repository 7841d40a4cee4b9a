// What the interrupt protocol of tutorial-05 guarantees in every reachable state, that is,
// after every interleaving of any number of top halves, resets and readers with the worker.
module IrqTheorems {
  import opened Int32
  import opened Ledger
  import opened IrqModel
  import opened IrqInvariants

  // ---- No lost bottom half, and the printed latency ----

  // An interrupt time later than the bottom-half time appears only while a bottom half is
  // still to come.
  lemma LateInterruptIsOwed(s: State)
    requires Reachable(s) && s.lastIrq > s.lastBh
    ensures Owed(s)
  {
    ReachableInv(s);
    LateMeansOwed(s);
  }

  // No interrupt is lost, though their bottom halves merge: once its time is stored, either
  // a bottom half is still to come or one has stored a time no earlier than the interrupt's.
  lemma NoLostBottomHalf(s: State, i: nat)
    requires Reachable(s) && i < |s.tasks| && Stored(s.tasks[i])
    ensures Owed(s) || s.tasks[i].now <= s.lastBh
  {
    ReachableInv(s);
    assert Answered(s, s.tasks[i]);
    if !s.pending && s.tasks[i].now > s.lastBh {
      assert Announcing(s.tasks[i]) || Serving(s.tasks[0]);
    }
  }

  // A report prints a negative latency only if a bottom half was owed when it had read both
  // times: the pair is one state's, not a mixture.
  lemma NegativeLatencyMeansOwed(s: State, i: nat)
    requires Reachable(s) && i < |s.tasks| && s.tasks[i].kind == Show
    requires s.tasks[i].at.Unlock? || s.tasks[i].at.UnlockMutex? || s.tasks[i].at.Done?
    ensures Report(s.tasks[i]).Latency? && Report(s.tasks[i]).ns < 0 ==> s.tasks[i].owedThen
  {
    ReachableInv(s);
    assert Reading(s, s.tasks[i]);
  }

  // The pair a reader is about to complete is the pair of that very moment.
  lemma PairIsConsistent(s: State, i: nat)
    requires Reachable(s) && i < |s.tasks| && s.tasks[i].kind == Show && s.tasks[i].at == LoadBh
    ensures var t := AtLoadBh(s, i).tasks[i];
      (t.irqSeen, t.bhSeen, t.owedThen) == (s.lastIrq, s.lastBh, Owed(s))
  {
    ReachableInv(s);
    assert Reading(s, s.tasks[i]);
  }

  // What the report of a reader at its second load will print: the bottom-half time of that
  // moment less the interrupt time of that moment, negative or not; nothing if either is zero.
  lemma ReportExactly(s: State, i: nat)
    requires Reachable(s) && i < |s.tasks| && s.tasks[i].kind == Show && s.tasks[i].at == LoadBh
    ensures var report := Report(RunTask(s, i).tasks[i]);
      if s.lastIrq == 0 || s.lastBh == 0 then report == Nothing
      else report.Latency? && s.lastIrq + report.ns == s.lastBh
  {
    PairIsConsistent(s, i);
  }

  // No later step of anybody changes it.
  lemma ReportStays(s: State, m: Move, i: nat)
    requires Reachable(s) && i < |s.tasks| && s.tasks[i].kind == Show
    requires s.tasks[i].at.Unlock? || s.tasks[i].at.UnlockMutex? || s.tasks[i].at.Done?
    ensures var t' := Next(s, m).tasks[i];
      && Report(t') == Report(s.tasks[i]) && t'.owedThen == s.tasks[i].owedThen
      && t'.kind == Show && (t'.at.Unlock? || t'.at.UnlockMutex? || t'.at.Done?)
  {
    ReachableInv(s);
    if m.Run? && m.task < |s.tasks| { StepEffect(s, m.task); }
  }

  // ---- Conservation ----

  // What the history says is still to come.
  function Debt(log: Log): int { Total(log, IRQ) - Total(log, BH) - Total(log, MERGED) }

  lemma DebtIsOutstanding(s: State)
    requires Reachable(s)
    ensures Debt(s.log) == Outstanding(s)
  {
    ReachableInv(s);
  }

  predicate NoResets(s: State) { forall i :: 0 <= i < |s.tasks| ==> s.tasks[i].kind != Reset }

  lemma CountsAreTotals(s: State, c: nat)
    requires Reachable(s) && NoResets(s) && c <= DELAYED
    ensures s.counts[c] == Wrap(Total(s.log, c))
  {
    ReachableInv(s);
    assert forall i: nat :: !Has(s.log, c, i);
    NeverZeroed(s.log, c);
    ValueSinceZero(s.log, c);
  }

  // Without resets every interrupt counted is a bottom half counted, merged into one, or
  // outstanding: of the 32-bit counters, modulo 2^32.
  lemma Conservation(s: State)
    requires Reachable(s) && NoResets(s)
    ensures s.counts[IRQ] == Wrap(s.counts[BH] + Total(s.log, MERGED) + Outstanding(s))
  {
    assert Debt(s.log) == Outstanding(s) by { DebtIsOutstanding(s); }
    CountsAreTotals(s, IRQ);
    CountsAreTotals(s, BH);
    WrapSum(Total(s.log, BH), Total(s.log, MERGED) + Outstanding(s));
  }

  // With any resets: s0 is the state in which the latest store to irq_count left the run.
  // What bottom_half_count shows, what its resets since took away, what merged since and
  // what is outstanding now add up to what irq_count shows and what was outstanding then.
  lemma ConservationAcrossResets(s0: State, s: State)
    requires Reachable(s0) && Reachable(s) && s0.log == AtZero(s.log, IRQ)
    ensures Value(s.log, BH)
              + (Total(AtZero(s.log, BH), BH) - Total(s0.log, BH))
              + (Total(s.log, MERGED) - Total(s0.log, MERGED))
              + Outstanding(s)
         == Value(s.log, IRQ) + Outstanding(s0)
    ensures forall c: nat :: c <= DELAYED ==> s.counts[c] == Wrap(Value(s.log, c))
  {
    DebtIsOutstanding(s0);
    DebtIsOutstanding(s);
    ReachableInv(s);
    ValueSinceZero(s.log, IRQ);
    ValueSinceZero(s.log, BH);
  }

  // Once the reset that last zeroed irq_count has also zeroed bottom_half_count, the latter
  // exceeds the former by at most what was outstanding at that last zeroing.
  lemma DebtBound(s0: State, s: State)
    requires Reachable(s0) && Reachable(s) && s0.log == AtZero(s.log, IRQ)
    requires s0.log.Snoc? && s0.log.last.who < |s.tasks| && Zeroed(s.tasks[s0.log.last.who]) > BH
    ensures Value(s.log, BH) <= Value(s.log, IRQ) + Outstanding(s0)
    ensures Value(s.log, IRQ) < HALF ==> s.counts[BH] <= s.counts[IRQ] + Outstanding(s0)
  {
    ConservationAcrossResets(s0, s);
    ReachableInv(s);
    assert Has(s.log, BH, s0.log.last.who);
    LaterZeroIsYounger(s.log, IRQ, BH);
    TotalGrows(s.log, IRQ, BH, BH);
    TotalAtZero(s.log, IRQ, MERGED);
    ValueSinceZero(s.log, IRQ);
    ValueSinceZero(s.log, BH);
    WrapAtMost(Value(s.log, BH));
  }

  // Such an s0 exists in every run: the run passed through it.
  lemma {:induction false} ZeroingState(clock: nat, moves: seq<Move>, c: nat) returns (n: nat)
    ensures n <= |moves|
    ensures Exec(Init(clock), moves[..n]).log == AtZero(Exec(Init(clock), moves).log, c)
  {
    if moves == [] {
      n := 0;
    } else {
      var before := moves[..|moves| - 1];
      n := ZeroingState(clock, before, c);
      var s, s' := Exec(Init(clock), before), Exec(Init(clock), moves);
      assert before[..n] == moves[..n];
      RunInv(clock, before);
      if moves[|moves| - 1].Run? && moves[|moves| - 1].task < |s.tasks| {
        StepEffect(s, moves[|moves| - 1].task);
      }
      if AtZero(s'.log, c) == s'.log && s'.log != s.log {
        n := |moves|;
        assert moves[..n] == moves;
      }
    }
  }
}
