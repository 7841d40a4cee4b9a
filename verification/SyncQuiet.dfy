// Runs of tutorial-04 in which nobody resets: what a report shows, and what the stop
// handshake leaves behind.
module SyncQuiet {
  import opened Int32
  import opened Ledger
  import opened SyncModel
  import opened SyncInvariants

  // Without resets the memory follows the thread: one a completed round, and one more for
  // what the current round has reached; the mirror included.
  ghost predicate Steady(s: State)
    requires |s.tasks| > 0
  {
    && s.cells[0] == Wrap(Done(s, MIRROR))
    && (s.tasks[0].at == Write(Rw) ==> s.tasks[0].reg == Wrap(s.rounds + 1))
  }

  // What readers have sampled so far.
  ghost predicate Sampled(s: State, t: Task)
    requires |s.tasks| > 0
  {
    && |t.seen| <= 5
    && (forall j :: 0 <= j < |t.seen| ==> t.seen[j] <= Done(s, j))
    && (forall j, k :: 0 <= j < k < |t.seen| ==> t.seen[j] - 1 <= t.seen[k])
  }

  ghost predicate Quiet(s: State)
  {
    && |s.tasks| > 0
    && (NoResets(s) ==> Steady(s))
    && (NoResets(s) && Done(s, ATOMIC) < HALF ==>
          forall i :: 0 <= i < |s.tasks| && s.tasks[i].kind == Show ==> Sampled(s, s.tasks[i]))
  }

  lemma MemoryFollows(s: State, c: nat)
    requires Inv(s) && NoResets(s) && Steady(s) && c <= MIRROR
    ensures Memory(s, c) == Wrap(Done(s, c))
  {
    if c < MIRROR {
      assert forall x: nat, i: nat :: !Has(s.log, x, i);
      NeverZeroed(s.log, c);
      assert !Copied(s.log, c) && Total(s.log, c) == Done(s, c);
      ValueSinceZero(s.log, c);
      assert CellOk(s, Spin) && CellOk(s, Mutex) && CellOk(s, Sem);
    }
  }

  lemma SteadyRun(s: State, i: nat)
    requires Inv(s) && NoResets(s) && Steady(s) && i < |s.tasks|
    ensures Steady(RunTask(s, i))
  {
    StepEffect(s, i);
    MemoryFollows(s, ATOMIC);
  }

  lemma DoneGrows(s: State, i: nat, s': State, c: nat)
    requires Shape(s) && i < |s.tasks| && Effect(s, i, s')
    ensures Done(s, c) <= Done(s', c)
  {
  }

  // A new sample is at least every earlier one less one: the counters only grow, and the
  // one sampled now trails the earlier ones by at most one.
  lemma SampledRun(s: State, i: nat)
    requires Inv(s) && NoResets(s) && Steady(s) && i < |s.tasks| && s.tasks[i].kind == Show
    requires Done(s, ATOMIC) < HALF && Sampled(s, s.tasks[i])
    ensures Sampled(s, RunTask(s, i).tasks[i])
  {
    StepEffect(s, i);
    var t := s.tasks[i];
    MemoryFollows(s, ATOMIC);
    if t.at.Read? { MemoryFollows(s, Counter(t.at.gate)); }
  }

  lemma QuietRun(s: State, i: nat)
    requires Inv(s) && Quiet(s) && i < |s.tasks|
    ensures Quiet(RunTask(s, i))
  {
    var s' := RunTask(s, i);
    StepEffect(s, i);
    if NoResets(s') {
      assert forall j :: 0 <= j < |s.tasks| ==> s.tasks[j].kind == s'.tasks[j].kind;
      SteadyRun(s, i);
      forall c: nat ensures Done(s, c) <= Done(s', c) { DoneGrows(s, i, s', c); }
      if Done(s', ATOMIC) < HALF {
        forall j | 0 <= j < |s'.tasks| && s'.tasks[j].kind == Show ensures Sampled(s', s'.tasks[j]) {
          assert Sampled(s, s.tasks[j]);
          if j == i { SampledRun(s, i); }
        }
      }
    }
  }

  lemma QuietStep(s: State, m: Move)
    requires Inv(s) && Quiet(s)
    ensures Quiet(Next(s, m))
  {
    match m
    case Run(i) => if i < |s.tasks| { QuietRun(s, i); }
    case Open(k) =>
      var s' := Next(s, m);
      if NoResets(s') {
        assert forall j :: 0 <= j < |s.tasks| ==> s.tasks[j] == s'.tasks[j];
        forall j | 0 <= j < |s'.tasks| && s'.tasks[j].kind == Show && Done(s', ATOMIC) < HALF
          ensures Sampled(s', s'.tasks[j])
        {
          assert j < |s.tasks| ==> Sampled(s, s.tasks[j]);
        }
      }
    case RequestStop =>
      var s' := Next(s, m);
      assert s'.tasks == s.tasks;
      assert NoResets(s') ==> NoResets(s);
      forall j | 0 <= j < |s'.tasks| && s'.tasks[j].kind == Show && NoResets(s') && Done(s', ATOMIC) < HALF
        ensures Sampled(s', s'.tasks[j])
      {
        assert Sampled(s, s.tasks[j]);
      }
  }

  lemma {:induction false} QuietAlways(moves: seq<Move>)
    ensures Quiet(Exec(Init(), moves))
  {
    if moves != [] {
      var before := moves[..|moves| - 1];
      QuietAlways(before);
      RunInv(before);
      QuietStep(Exec(Init(), before), moves[|moves| - 1]);
    }
  }

  // ---- The /proc report ----

  // However a reader is interleaved, each value it shows is at least any value it sampled
  // earlier, less one.
  lemma Snapshot(s: State, i: nat, j: nat, k: nat)
    requires Reachable(s) && NoResets(s) && i < |s.tasks| && Done(s, ATOMIC) < HALF
    requires s.tasks[i].kind == Show && j < k < |s.tasks[i].seen|
    ensures s.tasks[i].seen[j] - 1 <= s.tasks[i].seen[k]
  {
    var moves: seq<Move> :| s == Exec(Init(), moves);
    QuietAlways(moves);
    assert Sampled(s, s.tasks[i]);
  }

  // ---- The /proc report, however long the run ----

  // The samples a reader took since its first `from` ones are the counts that the thread had
  // reached, cut to 32 bits: none of them older than the state s0 in which it had only those.
  ghost predicate Tracked(s0: State, s: State, t: Task, from: nat, counts: seq<nat>)
    requires |s0.tasks| > 0 && |s.tasks| > 0
  {
    && |counts| == |t.seen| && from <= |t.seen| <= 5
    && (forall k :: from <= k < |counts| ==> t.seen[k] == Wrap(counts[k]))
    && (forall k :: from <= k < |counts| ==> Done(s0, k) <= counts[k] <= Done(s, k))
    && (forall j, k :: from <= j < k < |counts| ==> counts[j] <= counts[k] + 1)
  }

  // The reader's own step: at most one more sample, of the count reached by now.
  lemma TrackedRun(s0: State, s: State, i: nat, from: nat, counts: seq<nat>) returns (counts': seq<nat>)
    requires Inv(s) && NoResets(s) && Steady(s) && i < |s.tasks| && s.tasks[i].kind == Show
    requires |s0.tasks| > 0 && forall c: nat :: Done(s0, c) <= Done(s, c)
    requires Tracked(s0, s, s.tasks[i], from, counts)
    ensures Tracked(s0, RunTask(s, i), RunTask(s, i).tasks[i], from, counts')
  {
    StepEffect(s, i);
    var t, t' := s.tasks[i], RunTask(s, i).tasks[i];
    if t'.seen == t.seen {
      counts' := counts;
    } else {
      MemoryFollows(s, |t.seen|);
      counts' := counts + [Done(s, |t.seen|)];
    }
  }

  lemma TrackedStep(s0: State, s: State, m: Move, i: nat, from: nat, counts: seq<nat>) returns (counts': seq<nat>)
    requires Inv(s) && NoResets(Next(s, m)) && Steady(s) && i < |s.tasks| && s.tasks[i].kind == Show
    requires |s0.tasks| > 0 && forall c: nat :: Done(s0, c) <= Done(s, c)
    requires Tracked(s0, s, s.tasks[i], from, counts)
    ensures forall c: nat :: Done(s0, c) <= Done(Next(s, m), c)
    ensures Next(s, m).tasks[i].kind == Show && Tracked(s0, Next(s, m), Next(s, m).tasks[i], from, counts')
  {
    counts' := counts;
    if m.Run? && m.task < |s.tasks| {
      StepEffect(s, m.task);
      assert forall j :: 0 <= j < |s.tasks| ==> s.tasks[j].kind == Next(s, m).tasks[j].kind;
      forall c: nat ensures Done(s, c) <= Done(Next(s, m), c) { DoneGrows(s, m.task, Next(s, m), c); }
      if m.task == i { counts' := TrackedRun(s0, s, i, from, counts); }
    }
  }

  lemma FewerResetsBefore(s: State, m: Move)
    requires Shape(s) && NoResets(Next(s, m))
    ensures NoResets(s)
  {
    if m.Run? && m.task < |s.tasks| { StepEffect(s, m.task); }
    assert forall j :: 0 <= j < |s.tasks| ==> s.tasks[j].kind == Next(s, m).tasks[j].kind;
  }

  lemma {:induction false} TrackedAlways(s0: State, more: seq<Move>, i: nat) returns (counts: seq<nat>)
    requires Reachable(s0) && NoResets(Exec(s0, more)) && i < |s0.tasks| && s0.tasks[i].kind == Show
    ensures forall c: nat :: Done(s0, c) <= Done(Exec(s0, more), c)
    ensures Exec(s0, more).tasks[i].kind == Show
    ensures Tracked(s0, Exec(s0, more), Exec(s0, more).tasks[i], |s0.tasks[i].seen|, counts)
  {
    if more == [] {
      ReachableInv(s0);
      counts := seq(|s0.tasks[i].seen|, _ => 0);
    } else {
      var before := more[..|more| - 1];
      var s := Exec(s0, before);
      ReachesOn(s0, before);
      FewerResetsBefore(s, more[|more| - 1]);
      counts := TrackedAlways(s0, before, i);
      counts := TrackedStep(s0, s, more[|more| - 1], i, |s0.tasks[i].seen|, counts);
    }
  }

  // How many times a counter has gone from its greatest to its least value.
  function Turns(n: nat): nat { (n + HALF) / WORD }

  lemma WrappedOrder(a: nat, b: nat)
    requires a - 1 <= b < a + HALF
    ensures Wrap(Wrap(b) - Wrap(a)) == b - a
    ensures Wrap(a) - 1 <= Wrap(b) <==> Turns(b) <= Turns(a)
  {
    WrapDifference(b, a);
    TurnsOf(a);
    TurnsOf(b);
  }

  lemma TurnsOf(n: nat)
    ensures n == Turns(n) * WORD + Wrap(n)
  {
  }

  lemma LaterHasNoMore(s: State, j: nat, k: nat)
    requires |s.tasks| > 0 && j < k
    ensures Done(s, k) <= Done(s, j)
  {
  }

  // Without resets, in a run of any length: s0 is a state in which reader i has not yet
  // sampled counter j. If counter j has gained fewer than 2^31 from there, then the later
  // sample of counter k is at least the sample of j less one in 32-bit subtraction; and as
  // printed it is so exactly when counter k has not turned over in between.
  lemma SnapshotAcrossTurns(s0: State, more: seq<Move>, i: nat, j: nat, k: nat) returns (a: nat, b: nat)
    requires Reachable(s0) && NoResets(Exec(s0, more)) && i < |s0.tasks| && s0.tasks[i].kind == Show
    requires |s0.tasks[i].seen| <= j < k < |Exec(s0, more).tasks[i].seen|
    requires Done(Exec(s0, more), j) - Done(s0, j) < HALF
    ensures var s, seen := Exec(s0, more), Exec(s0, more).tasks[i].seen;
      && seen[j] == Wrap(a) && Done(s0, j) <= a <= Done(s, j)
      && seen[k] == Wrap(b) && Done(s0, k) <= b <= Done(s, k)
      && -1 <= Wrap(seen[k] - seen[j]) == b - a
      && (seen[j] - 1 <= seen[k] <==> Turns(b) <= Turns(a))
  {
    var counts := TrackedAlways(s0, more, i);
    a, b := counts[j], counts[k];
    LaterHasNoMore(Exec(s0, more), j, k);
    WrappedOrder(a, b);
  }

  // ---- The rw-semaphore mirror without resets ----

  lemma BothFollow(s: State)
    requires Reachable(s) && NoResets(s)
    ensures |s.tasks| > 0
    ensures s.cells[0] == Wrap(Done(s, MIRROR)) && s.atomic == Wrap(Done(s, ATOMIC))
  {
    var moves: seq<Move> :| s == Exec(Init(), moves);
    QuietAlways(moves);
    assert Inv(s) by { ReachableInv(s); }
    MemoryFollows(s, ATOMIC);
  }

  lemma LessByOne(m: nat, n: nat)
    requires m <= n <= m + 1
    ensures Wrap(m) > Wrap(n) <==> Wrap(n) == -HALF && m < n
  {
    if m < n { WrapSuccessor(m); }
  }

  // With no reset the mirror is ahead of the atomic counter exactly while the atomic counter
  // has just turned over and the mirror has not followed: in no other state of any run.
  lemma MirrorAheadExactly(s: State)
    requires Reachable(s) && NoResets(s)
    ensures |s.tasks| > 0
    ensures s.cells[0] > s.atomic <==> Wrap(Done(s, ATOMIC)) == -HALF && Done(s, MIRROR) < Done(s, ATOMIC)
  {
    BothFollow(s);
    LessByOne(Done(s, MIRROR), Done(s, ATOMIC));
  }

  // ---- The stop handshake ----

  // The thread leaves only at its loop condition, after a stop request, holding no lock.
  lemma LeavesAtHead(s: State, m: Move)
    requires Reachable(s) && s.tasks != []
    requires !s.tasks[0].at.Finished? && Next(s, m).tasks[0].at.Finished?
    ensures s.tasks[0].at == Head && s.stop && m == Run(0)
    ensures forall l: Lock :: !Holds(s.tasks[0], l) && !Holds(Next(s, m).tasks[0], l)
  {
    ReachableInv(s);
    if m.Run? && m.task < |s.tasks| { StepEffect(s, m.task); }
  }

  // Rounds completed, counting the one under way.
  function Rounds(s: State): nat
    requires |s.tasks| > 0
  {
    s.rounds + if s.tasks[0].at in {Head, Finished} then 0 else 1
  }

  lemma StoppedStep(s: State, m: Move)
    requires Shape(s) && s.stop
    ensures Shape(Next(s, m)) && Next(s, m).stop
    ensures Rounds(Next(s, m)) == Rounds(s)
    ensures s.tasks[0].at.Finished? ==> Next(s, m).tasks[0].at.Finished?
  {
    if m.Run? && m.task < |s.tasks| {
      StepEffect(s, m.task);
    }
  }

  lemma {:induction false} StoppedRun(s: State, moves: seq<Move>)
    requires Shape(s) && s.stop
    ensures Shape(Exec(s, moves)) && Exec(s, moves).stop
    ensures Rounds(Exec(s, moves)) == Rounds(s)
    ensures s.tasks[0].at.Finished? ==> Exec(s, moves).tasks[0].at.Finished?
  {
    if moves != [] {
      StoppedRun(s, moves[..|moves| - 1]);
      StoppedStep(Exec(s, moves[..|moves| - 1]), moves[|moves| - 1]);
    }
  }

  lemma {:induction false} ExecAppend(s: State, a: seq<Move>, b: seq<Move>)
    ensures Exec(s, a + b) == Exec(Exec(s, a), b)
  {
    if b == [] {
      assert a + b == a;
    } else {
      var n := |b| - 1;
      assert (a + b)[..|a + b| - 1] == a + b[..n];
      ExecAppend(s, a, b[..n]);
    }
  }

  lemma ReachesOn(s: State, more: seq<Move>)
    requires Reachable(s)
    ensures Inv(Exec(s, more)) && Quiet(Exec(s, more))
  {
    var moves: seq<Move> :| s == Exec(Init(), moves);
    ExecAppend(Init(), moves, more);
    RunInv(moves + more);
    QuietAlways(moves + more);
  }

  // Whenever the stop request arrives, the thread completes at most the round under way;
  // and with no reset all five counters then stay at the number of completed rounds.
  lemma StopHandshake(s: State, more: seq<Move>, c: nat)
    requires Reachable(s) && s.tasks != [] && s.stop && c <= MIRROR
    requires Exec(s, more).tasks[0].at.Finished?
    ensures Exec(s, more).rounds == Rounds(s)
    ensures NoResets(Exec(s, more)) ==> Memory(Exec(s, more), c) == Wrap(Rounds(s))
  {
    assert Shape(s) by { ReachableInv(s); }
    StoppedRun(s, more);
    ReachesOn(s, more);
    if NoResets(Exec(s, more)) { MemoryFollows(Exec(s, more), c); }
  }
}
