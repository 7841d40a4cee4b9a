// Once the thread of tutorial-04 is asked to stop, every schedule that keeps making steps
// finishes everybody.
module SyncProgress {
  import opened Int32
  import opened SyncModel
  import opened SyncInvariants
  import opened SyncTheorems
  import opened SyncQuiet
  import T = Tally

  // The steps a task still has to make once the stop flag is set.
  function Left(t: Task): nat
  {
    match t.at
    case Head => 1
    case Atomic => 18
    case Want(g) => 21 - 4 * Rank(g)
    case Read(g) => 20 - 4 * Rank(g)
    case Write(g) => 19 - 4 * Rank(g)
    case Leave(g) => 18 - 4 * Rank(g)
    case Finished => 0
  }

  function StepsOf(): Task -> nat { t => Left(t) }

  function Work(s: State): nat { T.Sum(s.tasks, StepsOf()) }

  lemma LeftDecreases(s: State, i: nat)
    requires i < |s.tasks| && TaskOk(s.tasks[i]) && s.stop && CanStep(s, i)
    ensures Left(RunTask(s, i).tasks[i]) < Left(s.tasks[i])
    ensures RunTask(s, i).stop
  {
  }

  // Every effective step is one less to make, so no schedule can go on for ever.
  lemma WorkDecreases(s: State, i: nat)
    requires Reachable(s) && i < |s.tasks| && s.stop && CanStep(s, i)
    ensures Work(RunTask(s, i)) < Work(s)
  {
    assert TaskOk(s.tasks[i]) by { ReachableInv(s); }
    LeftDecreases(s, i);
    StepEffect(s, i);
    T.SumUpdate(s.tasks, i, RunTask(s, i).tasks[i], StepsOf());
  }

  predicate AllFinished(s: State) { forall i :: 0 <= i < |s.tasks| ==> s.tasks[i].at.Finished? }

  // Exec peels its last move; this peels the first.
  lemma RunFirst(s: State, i: nat, rest: seq<Move>)
    requires i < |s.tasks|
    ensures Exec(s, [Run(i)] + rest) == Exec(RunTask(s, i), rest)
  {
    ExecAppend(s, [Run(i)], rest);
    assert [Run(i)][..0] == [];
  }

  lemma ReachableStep(s: State, i: nat)
    requires Reachable(s) && i < |s.tasks|
    ensures Reachable(RunTask(s, i))
  {
    var moves: seq<Move> :| s == Exec(Init(), moves);
    ExecAppend(Init(), moves, [Run(i)]);
    RunFirst(s, i, []);
  }

  // From every reachable state in which a stop has been requested, at most Work(s) steps of
  // existing tasks end with everybody finished and every lock free.
  lemma {:induction false} EverybodyFinishes(s: State) returns (moves: seq<Move>)
    requires Reachable(s) && s.stop
    ensures |moves| <= Work(s) && forall k :: 0 <= k < |moves| ==> moves[k].Run?
    ensures AllFinished(Exec(s, moves))
    ensures forall l: Lock :: Holders(Exec(s, moves), l) == 0
    decreases Work(s)
  {
    if i :| 0 <= i < |s.tasks| && !s.tasks[i].at.Finished? {
      var j := DeadlockFree(s, i);
      var next := RunTask(s, j);
      assert next.stop by { ReachableInv(s); LeftDecreases(s, j); }
      WorkDecreases(s, j);
      ReachableStep(s, j);
      var rest := EverybodyFinishes(next);
      RunFirst(s, j, rest);
      moves := [Run(j)] + rest;
    } else {
      moves := [];
      forall l: Lock ensures Holders(s, l) == 0 {
        if Holders(s, l) > 0 { var k := T.Witness(s.tasks, HoldsLock(l)); }
      }
    }
  }

  lemma {:induction false} RunsKeepKinds(s: State, moves: seq<Move>)
    requires Shape(s) && forall k :: 0 <= k < |moves| ==> moves[k].Run?
    ensures Shape(Exec(s, moves)) && |Exec(s, moves).tasks| == |s.tasks|
    ensures forall i :: 0 <= i < |s.tasks| ==> Exec(s, moves).tasks[i].kind == s.tasks[i].kind
  {
    if moves != [] {
      var before := Exec(s, moves[..|moves| - 1]);
      RunsKeepKinds(s, moves[..|moves| - 1]);
      var i := moves[|moves| - 1].task;
      if i < |before.tasks| { StepEffect(before, i); }
    }
  }

  // sync_demo_exit, whenever it comes: from every reachable state, asked to stop or not, the
  // request is followed by at most Work(s) steps that finish everybody and free every lock;
  // the thread completes just the round under way, and with no reset all five counters end
  // at the number of rounds.
  lemma StopEndsEverything(s: State) returns (rest: seq<Move>)
    requires Reachable(s)
    ensures |rest| <= Work(s) && forall k :: 0 <= k < |rest| ==> rest[k].Run?
    ensures var e := Exec(Exec(s, [RequestStop]), rest);
      && AllFinished(e) && (forall l: Lock :: Holders(e, l) == 0)
      && |s.tasks| > 0 && e.rounds == Rounds(s)
      && (NoResets(s) ==> forall c: nat :: c <= MIRROR ==> Memory(e, c) == Wrap(Rounds(s)))
  {
    var moves: seq<Move> :| s == Exec(Init(), moves);
    ExecAppend(Init(), moves, [RequestStop]);
    assert [RequestStop][..0] == [];
    var asked := Next(s, RequestStop);
    assert asked == Exec(Init(), moves + [RequestStop]);
    assert Shape(asked) by { ReachableInv(asked); }
    rest := EverybodyFinishes(asked);
    RunsKeepKinds(asked, rest);
    forall c: nat | c <= MIRROR
      ensures Exec(asked, rest).rounds == Rounds(s)
      ensures NoResets(s) ==> Memory(Exec(asked, rest), c) == Wrap(Rounds(s))
    {
      StopHandshake(asked, rest, c);
    }
    StopHandshake(asked, rest, 0);
  }
}
