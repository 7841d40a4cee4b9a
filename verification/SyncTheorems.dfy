// What the counter protocol of tutorial-04 guarantees in every reachable state, that is,
// after every interleaving of the thread with any number of writers and readers.
module SyncTheorems {
  import opened Int32
  import opened Ledger
  import opened SyncModel
  import opened SyncInvariants
  import T = Tally

  // ---- Exclusion and progress ----

  predicate Conflict(l: Lock, k: Lock)
  {
    (l == k && l != RwRead) || (l == RwRead && k == RwWrite) || (l == RwWrite && k == RwRead)
  }

  // One exclusive holder a lock, the semaphore's count plus its holders is one, and no two
  // tasks are inside conflicting sections; a writer in particular keeps all readers out.
  lemma Exclusion(s: State, i: nat, j: nat, l: Lock, k: Lock)
    requires Reachable(s) && i < j < |s.tasks|
    ensures l != RwRead ==> Holders(s, l) <= 1
    ensures s.words.sem + Holders(s, SemUnit) == 1
    ensures Holders(s, RwWrite) > 0 ==> Holders(s, RwRead) == 0
    ensures !(Conflict(l, k) && Holds(s.tasks[i], l) && Holds(s.tasks[j], k))
    ensures Holds(s.tasks[i], l) && Holds(s.tasks[i], k) ==> l == k
  {
    ReachableInv(s);
    assert forall h: Lock :: Holders(s, h) == Taken(s.words, h);
    if Holds(s.tasks[i], l) && Holds(s.tasks[j], k) {
      Exclusive(s, i, j, l, k);
      Exclusive(s, j, i, k, l);
    }
  }

  // Inside the section of a gate.
  predicate IsInside(t: Task, g: Gate) { (t.at.Read? || t.at.Write? || t.at.Leave?) && t.at.gate == g }

  lemma SomebodyHolds(s: State, l: Lock)
    requires Locks(s)
    ensures Taken(s.words, l) > 0 <==> exists i :: 0 <= i < |s.tasks| && Holds(s.tasks[i], l)
  {
    assert Holders(s, l) == Taken(s.words, l);
    if Taken(s.words, l) > 0 {
      var i := T.Witness(s.tasks, HoldsLock(l));
    }
    if i :| 0 <= i < |s.tasks| && Holds(s.tasks[i], l) { T.Member(s.tasks, i, HoldsLock(l)); }
  }

  // Each lock word tells whether somebody is inside the section of its own counter; of the
  // rw-semaphore, whether a reader or somebody else is.
  lemma WordsTellWho(s: State)
    requires Reachable(s)
    ensures s.words.spin <==> exists i :: 0 <= i < |s.tasks| && IsInside(s.tasks[i], Spin)
    ensures s.words.mutex <==> exists i :: 0 <= i < |s.tasks| && IsInside(s.tasks[i], Mutex)
    ensures s.words.sem == 0 <==> exists i :: 0 <= i < |s.tasks| && IsInside(s.tasks[i], Sem)
    ensures s.words.writer <==> exists i :: 0 <= i < |s.tasks| && IsInside(s.tasks[i], Rw) && s.tasks[i].kind != Show
    ensures s.words.readers > 0 <==>
      exists i :: 0 <= i < |s.tasks| && IsInside(s.tasks[i], Rw) && s.tasks[i].kind == Show
  {
    ReachableInv(s);
    forall l: Lock ensures Taken(s.words, l) > 0 <==> exists i :: 0 <= i < |s.tasks| && Holds(s.tasks[i], l) {
      SomebodyHolds(s, l);
    }
    forall i | 0 <= i < |s.tasks|
      ensures IsInside(s.tasks[i], Spin) <==> Holds(s.tasks[i], SpinLock)
      ensures IsInside(s.tasks[i], Mutex) <==> Holds(s.tasks[i], MutexLock)
      ensures IsInside(s.tasks[i], Sem) <==> Holds(s.tasks[i], SemUnit)
      ensures IsInside(s.tasks[i], Rw) && s.tasks[i].kind != Show <==> Holds(s.tasks[i], RwWrite)
      ensures IsInside(s.tasks[i], Rw) && s.tasks[i].kind == Show <==> Holds(s.tasks[i], RwRead)
    {
    }
    assert Taken(s.words, SpinLock) > 0 <==> s.words.spin;
    assert Taken(s.words, MutexLock) > 0 <==> s.words.mutex;
    assert Taken(s.words, SemUnit) > 0 <==> s.words.sem == 0;
    assert Taken(s.words, RwWrite) > 0 <==> s.words.writer;
    assert Taken(s.words, RwRead) > 0 <==> s.words.readers > 0;
  }

  // Nobody waits in vain: an unfinished task can step, or it waits for a task that can and
  // that holds the lock it wants. So no reachable state with an unfinished task is stuck.
  lemma DeadlockFree(s: State, i: nat) returns (j: nat)
    requires Reachable(s) && i < |s.tasks| && !s.tasks[i].at.Finished?
    ensures j < |s.tasks| && CanStep(s, j)
    ensures j == i || (s.tasks[i].at.Want? && exists k ::
              Holds(s.tasks[j], k) && Conflict(LockOf(s.tasks[i].kind, s.tasks[i].at.gate), k))
  {
    ReachableInv(s);
    j := i;
    if s.tasks[i].at.Want? {
      var l := LockOf(s.tasks[i].kind, s.tasks[i].at.gate);
      if !CanTake(s.words, l) {
        var k := Blocker(s, l);
        j := T.Witness(s.tasks, HoldsLock(k));
        Mover(s, j, k);
      }
    } else {
      Unblocked(s, i);
    }
  }

  lemma Blocker(s: State, l: Lock) returns (k: Lock)
    requires Locks(s) && !CanTake(s.words, l)
    ensures Conflict(l, k) && Holders(s, k) >= 1
  {
    k := if l == RwRead || (l == RwWrite && s.words.writer) then RwWrite
         else if l == RwWrite then RwRead else l;
    assert Holders(s, RwRead) == Taken(s.words, RwRead);
    assert Holders(s, k) == Taken(s.words, k);
  }

  // Only a task that waits for a lock can be stuck.
  lemma Unblocked(s: State, i: nat)
    requires i < |s.tasks| && !s.tasks[i].at.Want? && !s.tasks[i].at.Finished?
    ensures CanStep(s, i)
  {
  }

  lemma Mover(s: State, j: nat, k: Lock)
    requires j < |s.tasks| && Holds(s.tasks[j], k)
    ensures CanStep(s, j)
  {
    Unblocked(s, j);
  }

  // ---- No lost update ----

  // The fine-grained memory is the atomic-counter machine's: every counter holds the
  // thread's completed increments since that counter's latest reset store, modulo 2^32;
  // and the mirror holds its reference value except between its load and its store.
  lemma NoLostUpdate(s: State, c: nat)
    requires Reachable(s) && c <= MIRROR
    ensures |s.tasks| > 0
    ensures c < MIRROR ==> Memory(s, c) == Wrap(Value(s.log, c))
    ensures c < MIRROR ==> Memory(s, c) == Wrap(Done(s, c) - Total(AtZero(s.log, c), c))
    ensures c == MIRROR && s.tasks[0].at != Write(Rw) ==> Memory(s, c) == Wrap(Value(s.log, c))
  {
    ReachableInv(s);
    if c < MIRROR {
      assert !Copied(s.log, c) && Total(s.log, c) == Done(s, c);
      ValueSinceZero(s.log, c);
    }
    assert CellOk(s, Spin) && CellOk(s, Mutex) && CellOk(s, Sem) && CellOk(s, Rw);
  }

  // What a reader samples, whatever resets are about: counter number k is its k-th sample, and
  // that is the counter's reference value at that moment, cut to 32 bits.
  lemma SampleIsValue(s: State, i: nat)
    requires Reachable(s) && i < |s.tasks| && s.tasks[i].kind == Show
    requires s.tasks[i].at == Atomic || s.tasks[i].at.Read?
    ensures var c, t' := |s.tasks[i].seen|, RunTask(s, i).tasks[i];
      c <= MIRROR && t'.seen == s.tasks[i].seen + [Memory(s, c)] && Memory(s, c) == Wrap(Value(s.log, c))
  {
    ReachableInv(s);
    var c := |s.tasks[i].seen|;
    assert TaskOk(s.tasks[i]);
    NoLostUpdate(s, c);
    if c == MIRROR && s.tasks[0].at == Write(Rw) { Exclusive(s, 0, i, RwWrite, RwRead); }
  }

  // ---- Drift across resets ----

  function Lag(log: Log, c: nat, d: nat): int { Total(log, c) - Total(log, d) }

  // The increments of c between the latest reset store to c and the latest one to d
  // (negative when the store to c is the younger one).
  function Between(log: Log, c: nat, d: nat): int
  {
    Total(AtZero(log, d), c) - Total(AtZero(log, c), c)
  }

  // Two counters, c bumped before d, differ by exactly their lag in the loop now, less
  // their lag at the latest store to d, plus the increments in between: so by at most one
  // from `Between`, however the resets overlapped. The 32-bit cells differ by that amount.
  lemma Drift(s: State, c: nat, d: nat)
    requires Reachable(s) && c < d < MIRROR
    ensures 0 <= Lag(s.log, c, d) <= 1 && 0 <= Lag(AtZero(s.log, d), c, d) <= 1
    ensures Value(s.log, c) - Value(s.log, d)
         == Lag(s.log, c, d) - Lag(AtZero(s.log, d), c, d) + Between(s.log, c, d)
    ensures Wrap(Memory(s, c) - Memory(s, d)) == Wrap(Value(s.log, c) - Value(s.log, d))
  {
    assert AlwaysLags(s.log) && !Copied(s.log, c) && !Copied(s.log, d) by { ReachableInv(s); }
    DriftOfHistory(s.log, c, d);
    DriftOfMemory(s, c, d);
  }

  lemma DriftOfHistory(log: Log, c: nat, d: nat)
    requires AlwaysLags(log) && c < d < MIRROR && !Copied(log, c) && !Copied(log, d)
    ensures 0 <= Lag(log, c, d) <= 1 && 0 <= Lag(AtZero(log, d), c, d) <= 1
    ensures Value(log, c) - Value(log, d) == Lag(log, c, d) - Lag(AtZero(log, d), c, d) + Between(log, c, d)
  {
    ValueSinceZero(log, c);
    ValueSinceZero(log, d);
    LagsAtZero(log, d);
  }

  lemma DriftOfMemory(s: State, c: nat, d: nat)
    requires Reachable(s) && c < MIRROR && d < MIRROR
    ensures Wrap(Memory(s, c) - Memory(s, d)) == Wrap(Value(s.log, c) - Value(s.log, d))
  {
    NoLostUpdate(s, c);
    NoLostUpdate(s, d);
    WrapDifference(Value(s.log, c), Value(s.log, d));
  }

  // Without resets the drift is the lag: zero or one.
  lemma DriftWithoutResets(s: State, c: nat, d: nat)
    requires Reachable(s) && c < d < MIRROR && NoResets(s)
    ensures 0 <= Value(s.log, c) - Value(s.log, d) <= 1
    ensures Wrap(Memory(s, c) - Memory(s, d)) == Value(s.log, c) - Value(s.log, d)
  {
    ReachableInv(s);
    Drift(s, c, d);
    assert forall x: nat, i: nat :: !Has(s.log, x, i);
    NeverZeroed(s.log, c);
    NeverZeroed(s.log, d);
  }

  // Once the reset that last zeroed c has also zeroed d, as after any reset that overlaps
  // no other, n increments of c fell between those stores and the counters differ by
  // n - 1 to n + 1, with n >= 0.
  lemma DriftAfterReset(s: State, c: nat, d: nat)
    requires Reachable(s) && c < d < MIRROR
    requires AtZero(s.log, c).Snoc? && AtZero(s.log, c).last.who < |s.tasks|
    requires Written(s.tasks[AtZero(s.log, c).last.who]) > d
    ensures var n := Between(s.log, c, d);
      n >= 0 && n - 1 <= Value(s.log, c) - Value(s.log, d) <= n + 1
  {
    ReachableInv(s);
    var who := AtZero(s.log, c).last.who;
    LastZeroer(s.log, c);
    assert Has(s.log, c, who) ==> s.tasks[who].kind == Reset;
    assert Has(s.log, d, who);
    LaterZeroIsYounger(s.log, c, d);
    TotalGrows(s.log, c, d, c);
    Drift(s, c, d);
  }

  // ---- The rw-semaphore mirror ----

  // A reset that has zeroed atomic_counter and not yet, under the write lock, its mirror.
  predicate HalfReset(t: Task)
  {
    t.kind == Reset && (t.at.Want? || t.at.Write? || (t.at.Leave? && t.at.gate != Rw))
  }

  // The mirror is never ahead of the atomic counter once no reset is between its atomic_set
  // and its write-locked store, while the increments since the latest atomic_set fit in 31
  // bits, however many there were before it.
  lemma MirrorNeverAhead(s: State)
    requires Reachable(s) && Value(s.log, ATOMIC) < HALF
    ensures s.cells[0] > s.atomic ==> exists i :: 0 <= i < |s.tasks| && HalfReset(s.tasks[i])
  {
    ReachableInv(s);
    if s.cells[0] > s.atomic {
      var i :| 0 <= i < |s.tasks| && InFlight(s.tasks[i]);
      assert HalfReset(s.tasks[i]);
    }
  }
}
