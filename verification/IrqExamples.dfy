// Runs of tutorial-05 that show the conditions of its theorems to be needed.
module IrqExamples {
  import opened Int32
  import opened Ledger
  import opened IrqModel
  import opened IrqInvariants
  import T = Tally

  lemma Go(s: State, m: Move) returns (s': State)
    requires Reachable(s)
    ensures s' == Next(s, m) && Reachable(s')
  {
    var clock: nat, moves: seq<Move> :| s == Exec(Init(clock), moves);
    assert (moves + [m])[..|moves|] == moves;
    s' := Exec(Init(clock), moves + [m]);
  }

  // A top half or the worker takes its time, undisturbed.
  lemma Stamps(s: State, i: nat) returns (s': State)
    requires Reachable(s) && i < |s.tasks| && s.tasks[i].at == Stamp
    ensures Reachable(s') && s' == s.(tasks := s.tasks[i := s.tasks[i].(at := Count, now := s.clock)])
  {
    s' := Go(s, Run(i));
  }

  // It then bumps its counter c.
  lemma Bumps(s: State, i: nat, c: nat) returns (s': State)
    requires Reachable(s) && i < |s.tasks| && s.tasks[i].at == Count && s.tasks[i].kind != Delayed
    requires c == CounterOf(s.tasks[i].kind)
    ensures Reachable(s') && s' == s.(counts := s.counts[c := Wrap(s.counts[c] + 1)],
                                      tasks := s.tasks[i := s.tasks[i].(at := Want)], log := Snoc(s.log, Add(c)))
  {
    s' := Go(s, Run(i));
  }

  // It then stores its time under stats_lock.
  lemma Stores(s: State, i: nat) returns (s': State)
    requires Reachable(s) && i < |s.tasks| && s.tasks[i].at == Want && !s.statsLock
    requires s.tasks[i].kind == Top || s.tasks[i].kind == Bottom
    ensures var top := s.tasks[i].kind == Top;
      Reachable(s') && s' == s.(lastIrq := if top then s.tasks[i].now else s.lastIrq,
                                lastBh := if top then s.lastBh else s.tasks[i].now,
                                tasks := s.tasks[i := s.tasks[i].(at := if top then Queue else Idle)])
  {
    var t := s.tasks[i];
    var s1 := Go(s, Run(i));
    assert s1 == s.(statsLock := true, tasks := s.tasks[i := t.(at := Store)]);
    var s2 := Go(s1, Run(i));
    assert s2.tasks == s.tasks[i := t.(at := Unlock)] && s2.log == s.log && s2.statsLock;
    s' := Go(s2, Run(i));
  }

  // A reader up to its second load, undisturbed.
  lemma Reads(s: State, i: nat) returns (s': State)
    requires Reachable(s) && i < |s.tasks| && s.tasks[i] == Fresh(Show) && !s.statsLock && !s.procMutex
    ensures Reachable(s') && i < |s'.tasks| && s'.tasks[i].kind == Show && s'.tasks[i].at == Unlock
    ensures s'.tasks[i].irqSeen == s.lastIrq && s'.tasks[i].bhSeen == s.lastBh
  {
    var t := Fresh(Show);
    var s1 := Go(s, Run(i));
    assert s1 == s.(procMutex := true, tasks := s.tasks[i := t.(at := Want)]);
    var s2 := Go(s1, Run(i));
    assert s2 == s1.(statsLock := true, tasks := s.tasks[i := t.(at := LoadIrq)]);
    var s3 := Go(s2, Run(i));
    assert s3 == s2.(tasks := s.tasks[i := t.(at := LoadBh, irqSeen := s.lastIrq)]);
    s' := Go(s3, Run(i));
  }

  // A top half up to its queue_work, undisturbed.
  lemma TopRuns(s: State, i: nat) returns (s': State)
    requires Reachable(s) && i < |s.tasks| && s.tasks[i] == Fresh(Top) && !s.statsLock
    ensures Reachable(s')
    ensures s' == s.(counts := s.counts[IRQ := Wrap(s.counts[IRQ] + 1)], lastIrq := s.clock,
                     tasks := s.tasks[i := Task(Top, Queue, s.clock, 0, 0, false)], log := Snoc(s.log, Add(IRQ)))
  {
    s' := Stamps(s, i);
    s' := Bumps(s', i, IRQ);
    s' := Stores(s', i);
  }

  // The worker serves the pending item, undisturbed.
  lemma BottomRuns(s: State) returns (s': State)
    requires Reachable(s) && s.pending && !s.statsLock
    requires |s.tasks| > 0 && s.tasks[0].kind == Bottom && s.tasks[0].at == Idle
    ensures Reachable(s')
    ensures s' == s.(counts := s.counts[BH := Wrap(s.counts[BH] + 1)], lastBh := s.clock, pending := false,
                     tasks := s.tasks[0 := s.tasks[0].(now := s.clock)], log := Snoc(s.log, Add(BH)))
  {
    s' := Go(s, Run(0));
    assert s' == s.(pending := false, tasks := s.tasks[0 := s.tasks[0].(at := Stamp)]);
    s' := Stamps(s', 0);
    s' := Bumps(s', 0, BH);
    s' := Stores(s', 0);
  }

  // The first interrupt, its work queued.
  lemma FirstQueued() returns (s: State)
    ensures Reachable(s)
    ensures s == State(1, [1, 0, 0], 1, 0, false, false, true,
                       [Fresh(Bottom), Task(Top, Done, 1, 0, 0, false)], Snoc(Empty, Add(IRQ)))
  {
    s := Init(1);
    assert Exec(Init(1), []) == s;
    s := Go(s, Open(Top));
    assert s.tasks == [Fresh(Bottom), Fresh(Top)];
    s := TopRuns(s, 1);
    assert s.tasks == [Fresh(Bottom), Task(Top, Queue, 1, 0, 0, false)];
    s := Go(s, Run(1));
    assert s.tasks == [Fresh(Bottom), Task(Top, Done, 1, 0, 0, false)];
  }

  // The first interrupt and its bottom half, both at time 1.
  lemma FirstServed() returns (s: State)
    ensures Reachable(s)
    ensures s == State(1, [1, 1, 0], 1, 1, false, false, false,
                       [Task(Bottom, Idle, 1, 0, 0, false), Task(Top, Done, 1, 0, 0, false)],
                       Snoc(Snoc(Empty, Add(IRQ)), Add(BH)))
  {
    s := FirstQueued();
    s := BottomRuns(s);
  }

  // A second interrupt at time 2, whose bottom half has not come when a reader looks.
  lemma NegativeLatencyHappens() returns (s: State, i: nat)
    ensures Reachable(s) && i < |s.tasks| && s.tasks[i].at == Unlock && Report(s.tasks[i]) == Latency(-1)
  {
    s := FirstServed();
    s := Go(s, Tick(1));
    s := Go(s, Open(Top));
    s := TopRuns(s, 2);
    s := Go(s, Open(Show));
    i := 3;
    s := Reads(s, 3);
  }

  // A reset that has zeroed irq_count and not yet bottom_half_count leaves the latter ahead,
  // with nothing outstanding: DebtBound has to wait for both stores.
  lemma BottomHalvesAheadDuringReset() returns (s: State)
    ensures Reachable(s) && s.log == AtZero(s.log, IRQ)
    ensures s.counts[BH] == 1 && s.counts[IRQ] == 0 && Outstanding(s) == 0
  {
    s := FirstServed();
    var before := s.tasks;
    s := Go(s, Open(Reset));
    assert s.tasks == before + [Fresh(Reset)];
    s := Go(s, Run(2));
    var reset := Fresh(Reset).(at := Zeroing(BH));
    assert s.tasks == before + [reset];
    T.Append(before, reset, IsOwing());
    T.Append(before[..1], before[1], IsOwing());
    T.Append([], before[0], IsOwing());
    assert before[..1] == [] + [before[0]] && before == before[..1] + [before[1]];
  }

  // One top half has its time and its count; another one has come and stored a later time.
  lemma Overtaken() returns (s: State)
    ensures Reachable(s) && |s.tasks| == 3 && s.lastIrq == 2 && !s.statsLock
    ensures s.tasks[1] == Task(Top, Want, 1, 0, 0, false)
  {
    s := Init(1);
    assert Exec(Init(1), []) == s;
    s := Go(s, Open(Top));
    s := Stamps(s, 1);
    s := Bumps(s, 1, IRQ);
    s := Go(s, Tick(1));
    s := Go(s, Open(Top));
    s := TopRuns(s, 2);
  }

  // A top half that is overtaken between its timestamp and its store sets last_irq_time back.
  lemma IrqTimeGoesBack() returns (s: State)
    ensures Reachable(s) && s.lastIrq == 2 && Next(s, Run(1)).lastIrq == 1
  {
    s := Overtaken();
    s := Go(s, Run(1));
  }
}
