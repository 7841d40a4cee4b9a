// How fast the timer and the delayed work of tutorial-05 can run, with arbitrary lateness.
module TimerRates {
  import opened Basics
  import opened Int32
  import T = Tally

  const TIMER_PERIOD_NS: nat := 1_000_000_000
  const DELAY_NS: nat := 5_000_000_000

  // hrtimer_forward_now: the expiry moves by whole periods to the first point after now,
  // and stays where it is when that lies ahead already.
  function Forward(expiry: nat, now: nat, period: nat): nat
    requires period > 0
  {
    if now < expiry then expiry else expiry + ((now - expiry) / period + 1) * period
  }

  // It is the first period point, counted from the old expiry, that lies after now.
  lemma ForwardIsFirstAfter(expiry: nat, now: nat, period: nat, p: nat)
    requires period > 0
    ensures Forward(expiry, now, period) > now
    ensures exists n: nat :: Forward(expiry, now, period) == expiry + n * period
    ensures expiry + p * period > now ==> Forward(expiry, now, period) <= expiry + p * period
  {
    var n: nat := if now < expiry then 0 else (now - expiry) / period + 1;
    assert Forward(expiry, now, period) == expiry + n * period;
    if n > 0 && expiry + p * period > now {
      Below(n - 1, p, period);
    } else {
      assert p * period >= 0;
    }
  }

  lemma Below(q: nat, p: nat, period: nat)
    requires q * period < p * period
    ensures (q + 1) * period <= p * period
  {
  }

  // How many of the times lie at or before t.
  function UpTo(t: nat): nat -> bool { x => x <= t }

  function RunsBy(times: seq<nat>, t: nat): nat { T.Tally(times, UpTo(t)) }

  lemma {:induction false} SpanBound(times: seq<nat>, start: nat, period: nat, t: nat)
    requires t >= start
    requires forall k :: 0 <= k < |times| ==> times[k] >= start + (k + 1) * period
    ensures RunsBy(times, t) * period <= t - start
  {
    if times != [] {
      var n := |times| - 1;
      if times[n] <= t {
        T.AtMost(times, UpTo(t));
        Scale(RunsBy(times, t), n + 1, period);
        assert times[n] >= start + (n + 1) * period;
      } else {
        SpanBound(times[..n], start, period, t);
        assert RunsBy(times, t) == RunsBy(times[..n], t);
      }
    }
  }

  lemma Scale(a: nat, b: nat, c: nat)
    requires a <= b
    ensures a * c <= b * c
  {
  }

  lemma Divide(n: nat, d: nat, x: nat)
    requires d > 0 && n * d <= x
    ensures n <= x / d
  {
    assert n * d < (x / d + 1) * d;
  }

  // When run number k never starts before k + 1 periods have passed, no more runs than
  // whole periods have started by any time.
  lemma RateBound(times: seq<nat>, start: nat, period: nat, t: nat)
    requires period > 0 && t >= start
    requires forall k :: 0 <= k < |times| ==> times[k] >= start + (k + 1) * period
    ensures RunsBy(times, t) <= (t - start) / period
  {
    SpanBound(times, start, period, t);
    Divide(RunsBy(times, t), period, t - start);
  }

  lemma RateBoundAlways(times: seq<nat>, start: nat, period: nat)
    requires period > 0
    requires forall k :: 0 <= k < |times| ==> times[k] >= start + (k + 1) * period
    ensures forall t: nat :: t >= start ==> RunsBy(times, t) <= (t - start) / period
  {
    forall t: nat | t >= start ensures RunsBy(times, t) <= (t - start) / period {
      RateBound(times, start, period, t);
    }
  }

  lemma Short(n: nat, d: nat, x: nat)
    requires d > 0 && n * d > x
    ensures x / d < n
  {
    if x / d >= n { Scale(n, x / d, d); }
  }

  // The bound is met by runs that are never late.
  lemma {:induction false} PunctualCount(times: seq<nat>, start: nat, period: nat, t: nat)
    requires period > 0 && t >= start
    requires forall k :: 0 <= k < |times| ==> times[k] == start + (k + 1) * period
    ensures RunsBy(times, t) == Min(|times|, (t - start) / period)
  {
    if times != [] {
      var n := |times| - 1;
      PunctualCount(times[..n], start, period, t);
      assert times[n] == start + (n + 1) * period;
      if times[n] <= t {
        Divide(n + 1, period, t - start);
      } else {
        Short(n + 1, period, t - start);
      }
    }
  }

  // When callback k of a timer started at `start` is due: callback n comes `lateness[n]` after
  // that and takes `busy[n]`.
  function Expiry(start: nat, lateness: seq<nat>, busy: seq<nat>, k: nat): nat
    requires k <= |lateness| == |busy|
  {
    if k == 0 then start + TIMER_PERIOD_NS
    else
      var before := Expiry(start, lateness, busy, k - 1);
      Forward(before, before + lateness[k - 1] + busy[k - 1], TIMER_PERIOD_NS)
  }

  // When callback k - 1 has ended; the timer's start for the first one.
  function Ended(start: nat, lateness: seq<nat>, busy: seq<nat>, k: nat): nat
    requires k <= |lateness| == |busy|
  {
    if k == 0 then start else Expiry(start, lateness, busy, k - 1) + lateness[k - 1] + busy[k - 1]
  }

  // Forwarding at the end of a callback passes the points up to it, and no other.
  lemma ForwardPasses(expiry: nat, now: nat) returns (passed: nat)
    requires expiry <= now
    ensures passed >= 1 && Forward(expiry, now, TIMER_PERIOD_NS) == expiry + passed * TIMER_PERIOD_NS
    ensures expiry + passed * TIMER_PERIOD_NS > now >= expiry + (passed - 1) * TIMER_PERIOD_NS
  {
    passed := (now - expiry) / TIMER_PERIOD_NS + 1;
  }

  // Callback k is due at the first whole number of seconds from the start that lies after the
  // end of the callback before; so never before second k + 1.
  lemma {:induction false} DueAtNextPeriod(start: nat, lateness: seq<nat>, busy: seq<nat>, k: nat) returns (p: nat)
    requires k <= |lateness| == |busy|
    ensures Expiry(start, lateness, busy, k) == start + p * 1_000_000_000 && p >= k + 1
    ensures start + p * 1_000_000_000 > Ended(start, lateness, busy, k) >= start + (p - 1) * 1_000_000_000
  {
    if k == 0 {
      p := 1;
    } else {
      var q := DueAtNextPeriod(start, lateness, busy, k - 1);
      var passed := ForwardPasses(Expiry(start, lateness, busy, k - 1), Ended(start, lateness, busy, k));
      p := q + passed;
    }
  }

  // A timer whose callbacks all end before the next one is due loses no period.
  lemma {:induction false} NoneLost(start: nat, lateness: seq<nat>, busy: seq<nat>, k: nat)
    requires k <= |lateness| == |busy|
    requires forall n :: 0 <= n < |lateness| ==> lateness[n] + busy[n] < TIMER_PERIOD_NS
    ensures Expiry(start, lateness, busy, k) == start + (k + 1) * TIMER_PERIOD_NS
  {
    if k > 0 {
      NoneLost(start, lateness, busy, k - 1);
      var passed := ForwardPasses(Expiry(start, lateness, busy, k - 1), Ended(start, lateness, busy, k));
    }
  }

  // When the first n callbacks start.
  function Starts(start: nat, lateness: seq<nat>, busy: seq<nat>, n: nat): seq<nat>
    requires n <= |lateness| == |busy|
  {
    if n == 0 then []
    else Starts(start, lateness, busy, n - 1) + [Expiry(start, lateness, busy, n - 1) + lateness[n - 1]]
  }

  lemma {:induction false} StartsAt(start: nat, lateness: seq<nat>, busy: seq<nat>, n: nat, k: nat)
    requires k < n <= |lateness| == |busy|
    ensures |Starts(start, lateness, busy, n)| == n
    ensures Starts(start, lateness, busy, n)[k] == Expiry(start, lateness, busy, k) + lateness[k]
  {
    if k < n - 1 {
      StartsAt(start, lateness, busy, n - 1, k);
    } else if n > 1 {
      StartsAt(start, lateness, busy, n - 1, 0);
    }
  }

  // No callback starts before as many periods as there have been callbacks, it included.
  lemma TimerIsBounded(start: nat, lateness: seq<nat>, busy: seq<nat>)
    requires |lateness| == |busy|
    ensures var times := Starts(start, lateness, busy, |lateness|);
      && (forall k :: 0 <= k < |times| ==> times[k] >= start + (k + 1) * TIMER_PERIOD_NS)
      && forall t: nat :: t >= start ==> RunsBy(times, t) <= (t - start) / TIMER_PERIOD_NS
  {
    var times := Starts(start, lateness, busy, |lateness|);
    if |lateness| > 0 { StartsAt(start, lateness, busy, |lateness|, 0); }
    forall k | 0 <= k < |times| ensures times[k] >= start + (k + 1) * TIMER_PERIOD_NS {
      StartsAt(start, lateness, busy, |lateness|, k);
      var p := DueAtNextPeriod(start, lateness, busy, k);
    }
    RateBoundAlways(times, start, TIMER_PERIOD_NS);
  }

  // A timer that is never late, and whose callbacks take less than a period, rings exactly as
  // often as whole periods go by.
  lemma PunctualTimer(start: nat, lateness: seq<nat>, busy: seq<nat>, t: nat)
    requires |lateness| == |busy| && t >= start
    requires forall n :: 0 <= n < |lateness| ==> lateness[n] == 0 && busy[n] < TIMER_PERIOD_NS
    ensures RunsBy(Starts(start, lateness, busy, |lateness|), t) == Min(|lateness|, (t - start) / TIMER_PERIOD_NS)
  {
    var times := Starts(start, lateness, busy, |lateness|);
    if |lateness| > 0 { StartsAt(start, lateness, busy, |lateness|, 0); }
    forall k | 0 <= k < |times| ensures times[k] == start + (k + 1) * TIMER_PERIOD_NS {
      StartsAt(start, lateness, busy, |lateness|, k);
      NoneLost(start, lateness, busy, k);
    }
    PunctualCount(times, start, TIMER_PERIOD_NS, t);
  }

  lemma CallbackMoves(start: nat, lateness: seq<nat>, busy: seq<nat>, n: nat, expiry: nat, ended: nat)
    requires n < |lateness| == |busy| && expiry == Expiry(start, lateness, busy, n)
    requires ended == expiry + lateness[n] + busy[n]
    ensures Expiry(start, lateness, busy, n + 1) == Forward(expiry, ended, TIMER_PERIOD_NS)
    ensures Starts(start, lateness, busy, n + 1) == Starts(start, lateness, busy, n) + [expiry + lateness[n]]
  {
  }

  // The demo timer, started at `start`: each callback starts some time after the expiry,
  // raises an interrupt, and after some more time forwards the expiry by one period.
  method RunTimer(start: nat, lateness: seq<nat>, busy: seq<nat>) returns (times: seq<nat>)
    requires |lateness| == |busy|
    ensures times == Starts(start, lateness, busy, |lateness|)
    ensures forall k :: 0 <= k < |times| ==> times[k] >= start + (k + 1) * TIMER_PERIOD_NS
    ensures forall t: nat :: t >= start ==> RunsBy(times, t) <= (t - start) / TIMER_PERIOD_NS
  {
    times := [];
    var expiry := start + TIMER_PERIOD_NS;
    for n := 0 to |lateness|
      invariant times == Starts(start, lateness, busy, n) && expiry == Expiry(start, lateness, busy, n)
    {
      var now := expiry + lateness[n];
      times := times + [now];
      now := now + busy[n];
      CallbackMoves(start, lateness, busy, n, expiry, now);
      expiry := Forward(expiry, now, TIMER_PERIOD_NS);
    }
    TimerIsBounded(start, lateness, busy);
  }

  // What can happen to the delayed work's count: the handler runs, some time after its
  // timer is due, and re-queues itself after some more time; or a reset zeroes the count.
  datatype Event = Handler(lateness: nat, busy: nat) | Zeroed

  // The handler's runs among the events.
  function Handlers(events: seq<Event>): (runs: seq<Event>)
    ensures forall k :: 0 <= k < |runs| ==> runs[k].Handler?
  {
    if events == [] then []
    else Handlers(events[..|events| - 1]) + if events[|events| - 1].Handler? then [events[|events| - 1]] else []
  }

  // Each run of the handler comes five seconds and its lateness after the end of the one
  // before, the first after the first queueing.
  ghost predicate DelayedRuns(start: nat, runs: seq<Event>, times: seq<nat>)
    requires forall k :: 0 <= k < |runs| ==> runs[k].Handler?
  {
    && |times| == |runs|
    && forall k :: 0 <= k < |times| ==>
         times[k] == (if k == 0 then start else times[k - 1] + runs[k - 1].busy) + 5_000_000_000 + runs[k].lateness
  }

  // The events from number n on are all runs of the handler, and n is the first or follows a reset.
  ghost predicate SinceReset(events: seq<Event>, n: nat)
  {
    && n <= |events| && (n > 0 ==> events[n - 1] == Zeroed)
    && forall k :: n <= k < |events| ==> events[k].Handler?
  }

  lemma SinceResetMore(events: seq<Event>, n: nat, from: nat)
    requires n < |events| && SinceReset(events[..n], from)
    ensures if events[n].Handler? then SinceReset(events[..n + 1], from) else SinceReset(events[..n + 1], n + 1)
  {
    assert forall k :: 0 <= k < n ==> events[..n + 1][k] == events[..n][k];
  }

  lemma OnlyRunsAfter(events: seq<Event>, n: nat, m: nat)
    requires SinceReset(events, n) && n < m <= |events|
    ensures events[m - 1].Handler?
  {
  }

  lemma OneSinceReset(events: seq<Event>, m: nat)
    requires SinceReset(events, m)
    ensures forall n: nat :: SinceReset(events, n) ==> n == m
  {
    forall n: nat | SinceReset(events, n) ensures n == m {
      if n < m { OnlyRunsAfter(events, n, m); }
      if n > m { OnlyRunsAfter(events, m, n); }
    }
  }

  // When the handler is due again.
  ghost function Due(start: nat, runs: seq<Event>, times: seq<nat>): nat
    requires |times| == |runs| && forall k :: 0 <= k < |runs| ==> runs[k].Handler?
  {
    DELAY_NS + if runs == [] then start else times[|times| - 1] + runs[|runs| - 1].busy
  }

  lemma DelayedRunsMore(start: nat, runs: seq<Event>, times: seq<nat>, run: Event)
    requires (forall k :: 0 <= k < |runs| ==> runs[k].Handler?) && run.Handler? && DelayedRuns(start, runs, times)
    ensures var now := Due(start, runs, times) + run.lateness;
      && DelayedRuns(start, runs + [run], times + [now])
      && Due(start, runs + [run], times + [now]) == now + run.busy + DELAY_NS
  {
  }

  // After the first n events, `since` of them since the latest reset.
  ghost predicate Delayed(start: nat, events: seq<Event>, n: nat, times: seq<nat>, count: int, due: nat, since: nat)
    requires n <= |events|
  {
    var runs := Handlers(events[..n]);
    && DelayedRuns(start, runs, times) && due == Due(start, runs, times)
    && due >= start + (|times| + 1) * DELAY_NS
    && (forall k :: 0 <= k < |times| ==> times[k] >= start + (k + 1) * DELAY_NS)
    && since <= |times| && since <= n && SinceReset(events[..n], n - since) && count == Wrap(since)
  }

  lemma DelayedAtFirst(start: nat, events: seq<Event>)
    ensures Delayed(start, events, 0, [], 0, start + DELAY_NS, 0)
  {
  }

  lemma HandlerKeeps(start: nat, events: seq<Event>, n: nat, times: seq<nat>, count: int, due: nat, since: nat,
                     now: nat, busy: nat)
    requires n < |events| && Delayed(start, events, n, times, count, due, since)
    requires now >= due && events[n] == Handler(now - due, busy)
    ensures Delayed(start, events, n + 1, times + [now], Wrap(count + 1), now + busy + DELAY_NS, since + 1)
  {
    assert events[..n + 1][..n] == events[..n];
    DelayedRunsMore(start, Handlers(events[..n]), times, events[n]);
    SinceResetMore(events, n, n - since);
    WrapSuccessor(since);
  }

  lemma ResetKeeps(start: nat, events: seq<Event>, n: nat, times: seq<nat>, count: int, due: nat, since: nat)
    requires n < |events| && events[n] == Zeroed && Delayed(start, events, n, times, count, due, since)
    ensures Delayed(start, events, n + 1, times, 0, due, 0)
  {
    assert events[..n + 1][..n] == events[..n];
    assert Handlers(events[..n + 1]) == Handlers(events[..n]);
    SinceResetMore(events, n, n - since);
  }

  lemma CountSinceReset(events: seq<Event>, since: nat)
    requires since <= |events| && SinceReset(events, |events| - since)
    ensures forall n: nat :: SinceReset(events, n) ==> Wrap(since) == Wrap(|events| - n)
  {
    OneSinceReset(events, |events| - since);
  }

  lemma CountBound(times: seq<nat>, start: nat, count: int)
    requires times != [] && times[|times| - 1] >= start + |times| * DELAY_NS && count <= |times|
    ensures count <= (times[|times| - 1] - start) / DELAY_NS
  {
    Divide(|times|, DELAY_NS, times[|times| - 1] - start);
  }

  lemma DelayedClaims(start: nat, events: seq<Event>, times: seq<nat>, count: int, due: nat, since: nat)
    requires Delayed(start, events, |events|, times, count, due, since)
    ensures DelayedRuns(start, Handlers(events), times)
    ensures forall k :: 0 <= k < |times| ==> times[k] >= start + (k + 1) * DELAY_NS
    ensures forall t: nat :: t >= start ==> RunsBy(times, t) <= (t - start) / DELAY_NS
    ensures forall n: nat :: SinceReset(events, n) ==> count == Wrap(|events| - n)
    ensures count <= |times|
    ensures times != [] ==> count <= (times[|times| - 1] - start) / DELAY_NS
    ensures |times| < HALF ==> count >= 0
  {
    assert events[..|events|] == events;
    CountSinceReset(events, since);
    WrapAtMost(since);
    RateBoundAlways(times, start, DELAY_NS);
    if times != [] { CountBound(times, start, count); }
  }

  // The delayed work, first queued at `start`: its count is that of the runs since the latest
  // reset, wrapping, and never exceeds the number of whole delays gone by when it was last
  // bumped, whatever the resets.
  method RunDelayed(start: nat, events: seq<Event>) returns (times: seq<nat>, count: int)
    ensures DelayedRuns(start, Handlers(events), times)
    ensures forall k :: 0 <= k < |times| ==> times[k] >= start + (k + 1) * DELAY_NS
    ensures forall t: nat :: t >= start ==> RunsBy(times, t) <= (t - start) / DELAY_NS
    ensures forall n: nat :: SinceReset(events, n) ==> count == Wrap(|events| - n)
    ensures count <= |times|
    ensures times != [] ==> count <= (times[|times| - 1] - start) / DELAY_NS
    ensures |times| < HALF ==> count >= 0
  {
    times, count := [], 0;
    var due: nat := start + DELAY_NS;
    ghost var since: nat := 0;
    DelayedAtFirst(start, events);
    for n := 0 to |events|
      invariant Delayed(start, events, n, times, count, due, since)
    {
      match events[n] {
        case Handler(lateness, busy) =>
          var now := due + lateness;
          HandlerKeeps(start, events, n, times, count, due, since, now, busy);
          times := times + [now];
          count, since := Wrap(count + 1), since + 1;
          due := now + busy + DELAY_NS;
        case Zeroed =>
          ResetKeeps(start, events, n, times, count, due, since);
          count, since := 0, 0;
      }
    }
    DelayedClaims(start, events, times, count, due, since);
  }
}
