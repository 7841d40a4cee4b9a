// The history of a set of counters, as the entries an atomic-counter machine would make:
// the reference against which both drivers' memory is judged. Counters are numbered in
// the order in which the source's reset code zeroes them.
module Ledger {

  datatype Entry =
    | Add(counter: nat)                    // the counter gains one
    | Zero(counter: nat, who: nat)          // reset number `who` stores zero
    | Copy(source: nat, target: nat)       // target takes the value of source

  datatype Log = Empty | Snoc(prev: Log, last: Entry)

  function Length(log: Log): nat
  {
    match log
    case Empty => 0
    case Snoc(prev, _) => Length(prev) + 1
  }

  // The value counter c has after the history: one atomic action an entry, no wrapping.
  function Value(log: Log, c: nat): nat
  {
    match log
    case Empty => 0
    case Snoc(prev, Add(d)) => if c == d then Value(prev, c) + 1 else Value(prev, c)
    case Snoc(prev, Zero(d, _)) => if c == d then 0 else Value(prev, c)
    case Snoc(prev, Copy(a, b)) => if c == b then Value(prev, a) else Value(prev, c)
  }

  // How often counter c was incremented in all, resets notwithstanding.
  function Total(log: Log, c: nat): nat
  {
    match log
    case Empty => 0
    case Snoc(prev, e) => Total(prev, c) + if e == Add(c) then 1 else 0
  }

  // The history up to and including the latest reset store to c; empty when there was none.
  function AtZero(log: Log, c: nat): (cut: Log)
    ensures cut.Snoc? ==> cut.last.Zero? && cut.last.counter == c
  {
    match log
    case Empty => Empty
    case Snoc(prev, e) => if e.Zero? && e.counter == c then log else AtZero(prev, c)
  }

  // Reset number `who` has stored its zero to counter c.
  predicate Has(log: Log, c: nat, who: nat)
  {
    match log
    case Empty => false
    case Snoc(prev, e) => e == Zero(c, who) || Has(prev, c, who)
  }

  ghost predicate Copied(log: Log, c: nat)
  {
    match log
    case Empty => false
    case Snoc(prev, e) => (e.Copy? && e.target == c) || Copied(prev, c)
  }

  // No reset goes back: when it zeroes c, it has not zeroed c or any later counter before.
  ghost predicate Ordered(log: Log)
  {
    match log
    case Empty => true
    case Snoc(prev, e) =>
      Ordered(prev) && (e.Zero? ==> forall d: nat :: d >= e.counter ==> !Has(prev, d, e.who))
  }

  // A counter's value is what it gained since its latest reset store.
  lemma {:induction false} ValueSinceZero(log: Log, c: nat)
    requires !Copied(log, c)
    ensures Total(AtZero(log, c), c) <= Total(log, c)
    ensures Value(log, c) == Total(log, c) - Total(AtZero(log, c), c)
  {
    match log
    case Empty =>
    case Snoc(prev, e) => ValueSinceZero(prev, c);
  }

  lemma {:induction false} AtZeroIsShorter(log: Log, c: nat)
    ensures Length(AtZero(log, c)) <= Length(log)
  {
    match log
    case Empty =>
    case Snoc(prev, e) => AtZeroIsShorter(prev, c);
  }

  // Once the reset that last zeroed c has also zeroed the later counter d, the latest
  // store to d is younger than the latest store to c, whatever other resets did.
  lemma {:induction false} LaterZeroIsYounger(log: Log, c: nat, d: nat)
    requires c < d && Ordered(log)
    requires AtZero(log, c).Snoc? && Has(log, d, AtZero(log, c).last.who)
    ensures Length(AtZero(log, c)) < Length(AtZero(log, d))
  {
    var e := log.last;
    if e.Zero? && e.counter == d {
      AtZeroIsShorter(log.prev, c);
    } else {
      LaterZeroIsYounger(log.prev, c, d);
    }
  }

  // Totals grow along a history: of the two latest stores, the younger has seen more.
  lemma {:induction false} TotalGrows(log: Log, c: nat, d: nat, x: nat)
    requires Length(AtZero(log, c)) <= Length(AtZero(log, d))
    ensures Total(AtZero(log, c), x) <= Total(AtZero(log, d), x) <= Total(log, x)
  {
    match log
    case Empty =>
    case Snoc(prev, e) =>
      if e.Zero? && e.counter == d {
        TotalAtZero(prev, c, x);
      } else if e.Zero? && e.counter == c {
        AtZeroIsShorter(prev, d);
      } else {
        TotalGrows(prev, c, d, x);
      }
  }

  lemma {:induction false} TotalAtZero(log: Log, c: nat, x: nat)
    ensures Total(AtZero(log, c), x) <= Total(log, x)
  {
    match log
    case Empty =>
    case Snoc(prev, e) => TotalAtZero(prev, c, x);
  }

  lemma {:induction false} LastZeroer(log: Log, c: nat)
    requires AtZero(log, c).Snoc?
    ensures Has(log, c, AtZero(log, c).last.who)
  {
    if log != AtZero(log, c) { LastZeroer(log.prev, c); }
  }

  lemma {:induction false} NeverZeroed(log: Log, c: nat)
    requires forall i: nat :: !Has(log, c, i)
    ensures AtZero(log, c) == Empty
  {
    if AtZero(log, c).Snoc? { LastZeroer(log, c); }
  }
}
