// The text that reading /dev/sync_demo and /dev/irq_demo returns, and reading it in pieces.
module Reports {
  import opened Basics
  import opened Int32

  type Value = x: int | -HALF <= x < HALF

  const BUFFER_SIZE: nat := 1024

  // ---- What %d prints ----

  function Digit(d: nat): char
    requires d < 10
  {
    "0123456789"[d]
  }

  function Digits(n: nat): string
  {
    if n < 10 then [Digit(n)] else Digits(n / 10) + [Digit(n % 10)]
  }

  function Render(v: int): string
  {
    if v < 0 then "-" + Digits(-v) else Digits(v)
  }

  predicate IsDigit(c: char) { '0' <= c <= '9' }

  function DigitValue(c: char): nat
  {
    if IsDigit(c) then (c as int) - ('0' as int) else 0
  }

  function Number(s: string): nat
  {
    if s == [] then 0
    else Number(s[..|s| - 1]) * 10 + DigitValue(s[|s| - 1])
  }

  function Parse(s: string): int
  {
    if s != [] && s[0] == '-' then 0 - Number(s[1..]) else Number(s)
  }

  lemma {:induction false} NumberOfDigits(n: nat)
    ensures Number(Digits(n)) == n && Digits(n) != []
    ensures forall c :: c in Digits(n) ==> IsDigit(c)
    ensures Digits(n)[0] == '0' ==> n == 0 && |Digits(n)| == 1
  {
    var s := Digits(n);
    if n >= 10 {
      NumberOfDigits(n / 10);
      assert s[..|s| - 1] == Digits(n / 10);
    } else {
      assert s[..0] == [];
    }
  }

  // The printed value is the value, in decimal digits after a minus sign if it is negative,
  // with no leading zero; so no newline is in it.
  lemma ParseRender(v: int)
    ensures Parse(Render(v)) == v
    ensures var digits := if v < 0 then Render(v)[1..] else Render(v);
      && digits != [] && (forall c :: c in digits ==> IsDigit(c))
      && (digits[0] == '0' ==> v == 0 && digits == "0")
      && Render(v) == if v < 0 then "-" + digits else digits
    ensures '\n' !in Render(v)
  {
    NumberOfDigits(if v < 0 then -v else v);
    if v < 0 {
      assert Render(v)[1..] == Digits(-v);
    } else {
      assert Render(v)[0] in Digits(v);
    }
  }

  function Power10(k: nat): nat { if k == 0 then 1 else 10 * Power10(k - 1) }

  lemma {:induction false} DigitsFit(n: nat, k: nat)
    requires k > 0 && n < Power10(k)
    ensures |Digits(n)| <= k
  {
    if n >= 10 {
      assert Power10(k) == 10 * Power10(k - 1);
      DigitsFit(n / 10, k - 1);
    }
  }

  // A 32-bit value prints in at most eleven characters; the least one takes them all.
  lemma RenderFits(v: Value)
    ensures |Render(v)| <= 11
  {
    var n: int := v;
    TenDigits();
    DigitsFit(if n < 0 then -n else n, 10);
  }

  lemma TenDigits()
    ensures Power10(10) == 10_000_000_000
  {
    assert Power10(4) == 10_000;
    assert Power10(7) == 10_000_000;
  }

  // ---- The reports ----

  // One line a counter.
  function Text(labels: seq<string>, values: seq<Value>): string
    requires |labels| == |values|
  {
    if labels == [] then "" else labels[0] + Render(values[0]) + "\n" + Text(labels[1..], values[1..])
  }

  function Bound(labels: seq<string>): nat
  {
    if labels == [] then 0 else |labels[0]| + 12 + Bound(labels[1..])
  }

  const SYNC_LABELS := ["Atomic counter: ", "Spinlock counter: ", "Mutex counter: ", "Semaphore counter: "]
  const IRQ_LABELS := ["IRQ count: ", "Bottom-half count: ", "Delayed work count: "]

  // No report is ever truncated: 116 and 86 characters are enough for all 32-bit values.
  lemma {:induction false} TextFits(labels: seq<string>, values: seq<Value>)
    requires |labels| == |values|
    ensures |Text(labels, values)| <= Bound(labels)
  {
    if labels != [] {
      RenderFits(values[0]);
      TextFits(labels[1..], values[1..]);
    }
  }

  lemma ReportBounds()
    ensures Bound(SYNC_LABELS) == 116 && Bound(IRQ_LABELS) == 86
  {
    assert Bound(SYNC_LABELS[3..]) == 31;
    assert SYNC_LABELS[1..][1..] == SYNC_LABELS[2..] && SYNC_LABELS[2..][1..] == SYNC_LABELS[3..];
    assert Bound(SYNC_LABELS[2..]) == 58;
    assert IRQ_LABELS[1..][1..] == IRQ_LABELS[2..];
    assert Bound(IRQ_LABELS[2..]) == 32;
  }

  lemma FirstLine(head: string, labels: seq<string>, v: Value, values: seq<Value>)
    requires |labels| == |values|
    ensures Text([head] + labels, [v] + values) == head + Render(v) + "\n" + Text(labels, values)
  {
    assert ([head] + labels)[1..] == labels && ([v] + values)[1..] == values;
  }

  // The two reports as they are printed.
  lemma SyncReport(a: Value, b: Value, c: Value, d: Value)
    ensures Text(SYNC_LABELS, [a, b, c, d])
         == "Atomic counter: " + Render(a) + "\n" + ("Spinlock counter: " + Render(b) + "\n"
            + ("Mutex counter: " + Render(c) + "\n" + ("Semaphore counter: " + Render(d) + "\n" + "")))
  {
    var l3, l2 := ["Semaphore counter: "], ["Mutex counter: ", "Semaphore counter: "];
    var l1 := ["Spinlock counter: ", "Mutex counter: ", "Semaphore counter: "];
    FirstLine("Semaphore counter: ", [], d, []);
    assert l3 == ["Semaphore counter: "] + [] && [d] == [d] + [];
    FirstLine("Mutex counter: ", l3, c, [d]);
    assert l2 == ["Mutex counter: "] + l3 && [c, d] == [c] + [d];
    FirstLine("Spinlock counter: ", l2, b, [c, d]);
    assert l1 == ["Spinlock counter: "] + l2 && [b, c, d] == [b] + [c, d];
    FirstLine("Atomic counter: ", l1, a, [b, c, d]);
    assert SYNC_LABELS == ["Atomic counter: "] + l1 && [a, b, c, d] == [a] + [b, c, d];
  }

  lemma IrqReport(a: Value, b: Value, c: Value)
    ensures Text(IRQ_LABELS, [a, b, c])
         == "IRQ count: " + Render(a) + "\n" + ("Bottom-half count: " + Render(b) + "\n"
            + ("Delayed work count: " + Render(c) + "\n" + ""))
  {
    var l2, l1 := ["Delayed work count: "], ["Bottom-half count: ", "Delayed work count: "];
    FirstLine("Delayed work count: ", [], c, []);
    assert l2 == ["Delayed work count: "] + [] && [c] == [c] + [];
    FirstLine("Bottom-half count: ", l2, b, [c]);
    assert l1 == ["Bottom-half count: "] + l2 && [b, c] == [b] + [c];
    FirstLine("IRQ count: ", l1, a, [b, c]);
    assert IRQ_LABELS == ["IRQ count: "] + l1 && [a, b, c] == [a] + [b, c];
  }

  lemma NewlineBounds(a: string, b: string, x: string, y: string)
    requires '\n' !in b && a + "\n" + x == b + "\n" + y
    ensures |b| <= |a|
  {
    assert (a + "\n" + x)[|a|] == '\n';
    assert forall k :: 0 <= k < |b| ==> (b + "\n" + y)[k] == b[k] && b[k] in b;
  }

  // Two lines that agree carry the same value and are followed by the same rest.
  lemma SplitAtNewline(a: string, b: string, x: string, y: string)
    requires '\n' !in a && '\n' !in b && a + "\n" + x == b + "\n" + y
    ensures a == b && x == y
  {
    NewlineBounds(a, b, x, y);
    NewlineBounds(b, a, y, x);
    var s, t := a + "\n" + x, b + "\n" + y;
    assert s[..|a|] == a && t[..|b|] == b;
    assert s[|a| + 1..] == x && t[|b| + 1..] == y;
  }

  lemma LineDetermines(head: string, v: int, w: int, x: string, y: string)
    requires head + Render(v) + "\n" + x == head + Render(w) + "\n" + y
    ensures v == w && x == y
  {
    var n := |head|;
    assert (head + Render(v) + "\n" + x)[n..] == Render(v) + "\n" + x;
    assert (head + Render(w) + "\n" + y)[n..] == Render(w) + "\n" + y;
    ParseRender(v);
    ParseRender(w);
    SplitAtNewline(Render(v), Render(w), x, y);
  }

  // The report determines the counters.
  lemma {:induction false} TextDetermines(labels: seq<string>, v: seq<Value>, w: seq<Value>)
    requires |labels| == |v| == |w| && Text(labels, v) == Text(labels, w)
    ensures v == w
  {
    if labels != [] {
      LineDetermines(labels[0], v[0], w[0], Text(labels[1..], v[1..]), Text(labels[1..], w[1..]));
      TextDetermines(labels[1..], v[1..], w[1..]);
    }
  }

  // ---- Reading it ----

  // The characters that a read of `size` at an offset asks the copy for.
  function Asked(text: string, offset: nat, size: nat): nat
  {
    Min(if offset < |text| then |text| - offset else 0, size)
  }

  // What comes through of a copy that misses the last `fault` characters, if there are so many.
  function Through(asked: nat, fault: nat): (n: nat)
    ensures n <= asked && (n == 0 <==> fault >= asked)
  {
    asked - Min(asked, fault)
  }

  // One read: what came through is the stretch of the text that starts at the offset, and the
  // offset moves by it.
  predicate IsRead(text: string, offset: nat, size: nat, fault: nat, piece: string, newOffset: nat)
  {
    && |piece| == Through(Asked(text, offset, size), fault)
    && newOffset == offset + |piece|
    && (piece != "" ==> piece == text[offset..newOffset])
  }

  // What a user has who puts the pieces one after another.
  function Joined(pieces: seq<string>): string
  {
    if pieces == [] then "" else Joined(pieces[..|pieces| - 1]) + pieces[|pieces| - 1]
  }

  lemma JoinedMore(pieces: seq<string>, piece: string, text: string, offset: nat)
    requires offset + |piece| <= |text| && Joined(pieces) == text[..offset]
    requires piece == text[offset..offset + |piece|]
    ensures Joined(pieces + [piece]) == text[..offset + |piece|]
  {
    assert (pieces + [piece])[..|pieces|] == pieces;
  }

  class Device {
    const deviceBuffer: array<char>
    const labels: seq<string>

    ghost predicate Valid()
    {
      deviceBuffer.Length == BUFFER_SIZE && Bound(labels) < BUFFER_SIZE
    }

    constructor (lines: seq<string>)
      requires Bound(lines) < BUFFER_SIZE
      ensures Valid() && labels == lines && fresh(deviceBuffer)
    {
      labels := lines;
      deviceBuffer := new char[BUFFER_SIZE];
    }

    // snprintf into the buffer, with its terminating NUL.
    method Print(values: seq<Value>) returns (len: nat)
      requires Valid() && |values| == |labels|
      modifies deviceBuffer
      ensures len == |Text(labels, values)| < BUFFER_SIZE
      ensures deviceBuffer[..len] == Text(labels, values) && deviceBuffer[len] == '\0'
    {
      var text := Text(labels, values);
      TextFits(labels, values);
      len := 0;
      while len < |text|
        invariant len <= |text| && deviceBuffer[..len] == text[..len]
      {
        deviceBuffer[len] := text[len];
        len := len + 1;
      }
      assert text[..|text|] == text;
      deviceBuffer[len] := '\0';
    }

    // sync_demo_read and irq_demo_read: the text is rendered anew on every call.
    method DemoRead(values: seq<Value>, offset: nat, count: nat, missing: nat)
      returns (ret: nat, user: string, newOffset: nat)
      requires Valid() && |values| == |labels|
      requires missing <= Min(if offset < |Text(labels, values)| then |Text(labels, values)| - offset else 0, count)
      modifies deviceBuffer
      ensures var text := Text(labels, values);
        if offset >= |text| then ret == 0 && user == "" && newOffset == offset
        else
          && ret == Min(|text| - offset, count) - missing
          && newOffset == offset + ret <= |text|
          && user == text[offset..newOffset]
    {
      var len := Print(values);
      if offset >= len {
        return 0, "", offset;
      }
      var bytesToRead := Min(len - offset, count);
      ret := bytesToRead - missing;
      newOffset := offset + ret;
      user := deviceBuffer[offset..newOffset];
      assert deviceBuffer[..len] == Text(labels, values);
      assert forall k :: 0 <= k < |user| ==> user[k] == deviceBuffer[offset + k] == deviceBuffer[..len][offset + k];
    }

    // One read of any size at any offset, whatever the copy misses.
    method ReadPiece(values: seq<Value>, offset: nat, size: nat, fault: nat) returns (piece: string, newOffset: nat)
      requires Valid() && |values| == |labels|
      modifies deviceBuffer
      ensures IsRead(Text(labels, values), offset, size, fault, piece, newOffset)
    {
      var asked := Asked(Text(labels, values), offset, size);
      var ret;
      ret, piece, newOffset := DemoRead(values, offset, size, asked - Through(asked, fault));
    }

    // One read of a positive size up to the end of the text, of which something comes through:
    // it brings nothing only at the end.
    method ReadSome(values: seq<Value>, offset: nat, size: nat, fault: nat) returns (piece: string, newOffset: nat)
      requires Valid() && |values| == |labels| && size > 0 && offset <= |Text(labels, values)|
      modifies deviceBuffer
      ensures offset <= newOffset <= |Text(labels, values)| && piece == Text(labels, values)[offset..newOffset]
      ensures newOffset == offset <==> offset == |Text(labels, values)|
    {
      var text := Text(labels, values);
      var missing := if offset == |text| then 0 else Min(fault, Min(|text| - offset, size) - 1);
      var ret;
      ret, piece, newOffset := DemoRead(values, offset, size, missing);
    }

    // With the counters at rest, reads of any positive sizes, of each of which something comes
    // through, add up to the text; all bring something but the last one, which ends it.
    method ReadReport(values: seq<Value>, sizes: nat -> nat, faults: nat -> nat)
      returns (pieces: seq<string>, offset: nat)
      requires Valid() && |values| == |labels|
      modifies deviceBuffer
      ensures Joined(pieces) == Text(labels, values) && offset == |Text(labels, values)|
      ensures pieces != [] && forall n :: 0 <= n < |pieces| ==> (|pieces[n]| == 0 <==> n == |pieces| - 1)
    {
      ghost var text := Text(labels, values);
      pieces, offset := [], 0;
      var ended := false;
      while !ended
        invariant offset <= |text| && Joined(pieces) == text[..offset]
        invariant ended ==> pieces != [] && |pieces[|pieces| - 1]| == 0 && offset == |text|
        invariant forall n :: 0 <= n < (if ended then |pieces| - 1 else |pieces|) ==> |pieces[n]| > 0
        decreases |text| - offset, !ended
      {
        var piece, newOffset := ReadSome(values, offset, sizes(|pieces|) + 1, faults(|pieces|));
        JoinedMore(pieces, piece, text, offset);
        ended := newOffset == offset;
        pieces, offset := pieces + [piece], newOffset;
      }
    }

    // With counters that change between the reads, piece n is what the text of its moment
    // has from offset n on, each offset is the last one and what came then, and none passes
    // the bound, whatever the copies miss.
    method ReadChanging(snapshots: seq<seq<Value>>, sizes: nat -> nat, faults: nat -> nat)
      returns (offsets: seq<nat>, pieces: seq<string>)
      requires Valid() && forall n :: 0 <= n < |snapshots| ==> |snapshots[n]| == |labels|
      modifies deviceBuffer
      ensures |pieces| == |snapshots| && |offsets| == |snapshots| + 1 && offsets[0] == 0
      ensures forall n :: 0 <= n < |offsets| ==> offsets[n] <= Bound(labels)
      ensures forall n :: 0 <= n < |pieces| ==>
        IsRead(Text(labels, snapshots[n]), offsets[n], sizes(n), faults(n), pieces[n], offsets[n + 1])
    {
      offsets, pieces := [0], [];
      for n := 0 to |snapshots|
        invariant |pieces| == n && |offsets| == n + 1 && offsets[0] == 0
        invariant forall k :: 0 <= k <= n ==> offsets[k] <= Bound(labels)
        invariant forall k :: 0 <= k < n ==>
          IsRead(Text(labels, snapshots[k]), offsets[k], sizes(k), faults(k), pieces[k], offsets[k + 1])
      {
        var piece, offset := ReadPiece(snapshots[n], offsets[n], sizes(n), faults(n));
        TextFits(labels, snapshots[n]);
        pieces, offsets := pieces + [piece], offsets + [offset];
      }
    }
  }
}
