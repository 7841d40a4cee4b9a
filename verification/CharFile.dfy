// The abstract file behind tutorial-02: 1024 bytes shared by any number of opens, each with
// its own position, moved as read(), write() and lseek() of POSIX.1-2017 prescribe, with
// two deliberate differences: seeks past the end fail, and so do empty writes.
module CharFile {

  newtype Byte = x: int | 0 <= x < 256

  // loff_t.
  type Loff = x: int | -0x8000_0000_0000_0000 <= x < 0x8000_0000_0000_0000

  const SIZE: nat := 1024
  const EINVAL: int := 22
  const ENOSPC: int := 28

  datatype File = File(content: seq<Byte>, positions: seq<nat>)

  ghost predicate Sound(f: File)
  {
    |f.content| == SIZE && forall fd :: 0 <= fd < |f.positions| ==> f.positions[fd] <= SIZE
  }

  // A call on an open file. `missing` is what the user copy fails to copy; `tail` is what a
  // failing copy leaves in that part of the window it was asked to fill.
  datatype Call =
    | Open
    | Read(fd: nat, count: nat, missing: nat)
    | Write(fd: nat, data: seq<Byte>, missing: nat, tail: seq<Byte>)
    | Seek(fd: nat, offset: Loff, whence: int)

  // The bytes a transfer of `count` can move.
  function Room(f: File, fd: nat, count: nat): nat
    requires fd < |f.positions|
  {
    if f.positions[fd] + count <= SIZE then count
    else if f.positions[fd] <= SIZE then SIZE - f.positions[fd] else 0
  }

  ghost predicate Allowed(f: File, call: Call)
  {
    match call
    case Open => true
    case Read(fd, count, missing) => fd < |f.positions| && missing <= Room(f, fd, count)
    case Write(fd, data, missing, tail) =>
      fd < |f.positions| && missing <= Room(f, fd, |data|) && |tail| == missing
    case Seek(fd, _, _) => fd < |f.positions|
  }

  function Splice(content: seq<Byte>, at: nat, bytes: seq<Byte>): seq<Byte>
    requires at + |bytes| <= |content|
  {
    content[..at] + bytes + content[at + |bytes|..]
  }

  // Where a seek leads, in unbounded arithmetic; nothing when the call fails.
  datatype Target = Nowhere | To(position: nat)

  function SeekTarget(position: nat, offset: int, whence: int): Target
  {
    var base := if whence == 0 then 0 else if whence == 1 then position else SIZE;
    if whence < 0 || whence > 2 || base + offset < 0 || base + offset > SIZE then Nowhere else To(base + offset)
  }

  // What a call returns: a count, a position, or a negated error.
  function Returned(f: File, call: Call): int
    requires Sound(f) && Allowed(f, call)
  {
    match call
    case Open => |f.positions|
    case Read(fd, count, missing) => Room(f, fd, count) - missing
    case Write(fd, data, missing, _) =>
      if Room(f, fd, |data|) == 0 then -ENOSPC else Room(f, fd, |data|) - missing
    case Seek(fd, offset, whence) =>
      var target := SeekTarget(f.positions[fd], offset, whence);
      if target.Nowhere? then -EINVAL else target.position
  }

  // The bytes a call hands to the user.
  function Handed(f: File, call: Call): seq<Byte>
    requires Sound(f) && Allowed(f, call)
  {
    if call.Read? then
      f.content[f.positions[call.fd]..f.positions[call.fd] + Returned(f, call)]
    else []
  }

  function Apply(f: File, call: Call): File
    requires Sound(f) && Allowed(f, call)
  {
    match call
    case Open => f.(positions := f.positions + [0])
    case Read(fd, _, _) => f.(positions := f.positions[fd := f.positions[fd] + Returned(f, call)])
    case Write(fd, data, missing, tail) =>
      if Room(f, fd, |data|) == 0 then f
      else
        var n := Returned(f, call);
        File(Splice(f.content, f.positions[fd], data[..n] + tail),
             f.positions[fd := f.positions[fd] + n])
    case Seek(fd, offset, whence) =>
      if Returned(f, call) < 0 then f else f.(positions := f.positions[fd := Returned(f, call)])
  }

  // ---- Laws of every call ----

  lemma ApplySound(f: File, call: Call)
    requires Sound(f) && Allowed(f, call)
    ensures Sound(Apply(f, call)) && |Apply(f, call).positions| >= |f.positions|
  {
  }

  // A failing call changes nothing.
  lemma FailureChangesNothing(f: File, call: Call)
    requires Sound(f) && Allowed(f, call) && Returned(f, call) < 0
    ensures Apply(f, call) == f
  {
  }

  // A transfer moves its own position by exactly the bytes it reports, and no other one.
  lemma PositionsMove(f: File, call: Call, fd: nat)
    requires Sound(f) && Allowed(f, call) && fd < |f.positions|
    ensures var moved := Apply(f, call).positions[fd];
      if call.Open? || call.fd != fd || Returned(f, call) < 0 then moved == f.positions[fd]
      else moved == if call.Seek? then Returned(f, call) else f.positions[fd] + Returned(f, call)
  {
  }

  // ---- What seeks, transfers and opens mean ----

  // SEEK_SET counts from the start, SEEK_CUR from the position, SEEK_END from byte 1024; what
  // would lead outside 0..1024, or has another whence, is -EINVAL; only that position moves.
  lemma SeekMeaning(f: File, fd: nat, offset: Loff, whence: int)
    requires Sound(f) && fd < |f.positions|
    ensures var ret, after := Returned(f, Seek(fd, offset, whence)), Apply(f, Seek(fd, offset, whence));
      && (whence == 0 ==> ret == if 0 <= offset <= 1024 then offset else -22)
      && (whence == 1 ==> ret == if 0 <= f.positions[fd] + offset <= 1024 then f.positions[fd] + offset else -22)
      && (whence == 2 ==> ret == if -1024 <= offset <= 0 then 1024 + offset else -22)
      && (whence < 0 || whence > 2 ==> ret == -22)
      && after == if ret < 0 then f else File(f.content, f.positions[fd := ret])
  {
  }

  // Two relative seeks in a row are one; the first has to succeed.
  lemma RelativeSeeksAdd(f: File, fd: nat, a: Loff, b: Loff)
    requires Sound(f) && fd < |f.positions| && Returned(f, Seek(fd, a, 1)) >= 0
    requires -0x8000_0000_0000_0000 <= a as int + b as int < 0x8000_0000_0000_0000
    ensures var f', both := Apply(f, Seek(fd, a, 1)), Seek(fd, a + b, 1);
      && Sound(f') && Returned(f', Seek(fd, b, 1)) == Returned(f, both)
      && (Returned(f, both) >= 0 ==> Apply(f', Seek(fd, b, 1)) == Apply(f, both))
  {
    ApplySound(f, Seek(fd, a, 1));
    SeekMeaning(f, fd, a, 1);
  }

  // A position asked for and sought again after any other seek is the position as it was.
  lemma SeekBack(f: File, fd: nat, offset: Loff, whence: int)
    requires Sound(f) && fd < |f.positions|
    ensures Returned(f, Seek(fd, 0, 1)) == f.positions[fd] && Apply(f, Seek(fd, 0, 1)) == f
    ensures var away := Apply(f, Seek(fd, offset, whence));
      Sound(away) && Apply(away, Seek(fd, f.positions[fd], 0)) == f
  {
    ApplySound(f, Seek(fd, offset, whence));
    SeekMeaning(f, fd, offset, whence);
  }

  // A read that nothing disturbs hands over the bytes at its position: as many as it asks
  // for, or all up to byte 1024.
  lemma ReadMeaning(f: File, fd: nat, count: nat)
    requires Sound(f) && fd < |f.positions|
    ensures var at, n := f.positions[fd], Returned(f, Read(fd, count, 0));
      && 0 <= n <= count && at + n <= 1024 && (n == count || at + n == 1024)
      && Handed(f, Read(fd, count, 0)) == f.content[at..at + n]
      && Apply(f, Read(fd, count, 0)) == File(f.content, f.positions[fd := at + n])
  {
  }

  // A write that nothing disturbs stores the caller's bytes there, all or up to byte 1024; it
  // is -ENOSPC when it has none to store or no room.
  lemma WriteMeaning(f: File, fd: nat, data: seq<Byte>)
    requires Sound(f) && fd < |f.positions|
    ensures var at, ret := f.positions[fd], Returned(f, Write(fd, data, 0, []));
      if data == [] || at == 1024 then ret == -28 && Apply(f, Write(fd, data, 0, [])) == f
      else
        && 0 < ret <= |data| && at + ret <= 1024 && (ret == |data| || at + ret == 1024)
        && Apply(f, Write(fd, data, 0, []))
             == File(f.content[..at] + data[..ret] + f.content[at + ret..], f.positions[fd := at + ret])
  {
    assert forall n :: 0 <= n <= |data| ==> data[..n] + [] == data[..n];
  }

  // A new open is at the start, wherever the others are, and reads the whole file.
  lemma OpenMeaning(f: File)
    requires Sound(f)
    ensures var f', fd := Apply(f, Open), Returned(f, Open);
      && f' == File(f.content, f.positions + [0]) && fd == |f.positions| && Sound(f')
      && Handed(f', Read(fd, 1024, 0)) == f.content
  {
    ReadMeaning(Apply(f, Open), |f.positions|, 1024);
  }

  // All opens share the bytes: what is written through one is read through any other.
  lemma OpensShareBytes(f: File, writer: nat, reader: nat, data: seq<Byte>)
    requires Sound(f) && writer < |f.positions| && reader < |f.positions| && writer != reader
    requires f.positions[writer] == f.positions[reader] && f.positions[writer] + |data| <= SIZE
    ensures var f' := Apply(f, Write(writer, data, 0, []));
      Sound(f') && Handed(f', Read(reader, |data|, 0)) == data
  {
    var f' := Apply(f, Write(writer, data, 0, []));
    ApplySound(f, Write(writer, data, 0, []));
    WriteMeaning(f, writer, data);
    ReadMeaning(f', reader, |data|);
    assert data[..|data|] == data;
  }

  // The bytes that a call may touch.
  predicate InWindow(f: File, call: Call, x: nat)
  {
    && call.Write? && call.fd < |f.positions|
    && f.positions[call.fd] <= x < f.positions[call.fd] + Room(f, call.fd, |call.data|)
  }

  // Byte by byte: what was reported written is the caller's, the rest of the window is what
  // the failed copy left there, and everything outside the window stays.
  lemma ByteAfter(f: File, call: Call, x: nat)
    requires Sound(f) && Allowed(f, call) && x < SIZE
    ensures |Apply(f, call).content| == SIZE
    ensures Apply(f, call).content[x] ==
      if !InWindow(f, call, x) then f.content[x]
      else var k := x - f.positions[call.fd];
        if k < Returned(f, call) then call.data[k] else call.tail[k - Returned(f, call)]
  {
  }

  // And it happens: whatever is to be written, and however much of it is reported short of the
  // window, the failed copy can leave the byte after the last one reported changed.
  lemma ResidueHappens(f: File, fd: nat, data: seq<Byte>, copied: nat) returns (tail: seq<Byte>)
    requires Sound(f) && fd < |f.positions| && copied < Room(f, fd, |data|)
    ensures var call := Write(fd, data, |tail|, tail);
      && Allowed(f, call) && Returned(f, call) == copied
      && f.positions[fd] + copied < SIZE
      && Apply(f, call).content[f.positions[fd] + copied] != f.content[f.positions[fd] + copied]
  {
    var was := f.content[f.positions[fd] + copied];
    var other: Byte := if was == 0 then 1 else 0;
    tail := seq(Room(f, fd, |data|) - copied, _ => other);
    ByteAfter(f, Write(fd, data, |tail|, tail), f.positions[fd] + copied);
  }

  // ---- Whole runs ----

  ghost predicate AllAllowed(f: File, calls: seq<Call>)
    requires Sound(f)
    decreases |calls|
  {
    calls != [] ==>
      && Allowed(f, calls[0])
      && (ApplySound(f, calls[0]); AllAllowed(Apply(f, calls[0]), calls[1..]))
  }

  ghost function ApplyAll(f: File, calls: seq<Call>): File
    requires Sound(f) && AllAllowed(f, calls)
    decreases |calls|
  {
    if calls == [] then f
    else
      ApplySound(f, calls[0]);
      ApplyAll(Apply(f, calls[0]), calls[1..])
  }

  ghost predicate EverInWindow(f: File, calls: seq<Call>, x: nat)
    requires Sound(f) && AllAllowed(f, calls)
    decreases |calls|
  {
    calls != [] &&
      (InWindow(f, calls[0], x) || (ApplySound(f, calls[0]); EverInWindow(Apply(f, calls[0]), calls[1..], x)))
  }

  // Over every sequence of calls the positions stay in 0..1024, and a byte that no write's
  // window covers stays what it was.
  lemma {:induction false} RunsKeep(f: File, calls: seq<Call>, x: nat)
    requires Sound(f) && AllAllowed(f, calls) && x < SIZE
    ensures Sound(ApplyAll(f, calls))
    ensures !EverInWindow(f, calls, x) ==> ApplyAll(f, calls).content[x] == f.content[x]
    decreases |calls|
  {
    if calls != [] {
      ApplySound(f, calls[0]);
      ByteAfter(f, calls[0], x);
      RunsKeep(Apply(f, calls[0]), calls[1..], x);
    }
  }

  // Sequential reads over a stretch nobody writes see its bytes in order, gap and overlap
  // free: two transfers in a row are one.
  lemma ReadsJoin(f: File, fd: nat, a: nat, b: nat)
    requires Sound(f) && fd < |f.positions| && f.positions[fd] + a + b <= SIZE
    ensures var f' := Apply(f, Read(fd, a, 0));
      && Sound(f') && Allowed(f', Read(fd, b, 0))
      && Handed(f, Read(fd, a, 0)) + Handed(f', Read(fd, b, 0)) == Handed(f, Read(fd, a + b, 0))
  {
    ApplySound(f, Read(fd, a, 0));
  }
}
