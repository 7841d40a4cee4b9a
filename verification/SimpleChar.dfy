// The character device of tutorial-02 in place: the buffer is an array that writes change,
// the positions are those of the open files. Every operation is proved against the
// abstract file; the loops at the end are the callers' usual ones.
module SimpleChar {
  import opened Basics
  import opened CharFile

  // What a 64-bit register makes of the sum of two offsets.
  function Sum64(a: Loff, b: Loff): Loff
  {
    var n: int := a as int + b as int;
    if n >= 0x8000_0000_0000_0000 then n - 0x1_0000_0000_0000_0000
    else if n < -0x8000_0000_0000_0000 then n + 0x1_0000_0000_0000_0000
    else n
  }

  class Device {
    const deviceBuffer: array<Byte>
    var positions: seq<nat>

    ghost predicate Valid()
      reads this, deviceBuffer
    {
      deviceBuffer.Length == SIZE && Sound(View())
    }

    ghost function View(): File
      reads this, deviceBuffer
    {
      File(deviceBuffer[..], positions)
    }

    // simple_char_init: the buffer is cleared; no file is open.
    constructor ()
      ensures Valid() && fresh(deviceBuffer)
      ensures positions == [] && forall x :: 0 <= x < SIZE ==> deviceBuffer[x] == 0
    {
      deviceBuffer := new Byte[SIZE](_ => 0);
      positions := [];
    }

    method CharOpen() returns (fd: nat)
      requires Valid()
      modifies this
      ensures Valid() && View() == Apply(old(View()), Open) && fd == Returned(old(View()), Open)
    {
      fd := |positions|;
      positions := positions + [0];
    }

    method CharRead(fd: nat, count: nat, missing: nat) returns (ret: int, user: seq<Byte>)
      requires Valid() && Allowed(View(), Read(fd, count, missing))
      modifies this`positions
      ensures Valid() && View() == Apply(old(View()), Read(fd, count, missing))
      ensures ret == Returned(old(View()), Read(fd, count, missing))
      ensures user == Handed(old(View()), Read(fd, count, missing))
    {
      var bytesToRead := Min(SIZE - positions[fd], count);
      if bytesToRead == 0 {
        return 0, [];
      }
      var copied := bytesToRead - missing;
      user := deviceBuffer[positions[fd]..positions[fd] + copied];
      positions := positions[fd := positions[fd] + copied];
      ret := copied;
    }

    // copy_from_user into the buffer: the bytes that come through, then whatever a failing
    // copy leaves in the rest of the window.
    method CopyFromUser(at: nat, bytes: seq<Byte>)
      requires Valid() && at + |bytes| <= SIZE
      modifies deviceBuffer
      ensures Valid() && deviceBuffer[..] == Splice(old(deviceBuffer[..]), at, bytes)
    {
      for k := 0 to |bytes|
        invariant deviceBuffer[..] == Splice(old(deviceBuffer[..]), at, bytes[..k])
      {
        deviceBuffer[at + k] := bytes[k];
        assert bytes[..k + 1] == bytes[..k] + [bytes[k]];
      }
      assert bytes[..|bytes|] == bytes;
    }

    method CharWrite(fd: nat, data: seq<Byte>, missing: nat, tail: seq<Byte>) returns (ret: int)
      requires Valid() && Allowed(View(), Write(fd, data, missing, tail))
      modifies this`positions, deviceBuffer
      ensures Valid() && View() == Apply(old(View()), Write(fd, data, missing, tail))
      ensures ret == Returned(old(View()), Write(fd, data, missing, tail))
    {
      var bytesToWrite := Min(SIZE - positions[fd], |data|);
      if bytesToWrite == 0 {
        return -ENOSPC;
      }
      var copied := bytesToWrite - missing;
      CopyFromUser(positions[fd], data[..copied] + tail);
      positions := positions[fd := positions[fd] + copied];
      ret := copied;
    }

    // The sum wraps in 64 bits before it is compared; no wrapped sum passes for a position.
    method CharLlseek(fd: nat, offset: Loff, whence: int) returns (ret: int)
      requires Valid() && Allowed(View(), Seek(fd, offset, whence))
      modifies this`positions
      ensures Valid() && View() == Apply(old(View()), Seek(fd, offset, whence))
      ensures ret == Returned(old(View()), Seek(fd, offset, whence))
    {
      var newPos: int;
      match whence {
        case 0 => newPos := offset;
        case 1 => newPos := Sum64(positions[fd], offset);
        case 2 => newPos := Sum64(SIZE, offset);
        case _ => return -EINVAL;
      }
      if newPos < 0 || newPos > SIZE {
        return -EINVAL;
      }
      positions := positions[fd := newPos];
      ret := newPos;
    }
  }

  // What goes wrong in the user copies of one loop: step j moves all but some of the bytes,
  // never none, and leaves junk where it stopped.
  datatype Faults = Faults(missing: nat -> nat, junk: (nat, nat) -> Byte)

  // One write() of what is left; part of it comes through unless there is no room, and
  // nothing outside the requested window changes.
  method WriteSome(dev: Device, fd: nat, rest: seq<Byte>, faults: Faults, step: nat) returns (ret: int)
    requires dev.Valid() && fd < |dev.positions|
    modifies dev`positions, dev.deviceBuffer
    ensures dev.Valid()
    ensures var at, request := old(dev.positions[fd]), Min(|rest|, SIZE - old(dev.positions[fd]));
      && (if request == 0 then ret < 0 else 0 < ret <= request)
      && dev.positions == old(dev.positions)[fd := at + if ret < 0 then 0 else ret]
      && (ret > 0 ==> dev.deviceBuffer[at..at + ret] == rest[..ret])
      && (forall x :: 0 <= x < SIZE && !(at <= x < at + request) ==> dev.deviceBuffer[x] == old(dev.deviceBuffer[x]))
  {
    var at, request := dev.positions[fd], Min(|rest|, SIZE - dev.positions[fd]);
    var missing := if request == 0 then 0 else faults.missing(step) % request;
    var left := seq(missing, i requires 0 <= i < missing => faults.junk(step, i));
    ghost var call, before := Write(fd, rest, missing, left), dev.View();
    ret := dev.CharWrite(fd, rest, missing, left);
    forall x | 0 <= x < SIZE && !(at <= x < at + request) ensures dev.deviceBuffer[x] == before.content[x] {
      ByteAfter(before, call, x);
      assert dev.View().content[x] == dev.deviceBuffer[x];
    }
  }

  lemma SpliceByParts(before: seq<Byte>, after: seq<Byte>, at: nat, bytes: seq<Byte>)
    requires |before| == |after| && at + |bytes| <= |before| && after[at..at + |bytes|] == bytes
    requires forall x :: 0 <= x < |before| && !(at <= x < at + |bytes|) ==> after[x] == before[x]
    ensures after == Splice(before, at, bytes)
  {
    forall x | 0 <= x < |before| ensures after[x] == Splice(before, at, bytes)[x] {
      if at <= x < at + |bytes| { assert after[x] == after[at..at + |bytes|][x - at]; }
    }
  }

  lemma PrefixGrows(was: seq<Byte>, now: seq<Byte>, at: nat, data: seq<Byte>, done: nat, more: nat)
    requires |was| == |now| && at + done + more <= |now| && done + more <= |data|
    requires was[at..at + done] == data[..done] && forall x :: at <= x < at + done ==> now[x] == was[x]
    requires now[at + done..at + done + more] == data[done..][..more]
    ensures now[at..at + done + more] == data[..done + more]
  {
    assert now[at..at + done] == was[at..at + done];
    assert now[at..at + done + more] == now[at..at + done] + now[at + done..at + done + more];
    assert data[..done + more] == data[..done] + data[done..][..more];
  }

  // A caller that retries until all is written or the device is full, whatever part of
  // each request comes through.
  method WriteAll(dev: Device, fd: nat, data: seq<Byte>, faults: Faults) returns (written: nat)
    requires dev.Valid() && fd < |dev.positions|
    modifies dev`positions, dev.deviceBuffer
    ensures dev.Valid() && written == Min(|data|, SIZE - old(dev.positions[fd]))
    ensures dev.positions == old(dev.positions)[fd := old(dev.positions[fd]) + written]
    ensures dev.deviceBuffer[..] == Splice(old(dev.deviceBuffer[..]), old(dev.positions[fd]), data[..written])
  {
    var start := dev.positions[fd];
    ghost var whole, before := Min(|data|, SIZE - start), dev.deviceBuffer[..];
    written := 0;
    var step := 0;
    while written < |data|
      invariant dev.Valid() && written <= whole
      invariant dev.positions == old(dev.positions)[fd := start + written]
      invariant dev.deviceBuffer[..][start..start + written] == data[..written]
      invariant forall x :: 0 <= x < SIZE && !(start <= x < start + whole) ==> dev.deviceBuffer[x] == before[x]
      decreases SIZE - dev.positions[fd]
    {
      ghost var was := dev.deviceBuffer[..];
      var ret := WriteSome(dev, fd, data[written..], faults, step);
      if ret < 0 {
        break;
      }
      PrefixGrows(was, dev.deviceBuffer[..], start, data, written, ret);
      written := written + ret;
      step := step + 1;
    }
    assert written == whole;
    SpliceByParts(before, dev.deviceBuffer[..], start, data[..written]);
  }

  // One read() of at most `count` bytes; part of them comes through unless none are left.
  method ReadSome(dev: Device, fd: nat, count: nat, faults: Faults, step: nat) returns (user: seq<Byte>)
    requires dev.Valid() && fd < |dev.positions| && count > 0
    modifies dev`positions
    ensures dev.Valid()
    ensures var at := old(dev.positions[fd]);
      && (if at == SIZE then user == [] else 0 < |user| <= count && at + |user| <= SIZE)
      && dev.positions == old(dev.positions)[fd := at + |user|]
      && (user != [] ==> user == dev.deviceBuffer[at..at + |user|])
  {
    var request := Min(SIZE - dev.positions[fd], count);
    var missing := if request == 0 then 0 else faults.missing(step) % request;
    var ret;
    ret, user := dev.CharRead(fd, count, missing);
  }

  // A caller that reads until it has `want` bytes or meets the end, in chunks of any size.
  method ReadUpTo(dev: Device, fd: nat, want: nat, chunk: nat -> nat, faults: Faults) returns (got: seq<Byte>)
    requires dev.Valid() && fd < |dev.positions|
    modifies dev`positions
    ensures dev.Valid() && |got| == Min(want, SIZE - old(dev.positions[fd]))
    ensures got == dev.deviceBuffer[old(dev.positions[fd])..old(dev.positions[fd]) + |got|]
    ensures dev.positions == old(dev.positions)[fd := old(dev.positions[fd]) + |got|]
  {
    var start := dev.positions[fd];
    got := [];
    var step := 0;
    while |got| < want
      invariant dev.Valid() && |got| <= want && start + |got| <= SIZE
      invariant dev.positions == old(dev.positions)[fd := start + |got|]
      invariant got == dev.deviceBuffer[start..start + |got|]
      decreases SIZE - dev.positions[fd]
    {
      var user := ReadSome(dev, fd, Min(chunk(step) + 1, want - |got|), faults, step);
      if user == [] {
        break;
      }
      assert dev.deviceBuffer[start..start + |got| + |user|]
          == dev.deviceBuffer[start..start + |got|] + dev.deviceBuffer[start + |got|..start + |got| + |user|];
      got := got + user;
      step := step + 1;
    }
  }

  // The round trip: what a caller writes at a position, in whatever pieces, it reads back
  // from there, in whatever pieces; the rest of the device is as before.
  method RoundTrip(dev: Device, fd: nat, data: seq<Byte>, chunk: nat -> nat, writeFaults: Faults, readFaults: Faults)
    returns (got: seq<Byte>)
    requires dev.Valid() && fd < |dev.positions|
    modifies dev`positions, dev.deviceBuffer
    ensures dev.Valid() && got == data[..Min(|data|, SIZE - old(dev.positions[fd]))]
    ensures dev.deviceBuffer[..] == Splice(old(dev.deviceBuffer[..]), old(dev.positions[fd]), got)
    ensures dev.positions == old(dev.positions)[fd := old(dev.positions[fd]) + |got|]
  {
    var start := dev.positions[fd];
    var written := WriteAll(dev, fd, data, writeFaults);
    var ret := dev.CharLlseek(fd, start, 0);
    got := ReadUpTo(dev, fd, written, chunk, readFaults);
  }
}
