// The command channels of /dev/sync_demo and /dev/irq_demo: what a write() makes of the
// bytes it is given, and what a writer that keeps going makes happen.
module Commands {
  import opened Basics

  const EFAULT: int := 14
  const CHUNK: nat := 15   // sizeof(buffer) - 1

  datatype Channel = Sync | Irq

  datatype Action = Trigger | Reset

  // The command that a byte string starts with.
  function CommandOf(ch: Channel, bytes: string): seq<Action>
  {
    if ch == Irq && "trigger" <= bytes then [Trigger]
    else if "reset" <= bytes then [Reset]
    else []
  }

  // The actions of one write of these bytes: an interrupt exactly for "trigger" on the
  // interrupt channel, a reset exactly for "reset" on either, and no more than one.
  predicate Obeys(ch: Channel, bytes: string, actions: seq<Action>)
  {
    && (Trigger in actions <==> ch == Irq && |bytes| >= 7 && bytes[..7] == "trigger")
    && (Reset in actions <==> |bytes| >= 5 && bytes[..5] == "reset")
    && |actions| <= 1
  }

  lemma CommandObeys(ch: Channel, bytes: string)
    ensures Obeys(ch, bytes, CommandOf(ch, bytes))
  {
    assert "trigger" <= bytes <==> |bytes| >= 7 && bytes[..7] == "trigger";
    assert "reset" <= bytes <==> |bytes| >= 5 && bytes[..5] == "reset";
    if "trigger" <= bytes { assert bytes[0] == 't'; }
    if "reset" <= bytes { assert bytes[0] == 'r'; }
  }

  // The actions of several writes, one after another.
  function Joined(calls: seq<seq<Action>>): seq<Action>
  {
    if calls == [] then [] else Joined(calls[..|calls| - 1]) + calls[|calls| - 1]
  }

  // The commands at every fifteenth byte from chunk k on, each judged by all that follows.
  function Stream(ch: Channel, bytes: string, k: nat): seq<Action>
    decreases |bytes| - CHUNK * k
  {
    if CHUNK * k >= |bytes| then []
    else CommandOf(ch, bytes[CHUNK * k..]) + Stream(ch, bytes, k + 1)
  }

  // strncmp(s, word, |word|) == 0: the word has no NUL, so the loop never passes one in s.
  method Matches(s: array<char>, word: string) returns (same: bool)
    requires |word| < s.Length
    ensures same <==> word <= s[..]
  {
    for k := 0 to |word|
      invariant word[..k] == s[..k]
    {
      if s[k] != word[k] {
        return false;
      }
      assert word[..k + 1] == word[..k] + [word[k]];
    }
    assert word[..|word|] == word;
    return true;
  }

  // sync_demo_write and irq_demo_write. The buffer on the stack holds anything at first;
  // what the call does depends on the caller's bytes alone, and on no more of them than
  // the command word.
  method DemoWrite(ch: Channel, user: string, copyFails: bool) returns (ret: int, actions: seq<Action>)
    ensures if copyFails then ret == -14 && actions == []
            else ret == Min(|user|, 15) && actions == CommandOf(ch, user) && Obeys(ch, user, actions)
  {
    var buffer := new char[CHUNK + 1];
    var bytesToCopy := Min(|user|, CHUNK);
    if copyFails {
      return -EFAULT, [];
    }
    for k := 0 to bytesToCopy
      invariant buffer[..k] == user[..k]
    {
      buffer[k] := user[k];
    }
    buffer[bytesToCopy] := '\0';
    actions := [];
    var trigger := Matches(buffer, "trigger");
    var reset := Matches(buffer, "reset");
    BufferSpeaks(buffer[..], user, "trigger");
    BufferSpeaks(buffer[..], user, "reset");
    if ch == Irq && trigger {
      actions := [Trigger];
    } else if reset {
      actions := [Reset];
    }
    ret := bytesToCopy;
    CommandObeys(ch, user);
  }

  // A word shorter than the chunk starts the terminated copy exactly when it starts the bytes.
  lemma BufferSpeaks(buffer: string, user: string, word: string)
    requires |buffer| == CHUNK + 1 && |word| <= CHUNK && '\0' !in word
    requires buffer[..Min(|user|, CHUNK)] == user[..Min(|user|, CHUNK)] && buffer[Min(|user|, CHUNK)] == '\0'
    ensures word <= buffer <==> word <= user
  {
    var n := Min(|user|, CHUNK);
    assert |word| > n ==> word[n] in word;
    if |word| <= n {
      assert buffer[..n][..|word|] == buffer[..|word|] && user[..n][..|word|] == user[..|word|];
    }
  }

  lemma StreamStep(ch: Channel, bytes: string, k: nat, before: seq<Action>)
    requires CHUNK * k < |bytes|
    ensures before + Stream(ch, bytes, k)
         == (before + CommandOf(ch, bytes[CHUNK * k..])) + Stream(ch, bytes, k + 1)
  {
  }

  // A writer that keeps sending what is left: every byte is consumed, fifteen by one call but
  // for the last, and call k carries out the command that the bytes from 15k on start with.
  method WriteStream(ch: Channel, bytes: string) returns (actions: seq<Action>, sent: nat, calls: seq<seq<Action>>)
    ensures actions == Stream(ch, bytes, 0) && sent == |bytes|
    ensures actions == Joined(calls)
    ensures forall k: nat :: k < |calls| <==> 15 * k < |bytes|
    ensures forall k :: 0 <= k < |calls| ==> Obeys(ch, bytes[15 * k..], calls[k])
  {
    actions, sent, calls := [], 0, [];
    while sent < |bytes|
      invariant sent == Min(|bytes|, CHUNK * |calls|)
      invariant actions + Stream(ch, bytes, |calls|) == Stream(ch, bytes, 0) && actions == Joined(calls)
      invariant forall k :: 0 <= k < |calls| ==> 15 * k < |bytes| && Obeys(ch, bytes[15 * k..], calls[k])
    {
      var ret, some := DemoWrite(ch, bytes[sent..], false);
      StreamStep(ch, bytes, |calls|, actions);
      assert (calls + [some])[..|calls|] == calls;
      actions, sent, calls := actions + some, sent + ret, calls + [some];
    }
  }

  // Only the word's own bytes count: what follows a full chunk cannot change its command.
  lemma ChunkDecides(ch: Channel, a: string, b: string)
    requires |a| >= CHUNK
    ensures CommandOf(ch, a + b) == CommandOf(ch, a)
  {
    assert (a + b)[..7] == a[..7] && (a + b)[..5] == a[..5];
  }

  lemma JoinStep(ch: Channel, a: string, b: string, k: nat)
    requires CHUNK * k + CHUNK <= |a|
    ensures Stream(ch, a + b, k) == CommandOf(ch, a[CHUNK * k..]) + Stream(ch, a + b, k + 1)
  {
    ChunkDecides(ch, a[CHUNK * k..], b);
    assert (a + b)[CHUNK * k..] == a[CHUNK * k..] + b;
  }

  lemma Regroup(first: seq<Action>, whole: seq<Action>, rest: seq<Action>, more: seq<Action>, joined: seq<Action>)
    requires whole == first + rest && joined == rest + more
    ensures first + joined == whole + more
  {
  }

  // Streams that end on a chunk boundary concatenate: their commands do, too.
  lemma {:induction false} StreamsJoin(ch: Channel, a: string, b: string, n: nat, k: nat)
    requires |a| == CHUNK * n && k <= n
    ensures Stream(ch, a + b, k) == Stream(ch, a, k) + Stream(ch, b, 0)
    decreases n - k
  {
    if k == n {
      StreamShifts(ch, a, b, k, 0);
    } else {
      StreamsJoin(ch, a, b, n, k + 1);
      JoinStep(ch, a, b, k);
      Regroup(CommandOf(ch, a[CHUNK * k..]), Stream(ch, a, k), Stream(ch, a, k + 1), Stream(ch, b, 0),
              Stream(ch, a + b, k + 1));
    }
  }

  lemma {:induction false} StreamShifts(ch: Channel, a: string, b: string, k: nat, j: nat)
    requires |a| == CHUNK * k
    ensures Stream(ch, a + b, k + j) == Stream(ch, b, j)
    decreases |b| - CHUNK * j
  {
    if CHUNK * j < |b| {
      assert (a + b)[CHUNK * (k + j)..] == b[CHUNK * j..];
      StreamShifts(ch, a, b, k, j + 1);
    }
  }
}
