/** The two loops that read a pipe through one reused buffer and queue what they read. */
module Pumps {
  import opened Wrappers
  import opened Protocol
  import F = Framing

  const BUFFER: nat := 8 * 1024

  datatype Read = Data(bytes: seq<byte>) | End | Fault | Interrupted

  /** A read fills at least one byte and at most the buffer. */
  ghost predicate Fits(script: seq<Read>) {
    forall r <- script :: r.Data? ==> 0 < |r.bytes| <= BUFFER
  }

  /** A pipe, as the outcomes of the reads made on it; after the last one it stays at its end. */
  class Pipe {
    var script: seq<Read>

    constructor (script: seq<Read>)
      ensures this.script == script
    {
      this.script := script;
    }

    /** Overwrites the front of `buf`; the rest keeps whatever an earlier read left there. */
    method ReadInto(buf: array<byte>) returns (r: Read, n: nat)
      requires buf.Length == BUFFER && Fits(script)
      modifies this, buf
      ensures old(script) == [] ==> r == End && script == []
      ensures old(script) != [] ==> r == old(script)[0] && script == old(script)[1..]
      ensures r.Data? ==> n == |r.bytes| <= BUFFER && buf[..n] == r.bytes
      ensures forall k :: (if r.Data? then n else 0) <= k < BUFFER ==> buf[k] == old(buf[k])
    {
      if script == [] {
        return End, 0;
      }
      r := script[0];
      script := script[1..];
      n := 0;
      if r.Data? {
        while n < |r.bytes|
          invariant n <= |r.bytes| <= BUFFER
          invariant forall k :: 0 <= k < n ==> buf[k] == r.bytes[k]
          invariant forall k :: n <= k < BUFFER ==> buf[k] == old(buf[k])
          modifies buf
        {
          buf[n] := r.bytes[n];
          n := n + 1;
        }
      }
    }
  }

  /** The sending half of a bounded channel whose receiver goes away after `room` messages. */
  class Sender<T> {
    var room: nat
    var queued: seq<T>

    constructor (room: nat)
      ensures this.room == room && queued == []
    {
      this.room := room;
      queued := [];
    }

    method Send(m: T) returns (ok: bool)
      modifies this
      ensures ok <==> old(room) > 0
      ensures ok ==> queued == old(queued) + [m] && room == old(room) - 1
      ensures !ok ==> queued == old(queued) && room == old(room)
    {
      ok := room > 0;
      if ok {
        queued := queued + [m];
        room := room - 1;
      }
    }
  }

  /** The chunks a pump gets to see. `retry`: an interrupted read is tried again, instead of ending it. */
  function Chunks(script: seq<Read>, retry: bool): seq<seq<byte>> {
    if script == [] then []
    else match script[0]
      case Data(bytes) => [bytes] + Chunks(script[1..], retry)
      case Interrupted => if retry then Chunks(script[1..], retry) else []
      case _ => []
  }

  function Take<T>(s: seq<T>, n: nat): seq<T> {
    if n <= |s| then s[..n] else s
  }

  function Wrapped<T>(chunks: seq<seq<byte>>, wrap: seq<byte> -> T): (r: seq<T>)
    ensures |r| == |chunks|
  {
    seq(|chunks|, k requires 0 <= k < |chunks| => wrap(chunks[k]))
  }

  lemma ChunkTaken<T>(before: seq<T>, chunks: seq<seq<byte>>, wrap: seq<byte> -> T, room: nat)
    requires room > 0 && chunks != []
    ensures before + Wrapped(Take(chunks, room), wrap) == (before + [wrap(chunks[0])]) + Wrapped(Take(chunks[1..], room - 1), wrap)
  {
    assert Take(chunks, room) == [chunks[0]] + Take(chunks[1..], room - 1);
  }

  /** One output pipe to the shared channel: chunk by chunk until the pipe ends or fails, or until
      nobody is left to receive. */
  method PumpOutput<T>(pipe: Pipe, wrap: seq<byte> -> T, tx: Sender<T>)
    requires Fits(pipe.script)
    modifies pipe, tx
    ensures tx.queued == old(tx.queued) + Wrapped(Take(Chunks(old(pipe.script), false), old(tx.room)), wrap)
  {
    var buf := new byte[BUFFER](_ => 0);
    ghost var want := tx.queued + Wrapped(Take(Chunks(pipe.script, false), tx.room), wrap);
    var open := true;
    while open
      invariant Fits(pipe.script) && fresh(buf)
      invariant open ==> tx.queued + Wrapped(Take(Chunks(pipe.script, false), tx.room), wrap) == want
      invariant !open ==> tx.queued == want
      decreases |pipe.script|, open
    {
      ghost var chunks := Chunks(pipe.script, false);
      var r, n := pipe.ReadInto(buf);
      if !r.Data? {
        open := false;
        assert Wrapped(Take(chunks, tx.room), wrap) == [];
      } else {
        if tx.room > 0 {
          ChunkTaken(tx.queued, chunks, wrap, tx.room);
        } else {
          assert Wrapped(Take(chunks, tx.room), wrap) == [];
        }
        open := tx.Send(wrap(buf[..n]));
      }
    }
  }

  /** The messages of the client's stdin pump: the chunks, then the end marker if it can be sent. */
  function StdinMessages(chunks: seq<seq<byte>>, room: nat): seq<Option<seq<byte>>> {
    Wrapped(Take(chunks, room), c => Some(c)) + if |chunks| < room then [None] else []
  }

  lemma StdinTaken(before: seq<Option<seq<byte>>>, chunks: seq<seq<byte>>, room: nat)
    requires room > 0 && chunks != []
    ensures before + StdinMessages(chunks, room) == (before + [Some(chunks[0])]) + StdinMessages(chunks[1..], room - 1)
  {
    assert Take(chunks, room) == [chunks[0]] + Take(chunks[1..], room - 1);
  }

  method PumpStdin(stdin: Pipe, tx: Sender<Option<seq<byte>>>)
    requires Fits(stdin.script)
    modifies stdin, tx
    ensures tx.queued == old(tx.queued) + StdinMessages(Chunks(old(stdin.script), true), old(tx.room))
  {
    var buf := new byte[BUFFER](_ => 0);
    ghost var want := tx.queued + StdinMessages(Chunks(stdin.script, true), tx.room);
    var open := true;
    while open
      invariant Fits(stdin.script) && fresh(buf)
      invariant open ==> tx.queued + StdinMessages(Chunks(stdin.script, true), tx.room) == want
      invariant !open ==> tx.queued + StdinMessages([], tx.room) == want
      decreases |stdin.script|, open
    {
      ghost var chunks := Chunks(stdin.script, true);
      var r, n := stdin.ReadInto(buf);
      if r.Interrupted? {
        continue;
      }
      if !r.Data? {
        open := false;
      } else {
        if tx.room > 0 {
          StdinTaken(tx.queued, chunks, tx.room);
        } else {
          assert tx.queued + StdinMessages(chunks, tx.room) == tx.queued;
        }
        var ok := tx.Send(Some(buf[..n]));
        if !ok {
          return;
        }
      }
    }
    var _ := tx.Send(None);
  }

  // ---------------------------------------------------------------- the bytes

  /** The bytes that arrive before the pump stops reading. */
  function Arrived(script: seq<Read>, retry: bool): seq<byte> {
    if script == [] then []
    else match script[0]
      case Data(bytes) => bytes + Arrived(script[1..], retry)
      case Interrupted => if retry then Arrived(script[1..], retry) else []
      case _ => []
  }

  lemma {:induction false} ChunksAreArrived(script: seq<Read>, retry: bool)
    ensures F.Concat(Chunks(script, retry)) == Arrived(script, retry)
  {
    if script != [] {
      ChunksAreArrived(script[1..], retry);
      if script[0].Data? {
        assert ([script[0].bytes] + Chunks(script[1..], retry))[1..] == Chunks(script[1..], retry);
      }
    }
  }

  lemma {:induction false} ConcatTake(chunks: seq<seq<byte>>, n: nat)
    ensures F.Concat(Take(chunks, n)) <= F.Concat(chunks)
  {
    if chunks != [] && n > 0 {
      ConcatTake(chunks[1..], n - 1);
      assert Take(chunks, n)[1..] == Take(chunks[1..], n - 1);
    }
  }

  /** However the reads cut the stream, and although every chunk passes through the same buffer, the
      queued chunks spell a prefix of what the pipe delivered, and all of it unless the receiver went
      away first. */
  lemma QueuedIsArrived(script: seq<Read>, retry: bool, room: nat)
    ensures F.Concat(Take(Chunks(script, retry), room)) <= Arrived(script, retry)
    ensures |Chunks(script, retry)| <= room ==> F.Concat(Take(Chunks(script, retry), room)) == Arrived(script, retry)
  {
    ChunksAreArrived(script, retry);
    ConcatTake(Chunks(script, retry), room);
    if |Chunks(script, retry)| <= room {
      assert Take(Chunks(script, retry), room) == Chunks(script, retry);
    }
  }

  /** The end marker of host stdin is sent at most once, last, and only behind every byte. */
  lemma EndMarkerIsLast(script: seq<Read>, room: nat, k: nat)
    requires k < |StdinMessages(Chunks(script, true), room)|
    requires StdinMessages(Chunks(script, true), room)[k] == None
    ensures k == |StdinMessages(Chunks(script, true), room)| - 1
    ensures k == |Chunks(script, true)| && F.Concat(Take(Chunks(script, true), k)) == Arrived(script, true)
  {
    QueuedIsArrived(script, true, k);
  }

  /** No message is empty, so none script as the end of stdin on the other side. */
  lemma {:induction false} NoEmptyChunk(script: seq<Read>, retry: bool)
    requires Fits(script)
    ensures forall c <- Chunks(script, retry) :: 0 < |c| <= BUFFER
  {
    if script != [] {
      NoEmptyChunk(script[1..], retry);
    }
  }
}
