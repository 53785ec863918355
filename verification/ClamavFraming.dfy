/** The INSTREAM framing loop of the antivirus adapter (src/adapters/file-scanner/clamav-file-scanner.adapter.ts). */
module ClamavFraming {
  import opened Common

  type byte = x: int | 0 <= x < 256

  const CHUNK_SIZE: nat := 64 * 1024

  /** The NUL-terminated command `zINSTREAM`. */
  const COMMAND: seq<byte> := [0x7a, 0x49, 0x4e, 0x53, 0x54, 0x52, 0x45, 0x41, 0x4d, 0]

  lemma CommandSpells()
    ensures |COMMAND| == 10 && COMMAND[9] == 0
    ensures forall i :: 0 <= i < 9 ==> COMMAND[i] as int == "zINSTREAM"[i] as int
  {
  }

  /** `writeUInt32BE` */
  function UInt32BE(n: nat): (s: seq<byte>)
    requires n < 0x1_0000_0000
    ensures |s| == 4 && ReadUInt32BE(s) == n
    ensures s[0] as int * 16777216 + s[1] as int * 65536 + s[2] as int * 256 + s[3] as int == n
  {
    var high, low := n / 0x1_0000, n % 0x1_0000;
    [high / 256, high % 256, low / 256, low % 256]
  }

  function ReadUInt32BE(s: seq<byte>): (n: nat)
    requires |s| == 4
  {
    s[0] as int * 0x100_0000 + s[1] as int * 0x1_0000 + s[2] as int * 0x100 + s[3] as int
  }

  /** What a clamd receiver makes of a byte stream: the frames up to the zero length, and the bytes after it. */
  datatype Reception = Received(frames: seq<seq<byte>>, rest: seq<byte>) | Truncated

  function Receive(wire: seq<byte>): Reception {
    if |wire| < 4 then Truncated
    else
      var n := ReadUInt32BE(wire[..4]);
      if n == 0 then Received([], wire[4..])
      else if |wire| < 4 + n then Truncated
      else
        match Receive(wire[4 + n..])
        case Received(frames, rest) => Received([wire[4..4 + n]] + frames, rest)
        case Truncated => Truncated
  }

  function Joined(frames: seq<seq<byte>>): seq<byte> {
    if frames == [] then [] else frames[0] + Joined(frames[1..])
  }

  /** Prefix by prefix, the receiver undoes what the sender wrote. */
  ghost predicate Carries(wire: seq<byte>, frames: seq<seq<byte>>) {
    forall tail: seq<byte> :: Receive(wire + tail) ==
      match Receive(tail)
      case Received(more, rest) => Received(frames + more, rest)
      case Truncated => Truncated
  }

  lemma NothingIsCarried()
    ensures Carries([], [])
  {
    forall tail: seq<byte>
      ensures [] + tail == tail
    {
    }
    assert forall frames: seq<seq<byte>> :: [] + frames == frames;
  }

  lemma FrameIsCarried(wire: seq<byte>, frames: seq<seq<byte>>, chunk: seq<byte>)
    requires Carries(wire, frames) && 0 < |chunk| < 0x1_0000_0000
    ensures Carries(wire + UInt32BE(|chunk|) + chunk, frames + [chunk])
  {
    var size := UInt32BE(|chunk|);
    forall tail: seq<byte>
      ensures Receive(wire + size + chunk + tail) ==
              match Receive(tail)
              case Received(more, rest) => Received(frames + [chunk] + more, rest)
              case Truncated => Truncated
    {
      var framed := size + chunk + tail;
      assert wire + size + chunk + tail == wire + framed;
      assert framed[..4] == size && framed[4..4 + |chunk|] == chunk && framed[4 + |chunk|..] == tail;
      if Receive(tail).Received? {
        assert frames + ([chunk] + Receive(tail).frames) == frames + [chunk] + Receive(tail).frames;
      }
    }
  }

  lemma {:induction false} JoinedAppend(frames: seq<seq<byte>>, chunk: seq<byte>)
    ensures Joined(frames + [chunk]) == Joined(frames) + chunk
  {
    if frames == [] {
      assert [chunk][1..] == [];
      assert frames + [chunk] == [chunk];
    } else {
      assert (frames + [chunk])[1..] == frames[1..] + [chunk];
      JoinedAppend(frames[1..], chunk);
    }
  }

  lemma NothingIsJoined()
    ensures Joined([]) == []
  {
  }

  const TERMINATOR: seq<byte> := [0, 0, 0, 0]

  lemma TerminatorEndsTheStream(wire: seq<byte>, frames: seq<seq<byte>>)
    requires Carries(wire, frames)
    ensures Receive(wire + TERMINATOR) == Received(frames, [])
  {
    assert TERMINATOR[..4] == TERMINATOR && Receive(TERMINATOR) == Received([], []);
    assert frames + [] == frames;
  }

  /**
   What the adapter writes to the socket. A receiver that reads the command and then
   4-byte lengths until a zero one gets exactly the buffer, in non-empty frames that
   never exceed the chunk size, with nothing left over; `frames` are those frames.
   */
  method WriteStream(buffer: seq<byte>) returns (written: seq<byte>, frames: seq<seq<byte>>)
    ensures |written| >= |COMMAND| && written[..|COMMAND|] == COMMAND
    ensures Receive(written[|COMMAND|..]) == Received(frames, [])
    ensures Joined(frames) == buffer
    ensures forall i :: 0 <= i < |frames| ==> 0 < |frames[i]| <= 65536
    ensures forall i :: 0 <= i < |frames| - 1 ==> |frames[i]| == 65536
  {
    hide Carries, Receive, Joined, UInt32BE;
    var wire: seq<byte> := [];
    frames := [];
    var offset := 0;
    NothingIsCarried();
    NothingIsJoined();
    while offset < |buffer|
      invariant 0 <= offset
      invariant Carries(wire, frames)
      invariant Joined(frames) == buffer[..if offset < |buffer| then offset else |buffer|]
      invariant forall i :: 0 <= i < |frames| ==> 0 < |frames[i]| <= CHUNK_SIZE
      invariant forall i :: 0 <= i < |frames| - 1 ==> |frames[i]| == CHUNK_SIZE
      invariant frames != [] && offset < |buffer| ==> |frames[|frames| - 1]| == CHUNK_SIZE
    {
      var end := if offset + CHUNK_SIZE < |buffer| then offset + CHUNK_SIZE else |buffer|;
      var chunk := buffer[offset..end];
      FrameIsCarried(wire, frames, chunk);
      JoinedAppend(frames, chunk);
      assert buffer[..end] == buffer[..offset] + chunk;
      wire := wire + UInt32BE(|chunk|) + chunk;
      frames := frames + [chunk];
      offset := offset + CHUNK_SIZE;
    }
    assert buffer[..|buffer|] == buffer;
    TerminatorEndsTheStream(wire, frames);
    written := COMMAND + (wire + TERMINATOR);
    assert written[|COMMAND|..] == wire + TERMINATOR;
  }
}
