/** Reassembly of fixed-size frames from a TCP byte stream, whatever the reads return. */
module Gateway {
  import opened Types
  import opened Wire

  // ----- cutting a stream -----

  /** The stream cut into whole frames. */
  function Frames(s: seq<Byte>): seq<seq<Byte>> {
    if |s| < INBOUND_SIZE then [] else [s[..INBOUND_SIZE]] + Frames(s[INBOUND_SIZE..])
  }

  /** The bytes of the frame still incomplete. */
  function Tail(s: seq<Byte>): (t: seq<Byte>)
    ensures |t| < INBOUND_SIZE
  {
    if |s| < INBOUND_SIZE then s else Tail(s[INBOUND_SIZE..])
  }

  /** Cutting may resume from the tail: earlier frames never change. */
  lemma {:induction false} CutResumes(a: seq<Byte>, b: seq<Byte>)
    ensures Frames(a + b) == Frames(a) + Frames(Tail(a) + b)
    ensures Tail(a + b) == Tail(Tail(a) + b)
  {
    if |a| >= INBOUND_SIZE {
      var rest := a[INBOUND_SIZE..];
      CutResumes(rest, b);
      assert (a + b)[..INBOUND_SIZE] == a[..INBOUND_SIZE] && (a + b)[INBOUND_SIZE..] == rest + b;
    }
  }

  lemma CutOneMore(start: seq<Byte>, taken: seq<Byte>, bytes: seq<Byte>)
    ensures Frames(start + (taken + bytes)) == Frames(start + taken) + Frames(Tail(start + taken) + bytes)
    ensures Tail(start + (taken + bytes)) == Tail(Tail(start + taken) + bytes)
  {
    CutResumes(start + taken, bytes);
    assert (start + taken) + bytes == start + (taken + bytes);
  }

  /** A read that does not overrun the frame either extends the tail or completes it. */
  lemma CutShort(x: seq<Byte>)
    requires |x| <= INBOUND_SIZE
    ensures |x| < INBOUND_SIZE ==> Frames(x) == [] && Tail(x) == x
    ensures |x| == INBOUND_SIZE ==> Frames(x) == [x] && Tail(x) == []
  {
    if |x| == INBOUND_SIZE {
      assert x[..INBOUND_SIZE] == x && x[INBOUND_SIZE..] == [];
    }
  }

  // ----- the kernel's side -----

  datatype ReadResult = Data(bytes: seq<Byte>) | Zero | WouldBlock | Failure

  /** A socket: bytes not yet read, and whether the peer has closed. */
  class Socket {
    var pending: seq<Byte>
    var closed: bool

    /** Any nonempty chunk up to `max`; zero at end of stream, and for an empty request. */
    method Read(max: nat) returns (r: ReadResult)
      modifies this`pending
      ensures r.Data? ==> 0 < |r.bytes| <= max && old(pending) == r.bytes + pending
      ensures !r.Data? ==> pending == old(pending)
      ensures r.Zero? ==> max == 0 || (pending == [] && closed)
      ensures r.WouldBlock? ==> pending == [] && !closed
    {
      if max == 0 {
        r := Zero;
      } else if * {
        r := Failure;
      } else if pending != [] {
        var n: nat :| 0 < n <= max && n <= |pending|;
        r := Data(pending[..n]);
        pending := pending[n..];
      } else {
        r := if closed then Zero else WouldBlock;
      }
    }
  }

  // ----- the gateway's side -----

  /** How a call to `ReadFrom` ends. */
  datatype Ending = StillOpen | PeerClosed | Broken

  class Connection {
    const buffer: array<Byte>
    var filled: nat

    ghost predicate Valid()
      reads this
    {
      buffer.Length == INBOUND_SIZE && filled < INBOUND_SIZE
    }

    /** The partial frame held between reads. */
    ghost function Held(): seq<Byte>
      requires Valid()
      reads this, buffer
    {
      buffer[..filled]
    }

    constructor ()
      ensures Valid() && fresh(buffer) && Held() == []
    {
      buffer := new Byte[INBOUND_SIZE](_ => 0);
      filled := 0;
    }

    /** Copies a chunk behind what is already there, as `read` does. */
    method Append(bytes: seq<Byte>)
      requires Valid() && filled + |bytes| <= INBOUND_SIZE
      modifies this, buffer
      ensures filled == old(filled) + |bytes| && buffer[..filled] == old(Held()) + bytes
    {
      forall i | 0 <= i < |bytes| {
        buffer[filled + i] := bytes[i];
      }
      filled := filled + |bytes|;
    }

    /** Takes in one chunk and, if it completes the frame, hands the frame on. */
    method Accept(bytes: seq<Byte>) returns (frames: seq<seq<Byte>>)
      requires Valid() && filled + |bytes| <= INBOUND_SIZE
      modifies this, buffer
      ensures Valid()
      ensures frames == Frames(old(Held()) + bytes) && Held() == Tail(old(Held()) + bytes)
    {
      CutShort(Held() + bytes);
      Append(bytes);
      frames := [];
      if filled == buffer.Length {
        assert buffer[..filled] == buffer[..];
        frames := [buffer[..]];
        filled := 0;
      }
    }

    /** Reads until a short or failed read. `frames` are the messages dispatched, in order. Every
        request asks for at least one byte, so a zero result does mean that the peer has closed
        and nothing was left unread; and unless the socket breaks, a call takes something in
        whenever there is something to take. */
    method ReadFrom(socket: Socket) returns (frames: seq<seq<Byte>>, ending: Ending, ghost taken: seq<Byte>)
      requires Valid()
      modifies this, buffer, socket`pending
      ensures Valid() && old(socket.pending) == taken + socket.pending
      ensures frames == Frames(old(Held()) + taken) && Held() == Tail(old(Held()) + taken)
      ensures ending.PeerClosed? ==> socket.closed && socket.pending == []
      ensures taken == [] && !ending.Broken? ==> socket.pending == [] && (socket.closed <==> ending.PeerClosed?)
    {
      frames, ending, taken := [], StillOpen, [];
      ghost var start := Held();
      assert start + [] == start;
      while true
        invariant Valid() && old(socket.pending) == taken + socket.pending
        invariant frames == Frames(start + taken) && Held() == Tail(start + taken)
        decreases |socket.pending|
      {
        var remaining := buffer.Length - filled;
        var r := socket.Read(remaining);
        match r
        case Data(bytes) =>
          CutOneMore(start, taken, bytes);
          var more := Accept(bytes);
          frames, taken := frames + more, taken + bytes;
          if |bytes| < remaining {
            break;
          }
        case Zero =>
          ending := PeerClosed;
          break;
        case WouldBlock => break;
        case Failure =>
          ending := Broken;
          break;
      }
    }
  }

  // ----- any chunking, whole sessions -----

  function Joined(chunks: seq<seq<Byte>>): seq<Byte> {
    if chunks == [] then [] else Joined(chunks[..|chunks| - 1]) + chunks[|chunks| - 1]
  }

  /** What successive reads of `chunks` dispatch and leave behind. */
  function Session(chunks: seq<seq<Byte>>): (seq<seq<Byte>>, seq<Byte>) {
    if chunks == [] then ([], [])
    else
      var n := |chunks| - 1;
      var (frames, held) := Session(chunks[..n]);
      (frames + Frames(held + chunks[n]), Tail(held + chunks[n]))
  }

  /** However the stream is split, the frames are the stream cut every 50 bytes. */
  lemma {:induction false} ChunkingIrrelevant(chunks: seq<seq<Byte>>)
    ensures Session(chunks) == (Frames(Joined(chunks)), Tail(Joined(chunks)))
  {
    if chunks == [] {
    } else {
      var n := |chunks| - 1;
      ChunkingIrrelevant(chunks[..n]);
      CutResumes(Joined(chunks[..n]), chunks[n]);
    }
  }

  lemma OneMoreRead(chunks: seq<seq<Byte>>, taken: seq<Byte>)
    ensures Joined(chunks + [taken]) == Joined(chunks) + taken
    ensures Session(chunks + [taken])
         == (Session(chunks).0 + Frames(Session(chunks).1 + taken), Tail(Session(chunks).1 + taken))
  {
    assert (chunks + [taken])[..|chunks|] == chunks;
  }

  lemma OneMoreArrival(arrivals: seq<seq<Byte>>, n: nat, read: seq<Byte>, was: seq<Byte>,
                       taken: seq<Byte>, left: seq<Byte>)
    requires n < |arrivals| && read + was == Joined(arrivals[..n]) && was + arrivals[n] == taken + left
    ensures (read + taken) + left == Joined(arrivals[..n + 1])
  {
    OneMoreRead(arrivals[..n], arrivals[n]);
    assert arrivals[..n] + [arrivals[n]] == arrivals[..n + 1];
    assert (read + taken) + left == read + (taken + left) && read + (was + arrivals[n]) == (read + was) + arrivals[n];
  }

  /** A connection from accept on: each wake-up finds some more bytes in the socket and reads.
      What has been dispatched and what is held are a session over the chunks read, and chunks
      read and bytes still in the socket are what arrived. */
  method Serve(arrivals: seq<seq<Byte>>)
    returns (connection: Connection, socket: Socket, frames: seq<seq<Byte>>, ghost chunks: seq<seq<Byte>>, wakes: nat)
    ensures connection.Valid() && wakes <= |arrivals|
    ensures (frames, connection.Held()) == Session(chunks)
    ensures Joined(chunks) + socket.pending == Joined(arrivals[..wakes])
  {
    connection := new Connection();
    socket := new Socket;
    socket.pending, socket.closed := [], false;
    frames, chunks, wakes := [], [], 0;
    while wakes < |arrivals|
      invariant wakes <= |arrivals| && fresh(connection) && fresh(connection.buffer) && fresh(socket)
      invariant connection.Valid() && (frames, connection.Held()) == Session(chunks)
      invariant Joined(chunks) + socket.pending == Joined(arrivals[..wakes])
    {
      ghost var was := socket.pending;
      socket.pending := socket.pending + arrivals[wakes];
      var more, ending, taken := connection.ReadFrom(socket);
      OneMoreRead(chunks, taken);
      OneMoreArrival(arrivals, wakes, Joined(chunks), was, taken, socket.pending);
      frames, chunks, wakes := frames + more, chunks + [taken], wakes + 1;
      if !ending.StillOpen? {
        break;
      }
    }
  }

  // ----- end to end -----

  predicate AllFit(cmds: seq<Command>) {
    forall i :: 0 <= i < |cmds| ==> CommandFits(cmds[i]) && Plain(NameIn(cmds[i]))
  }

  /** What a Python client sends for a sequence of commands. */
  function Sent(cmds: seq<Command>): seq<Byte>
    requires AllFit(cmds)
  {
    if cmds == [] then [] else PyEncode(cmds[0]).value + Sent(cmds[1..])
  }

  predicate DecodesTo(frames: seq<seq<Byte>>, cmds: seq<Command>) {
    && |frames| == |cmds|
    && forall i :: 0 <= i < |cmds| ==> |frames[i]| == INBOUND_SIZE && CppDecode(frames[i]) == Some(cmds[i])
  }

  lemma CutFirst(first: seq<Byte>, rest: seq<Byte>)
    requires |first| == INBOUND_SIZE
    ensures Frames(first + rest) == [first] + Frames(rest) && Tail(first + rest) == Tail(rest)
  {
    assert (first + rest)[..INBOUND_SIZE] == first && (first + rest)[INBOUND_SIZE..] == rest;
  }

  lemma DecodesOneMore(frame: seq<Byte>, cmd: Command, frames: seq<seq<Byte>>, cmds: seq<Command>)
    requires |frame| == INBOUND_SIZE && CppDecode(frame) == Some(cmd) && DecodesTo(frames, cmds)
    ensures DecodesTo([frame] + frames, [cmd] + cmds)
  {
  }

  lemma SentFirst(cmd: Command, rest: seq<Command>)
    requires CommandFits(cmd) && Plain(NameIn(cmd)) && AllFit(rest)
    requires DecodesTo(Frames(Sent(rest)), rest) && Tail(Sent(rest)) == []
    ensures DecodesTo(Frames(PyEncode(cmd).value + Sent(rest)), [cmd] + rest)
    ensures Tail(PyEncode(cmd).value + Sent(rest)) == []
  {
    InboundRoundTrip(cmd);
    CutFirst(PyEncode(cmd).value, Sent(rest));
    DecodesOneMore(PyEncode(cmd).value, cmd, Frames(Sent(rest)), rest);
  }

  lemma {:induction false} SentFrames(cmds: seq<Command>)
    requires AllFit(cmds)
    ensures DecodesTo(Frames(Sent(cmds)), cmds) && Tail(Sent(cmds)) == []
  {
    if cmds == [] {
    } else {
      SentFrames(cmds[1..]);
      SentFirst(cmds[0], cmds[1..]);
      assert [cmds[0]] + cmds[1..] == cmds;
    }
  }

  /** Client to engine: commands encoded in Python and split by the network in any way are
      dispatched by the gateway as the same commands, in order, with nothing left over. */
  lemma ClientToEngine(cmds: seq<Command>, chunks: seq<seq<Byte>>)
    requires AllFit(cmds) && Joined(chunks) == Sent(cmds)
    ensures DecodesTo(Session(chunks).0, cmds) && Session(chunks).1 == []
  {
    ChunkingIrrelevant(chunks);
    SentFrames(cmds);
  }
}
