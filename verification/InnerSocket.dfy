/**
 The WebSocket implementation under the wrapper, as a small explicit machine: a buffer of outgoing
 bytes written out in parts, a resumable reader, automatic replies to pings and close frames, and
 the closing handshake. It stands for the wrapped library, which is not part of the repository;
 what the wrapper relies on is proved of it below rather than assumed.
 */
module InnerSocket {
  import opened Basics
  import opened Framing
  import opened Compat

  datatype Status = Active | ClosedByUs | ClosedByPeer | CloseAcked | Terminated

  /** A frame put into the outgoing buffer: on the user's behalf, or as an automatic reply. */
  datatype Entry = User(message: Message) | Auto(message: Message)

  datatype Sock = Sock(
    server: bool,            // the server closes the connection first
    threshold: nat,          // the buffer is written out when it grows beyond this
    out: seq<byte>,          // buffered, not yet accepted by the socket
    reply: Option<Message>,  // automatic reply not yet buffered
    unflushed: bool,         // an automatic reply is buffered but its flush was blocked
    inbuf: seq<byte>,        // received, not yet delivered
    status: Status,
    std: Std,
    accepted: seq<Entry>)    // every frame ever buffered, in order

  datatype Ran<T> = Ran(sock: Sock, res: Result<T>)

  predicate CanRead(st: Status) {
    st.Active? || st.ClosedByUs?
  }

  // ----- sending

  /** Writes until the buffer is empty or the socket stops accepting. */
  function WriteOut(s: Sock): Ran<()>
    decreases |s.std.net.plan|
  {
    if s.out == [] then Ran(s, Ok(()))
    else
      var (std, r) := s.std.Write(s.out);
      match r
      case Err(e) => Ran(s.(std := std), Err(e))
      case Ok(n) =>
        if n == 0 then Ran(s.(std := std), Err(Io(ConnectionReset)))
        else WriteOut(s.(std := std, out := s.out[n..]))
  }

  function Push(s: Sock, e: Entry): Sock {
    s.(out := s.out + Encode(e.message), accepted := s.accepted + [e])
  }

  function BufferFrame(s: Sock, e: Entry): Ran<()> {
    var s1 := Push(s, e);
    if |s1.out| > s1.threshold then WriteOut(s1) else Ran(s1, Ok(()))
  }

  /** The server's last act: once the peer can send nothing more, what is buffered goes out and the connection ends. */
  function Finish(s: Sock, flush: bool): Ran<bool> {
    if s.server && !CanRead(s.status) then
      var r := WriteOut(s);
      if r.res.Err? then Ran(r.sock, Err(r.res.error))
      else Ran(r.sock.(status := Terminated), Err(ConnectionClosed))
    else Ran(s, Ok(flush))
  }

  /** Buffers the pending automatic reply; says whether it should be flushed. */
  function WriteReply(s: Sock): Ran<bool> {
    match s.reply
    case None => Finish(s, s.unflushed)
    case Some(m) =>
      var r := BufferFrame(s.(reply := None), Auto(m));
      if r.res.Err? then Ran(r.sock, Err(r.res.error)) else Finish(r.sock, true)
  }

  function WriteFrame(s: Sock, m: Message): Ran<bool> {
    var r := BufferFrame(s, User(m));
    if r.res.Err? then Ran(r.sock, Err(r.res.error)) else WriteReply(r.sock)
  }

  function FlushSocket(s: Sock): Ran<()> {
    var (std, r) := s.std.Flush();
    match r
    case Err(e) => Ran(s.(std := std), Err(e))
    case Ok(_) => Ran(s.(std := std, unflushed := false), Ok(()))
  }

  function Flush(s: Sock): Ran<()> {
    var r := WriteReply(s);
    if r.res.Err? then Ran(r.sock, Err(r.res.error))
    else
      var w := WriteOut(r.sock);
      if w.res.Err? then w else FlushSocket(w.sock)
  }

  /** Starts the closing handshake with frame `m`, unless it has been started, and flushes. */
  function DoClose(s: Sock, m: Message): Ran<()> {
    if s.status.Active? then
      var r := WriteFrame(s.(status := ClosedByUs), m);
      if r.res.Err? then Ran(r.sock, Err(r.res.error)) else Flush(r.sock)
    else Flush(s)
  }

  function Write(s: Sock, m: Message): Ran<()> {
    if s.status.Terminated? then Ran(s, Err(AlreadyClosed))
    else if !s.status.Active? then Ran(s, Err(SendAfterClosing))
    else if m.kind.Close? then DoClose(s, m)
    else
      var r := WriteFrame(s, m);
      if r.res.Err? then Ran(r.sock, Err(r.res.error))
      else if r.res.value then Flush(r.sock)
      else Ran(r.sock, Ok(()))
  }

  // ----- reading

  /** A frame of `n` bytes has been recognised. */
  function Receive(s: Sock, m: Message, n: nat): Ran<Message>
    requires n <= |s.inbuf|
  {
    if !CanRead(s.status) then Ran(s, Err(ReceivedAfterClosing))
    else
      var s1 := s.(inbuf := s.inbuf[n..]);
      var s2 :=
        if m.kind.Ping? && s.status.Active? then s1.(reply := Some(Message(Pong, m.payload)))
        else if m.kind.Close? && s.status.Active? then s1.(reply := Some(m), status := ClosedByPeer)
        else if m.kind.Close? then s1.(status := CloseAcked)
        else s1;
      Ran(s2, Ok(m))
  }

  function EndOfFile(s: Sock): Ran<Message> {
    Ran(s.(status := Terminated), Err(if CanRead(s.status) then ResetWithoutClosing else ConnectionClosed))
  }

  function ReadFrame(s: Sock): Ran<Message>
    decreases |s.std.net.plan|
  {
    match Parse(s.inbuf)
    case Malformed => Ran(s, Err(BadFrame))
    case Frame(m, n) => Receive(s, m, n)
    case Incomplete =>
      var (std, r) := s.std.Read();
      match r
      case Err(e) => Ran(s.(std := std), Err(e))
      case Ok(chunk) =>
        if chunk == [] then EndOfFile(s.(std := std))
        else ReadFrame(s.(std := std, inbuf := s.inbuf + chunk))
  }

  /** Replies go out first; a blocked reply does not keep from reading. */
  function Read(s: Sock): Ran<Message> {
    if s.status.Terminated? then Ran(s, Err(AlreadyClosed))
    else if s.reply.Some? || s.unflushed then
      var f := Flush(s);
      if f.res.Ok? then ReadFrame(f.sock)
      else if Blocked(f.res) then ReadFrame(f.sock.(unflushed := true))
      else Ran(f.sock, Err(f.res.error))
    else if s.server && !CanRead(s.status) then Ran(s.(status := Terminated), Err(ConnectionClosed))
    else ReadFrame(s)
  }

  // ----- the machine as a class

  class WebSocket {
    const server: bool
    const threshold: nat
    const stream: AllowStd
    var out: seq<byte>
    var reply: Option<Message>
    var unflushed: bool
    var inbuf: seq<byte>
    var status: Status
    ghost var accepted: seq<Entry>

    ghost predicate Valid() {
      stream.Valid()
    }

    ghost function View(): Sock
      reads this, stream
    {
      Sock(server, threshold, out, reply, unflushed, inbuf, status, stream.View(), accepted)
    }

    /** from_raw_socket (no `part`), or from_partially_read. */
    constructor (stream: AllowStd, part: seq<byte>, server: bool, threshold: nat)
      requires stream.Valid()
      ensures Valid() && this.stream == stream
      ensures View() == Sock(server, threshold, [], None, false, part, Active, stream.View(), [])
    {
      this.stream, this.server, this.threshold := stream, server, threshold;
      out, reply, unflushed, inbuf, status, accepted := [], None, false, part, Active, [];
    }

    method WriteOutBuffer() returns (r: Result<()>)
      requires Valid()
      modifies this, stream
      ensures Ran(View(), r) == WriteOut(old(View()))
    {
      ghost var goal := WriteOut(View());
      while out != []
        invariant WriteOut(View()) == goal
        decreases |stream.inner.plan|
      {
        var w := stream.Write(out);
        match w {
          case Err(e) => return Err(e);
          case Ok(n) =>
            if n == 0 {
              return Err(Io(ConnectionReset));
            }
            out := out[n..];
        }
      }
      r := Ok(());
    }

    method BufferEntry(m: Message, ghost e: Entry) returns (r: Result<()>)
      requires Valid() && e.message == m
      modifies this, stream
      ensures Ran(View(), r) == BufferFrame(old(View()), e)
    {
      out := out + Encode(m);
      accepted := accepted + [e];
      r := Ok(());
      if |out| > threshold {
        r := WriteOutBuffer();
      }
    }

    method FinishIfDone(flush: bool) returns (r: Result<bool>)
      requires Valid()
      modifies this, stream
      ensures Ran(View(), r) == Finish(old(View()), flush)
    {
      if server && !CanRead(status) {
        var w := WriteOutBuffer();
        if w.Err? {
          return Err(w.error);
        }
        status := Terminated;
        return Err(ConnectionClosed);
      }
      r := Ok(flush);
    }

    method WritePendingReply() returns (r: Result<bool>)
      requires Valid()
      modifies this, stream
      ensures Ran(View(), r) == WriteReply(old(View()))
    {
      var flush := unflushed;
      if reply.Some? {
        var m := reply.value;
        reply := None;
        var b := BufferEntry(m, Auto(m));
        if b.Err? {
          return Err(b.error);
        }
        flush := true;
      }
      r := FinishIfDone(flush);
    }

    method WriteUserFrame(m: Message) returns (r: Result<bool>)
      requires Valid()
      modifies this, stream
      ensures Ran(View(), r) == WriteFrame(old(View()), m)
    {
      var b := BufferEntry(m, User(m));
      if b.Err? {
        return Err(b.error);
      }
      r := WritePendingReply();
    }

    method FlushAll() returns (r: Result<()>)
      requires Valid()
      modifies this, stream
      ensures Ran(View(), r) == Flush(old(View()))
    {
      var b := WritePendingReply();
      if b.Err? {
        return Err(b.error);
      }
      r := WriteOutBuffer();
      if r.Ok? {
        r := stream.Flush();
        if r.Ok? {
          unflushed := false;
        }
      }
    }

    method CloseWith(m: Message) returns (r: Result<()>)
      requires Valid()
      modifies this, stream
      ensures Ran(View(), r) == DoClose(old(View()), m)
    {
      if status.Active? {
        status := ClosedByUs;
        var b := WriteUserFrame(m);
        if b.Err? {
          return Err(b.error);
        }
      }
      r := FlushAll();
    }

    method WriteMessage(m: Message) returns (r: Result<()>)
      requires Valid()
      modifies this, stream
      ensures Ran(View(), r) == Write(old(View()), m)
    {
      if status.Terminated? {
        return Err(AlreadyClosed);
      }
      if !status.Active? {
        return Err(SendAfterClosing);
      }
      if m.kind.Close? {
        r := CloseWith(m);
      } else {
        var b := WriteUserFrame(m);
        if b.Err? {
          return Err(b.error);
        }
        r := Ok(());
        if b.value {
          r := FlushAll();
        }
      }
    }

    method ReceiveFrame(m: Message, n: nat) returns (r: Result<Message>)
      requires Valid() && n <= |inbuf|
      modifies this
      ensures Ran(View(), r) == Receive(old(View()), m, n)
    {
      if !CanRead(status) {
        return Err(ReceivedAfterClosing);
      }
      inbuf := inbuf[n..];
      if m.kind.Ping? {
        if status.Active? {
          reply := Some(Message(Pong, m.payload));
        }
      } else if m.kind.Close? {
        if status.Active? {
          reply, status := Some(m), ClosedByPeer;
        } else {
          status := CloseAcked;
        }
      }
      r := Ok(m);
    }

    method ReadOneFrame() returns (r: Result<Message>)
      requires Valid()
      modifies this, stream
      ensures Ran(View(), r) == ReadFrame(old(View()))
    {
      ghost var goal := ReadFrame(View());
      while Parse(inbuf).Incomplete?
        invariant ReadFrame(View()) == goal
        decreases |stream.inner.plan|
      {
        var c := stream.Read();
        match c {
          case Err(e) => return Err(e);
          case Ok(chunk) =>
            if chunk == [] {
              r := Err(if CanRead(status) then ResetWithoutClosing else ConnectionClosed);
              status := Terminated;
              return;
            }
            inbuf := inbuf + chunk;
        }
      }
      match Parse(inbuf) {
        case Malformed => r := Err(BadFrame);
        case Frame(m, n) => r := ReceiveFrame(m, n);
      }
    }

    method ReadMessage() returns (r: Result<Message>)
      requires Valid()
      modifies this, stream
      ensures Ran(View(), r) == Read(old(View()))
    {
      if status.Terminated? {
        return Err(AlreadyClosed);
      }
      if reply.Some? || unflushed {
        var f := FlushAll();
        if f.Err? {
          if !Blocked(f) {
            return Err(f.error);
          }
          unflushed := true;
        }
      } else if server && !CanRead(status) {
        status := Terminated;
        return Err(ConnectionClosed);
      }
      r := ReadOneFrame();
    }
  }
}
