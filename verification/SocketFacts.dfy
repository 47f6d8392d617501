/**
 What every operation of the WebSocket machine keeps: no byte and no frame is lost, duplicated or
 reordered, automatic replies are never dropped, and WouldBlock comes only from a blocked socket operation.
 */
module SocketFacts {
  import opened Basics
  import opened Framing
  import opened Compat
  import opened InnerSocket

  function Messages(es: seq<Entry>): seq<Message> {
    if es == [] then [] else Messages(es[..|es| - 1]) + [es[|es| - 1].message]
  }

  function Users(es: seq<Entry>): seq<Message> {
    if es == [] then []
    else Users(es[..|es| - 1]) + (if es[|es| - 1].User? then [es[|es| - 1].message] else [])
  }

  function Autos(es: seq<Entry>): seq<Message> {
    if es == [] then []
    else Autos(es[..|es| - 1]) + (if es[|es| - 1].Auto? then [es[|es| - 1].message] else [])
  }

  /** Automatic replies already buffered, and the one still pending. */
  function Owed(s: Sock): seq<Message> {
    Autos(s.accepted) + (if s.reply.Some? then [s.reply.value] else [])
  }

  function Size(ms: seq<Message>): nat {
    |EncodeAll(ms)|
  }

  /** Of the last `n` bytes of the frames `es`, those of frames sent for the user, or those of automatic ones. */
  function Tail(es: seq<Entry>, n: nat, user: bool): nat {
    if es == [] then 0
    else
      var e := es[|es| - 1];
      var here := if n <= |Encode(e.message)| then n else |Encode(e.message)|;
      (if e.User? == user then here else 0) + Tail(es[..|es| - 1], n - here, user)
  }

  /** The user's bytes still in the buffer. */
  function UserBuffered(s: Sock): nat {
    Tail(s.accepted, |s.out|, true)
  }

  /** The bytes of automatic replies still in the buffer. */
  function AutoBuffered(s: Sock): nat {
    Tail(s.accepted, |s.out|, false)
  }

  lemma {:induction false} TailShrinks(es: seq<Entry>, n: nat, m: nat, user: bool)
    requires n <= m
    ensures Tail(es, n, user) <= Tail(es, m, user) && Tail(es, n, user) <= n
  {
    if es != [] {
      var len := |Encode(es[|es| - 1].message)|;
      TailShrinks(es[..|es| - 1], if n <= len then 0 else n - len, if m <= len then 0 else m - len, user);
    }
  }

  lemma {:induction false} TailSplits(es: seq<Entry>, n: nat)
    requires n <= Size(Messages(es))
    ensures Tail(es, n, true) + Tail(es, n, false) == n
  {
    if es != [] {
      var p, m := es[..|es| - 1], es[|es| - 1].message;
      EncodeAllPush(Messages(p), m);
      TailSplits(p, if n <= |Encode(m)| then 0 else n - |Encode(m)|);
    }
  }

  /** Bytes taken by the socket, then bytes still buffered, are the frames accepted so far, in order. */
  predicate Exact(s: Sock) {
    s.std.net.sent + s.out == EncodeAll(Messages(s.accepted))
  }

  /** The socket's record only grew, and each operation came with its own direction's proxy. */
  predicate OpsOnly(a: seq<Exchange>, b: seq<Exchange>) {
    a <= b && forall i :: |a| <= i < |b| ==> b[i].proxy == b[i].Way()
  }

  /** ... and the last operation was a blocked one in direction `d`. */
  predicate EndsBlocked(a: seq<Exchange>, b: seq<Exchange>, d: Dir) {
    OpsOnly(a, b) && |a| < |b| && b[|b| - 1].Waits() && b[|b| - 1].Way() == d
  }

  /** From s to s' only sending happened, and `users` were accepted on the user's behalf. */
  predicate Sends(s: Sock, s': Sock, users: seq<Message>) {
    && s'.server == s.server && s'.threshold == s.threshold
    && s'.inbuf == s.inbuf && s'.std.net.got == s.std.net.got
    && OpsOnly(s.std.net.record, s'.std.net.record) && s'.std.log == s.std.log
    && s.std.net.sent <= s'.std.net.sent
    && (Exact(s) ==> Exact(s'))
    && Users(s'.accepted) == Users(s.accepted) + users
    && Owed(s') == Owed(s)
    && (s.reply.None? ==> s'.reply.None?)
    && s.accepted <= s'.accepted
    && UserBuffered(s') <= UserBuffered(s) + Size(users)
  }

  /** Failures of a sending operation: WouldBlock is honest, and closed is only reported when all is sent. */
  predicate FailsHonestly<T>(s: Sock, r: Ran<T>) {
    && (Blocked(r.res) ==> EndsBlocked(s.std.net.record, r.sock.std.net.record, Outbound))
    && (r.res.Err? && !r.res.error.Io? ==>
          r.res.error.ConnectionClosed? && r.sock.out == [] && s.server && !CanRead(s.status))
    && (r.sock.status == s.status || (r.sock.status.Terminated? && r.res == Err(ConnectionClosed)))
  }

  lemma SendsThen(a: Sock, b: Sock, c: Sock, us: seq<Message>, vs: seq<Message>)
    requires Sends(a, b, us) && Sends(b, c, vs)
    ensures Sends(a, c, us + vs)
  {
    Assoc(Users(a.accepted), us, vs);
    EncodeAllConcat(us, vs);
  }

  /** One write to the socket moves bytes from the buffer to the socket. */
  lemma OneWrite(s: Sock)
    ensures var (std, w) := s.std.Write(s.out);
            && Sends(s, s.(std := std, out := if w.Ok? then s.out[w.value..] else s.out), [])
            && (Blocked(w) ==> EndsBlocked(s.std.net.record, std.net.record, Outbound))
            && (w.Err? ==> w.error.Io?)
  {
    var (std, w) := s.std.Write(s.out);
    if w.Ok? {
      assert std.net.sent + s.out[w.value..] == s.std.net.sent + s.out;
      TailShrinks(s.accepted, |s.out| - w.value, |s.out|, true);
    }
  }

  lemma {:induction false} WriteOutFacts(s: Sock)
    ensures var r := WriteOut(s);
            && Sends(s, r.sock, [])
            && (Blocked(r.res) ==> EndsBlocked(s.std.net.record, r.sock.std.net.record, Outbound))
            && r.sock == s.(std := r.sock.std, out := r.sock.out)
            && (r.res.Ok? ==> r.sock.out == [])
            && (r.res.Err? ==> r.res.error.Io?)
    decreases |s.std.net.plan|
  {
    if s.out != [] {
      OneWrite(s);
      var (std, w) := s.std.Write(s.out);
      if w.Ok? {
        var s1 := s.(std := std, out := s.out[w.value..]);
        if w.value == 0 {
          assert s1 == s.(std := std);
        } else {
          WriteOutFacts(s1);
          SendsThen(s, s1, WriteOut(s1).sock, [], []);
        }
      }
    }
  }

  lemma PushFacts(s: Sock, e: Entry)
    ensures var s' := Push(s, e);
            && (Exact(s) ==> Exact(s'))
            && Users(s'.accepted) == Users(s.accepted) + (if e.User? then [e.message] else [])
            && Autos(s'.accepted) == Autos(s.accepted) + (if e.Auto? then [e.message] else [])
            && s.accepted <= s'.accepted
            && UserBuffered(s') == UserBuffered(s) + (if e.User? then |Encode(e.message)| else 0)
  {
    assert (s.accepted + [e])[..|s.accepted|] == s.accepted;
    EncodeAllPush(Messages(s.accepted), e.message);
    assert s.std.net.sent + (s.out + Encode(e.message)) == s.std.net.sent + s.out + Encode(e.message);
  }

  lemma PushSends(s: Sock, m: Message)
    ensures Sends(s, Push(s, User(m)), [m])
  {
    PushFacts(s, User(m));
    EncodeAllPush([], m);
    assert [] + [m] == [m];
  }

  lemma PushReplySends(s: Sock)
    requires s.reply.Some?
    ensures Sends(s, Push(s.(reply := None), Auto(s.reply.value)), [])
  {
    PushFacts(s.(reply := None), Auto(s.reply.value));
  }

  lemma BufferUserFacts(s: Sock, m: Message)
    ensures var r := BufferFrame(s, User(m));
            && Sends(s, r.sock, [m]) && FailsHonestly(s, r)
            && r.sock.status == s.status && r.sock.reply == s.reply && r.sock.unflushed == s.unflushed
            && (r.res.Ok? ==> |r.sock.out| <= s.threshold)
            && (r.res.Err? ==> r.res.error.Io?)
  {
    var s1 := Push(s, User(m));
    PushSends(s, m);
    WriteOutFacts(s1);
    SendsThen(s, s1, WriteOut(s1).sock, [m], []);
  }

  lemma BufferReplyFacts(s: Sock)
    requires s.reply.Some?
    ensures var r := BufferFrame(s.(reply := None), Auto(s.reply.value));
            && Sends(s, r.sock, []) && FailsHonestly(s, r)
            && r.sock.status == s.status && r.sock.reply == None
            && (r.res.Ok? ==> |r.sock.out| <= s.threshold)
            && (r.res.Err? ==> r.res.error.Io?)
  {
    var s1 := Push(s.(reply := None), Auto(s.reply.value));
    PushReplySends(s);
    WriteOutFacts(s1);
    SendsThen(s, s1, WriteOut(s1).sock, [], []);
  }

  lemma FinishFacts(s: Sock, flush: bool)
    ensures var r := Finish(s, flush);
            && Sends(s, r.sock, []) && FailsHonestly(s, r)
            && r.sock.reply == s.reply
            && (r.res.Ok? ==> r == Ran(s, Ok(flush)))
  {
    WriteOutFacts(s);
  }

  lemma WriteReplyFacts(s: Sock)
    ensures var r := WriteReply(s);
            && Sends(s, r.sock, []) && FailsHonestly(s, r)
            && r.sock.reply == None
            && (r.res.Ok? && |s.out| <= s.threshold ==> |r.sock.out| <= s.threshold)
  {
    if s.reply.None? {
      FinishFacts(s, s.unflushed);
    } else {
      BufferReplyFacts(s);
      var b := BufferFrame(s.(reply := None), Auto(s.reply.value));
      if b.res.Ok? {
        FinishFacts(b.sock, true);
        SendsThen(s, b.sock, Finish(b.sock, true).sock, [], []);
      }
    }
  }

  lemma WriteFrameFacts(s: Sock, m: Message)
    ensures var r := WriteFrame(s, m);
            && Sends(s, r.sock, [m]) && FailsHonestly(s, r)
            && (r.res.Ok? ==> |r.sock.out| <= s.threshold)
  {
    BufferUserFacts(s, m);
    var b := BufferFrame(s, User(m));
    if b.res.Ok? {
      WriteReplyFacts(b.sock);
      SendsThen(s, b.sock, WriteReply(b.sock).sock, [m], []);
      assert [m] + [] == [m];
    }
  }

  lemma OneFlush(std: Std)
    ensures var (std', r) := std.Flush();
            && std'.net.record == std.net.record + [DidFlush(Outbound, Cvt(r))] && std'.log == std.log
            && std'.net.sent == std.net.sent && std'.net.got == std.net.got
            && (r.Err? ==> r.error.Io?)
  {
  }

  lemma FlushSocketFacts(s: Sock)
    ensures var r := FlushSocket(s);
            && Sends(s, r.sock, []) && FailsHonestly(s, r)
            && r.sock.out == s.out && r.sock.reply == s.reply
            && (r.res.Ok? ==> !r.sock.unflushed)
  {
    OneFlush(s.std);
    var r := FlushSocket(s);
    assert r.sock == s.(std := r.sock.std, unflushed := r.sock.unflushed);
    assert OpsOnly(s.std.net.record, r.sock.std.net.record);
  }

  /** The contract of flush: done means that everything owed has been handed to the socket. */
  predicate FlushKeeps(s: Sock, r: Ran<()>) {
    && Sends(s, r.sock, []) && FailsHonestly(s, r)
    && r.sock.reply == None
    && (r.res.Ok? ==> r.sock.out == [] && !r.sock.unflushed)
  }

  lemma FlushFacts(s: Sock)
    ensures FlushKeeps(s, Flush(s))
  {
    WriteReplyFacts(s);
    var b := WriteReply(s);
    if b.res.Ok? {
      WriteOutFacts(b.sock);
      var w := WriteOut(b.sock);
      SendsThen(s, b.sock, w.sock, [], []);
      if w.res.Ok? {
        FlushSocketFacts(w.sock);
        SendsThen(s, w.sock, FlushSocket(w.sock).sock, [], []);
      }
    }
  }

  /** The contract of close: an active connection queues the close frame, once; the rest is flushing. */
  predicate CloseKeeps(s: Sock, m: Message, r: Ran<()>) {
    && Sends(s, r.sock, if s.status.Active? then [m] else [])
    && (Blocked(r.res) ==> EndsBlocked(s.std.net.record, r.sock.std.net.record, Outbound))
    && (r.res.Err? && !r.res.error.Io? ==> r.res.error.ConnectionClosed? && r.sock.out == [] && !s.status.Active?)
    && !r.sock.status.Active?
    && (s.status.Active? ==> r.sock.status.ClosedByUs?)
    && (CanRead(s.status) <==> CanRead(r.sock.status))
    && (r.sock.status.Terminated? ==> s.status.Terminated? || s.server)
    && (r.res == Err(ConnectionClosed) ==> s.server && !CanRead(s.status))
    && (r.res.Ok? ==> r.sock.out == [])
  }

  lemma CloseFacts(s: Sock, m: Message)
    ensures CloseKeeps(s, m, DoClose(s, m))
  {
    if s.status.Active? {
      var s1 := s.(status := ClosedByUs);
      assert Sends(s, s1, []);
      WriteFrameFacts(s1, m);
      var b := WriteFrame(s1, m);
      SendsThen(s, s1, b.sock, [], [m]);
      assert [] + [m] == [m];
      if b.res.Ok? {
        FlushFacts(b.sock);
        SendsThen(s, b.sock, Flush(b.sock).sock, [m], []);
        assert [m] + [] == [m];
      }
    } else {
      FlushFacts(s);
    }
  }

  /**
   The contract of write. An active connection queues the message whatever else the result says;
   WouldBlock is honest; Ok leaves the buffer within the threshold. A closing one queues nothing.
   */
  predicate WriteKeeps(s: Sock, m: Message, r: Ran<()>) {
    && Sends(s, r.sock, if s.status.Active? then [m] else [])
    && (Blocked(r.res) ==> EndsBlocked(s.std.net.record, r.sock.std.net.record, Outbound))
    && (s.status.Active? <==> r.res.Ok? || r.res.error.Io?)
    && (r.res.Ok? ==> |r.sock.out| <= s.threshold)
    && r.sock.status == (if s.status.Active? && m.kind.Close? then ClosedByUs else s.status)
  }

  lemma WriteFacts(s: Sock, m: Message)
    ensures WriteKeeps(s, m, Write(s, m))
  {
    if s.status.Active? {
      if m.kind.Close? {
        CloseFacts(s, m);
      } else {
        WriteFrameFacts(s, m);
        var b := WriteFrame(s, m);
        if b.res.Ok? && b.res.value {
          FlushFacts(b.sock);
          SendsThen(s, b.sock, Flush(b.sock).sock, [m], []);
          assert [m] + [] == [m];
        }
      }
    } else {
      assert Sends(s, s, []);
    }
  }

  // ----- reading

  /** The automatic reply a received message calls for. */
  function ReplyTo(m: Message, st: Status): seq<Message> {
    if !st.Active? then []
    else if m.kind.Ping? then [Message(Pong, m.payload)]
    else if m.kind.Close? then [m]
    else []
  }

  /** How a read ends: bytes are conserved, a Pending leaves no whole frame, statuses follow the closing handshake. */
  predicate Got(s: Sock, r: Ran<Message>, done: seq<byte>) {
    && r.sock.server == s.server && r.sock.threshold == s.threshold
    && OpsOnly(s.std.net.record, r.sock.std.net.record) && r.sock.std.log == s.std.log
    && r.sock.std.net.got == done + (if r.res.Ok? then Encode(r.res.value) else []) + r.sock.inbuf
    && (Blocked(r.res) ==> EndsBlocked(s.std.net.record, r.sock.std.net.record, Inbound) && !Parse(r.sock.inbuf).Frame?)
    && Owed(r.sock) == Owed(s) + (if r.res.Ok? then ReplyTo(r.res.value, s.status) else [])
    && (r.res.Ok? ==> (r.sock.status.Active? <==> s.status.Active? && !r.res.value.kind.Close?))
    && (r.res.Ok? ==> CanRead(s.status) && (CanRead(r.sock.status) <==> !r.res.value.kind.Close?))
    && (Blocked(r.res) ==> (CanRead(s.status) <==> CanRead(r.sock.status)))
    && (r.sock.status.Terminated? ==> s.status.Terminated? || s.server || (r.res.Err? && !Blocked(r.res)))
    && (r.res.Err? ==> (r.sock.status.Active? <==> s.status.Active? && !r.res.error.ResetWithoutClosing?))
  }

  /** Reading alone sends nothing. */
  predicate Reads(s: Sock, r: Ran<Message>, done: seq<byte>) {
    && Got(s, r, done)
    && r.sock.accepted == s.accepted && r.sock.out == s.out && r.sock.std.net.sent == s.std.net.sent
  }

  lemma ReceivedBytes(s: Sock, done: seq<byte>)
    requires s.std.net.got == done + s.inbuf && Parse(s.inbuf).Frame?
    ensures var p := Parse(s.inbuf); s.std.net.got == done + Encode(p.message) + s.inbuf[p.length..]
  {
    var p := Parse(s.inbuf);
    ParsedIsEncoded(s.inbuf);
    assert s.inbuf == Encode(p.message) + s.inbuf[p.length..];
  }

  lemma ReceiveFacts(s: Sock, done: seq<byte>)
    requires s.reply == None && s.std.net.got == done + s.inbuf && Parse(s.inbuf).Frame?
    ensures Reads(s, Receive(s, Parse(s.inbuf).message, Parse(s.inbuf).length), done)
  {
    ReceivedBytes(s, done);
    assert done + [] + s.inbuf == done + s.inbuf;
  }

  /** Reading goes on after a chunk. */
  lemma ReadOn(s: Sock, s1: Sock, r: Ran<Message>, done: seq<byte>)
    requires s1 == s.(std := s1.std, inbuf := s1.inbuf) && OpsOnly(s.std.net.record, s1.std.net.record)
    requires s1.std.log == s.std.log
    requires s1.std.net.sent == s.std.net.sent && Reads(s1, r, done)
    ensures Reads(s, r, done)
  {
  }

  lemma {:induction false} ReadFrameFacts(s: Sock, done: seq<byte>)
    requires s.reply == None && !s.status.Terminated? && s.std.net.got == done + s.inbuf
    ensures Reads(s, ReadFrame(s), done)
    decreases |s.std.net.plan|
  {
    match Parse(s.inbuf)
    case Malformed =>
      assert Reads(s, Ran(s, Err(BadFrame)), done);
    case Frame(_, _) => ReceiveFacts(s, done);
    case Incomplete =>
      var (std, r) := s.std.Read();
      if r.Ok? && r.value != [] {
        var s1 := s.(std := std, inbuf := s.inbuf + r.value);
        assert std.net.got == done + s1.inbuf by {
          assert done + s.inbuf + r.value == done + (s.inbuf + r.value);
        }
        ReadFrameFacts(s1, done);
        ReadOn(s, s1, ReadFrame(s1), done);
      }
  }

  /** A whole read, replies included. */
  predicate ReadKeeps(s: Sock, r: Ran<Message>, done: seq<byte>) {
    && Got(s, r, done) && s.std.net.sent <= r.sock.std.net.sent
    && (Exact(s) ==> Exact(r.sock)) && Users(r.sock.accepted) == Users(s.accepted)
    && s.accepted <= r.sock.accepted && UserBuffered(r.sock) <= UserBuffered(s)
  }

  lemma ReadAfterFlush(s: Sock, s1: Sock, done: seq<byte>)
    requires Sends(s, s1, []) && s1.reply == None && s1.status == s.status && !s.status.Terminated?
    requires s.std.net.got == done + s.inbuf
    ensures ReadKeeps(s, ReadFrame(s1), done)
  {
    ReadFrameFacts(s1, done);
  }

  /** A reply that fails ends the read. */
  lemma ReadStops(s: Sock, f: Ran<()>, done: seq<byte>)
    requires FlushKeeps(s, f) && f.res.Err? && !Blocked(f.res) && s.std.net.got == done + s.inbuf
    ensures ReadKeeps(s, Ran(f.sock, Err(f.res.error)), done)
  {
    assert done + [] + s.inbuf == done + s.inbuf;
    assert Owed(s) + [] == Owed(s);
  }

  lemma ReadFacts(s: Sock, done: seq<byte>)
    requires s.std.net.got == done + s.inbuf
    ensures ReadKeeps(s, Read(s), done)
  {
    assert done + [] + s.inbuf == done + s.inbuf;
    if s.status.Terminated? {
    } else if s.reply.Some? || s.unflushed {
      FlushFacts(s);
      var f := Flush(s);
      if f.res.Ok? || Blocked(f.res) {
        ReadAfterFlush(s, if f.res.Ok? then f.sock else f.sock.(unflushed := true), done);
      } else {
        ReadStops(s, f, done);
      }
    } else if !(s.server && !CanRead(s.status)) {
      ReadAfterFlush(s, s, done);
    }
  }
}
