/**
 What an operation of the WebSocket machine answers, told from the socket's own record of the operations
 it was asked for and the answers it gave: the machine neither invents nor hides an answer, hands each
 direction its own proxy, and reports a flush as done only if the socket has completed one.
 */
module SocketRecord {
  import opened Basics
  import opened Framing
  import opened Compat
  import opened InnerSocket
  import opened SocketFacts

  /** The bytes delivered in these exchanges. */
  function Heard(es: seq<Exchange>): seq<byte> {
    if es == [] then []
    else Heard(es[..|es| - 1]) + (match es[|es| - 1] case DidRead(_, Ready(Ok(chunk))) => chunk case _ => [])
  }

  /** The proxies a socket remembers after these exchanges: the last one handed over with each Pending. */
  function Kept(held: PerDir<Option<Dir>>, es: seq<Exchange>): PerDir<Option<Dir>> {
    if es == [] then held
    else
      var e := es[|es| - 1];
      var before := Kept(held, es[..|es| - 1]);
      if e.Waits() then before.Put(e.Way(), Some(e.proxy)) else before
  }

  lemma {:induction false} HeardConcat(x: seq<Exchange>, y: seq<Exchange>)
    ensures Heard(x + y) == Heard(x) + Heard(y)
  {
    if y == [] {
      assert x + y == x;
    } else {
      var p := y[..|y| - 1];
      assert (x + y)[..|x + y| - 1] == x + p;
      HeardConcat(x, p);
      Assoc(Heard(x), Heard(p), match y[|y| - 1] case DidRead(_, Ready(Ok(chunk))) => chunk case _ => []);
    }
  }

  lemma {:induction false} KeptConcat(held: PerDir<Option<Dir>>, x: seq<Exchange>, y: seq<Exchange>)
    ensures Kept(held, x + y) == Kept(Kept(held, x), y)
  {
    if y == [] {
      assert x + y == x;
    } else {
      assert (x + y)[..|x + y| - 1] == x + y[..|y| - 1];
      KeptConcat(held, x, y[..|y| - 1]);
    }
  }

  lemma {:induction false} OutboundHearsNothing(es: seq<Exchange>)
    requires forall i :: 0 <= i < |es| ==> !es[i].DidRead?
    ensures Heard(es) == []
  {
    if es != [] {
      OutboundHearsNothing(es[..|es| - 1]);
    }
  }

  /** What the socket recorded between `a` and `b`. */
  function New(a: Net, b: Net): seq<Exchange> {
    if |a.record| <= |b.record| then b.record[|a.record|..] else []
  }

  /** From `a` to `b`: own proxies only; what arrived and what is remembered is what the record says. */
  predicate Traced(a: Net, b: Net) {
    && OpsOnly(a.record, b.record)
    && b.got == a.got + Heard(New(a, b))
    && b.held == Kept(a.held, New(a, b))
  }

  lemma TracedThen(a: Net, b: Net, c: Net)
    requires Traced(a, b) && Traced(b, c)
    ensures Traced(a, c) && New(a, c) == New(a, b) + New(b, c)
  {
    assert New(a, c) == New(a, b) + New(b, c);
    HeardConcat(New(a, b), New(b, c));
    KeptConcat(a.held, New(a, b), New(b, c));
    Assoc(a.got, Heard(New(a, b)), Heard(New(b, c)));
  }

  /** The I/O error that the last of these exchanges calls for; a write that takes nothing is one. */
  function Trouble(es: seq<Exchange>): Option<WsError> {
    if es == [] then None
    else if es[|es| - 1].Waits() then Some(Io(WouldBlock))
    else match es[|es| - 1]
         case DidRead(_, Ready(Err(e))) => Some(e)
         case DidWrite(_, _, Ready(Err(e))) => Some(e)
         case DidFlush(_, Ready(Err(e))) => Some(e)
         case DidWrite(_, _, Ready(Ok(n))) => if n == 0 then Some(Io(ConnectionReset)) else None
         case _ => None
  }

  function IoError<T>(r: Result<T>): Option<WsError> {
    if r.Err? && r.error.Io? then Some(r.error) else None
  }

  /** The last thing the socket did was to complete a flush. */
  predicate FlushedLast(es: seq<Exchange>) {
    es != [] && es[|es| - 1].DidFlush? && es[|es| - 1].flushed == Ready(Ok(()))
  }

  // ----- sending

  /** A sending operation reports exactly the I/O error the socket gave it, and stops there. */
  predicate Says<T>(s: Sock, r: Ran<T>) {
    var es := New(s.std.net, r.sock.std.net);
    && Traced(s.std.net, r.sock.std.net)
    && (forall i :: 0 <= i < |es| ==> !es[i].DidRead?)
    && (forall i :: 0 <= i < |es| - 1 ==> !es[i].Waits())
    && IoError(r.res) == Trouble(es)
    && (Blocked(r.res) ==> es[|es| - 1].Waits())
  }

  lemma SaysNothing<T>(s: Sock, r: Ran<T>)
    requires r.sock.std.net == s.std.net && IoError(r.res) == None
    ensures Says(s, r) && New(s.std.net, r.sock.std.net) == []
  {
    assert New(s.std.net, r.sock.std.net) == [];
    assert s.std.net.got + [] == s.std.net.got;
  }

  lemma SaysThen<T, U>(s: Sock, r: Ran<T>, s1: Sock, q: Ran<U>)
    requires Says(s, r) && IoError(r.res) == None && s1.std.net == r.sock.std.net && Says(s1, q)
    ensures Says(s, q)
    ensures New(s.std.net, q.sock.std.net) == New(s.std.net, r.sock.std.net) + New(s1.std.net, q.sock.std.net)
  {
    TracedThen(s.std.net, s1.std.net, q.sock.std.net);
  }

  /** One exchange with the socket. */
  lemma OneExchange(a: Net, b: Net, e: Exchange)
    requires b.record == a.record + [e] && e.proxy == e.Way()
    requires b.got == a.got + (match e case DidRead(_, Ready(Ok(chunk))) => chunk case _ => [])
    requires b.held == if e.Waits() then a.held.Put(e.Way(), Some(e.proxy)) else a.held
    ensures Traced(a, b) && New(a, b) == [e]
  {
    assert New(a, b) == [e];
    assert [e][..0] == [];
  }

  lemma {:induction false} WriteOutSays(s: Sock)
    ensures Says(s, WriteOut(s))
    decreases |s.std.net.plan|
  {
    if s.out == [] {
      SaysNothing(s, WriteOut(s));
    } else {
      var (std, w) := s.std.Write(s.out);
      OneExchange(s.std.net, std.net, DidWrite(Outbound, s.out, Cvt(w)));
      if w.Ok? && w.value != 0 {
        var s1 := s.(std := std, out := s.out[w.value..]);
        WriteOutSays(s1);
        SaysThen(s, Ran(s1, w), s1, WriteOut(s1));
      }
    }
  }

  lemma BufferSays(s: Sock, e: Entry)
    ensures Says(s, BufferFrame(s, e))
  {
    var s1 := Push(s, e);
    WriteOutSays(s1);
    SaysNothing(s, Ran(s1, Ok(())));
  }

  lemma FinishSays(s: Sock, flush: bool)
    ensures Says(s, Finish(s, flush))
  {
    WriteOutSays(s);
    SaysNothing(s, Ran(s, Ok(flush)));
  }

  lemma WriteReplySays(s: Sock)
    ensures Says(s, WriteReply(s))
  {
    if s.reply.None? {
      FinishSays(s, s.unflushed);
    } else {
      var s1 := s.(reply := None);
      BufferSays(s1, Auto(s.reply.value));
      var b := BufferFrame(s1, Auto(s.reply.value));
      if b.res.Ok? {
        FinishSays(b.sock, true);
        SaysThen(s, b, b.sock, Finish(b.sock, true));
      }
    }
  }

  lemma WriteFrameSays(s: Sock, m: Message)
    ensures Says(s, WriteFrame(s, m))
  {
    BufferSays(s, User(m));
    var b := BufferFrame(s, User(m));
    if b.res.Ok? {
      WriteReplySays(b.sock);
      SaysThen(s, b, b.sock, WriteReply(b.sock));
    }
  }

  lemma FlushSocketSays(s: Sock)
    ensures var r := FlushSocket(s);
            Says(s, r) && (r.res.Ok? ==> FlushedLast(New(s.std.net, r.sock.std.net)))
  {
    var (std, r) := s.std.Flush();
    OneExchange(s.std.net, std.net, DidFlush(Outbound, Cvt(r)));
    assert r.Ok? ==> r.value == ();
  }

  /** A flush is done only if the socket has completed a flush, after the last write. */
  predicate FlushSays(s: Sock, r: Ran<()>) {
    Says(s, r) && (r.res.Ok? ==> FlushedLast(New(s.std.net, r.sock.std.net)))
  }

  lemma FlushRecord(s: Sock)
    ensures FlushSays(s, Flush(s))
  {
    WriteReplySays(s);
    var b := WriteReply(s);
    if b.res.Ok? {
      WriteOutSays(b.sock);
      var w := WriteOut(b.sock);
      SaysThen(s, b, b.sock, w);
      if w.res.Ok? {
        FlushSocketSays(w.sock);
        SaysThen(s, w, w.sock, FlushSocket(w.sock));
      }
    }
  }

  lemma CloseRecord(s: Sock, m: Message)
    ensures FlushSays(s, DoClose(s, m))
  {
    if s.status.Active? {
      var s1 := s.(status := ClosedByUs);
      WriteFrameSays(s1, m);
      var b := WriteFrame(s1, m);
      if b.res.Ok? {
        FlushRecord(b.sock);
        SaysThen(s, b, b.sock, Flush(b.sock));
      }
    } else {
      FlushRecord(s);
    }
  }

  /** A closing connection refuses to write without asking the socket anything. */
  predicate WriteSays(s: Sock, r: Ran<()>) {
    && Says(s, r)
    && (!s.status.Active? ==> r == Ran(s, Err(if s.status.Terminated? then AlreadyClosed else SendAfterClosing)))
  }

  lemma WriteRecord(s: Sock, m: Message)
    ensures WriteSays(s, Write(s, m))
  {
    if !s.status.Active? {
      SaysNothing(s, Write(s, m));
    } else if m.kind.Close? {
      CloseRecord(s, m);
    } else {
      WriteFrameSays(s, m);
      var b := WriteFrame(s, m);
      if b.res.Ok? && b.res.value {
        FlushRecord(b.sock);
        SaysThen(s, b, b.sock, Flush(b.sock));
      }
    }
  }

  /** Buffering: a message that fits under the threshold, with no reply to send, asks the socket nothing. */
  lemma WriteIsBuffered(s: Sock, m: Message)
    requires s.status.Active? && !m.kind.Close? && s.reply.None? && !s.unflushed
    requires |s.out| + |Encode(m)| <= s.threshold
    ensures var r := Write(s, m);
            r.res == Ok(()) && r.sock.std == s.std && r.sock.out == s.out + Encode(m)
  {
  }

  // ----- reading

  /** The error that ends a read; a reply that is blocked does not. */
  function Stopped(es: seq<Exchange>): Option<WsError> {
    if es != [] && es[|es| - 1].Waits() && !es[|es| - 1].DidRead? then None else Trouble(es)
  }

  predicate AtEnd(es: seq<Exchange>) {
    es != [] && es[|es| - 1].DidRead? && es[|es| - 1].read == Ready(Ok([]))
  }

  predicate ReplyBlocked(es: seq<Exchange>) {
    exists i :: 0 <= i < |es| && es[i].Waits() && !es[i].DidRead?
  }

  /** What reading answers, from the record, the state of the connection and the first frame of the bytes at hand. */
  function ReadAnswer(server: bool, st: Status, es: seq<Exchange>, p: Parsed): Result<Message> {
    if st.Terminated? then Err(AlreadyClosed)
    else if Stopped(es).Some? then Err(Stopped(es).value)
    else if AtEnd(es) then Err(if CanRead(st) then ResetWithoutClosing else ConnectionClosed)
    else if server && !CanRead(st) && !ReplyBlocked(es) then Err(ConnectionClosed)
    else match p
         case Frame(m, _) => if CanRead(st) then Ok(m) else Err(ReceivedAfterClosing)
         case _ => Err(BadFrame)
  }

  /** Reading after the replies: the bytes at hand are those received before and those of the record. */
  predicate FrameSays(s: Sock, r: Ran<Message>) {
    var es := New(s.std.net, r.sock.std.net);
    var p := Parse(s.inbuf + Heard(es));
    && Traced(s.std.net, r.sock.std.net)
    && (forall i :: 0 <= i < |es| ==> es[i].DidRead?)
    && (Trouble(es).Some? || AtEnd(es) <==> p.Incomplete?)
    && r.res == ReadAnswer(false, s.status, es, p)
    && (Trouble(es).Some? ==> Trouble(es).value.Io?)
  }

  lemma FrameAtHand(s: Sock)
    requires !s.status.Terminated? && !Parse(s.inbuf).Incomplete?
    ensures FrameSays(s, ReadFrame(s))
  {
    var r := ReadFrame(s);
    assert New(s.std.net, r.sock.std.net) == [];
    assert s.inbuf + [] == s.inbuf && s.std.net.got + [] == s.std.net.got;
  }

  lemma FrameSaysThen(s: Sock, s1: Sock, chunk: seq<byte>, r: Ran<Message>)
    requires Traced(s.std.net, s1.std.net) && New(s.std.net, s1.std.net) == [DidRead(Inbound, Ready(Ok(chunk)))]
    requires chunk != [] && s1.inbuf == s.inbuf + chunk && s1.status == s.status && FrameSays(s1, r)
    ensures FrameSays(s, r)
  {
    var e := DidRead(Inbound, Ready(Ok(chunk)));
    TracedThen(s.std.net, s1.std.net, r.sock.std.net);
    var es := New(s1.std.net, r.sock.std.net);
    HeardConcat([e], es);
    assert [e][..0] == [];
    assert Heard([e]) == chunk;
    Assoc(s.inbuf, chunk, Heard(es));
  }

  lemma {:induction false} FrameRecord(s: Sock)
    requires !s.status.Terminated?
    ensures FrameSays(s, ReadFrame(s))
    decreases |s.std.net.plan|
  {
    if !Parse(s.inbuf).Incomplete? {
      FrameAtHand(s);
    } else {
      var (std, c) := s.std.Read();
      var e := DidRead(Inbound, Cvt(c));
      OneExchange(s.std.net, std.net, e);
      if c.Ok? && c.value != [] {
        var s1 := s.(std := std, inbuf := s.inbuf + c.value);
        FrameRecord(s1);
        FrameSaysThen(s, s1, c.value, ReadFrame(s1));
      } else {
        assert [e][..0] == [];
        assert Heard([e]) == [];
        assert s.inbuf + [] == s.inbuf;
      }
    }
  }

  /** A whole read, replies first: while it can be read, a frame at hand is delivered unless a reply fails. */
  predicate ReadSays(s: Sock, r: Ran<Message>) {
    var es := New(s.std.net, r.sock.std.net);
    var p := Parse(s.inbuf + Heard(es));
    && Traced(s.std.net, r.sock.std.net)
    && (es != [] && es[|es| - 1].DidRead? && (Trouble(es).Some? || AtEnd(es)) ==> p.Incomplete?)
    && r.res == ReadAnswer(s.server, s.status, es, p)
    && (Trouble(es).Some? ==> Trouble(es).value.Io?)
    && (CanRead(s.status) && (s.reply.Some? || s.unflushed) ==> es != [] && !es[0].DidRead?)
  }

  lemma AnswerAfterReplies(server: bool, st: Status, fs: seq<Exchange>, rs: seq<Exchange>, p: Parsed)
    requires (forall i :: 0 <= i < |fs| ==> !fs[i].DidRead?) && (forall i :: 0 <= i < |rs| ==> rs[i].DidRead?)
    requires Trouble(fs) == None || (Trouble(fs) == Some(Io(WouldBlock)) && fs[|fs| - 1].Waits())
    requires server && !CanRead(st) ==> Trouble(fs).Some?
    requires Trouble(rs).Some? ==> Trouble(rs).value.Io?
    ensures var es := fs + rs;
            && ReadAnswer(server, st, es, p) == ReadAnswer(false, st, rs, p)
            && (Trouble(es).Some? ==> Trouble(es).value.Io?)
            && (es != [] && es[|es| - 1].DidRead? ==> Trouble(es) == Trouble(rs) && AtEnd(es) == AtEnd(rs))
  {
    var es := fs + rs;
    if Trouble(fs).Some? {
      assert es[|fs| - 1] == fs[|fs| - 1];
      assert ReplyBlocked(es);
    }
    if rs == [] {
      assert es == fs;
    } else {
      assert es[|es| - 1] == rs[|rs| - 1];
    }
    assert Stopped(es) == Stopped(rs) && AtEnd(es) == AtEnd(rs);
  }

  /** Its last act done, a server's connection is closed, not flushed. */
  lemma FinishedIsClosed(s: Sock)
    requires s.server && !CanRead(s.status)
    ensures Flush(s).res.Err?
  {
    if s.reply.Some? {
      WriteOutFacts(Push(s.(reply := None), Auto(s.reply.value)));
    }
  }

  lemma ReadAfterReplies(s: Sock, f: Ran<()>, s1: Sock)
    requires Says(s, f) && (f.res.Ok? || Blocked(f.res)) && !s.status.Terminated?
    requires s1.std.net == f.sock.std.net && s1.status == s.status && s1.inbuf == s.inbuf
    requires s.server && !CanRead(s.status) ==> Blocked(f.res)
    requires s.reply.Some? || s.unflushed ==> New(s.std.net, f.sock.std.net) != []
    ensures ReadSays(s, ReadFrame(s1))
  {
    FrameRecord(s1);
    var r := ReadFrame(s1);
    TracedThen(s.std.net, s1.std.net, r.sock.std.net);
    var fs, rs := New(s.std.net, s1.std.net), New(s1.std.net, r.sock.std.net);
    HeardConcat(fs, rs);
    OutboundHearsNothing(fs);
    assert [] + Heard(rs) == Heard(rs);
    AnswerAfterReplies(s.server, s.status, fs, rs, Parse(s.inbuf + Heard(rs)));
  }

  lemma ReplyEndsRead(s: Sock, f: Ran<()>)
    requires Says(s, f) && FlushKeeps(s, f) && f.res.Err? && !Blocked(f.res) && !s.status.Terminated?
    ensures ReadSays(s, Ran(f.sock, Err(f.res.error)))
  {
    OutboundHearsNothing(New(s.std.net, f.sock.std.net));
  }

  lemma ReadRecord(s: Sock)
    ensures ReadSays(s, Read(s))
  {
    var f := Flush(s);
    FlushRecord(s);
    FlushFacts(s);
    if s.status.Terminated? {
      SaysNothing(s, Read(s));
    } else if s.reply.Some? || s.unflushed {
      if f.res.Ok? || Blocked(f.res) {
        if s.server && !CanRead(s.status) {
          FinishedIsClosed(s);
        }
        ReadAfterReplies(s, f, if f.res.Ok? then f.sock else f.sock.(unflushed := true));
      } else {
        ReplyEndsRead(s, f);
      }
    } else if s.server && !CanRead(s.status) {
      SaysNothing(s, Ran(s, Ok(())));
    } else {
      SaysNothing(s, Ran(s, Ok(())));
      ReadAfterReplies(s, Ran(s, Ok(())), s);
    }
  }
}
