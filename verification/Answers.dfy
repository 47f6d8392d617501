/**
 Every answer of the stream, told from what the socket recorded during the call: no call invents an
 answer, none is withheld, poll_next always reads, and a flush is reported done only if the socket has flushed.
 */
module Answers {
  import opened Basics
  import opened Framing
  import opened Compat
  import opened InnerSocket
  import opened SocketFacts
  import opened SocketRecord
  import opened AsyncStream
  import opened StreamRuns

  /** What an operation that only reports I/O says of these exchanges. */
  function Settled(es: seq<Exchange>): Poll<Result<()>> {
    match Trouble(es)
    case None => Ready(Ok(()))
    case Some(e) => if e == Io(WouldBlock) then Pending else Ready(Err(e))
  }

  /** An error of the connection in order has become the end of the stream. */
  function Shown(r: Result<Message>): Poll<Option<Result<Message>>> {
    match r
    case Ok(m) => Ready(Some(Ok(m)))
    case Err(e) =>
      if e == Io(WouldBlock) then Pending
      else if e.AlreadyClosed? || e.ConnectionClosed? then Ready(None)
      else Ready(Some(Err(e)))
  }

  /** The server's side of a connection that is over: the peer has closed it, or the stream has ended. */
  predicate Over(cfg: Config, t: seq<Input>) {
    cfg.server && (LedgerOf(cfg, t).peerClosed || After(cfg, t).flags.ended)
  }

  // ----- one call

  /** The socket recorded nothing before the call. */
  predicate Starts(c: Conn) {
    c.sock.std.net.record == [] && c.sock.std.log == []
  }

  /** Done means flushed, or that a server's connection is over. */
  predicate DoneMeansFlushed(s: Sock, es: seq<Exchange>) {
    FlushedLast(es) || (s.server && !CanRead(s.status) && Trouble(es) == None)
  }

  lemma FlushAnswer(c: Conn, w: Waker)
    requires Starts(c)
    ensures var (c', o) := Step(c, PollFlush(w));
            && o == Unit(Settled(c'.sock.std.net.record))
            && (o == Unit(Ready(Ok(()))) ==> DoneMeansFlushed(c.sock, c'.sock.std.net.record))
  {
    var s := WithContext(c.sock, PollFlush(w));
    FlushFacts(s);
    FlushRecord(s);
    AllNew(s.std.net, Flush(s).sock.std.net);
    assert Flush(s).res.Ok? ==> Flush(s).res.value == ();
  }

  lemma ReadyStepIs(c: Conn, w: Waker)
    requires !c.flags.ready
    ensures var r := Flush(WithContext(c.sock, PollReady(w)));
            Step(c, PollReady(w)) == (Left(c, PollReady(w), r), Said(c, PollReady(w), r))
  {
  }

  lemma NextStepIs(c: Conn, w: Waker)
    requires !c.flags.ended
    ensures var r := Read(WithContext(c.sock, PollNext(w)));
            Step(c, PollNext(w)).0.sock == r.sock && Step(c, PollNext(w)).1 == Next(Shown(r.res))
  {
  }

  lemma ReadyAnswer(c: Conn, w: Waker)
    requires Starts(c)
    ensures var (c', o) := Step(c, PollReady(w));
            var es := c'.sock.std.net.record;
            if c.flags.ready then o == Unit(Ready(Ok(()))) && c' == c
            else if o == Unit(Ready(Err(ConnectionClosed))) then
              c.sock.server && !CanRead(c.sock.status) && Trouble(es) == None
            else o == Unit(Settled(es)) && (o == Unit(Ready(Ok(()))) ==> FlushedLast(es))
  {
    if !c.flags.ready {
      var s := WithContext(c.sock, PollReady(w));
      FlushFacts(s);
      FlushRecord(s);
      AllNew(s.std.net, Flush(s).sock.std.net);
      assert Flush(s).res.Ok? ==> Flush(s).res.value == ();
      ReadyStepIs(c, w);
    }
  }

  lemma CloseRunRecord(c: Conn, w: Waker)
    ensures FlushSays(WithContext(c.sock, PollClose(w)), CloseRun(c, w))
  {
    FlushRecord(WithContext(c.sock, PollClose(w)));
    CloseRecord(WithContext(c.sock, PollClose(w)), CLOSE_NONE);
  }

  lemma CloseFromRecord(c: Conn, w: Waker, s: Sock, r: Ran<()>)
    requires Starts(c) && s == WithContext(c.sock, PollClose(w)) && FlushSays(s, r)
    requires r.res.Err? && !r.res.error.Io? ==> r.res.error.ConnectionClosed? && s.server && !CanRead(s.status)
    ensures Said(c, PollClose(w), r) == Unit(Settled(r.sock.std.net.record))
    ensures Said(c, PollClose(w), r) == Unit(Ready(Ok(()))) ==> DoneMeansFlushed(c.sock, r.sock.std.net.record)
  {
    AllNew(s.std.net, r.sock.std.net);
    assert r.res.Ok? ==> r.res.value == ();
  }

  lemma CloseAnswered(c: Conn, w: Waker)
    requires Starts(c)
    ensures var (c', o) := Step(c, PollClose(w));
            && o == Unit(Settled(c'.sock.std.net.record))
            && (o == Unit(Ready(Ok(()))) ==> DoneMeansFlushed(c.sock, c'.sock.std.net.record))
  {
    CloseRunFacts(c, w);
    CloseRunRecord(c, w);
    CloseFromRecord(c, w, WithContext(c.sock, PollClose(w)), CloseRun(c, w));
    CloseStepIs(c, w);
  }

  lemma SendAnswer(c: Conn, m: Message)
    requires Starts(c)
    ensures var (c', o) := Step(c, StartSend(m));
            var es := c'.sock.std.net.record;
            if c.sock.status.Active? then
              o == Sent(match Settled(es) case Pending => Ok(()) case Ready(r) => r)
            else es == [] && (o == Sent(Err(AlreadyClosed)) || o == Sent(Err(SendAfterClosing)))
  {
    var r := Write(c.sock, m);
    WriteFacts(c.sock, m);
    WriteRecord(c.sock, m);
    AllNew(c.sock.std.net, r.sock.std.net);
    SendStepIs(c, m);
    assert r.res.Ok? ==> r.res.value == ();
  }

  lemma ClosedAsksNothing(s: Sock)
    requires s.status.Terminated?
    ensures Read(s).sock.std == s.std
  {
  }

  lemma NextAnswer(c: Conn, w: Waker)
    requires Starts(c) && !c.flags.ended
    ensures var (c', o) := Step(c, PollNext(w));
            var es := c'.sock.std.net.record;
            var p := Parse(c.sock.inbuf + Heard(es));
            && o == Next(Shown(ReadAnswer(c.sock.server, c.sock.status, es, p)))
            && (es != [] && es[|es| - 1].DidRead? && (Trouble(es).Some? || AtEnd(es)) ==> p.Incomplete?)
            && (c.sock.status.Terminated? ==> es == [])
            && (CanRead(c.sock.status) && (c.sock.reply.Some? || c.sock.unflushed) ==> es != [] && !es[0].DidRead?)
            && (Stopped(es).Some? ==> Stopped(es).value.Io?)
  {
    var s := WithContext(c.sock, PollNext(w));
    NextStepIs(c, w);
    ReadRecord(s);
    AllNew(s.std.net, Read(s).sock.std.net);
    if s.status.Terminated? {
      ClosedAsksNothing(s);
    }
  }

  // ----- runs: the sink

  /** poll_flush says what the socket says; done means that the socket has completed a flush after the last byte. */
  lemma PollFlushAnswers(cfg: Config, t: seq<Input>)
    requires t != [] && t[|t| - 1].call.PollFlush?
    ensures LastOutcome(cfg, t) == Unit(Settled(Record(cfg, t)))
    ensures LastOutcome(cfg, t) == Unit(Ready(Ok(()))) ==>
              FlushedLast(Record(cfg, t)) || Over(cfg, t[..|t| - 1])
  {
    var p, i := t[..|t| - 1], t[|t| - 1];
    RunLinked(cfg, p);
    RunReceives(cfg, p);
    FlushAnswer(Install(After(cfg, p), i.answers), i.call.waker);
  }

  /** A ready stream answers at once; otherwise poll_ready is a flush, and is done when that is. */
  lemma PollReadyAnswers(cfg: Config, t: seq<Input>)
    requires t != [] && t[|t| - 1].call.PollReady?
    ensures var p, o, es := t[..|t| - 1], LastOutcome(cfg, t), Record(cfg, t);
            if After(cfg, p).flags.ready then o == Unit(Ready(Ok(()))) && es == []
            else if o == Unit(Ready(Err(ConnectionClosed))) then Over(cfg, p) && Trouble(es) == None
            else o == Unit(Settled(es)) && (o == Unit(Ready(Ok(()))) ==> FlushedLast(es))
  {
    var p, i := t[..|t| - 1], t[|t| - 1];
    RunLinked(cfg, p);
    RunReceives(cfg, p);
    ReadyAnswer(Install(After(cfg, p), i.answers), i.call.waker);
  }

  /** poll_close says what the socket says; done means flushed, the close frame included. */
  lemma PollCloseAnswers(cfg: Config, t: seq<Input>)
    requires t != [] && t[|t| - 1].call.PollClose?
    ensures LastOutcome(cfg, t) == Unit(Settled(Record(cfg, t)))
    ensures LastOutcome(cfg, t) == Unit(Ready(Ok(()))) ==>
              FlushedLast(Record(cfg, t)) || Over(cfg, t[..|t| - 1])
  {
    var p, i := t[..|t| - 1], t[|t| - 1];
    RunLinked(cfg, p);
    RunReceives(cfg, p);
    CloseAnswered(Install(After(cfg, p), i.answers), i.call.waker);
  }

  /** start_send on an open connection fails only as the socket does, and a blocked write is no failure. */
  lemma StartSendAnswers(cfg: Config, t: seq<Input>)
    requires t != [] && t[|t| - 1].call.StartSend?
    ensures var o, es := LastOutcome(cfg, t), Record(cfg, t);
            if LedgerOf(cfg, t[..|t| - 1]).open then
              o == Sent(match Settled(es) case Pending => Ok(()) case Ready(r) => r)
            else es == [] && (o == Sent(Err(AlreadyClosed)) || o == Sent(Err(SendAfterClosing)))
  {
    var p, i := t[..|t| - 1], t[|t| - 1];
    RunLinked(cfg, p);
    SendAnswer(Install(After(cfg, p), i.answers), i.call.message);
  }

  /** start_send buffers: with room under the threshold and no reply to send it asks the socket nothing. */
  lemma StartSendBuffers(cfg: Config, t: seq<Input>)
    requires t != [] && t[|t| - 1].call.StartSend? && LedgerOf(cfg, t[..|t| - 1]).open
    requires var m, s := t[|t| - 1].call.message, After(cfg, t[..|t| - 1]).sock;
             !m.kind.Close? && s.reply.None? && !s.unflushed && |s.out| + |Encode(m)| <= cfg.threshold
    ensures Record(cfg, t) == [] && LastOutcome(cfg, t) == Sent(Ok(())) && After(cfg, t).flags.ready
    ensures After(cfg, t).sock.out == After(cfg, t[..|t| - 1]).sock.out + Encode(t[|t| - 1].call.message)
  {
    var p, i := t[..|t| - 1], t[|t| - 1];
    RunLinked(cfg, p);
    RunReceives(cfg, p);
    WriteIsBuffered(Install(After(cfg, p), i.answers).sock, i.call.message);
  }

  // ----- runs: the stream

  /** The bytes received and not yet delivered as messages. */
  function Undelivered(cfg: Config, t: seq<Input>, before: seq<Message>): seq<byte> {
    var bytes := Received(cfg, t);
    if |EncodeAll(before)| <= |bytes| then bytes[|EncodeAll(before)|..] else []
  }

  lemma UndeliveredIs(cfg: Config, t: seq<Input>)
    requires t != []
    ensures var p := t[..|t| - 1];
            var ms := LedgerOf(cfg, p).delivered;
            && Received(cfg, t) == EncodeAll(ms) + Undelivered(cfg, t, ms)
            && Undelivered(cfg, t, ms) == After(cfg, p).sock.inbuf + Heard(Record(cfg, t))
  {
    var p := t[..|t| - 1];
    var ms, rest := LedgerOf(cfg, p).delivered, After(cfg, p).sock.inbuf;
    RunLinked(cfg, p);
    RunReceives(cfg, p);
    Assoc(cfg.part, Arrived(cfg, p), Heard(Record(cfg, t)));
    Assoc(EncodeAll(ms), rest, Heard(Record(cfg, t)));
    assert (EncodeAll(ms) + (rest + Heard(Record(cfg, t))))[|EncodeAll(ms)|..] == rest + Heard(Record(cfg, t));
  }

  /**
   What poll_next says, from the socket's answers during the call, from whether a close frame has been
   delivered, and from what the undelivered bytes begin with.
   */
  function NextSays(server: bool, closed: bool, es: seq<Exchange>, p: Parsed): Poll<Option<Result<Message>>> {
    match Stopped(es)
    case Some(e) => if e == Io(WouldBlock) then Pending else Ready(Some(Err(e)))
    case None =>
      if AtEnd(es) then Ready(if closed then None else Some(Err(ResetWithoutClosing)))
      else if server && closed && !ReplyBlocked(es) then Ready(None)
      else match p
           case Frame(m, _) => Ready(Some(if closed then Err(ReceivedAfterClosing) else Ok(m)))
           case _ => Ready(Some(Err(BadFrame)))
  }

  lemma ShownIsSaid(server: bool, st: Status, es: seq<Exchange>, p: Parsed)
    requires st.Terminated? ==> server && es == []
    requires Stopped(es).Some? ==> Stopped(es).value.Io?
    ensures Shown(ReadAnswer(server, st, es, p)) == NextSays(server, !CanRead(st), es, p)
  {
  }

  /**
   poll_next on a stream that has not ended: its answer is settled by what the socket answered it and by what
   the caller can know, namely its role, the bytes received and the messages delivered. No flag plays a part.
   */
  lemma PollNextAnswers(cfg: Config, t: seq<Input>)
    requires t != [] && t[|t| - 1].call.PollNext? && !After(cfg, t[..|t| - 1]).flags.ended
    ensures var p, es := t[..|t| - 1], Record(cfg, t);
            var first := Parse(Undelivered(cfg, t, LedgerOf(cfg, p).delivered));
            && LastOutcome(cfg, t) == Next(NextSays(cfg.server, LedgerOf(cfg, p).peerClosed, es, first))
            && (es != [] && es[|es| - 1].DidRead? && (Trouble(es).Some? || AtEnd(es)) ==> first.Incomplete?)
  {
    var p, i := t[..|t| - 1], t[|t| - 1];
    RunLinked(cfg, p);
    RunReceives(cfg, p);
    UndeliveredIs(cfg, t);
    var c := Install(After(cfg, p), i.answers);
    NextAnswer(c, i.call.waker);
    ShownIsSaid(cfg.server, c.sock.status, Record(cfg, t), Parse(c.sock.inbuf + Heard(Record(cfg, t))));
  }

  /** Replies go first: with a reply to send or to flush, poll_next turns to that before it reads. */
  lemma PollNextSendsReplies(cfg: Config, t: seq<Input>)
    requires t != [] && t[|t| - 1].call.PollNext?
    requires !After(cfg, t[..|t| - 1]).flags.ended && !LedgerOf(cfg, t[..|t| - 1]).peerClosed
    requires var s := After(cfg, t[..|t| - 1]).sock; s.reply.Some? || s.unflushed
    ensures Record(cfg, t) != [] && !Record(cfg, t)[0].DidRead?
  {
    var p, i := t[..|t| - 1], t[|t| - 1];
    RunLinked(cfg, p);
    NextAnswer(Install(After(cfg, p), i.answers), i.call.waker);
  }

  /** Sending an automatic reply has failed, rather than blocked. */
  predicate ReplyFailed(es: seq<Exchange>) {
    es != [] && !es[|es| - 1].DidRead? && !es[|es| - 1].Waits() && Trouble(es).Some?
  }

  lemma FrameIsDelivered(server: bool, es: seq<Exchange>, p: Parsed)
    requires es != [] && es[|es| - 1].DidRead? && (Trouble(es).Some? || AtEnd(es)) ==> p.Incomplete?
    ensures var o := NextSays(server, false, es, p);
            && (p.Frame? && !ReplyFailed(es) <==> o.Ready? && o.value.Some? && o.value.value.Ok?)
            && (p.Frame? && !ReplyFailed(es) ==> o == Ready(Some(Ok(p.message))))
  {
  }

  lemma FirstUndelivered(ms: seq<Message>, rest: seq<byte>)
    ensures var all := DecodeAll(EncodeAll(ms) + rest);
            && ms <= all
            && (|all| > |ms| <==> Parse(rest).Frame?)
            && (Parse(rest).Frame? ==> all[|ms|] == Parse(rest).message)
  {
    DecodeEncoded(ms, rest);
  }

  /**
   Reading makes progress: unless the stream has ended or the peer has closed, poll_next delivers a message
   exactly if the bytes received by the end of the call hold one more whole frame than was delivered and no
   automatic reply has failed; and it is the next message of those bytes. A sink that is blocked, a reply that
   is blocked, or a close under way changes nothing.
   */
  lemma PollNextDelivers(cfg: Config, t: seq<Input>)
    requires t != [] && t[|t| - 1].call.PollNext?
    requires !After(cfg, t[..|t| - 1]).flags.ended && !LedgerOf(cfg, t[..|t| - 1]).peerClosed
    ensures var all, n, o := DecodeAll(Received(cfg, t)), |LedgerOf(cfg, t[..|t| - 1]).delivered|, LastOutcome(cfg, t);
            && (|all| > n && !ReplyFailed(Record(cfg, t))
                <==> o.next.Ready? && o.next.value.Some? && o.next.value.value.Ok?)
            && (|all| > n && !ReplyFailed(Record(cfg, t)) ==> o == Next(Ready(Some(Ok(all[n])))))
  {
    var p := t[..|t| - 1];
    var ms := LedgerOf(cfg, p).delivered;
    RunLinked(cfg, p);
    UndeliveredIs(cfg, t);
    PollNextAnswers(cfg, t);
    FirstUndelivered(ms, Undelivered(cfg, t, ms));
    FrameIsDelivered(cfg.server, Record(cfg, t), Parse(Undelivered(cfg, t, ms)));
  }
}
