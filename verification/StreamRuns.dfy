/**
 Whole runs of a connection: any sequence of calls, each with any behaviour of the socket. What a
 caller can see (its calls and their outcomes) determines what was accepted, owed and delivered.
 */
module StreamRuns {
  import opened Basics
  import opened Framing
  import opened Compat
  import opened InnerSocket
  import opened SocketFacts
  import opened SocketRecord
  import opened AsyncStream

  /** `part` are bytes already read from the peer when the stream is created. */
  datatype Config = Config(server: bool, threshold: nat, part: seq<byte>)

  /** One call, and what the socket answers while it runs. */
  datatype Input = Input(call: Call, answers: seq<Answer>)

  function Fresh(cfg: Config): Conn {
    Conn(FRESH_FLAGS,
         Sock(cfg.server, cfg.threshold, [], None, false, cfg.part, Active,
              Std(Net([], [], cfg.part, PerDir(None, None), []), []), []))
  }

  /** The socket's next answers; each call starts an empty record of operations and registrations. */
  function Install(c: Conn, answers: seq<Answer>): Conn {
    c.(sock := c.sock.(std := Std(c.sock.std.net.(plan := answers, record := []), [])))
  }

  function Exec(c: Conn, i: Input): (Conn, Outcome) {
    Step(Install(c, i.answers), i.call)
  }

  function After(cfg: Config, t: seq<Input>): Conn {
    if t == [] then Fresh(cfg) else Exec(After(cfg, t[..|t| - 1]), t[|t| - 1]).0
  }

  function LastOutcome(cfg: Config, t: seq<Input>): Outcome
    requires t != []
  {
    Exec(After(cfg, t[..|t| - 1]), t[|t| - 1]).1
  }

  // ----- the caller's view

  /** What the caller can tell: whether sending is open, what was sent, which replies are due, what arrived. */
  datatype Ledger = Ledger(
    open: bool,
    peerClosed: bool, // a close frame has been delivered
    user: seq<Message>,
    owed: seq<Message>,
    delivered: seq<Message>)

  /** A start_send that fails with an I/O error has still queued its message. */
  predicate Queued(r: Result<()>) {
    r.Ok? || r.error.Io?
  }

  function Note(l: Ledger, call: Call, o: Outcome): Ledger {
    match call
    case PollNext(_) =>
      if o.Next? && o.next.Ready? && o.next.value.Some? then
        (match o.next.value.value
         case Ok(m) =>
           Ledger(l.open && !m.kind.Close?, l.peerClosed || m.kind.Close?, l.user,
                  l.owed + (if !l.open then []
                            else if m.kind.Ping? then [Message(Pong, m.payload)]
                            else if m.kind.Close? then [m]
                            else []),
                  l.delivered + [m])
         case Err(e) => l.(open := l.open && !e.ResetWithoutClosing?))
      else l
    case StartSend(m) =>
      if o.Sent? && Queued(o.sent) then l.(user := l.user + [m], open := l.open && !m.kind.Close?) else l
    case PollClose(_) => if l.open then l.(user := l.user + [CLOSE_NONE], open := false) else l
    case _ => l
  }

  function LedgerOf(cfg: Config, t: seq<Input>): Ledger {
    if t == [] then Ledger(true, false, [], [], [])
    else Note(LedgerOf(cfg, t[..|t| - 1]), t[|t| - 1].call, LastOutcome(cfg, t))
  }

  // ----- the invariant tying both together

  predicate Linked(c: Conn, l: Ledger) {
    && (l.open <==> c.sock.status.Active?)
    && (c.flags.closing ==> !l.open)
    && (c.flags.ended || (l.peerClosed <==> !CanRead(c.sock.status)))
    && (c.flags.ended || c.sock.server || !c.sock.status.Terminated?)
    && Exact(c.sock)
    && Users(c.sock.accepted) == l.user
    && Owed(c.sock) == l.owed
    && c.sock.std.net.got == EncodeAll(l.delivered) + c.sock.inbuf
  }

  lemma NoteDelivered(l: Ledger, w: Waker, m: Message, st: Status)
    requires l.open <==> st.Active?
    ensures Note(l, PollNext(w), Next(Ready(Some(Ok(m)))))
         == Ledger(l.open && !m.kind.Close?, l.peerClosed || m.kind.Close?, l.user,
                   l.owed + ReplyTo(m, st), l.delivered + [m])
  {
  }

  lemma DeliveredIsLinked(c: Conn, l: Ledger, w: Waker, s: Sock, r: Ran<Message>)
    requires Linked(c, l) && s == WithContext(c.sock, PollNext(w)) && r.res.Ok?
    requires ReadKeeps(s, r, EncodeAll(l.delivered))
    ensures Linked(Conn(c.flags, r.sock), Note(l, PollNext(w), Next(Ready(Some(Ok(r.res.value))))))
  {
    EncodeAllPush(l.delivered, r.res.value);
    NoteDelivered(l, w, r.res.value, s.status);
  }

  lemma FailedIsLinked(c: Conn, l: Ledger, w: Waker, s: Sock, r: Ran<Message>)
    requires Linked(c, l) && s == WithContext(c.sock, PollNext(w)) && r.res.Err?
    requires ReadKeeps(s, r, EncodeAll(l.delivered))
    ensures Linked(Conn(c.flags.(ended := c.flags.ended || !Blocked(r.res)), r.sock),
                   l.(open := l.open && !r.res.error.ResetWithoutClosing?))
  {
    assert EncodeAll(l.delivered) + [] + r.sock.inbuf == EncodeAll(l.delivered) + r.sock.inbuf;
    assert l.owed + [] == l.owed;
  }

  lemma NoteFailed(c: Conn, l: Ledger, w: Waker, e: WsError)
    requires !c.flags.ended
    ensures var rep := NO_REPLY.(read := Err(e));
            && FlagsAfter(c.flags, PollNext(w), rep) == c.flags.(ended := !Blocked(rep.read))
            && Note(l, PollNext(w), OutcomeOf(c.flags, PollNext(w), rep))
               == l.(open := l.open && !e.ResetWithoutClosing?)
  {
  }

  /** What poll_next makes of a read that keeps what reads keep. */
  lemma NextFromRead(c: Conn, l: Ledger, w: Waker, s: Sock, r: Ran<Message>)
    requires Linked(c, l) && !c.flags.ended && s == WithContext(c.sock, PollNext(w))
    requires ReadKeeps(s, r, EncodeAll(l.delivered))
    ensures var rep := NO_REPLY.(read := r.res);
            Linked(Conn(FlagsAfter(c.flags, PollNext(w), rep), r.sock),
                   Note(l, PollNext(w), OutcomeOf(c.flags, PollNext(w), rep)))
  {
    match r.res
    case Ok(m) =>
      DeliveredIsLinked(c, l, w, s, r);
      assert FlagsAfter(c.flags, PollNext(w), NO_REPLY.(read := r.res)) == c.flags;
    case Err(e) =>
      FailedIsLinked(c, l, w, s, r);
      NoteFailed(c, l, w, e);
  }

  lemma NextKeepsLinked(c: Conn, l: Ledger, w: Waker)
    requires Linked(c, l)
    ensures var (c', o) := Step(c, PollNext(w)); Linked(c', Note(l, PollNext(w), o))
  {
    if !c.flags.ended {
      var s := WithContext(c.sock, PollNext(w));
      ReadFacts(s, EncodeAll(l.delivered));
      NextFromRead(c, l, w, s, Read(s));
    }
  }

  /** The connection after `call`, from the socket `s'` and result its operation left. */
  function Left(c: Conn, call: Call, r: Ran<()>): Conn {
    Conn(FlagsAfter(c.flags, call, NO_REPLY.(unit := r.res)), r.sock)
  }

  function Said(c: Conn, call: Call, r: Ran<()>): Outcome {
    OutcomeOf(c.flags, call, NO_REPLY.(unit := r.res))
  }

  lemma SendStepIs(c: Conn, m: Message)
    ensures var r := Write(c.sock, m); Step(c, StartSend(m)) == (Left(c, StartSend(m), r), Said(c, StartSend(m), r))
  {
  }

  /** The operation poll_close runs. */
  function CloseRun(c: Conn, w: Waker): Ran<()> {
    var s := WithContext(c.sock, PollClose(w));
    if c.flags.closing then Flush(s) else DoClose(s, CLOSE_NONE)
  }

  lemma CloseStepIs(c: Conn, w: Waker)
    ensures Step(c, PollClose(w)) == (Left(c, PollClose(w), CloseRun(c, w)), Said(c, PollClose(w), CloseRun(c, w)))
  {
  }

  predicate CloseRunKeeps(c: Conn, w: Waker, r: Ran<()>) {
    var s := WithContext(c.sock, PollClose(w));
    if c.flags.closing then FlushKeeps(s, r) else CloseKeeps(s, CLOSE_NONE, r)
  }

  lemma CloseRunFacts(c: Conn, w: Waker)
    ensures CloseRunKeeps(c, w, CloseRun(c, w))
  {
    var s := WithContext(c.sock, PollClose(w));
    FlushFacts(s);
    CloseFacts(s, CLOSE_NONE);
  }

  lemma SendFromWrite(c: Conn, l: Ledger, m: Message, r: Ran<()>)
    requires Linked(c, l) && WriteKeeps(c.sock, m, r)
    ensures Linked(Left(c, StartSend(m), r), Note(l, StartSend(m), Said(c, StartSend(m), r)))
  {
    assert l.open <==> Queued(Said(c, StartSend(m), r).sent);
    assert l.user + [] == l.user;
  }

  lemma SendKeepsLinked(c: Conn, l: Ledger, m: Message)
    requires Linked(c, l)
    ensures var (c', o) := Step(c, StartSend(m)); Linked(c', Note(l, StartSend(m), o))
  {
    WriteFacts(c.sock, m);
    SendStepIs(c, m);
    SendFromWrite(c, l, m, Write(c.sock, m));
  }

  lemma FlushKeepsLinked(c: Conn, l: Ledger, call: Call)
    requires Linked(c, l) && (call.PollReady? || call.PollFlush?)
    ensures var (c', o) := Step(c, call); Linked(c', Note(l, call, o))
  {
    FlushFacts(WithContext(c.sock, call));
  }

  lemma CloseFromRun(c: Conn, l: Ledger, w: Waker, r: Ran<()>)
    requires Linked(c, l) && CloseRunKeeps(c, w, r)
    ensures Linked(Left(c, PollClose(w), r), Note(l, PollClose(w), Said(c, PollClose(w), r)))
  {
    assert l.user + [] == l.user;
  }

  lemma CloseKeepsLinked(c: Conn, l: Ledger, w: Waker)
    requires Linked(c, l)
    ensures var (c', o) := Step(c, PollClose(w)); Linked(c', Note(l, PollClose(w), o))
  {
    CloseRunFacts(c, w);
    CloseStepIs(c, w);
    CloseFromRun(c, l, w, CloseRun(c, w));
  }

  lemma {:induction false} RunLinked(cfg: Config, t: seq<Input>)
    ensures Linked(After(cfg, t), LedgerOf(cfg, t))
  {
    if t != [] {
      var p := t[..|t| - 1];
      RunLinked(cfg, p);
      var c, l, call := Install(After(cfg, p), t[|t| - 1].answers), LedgerOf(cfg, p), t[|t| - 1].call;
      assert Linked(c, l);
      match call
      case PollNext(w) => NextKeepsLinked(c, l, w);
      case StartSend(m) => SendKeepsLinked(c, l, m);
      case PollClose(w) => CloseKeepsLinked(c, l, w);
      case _ => FlushKeepsLinked(c, l, call);
    }
  }

  // ----- what the socket has recorded

  /** The socket's record of the last call. */
  function Record(cfg: Config, t: seq<Input>): seq<Exchange> {
    After(cfg, t).sock.std.net.record
  }

  /** All bytes the socket has delivered in a run. */
  function Arrived(cfg: Config, t: seq<Input>): seq<byte> {
    if t == [] then [] else Arrived(cfg, t[..|t| - 1]) + Heard(Record(cfg, t))
  }

  /** Everything received: what the stream was created with, then what the socket delivered. */
  function Received(cfg: Config, t: seq<Input>): seq<byte> {
    cfg.part + Arrived(cfg, t)
  }

  lemma AllNew(a: Net, b: Net)
    requires a.record == []
    ensures New(a, b) == b.record
  {
  }

  lemma PerformTraced(s: Sock, op: InnerOp, done: seq<byte>)
    requires s.std.net.got == done + s.inbuf
    ensures var s' := Perform(s, op).0;
            Traced(s.std.net, s'.std.net) && s'.server == s.server && s'.threshold == s.threshold
  {
    match op
    case ReadOp => ReadRecord(s); ReadFacts(s, done);
    case WriteOp(m) => WriteRecord(s, m); WriteFacts(s, m);
    case FlushOp => FlushRecord(s); FlushFacts(s);
    case CloseOp => CloseRecord(s, CLOSE_NONE); CloseFacts(s, CLOSE_NONE);
  }

  lemma StepTraced(c: Conn, call: Call, done: seq<byte>)
    requires c.sock.std.net.got == done + c.sock.inbuf && c.sock.std.net.record == []
    ensures var a, b := c.sock, Step(c, call).0.sock;
            && b.server == a.server && b.threshold == a.threshold
            && OpsOnly([], b.std.net.record)
            && b.std.net.got == a.std.net.got + Heard(b.std.net.record)
            && b.std.net.held == Kept(a.std.net.held, b.std.net.record)
  {
    if OpFor(c.flags, call).Some? {
      PerformTraced(WithContext(c.sock, call), OpFor(c.flags, call).value, done);
      AllNew(c.sock.std.net, Step(c, call).0.sock.std.net);
    }
  }

  lemma {:induction false} KeptIsOwn(held: PerDir<Option<Dir>>, es: seq<Exchange>, d: Dir)
    requires OpsOnly([], es) && (held.Get(d) == None || held.Get(d) == Some(d))
    ensures Kept(held, es).Get(d) == None || Kept(held, es).Get(d) == Some(d)
  {
    if es != [] {
      KeptIsOwn(held, es[..|es| - 1], d);
    }
  }

  /**
   The bytes of a connection are those it was created with and those its socket delivered; its role and
   threshold are the configured ones; and the socket remembers, per direction, its own proxy or none.
   */
  lemma {:induction false} RunReceives(cfg: Config, t: seq<Input>)
    ensures var s := After(cfg, t).sock;
            && s.std.net.got == Received(cfg, t)
            && s.server == cfg.server && s.threshold == cfg.threshold
            && forall d: Dir :: s.std.net.held.Get(d) == None || s.std.net.held.Get(d) == Some(d)
  {
    if t == [] {
      assert cfg.part + [] == cfg.part;
    } else {
      var p := t[..|t| - 1];
      RunReceives(cfg, p);
      RunLinked(cfg, p);
      var c := Install(After(cfg, p), t[|t| - 1].answers);
      StepTraced(c, t[|t| - 1].call, EncodeAll(LedgerOf(cfg, p).delivered));
      Assoc(cfg.part, Arrived(cfg, p), Heard(Record(cfg, t)));
      forall d: Dir
        ensures After(cfg, t).sock.std.net.held.Get(d) == None || After(cfg, t).sock.std.net.held.Get(d) == Some(d)
      {
        KeptIsOwn(c.sock.std.net.held, Record(cfg, t), d);
      }
    }
  }

  /** No call takes back, or reorders, what has been accepted. */
  lemma StepAccepts(c: Conn, l: Ledger, call: Call)
    requires Linked(c, l)
    ensures c.sock.accepted <= Step(c, call).0.sock.accepted
  {
    var s := WithContext(c.sock, call);
    match OpFor(c.flags, call)
    case None =>
    case Some(ReadOp) => ReadFacts(s, EncodeAll(l.delivered));
    case Some(WriteOp(m)) => WriteFacts(s, m);
    case Some(FlushOp) => FlushFacts(s);
    case Some(CloseOp) => CloseFacts(s, CLOSE_NONE);
  }

  lemma {:induction false} AcceptedOnlyGrows(cfg: Config, t: seq<Input>, n: nat)
    requires n <= |t|
    ensures After(cfg, t[..n]).sock.accepted <= After(cfg, t).sock.accepted
  {
    if n == |t| {
      assert t[..n] == t;
    } else {
      var p := t[..|t| - 1];
      AcceptedOnlyGrows(cfg, p, n);
      assert p[..n] == t[..n];
      RunLinked(cfg, p);
      StepAccepts(Install(After(cfg, p), t[|t| - 1].answers), LedgerOf(cfg, p), t[|t| - 1].call);
    }
  }

  // ----- main results

  /**
   Exact sending: after any run, the bytes the socket took followed by the bytes still buffered are
   the frames accepted so far. Those sent for the user are the messages start_send queued and the
   close frame of poll_close; the automatic ones, with at most one not yet buffered, answer the pings
   and the close frame delivered while open: all in order, none lost or repeated. Acceptance is final:
   what was accepted at any earlier point of the run is still there, in front and in the same order.
   */
  lemma ExactSending(cfg: Config, t: seq<Input>)
    ensures var s, l := After(cfg, t).sock, LedgerOf(cfg, t);
            && s.std.net.sent + s.out == EncodeAll(Messages(s.accepted))
            && Users(s.accepted) == l.user
            && Autos(s.accepted) + (if s.reply.Some? then [s.reply.value] else []) == l.owed
    ensures forall n :: 0 <= n <= |t| ==> After(cfg, t[..n]).sock.accepted <= After(cfg, t).sock.accepted
  {
    RunLinked(cfg, t);
    forall n | 0 <= n <= |t|
      ensures After(cfg, t[..n]).sock.accepted <= After(cfg, t).sock.accepted
    {
      AcceptedOnlyGrows(cfg, t, n);
    }
  }

  lemma FlushedMeansEmpty(c: Conn, w: Waker)
    requires Step(c, PollFlush(w)).1 == Unit(Ready(Ok(())))
    ensures Step(c, PollFlush(w)).0.sock.out == [] && Step(c, PollFlush(w)).0.sock.reply == None
  {
    FlushFacts(WithContext(c.sock, PollFlush(w)));
  }

  /** A flush reported as done has handed everything accepted, and every reply owed, to the socket. */
  lemma FlushedMeansSent(cfg: Config, t: seq<Input>)
    requires t != [] && t[|t| - 1].call.PollFlush? && LastOutcome(cfg, t) == Unit(Ready(Ok(())))
    ensures var s := After(cfg, t).sock;
            s.std.net.sent == EncodeAll(Messages(s.accepted)) && Autos(s.accepted) == LedgerOf(cfg, t).owed
  {
    RunLinked(cfg, t);
    var i := t[|t| - 1];
    FlushedMeansEmpty(Install(After(cfg, t[..|t| - 1]), i.answers), i.call.waker);
    assert After(cfg, t).sock.out == [];
  }

  lemma PendingLeavesNoFrame(c: Conn, w: Waker, done: seq<byte>)
    requires c.sock.std.net.got == done + c.sock.inbuf && Step(c, PollNext(w)).1 == Next(Pending)
    ensures !Parse(Step(c, PollNext(w)).0.sock.inbuf).Frame?
  {
    ReadFacts(WithContext(c.sock, PollNext(w)), done);
  }

  /**
   Cancel-safe reading: however poll_next calls are scheduled, dropped and resumed, what they have
   delivered is a prefix of what an uninterrupted reader gets from the bytes received so far and any
   bytes to come, and a Pending has delivered all of what is complete.
   */
  lemma CancelSafeReading(cfg: Config, t: seq<Input>, rest: seq<byte>)
    ensures LedgerOf(cfg, t).delivered <= DecodeAll(Received(cfg, t) + rest)
    ensures t != [] && LastOutcome(cfg, t) == Next(Pending) ==>
              LedgerOf(cfg, t).delivered == DecodeAll(Received(cfg, t))
  {
    RunLinked(cfg, t);
    RunReceives(cfg, t);
    DeliveredIsPrefix(LedgerOf(cfg, t).delivered, After(cfg, t).sock.inbuf, rest);
    if t != [] && LastOutcome(cfg, t) == Next(Pending) {
      LastPending(cfg, t);
    }
  }

  lemma LastPending(cfg: Config, t: seq<Input>)
    requires t != [] && LastOutcome(cfg, t) == Next(Pending)
    ensures !Parse(After(cfg, t).sock.inbuf).Frame?
  {
    var p, i := t[..|t| - 1], t[|t| - 1];
    RunLinked(cfg, p);
    PendingLeavesNoFrame(Install(After(cfg, p), i.answers), i.call.waker, EncodeAll(LedgerOf(cfg, p).delivered));
  }

  lemma LinkedPeers(c: Conn, l: Ledger, d: Conn, k: Ledger)
    requires Linked(c, l) && Linked(d, k) && d.sock.std.net.got <= c.sock.std.net.sent
    ensures k.delivered <= Messages(c.sock.accepted)
  {
    var got, sent := d.sock.std.net.got, c.sock.std.net.sent;
    var rest := sent[|got|..] + c.sock.out;
    assert got + rest == sent + c.sock.out;
    ReceivedIsPrefix(k.delivered, d.sock.inbuf, rest, Messages(c.sock.accepted));
  }

  /**
   End to end: a peer that has received a prefix of the bytes we sent has been given a prefix of the
   messages we accepted, whatever either side's schedule.
   */
  lemma EndToEnd(here: Config, t: seq<Input>, there: Config, u: seq<Input>)
    requires Received(there, u) <= After(here, t).sock.std.net.sent
    ensures LedgerOf(there, u).delivered <= Messages(After(here, t).sock.accepted)
  {
    RunLinked(here, t);
    RunLinked(there, u);
    RunReceives(there, u);
    LinkedPeers(After(here, t), LedgerOf(here, t), After(there, u), LedgerOf(there, u));
  }

  /**
   Nothing is lost end to end: once a flush here was reported done, and the peer has received all that
   was sent and polls until Pending, it has been given every message accepted here.
   */
  lemma EndToEndComplete(here: Config, t: seq<Input>, there: Config, u: seq<Input>)
    requires t != [] && t[|t| - 1].call.PollFlush? && LastOutcome(here, t) == Unit(Ready(Ok(())))
    requires u != [] && LastOutcome(there, u) == Next(Pending)
    requires Received(there, u) == After(here, t).sock.std.net.sent
    ensures LedgerOf(there, u).delivered == Messages(After(here, t).sock.accepted)
  {
    FlushedMeansSent(here, t);
    CancelSafeReading(there, u, []);
    DecodesBack(Messages(After(here, t).sock.accepted));
  }
}
