/** A caller that keeps to the Sink protocol cannot make its own share of the outgoing buffer grow without bound. */
module Backpressure {
  import opened Basics
  import opened Framing
  import opened Compat
  import opened InnerSocket
  import opened SocketFacts
  import opened AsyncStream
  import opened StreamRuns

  /** The sink has reported an error. */
  predicate SinkFailed(o: Outcome) {
    (o.Unit? && o.unit.Ready? && o.unit.value.Err?) || (o.Sent? && o.sent.Err?)
  }

  /** The sink has not reported an error. */
  predicate Usable(cfg: Config, t: seq<Input>) {
    t == [] || (Usable(cfg, t[..|t| - 1]) && !SinkFailed(LastOutcome(cfg, t)))
  }

  /** Since the last start_send, poll_ready has answered Ok. */
  predicate ReadyGranted(cfg: Config, t: seq<Input>) {
    && t != [] && !t[|t| - 1].call.StartSend?
    && ((t[|t| - 1].call.PollReady? && LastOutcome(cfg, t) == Unit(Ready(Ok(())))) || ReadyGranted(cfg, t[..|t| - 1]))
  }

  /** The Sink protocol: every start_send follows a poll_ready that answered Ok, on a sink that has not failed. */
  predicate Conforming(cfg: Config, t: seq<Input>) {
    t == [] || (Conforming(cfg, t[..|t| - 1])
                && (t[|t| - 1].call.StartSend? ==> Usable(cfg, t[..|t| - 1]) && ReadyGranted(cfg, t[..|t| - 1])))
  }

  predicate MessagesUpTo(t: seq<Input>, size: nat) {
    forall i :: 0 <= i < |t| && t[i].call.StartSend? ==> |Encode(t[i].call.message)| <= size
  }

  predicate CloseBegun(t: seq<Input>) {
    exists i :: 0 <= i < |t| && t[i].call.PollClose?
  }

  lemma {:induction false} SizeSplits(es: seq<Entry>)
    ensures Size(Messages(es)) == Size(Users(es)) + Size(Autos(es))
  {
    if es != [] {
      var p, e := es[..|es| - 1], es[|es| - 1];
      SizeSplits(p);
      EncodeAllPush(Messages(p), e.message);
      EncodeAllPush(Users(p), e.message);
      EncodeAllPush(Autos(p), e.message);
      assert Users(p) + [] == Users(p) && Autos(p) + [] == Autos(p);
    }
  }

  /** The bound, and the stronger one that holds whenever the sink says it is ready and is not closing. */
  predicate Within(c: Conn, threshold: nat, size: nat, closed: bool, usable: bool) {
    && Exact(c.sock) && c.sock.threshold == threshold
    && UserBuffered(c.sock) <= threshold + size + (if closed then |Encode(CLOSE_NONE)| else 0)
    && (closed ==> !c.sock.status.Active?)
    && (usable && !closed && c.flags.ready ==> UserBuffered(c.sock) <= threshold)
  }

  lemma SendWithin(c: Conn, m: Message, r: Ran<()>, thr: nat, size: nat, closed: bool)
    requires Within(c, thr, size, closed, true) && c.flags.ready && |Encode(m)| <= size
    requires WriteKeeps(c.sock, m, r)
    ensures Within(Left(c, StartSend(m), r), thr, size, closed, !SinkFailed(Said(c, StartSend(m), r)))
  {
    EncodeAllPush([], m);
    assert [] + [m] == [m];
    TailShrinks(r.sock.accepted, |r.sock.out|, |r.sock.out|, true);
  }

  lemma FlushWithin(c: Conn, call: Call, s: Sock, r: Ran<()>, thr: nat, size: nat, closed: bool, usable: bool)
    requires Within(c, thr, size, closed, usable) && s == WithContext(c.sock, call) && FlushKeeps(s, r)
    requires call.PollReady? || call.PollFlush?
    ensures Within(Left(c, call, r), thr, size, closed, usable && !SinkFailed(Said(c, call, r)))
  {
    TailShrinks(r.sock.accepted, |r.sock.out|, |r.sock.out|, true);
  }

  lemma CloseWithin(c: Conn, w: Waker, s: Sock, r: Ran<()>, thr: nat, size: nat,
                    closed: bool, usable: bool, still: bool)
    requires Within(c, thr, size, closed, usable) && s == WithContext(c.sock, PollClose(w))
    requires if c.flags.closing then FlushKeeps(s, r) && !c.sock.status.Active? else CloseKeeps(s, CLOSE_NONE, r)
    ensures Within(Left(c, PollClose(w), r), thr, size, true, still)
  {
    EncodeAllPush([], CLOSE_NONE);
    assert [] + [CLOSE_NONE] == [CLOSE_NONE];
  }

  lemma ReadWithin(c: Conn, s: Sock, r: Ran<Message>, done: seq<byte>, flags: Flags, thr: nat, size: nat,
                   closed: bool, usable: bool)
    requires Within(c, thr, size, closed, usable) && s == c.sock.(std := s.std) && s.std.net == c.sock.std.net
    requires ReadKeeps(s, r, done) && flags.ready == c.flags.ready
    ensures Within(Conn(flags, r.sock), thr, size, closed, usable)
  {
  }

  /** A granted readiness lasts until the next start_send. */
  lemma {:induction false} GrantedMeansReady(cfg: Config, t: seq<Input>)
    requires ReadyGranted(cfg, t)
    ensures After(cfg, t).flags.ready
  {
    if ReadyGranted(cfg, t[..|t| - 1]) {
      GrantedMeansReady(cfg, t[..|t| - 1]);
    }
    ReadyOnlyLostBySend(Install(After(cfg, t[..|t| - 1]), t[|t| - 1].answers), t[|t| - 1].call);
  }

  lemma ReadyOnlyLostBySend(c: Conn, call: Call)
    requires !call.StartSend?
    ensures c.flags.ready || (call.PollReady? && Step(c, call).1 == Unit(Ready(Ok(())))) ==> Step(c, call).0.flags.ready
  {
  }

  lemma NextStep(c: Conn, w: Waker, done: seq<byte>, thr: nat, size: nat, closed: bool, usable: bool)
    requires Within(c, thr, size, closed, usable) && c.sock.std.net.got == done + c.sock.inbuf
    ensures Within(Step(c, PollNext(w)).0, thr, size, closed, usable)
  {
    if !c.flags.ended {
      var s := WithContext(c.sock, PollNext(w));
      ReadFacts(s, done);
      ReadWithin(c, s, Read(s), done, Step(c, PollNext(w)).0.flags, thr, size, closed, usable);
    }
  }

  lemma CloseStep(c: Conn, w: Waker, thr: nat, size: nat, closed: bool, usable: bool, still: bool)
    requires Within(c, thr, size, closed, usable) && (c.flags.closing ==> !c.sock.status.Active?)
    ensures Within(Step(c, PollClose(w)).0, thr, size, true, still)
  {
    CloseRunFacts(c, w);
    CloseStepIs(c, w);
    CloseWithin(c, w, WithContext(c.sock, PollClose(w)), CloseRun(c, w), thr, size, closed, usable, still);
  }

  lemma FlushStep(c: Conn, call: Call, thr: nat, size: nat, closed: bool, usable: bool)
    requires Within(c, thr, size, closed, usable) && (call.PollReady? || call.PollFlush?)
    ensures var (c', o) := Step(c, call); Within(c', thr, size, closed, usable && !SinkFailed(o))
  {
    if OpFor(c.flags, call).Some? {
      var s := WithContext(c.sock, call);
      FlushFacts(s);
      FlushWithin(c, call, s, Flush(s), thr, size, closed, usable);
      assert Step(c, call) == (Left(c, call, Flush(s)), Said(c, call, Flush(s)));
    }
  }

  lemma StepWithin(c: Conn, l: Ledger, call: Call, thr: nat, size: nat, closed: bool, usable: bool)
    requires Within(c, thr, size, closed, usable) && Linked(c, l)
    requires call.StartSend? ==> usable && c.flags.ready && |Encode(call.message)| <= size
    ensures var (c', o) := Step(c, call);
            Within(c', thr, size, closed || call.PollClose?, usable && !SinkFailed(o))
  {
    match call
    case PollNext(w) => NextStep(c, w, EncodeAll(l.delivered), thr, size, closed, usable);
    case StartSend(m) =>
      WriteFacts(c.sock, m);
      SendStepIs(c, m);
      SendWithin(c, m, Write(c.sock, m), thr, size, closed);
    case PollClose(w) => CloseStep(c, w, thr, size, closed, usable, usable && !SinkFailed(Step(c, call).1));
    case _ => FlushStep(c, call, thr, size, closed, usable);
  }

  lemma CloseBegunStep(t: seq<Input>)
    requires t != []
    ensures CloseBegun(t) <==> CloseBegun(t[..|t| - 1]) || t[|t| - 1].call.PollClose?
  {
    var p := t[..|t| - 1];
    if k :| 0 <= k < |p| && p[k].call.PollClose? {
      assert t[k].call.PollClose?;
    }
  }

  lemma {:induction false} RunWithin(cfg: Config, t: seq<Input>, size: nat)
    requires Conforming(cfg, t) && MessagesUpTo(t, size)
    ensures Within(After(cfg, t), cfg.threshold, size, CloseBegun(t), Usable(cfg, t))
  {
    if t != [] {
      var p, i := t[..|t| - 1], t[|t| - 1];
      RunWithin(cfg, p, size);
      RunLinked(cfg, p);
      if i.call.StartSend? {
        GrantedMeansReady(cfg, p);
      }
      CloseBegunStep(t);
      var c := Install(After(cfg, p), i.answers);
      assert Linked(c, LedgerOf(cfg, p));
      StepWithin(c, LedgerOf(cfg, p), i.call, cfg.threshold, size, CloseBegun(p), Usable(cfg, p));
    }
  }

  /**
   Backpressure: in every run that keeps to the Sink protocol the user's bytes in the buffer never exceed
   the write threshold plus one frame of the largest message and, once closing, one close frame. All else in
   the buffer is automatic replies not yet taken by the socket, which the peer, not the caller, causes.
   */
  lemma BufferIsBounded(cfg: Config, t: seq<Input>, size: nat)
    requires Conforming(cfg, t) && MessagesUpTo(t, size)
    ensures
      var s := After(cfg, t).sock;
      var bound := cfg.threshold + size + (if CloseBegun(t) then |Encode(CLOSE_NONE)| else 0);
      UserBuffered(s) <= bound && |s.out| == UserBuffered(s) + AutoBuffered(s) <= bound + AutoBuffered(s)
  {
    RunWithin(cfg, t, size);
    BufferSplits(After(cfg, t).sock);
  }

  lemma BufferSplits(s: Sock)
    requires Exact(s)
    ensures |s.out| == UserBuffered(s) + AutoBuffered(s)
  {
    TailSplits(s.accepted, |s.out|);
  }
}
