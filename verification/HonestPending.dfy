/**
 The link between the two halves: what a call does to the socket is exactly a poll of the waker
 protocol, and a call that answers Pending has really been blocked after registering its waker.
 */
module HonestPending {
  import opened Basics
  import opened Framing
  import opened Compat
  import opened InnerSocket
  import opened SocketFacts
  import opened SocketRecord
  import opened AsyncStream
  import opened StreamRuns
  import opened Answers
  import P = WakerProtocol

  /** What a call with a waker registers, when the socket has recorded `at` operations. */
  function Registered(call: Call, at: nat): seq<Registration> {
    match WakerOf(call)
    case None => []
    case Some((side, w)) => [Registration(side, w, at)]
  }

  /** The direction in which a call can be told Pending. */
  function WaysOf(call: Call): Dir {
    if call.PollNext? then Inbound else Outbound
  }

  lemma OpShape(c: Conn, call: Call, done: seq<byte>)
    requires c.sock.std.net.got == done + c.sock.inbuf && OpFor(c.flags, call).Some?
    ensures var (s, rep) := Perform(WithContext(c.sock, call), OpFor(c.flags, call).value);
            && OpsOnly(c.sock.std.net.record, s.std.net.record)
            && s.std.log == c.sock.std.log + Registered(call, |c.sock.std.net.record|)
            && (call.PollNext? && Blocked(rep.read) ==>
                  EndsBlocked(c.sock.std.net.record, s.std.net.record, Inbound))
            && (!call.PollNext? && Blocked(rep.unit) ==>
                  EndsBlocked(c.sock.std.net.record, s.std.net.record, Outbound))
  {
    var s := WithContext(c.sock, call);
    assert c.sock.std.log + [] == c.sock.std.log;
    match OpFor(c.flags, call).value
    case ReadOp => ReadFacts(s, done);
    case WriteOp(m) => WriteFacts(s, m);
    case FlushOp => FlushFacts(s);
    case CloseOp => CloseFacts(s, CLOSE_NONE);
  }

  lemma StepIsHonest(c: Conn, call: Call, done: seq<byte>)
    requires c.sock.std.net.got == done + c.sock.inbuf
    ensures var (c', o) := Step(c, call);
            && (OpFor(c.flags, call).None? ==> c' == c && !IsPending(o))
            && (OpFor(c.flags, call).Some? ==>
                  && OpsOnly(c.sock.std.net.record, c'.sock.std.net.record)
                  && c'.sock.std.log == c.sock.std.log + Registered(call, |c.sock.std.net.record|))
            && (IsPending(o) ==> EndsBlocked(c.sock.std.net.record, c'.sock.std.net.record, WaysOf(call)))
  {
    if OpFor(c.flags, call).Some? {
      OpShape(c, call, done);
    }
  }

  /**
   What a call did is either nothing, or to register its waker (if it came with one) in both proxies before
   the first operation, and then only operate on the socket, each time with that direction's proxy. It
   answers Pending exactly if it came with a waker and the last thing the socket told it was Pending: to a read
   for poll_next, to a write or flush for the sink.
   */
  predicate Honest(call: Call, std: Std, o: Outcome) {
    var es := std.net.record;
    && OpsOnly([], es)
    && ((std.log == [] && es == []) || std.log == Registered(call, 0))
    && (IsPending(o) ==> std.log == Registered(call, 0) && WakerOf(call).Some?)
    && (IsPending(o) <==>
          WakerOf(call).Some? && es != [] && es[|es| - 1].Waits() && es[|es| - 1].Way() == WaysOf(call))
  }

  lemma WaitsIsPending(c: Conn, call: Call, done: seq<byte>)
    requires c.sock.std.net.got == done + c.sock.inbuf && Starts(c) && WakerOf(call).Some?
    requires var es := Step(c, call).0.sock.std.net.record;
             es != [] && es[|es| - 1].Waits() && es[|es| - 1].Way() == WaysOf(call)
    ensures IsPending(Step(c, call).1)
  {
    match call
    case PollNext(w) =>
      if !c.flags.ended {
        NextAnswer(c, w);
        ReadFacts(WithContext(c.sock, call), done);
      }
    case PollReady(w) => ReadyAnswer(c, w);
    case PollFlush(w) => FlushAnswer(c, w);
    case PollClose(w) => CloseAnswered(c, w);
  }

  lemma FirstStepIsHonest(c: Conn, call: Call, done: seq<byte>)
    requires c.sock.std.net.got == done + c.sock.inbuf && Starts(c)
    ensures Honest(call, Step(c, call).0.sock.std, Step(c, call).1)
  {
    StepIsHonest(c, call, done);
    assert [] + Registered(call, 0) == Registered(call, 0);
    var es := Step(c, call).0.sock.std.net.record;
    if WakerOf(call).Some? && es != [] && es[|es| - 1].Waits() && es[|es| - 1].Way() == WaysOf(call) {
      WaitsIsPending(c, call, done);
    }
  }

  lemma {:induction false} LastIsKept(held: PerDir<Option<Dir>>, es: seq<Exchange>)
    requires es != [] && es[|es| - 1].Waits() && OpsOnly([], es)
    ensures var d := es[|es| - 1].Way(); Kept(held, es).Get(d) == Some(d)
  {
  }

  /**
   Honest Pending: in every run, the last call did what an honest call does; and if it answered Pending, the
   socket now remembers the proxy of the direction the call waits for.
   */
  lemma PendingIsHonest(cfg: Config, t: seq<Input>)
    requires t != []
    ensures Honest(t[|t| - 1].call, After(cfg, t).sock.std, LastOutcome(cfg, t))
    ensures var d := WaysOf(t[|t| - 1].call);
            IsPending(LastOutcome(cfg, t)) ==> After(cfg, t).sock.std.net.held.Get(d) == Some(d)
  {
    var p, i := t[..|t| - 1], t[|t| - 1];
    RunLinked(cfg, p);
    var c, done := Install(After(cfg, p), i.answers), EncodeAll(LedgerOf(cfg, p).delivered);
    FirstStepIsHonest(c, i.call, done);
    StepTraced(c, i.call, done);
    if IsPending(LastOutcome(cfg, t)) {
      LastIsKept(c.sock.std.net.held, Record(cfg, t));
    }
  }

  /** The waker-less start_send hides nothing: a blocked write makes the next poll_ready register and flush. */
  lemma BlockedSendMakesReadyFlush(c: Conn, m: Message, w: Waker)
    requires Blocked(Write(c.sock, m).res)
    ensures Step(c, StartSend(m)).1 == Sent(Ok(()))
    ensures OpFor(Step(c, StartSend(m)).0.flags, PollReady(w)) == Some(FlushOp)
    ensures EndsBlocked(c.sock.std.net.record, Step(c, StartSend(m)).0.sock.std.net.record, Outbound)
  {
    WriteFacts(c.sock, m);
  }

  // ----- calls as polls of the waker protocol

  function OpActions(ops: seq<Exchange>): seq<P.Action> {
    if ops == [] then [] else [P.SocketOp(ops[0].Way(), ops[0].Waits())] + OpActions(ops[1..])
  }

  /** What a call does in terms of the waker protocol; the socket of `c` has an empty record. */
  function CallActions(c: Conn, call: Call): seq<P.Action> {
    var (c', o) := Step(c, call);
    if OpFor(c.flags, call).None? then []
    else
      var begin := match WakerOf(call)
                   case None => [P.BeginSend]
                   case Some((side, w)) => [P.BeginPoll(side, w), P.Register, P.Register];
      begin + OpActions(c'.sock.std.net.record) + [P.EndPoll(IsPending(o))]
  }

  function RunActions(cfg: Config, t: seq<Input>): seq<P.Action> {
    if t == [] then []
    else
      var p := t[..|t| - 1];
      RunActions(cfg, p) + CallActions(Install(After(cfg, p), t[|t| - 1].answers), t[|t| - 1].call)
  }

  /** Operations keep the poll going; it waits for the direction of each blocked one, and the proxies are kept. */
  lemma {:induction false} OpsAreAccepted(s: P.State, ops: seq<Exchange>)
    requires s.running.Polling? || s.running.Sending?
    ensures P.ValidFrom(s, OpActions(ops))
    ensures var s' := P.RunFrom(s, OpActions(ops));
            && s'.running == s.running && s'.slots == s.slots
            && (s.running.Polling? ==>
                  && s.tasks.Get(s.running.side).waiting <= s'.tasks.Get(s.running.side).waiting
                  && forall e :: e in ops && e.Waits() ==> e.Way() in s'.tasks.Get(s.running.side).waiting)
    decreases |ops|
  {
    if ops != [] {
      var s1 := P.AfterOp(s, ops[0].Way(), ops[0].Waits());
      assert OpActions(ops)[1..] == OpActions(ops[1..]);
      assert s.running.Polling? && ops[0].Waits() ==> ops[0].Way() in s1.tasks.Get(s.running.side).waiting;
      OpsAreAccepted(s1, ops[1..]);
      assert forall e :: e in ops ==> e == ops[0] || e in ops[1..];
    }
  }

  lemma PollBegins(s: P.State, side: Side, w: Waker)
    requires s.running.Idle?
    ensures var t := [P.BeginPoll(side, w), P.Register, P.Register];
            && P.ValidFrom(s, t)
            && P.RunFrom(s, t).running == P.Polling(side)
            && P.RunFrom(s, t).slots == SetBoth(s.slots, side, w)
            && P.RunFrom(s, t).held == s.held
  {
    var t0, t1, t2 := [P.BeginPoll(side, w)], [P.Register], [P.Register];
    P.RunOne(s, t0[0]);
    var s1 := P.RunFrom(s, t0);
    P.RunOne(s1, P.Register);
    P.RunOne(P.RunFrom(s1, t1), P.Register);
    P.RunConcat(s, t0, t1);
    P.RunConcat(s, t0 + t1, t2);
    assert t0 + t1 + t2 == [P.BeginPoll(side, w), P.Register, P.Register];
  }

  /**
   Every call is a poll of the protocol: from any idle state the protocol accepts what a call of the
   wrapper does, including its claim to be Pending, and the slots end up as the call's class method leaves them.
   */
  lemma CallFollowsProtocol(c: Conn, call: Call, done: seq<byte>, s: P.State)
    requires c.sock.std.net.got == done + c.sock.inbuf && c.sock.std.log == [] && s.running.Idle?
    ensures P.ValidFrom(s, CallActions(c, call))
    ensures var s' := P.RunFrom(s, CallActions(c, call));
            && s'.running.Idle?
            && s'.slots == (if OpFor(c.flags, call).Some? && WakerOf(call).Some?
                            then SetBoth(s.slots, WakerOf(call).value.0, WakerOf(call).value.1) else s.slots)
            && (IsPending(Step(c, call).1) ==>
                  && s'.tasks.Get(WakerOf(call).value.0).pending
                  && WaysOf(call) in s'.tasks.Get(WakerOf(call).value.0).waiting)
  {
    StepIsHonest(c, call, done);
    var (c', o) := Step(c, call);
    if OpFor(c.flags, call).Some? {
      var begin, mid, end := match WakerOf(call)
                             case None => [P.BeginSend]
                             case Some((side, w)) => [P.BeginPoll(side, w), P.Register, P.Register],
                             OpActions(c'.sock.std.net.record), [P.EndPoll(IsPending(o))];
      if WakerOf(call).Some? {
        PollBegins(s, WakerOf(call).value.0, WakerOf(call).value.1);
      } else {
        assert begin[1..] == [];
      }
      PollEnds(s, begin, c'.sock.std.net.record, IsPending(o));
    }
  }

  lemma PollEnds(s: P.State, begin: seq<P.Action>, ops: seq<Exchange>, pending: bool)
    requires P.ValidFrom(s, begin)
    requires var r := P.RunFrom(s, begin).running; r.Polling? || (r.Sending? && !pending)
    requires pending ==> ops != [] && ops[|ops| - 1].Waits()
    ensures P.ValidFrom(s, begin + OpActions(ops) + [P.EndPoll(pending)])
    ensures var s1, s' := P.RunFrom(s, begin), P.RunFrom(s, begin + OpActions(ops) + [P.EndPoll(pending)]);
            && s'.running.Idle? && s'.slots == s1.slots
            && P.ValidFrom(s1, OpActions(ops)) && s'.held == P.RunFrom(s1, OpActions(ops)).held
            && (pending ==>
                  && s'.tasks.Get(s1.running.side).pending
                  && ops[|ops| - 1].Way() in s'.tasks.Get(s1.running.side).waiting)
  {
    var mid, end := OpActions(ops), [P.EndPoll(pending)];
    var s1 := P.RunFrom(s, begin);
    OpsAreAccepted(s1, ops);
    P.RunConcat(s, begin, mid);
    var s2 := P.RunFrom(s1, mid);
    assert pending ==> ops[|ops| - 1] in ops;
    assert P.ValidFrom(s2, end);
    P.RunConcat(s, begin + mid, end);
  }

  /** From any idle state, all calls of a run, one after the other, are polls the waker protocol accepts. */
  lemma {:induction false} RunFollowsProtocol(cfg: Config, t: seq<Input>, s: P.State)
    requires s.running.Idle?
    ensures P.ValidFrom(s, RunActions(cfg, t)) && P.RunFrom(s, RunActions(cfg, t)).running.Idle?
    ensures t != [] && IsPending(LastOutcome(cfg, t)) ==>
              WaysOf(t[|t| - 1].call)
              in P.RunFrom(s, RunActions(cfg, t)).tasks.Get(WakerOf(t[|t| - 1].call).value.0).waiting
  {
    if t != [] {
      var p, i := t[..|t| - 1], t[|t| - 1];
      RunFollowsProtocol(cfg, p, s);
      RunLinked(cfg, p);
      var c, s1 := Install(After(cfg, p), i.answers), P.RunFrom(s, RunActions(cfg, p));
      CallFollowsProtocol(c, i.call, EncodeAll(LedgerOf(cfg, p).delivered), s1);
      P.RunConcat(s, RunActions(cfg, p), CallActions(c, i.call));
    }
  }

  // ----- the proxies the socket remembers are those of the protocol

  /** The proxies remembered in `over`, and where there is none, those of `under`. */
  function Overlay(under: PerDir<Option<Dir>>, over: PerDir<Option<Dir>>): PerDir<Option<Dir>> {
    PerDir(if over.inbound.Some? then over.inbound else under.inbound,
           if over.outbound.Some? then over.outbound else under.outbound)
  }

  lemma {:induction false} OpsAreHeld(s: P.State, ops: seq<Exchange>,
                                      under: PerDir<Option<Dir>>, over: PerDir<Option<Dir>>)
    requires (s.running.Polling? || s.running.Sending?) && OpsOnly([], ops) && s.held == Overlay(under, over)
    ensures P.ValidFrom(s, OpActions(ops))
    ensures P.RunFrom(s, OpActions(ops)).held == Overlay(under, Kept(over, ops))
    decreases |ops|
  {
    OpsAreAccepted(s, ops);
    if ops != [] {
      var s1, rest := P.AfterOp(s, ops[0].Way(), ops[0].Waits()), ops[1..];
      assert OpActions(ops)[1..] == OpActions(rest);
      var over1 := if ops[0].Waits() then over.Put(ops[0].Way(), Some(ops[0].Way())) else over;
      OpsAreHeld(s1, rest, under, over1);
      KeptConcat(over, [ops[0]], rest);
      assert [ops[0]] + rest == ops;
      assert [ops[0]][..0] == [];
      assert Kept(over, [ops[0]]) == over1;
    }
  }

  lemma CallIsHeld(c: Conn, call: Call, done: seq<byte>, s: P.State, under: PerDir<Option<Dir>>)
    requires c.sock.std.net.got == done + c.sock.inbuf && Starts(c) && s.running.Idle?
    requires s.held == Overlay(under, c.sock.std.net.held)
    ensures P.ValidFrom(s, CallActions(c, call))
    ensures P.RunFrom(s, CallActions(c, call)).held == Overlay(under, Step(c, call).0.sock.std.net.held)
  {
    CallFollowsProtocol(c, call, done, s);
    StepIsHonest(c, call, done);
    StepTraced(c, call, done);
    var (c', o) := Step(c, call);
    if OpFor(c.flags, call).Some? {
      var begin := match WakerOf(call)
                   case None => [P.BeginSend]
                   case Some((side, w)) => [P.BeginPoll(side, w), P.Register, P.Register];
      if WakerOf(call).Some? {
        PollBegins(s, WakerOf(call).value.0, WakerOf(call).value.1);
      } else {
        P.RunOne(s, P.BeginSend);
      }
      OpsAreHeld(P.RunFrom(s, begin), c'.sock.std.net.record, under, c.sock.std.net.held);
      PollEnds(s, begin, c'.sock.std.net.record, IsPending(o));
    }
  }

  lemma {:induction false} RunIsHeld(cfg: Config, t: seq<Input>, s: P.State)
    requires s.running.Idle?
    ensures P.ValidFrom(s, RunActions(cfg, t))
    ensures P.RunFrom(s, RunActions(cfg, t)).held == Overlay(s.held, After(cfg, t).sock.std.net.held)
  {
    RunFollowsProtocol(cfg, t, s);
    if t != [] {
      var p, i := t[..|t| - 1], t[|t| - 1];
      RunIsHeld(cfg, p, s);
      RunFollowsProtocol(cfg, p, s);
      RunLinked(cfg, p);
      var c, s1 := Install(After(cfg, p), i.answers), P.RunFrom(s, RunActions(cfg, p));
      var done := EncodeAll(LedgerOf(cfg, p).delivered);
      CallIsHeld(c, i.call, done, s1, s.held);
      CallFollowsProtocol(c, i.call, done, s1);
      P.RunConcat(s, RunActions(cfg, p), CallActions(c, i.call));
    }
  }

  /**
   The proxies the real socket has been handed are those of the protocol: after a handshake `h` and a run of
   calls, interleaved with events and wakes, the protocol's socket remembers in each direction what the run's
   socket was last told to remember there, or, if it was told nothing, what the handshake left; or an event has
   taken it since. So each direction only ever holds its own proxy.
   */
  lemma SocketHoldsProxies(w: Waker, h: seq<P.Action>, cfg: Config, t: seq<Input>, u: seq<P.Action>, d: Dir)
    requires P.ValidFrom(P.Init(w), h) && P.RunFrom(P.Init(w), h).running.Idle?
    requires P.TaskPart(u) == h + RunActions(cfg, t) && P.WakesStarted(P.Init(w), u)
    ensures P.ValidFrom(P.Init(w), u)
    ensures var now, told := P.RunFrom(P.Init(w), u).held.Get(d), After(cfg, t).sock.std.net.held.Get(d);
            && (told == None || told == Some(d))
            && (now == None || now == if told.Some? then told else P.RunFrom(P.Init(w), h).held.Get(d))
  {
    var s0 := P.Init(w);
    RunIsHeld(cfg, t, P.RunFrom(s0, h));
    RunReceives(cfg, t);
    P.RunConcat(s0, h, RunActions(cfg, t));
    P.AnyInterleaving(s0, s0, u);
  }

  lemma {:induction false} OpsBeginNoPoll(ops: seq<Exchange>)
    ensures forall a :: a in OpActions(ops) ==> a.SocketOp?
  {
    if ops != [] {
      OpsBeginNoPoll(ops[1..]);
    }
  }

  /** Call `j` of a run is one of `side`'s that gets as far as the inner socket. */
  predicate Reaches(cfg: Config, t: seq<Input>, j: nat, side: Side)
    requires j < |t|
  {
    && OpFor(After(cfg, t[..j]).flags, t[j].call).Some?
    && WakerOf(t[j].call).Some? && WakerOf(t[j].call).value.0 == side
  }

  lemma OthersBeginNoPoll(c: Conn, call: Call, side: Side)
    requires OpFor(c.flags, call).Some? && WakerOf(call).Some? ==> WakerOf(call).value.0 != side
    ensures forall w: Waker :: P.BeginPoll(side, w) !in CallActions(c, call)
  {
    OpsBeginNoPoll(Step(c, call).0.sock.std.net.record);
  }

  /** After a Pending, later calls of the other side leave the caller waiting. */
  lemma {:induction false} SleeperKeepsWaiting(cfg: Config, t: seq<Input>, n: nat, s: P.State)
    requires n < |t| && IsPending(LastOutcome(cfg, t[..n + 1])) && s.running.Idle?
    requires forall j :: n < j < |t| ==> !Reaches(cfg, t, j, WakerOf(t[n].call).value.0)
    ensures P.ValidFrom(s, RunActions(cfg, t))
    ensures WaysOf(t[n].call) in P.RunFrom(s, RunActions(cfg, t)).tasks.Get(WakerOf(t[n].call).value.0).waiting
    decreases |t|
  {
    RunFollowsProtocol(cfg, t, s);
    if n == |t| - 1 {
      assert t[..n + 1] == t;
    } else {
      var p, i, side := t[..|t| - 1], t[|t| - 1], WakerOf(t[n].call).value.0;
      assert p[..n + 1] == t[..n + 1];
      forall j | n < j < |p|
        ensures !Reaches(cfg, p, j, side)
      {
        assert p[..j] == t[..j];
        assert !Reaches(cfg, t, j, side);
      }
      SleeperKeepsWaiting(cfg, p, n, s);
      RunFollowsProtocol(cfg, p, s);
      assert !Reaches(cfg, t, |p|, side);
      var c, s1 := Install(After(cfg, p), i.answers), P.RunFrom(s, RunActions(cfg, p));
      RunLinked(cfg, p);
      CallFollowsProtocol(c, i.call, EncodeAll(LedgerOf(cfg, p).delivered), s1);
      P.RunConcat(s, RunActions(cfg, p), CallActions(c, i.call));
      OthersBeginNoPoll(c, i.call, side);
      P.WaitingStays(s1, CallActions(c, i.call), side);
    }
  }

  /**
   No caller is forgotten. Take any run of calls after a handshake `h`, interleaved in any way with reactor
   events and the wakes they start, and any call `n` of it that answered Pending, after which its side has not
   reached the socket again, whatever the other side has done since. That side still waits for the direction
   it was told Pending on, and for each one it waits for it has been woken since its poll began, or its latest
   waker is in that direction's slot with the proxy held by the socket or a wake on its way there. With no
   started wake left it is woken, or nothing has happened on that direction since.
   */
  lemma WrapperNeverLosesWakeup(w: Waker, h: seq<P.Action>, cfg: Config, t: seq<Input>, n: nat, u: seq<P.Action>)
    requires n < |t| && IsPending(LastOutcome(cfg, t[..n + 1]))
    requires forall j :: n < j < |t| ==> !Reaches(cfg, t, j, WakerOf(t[n].call).value.0)
    requires P.ValidFrom(P.Init(w), h) && P.RunFrom(P.Init(w), h).running.Idle?
    requires P.TaskPart(u) == h + RunActions(cfg, t) && P.WakesStarted(P.Init(w), u)
    ensures P.ValidFrom(P.Init(w), u)
    ensures var s, side := P.RunFrom(P.Init(w), u), WakerOf(t[n].call).value.0;
            P.Reachable(s) && WaysOf(t[n].call) in s.tasks.Get(side).waiting && P.NotLost(s, side)
  {
    var s0 := P.Init(w);
    SleeperKeepsWaiting(cfg, t, n, P.RunFrom(s0, h));
    P.RunConcat(s0, h, RunActions(cfg, t));
    P.AnyInterleaving(s0, s0, u);
    var s := P.RunFrom(s0, u);
    assert P.Reachable(s);
    P.NoLostWakeup(s, WakerOf(t[n].call).value.0);
  }
}
