/**
 The handshake futures: a resumable driver around a handshake that is interrupted whenever the socket
 blocks. The handshake itself is any machine that works through the adapter one operation at a time and,
 when an operation would block, gives up with its state as it was. It stands for the wrapped library's
 client and server handshakes.
 */
module Handshake {
  import opened Basics
  import opened Framing
  import opened Compat
  import opened InnerSocket
  import opened SocketFacts
  import opened SocketRecord
  import opened AsyncStream
  import opened StreamRuns
  import P = WakerProtocol
  import HonestPending

  /** The result of one attempt: HandshakeError is Failure or Interrupted. */
  datatype Tried<M, R, E> = Done(result: R) | Failure(error: E) | Interrupted(mid: M)

  datatype Instr<R, E> = Recv | Send(buf: seq<byte>) | FlushOut | Finish(result: R) | Abort(error: E)

  /** A handshake: where it starts, what it does in a state, and how it takes the result of an operation. */
  datatype Role<!M, !R, !E> = Role(
    init: M,
    next: M -> Instr<R, E>,
    received: (M, Result<seq<byte>>) -> M,
    sent: (M, Result<nat>) -> M,
    flushed: (M, Result<()>) -> M)

  /** A poll, of which polling a completed future is the one that panics. */
  datatype Polled<T> = Panic | Polled(poll: Poll<T>)

  /** One attempt: runs the machine on the adapter until it finishes or an operation would block. */
  function Attempt<M, R, E>(role: Role<M, R, E>, m: M, std: Std): (Std, Tried<M, R, E>)
    decreases |std.net.plan|
  {
    match role.next(m)
    case Finish(v) => (std, Done(v))
    case Abort(e) => (std, Failure(e))
    case Recv =>
      var (std', r) := std.Read();
      if Blocked(r) then (std', Interrupted(m)) else Attempt(role, role.received(m, r), std')
    case Send(buf) =>
      var (std', r) := std.Write(buf);
      if Blocked(r) then (std', Interrupted(m)) else Attempt(role, role.sent(m, r), std')
    case FlushOut =>
      var (std', r) := std.Flush();
      if Blocked(r) then (std', Interrupted(m)) else Attempt(role, role.flushed(m, r), std')
  }

  /** The same attempt as code, on the adapter itself. */
  method RunHandshake<M, R, E>(role: Role<M, R, E>, stream: AllowStd, start: M) returns (r: Tried<M, R, E>)
    requires stream.Valid()
    modifies stream
    ensures (stream.View(), r) == Attempt(role, start, old(stream.View()))
  {
    var m := start;
    while true
      invariant Attempt(role, m, stream.View()) == Attempt(role, start, old(stream.View()))
      decreases |stream.inner.plan|
    {
      match role.next(m) {
        case Finish(v) => return Done(v);
        case Abort(e) => return Failure(e);
        case Recv =>
          var c := stream.Read();
          if Blocked(c) { return Interrupted(m); }
          m := role.received(m, c);
        case Send(buf) =>
          var c := stream.Write(buf);
          if Blocked(c) { return Interrupted(m); }
          m := role.sent(m, c);
        case FlushOut =>
          var c := stream.Flush();
          if Blocked(c) { return Interrupted(m); }
          m := role.flushed(m, c);
      }
    }
  }

  // ----- the futures

  datatype StartedHandshake<M, R> = StartDone(result: R) | StartMid(mid: M)

  class StartedHandshakeFuture<M, R, E> {
    const role: Role<M, R, E>
    var inner: Option<Net>

    constructor (role: Role<M, R, E>, stream: Net)
      ensures this.role == role && inner == Some(stream)
    {
      this.role, inner := role, Some(stream);
    }

    /**
     Never Pending: wraps the socket with the polling task's waker in both proxies and hands it to the start
     closure, once; an interruption is handed on as a mid-state, with the adapter as the attempt left it.
     */
    method Poll(ctx: Waker) returns (r: Polled<Tried<M, StartedHandshake<M, R>, E>>, stream: Option<AllowStd>)
      modifies this
      ensures inner == None && (stream.Some? <==> old(inner).Some?)
      ensures old(inner).None? ==> r == Panic
      ensures stream.Some? ==>
                && stream.value.Valid() && fresh(stream.value) && fresh(stream.value.SlotCells())
                && stream.value.SlotView() == P.Init(ctx).slots
                && var (std, t) := Attempt(role, role.init, Std(old(inner).value, []));
                   && stream.value.View() == std
                   && match t
                      case Done(v) => r == Polled(Ready(Done(StartDone(v))))
                      case Failure(e) => r == Polled(Ready(Failure(e)))
                      case Interrupted(mid) => r == Polled(Ready(Done(StartMid(mid))))
    {
      if inner.None? {
        return Panic, None;
      }
      var net := inner.value;
      inner := None;
      var s := new AllowStd(net, ctx);
      stream := Some(s);
      var t := RunHandshake(role, s, role.init);
      match t {
        case Done(v) => r := Polled(Ready(Done(StartDone(v))));
        case Interrupted(mid) => r := Polled(Ready(Done(StartMid(mid))));
        case Failure(e) => r := Polled(Ready(Failure(e)));
      }
    }
  }

  class MidHandshake<M, R, E> {
    const role: Role<M, R, E>
    const stream: AllowStd
    var inner: Option<M>

    constructor (role: Role<M, R, E>, mid: M, stream: AllowStd)
      ensures this.role == role && this.stream == stream && inner == Some(mid)
    {
      this.role, this.stream, inner := role, stream, Some(mid);
    }

    /**
     Registers the current waker in both proxies, then resumes exactly the stored mid-state on the adapter;
     Pending exactly on interruption, keeping the new mid-state.
     */
    method Poll(cx: Waker) returns (r: Polled<Tried<M, R, E>>)
      requires stream.Valid()
      modifies this, stream, stream.SlotCells()
      ensures old(inner).None? ==> r == Panic && inner == None && stream.View() == old(stream.View())
      ensures old(inner).Some? ==>
                && stream.SlotView() == SetBoth(old(stream.SlotView()), StreamSide, cx)
                && var (std, t) := Attempt(role, old(inner).value, old(stream.View()).SetWaker(StreamSide, cx));
                   && stream.View() == std
                   && r == Polled(if t.Interrupted? then Pending else Ready(t))
                   && inner == if t.Interrupted? then Some(t.mid) else None
    {
      if inner.None? {
        return Panic;
      }
      var s := inner.value;
      inner := None;
      stream.SetWaker(StreamSide, cx);
      var t := RunHandshake(role, stream, s);
      if t.Interrupted? {
        inner := Some(t.mid);
        r := Polled(Pending);
      } else {
        r := Polled(Ready(t));
      }
    }
  }

  // ----- the driver over a whole handshake

  /** One poll of a future: its waker, and what more the socket has to offer by then. */
  datatype Turn = Turn(waker: Waker, answers: seq<Answer>)

  function AllAnswers(turns: seq<Turn>): seq<Answer> {
    if turns == [] then [] else AllAnswers(turns[..|turns| - 1]) + turns[|turns| - 1].answers
  }

  /** Where the driver stands after these turns: the adapter, with the last poll's record, and the last result. */
  function Driven<M, R, E>(role: Role<M, R, E>, net: Net, turns: seq<Turn>): (Std, Tried<M, R, E>)
    requires turns != []
  {
    var turn := turns[|turns| - 1];
    if |turns| == 1 then Attempt(role, role.init, Std(net.Offer(turn.answers), []))
    else
      var (std, last) := Driven(role, net, turns[..|turns| - 1]);
      if last.Interrupted? then
        Attempt(role, last.mid, Std(std.net.Offer(turn.answers), []).SetWaker(StreamSide, turn.waker))
      else (std, last)
  }

  /**
   The plain blocking loop: an operation that would block is simply tried again, until it goes through;
   out of answers, it is left where it stands.
   */
  function Plain<M, R, E>(role: Role<M, R, E>, m: M, net: Net): (Net, Tried<M, R, E>)
    decreases |net.plan|
  {
    var i := role.next(m);
    if i.Finish? then (net, Done(i.result))
    else if i.Abort? then (net, Failure(i.error))
    else if net.plan == [] then (net, Interrupted(m))
    else if net.plan[0].Block? then Plain(role, m, net.(plan := net.plan[1..]))
    else match i
         case Recv => var (n, p) := PollRead(net, Inbound); Plain(role, role.received(m, FromPoll(p)), Bare(n))
         case Send(buf) => var (n, p) := PollWrite(net, Outbound, buf); Plain(role, role.sent(m, FromPoll(p)), Bare(n))
         case FlushOut =>
           var (n, p) := Compat.PollFlush(net, Outbound); Plain(role, role.flushed(m, FromPoll(p)), Bare(n))
  }

  /** The socket without the wakers it remembers, which a blocking caller has none of, and without its record. */
  function Bare(net: Net): Net {
    net.(held := PerDir(None, None), record := [])
  }

  /** An attempt is a stretch of the plain loop, which goes on from a mid-state with the answers left. */
  lemma {:induction false} AttemptIsPlain<M, R, E>(role: Role<M, R, E>, m: M, std: Std, more: seq<Answer>)
    ensures var (std', t) := Attempt(role, m, std);
            Plain(role, m, Bare(std.net).Offer(more))
            == if t.Interrupted? then Plain(role, t.mid, Bare(std'.net).Offer(more))
               else (Bare(std'.net).Offer(more), t)
    decreases |std.net.plan|
  {
    var i, plan := role.next(m), std.net.plan;
    if !i.Finish? && !i.Abort? {
      if plan == [] {
        assert plan + more == more;
      } else {
        assert (plan + more)[0] == plan[0] && (plan + more)[1..] == plan[1..] + more;
        if !plan[0].Block? {
          var (m', std') := OneOp(role, m, std);
          AttemptIsPlain(role, m', std', more);
        }
      }
    }
  }

  /** An operation that does not block, and the state it leads to. */
  function OneOp<M, R, E>(role: Role<M, R, E>, m: M, std: Std): (M, Std) {
    match role.next(m)
    case Recv => var (std', r) := std.Read(); (role.received(m, r), std')
    case Send(buf) => var (std', r) := std.Write(buf); (role.sent(m, r), std')
    case FlushOut => var (std', r) := std.Flush(); (role.flushed(m, r), std')
    case _ => (m, std)
  }

  /**
   Refinement: however often and wherever it is interrupted, the driver is at a point of one plain loop over
   the same socket. Finished, it has the loop's result and has moved the same bytes; pending, the loop goes on
   from the stored mid-state with the answers left, and if none are left it stands at that very state.
   */
  lemma {:induction false} DrivenIsPlain<M, R, E>(role: Role<M, R, E>, net: Net, turns: seq<Turn>, more: seq<Answer>)
    requires turns != []
    ensures var (std, t) := Driven(role, net, turns);
            var (n, p) := Plain(role, role.init, Bare(net).Offer(AllAnswers(turns) + more));
            if t.Interrupted? then (n, p) == Plain(role, t.mid, Bare(std.net).Offer(more))
            else p == t && n.sent == std.net.sent && n.got == std.net.got
  {
    var k := |turns| - 1;
    var answers := turns[k].answers;
    Assoc(AllAnswers(turns[..k]), answers, more);
    if k == 0 {
      assert AllAnswers(turns) == answers;
      assert Bare(net).Offer(answers + more) == Bare(net.Offer(answers)).Offer(more) by {
        Assoc(net.plan, answers, more);
      }
      AttemptIsPlain(role, role.init, Std(net.Offer(answers), []), more);
    } else {
      DrivenIsPlain(role, net, turns[..k], answers + more);
      var (std, last) := Driven(role, net, turns[..k]);
      if last.Interrupted? {
        Assoc(std.net.plan, answers, more);
        AttemptIsPlain(role, last.mid, Std(std.net.Offer(answers), []).SetWaker(StreamSide, turns[k].waker), more);
      }
    }
  }

  /** Interrupted, a machine wants an operation; so without answers the plain loop stands where the driver does. */
  lemma {:induction false} InterruptedWants<M, R, E>(role: Role<M, R, E>, m: M, std: Std)
    ensures var (std', t) := Attempt(role, m, std);
            t.Interrupted? ==> !role.next(t.mid).Finish? && !role.next(t.mid).Abort?
    decreases |std.net.plan|
  {
    if std.net.plan != [] && !role.next(m).Finish? && !role.next(m).Abort? {
      var (m', std') := OneOp(role, m, std);
      InterruptedWants(role, m', std');
    }
  }

  lemma {:induction false} DrivenWants<M, R, E>(role: Role<M, R, E>, net: Net, turns: seq<Turn>)
    requires turns != []
    ensures var t := Driven(role, net, turns).1;
            t.Interrupted? ==> !role.next(t.mid).Finish? && !role.next(t.mid).Abort?
  {
    var k := |turns| - 1;
    if k == 0 {
      InterruptedWants(role, role.init, Std(net.Offer(turns[k].answers), []));
    } else {
      DrivenWants(role, net, turns[..k]);
      var (std, last) := Driven(role, net, turns[..k]);
      if last.Interrupted? {
        var s := Std(std.net.Offer(turns[k].answers), []).SetWaker(StreamSide, turns[k].waker);
        InterruptedWants(role, last.mid, s);
      }
    }
  }

  lemma {:induction false} FinishedStays<M, R, E>(role: Role<M, R, E>, net: Net, turns: seq<Turn>, n: nat)
    requires 0 < n <= |turns| && !Driven(role, net, turns[..n]).1.Interrupted?
    ensures Driven(role, net, turns) == Driven(role, net, turns[..n])
  {
    if n < |turns| {
      assert turns[..|turns| - 1][..n] == turns[..n];
      FinishedStays(role, net, turns[..|turns| - 1], n);
    } else {
      assert turns[..n] == turns;
    }
  }

  /** An interrupted handshake takes one more turn. */
  lemma DrivenStep<M, R, E>(role: Role<M, R, E>, net: Net, turns: seq<Turn>, i: nat)
    requires 0 < i < |turns| && Driven(role, net, turns[..i]).1.Interrupted?
    ensures var (std, last) := Driven(role, net, turns[..i]);
            Driven(role, net, turns[..i + 1])
            == Attempt(role, last.mid, Std(std.net.Offer(turns[i].answers), []).SetWaker(StreamSide, turns[i].waker))
  {
    assert turns[..i + 1][..i] == turns[..i];
  }

  /** Polling the MidHandshake future until it is ready or no turn is left. */
  method DriveMid<M, R, E>(mid: MidHandshake<M, R, E>, ghost net: Net, turns: seq<Turn>)
    returns (r: Poll<Tried<M, R, E>>)
    requires turns != [] && mid.stream.Valid()
    requires Driven(mid.role, net, turns[..1]).1.Interrupted?
    requires mid.inner == Some(Driven(mid.role, net, turns[..1]).1.mid)
    requires mid.stream.View() == Driven(mid.role, net, turns[..1]).0
    modifies mid, mid.stream, mid.stream.SlotCells()
    ensures var (std, t) := Driven(mid.role, net, turns);
            r == (if t.Interrupted? then Pending else Ready(t)) && mid.stream.View() == std
  {
    var i := 1;
    r := Pending;
    while i < |turns|
      invariant 1 <= i <= |turns| && r.Pending?
      invariant Driven(mid.role, net, turns[..i]).1.Interrupted?
      invariant mid.inner == Some(Driven(mid.role, net, turns[..i]).1.mid)
      invariant mid.stream.View() == Driven(mid.role, net, turns[..i]).0
    {
      DrivenStep(mid.role, net, turns, i);
      mid.stream.Environment(turns[i].answers);
      var p := mid.Poll(turns[i].waker);
      i := i + 1;
      if p.poll.Ready? {
        FinishedStays(mid.role, net, turns, i);
        return p.poll;
      }
    }
    assert turns[..i] == turns;
  }

  /**
   The async driver over any number of turns (the first starts, a later one resumes). Ready, its result is that
   of the plain loop over all the socket has offered, with the same bytes moved; Pending, the plain loop goes on
   from the mid-state kept, or stands there if no answer is left. It never panics, and its result is never an
   interruption.
   */
  method Drive<M, R, E>(role: Role<M, R, E>, net: Net, turns: seq<Turn>)
    returns (r: Poll<Tried<M, R, E>>, stream: AllowStd)
    requires turns != []
    ensures var (std, t) := Driven(role, net, turns);
            stream.View() == std && r == (if t.Interrupted? then Pending else Ready(t))
    ensures r.Ready? ==> !r.value.Interrupted?
    ensures var (n, p) := Plain(role, role.init, Bare(net).Offer(AllAnswers(turns)));
            && (r.Ready? ==> p == r.value && n.sent == stream.inner.sent && n.got == stream.inner.got)
            && (r.Pending? ==>
                  var t := Driven(role, net, turns).1;
                  && t.Interrupted? && (n, p) == Plain(role, t.mid, Bare(stream.inner))
                  && (stream.inner.plan == [] ==> p == t))
  {
    assert turns[..1] == [turns[0]];
    var start := new StartedHandshakeFuture(role, net.Offer(turns[0].answers));
    var first, s := start.Poll(turns[0].waker);
    stream := s.value;
    if first.poll.value.Failure? {
      r := Ready(Failure(first.poll.value.error));
      FinishedStays(role, net, turns, 1);
    } else {
      match first.poll.value.result {
        case StartDone(v) =>
          r := Ready(Done(v));
          FinishedStays(role, net, turns, 1);
        case StartMid(m) =>
          var mid := new MidHandshake(role, m, stream);
          r := DriveMid(mid, net, turns);
      }
    }
    DrivenIsPlain(role, net, turns, []);
    DrivenWants(role, net, turns);
    assert AllAnswers(turns) + [] == AllAnswers(turns);
    assert Bare(stream.inner).Offer([]) == Bare(stream.inner);
  }

  /** What the public functions make of the result; the fallback stands for an error that is no Failure. */
  datatype Settled<R, E> = Connected(result: R) | Rejected(error: E) | Fallback

  function Settle<M, R, E>(t: Tried<M, R, E>): Settled<R, E> {
    match t
    case Done(v) => Connected(v)
    case Failure(e) => Rejected(e)
    case Interrupted(_) => Fallback
  }

  /** client_async and accept_async: the fallback arm of their error mapping is dead. */
  method Connect<M, R, E>(role: Role<M, R, E>, net: Net, turns: seq<Turn>) returns (r: Poll<Settled<R, E>>)
    requires turns != []
    ensures r != Ready(Fallback)
    ensures r.Ready? ==> r.value == Settle(Plain(role, role.init, Bare(net).Offer(AllAnswers(turns))).1)
    ensures r.Pending? <==> Driven(role, net, turns).1.Interrupted?
  {
    var d, stream := Drive(role, net, turns);
    r := if d.Pending? then Pending else Ready(Settle(d.value));
  }

  // ----- handshake polls as polls of the waker protocol

  /** What one operation leaves: the adapter, and whether it was blocked. */
  function Operated<M, R, E>(role: Role<M, R, E>, m: M, std: Std): (Std, bool) {
    match role.next(m)
    case Recv => var (std', r) := std.Read(); (std', Blocked(r))
    case Send(buf) => var (std', r) := std.Write(buf); (std', Blocked(r))
    case FlushOut => var (std', r) := std.Flush(); (std', Blocked(r))
    case _ => (std, false)
  }

  lemma OperatedIsTraced<M, R, E>(role: Role<M, R, E>, m: M, std: Std)
    requires !role.next(m).Finish? && !role.next(m).Abort?
    ensures var (std', blocked) := Operated(role, m, std);
            && std'.log == std.log && Traced(std.net, std'.net) && |std.net.record| < |std'.net.record|
            && (blocked ==> std'.net.record[|std'.net.record| - 1].Waits())
  {
    match role.next(m)
    case Recv => var (std', r) := std.Read(); OneExchange(std.net, std'.net, DidRead(Inbound, Cvt(r)));
    case Send(buf) => var (std', r) := std.Write(buf); OneExchange(std.net, std'.net, DidWrite(Outbound, buf, Cvt(r)));
    case FlushOut => var (std', r) := std.Flush(); OneExchange(std.net, std'.net, DidFlush(Outbound, Cvt(r)));
  }

  lemma AttemptStep<M, R, E>(role: Role<M, R, E>, m: M, std: Std)
    requires !role.next(m).Finish? && !role.next(m).Abort?
    ensures var (std', blocked) := Operated(role, m, std);
            && (blocked ==> Attempt(role, m, std) == (std', Interrupted(m)))
            && (!blocked ==>
                  && OneOp(role, m, std).1 == std' && |std'.net.plan| < |std.net.plan|
                  && Attempt(role, m, std) == Attempt(role, OneOp(role, m, std).0, std'))
  {
  }

  /** An attempt only operates on the socket, with each direction's proxy; only a blocked operation interrupts it. */
  lemma {:induction false} AttemptIsHonest<M, R, E>(role: Role<M, R, E>, m: M, std: Std)
    ensures var (std', t) := Attempt(role, m, std);
            && std'.log == std.log && Traced(std.net, std'.net)
            && (t.Interrupted? ==>
                  |std.net.record| < |std'.net.record| && std'.net.record[|std'.net.record| - 1].Waits())
    decreases |std.net.plan|
  {
    if role.next(m).Finish? || role.next(m).Abort? {
      SaysNothingNew(std.net);
    } else {
      var (std1, blocked) := Operated(role, m, std);
      OperatedIsTraced(role, m, std);
      AttemptStep(role, m, std);
      if !blocked {
        var m1 := OneOp(role, m, std).0;
        AttemptIsHonest(role, m1, std1);
        TracedThen(std.net, std1.net, Attempt(role, m1, std1).0.net);
      }
    }
  }

  lemma SaysNothingNew(net: Net)
    ensures Traced(net, net)
  {
    assert New(net, net) == [] && net.got + [] == net.got;
  }

  function MidPollActions(w: Waker, std: Std, pending: bool): seq<P.Action> {
    [P.BeginPoll(StreamSide, w), P.Register, P.Register]
    + HonestPending.OpActions(std.net.record) + [P.EndPoll(pending)]
  }

  /** What the polls of a handshake do in terms of the waker protocol, from AllowStd::new on. */
  function HandshakeActions<M, R, E>(role: Role<M, R, E>, net: Net, turns: seq<Turn>): seq<P.Action>
    requires turns != []
  {
    var k := |turns| - 1;
    var (std, t) := Driven(role, net, turns);
    if k == 0 then HonestPending.OpActions(std.net.record) + [P.EndPoll(false)]
    else
      var before := HandshakeActions(role, net, turns[..k]);
      if Driven(role, net, turns[..k]).1.Interrupted? then before + MidPollActions(turns[k].waker, std, t.Interrupted?)
      else before
  }

  /** One MidHandshake poll, from an idle protocol state. */
  lemma MidPollFollowsProtocol<M, R, E>(role: Role<M, R, E>, m: M, net: Net, w: Waker, s: P.State)
    requires s.running.Idle?
    ensures var (std, t) := Attempt(role, m, Std(net, []).SetWaker(StreamSide, w));
            var poll := MidPollActions(w, std, t.Interrupted?);
            && P.ValidFrom(s, poll) && P.RunFrom(s, poll).running.Idle?
            && (t.Interrupted? ==>
                  P.RunFrom(s, poll).tasks.stream.pending && P.RunFrom(s, poll).tasks.stream.waiting != {})
  {
    var std0 := Std(net, []).SetWaker(StreamSide, w);
    AttemptIsHonest(role, m, std0);
    var (std, t) := Attempt(role, m, std0);
    HonestPending.PollBegins(s, StreamSide, w);
    HonestPending.PollEnds(s, [P.BeginPoll(StreamSide, w), P.Register, P.Register], std.net.record, t.Interrupted?);
  }

  /**
   Every handshake poll is a poll the waker protocol accepts, including a MidHandshake's claim to be Pending,
   which leaves its task waiting for some direction.
   */
  lemma {:induction false} HandshakeFollowsProtocol<M, R, E>(role: Role<M, R, E>, net: Net, turns: seq<Turn>)
    requires turns != []
    ensures var s0, h := P.Init(turns[0].waker), HandshakeActions(role, net, turns);
            && P.ValidFrom(s0, h) && P.RunFrom(s0, h).running.Idle?
            && (|turns| > 1 && Driven(role, net, turns).1.Interrupted? ==>
                  P.RunFrom(s0, h).tasks.stream.pending && P.RunFrom(s0, h).tasks.stream.waiting != {})
  {
    var k, s0 := |turns| - 1, P.Init(turns[0].waker);
    var (std, t) := Driven(role, net, turns);
    if k == 0 {
      HonestPending.PollEnds(s0, [], std.net.record, false);
      assert [] + HonestPending.OpActions(std.net.record) == HonestPending.OpActions(std.net.record);
    } else {
      HandshakeFollowsProtocol(role, net, turns[..k]);
      var (before, last) := Driven(role, net, turns[..k]);
      if last.Interrupted? {
        var h := HandshakeActions(role, net, turns[..k]);
        MidPollFollowsProtocol(role, last.mid, before.net.Offer(turns[k].answers), turns[k].waker, P.RunFrom(s0, h));
        P.RunConcat(s0, h, MidPollActions(turns[k].waker, std, t.Interrupted?));
      }
    }
  }

  /**
   No handshake sleeps for ever: interleaved in any way with reactor events and the wakes they start, a
   handshake left Pending waits for some direction, with no wakeup lost.
   */
  lemma HandshakeNeverLosesWakeup<M, R, E>(role: Role<M, R, E>, net: Net, turns: seq<Turn>, u: seq<P.Action>)
    requires |turns| > 1 && Driven(role, net, turns).1.Interrupted?
    requires P.TaskPart(u) == HandshakeActions(role, net, turns) && P.WakesStarted(P.Init(turns[0].waker), u)
    ensures P.ValidFrom(P.Init(turns[0].waker), u)
    ensures var s := P.RunFrom(P.Init(turns[0].waker), u);
            P.Reachable(s) && s.tasks.stream.waiting != {} && P.NotLost(s, StreamSide)
  {
    var s0 := P.Init(turns[0].waker);
    HandshakeFollowsProtocol(role, net, turns);
    P.AnyInterleaving(s0, s0, u);
    var s := P.RunFrom(s0, u);
    assert P.Reachable(s);
    P.NoLostWakeup(s, StreamSide);
  }

  lemma MidPollIsHeld<M, R, E>(role: Role<M, R, E>, m: M, net: Net, w: Waker, s: P.State)
    requires s.running.Idle? && s.held == net.held && net.record == []
    ensures var (std, t) := Attempt(role, m, Std(net, []).SetWaker(StreamSide, w));
            var poll := MidPollActions(w, std, t.Interrupted?);
            P.ValidFrom(s, poll) && P.RunFrom(s, poll).held == std.net.held
  {
    var std0 := Std(net, []).SetWaker(StreamSide, w);
    AttemptIsHonest(role, m, std0);
    var (std, t) := Attempt(role, m, std0);
    var begin := [P.BeginPoll(StreamSide, w), P.Register, P.Register];
    AllNew(net, std.net);
    HonestPending.PollBegins(s, StreamSide, w);
    HonestPending.PollEnds(s, begin, std.net.record, t.Interrupted?);
    var none := PerDir(None, None);
    HonestPending.OpsAreHeld(P.RunFrom(s, begin), std.net.record, none, net.held);
  }

  /** The proxies the socket remembers after a handshake are those the protocol remembers. */
  lemma {:induction false} HandshakeIsHeld<M, R, E>(role: Role<M, R, E>, net: Net, turns: seq<Turn>)
    requires turns != [] && net.held == PerDir(None, None)
    ensures var s0, h := P.Init(turns[0].waker), HandshakeActions(role, net, turns);
            P.ValidFrom(s0, h) && P.RunFrom(s0, h).held == Driven(role, net, turns).0.net.held
  {
    var k, s0 := |turns| - 1, P.Init(turns[0].waker);
    var (std, t) := Driven(role, net, turns);
    HandshakeFollowsProtocol(role, net, turns);
    if k == 0 {
      var std0 := Std(net.Offer(turns[k].answers), []);
      AttemptIsHonest(role, role.init, std0);
      AllNew(std0.net, std.net);
      HonestPending.PollEnds(s0, [], std.net.record, false);
      assert [] + HonestPending.OpActions(std.net.record) == HonestPending.OpActions(std.net.record);
      HonestPending.OpsAreHeld(s0, std.net.record, net.held, net.held);
    } else {
      HandshakeIsHeld(role, net, turns[..k]);
      HandshakeFollowsProtocol(role, net, turns[..k]);
      var (before, last) := Driven(role, net, turns[..k]);
      if last.Interrupted? {
        var h := HandshakeActions(role, net, turns[..k]);
        MidPollFollowsProtocol(role, last.mid, before.net.Offer(turns[k].answers), turns[k].waker, P.RunFrom(s0, h));
        MidPollIsHeld(role, last.mid, before.net.Offer(turns[k].answers), turns[k].waker, P.RunFrom(s0, h));
        P.RunConcat(s0, h, MidPollActions(turns[k].waker, std, t.Interrupted?));
      }
    }
  }

  // ----- skipping the handshake

  class SkippedHandshakeFuture {
    var inner: Option<Net>

    constructor (stream: Net)
      ensures inner == Some(stream)
    {
      inner := Some(stream);
    }

    /** Ready at once, with the polling task's waker as the first stream waker. */
    method Poll(ctx: Waker, part: seq<byte>, server: bool, threshold: nat) returns (r: Option<WebSocket>)
      modifies this
      ensures inner == None && (r.Some? <==> old(inner).Some?)
      ensures r.Some? ==>
                && fresh(r.value) && fresh(r.value.stream) && fresh(r.value.stream.SlotCells()) && r.value.Valid()
                && r.value.View()
                   == Sock(server, threshold, [], None, false, part, Active, Std(old(inner).value, []), [])
                && r.value.stream.SlotView() == P.Init(ctx).slots
    {
      if inner.None? {
        return None;
      }
      var net := inner.value;
      inner := None;
      var stream := new AllowStd(net, ctx);
      var ws := new WebSocket(stream, part, server, threshold);
      r := Some(ws);
    }
  }

  /** from_raw_socket and from_partially_read: a stream in the state every run starts from. */
  method WithoutHandshake(cfg: Config, ctx: Waker) returns (ws: WebSocketStream)
    ensures ws.Valid() && ws.View() == Fresh(cfg) && ws.Slots() == P.Init(ctx).slots
  {
    var start := new SkippedHandshakeFuture(Net([], [], cfg.part, PerDir(None, None), []));
    var r := start.Poll(ctx, cfg.part, cfg.server, cfg.threshold);
    ws := new WebSocketStream(r.value);
  }
}
