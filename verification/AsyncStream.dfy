/**
 The asynchronous stream/sink on top of the WebSocket machine: three flags, and poll methods that
 register the caller's waker, run one blocking-style operation and translate its result.
 */
module AsyncStream {
  import opened Basics
  import opened Framing
  import opened Compat
  import opened InnerSocket

  datatype Flags = Flags(ready: bool, closing: bool, ended: bool)

  datatype Call =
    | PollNext(waker: Waker)
    | PollReady(waker: Waker)
    | StartSend(message: Message)
    | PollFlush(waker: Waker)
    | PollClose(waker: Waker)

  datatype InnerOp = ReadOp | WriteOp(message: Message) | FlushOp | CloseOp

  /** What the inner operation returned: `read` for a read, `unit` for the others. */
  datatype Reply = Reply(read: Result<Message>, unit: Result<()>)

  datatype Outcome =
    | Next(next: Poll<Option<Result<Message>>>)
    | Unit(unit: Poll<Result<()>>)
    | Sent(sent: Result<()>)

  const FRESH_FLAGS := Flags(true, false, false)

  /** The frame of close(None). */
  const CLOSE_NONE: Message := Message(Close, [])

  // ----- the flags, over any inner socket

  /** The inner operation a call performs, if it gets that far. */
  function OpFor(f: Flags, c: Call): Option<InnerOp> {
    match c
    case PollNext(_) => if f.ended then None else Some(ReadOp)
    case PollReady(_) => if f.ready then None else Some(FlushOp)
    case StartSend(m) => Some(WriteOp(m))
    case PollFlush(_) => Some(FlushOp)
    case PollClose(_) => Some(if f.closing then FlushOp else CloseOp)
  }

  function FlagsAfter(f: Flags, c: Call, rep: Reply): Flags {
    match c
    case PollNext(_) => f.(ended := f.ended || (rep.read.Err? && !Blocked(rep.read)))
    case PollReady(_) => f.(ready := f.ready || !Blocked(rep.unit))
    case StartSend(_) => f.(ready := !Blocked(rep.unit))
    case PollFlush(_) => f.(ready := f.ready || !Blocked(rep.unit))
    case PollClose(_) => f.(ready := true, closing := f.closing || Blocked(rep.unit))
  }

  function OutcomeOf(f: Flags, c: Call, rep: Reply): Outcome {
    match c
    case PollNext(_) =>
      Next(
        if f.ended then Ready(None)
        else match Cvt(rep.read)
             case Pending => Pending
             case Ready(Ok(m)) => Ready(Some(Ok(m)))
             case Ready(Err(e)) => Ready(if e.AlreadyClosed? || e.ConnectionClosed? then None else Some(Err(e))))
    case PollReady(_) => Unit(if f.ready then Ready(Ok(())) else Cvt(rep.unit))
    case StartSend(_) => Sent(if Blocked(rep.unit) then Ok(()) else rep.unit)
    case PollFlush(_) => Unit(ClosedIsOk(Cvt(rep.unit)))
    case PollClose(_) => Unit(ClosedIsOk(Cvt(rep.unit)))
  }

  function ClosedIsOk(p: Poll<Result<()>>): Poll<Result<()>> {
    if p.Ready? && p.value.Err? && p.value.error.ConnectionClosed? then Ready(Ok(())) else p
  }

  predicate IsPending(o: Outcome) {
    o == Next(Pending) || o == Unit(Pending)
  }

  // ----- the whole connection

  datatype Conn = Conn(flags: Flags, sock: Sock)

  function WakerOf(c: Call): Option<(Side, Waker)> {
    match c
    case PollNext(w) => Some((StreamSide, w))
    case StartSend(_) => None
    case PollReady(w) => Some((SinkSide, w))
    case PollFlush(w) => Some((SinkSide, w))
    case PollClose(w) => Some((SinkSide, w))
  }

  /** with_context: registers the caller's waker, if there is one. */
  function WithContext(s: Sock, c: Call): Sock {
    match WakerOf(c)
    case None => s
    case Some((side, w)) => s.(std := s.std.SetWaker(side, w))
  }

  const NO_REPLY := Reply(Err(BadFrame), Ok(()))

  function Perform(s: Sock, op: InnerOp): (Sock, Reply) {
    match op
    case ReadOp => var r := Read(s); (r.sock, NO_REPLY.(read := r.res))
    case WriteOp(m) => var r := Write(s, m); (r.sock, NO_REPLY.(unit := r.res))
    case FlushOp => var r := Flush(s); (r.sock, NO_REPLY.(unit := r.res))
    case CloseOp => var r := DoClose(s, CLOSE_NONE); (r.sock, NO_REPLY.(unit := r.res))
  }

  function Step(c: Conn, call: Call): (Conn, Outcome) {
    match OpFor(c.flags, call)
    case None => (c, OutcomeOf(c.flags, call, NO_REPLY))
    case Some(op) =>
      var (s, rep) := Perform(WithContext(c.sock, call), op);
      (Conn(FlagsAfter(c.flags, call, rep), s), OutcomeOf(c.flags, call, rep))
  }

  /** The answer of poll_close, from the result of closing or flushing. */
  function CloseAnswer(res: Result<()>): Poll<Result<()>> {
    match res
    case Ok(_) => Ready(Ok(()))
    case Err(ConnectionClosed) => Ready(Ok(()))
    case Err(Io(WouldBlock)) => Pending
    case Err(e) => Ready(Err(e))
  }

  lemma CloseAnswerIsOutcome(f: Flags, cx: Waker, res: Result<()>)
    ensures Unit(CloseAnswer(res)) == OutcomeOf(f, PollClose(cx), NO_REPLY.(unit := res))
    ensures CloseAnswer(res).Pending? <==> Blocked(res)
  {
    if res.Ok? {
      assert res.value == ();
    }
  }

  class WebSocketStream {
    const inner: WebSocket
    var closing: bool
    var ended: bool
    var ready: bool

    ghost predicate Valid() {
      inner.Valid()
    }

    ghost function Repr(): set<object> {
      {this, inner, inner.stream} + inner.stream.SlotCells()
    }

    ghost function View(): Conn
      reads this, inner, inner.stream
    {
      Conn(Flags(ready, closing, ended), inner.View())
    }

    ghost function Slots(): Slots
      reads inner.stream.SlotCells()
    {
      inner.stream.SlotView()
    }

    constructor (ws: WebSocket)
      requires ws.Valid()
      ensures Valid() && inner == ws
      ensures View() == Conn(FRESH_FLAGS, ws.View())
    {
      inner := ws;
      closing, ended, ready := false, false, true;
    }

    predicate IsTerminated()
      reads this
    {
      ended
    }

    method PollNext(cx: Waker) returns (r: Poll<Option<Result<Message>>>)
      requires Valid()
      modifies Repr()
      ensures (View(), Next(r)) == Step(old(View()), Call.PollNext(cx))
      ensures Slots() == if old(IsTerminated()) then old(Slots()) else SetBoth(old(Slots()), StreamSide, cx)
      ensures IsTerminated() <==> old(IsTerminated()) || (r.Ready? && !(r.value.Some? && r.value.value.Ok?))
      ensures old(IsTerminated()) ==> r == Ready(None)
      ensures r.Ready? && r.value.Some? && r.value.value.Err? ==>
                !r.value.value.error.ConnectionClosed? && !r.value.value.error.AlreadyClosed?
    {
      if ended {
        return Ready(None);
      }
      inner.stream.SetWaker(StreamSide, cx);
      var res := inner.ReadMessage();
      match Cvt(res) {
        case Pending => r := Pending;
        case Ready(Ok(v)) => r := Ready(Some(Ok(v)));
        case Ready(Err(e)) =>
          ended := true;
          if e.AlreadyClosed? || e.ConnectionClosed? {
            r := Ready(None);
          } else {
            r := Ready(Some(Err(e)));
          }
      }
    }

    method PollReady(cx: Waker) returns (r: Poll<Result<()>>)
      requires Valid()
      modifies Repr()
      ensures (View(), Unit(r)) == Step(old(View()), Call.PollReady(cx))
      ensures Slots() == if old(ready) then old(Slots()) else SetBoth(old(Slots()), SinkSide, cx)
      ensures ready <==> r.Ready?
    {
      if ready {
        return Ready(Ok(()));
      }
      inner.stream.SetWaker(SinkSide, cx);
      ghost var s := inner.View();
      var res := inner.FlushAll();
      assert Perform(s, FlushOp) == (inner.View(), NO_REPLY.(unit := res));
      r := Cvt(res);
      if r.Ready? {
        ready := true;
      }
    }

    method StartSend(item: Message) returns (r: Result<()>)
      requires Valid()
      modifies Repr()
      ensures (View(), Sent(r)) == Step(old(View()), Call.StartSend(item))
      ensures Slots() == old(Slots())
      ensures !ready ==> r == Ok(())
    {
      ghost var s := inner.View();
      var res := inner.WriteMessage(item);
      assert Perform(s, WriteOp(item)) == (inner.View(), NO_REPLY.(unit := res));
      match res {
        case Ok(_) =>
          ready := true;
          r := Ok(());
        case Err(e) =>
          if e == Io(WouldBlock) {
            ready := false;
            r := Ok(());
          } else {
            ready := true;
            r := Err(e);
          }
      }
    }

    method PollFlush(cx: Waker) returns (r: Poll<Result<()>>)
      requires Valid()
      modifies Repr()
      ensures (View(), Unit(r)) == Step(old(View()), Call.PollFlush(cx))
      ensures Slots() == SetBoth(old(Slots()), SinkSide, cx)
      ensures r.Ready? ==> ready && r != Ready(Err(ConnectionClosed))
    {
      inner.stream.SetWaker(SinkSide, cx);
      ghost var s := inner.View();
      var res := inner.FlushAll();
      assert Perform(s, FlushOp) == (inner.View(), NO_REPLY.(unit := res));
      r := Cvt(res);
      if r.Ready? {
        ready := true;
        if r.value.Err? && r.value.error.ConnectionClosed? {
          r := Ready(Ok(()));
        }
      }
    }

    /** The operation behind poll_close: start the closing handshake, or drive it on. */
    method DriveClose(cx: Waker) returns (res: Result<()>)
      requires Valid()
      modifies inner, inner.stream, inner.stream.SlotCells()
      ensures (inner.View(), NO_REPLY.(unit := res))
              == Perform(WithContext(old(inner.View()), Call.PollClose(cx)), if closing then FlushOp else CloseOp)
      ensures Slots() == SetBoth(old(Slots()), SinkSide, cx)
    {
      inner.stream.SetWaker(SinkSide, cx);
      if closing {
        res := inner.FlushAll();
      } else {
        res := inner.CloseWith(CLOSE_NONE);
      }
    }

    method PollClose(cx: Waker) returns (r: Poll<Result<()>>)
      requires Valid()
      modifies Repr()
      ensures (View(), Unit(r)) == Step(old(View()), Call.PollClose(cx))
      ensures Slots() == SetBoth(old(Slots()), SinkSide, cx)
      ensures ready && (closing <==> old(closing) || r.Pending?)
    {
      ready := true;
      var res := DriveClose(cx);
      r := CloseAnswer(res);
      if r.Pending? {
        closing := true;
      }
      ghost var f, call, rep := old(View()).flags, Call.PollClose(cx), NO_REPLY.(unit := res);
      CloseAnswerIsOutcome(f, cx, res);
      assert Step(old(View()), call).0 == Conn(FlagsAfter(f, call, rep), inner.View());
      assert Step(old(View()), call).1 == OutcomeOf(f, call, rep);
    }
  }
}
