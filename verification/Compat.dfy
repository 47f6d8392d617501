/**
 The adapter between the blocking interface of the WebSocket implementation and the polled socket:
 waker slots, waker proxies, and read/write/flush that turn Pending into WouldBlock.
 */
module Compat {
  import opened Basics
  import opened Framing

  // ----- the polled socket, which is the environment

  /** What the socket does when polled next: `Go` reads `chunk` (empty: end of file) or accepts up to `amount` bytes. */
  datatype Answer = Block | Fail(code: nat) | Go(amount: nat, chunk: seq<byte>)

  /** An operation as the socket has seen it: the proxy and the bytes it was handed, and what it answered. */
  datatype Exchange =
    | DidRead(proxy: Dir, read: Poll<Result<seq<byte>>>)
    | DidWrite(proxy: Dir, offered: seq<byte>, wrote: Poll<Result<nat>>)
    | DidFlush(proxy: Dir, flushed: Poll<Result<()>>)
  {
    function Way(): Dir {
      if DidRead? then Inbound else Outbound
    }

    predicate Waits() {
      match this
      case DidRead(_, r) => r.Pending?
      case DidWrite(_, _, r) => r.Pending?
      case DidFlush(_, r) => r.Pending?
    }
  }

  /**
   The socket: the answers it is going to give (none left means Block), all bytes it has accepted
   and delivered so far, the proxy it remembers for each direction, and its own record of operations.
   */
  datatype Net = Net(
    plan: seq<Answer>,
    sent: seq<byte>,
    got: seq<byte>,
    held: PerDir<Option<Dir>>,
    record: seq<Exchange>)
  {
    function Next(): Answer {
      if plan == [] then Block else plan[0]
    }

    function Rest(): seq<Answer> {
      if plan == [] then [] else plan[1..]
    }

    /** An answer is used up and recorded; answering Pending, the socket remembers the proxy. */
    function Did(io: Exchange): Net {
      this.(plan := Rest(), record := record + [io],
            held := if io.Waits() then held.Put(io.Way(), Some(io.proxy)) else held)
    }

    /** Between two polls: more answers get ready, and a new record of operations begins. */
    function Offer(answers: seq<Answer>): Net {
      this.(plan := plan + answers, record := [])
    }
  }

  function PollRead(net: Net, proxy: Dir): (r: (Net, Poll<Result<seq<byte>>>))
    ensures r.1.Ready? && r.1.value.Ok? ==> |r.0.plan| < |net.plan|
  {
    match net.Next()
    case Block => (net.Did(DidRead(proxy, Pending)), Pending)
    case Fail(code) =>
      var e := Err(Io(Other(code)));
      (net.Did(DidRead(proxy, Ready(e))), Ready(e))
    case Go(_, chunk) => (net.Did(DidRead(proxy, Ready(Ok(chunk)))).(got := net.got + chunk), Ready(Ok(chunk)))
  }

  function PollWrite(net: Net, proxy: Dir, buf: seq<byte>): (r: (Net, Poll<Result<nat>>))
    ensures r.1.Ready? && r.1.value.Ok? ==>
              r.1.value.value <= |buf| && r.0.sent == net.sent + buf[..r.1.value.value] && |r.0.plan| < |net.plan|
  {
    match net.Next()
    case Block => (net.Did(DidWrite(proxy, buf, Pending)), Pending)
    case Fail(code) =>
      var e := Err(Io(Other(code)));
      (net.Did(DidWrite(proxy, buf, Ready(e))), Ready(e))
    case Go(amount, _) =>
      var n := if amount <= |buf| then amount else |buf|;
      (net.Did(DidWrite(proxy, buf, Ready(Ok(n)))).(sent := net.sent + buf[..n]), Ready(Ok(n)))
  }

  function PollFlush(net: Net, proxy: Dir): (Net, Poll<Result<()>>) {
    match net.Next()
    case Block => (net.Did(DidFlush(proxy, Pending)), Pending)
    case Fail(code) =>
      var e := Err(Io(Other(code)));
      (net.Did(DidFlush(proxy, Ready(e))), Ready(e))
    case Go(_, _) => (net.Did(DidFlush(proxy, Ready(Ok(())))), Ready(Ok(())))
  }

  // ----- the adapter as a value

  /** A registration in both proxies, made when the socket had recorded `at` operations. */
  datatype Registration = Registration(side: Side, waker: Waker, at: nat)

  function FromPoll<T>(p: Poll<Result<T>>): Result<T> {
    match p
    case Pending => Err(Io(WouldBlock))
    case Ready(r) => r
  }

  /** The adapter's abstract value; its operations specify the methods of class AllowStd. */
  datatype Std = Std(net: Net, log: seq<Registration>) {
    function SetWaker(side: Side, w: Waker): Std {
      Std(net, log + [Registration(side, w, |net.record|)])
    }

    function Read(): (r: (Std, Result<seq<byte>>))
      ensures r.1.Ok? ==> |r.0.net.plan| < |net.plan|
      ensures r.0.net.record == net.record + [DidRead(Inbound, Cvt(r.1))]
    {
      var (n, p) := PollRead(net, Inbound);
      (Std(n, log), FromPoll(p))
    }

    function Write(buf: seq<byte>): (r: (Std, Result<nat>))
      ensures r.1.Ok? ==>
                r.1.value <= |buf| && r.0.net.sent == net.sent + buf[..r.1.value] && |r.0.net.plan| < |net.plan|
      ensures r.0.net.record == net.record + [DidWrite(Outbound, buf, Cvt(r.1))]
    {
      var (n, p) := PollWrite(net, Outbound, buf);
      (Std(n, log), FromPoll(p))
    }

    function Flush(): (r: (Std, Result<()>))
      ensures r.0.net.record == net.record + [DidFlush(Outbound, Cvt(r.1))]
    {
      var (n, p) := PollFlush(net, Outbound);
      (Std(n, log), FromPoll(p))
    }
  }

  /** cvt: a WouldBlock from below becomes Pending again. */
  function Cvt<T>(r: Result<T>): Poll<Result<T>> {
    if Blocked(r) then Pending else Ready(r)
  }

  /** Pending survives the trip through the blocking interface, and nothing else becomes Pending. */
  lemma CvtRestoresPoll<T>(p: Poll<Result<T>>)
    requires p.Ready? ==> !Blocked(p.value) // polled sockets never report WouldBlock as an error
    ensures Cvt(FromPoll(p)) == p
  {
  }

  // ----- the classes

  /** An atomic slot for one waker. */
  class AtomicWaker {
    var slot: Option<Waker>

    constructor ()
      ensures slot == None
    {
      slot := None;
    }

    method Register(w: Waker)
      modifies this
      ensures slot == Some(w)
    {
      slot := Some(w);
    }

    /** Takes the waker out and wakes it. */
    method Wake() returns (woken: Option<Waker>)
      modifies this
      ensures slot == None && woken == old(slot)
    {
      woken := slot;
      slot := None;
    }
  }

  class WakerProxy {
    const id: Dir
    const readWaker: AtomicWaker
    const writeWaker: AtomicWaker

    ghost predicate Valid() {
      readWaker != writeWaker
    }

    ghost function View(): PerSide<Option<Waker>>
      reads readWaker, writeWaker
    {
      PerSide(readWaker.slot, writeWaker.slot)
    }

    constructor (id: Dir)
      ensures Valid() && fresh(readWaker) && fresh(writeWaker)
      ensures this.id == id && View() == PerSide(None, None)
    {
      this.id := id;
      var r := new AtomicWaker();
      var w := new AtomicWaker();
      readWaker := r;
      writeWaker := w;
    }

    /** Wakes and empties both slots, the stream's first. */
    method WakeByRef() returns (woken: PerSide<Option<Waker>>)
      requires Valid()
      modifies readWaker, writeWaker
      ensures woken == old(View()) && View() == PerSide(None, None)
    {
      var r := readWaker.Wake();
      var w := writeWaker.Wake();
      woken := PerSide(r, w);
    }
  }

  class AllowStd {
    var inner: Net
    const writeWakerProxy: WakerProxy
    const readWakerProxy: WakerProxy
    ghost var log: seq<Registration>

    ghost predicate Valid() {
      && writeWakerProxy.id == Outbound && readWakerProxy.id == Inbound
      && writeWakerProxy.Valid() && readWakerProxy.Valid()
      && {writeWakerProxy.readWaker, writeWakerProxy.writeWaker}
         !! {readWakerProxy.readWaker, readWakerProxy.writeWaker}
    }

    ghost function SlotCells(): set<AtomicWaker> {
      {writeWakerProxy.readWaker, writeWakerProxy.writeWaker, readWakerProxy.readWaker, readWakerProxy.writeWaker}
    }

    ghost function SlotView(): Slots
      reads SlotCells()
    {
      PerDir(readWakerProxy.View(), writeWakerProxy.View())
    }

    ghost function View(): Std
      reads this
    {
      Std(inner, log)
    }

    /** AllowStd::new: the given waker becomes the stream waker of both proxies. */
    constructor (inner: Net, waker: Waker)
      ensures Valid() && fresh(SlotCells())
      ensures View() == Std(inner, [])
      ensures SlotView() == SetBoth(PerDir(PerSide(None, None), PerSide(None, None)), StreamSide, waker)
    {
      this.inner := inner;
      var w := new WakerProxy(Outbound);
      var r := new WakerProxy(Inbound);
      writeWakerProxy := w;
      readWakerProxy := r;
      log := [];
      new;
      writeWakerProxy.readWaker.Register(waker);
      readWakerProxy.readWaker.Register(waker);
    }

    method SetWaker(kind: Side, waker: Waker)
      requires Valid()
      modifies this`log, SlotCells()
      ensures SlotView() == SetBoth(old(SlotView()), kind, waker)
      ensures View() == old(View()).SetWaker(kind, waker)
    {
      match kind {
        case StreamSide =>
          writeWakerProxy.readWaker.Register(waker);
          readWakerProxy.readWaker.Register(waker);
        case SinkSide =>
          writeWakerProxy.writeWaker.Register(waker);
          readWakerProxy.writeWaker.Register(waker);
      }
      log := log + [Registration(kind, waker, |inner.record|)];
    }

    /** Between polls: the socket gets ready to give more answers, and a new record of operations begins. */
    method Environment(answers: seq<Answer>)
      modifies this
      ensures View() == Std(old(inner).Offer(answers), [])
    {
      inner := inner.Offer(answers);
      log := [];
    }

    /** The proxy with_context passes to an operation. */
    function ContextFor(kind: Dir): (proxy: WakerProxy)
      requires Valid()
      ensures proxy.id == kind
    {
      match kind
      case Inbound => readWakerProxy
      case Outbound => writeWakerProxy
    }

    method Read() returns (r: Result<seq<byte>>)
      requires Valid()
      modifies this
      ensures (View(), r) == old(View()).Read()
      ensures inner.record == old(inner.record) + [DidRead(Inbound, Cvt(r))]
    {
      var ctx := ContextFor(Inbound).id;
      var (stream, polled) := PollRead(inner, ctx);
      inner := stream;
      match polled {
        case Ready(v) => r := v;
        case Pending => r := Err(Io(WouldBlock));
      }
    }

    method Write(buf: seq<byte>) returns (r: Result<nat>)
      requires Valid()
      modifies this
      ensures (View(), r) == old(View()).Write(buf)
      ensures inner.record == old(inner.record) + [DidWrite(Outbound, buf, Cvt(r))]
    {
      var ctx := ContextFor(Outbound).id;
      var (stream, polled) := PollWrite(inner, ctx, buf);
      inner := stream;
      match polled {
        case Ready(v) => r := v;
        case Pending => r := Err(Io(WouldBlock));
      }
    }

    method Flush() returns (r: Result<()>)
      requires Valid()
      modifies this
      ensures (View(), r) == old(View()).Flush()
      ensures inner.record == old(inner.record) + [DidFlush(Outbound, Cvt(r))]
    {
      var ctx := ContextFor(Outbound).id;
      var (stream, polled) := PollFlush(inner, ctx);
      inner := stream;
      match polled {
        case Ready(v) => r := v;
        case Pending => r := Err(Io(WouldBlock));
      }
    }
  }
}
