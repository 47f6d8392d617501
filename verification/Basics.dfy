/** Vocabulary shared by all parts of the model. */
module Basics {

  datatype Option<+T> = None | Some(value: T)

  datatype Poll<+T> = Pending | Ready(value: T)

  /** I/O error kinds. WouldBlock is the one the wrapper translates from and to Pending. */
  datatype ErrorKind = WouldBlock | ConnectionReset | Other(code: nat)

  datatype WsError =
    | Io(kind: ErrorKind)
    | ConnectionClosed
    | AlreadyClosed
    | SendAfterClosing
    | ReceivedAfterClosing
    | ResetWithoutClosing
    | BadFrame

  datatype Result<+T> = Ok(value: T) | Err(error: WsError)

  predicate Blocked<T>(r: Result<T>) {
    r.Err? && r.error == Io(WouldBlock)
  }

  /** A task's waker, as an identity. Two tasks, or two polls of one task, may share one. */
  type Waker = nat

  /** Who calls: the Stream impl (ContextWaker::Read in set_waker) or the Sink impl (ContextWaker::Write). */
  datatype Side = StreamSide | SinkSide

  /** Which half of the socket an operation uses; also names the proxy of that half. */
  datatype Dir = Inbound | Outbound

  datatype PerSide<T> = PerSide(stream: T, sink: T) {
    function Get(s: Side): T {
      if s.StreamSide? then stream else sink
    }

    function Put(s: Side, v: T): PerSide<T> {
      if s.StreamSide? then PerSide(v, sink) else PerSide(stream, v)
    }
  }

  datatype PerDir<T> = PerDir(inbound: T, outbound: T) {
    function Get(d: Dir): T {
      if d.Inbound? then inbound else outbound
    }

    function Put(d: Dir, v: T): PerDir<T> {
      if d.Inbound? then PerDir(v, outbound) else PerDir(inbound, v)
    }
  }

  /** The four waker slots: for each proxy, its read_waker (stream) and write_waker (sink) slot. */
  type Slots = PerDir<PerSide<Option<Waker>>>

  function SlotAt(slots: Slots, d: Dir, s: Side): Option<Waker> {
    slots.Get(d).Get(s)
  }

  function PutSlot(slots: Slots, d: Dir, s: Side, v: Option<Waker>): Slots {
    slots.Put(d, slots.Get(d).Put(s, v))
  }

  /** What an undisturbed set_waker leaves behind. */
  function SetBoth(slots: Slots, s: Side, w: Waker): Slots {
    PutSlot(PutSlot(slots, Outbound, s, Some(w)), Inbound, s, Some(w))
  }
}
