/**
 What the proxies buy: over a socket that remembers one waker per direction they behave like an
 ideal socket that remembers a waiter of each side, and no registered waker is dropped silently.
 */
module WakerSimulation {
  import opened Basics
  import opened WakerProtocol

  /**
   An ideal socket: per direction it remembers the latest waiter of each side, and an event wakes
   all of them at once. A new poll of a side replaces what that side waited for before.
   */
  datatype Ideal = Ideal(waiters: Slots, latest: PerSide<Option<Waker>>, woken: PerSide<bool>)

  function IdealInit(w: Waker): Ideal {
    Ideal(PerDir(PerSide(None, None), PerSide(None, None)), PerSide(Some(w), None), PerSide(false, false))
  }

  /** The ideal socket's answer to an action of the same program; `running` tells who operates. */
  function IdealApply(i: Ideal, running: Running, a: Action): Ideal {
    match a
    case BeginPoll(side, w) =>
      Ideal(PerDir(i.waiters.inbound.Put(side, None), i.waiters.outbound.Put(side, None)),
            i.latest.Put(side, Some(w)), i.woken.Put(side, false))
    case SocketOp(d, blocked) =>
      if blocked && running.Polling? then
        i.(waiters := PutSlot(i.waiters, d, running.side, i.latest.Get(running.side)))
      else i
    case ReactorEvent(d) =>
      var here := i.waiters.Get(d);
      i.(waiters := i.waiters.Put(d, PerSide(None, None)),
         woken := PerSide(i.woken.stream || here.stream.Some?, i.woken.sink || here.sink.Some?))
    case _ => i
  }

  function IdealRun(i: Ideal, s: State, t: seq<Action>): Ideal
    requires ValidFrom(s, t)
    decreases |t|
  {
    if t == [] then i else IdealRun(IdealApply(i, s.running, t[0]), Apply(s, t[0]), t[1..])
  }

  predicate SimSide(s: State, i: Ideal, side: Side) {
    && i.latest.Get(side) == s.tasks.Get(side).waker
    && (i.woken.Get(side) ==> WakeAssured(s, side, Inbound) || WakeAssured(s, side, Outbound))
    && forall d: Dir :: SlotAt(i.waiters, d, side).Some? ==>
        && SlotAt(i.waiters, d, side) == s.tasks.Get(side).waker
        && d in s.tasks.Get(side).waiting
        && s.held.Get(d) == Some(d)
  }

  lemma EventKeepsSim(s: State, i: Ideal, d: Dir, side: Side)
    requires Inv(s) && SimSide(s, i, side)
    ensures SimSide(AfterEvent(s, d), IdealApply(i, s.running, ReactorEvent(d)), side)
  {
    var s' := AfterEvent(s, d);
    assert InvSide(s, side);
    forall e: Dir | WakeAssured(s, side, e) ensures WakeAssured(s', side, e) {
      WakeStaysAssured(s, ReactorEvent(d), side, e);
    }
    if SlotAt(i.waiters, d, side).Some? {
      assert WakeAssured(s', side, d);
    }
  }

  lemma OpKeepsSim(s: State, i: Ideal, d: Dir, blocked: bool, side: Side)
    requires Inv(s) && Enabled(s, SocketOp(d, blocked)) && SimSide(s, i, side)
    ensures SimSide(AfterOp(s, d, blocked), IdealApply(i, s.running, SocketOp(d, blocked)), side)
  {
    forall e: Dir | WakeAssured(s, side, e) ensures WakeAssured(AfterOp(s, d, blocked), side, e) {
      WakeStaysAssured(s, SocketOp(d, blocked), side, e);
    }
  }

  lemma StutterKeepsSim(s: State, i: Ideal, a: Action, side: Side)
    requires Inv(s) && Enabled(s, a) && SimSide(s, i, side)
    requires !a.ReactorEvent? && !a.SocketOp?
    ensures SimSide(Apply(s, a), IdealApply(i, s.running, a), side)
  {
    if a.WakeSlot? {
      WakeEffect(s, a.flight, side);
    }
    if !(a.BeginPoll? && a.side == side) {
      forall e: Dir | WakeAssured(s, side, e) ensures WakeAssured(Apply(s, a), side, e) {
        WakeStaysAssured(s, a, side, e);
      }
    }
  }

  lemma SimPreserved(s: State, i: Ideal, a: Action, side: Side)
    requires Inv(s) && Enabled(s, a) && SimSide(s, i, side)
    ensures SimSide(Apply(s, a), IdealApply(i, s.running, a), side)
  {
    match a
    case ReactorEvent(d) => EventKeepsSim(s, i, d, side);
    case SocketOp(d, blocked) => OpKeepsSim(s, i, d, blocked, side);
    case _ => StutterKeepsSim(s, i, a, side);
  }

  lemma {:induction false} SimRun(s: State, i: Ideal, t: seq<Action>, side: Side)
    requires Inv(s) && SimSide(s, i, side) && ValidFrom(s, t)
    ensures SimSide(RunFrom(s, t), IdealRun(i, s, t), side)
    decreases |t|
  {
    if t != [] {
      InvPreserved(s, t[0]);
      SimPreserved(s, i, t[0], side);
      SimRun(Apply(s, t[0]), IdealApply(i, s.running, t[0]), t[1..], side);
    }
  }

  /**
   Simulation: in every run, a side that the ideal socket has woken since its last poll began has
   been woken by the proxies too, or a started wake is on its way to it; with no started wake left, it is woken.
   */
  lemma ProxiesSimulateIdeal(w: Waker, t: seq<Action>, side: Side)
    requires ValidFrom(Init(w), t)
    requires IdealRun(IdealInit(w), Init(w), t).woken.Get(side)
    ensures WakeAssured(RunFrom(Init(w), t), side, Inbound) || WakeAssured(RunFrom(Init(w), t), side, Outbound)
    ensures RunFrom(Init(w), t).flights == multiset{} ==> RunFrom(Init(w), t).tasks.Get(side).woken
  {
    SimRun(Init(w), IdealInit(w), t, side);
  }

  // ----- without the proxies

  /** The socket of the wrapper's rationale: each task hands it its own waker and it keeps the latest per direction. */
  type Direct = PerDir<Option<Side>>

  function DirectApply(held: Direct, running: Running, a: Action): Direct {
    match a
    case SocketOp(d, blocked) => if blocked && running.Polling? then held.Put(d, Some(running.side)) else held
    case ReactorEvent(d) => held.Put(d, None)
    case _ => held
  }

  function DirectRun(held: Direct, s: State, t: seq<Action>): Direct
    requires ValidFrom(s, t)
    decreases |t|
  {
    if t == [] then held else DirectRun(DirectApply(held, s.running, t[0]), Apply(s, t[0]), t[1..])
  }

  /** The other side has blocked on direction `d` since `side` last did; `now` says so of the past. */
  predicate Overtaken(s: State, t: seq<Action>, d: Dir, side: Side, now: bool)
    requires ValidFrom(s, t)
    decreases |t|
  {
    if t == [] then now
    else
      var blocks := t[0] == SocketOp(d, true) && s.running.Polling?;
      Overtaken(Apply(s, t[0]), t[1..], d, side, if blocks then s.running.side != side else now)
  }

  lemma {:induction false} DirectTracks(held: Direct, i: Ideal, s: State, t: seq<Action>, d: Dir, side: Side, now: bool)
    requires ValidFrom(s, t)
    requires SlotAt(i.waiters, d, side).Some? ==> (held.Get(d) == Some(side) <==> !now)
    ensures SlotAt(IdealRun(i, s, t).waiters, d, side).Some? ==>
              (DirectRun(held, s, t).Get(d) == Some(side) <==> !Overtaken(s, t, d, side, now))
    decreases |t|
  {
    if t != [] {
      var blocks := t[0] == SocketOp(d, true) && s.running.Polling?;
      var held', i' := DirectApply(held, s.running, t[0]), IdealApply(i, s.running, t[0]);
      DirectTracks(held', i', Apply(s, t[0]), t[1..], d, side, if blocks then s.running.side != side else now);
    }
  }

  /**
   When the proxies are needed: in every run, a side the ideal socket would wake on direction `d` is one the
   direct socket still remembers exactly if the other side has not blocked on that direction since; the direct
   socket loses every waiter that has been overtaken, and the proxies lose none.
   */
  lemma DirectSocketLosesOvertaken(w: Waker, t: seq<Action>, d: Dir, side: Side)
    requires ValidFrom(Init(w), t)
    requires SlotAt(IdealRun(IdealInit(w), Init(w), t).waiters, d, side).Some?
    ensures DirectRun(PerDir(None, None), Init(w), t).Get(d) != Some(side) <==> Overtaken(Init(w), t, d, side, false)
    ensures var s := RunFrom(Init(w), t);
            s.held.Get(d) == Some(d) && (s.tasks.Get(side).woken || SlotAt(s.slots, d, side) == s.tasks.Get(side).waker)
  {
    DirectTracks(PerDir(None, None), IdealInit(w), Init(w), t, d, side, false);
    SimRun(Init(w), IdealInit(w), t, side);
    InvRun(Init(w), t);
    assert InvSide(RunFrom(Init(w), t), side);
  }

  /** It does happen: when both sides block on writing, an event wakes the later one only, the ideal socket both. */
  lemma DirectSocketForgetsWaiter(stream: Waker, sink: Waker)
    ensures
      var h1 := DirectApply(PerDir(None, None), Polling(StreamSide), SocketOp(Outbound, true));
      DirectApply(h1, Polling(SinkSide), SocketOp(Outbound, true)).Get(Outbound) == Some(SinkSide)
    ensures
      var none := PerSide(None, None);
      var i0 := Ideal(PerDir(none, none), PerSide(Some(stream), Some(sink)), PerSide(false, false));
      var i1 := IdealApply(i0, Polling(StreamSide), SocketOp(Outbound, true));
      var i2 := IdealApply(i1, Polling(SinkSide), SocketOp(Outbound, true));
      IdealApply(i2, Idle, ReactorEvent(Outbound)).woken == PerSide(true, true)
  {
  }

  // ----- conservation of registered wakers

  /** What happened to one slot over a run. */
  datatype Tally = Tally(registered: nat, delivered: nat, overwritten: nat)

  function Occupied(s: State, d: Dir, side: Side): nat {
    if SlotAt(s.slots, d, side).Some? then 1 else 0
  }

  function Count(s: State, t: seq<Action>, d: Dir, side: Side): Tally
    requires ValidFrom(s, t)
    decreases |t|
  {
    if t == [] then Tally(0, 0, 0)
    else
      var rest := Count(Apply(s, t[0]), t[1..], d, side);
      if t[0].Register? && s.running == Registering(side, d) then
        rest.(registered := rest.registered + 1, overwritten := rest.overwritten + Occupied(s, d, side))
      else if t[0] == WakeSlot(Flight(d, side)) then
        rest.(delivered := rest.delivered + Occupied(s, d, side))
      else rest
  }

  function SetWakerCalls(t: seq<Action>, side: Side): nat {
    if t == [] then 0
    else (if t[0].BeginPoll? && t[0].side == side then 1 else 0) + SetWakerCalls(t[1..], side)
  }

  lemma RegisterBalance(s: State, d: Dir, side: Side)
    requires Inv(s) && s.running.Registering?
    ensures Occupied(AfterRegister(s), d, side) == if s.running == Registering(side, d) then 1 else Occupied(s, d, side)
  {
  }

  lemma WakeBalance(s: State, f: Flight, d: Dir, side: Side)
    ensures Occupied(AfterWake(s, f), d, side) == if f == Flight(d, side) then 0 else Occupied(s, d, side)
  {
  }

  /** One step's contribution to the balance of a slot. */
  lemma SlotBalance(s: State, a: Action, d: Dir, side: Side)
    requires Inv(s) && Enabled(s, a)
    ensures
      Occupied(Apply(s, a), d, side) ==
        if a.Register? && s.running == Registering(side, d) then 1
        else if a == WakeSlot(Flight(d, side)) then 0
        else Occupied(s, d, side)
  {
    match a
    case Register => RegisterBalance(s, d, side);
    case WakeSlot(f) => WakeBalance(s, f, d, side);
    case _ => assert Apply(s, a).slots == s.slots;
  }

  /** Every waker put into a slot is delivered, overwritten by a later registration, or still there. */
  lemma {:induction false} WakersConserved(s: State, t: seq<Action>, d: Dir, side: Side)
    requires Inv(s) && ValidFrom(s, t)
    ensures var c := Count(s, t, d, side);
            Occupied(s, d, side) + c.registered == c.delivered + c.overwritten + Occupied(RunFrom(s, t), d, side)
    decreases |t|
  {
    if t != [] {
      InvPreserved(s, t[0]);
      SlotBalance(s, t[0], d, side);
      WakersConserved(Apply(s, t[0]), t[1..], d, side);
    }
  }

  /** The registration into slot (d, side) that a set_waker call in progress still owes. */
  function Owed(s: State, d: Dir, side: Side): nat {
    if s.running.Registering? && s.running.side == side && (d.Inbound? || s.running.next.Outbound?) then 1 else 0
  }

  lemma {:induction false} OneRegistrationPerCall(s: State, t: seq<Action>, d: Dir, side: Side)
    requires ValidFrom(s, t)
    ensures Count(s, t, d, side).registered + Owed(RunFrom(s, t), d, side) == SetWakerCalls(t, side) + Owed(s, d, side)
    decreases |t|
  {
    if t != [] {
      OneRegistrationPerCall(Apply(s, t[0]), t[1..], d, side);
    }
  }

  /** A side is woken through its slots at most twice per set_waker call, plus twice for construction. */
  lemma WakesBounded(w: Waker, t: seq<Action>, side: Side)
    requires ValidFrom(Init(w), t)
    ensures Count(Init(w), t, Inbound, side).delivered + Count(Init(w), t, Outbound, side).delivered
            <= 2 * SetWakerCalls(t, side) + (if side.StreamSide? then 2 else 0)
  {
    WakersConserved(Init(w), t, Inbound, side);
    WakersConserved(Init(w), t, Outbound, side);
    OneRegistrationPerCall(Init(w), t, Inbound, side);
    OneRegistrationPerCall(Init(w), t, Outbound, side);
  }
}
