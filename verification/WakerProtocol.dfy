/**
 The waker-proxy protocol as a step system.

 Two tasks, one per side, share a socket that remembers a single waker per direction. A poll
 registers its waker in one slot of each proxy (two separate steps), then operates on the socket.
 The reactor, and every wake it has started, interleave with the polls at any point; a wake
 visits the two slots of its proxy in two separate steps. Task polls exclude each other, because
 every poll method takes the stream by exclusive reference.
 */
module WakerProtocol {
  import opened Basics

  /** A running wake_by_ref on `proxy`; `next` is the slot it will take next. */
  datatype Flight = Flight(proxy: Dir, next: Side)

  datatype Running =
    | Idle
    | Registering(side: Side, next: Dir) // inside set_waker, about to fill the slot of proxy `next`
    | Polling(side: Side)                // set_waker is done, socket operations may follow
    | Sending                            // start_send: socket operations without a waker

  /** What is known of a side since its latest poll began. */
  datatype Task = Task(waker: Option<Waker>, registered: set<Dir>, waiting: set<Dir>, woken: bool, pending: bool)

  datatype State = State(
    slots: Slots,
    held: PerDir<Option<Dir>>, // per direction, the proxy the socket remembers
    ready: PerDir<bool>,       // an event arrived and the socket has not said Pending since
    flights: multiset<Flight>,
    running: Running,
    tasks: PerSide<Task>)

  datatype Action =
    | BeginPoll(side: Side, waker: Waker)
    | BeginSend
    | Register
    | SocketOp(dir: Dir, blocked: bool)
    | EndPoll(pending: bool)
    | ReactorEvent(dir: Dir)
    | WakeSlot(flight: Flight)

  /** with_context always hands a direction its own proxy. */
  function ProxyFor(d: Dir): Dir {
    match d
    case Inbound => Inbound
    case Outbound => Outbound
  }

  /** The stream as AllowStd::new leaves it, in the middle of the first (handshake) poll. */
  function Init(w: Waker): State {
    State(
      SetBoth(PerDir(PerSide(None, None), PerSide(None, None)), StreamSide, w),
      PerDir(None, None), PerDir(false, false), multiset{}, Polling(StreamSide),
      PerSide(Task(Some(w), {Inbound, Outbound}, {}, false, false), Task(None, {}, {}, false, false)))
  }

  predicate Enabled(s: State, a: Action) {
    match a
    case BeginPoll(_, _) => s.running.Idle?
    case BeginSend => s.running.Idle?
    case Register => s.running.Registering?
    case SocketOp(_, _) => s.running.Polling? || s.running.Sending?
    // a poll returns Pending only after one of its operations did
    case EndPoll(pending) =>
      if s.running.Polling? then pending ==> s.tasks.Get(s.running.side).waiting != {}
      else s.running.Sending? && !pending
    case ReactorEvent(_) => true
    case WakeSlot(f) => f in s.flights
  }

  /** Waking `w` reaches every side whose latest poll came with that waker. */
  function Notify(tasks: PerSide<Task>, w: Option<Waker>): PerSide<Task> {
    if w.None? then tasks
    else PerSide(
      if tasks.stream.waker == w then tasks.stream.(woken := true) else tasks.stream,
      if tasks.sink.waker == w then tasks.sink.(woken := true) else tasks.sink)
  }

  function AfterRegister(s: State): State
    requires s.running.Registering?
  {
    var side, d := s.running.side, s.running.next;
    var task := s.tasks.Get(side);
    s.(slots := PutSlot(s.slots, d, side, task.waker),
       tasks := s.tasks.Put(side, task.(registered := task.registered + {d})),
       running := if d.Outbound? then Registering(side, Inbound) else Polling(side))
  }

  function AfterOp(s: State, d: Dir, blocked: bool): State {
    if !blocked then s
    else
      var s' := s.(held := s.held.Put(d, Some(ProxyFor(d))), ready := s.ready.Put(d, false));
      if s.running.Polling? then
        var task := s.tasks.Get(s.running.side);
        s'.(tasks := s.tasks.Put(s.running.side, task.(waiting := task.waiting + {d})))
      else s'
  }

  function AfterEvent(s: State, d: Dir): State {
    var s' := s.(ready := s.ready.Put(d, true));
    match s.held.Get(d)
    case None => s'
    case Some(p) => s'.(held := s.held.Put(d, None), flights := s.flights + multiset{Flight(p, StreamSide)})
  }

  function AfterWake(s: State, f: Flight): State {
    s.(slots := PutSlot(s.slots, f.proxy, f.next, None),
       tasks := Notify(s.tasks, SlotAt(s.slots, f.proxy, f.next)),
       flights := s.flights - multiset{f}
         + (if f.next.StreamSide? then multiset{Flight(f.proxy, SinkSide)} else multiset{}))
  }

  function Apply(s: State, a: Action): State
    requires Enabled(s, a)
  {
    match a
    case BeginPoll(side, w) =>
      s.(running := Registering(side, Outbound), tasks := s.tasks.Put(side, Task(Some(w), {}, {}, false, false)))
    case BeginSend => s.(running := Sending)
    case Register => AfterRegister(s)
    case SocketOp(d, blocked) => AfterOp(s, d, blocked)
    case EndPoll(pending) =>
      if s.running.Polling? then
        var side := s.running.side;
        s.(running := Idle, tasks := s.tasks.Put(side, s.tasks.Get(side).(pending := pending)))
      else s.(running := Idle)
    case ReactorEvent(d) => AfterEvent(s, d)
    case WakeSlot(f) => AfterWake(s, f)
  }

  /** Runs from an arbitrary state. */
  predicate ValidFrom(s: State, t: seq<Action>)
    decreases |t|
  {
    t == [] || (Enabled(s, t[0]) && ValidFrom(Apply(s, t[0]), t[1..]))
  }

  function RunFrom(s: State, t: seq<Action>): State
    requires ValidFrom(s, t)
    decreases |t|
  {
    if t == [] then s else RunFrom(Apply(s, t[0]), t[1..])
  }

  ghost predicate Reachable(s: State) {
    exists w: Waker, t: seq<Action> :: ValidFrom(Init(w), t) && RunFrom(Init(w), t) == s
  }

  /** A wake already started on proxy `d` has yet to take side `s`'s slot. */
  predicate WillVisit(flights: multiset<Flight>, d: Dir, s: Side) {
    Flight(d, StreamSide) in flights || Flight(d, s) in flights
  }

  /** Side `s` was told Pending on `d` in its latest poll and has not been woken since that poll began. */
  predicate Sleeping(s: State, side: Side, d: Dir) {
    d in s.tasks.Get(side).waiting && !s.tasks.Get(side).woken
  }

  // ----- the inductive invariant

  predicate InvSide(s: State, side: Side) {
    var task := s.tasks.Get(side);
    && task.waiting <= task.registered
    && (task.pending ==> task.waiting != {})
    && (task.registered != {} ==> task.waker.Some?)
    && forall d: Dir ::
      && (d in task.registered && !task.woken ==> SlotAt(s.slots, d, side) == task.waker)
      && (Sleeping(s, side, d) ==> s.held.Get(d) == Some(d) || WillVisit(s.flights, d, side))
  }

  predicate InvDir(s: State, d: Dir) {
    && (s.held.Get(d) == None || s.held.Get(d) == Some(d))
    && (s.ready.Get(d) ==> s.held.Get(d) == None)
  }

  predicate InvRunning(s: State) {
    match s.running
    case Registering(side, next) =>
      s.tasks.Get(side).waker.Some? && (next.Inbound? ==> Outbound in s.tasks.Get(side).registered)
    case Polling(side) => Inbound in s.tasks.Get(side).registered && Outbound in s.tasks.Get(side).registered
    case _ => true
  }

  predicate Inv(s: State) {
    && InvSide(s, StreamSide) && InvSide(s, SinkSide)
    && InvDir(s, Inbound) && InvDir(s, Outbound)
    && InvRunning(s)
  }

  lemma RegisterKeepsInv(s: State)
    requires Inv(s) && Enabled(s, Register)
    ensures Inv(Apply(s, Register))
  {
  }

  lemma OpKeepsInv(s: State, d: Dir, blocked: bool)
    requires Inv(s) && Enabled(s, SocketOp(d, blocked))
    ensures Inv(Apply(s, SocketOp(d, blocked)))
  {
  }

  lemma EventKeepsInv(s: State, d: Dir)
    requires Inv(s)
    ensures Inv(AfterEvent(s, d))
  {
    var s' := AfterEvent(s, d);
    forall f: Flight | f in s.flights ensures f in s'.flights {}
  }

  /** Which wakes are still coming after one slot of one proxy was taken. */
  lemma StillComing(s: State, f: Flight, d: Dir, side: Side)
    requires f in s.flights && WillVisit(s.flights, d, side)
    ensures WillVisit(AfterWake(s, f).flights, d, side) || (d == f.proxy && side == f.next)
  {
  }

  /** Taking one slot wakes its waker's owner, and leaves the other slots and who is asleep alone. */
  lemma WakeEffect(s: State, f: Flight, side: Side)
    ensures var s' := AfterWake(s, f);
            && s'.tasks.Get(side) == s.tasks.Get(side).(woken := s'.tasks.Get(side).woken)
            && (s.tasks.Get(side).woken ==> s'.tasks.Get(side).woken)
            && (var taken := SlotAt(s.slots, f.proxy, f.next);
                taken.Some? && taken == s.tasks.Get(side).waker ==> s'.tasks.Get(side).woken)
            && (forall d: Dir, x: Side :: !(d == f.proxy && x == f.next) ==>
                  SlotAt(s'.slots, d, x) == SlotAt(s.slots, d, x))
  {
  }

  lemma WakeKeepsSide(s: State, f: Flight, side: Side)
    requires InvSide(s, side) && f in s.flights
    ensures InvSide(AfterWake(s, f), side)
  {
    WakeEffect(s, f, side);
    forall d: Dir | WillVisit(s.flights, d, side)
      ensures WillVisit(AfterWake(s, f).flights, d, side) || (d == f.proxy && side == f.next)
    {
      StillComing(s, f, d, side);
    }
  }

  lemma WakeKeepsInv(s: State, f: Flight)
    requires Inv(s) && f in s.flights
    ensures Inv(AfterWake(s, f))
  {
    WakeKeepsSide(s, f, StreamSide);
    WakeKeepsSide(s, f, SinkSide);
  }

  lemma ControlKeepsInv(s: State, a: Action)
    requires Inv(s) && Enabled(s, a) && (a.BeginPoll? || a.BeginSend? || a.EndPoll?)
    ensures Inv(Apply(s, a))
  {
  }

  lemma InvPreserved(s: State, a: Action)
    requires Inv(s) && Enabled(s, a)
    ensures Inv(Apply(s, a))
  {
    match a
    case Register => RegisterKeepsInv(s);
    case SocketOp(d, blocked) => OpKeepsInv(s, d, blocked);
    case ReactorEvent(d) => EventKeepsInv(s, d);
    case WakeSlot(f) => WakeKeepsInv(s, f);
    case _ => ControlKeepsInv(s, a);
  }

  lemma {:induction false} InvRun(s: State, t: seq<Action>)
    requires Inv(s) && ValidFrom(s, t)
    ensures Inv(RunFrom(s, t))
    decreases |t|
  {
    if t != [] {
      InvPreserved(s, t[0]);
      InvRun(Apply(s, t[0]), t[1..]);
    }
  }

  lemma ReachableInv(s: State)
    requires Reachable(s)
    ensures Inv(s)
  {
    var w: Waker, t: seq<Action> :| ValidFrom(Init(w), t) && RunFrom(Init(w), t) == s;
    InvRun(Init(w), t);
  }

  // ----- main results

  /** Nothing is lost on any direction the side still sleeps on. */
  predicate NotLost(s: State, side: Side) {
    var task := s.tasks.Get(side);
    forall d: Dir :: Sleeping(s, side, d) ==>
      && task.waker.Some? && SlotAt(s.slots, d, side) == task.waker
      && (s.held.Get(d) == Some(d) || WillVisit(s.flights, d, side))
      && (s.flights == multiset{} ==> s.held.Get(d) == Some(d) && !s.ready.Get(d))
  }

  /**
   No lost wakeup: a side that was told Pending on a direction and has not been woken since that
   poll began still has its latest waker in that direction's proxy, and the proxy is either held by
   the socket or being woken by someone who has yet to reach the slot; with no wake under way, nothing
   has happened on that direction since.
   */
  lemma NoLostWakeup(s: State, side: Side)
    requires Reachable(s)
    ensures NotLost(s, side)
  {
    ReachableInv(s);
    assert InvSide(s, side);
    assert InvDir(s, Inbound) && InvDir(s, Outbound);
  }

  /** Each half of the socket only ever remembers its own proxy. */
  lemma OwnProxyOnly(s: State, d: Dir)
    requires Reachable(s)
    ensures s.held.Get(d) == None || s.held.Get(d) == Some(d)
  {
    ReachableInv(s);
    assert InvDir(s, d);
  }

  /** The side has been woken, or its latest waker sits in a slot that a started wake will take. */
  predicate WakeAssured(s: State, side: Side, d: Dir) {
    || s.tasks.Get(side).woken
    || (s.tasks.Get(side).waker.Some? && SlotAt(s.slots, d, side) == s.tasks.Get(side).waker
        && WillVisit(s.flights, d, side))
  }

  lemma WakeSlotKeepsAssured(s: State, f: Flight, side: Side, d: Dir)
    requires WakeAssured(s, side, d) && f in s.flights
    ensures WakeAssured(AfterWake(s, f), side, d)
  {
    WakeEffect(s, f, side);
    if WillVisit(s.flights, d, side) {
      StillComing(s, f, d, side);
    }
  }

  lemma WakeStaysAssured(s: State, a: Action, side: Side, d: Dir)
    requires WakeAssured(s, side, d) && Enabled(s, a)
    requires !(a.BeginPoll? && a.side == side)
    ensures WakeAssured(Apply(s, a), side, d)
  {
    if a.WakeSlot? {
      WakeSlotKeepsAssured(s, a.flight, side, d);
    } else {
      assert forall f: Flight :: f in s.flights ==> f in Apply(s, a).flights;
    }
  }

  lemma {:induction false} AssuredUntilWoken(s: State, t: seq<Action>, side: Side, d: Dir)
    requires WakeAssured(s, side, d) && ValidFrom(s, t)
    requires forall w: Waker :: BeginPoll(side, w) !in t
    ensures WakeAssured(RunFrom(s, t), side, d)
    decreases |t|
  {
    if t != [] {
      assert t[0] in t;
      WakeStaysAssured(s, t[0], side, d);
      assert forall w: Waker :: BeginPoll(side, w) in t[1..] ==> BeginPoll(side, w) in t;
      AssuredUntilWoken(Apply(s, t[0]), t[1..], side, d);
    }
  }

  /**
   An event reaches every sleeper: after an event in a direction a side sleeps on, whatever else
   happens in between, the side is woken by the time no started wake is left, unless it polls again first.
   */
  lemma EventWakesSleeper(s: State, side: Side, d: Dir, t: seq<Action>)
    requires Reachable(s) && Sleeping(s, side, d)
    requires ValidFrom(AfterEvent(s, d), t)
    requires forall w: Waker :: BeginPoll(side, w) !in t
    requires RunFrom(AfterEvent(s, d), t).flights == multiset{}
    ensures RunFrom(AfterEvent(s, d), t).tasks.Get(side).woken
  {
    NoLostWakeup(s, side);
    OwnProxyOnly(s, d);
    var s' := AfterEvent(s, d);
    assert WillVisit(s.flights, d, side) ==> WillVisit(s'.flights, d, side);
    assert WakeAssured(s', side, d);
    AssuredUntilWoken(s', t, side, d);
  }

  lemma RunOne(s: State, a: Action)
    requires Enabled(s, a)
    ensures ValidFrom(s, [a]) && RunFrom(s, [a]) == Apply(s, a)
  {
    assert [a][1..] == [];
  }

  /** Running one wake_by_ref to its end. */
  lemma FinishFlight(s: State, f: Flight) returns (t: seq<Action>)
    requires f in s.flights
    ensures |t| <= 2 && (forall a :: a in t ==> a.WakeSlot?)
    ensures ValidFrom(s, t) && RunFrom(s, t).flights == s.flights - multiset{f}
  {
    var s' := AfterWake(s, f);
    t := [WakeSlot(f)];
    if f.next.StreamSide? {
      var f' := Flight(f.proxy, SinkSide);
      assert s'.flights == s.flights - multiset{f} + multiset{f'};
      var u := [WakeSlot(f')];
      assert RunFrom(s', u) == AfterWake(s', f');
      RunConcat(s, t, u);
      t := t + u;
    }
  }

  lemma {:induction false} RunConcat(s: State, t: seq<Action>, u: seq<Action>)
    requires ValidFrom(s, t) && ValidFrom(RunFrom(s, t), u)
    ensures ValidFrom(s, t + u) && RunFrom(s, t + u) == RunFrom(RunFrom(s, t), u)
    decreases |t|
  {
    if t == [] {
      assert t + u == u;
    } else {
      RunConcat(Apply(s, t[0]), t[1..], u);
      assert (t + u)[1..] == t[1..] + u;
    }
  }

  /** Started wakes can always run to their end, so waiting for none to be left is not in vain. */
  lemma {:induction false} WakesDrain(s: State) returns (t: seq<Action>)
    ensures ValidFrom(s, t) && RunFrom(s, t).flights == multiset{}
    ensures |t| <= 2 * |s.flights|
    ensures forall a :: a in t ==> a.WakeSlot?
    decreases |s.flights|
  {
    if s.flights == multiset{} {
      t := [];
    } else {
      var f :| f in s.flights;
      var first := FinishFlight(s, f);
      var rest := WakesDrain(RunFrom(s, first));
      RunConcat(s, first, rest);
      t := first + rest;
    }
  }

  /** So nobody sleeps for ever: an event on the direction and the wakes it starts suffice to wake the sleeper. */
  lemma SleeperCanBeWoken(s: State, side: Side, d: Dir) returns (t: seq<Action>)
    requires Reachable(s) && Sleeping(s, side, d)
    ensures ValidFrom(AfterEvent(s, d), t) && (forall a :: a in t ==> a.WakeSlot?)
    ensures RunFrom(AfterEvent(s, d), t).tasks.Get(side).woken
  {
    t := WakesDrain(AfterEvent(s, d));
    EventWakesSleeper(s, side, d, t);
  }

  /** What a side waits for stays until its own next poll. */
  lemma {:induction false} WaitingStays(s: State, t: seq<Action>, side: Side)
    requires ValidFrom(s, t) && forall w: Waker :: BeginPoll(side, w) !in t
    ensures s.tasks.Get(side).waiting <= RunFrom(s, t).tasks.Get(side).waiting
    decreases |t|
  {
    if t != [] {
      assert t[0] in t;
      assert s.tasks.Get(side).waiting <= Apply(s, t[0]).tasks.Get(side).waiting;
      assert forall w: Waker :: BeginPoll(side, w) in t[1..] ==> BeginPoll(side, w) in t;
      WaitingStays(Apply(s, t[0]), t[1..], side);
    }
  }

  // ----- interleaving

  predicate Environment(a: Action) {
    a.ReactorEvent? || a.WakeSlot?
  }

  /** What the tasks themselves do in a run. */
  function TaskPart(t: seq<Action>): seq<Action> {
    if t == [] then [] else (if Environment(t[0]) then [] else [t[0]]) + TaskPart(t[1..])
  }

  /** The only thing a run may not do: finish a wake that was not started. */
  predicate WakesStarted(s: State, t: seq<Action>)
    decreases |t|
  {
    t == [] ||
    (&& (t[0].WakeSlot? ==> t[0].flight in s.flights)
     && (Enabled(s, t[0]) ==> WakesStarted(Apply(s, t[0]), t[1..])))
  }

  /** Equal as far as the tasks' own next steps are concerned; events may have taken proxies from `b`. */
  predicate SameControl(a: State, b: State) {
    && a.running == b.running
    && (b.held.inbound == None || b.held.inbound == a.held.inbound)
    && (b.held.outbound == None || b.held.outbound == a.held.outbound)
    && a.tasks.stream.waiting == b.tasks.stream.waiting
    && a.tasks.sink.waiting == b.tasks.sink.waiting
  }

  lemma TaskStepControl(a: State, b: State, x: Action)
    requires SameControl(a, b) && !Environment(x) && Enabled(a, x)
    ensures Enabled(b, x) && SameControl(Apply(a, x), Apply(b, x))
  {
  }

  lemma EnvironmentStepControl(a: State, b: State, x: Action)
    requires SameControl(a, b) && Environment(x) && Enabled(b, x)
    ensures SameControl(a, Apply(b, x))
  {
  }

  /** Reactor events and started wakes may be interleaved with what the tasks do in any way. */
  lemma {:induction false} AnyInterleaving(a: State, b: State, t: seq<Action>)
    requires SameControl(a, b) && ValidFrom(a, TaskPart(t)) && WakesStarted(b, t)
    ensures ValidFrom(b, t) && SameControl(RunFrom(a, TaskPart(t)), RunFrom(b, t))
    decreases |t|
  {
    if t != [] {
      if Environment(t[0]) {
        EnvironmentStepControl(a, b, t[0]);
        assert TaskPart(t) == TaskPart(t[1..]);
        AnyInterleaving(a, Apply(b, t[0]), t[1..]);
      } else {
        assert TaskPart(t)[1..] == TaskPart(t[1..]);
        TaskStepControl(a, b, t[0]);
        AnyInterleaving(Apply(a, t[0]), Apply(b, t[0]), t[1..]);
      }
    }
  }
}
