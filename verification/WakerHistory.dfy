/**
 What the observers of the waker protocol mean in terms of the run alone: a side's latest waker, what it
 waits for and whether it has been woken are settled by the steps taken since its latest poll began. So a
 sleeper of the protocol is a task that has really been told Pending and has really not been woken.
 */
module WakerHistory {
  import opened Basics
  import opened WakerProtocol
  import opened WakerSimulation

  lemma {:induction false} PrefixValid(s: State, t: seq<Action>, n: nat)
    requires ValidFrom(s, t) && n <= |t|
    ensures ValidFrom(s, t[..n])
    ensures n < |t| ==> Enabled(RunFrom(s, t[..n]), t[n])
    ensures n < |t| ==> ValidFrom(s, t[..n + 1]) && RunFrom(s, t[..n + 1]) == Apply(RunFrom(s, t[..n]), t[n])
    decreases n
  {
    if n > 0 {
      PrefixValid(Apply(s, t[0]), t[1..], n - 1);
      assert t[..n][1..] == t[1..][..n - 1];
      if n < |t| {
        assert t[..n + 1][1..] == t[1..][..n];
      }
    } else if t != [] {
      RunOne(s, t[0]);
      assert t[..1] == [t[0]];
    }
  }

  /** The state before step `n` of a run, or at its end. */
  function At(s0: State, t: seq<Action>, n: nat): State
    requires ValidFrom(s0, t) && n <= |t|
  {
    PrefixValid(s0, t, n);
    RunFrom(s0, t[..n])
  }

  lemma LastStep(s0: State, t: seq<Action>)
    requires ValidFrom(s0, t) && t != []
    ensures var p, a := t[..|t| - 1], t[|t| - 1];
            && ValidFrom(s0, p) && Enabled(RunFrom(s0, p), a)
            && RunFrom(s0, t) == Apply(RunFrom(s0, p), a)
            && forall n :: 0 <= n <= |p| ==> At(s0, p, n) == At(s0, t, n)
  {
    var k := |t| - 1;
    PrefixValid(s0, t, k);
    assert t[..k + 1] == t;
    forall n | 0 <= n <= k
      ensures At(s0, t[..k], n) == At(s0, t, n)
    {
      assert t[..k][..n] == t[..n];
    }
  }

  /** The waker a side's latest poll came with, or, before the first, the one it started with. */
  function LatestWaker(s0: State, t: seq<Action>, side: Side): Option<Waker> {
    if t == [] then s0.tasks.Get(side).waker
    else
      var a := t[|t| - 1];
      if a.BeginPoll? && a.side == side then Some(a.waker) else LatestWaker(s0, t[..|t| - 1], side)
  }

  /** No poll of `side` has begun after step `n`. */
  predicate LatestPollBefore(t: seq<Action>, side: Side, n: nat) {
    forall j :: n < j < |t| ==> !(t[j].BeginPoll? && t[j].side == side)
  }

  /** Step `n`, in the side's latest poll or after it, took the side's latest waker out of a slot. */
  predicate WokenAt(s0: State, t: seq<Action>, side: Side, n: nat)
    requires ValidFrom(s0, t) && n < |t|
  {
    && t[n].WakeSlot? && LatestPollBefore(t, side, n)
    && LatestWaker(s0, t[..n], side).Some?
    && SlotAt(At(s0, t, n).slots, t[n].flight.proxy, t[n].flight.next) == LatestWaker(s0, t[..n], side)
  }

  /** Step `n`, in the side's latest poll, was an operation in direction `d` that answered Pending. */
  predicate BlockedAt(s0: State, t: seq<Action>, side: Side, d: Dir, n: nat)
    requires ValidFrom(s0, t) && n < |t|
  {
    t[n] == SocketOp(d, true) && LatestPollBefore(t, side, n) && At(s0, t, n).running == Polling(side)
  }

  /** What one step does to a side's waker: only its own poll's beginning and taken wakers touch it. */
  lemma StepOnTask(s: State, a: Action, side: Side)
    requires Enabled(s, a)
    ensures var task, next := s.tasks.Get(side), Apply(s, a).tasks.Get(side);
            if a.BeginPoll? && a.side == side then
              next.waker == Some(a.waker) && !next.woken
            else
              && next.waker == task.waker
              && (next.woken <==> task.woken || (a.WakeSlot? && task.waker.Some?
                                                 && SlotAt(s.slots, a.flight.proxy, a.flight.next) == task.waker))
  {
  }

  lemma StepOnWaiting(s: State, a: Action, side: Side, d: Dir)
    requires Enabled(s, a)
    ensures d in Apply(s, a).tasks.Get(side).waiting <==>
              !(a.BeginPoll? && a.side == side)
              && (d in s.tasks.Get(side).waiting || (a == SocketOp(d, true) && s.running == Polling(side)))
  {
  }

  lemma {:induction false} WakerIsLatest(s0: State, t: seq<Action>, side: Side)
    requires ValidFrom(s0, t)
    ensures RunFrom(s0, t).tasks.Get(side).waker == LatestWaker(s0, t, side)
  {
    if t != [] {
      LastStep(s0, t);
      WakerIsLatest(s0, t[..|t| - 1], side);
      StepOnTask(RunFrom(s0, t[..|t| - 1]), t[|t| - 1], side);
    }
  }

  lemma WokenStep(s0: State, t: seq<Action>, side: Side)
    requires ValidFrom(s0, t) && t != []
    ensures var p, n := t[..|t| - 1], |t| - 1;
            && ValidFrom(s0, p)
            && (RunFrom(s0, t).tasks.Get(side).woken <==>
                  !(t[n].BeginPoll? && t[n].side == side)
                  && (WokenAt(s0, t, side, n) || RunFrom(s0, p).tasks.Get(side).woken))
  {
    LastStep(s0, t);
    WakerIsLatest(s0, t[..|t| - 1], side);
    StepOnTask(RunFrom(s0, t[..|t| - 1]), t[|t| - 1], side);
    assert At(s0, t, |t| - 1) == RunFrom(s0, t[..|t| - 1]);
  }

  lemma LatestBefore(t: seq<Action>, side: Side, n: nat)
    requires n + 1 < |t|
    ensures LatestPollBefore(t, side, n) <==>
              LatestPollBefore(t[..|t| - 1], side, n) && !(t[|t| - 1].BeginPoll? && t[|t| - 1].side == side)
  {
    var p := t[..|t| - 1];
    assert forall j :: n < j < |p| ==> t[j] == p[j];
  }

  lemma EarlierWake(s0: State, t: seq<Action>, side: Side, n: nat)
    requires ValidFrom(s0, t) && n + 1 < |t|
    ensures ValidFrom(s0, t[..|t| - 1])
    ensures WokenAt(s0, t, side, n) <==>
              WokenAt(s0, t[..|t| - 1], side, n) && !(t[|t| - 1].BeginPoll? && t[|t| - 1].side == side)
  {
    LastStep(s0, t);
    var p := t[..|t| - 1];
    assert p[..n] == t[..n];
    LatestBefore(t, side, n);
  }

  /**
   Woken means woken: in every run a side counts as woken exactly if some wake has taken its latest waker
   out of a slot since its latest poll began.
   */
  lemma {:induction false} WokenIsHistory(s0: State, t: seq<Action>, side: Side)
    requires ValidFrom(s0, t) && !s0.tasks.Get(side).woken
    ensures RunFrom(s0, t).tasks.Get(side).woken <==> exists n :: 0 <= n < |t| && WokenAt(s0, t, side, n)
  {
    if t != [] {
      var k := |t| - 1;
      var p := t[..k];
      WokenStep(s0, t, side);
      WokenIsHistory(s0, p, side);
      forall n | 0 <= n < k
        ensures WokenAt(s0, t, side, n) <==> WokenAt(s0, p, side, n) && !(t[k].BeginPoll? && t[k].side == side)
      {
        EarlierWake(s0, t, side, n);
      }
      if RunFrom(s0, t).tasks.Get(side).woken && !WokenAt(s0, t, side, k) {
        var n :| 0 <= n < |p| && WokenAt(s0, p, side, n);
        assert WokenAt(s0, t, side, n);
      }
    }
  }

  lemma EarlierBlock(s0: State, t: seq<Action>, side: Side, d: Dir, n: nat)
    requires ValidFrom(s0, t) && n + 1 < |t|
    ensures ValidFrom(s0, t[..|t| - 1])
    ensures BlockedAt(s0, t, side, d, n) <==>
              BlockedAt(s0, t[..|t| - 1], side, d, n) && !(t[|t| - 1].BeginPoll? && t[|t| - 1].side == side)
  {
    LastStep(s0, t);
    LatestBefore(t, side, n);
  }

  lemma WaitingStep(s0: State, t: seq<Action>, side: Side, d: Dir)
    requires ValidFrom(s0, t) && t != []
    ensures var p, n := t[..|t| - 1], |t| - 1;
            && ValidFrom(s0, p)
            && (d in RunFrom(s0, t).tasks.Get(side).waiting <==>
                  !(t[n].BeginPoll? && t[n].side == side)
                  && (BlockedAt(s0, t, side, d, n) || d in RunFrom(s0, p).tasks.Get(side).waiting))
  {
    LastStep(s0, t);
    StepOnWaiting(RunFrom(s0, t[..|t| - 1]), t[|t| - 1], side, d);
    assert At(s0, t, |t| - 1) == RunFrom(s0, t[..|t| - 1]);
  }

  /** Waiting means told Pending: a side waits for a direction exactly if its latest poll was blocked there. */
  lemma {:induction false} WaitingIsHistory(s0: State, t: seq<Action>, side: Side, d: Dir)
    requires ValidFrom(s0, t) && s0.tasks.Get(side).waiting == {}
    ensures d in RunFrom(s0, t).tasks.Get(side).waiting <==>
              exists n :: 0 <= n < |t| && BlockedAt(s0, t, side, d, n)
  {
    if t != [] {
      var k := |t| - 1;
      var p := t[..k];
      WaitingStep(s0, t, side, d);
      WaitingIsHistory(s0, p, side, d);
      forall n | 0 <= n < k
        ensures BlockedAt(s0, t, side, d, n)
           <==> BlockedAt(s0, p, side, d, n) && !(t[k].BeginPoll? && t[k].side == side)
      {
        EarlierBlock(s0, t, side, d, n);
      }
      if d in RunFrom(s0, t).tasks.Get(side).waiting && !BlockedAt(s0, t, side, d, k) {
        var n :| 0 <= n < |p| && BlockedAt(s0, p, side, d, n);
        assert BlockedAt(s0, t, side, d, n);
      }
    }
  }

  /**
   A side's state is its history: from the creation of the stream on, its waker is that of its latest poll, it
   waits for the directions its latest poll was blocked on, and it is woken exactly if a wake has taken that
   waker out of a slot since that poll began. Only the creating task has a waker before its first poll.
   */
  lemma TaskIsHistory(w: Waker, t: seq<Action>, side: Side)
    requires ValidFrom(Init(w), t)
    ensures var task := RunFrom(Init(w), t).tasks.Get(side);
            && task.waker == LatestWaker(Init(w), t, side)
            && (task.woken <==> exists n :: 0 <= n < |t| && WokenAt(Init(w), t, side, n))
            && forall d: Dir :: d in task.waiting <==> exists n :: 0 <= n < |t| && BlockedAt(Init(w), t, side, d, n)
    ensures LatestWaker(Init(w), [], side) == if side.StreamSide? then Some(w) else None
  {
    WakerIsLatest(Init(w), t, side);
    WokenIsHistory(Init(w), t, side);
    forall d: Dir
      ensures d in RunFrom(Init(w), t).tasks.Get(side).waiting
         <==> exists n :: 0 <= n < |t| && BlockedAt(Init(w), t, side, d, n)
    {
      WaitingIsHistory(Init(w), t, side, d);
    }
  }

  // ----- the socket's side

  predicate LastAt(t: seq<Action>, x: Action, y: Action, n: nat) {
    n < |t| && t[n] == x && forall j :: n < j < |t| ==> t[j] != y
  }

  /** Step `x` has happened, and step `y` has not happened since. */
  predicate LastIs(t: seq<Action>, x: Action, y: Action) {
    exists n :: 0 <= n < |t| && LastAt(t, x, y, n)
  }

  lemma LastAtEarlier(t: seq<Action>, x: Action, y: Action, n: nat)
    requires n + 1 < |t|
    ensures LastAt(t, x, y, n) <==> t[|t| - 1] != y && LastAt(t[..|t| - 1], x, y, n)
  {
    assert forall j :: n < j < |t| - 1 ==> t[..|t| - 1][j] == t[j];
  }

  lemma LastIsStep(t: seq<Action>, x: Action, y: Action)
    requires t != [] && x != y
    ensures LastIs(t, x, y) <==> t[|t| - 1] == x || (t[|t| - 1] != y && LastIs(t[..|t| - 1], x, y))
  {
    var k := |t| - 1;
    if t[k] == x {
      assert LastAt(t, x, y, k);
    } else if LastIs(t, x, y) {
      var n: nat :| n < |t| && LastAt(t, x, y, n);
      assert n != k;
      LastAtEarlier(t, x, y, n);
    } else if LastIs(t[..k], x, y) {
      var n: nat :| n < k && LastAt(t[..k], x, y, n);
      LastAtEarlier(t, x, y, n);
    }
  }

  /** What one step does to a direction of the socket. */
  lemma StepOnDir(s: State, a: Action, d: Dir)
    requires Enabled(s, a)
    ensures var s' := Apply(s, a);
            && s'.ready.Get(d) == (a == ReactorEvent(d) || (a != SocketOp(d, true) && s.ready.Get(d)))
            && s'.held.Get(d) == if a == SocketOp(d, true) then Some(d)
                                 else if a == ReactorEvent(d) then None else s.held.Get(d)
  {
  }

  /**
   A direction's state is its history: it counts as ready exactly if an event has arrived since the socket last
   said Pending there, and its proxy is held exactly if the socket has said Pending there since the last event.
   */
  lemma {:induction false} DirIsHistory(w: Waker, t: seq<Action>, d: Dir)
    requires ValidFrom(Init(w), t)
    ensures var s := RunFrom(Init(w), t);
            && (s.ready.Get(d) <==> LastIs(t, ReactorEvent(d), SocketOp(d, true)))
            && s.held.Get(d) == if LastIs(t, SocketOp(d, true), ReactorEvent(d)) then Some(d) else None
  {
    if t != [] {
      var p, a := t[..|t| - 1], t[|t| - 1];
      LastStep(Init(w), t);
      DirIsHistory(w, p, d);
      StepOnDir(RunFrom(Init(w), p), a, d);
      LastIsStep(t, ReactorEvent(d), SocketOp(d, true));
      LastIsStep(t, SocketOp(d, true), ReactorEvent(d));
    }
  }

  /** No wake without an event: wakes are under way on a direction, or have been, only after an event there. */
  lemma {:induction false} WakesHaveEvents(w: Waker, t: seq<Action>, d: Dir)
    requires ValidFrom(Init(w), t) && ReactorEvent(d) !in t
    ensures forall a :: a in t && a.WakeSlot? ==> a.flight.proxy != d
    ensures forall f :: f in RunFrom(Init(w), t).flights ==> f.proxy != d
  {
    if t != [] {
      var p, a := t[..|t| - 1], t[|t| - 1];
      LastStep(Init(w), t);
      WakesHaveEvents(w, p, d);
      InvRun(Init(w), p);
      assert a in t && forall x :: x in t ==> x in p || x == a;
      FlightStep(RunFrom(Init(w), p), a, d);
    }
  }

  lemma FlightStep(s: State, a: Action, d: Dir)
    requires Inv(s) && Enabled(s, a) && a != ReactorEvent(d) && forall f :: f in s.flights ==> f.proxy != d
    ensures forall f :: f in Apply(s, a).flights ==> f.proxy != d
  {
    assert InvDir(s, Inbound) && InvDir(s, Outbound);
  }

  /** While a poll lasts, it is this side that registers and polls. */
  lemma {:induction false} PollIsRunning(s0: State, t: seq<Action>, side: Side, b: nat, n: nat)
    requires ValidFrom(s0, t) && b < n <= |t| && t[b].BeginPoll? && t[b].side == side
    requires forall j :: b < j < n ==> !t[j].EndPoll?
    ensures var r := At(s0, t, n).running; (r.Polling? || r.Registering?) && r.side == side
    ensures forall j :: b < j < n ==> !t[j].BeginPoll?
    decreases n
  {
    PrefixValid(s0, t, n - 1);
    if b < n - 1 {
      PollIsRunning(s0, t, side, b, n - 1);
      forall j | b < j < n
        ensures !t[j].BeginPoll?
      {
        assert j < n - 1 || j == n - 1;
      }
    }
  }

  /** The poll that began at step `b` is a side's latest, lasts to the last step, and its waker was never taken. */
  predicate Undisturbed(s0: State, t: seq<Action>, b: nat)
    requires ValidFrom(s0, t)
  {
    && b + 1 < |t| && t[b].BeginPoll?
    && (forall j :: b < j < |t| - 1 ==> !t[j].EndPoll?)
    && forall j :: b < j < |t| && t[j].WakeSlot? ==>
         SlotAt(At(s0, t, j).slots, t[j].flight.proxy, t[j].flight.next) != Some(t[b].waker)
  }

  lemma UndisturbedIsLatest(s0: State, t: seq<Action>, b: nat)
    requires ValidFrom(s0, t) && Undisturbed(s0, t, b) && t[|t| - 1].EndPoll?
    ensures LatestPollBefore(t, t[b].side, b)
    ensures forall n :: b < n <= |t| ==> LatestWaker(s0, t[..n], t[b].side) == Some(t[b].waker)
  {
    PollIsRunning(s0, t, t[b].side, b, |t| - 1);
    forall n | b < n <= |t|
      ensures LatestWaker(s0, t[..n], t[b].side) == Some(t[b].waker)
    {
      LatestIs(s0, t, b, n);
    }
  }

  lemma UndisturbedIsNotWoken(s0: State, t: seq<Action>, b: nat)
    requires ValidFrom(s0, t) && Undisturbed(s0, t, b) && t[|t| - 1].EndPoll? && !s0.tasks.Get(t[b].side).woken
    ensures !RunFrom(s0, t).tasks.Get(t[b].side).woken
  {
    UndisturbedIsLatest(s0, t, b);
    WokenIsHistory(s0, t, t[b].side);
    forall n | 0 <= n < |t|
      ensures !WokenAt(s0, t, t[b].side, n)
    {
      if n < b {
        assert t[b].BeginPoll?;
      }
    }
  }

  lemma UndisturbedWaits(s0: State, t: seq<Action>, b: nat, d: Dir)
    requires ValidFrom(s0, t) && Undisturbed(s0, t, b) && t[|t| - 1].EndPoll?
    requires s0.tasks.Get(t[b].side).waiting == {}
    ensures d in RunFrom(s0, t).tasks.Get(t[b].side).waiting <==> exists n :: b < n < |t| && t[n] == SocketOp(d, true)
  {
    UndisturbedIsLatest(s0, t, b);
    WaitingIsHistory(s0, t, t[b].side, d);
    forall n | 0 <= n < |t| && t[n] == SocketOp(d, true)
      ensures BlockedAt(s0, t, t[b].side, d, n) <==> b < n
    {
      if b < n {
        PollIsRunning(s0, t, t[b].side, b, n);
        PrefixValid(s0, t, n);
      }
    }
  }

  /**
   Sleepers are real: a poll that began at step `b` with waker `x`, has just ended Pending, and since whose
   beginning no wake has taken `x` out of a slot, is asleep on exactly the directions it was blocked on, which
   are not none; its waker is in the slots of all of them, each held by the socket or about to be woken.
   */
  lemma PendingSleeps(w: Waker, t: seq<Action>, b: nat)
    requires ValidFrom(Init(w), t) && Undisturbed(Init(w), t, b) && t[|t| - 1] == EndPoll(true)
    ensures var s, side := RunFrom(Init(w), t), t[b].side;
            && (forall d: Dir :: Sleeping(s, side, d) <==> exists n :: b < n < |t| && t[n] == SocketOp(d, true))
            && (exists d: Dir :: Sleeping(s, side, d))
            && forall d: Dir :: Sleeping(s, side, d) ==>
                 SlotAt(s.slots, d, side) == Some(t[b].waker)
                 && (s.held.Get(d) == Some(d) || WillVisit(s.flights, d, side))
  {
    var s, side := RunFrom(Init(w), t), t[b].side;
    UndisturbedIsNotWoken(Init(w), t, b);
    forall d: Dir
      ensures Sleeping(s, side, d) <==> exists n :: b < n < |t| && t[n] == SocketOp(d, true)
    {
      UndisturbedWaits(Init(w), t, b, d);
    }
    EndedPending(w, t, side, b);
    var any :| any in s.tasks.Get(side).waiting;
    assert Sleeping(s, side, any);
    assert t[..|t|] == t;
    UndisturbedIsLatest(Init(w), t, b);
    WakerIsLatest(Init(w), t, side);
    assert Reachable(s);
    NoLostWakeup(s, side);
  }

  lemma EndedPending(w: Waker, t: seq<Action>, side: Side, b: nat)
    requires ValidFrom(Init(w), t) && Undisturbed(Init(w), t, b) && t[|t| - 1] == EndPoll(true) && side == t[b].side
    ensures RunFrom(Init(w), t).tasks.Get(side).waiting != {}
  {
    PollIsRunning(Init(w), t, side, b, |t| - 1);
    LastStep(Init(w), t);
  }

  // ----- the ideal socket

  lemma {:induction false} IdealLast(i: Ideal, s: State, t: seq<Action>)
    requires ValidFrom(s, t) && t != []
    ensures var p, a := t[..|t| - 1], t[|t| - 1];
            && ValidFrom(s, p)
            && IdealRun(i, s, t) == IdealApply(IdealRun(i, s, p), RunFrom(s, p).running, a)
    decreases |t|
  {
    PrefixValid(s, t, |t| - 1);
    if |t| > 1 {
      IdealLast(IdealApply(i, s.running, t[0]), Apply(s, t[0]), t[1..]);
      assert t[..|t| - 1][1..] == t[1..][..|t| - 2];
    }
  }

  /** The side's latest poll was blocked on `d` at step `n`, and no event has arrived there since. */
  predicate StillWaits(s0: State, t: seq<Action>, side: Side, d: Dir, n: nat)
    requires ValidFrom(s0, t) && n < |t|
  {
    BlockedAt(s0, t, side, d, n) && forall j :: n < j < |t| ==> t[j] != ReactorEvent(d)
  }

  /** Step `n` is an event on a direction the side's latest poll had been blocked on, with none in between. */
  predicate EventFor(s0: State, t: seq<Action>, side: Side, n: nat)
    requires ValidFrom(s0, t) && n < |t|
  {
    PrefixValid(s0, t, n);
    && t[n].ReactorEvent? && LatestPollBefore(t, side, n)
    && exists m :: 0 <= m < n && StillWaits(s0, t[..n], side, t[n].dir, m)
  }

  lemma EarlierStillWaits(s0: State, t: seq<Action>, side: Side, d: Dir, n: nat)
    requires ValidFrom(s0, t) && n + 1 < |t|
    ensures ValidFrom(s0, t[..|t| - 1])
    ensures var a := t[|t| - 1];
            StillWaits(s0, t, side, d, n) <==>
              StillWaits(s0, t[..|t| - 1], side, d, n) && !(a.BeginPoll? && a.side == side) && a != ReactorEvent(d)
  {
    EarlierBlock(s0, t, side, d, n);
    assert forall j :: n < j < |t| - 1 ==> t[..|t| - 1][j] == t[j];
  }

  /** The ideal socket's waiters are the polls blocked since the last event. */
  lemma {:induction false} IdealWaiters(w: Waker, t: seq<Action>, side: Side, d: Dir)
    requires ValidFrom(Init(w), t)
    ensures SlotAt(IdealRun(IdealInit(w), Init(w), t).waiters, d, side).Some? <==>
              exists n :: 0 <= n < |t| && StillWaits(Init(w), t, side, d, n)
  {
    if t != [] {
      var s0, k := Init(w), |t| - 1;
      var p, a := t[..k], t[k];
      LastStep(s0, t);
      IdealWaiters(w, p, side, d);
      forall n | 0 <= n < k
        ensures StillWaits(s0, t, side, d, n) <==>
                  StillWaits(s0, p, side, d, n) && !(a.BeginPoll? && a.side == side) && a != ReactorEvent(d)
      {
        EarlierStillWaits(s0, t, side, d, n);
      }
      IdealWaitersStep(w, t, side, d);
      if SlotAt(IdealRun(IdealInit(w), s0, t).waiters, d, side).Some? && !StillWaits(s0, t, side, d, k) {
        var n :| 0 <= n < |p| && StillWaits(s0, p, side, d, n);
        assert StillWaits(s0, t, side, d, n);
      }
    }
  }

  lemma IdealWaitersStep(w: Waker, t: seq<Action>, side: Side, d: Dir)
    requires ValidFrom(Init(w), t) && t != []
    ensures var p, k := t[..|t| - 1], |t| - 1;
            && ValidFrom(Init(w), p)
            && (SlotAt(IdealRun(IdealInit(w), Init(w), t).waiters, d, side).Some? <==>
                  StillWaits(Init(w), t, side, d, k)
                  || (SlotAt(IdealRun(IdealInit(w), Init(w), p).waiters, d, side).Some?
                      && !(t[k].BeginPoll? && t[k].side == side) && t[k] != ReactorEvent(d)))
  {
    var s0, k := Init(w), |t| - 1;
    var p := t[..k];
    LastStep(s0, t);
    IdealLast(IdealInit(w), s0, t);
    assert At(s0, t, k) == RunFrom(s0, p);
    if RunFrom(s0, p).running == Polling(side) {
      PollerHasWaker(w, p, side);
    }
    IdealStepWaiters(IdealRun(IdealInit(w), s0, p), RunFrom(s0, p).running, t[k], side, d);
  }

  /** A side that is polling has a waker. */
  lemma PollerHasWaker(w: Waker, t: seq<Action>, side: Side)
    requires ValidFrom(Init(w), t) && RunFrom(Init(w), t).running == Polling(side)
    ensures IdealRun(IdealInit(w), Init(w), t).latest.Get(side).Some?
  {
    SimRun(Init(w), IdealInit(w), t, side);
    InvRun(Init(w), t);
    assert InvSide(RunFrom(Init(w), t), side);
  }

  lemma IdealStepWaiters(i: Ideal, r: Running, a: Action, side: Side, d: Dir)
    requires r == Polling(side) ==> i.latest.Get(side).Some?
    ensures SlotAt(IdealApply(i, r, a).waiters, d, side).Some? <==>
              (a == SocketOp(d, true) && r == Polling(side))
              || (SlotAt(i.waiters, d, side).Some? && !(a.BeginPoll? && a.side == side) && a != ReactorEvent(d))
  {
  }

  lemma EarlierEvent(s0: State, t: seq<Action>, side: Side, n: nat)
    requires ValidFrom(s0, t) && n + 1 < |t|
    ensures ValidFrom(s0, t[..|t| - 1])
    ensures EventFor(s0, t, side, n) <==>
              EventFor(s0, t[..|t| - 1], side, n) && !(t[|t| - 1].BeginPoll? && t[|t| - 1].side == side)
  {
    LastStep(s0, t);
    LatestBefore(t, side, n);
    assert t[..|t| - 1][..n] == t[..n];
  }

  lemma IdealWokenStep(w: Waker, t: seq<Action>, side: Side)
    requires ValidFrom(Init(w), t) && t != []
    ensures var p, k := t[..|t| - 1], |t| - 1;
            && ValidFrom(Init(w), p)
            && (IdealRun(IdealInit(w), Init(w), t).woken.Get(side) <==>
                  !(t[k].BeginPoll? && t[k].side == side)
                  && (EventFor(Init(w), t, side, k) || IdealRun(IdealInit(w), Init(w), p).woken.Get(side)))
  {
    var k := |t| - 1;
    LastStep(Init(w), t);
    IdealLast(IdealInit(w), Init(w), t);
    if t[k].ReactorEvent? {
      IdealWaiters(w, t[..k], side, t[k].dir);
    }
  }

  /** The ideal socket wakes exactly those whose latest poll was blocked before an event. */
  lemma {:induction false} IdealIsHistory(w: Waker, t: seq<Action>, side: Side)
    requires ValidFrom(Init(w), t)
    ensures IdealRun(IdealInit(w), Init(w), t).woken.Get(side) <==>
              exists n :: 0 <= n < |t| && EventFor(Init(w), t, side, n)
  {
    if t != [] {
      var s0, k := Init(w), |t| - 1;
      var p := t[..k];
      IdealWokenStep(w, t, side);
      IdealIsHistory(w, p, side);
      forall n | 0 <= n < k
        ensures EventFor(s0, t, side, n) <==> EventFor(s0, p, side, n) && !(t[k].BeginPoll? && t[k].side == side)
      {
        EarlierEvent(s0, t, side, n);
      }
      if IdealRun(IdealInit(w), s0, t).woken.Get(side) && !EventFor(s0, t, side, k) {
        var n :| 0 <= n < |p| && EventFor(s0, p, side, n);
        assert EventFor(s0, t, side, n);
      }
    }
  }

  /**
   The proxies deliver: in every run, once an event has arrived on a direction that a side's latest poll had
   been blocked on, whatever both sides and the wakes have done since, the side's waker has been taken and
   woken, or a started wake has yet to take it from its slot; with no started wake left, it has been.
   */
  lemma EventReachesBlockedPoll(w: Waker, t: seq<Action>, side: Side, n: nat)
    requires ValidFrom(Init(w), t) && n < |t| && EventFor(Init(w), t, side, n)
    ensures WakeAssured(RunFrom(Init(w), t), side, Inbound) || WakeAssured(RunFrom(Init(w), t), side, Outbound)
    ensures RunFrom(Init(w), t).flights == multiset{} ==>
              exists m :: 0 <= m < |t| && WokenAt(Init(w), t, side, m)
  {
    IdealIsHistory(w, t, side);
    ProxiesSimulateIdeal(w, t, side);
    TaskIsHistory(w, t, side);
  }

  lemma {:induction false} LatestIs(s0: State, t: seq<Action>, b: nat, n: nat)
    requires b < n <= |t| && t[b].BeginPoll?
    requires forall j :: b < j < n ==> !(t[j].BeginPoll? && t[j].side == t[b].side)
    ensures LatestWaker(s0, t[..n], t[b].side) == Some(t[b].waker)
    decreases n
  {
    assert t[..n][..n - 1] == t[..n - 1];
    if b < n - 1 {
      LatestIs(s0, t, b, n - 1);
    }
  }
}
