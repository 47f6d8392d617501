/**
 The chat example's state told from the run alone: which broadcasts there have been, who has joined, left
 and dropped its receiver and when, and what each receiver has taken.
 */
module ChatHistory {
  import opened Basics
  import opened ChatServer

  lemma {:induction false} PrefixValid(s: State, t: seq<Action>)
    requires ValidFrom(s, t) && t != []
    ensures var p, a := t[..|t| - 1], t[|t| - 1];
            ValidFrom(s, p) && Enabled(RunFrom(s, p), a) && RunFrom(s, t) == Apply(RunFrom(s, p), a)
    decreases |t|
  {
    var p := t[..|t| - 1];
    if |t| > 1 {
      PrefixValid(Apply(s, t[0]), t[1..]);
      assert p[1..] == t[1..][..|t| - 2];
    } else {
      assert t[1..] == [];
    }
  }

  /** All broadcasts of a run, numbered in the order in which they took the lock. */
  function Casts(t: seq<Action>): seq<Cast> {
    if t == [] then []
    else
      var before := Casts(t[..|t| - 1]);
      match t[|t| - 1]
      case BeginCast(c, text) => before + [Cast(c, text, |before|)]
      case _ => before
  }

  lemma {:induction false} LogIsHistory(t: seq<Action>)
    requires ValidFrom(INIT, t)
    ensures RunFrom(INIT, t).log == Casts(t)
  {
    if t != [] {
      PrefixValid(INIT, t);
      LogIsHistory(t[..|t| - 1]);
    }
  }

  /** A broadcast has begun and has not ended. */
  predicate Underway(t: seq<Action>) {
    t != [] && (t[|t| - 1].BeginCast? || (!t[|t| - 1].EndCast? && Underway(t[..|t| - 1])))
  }

  lemma {:induction false} CastingIsHistory(t: seq<Action>)
    requires ValidFrom(INIT, t)
    ensures RunFrom(INIT, t).casting.Some? <==> Underway(t)
  {
    if t != [] {
      PrefixValid(INIT, t);
      CastingIsHistory(t[..|t| - 1]);
    }
  }

  /** How many broadcasts had begun when `a` happened for the first time. */
  function CastsBefore(t: seq<Action>, a: Action): nat
    requires a in t
  {
    if a in t[..|t| - 1] then CastsBefore(t[..|t| - 1], a) else |Casts(t[..|t| - 1])|
  }

  /** How often `a` has happened. */
  function Times(t: seq<Action>, a: Action): nat {
    if t == [] then 0 else Times(t[..|t| - 1], a) + (if t[|t| - 1] == a then 1 else 0)
  }

  /** What the run says of connection `c`, which has joined under `q.addr`. */
  predicate Told(t: seq<Action>, c: ConnId, q: Conn) {
    && Join(c, q.addr) in t && q.joinedAt == CastsBefore(t, Join(c, q.addr))
    && (q.phase.Joined? <==> Leave(c) !in t)
    && (Leave(c) in t ==> q.leftAt == CastsBefore(t, Leave(c)))
    && (q.phase.Gone? <==> DropReceiver(c) in t)
    && |q.received| == Times(t, Pop(c))
  }

  /** What one step does to a connection that exists. */
  lemma StepOnConn(s: State, a: Action, c: ConnId)
    requires Enabled(s, a) && c in s.conns
    ensures c in Apply(s, a).conns
    ensures var q, q' := s.conns[c], Apply(s, a).conns[c];
            && q'.addr == q.addr && q'.joinedAt == q.joinedAt
            && q'.phase == (if a == Leave(c) then Left else if a == DropReceiver(c) then Gone else q.phase)
            && q'.leftAt == (if a == Leave(c) then |s.log| else q.leftAt)
            && |q'.received| == |q.received| + (if a == Pop(c) then 1 else 0)
            && (a == Leave(c) ==> q.phase.Joined?)
            && (a == DropReceiver(c) ==> q.phase.Left?)
            && !(a.Join? && a.conn == c)
  {
  }

  lemma ToldStays(t: seq<Action>, c: ConnId, q: Conn, q': Conn)
    requires t != []
    requires var p, a := t[..|t| - 1], t[|t| - 1];
             && Told(p, c, q) && q'.addr == q.addr && q'.joinedAt == q.joinedAt
             && q'.phase == (if a == Leave(c) then Left else if a == DropReceiver(c) then Gone else q.phase)
             && q'.leftAt == (if a == Leave(c) then |Casts(p)| else q.leftAt)
             && |q'.received| == |q.received| + (if a == Pop(c) then 1 else 0)
             && (a == Leave(c) ==> q.phase.Joined?)
             && (a == DropReceiver(c) ==> q.phase.Left?)
    ensures Told(t, c, q')
  {
    var p, a := t[..|t| - 1], t[|t| - 1];
    assert forall x :: x in t <==> x in p || x == a;
  }

  /**
   In every run a connection exists exactly if it has joined; its address, the moments it joined and left,
   whether it is in the map, whether its receiver is still there and how much that has taken are what the run says.
   */
  lemma {:induction false} ConnIsHistory(t: seq<Action>, c: ConnId)
    requires ValidFrom(INIT, t)
    ensures c in RunFrom(INIT, t).conns <==> exists addr :: Join(c, addr) in t
    ensures c in RunFrom(INIT, t).conns ==> Told(t, c, RunFrom(INIT, t).conns[c])
    ensures c !in RunFrom(INIT, t).conns ==> Leave(c) !in t && DropReceiver(c) !in t && Pop(c) !in t
  {
    if t != [] {
      var p, a := t[..|t| - 1], t[|t| - 1];
      PrefixValid(INIT, t);
      ConnIsHistory(p, c);
      LogIsHistory(p);
      assert forall x :: x in t <==> x in p || x == a;
      var s := RunFrom(INIT, p);
      if c in s.conns {
        StepOnConn(s, a, c);
        ToldStays(t, c, s.conns[c], Apply(s, a).conns[c]);
      } else if a.Join? && a.conn == c {
        assert a in t;
        NeverPopped(p, Pop(c));
      }
    }
  }

  lemma {:induction false} NeverPopped(t: seq<Action>, a: Action)
    requires a !in t
    ensures Times(t, a) == 0
  {
    if t != [] {
      NeverPopped(t[..|t| - 1], a);
    }
  }

  /** A receiver takes the messages of its queue one by one, from the front. */
  lemma PopTakesNext(s: State, c: ConnId)
    requires Enabled(s, Pop(c))
    ensures var q, q' := s.conns[c], Apply(s, Pop(c)).conns[c];
            && |q'.received| == |q.received| + 1 && q'.received[..|q.received|] == q.received
            && Waiting(q) == [q'.received[|q.received|].text] + Waiting(q')
            && q'.Pushed() == q.Pushed()
  {
    var q := s.conns[c];
    assert q.queue == [q.queue[0]] + q.queue[1..];
  }

  /**
   What a peer has been given, by the run alone: of the broadcasts begun between its join and its leave, in
   their order, those of others, up to as many as its receiver has taken; the rest of them waits in its queue,
   but for the last one while that has yet to visit it.
   */
  lemma DeliveredInOrder(t: seq<Action>, c: ConnId)
    requires ValidFrom(INIT, t) && c in RunFrom(INIT, t).conns
    ensures var q := RunFrom(INIT, t).conns[c];
            && Join(c, q.addr) in t
            && var from, to := CastsBefore(t, Join(c, q.addr)),
                               if Leave(c) in t then CastsBefore(t, Leave(c)) else |Casts(t)|;
               && from <= to <= |Casts(t)|
               && var due := NotFrom(Casts(t)[from..to], c);
                  && q.received <= due && |q.received| == Times(t, Pop(c))
                  && (!Underway(t) ==> q.received + q.queue == due)
  {
    ConnIsHistory(t, c);
    LogIsHistory(t);
    CastingIsHistory(t);
    TotalOrderBroadcast(t, c);
    var s := RunFrom(INIT, t);
    var q, k := s.conns[c], |s.log|;
    if q.phase.Joined? && s.casting.Some? && q.addr in s.casting.value.todo {
      assert s.log[q.joinedAt..k][..k - 1 - q.joinedAt] == s.log[q.joinedAt..k - 1];
    }
  }
}
