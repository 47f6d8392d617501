/**
 The chat example's broadcast: a lock-protected map from peer addresses to the sending halves of
 unbounded queues. A broadcast holds the lock and pushes to one peer after another, in whatever
 order the map yields them, while receivers empty their queues and finished connections drop theirs.
 */
module ChatServer {
  import opened Basics

  type Addr = nat
  type ConnId = nat

  /** A broadcast: its sender, its text and its place in the global order. */
  datatype Cast = Cast(sender: ConnId, text: string, number: nat)

  /** Joined: in the map. Left: removed from it, the queue's receiver still there. Gone: receiver dropped. */
  datatype Phase = Joined | Left | Gone

  /** One run of handle_connection after its handshake: what its receiver has taken, and what waits in its queue. */
  datatype Conn = Conn(addr: Addr, phase: Phase, joinedAt: nat, leftAt: nat, received: seq<Cast>, queue: seq<Cast>) {
    /** Everything ever put into the queue. */
    function Pushed(): seq<Cast> {
      received + queue
    }
  }

  /** A broadcast in progress, which holds the lock: the peers still to be visited. */
  datatype Casting = Casting(sender: ConnId, todo: set<Addr>)

  datatype State = State(
    conns: map<ConnId, Conn>,
    peers: map<Addr, ConnId>, // the queue whose sending half is registered under an address
    log: seq<Cast>,           // all broadcasts, in the order in which they took the lock
    casting: Option<Casting>,
    panicked: bool)           // an unbounded_send failed and was unwrapped

  datatype Action =
    | Join(conn: ConnId, addr: Addr)
    | BeginCast(conn: ConnId, text: string)
    | Push(addr: Addr)
    | EndCast
    | Pop(conn: ConnId)
    | Leave(conn: ConnId)
    | DropReceiver(conn: ConnId)

  const INIT := State(map[], map[], [], None, false)

  predicate Enabled(s: State, a: Action) {
    match a
    // assumption: no two registered connections share an address
    case Join(c, addr) => s.casting.None? && c !in s.conns && addr !in s.peers
    case BeginCast(c, _) => s.casting.None? && c in s.conns && s.conns[c].phase.Joined?
    case Push(addr) => s.casting.Some? && addr in s.casting.value.todo && addr in s.peers && s.peers[addr] in s.conns
    case EndCast => s.casting.Some? && s.casting.value.todo == {}
    case Pop(c) => c in s.conns && !s.conns[c].phase.Gone? && s.conns[c].queue != []
    case Leave(c) => s.casting.None? && c in s.conns && s.conns[c].phase.Joined?
    case DropReceiver(c) => c in s.conns && s.conns[c].phase.Left?
  }

  function Apply(s: State, a: Action): State
    requires Enabled(s, a)
  {
    match a
    case Join(c, addr) =>
      s.(conns := s.conns[c := Conn(addr, Joined, |s.log|, 0, [], [])], peers := s.peers[addr := c])
    case BeginCast(c, text) =>
      s.(log := s.log + [Cast(c, text, |s.log|)], casting := Some(Casting(c, s.peers.Keys - {s.conns[c].addr})))
    case Push(addr) =>
      var c := s.peers[addr];
      var q := s.conns[c];
      var rest := s.(casting := Some(s.casting.value.(todo := s.casting.value.todo - {addr})));
      if q.phase.Gone? || s.log == [] then rest.(panicked := true)
      else rest.(conns := s.conns[c := q.(queue := q.queue + [s.log[|s.log| - 1]])])
    case EndCast => s.(casting := None)
    case Pop(c) =>
      var q := s.conns[c];
      s.(conns := s.conns[c := q.(received := q.received + [q.queue[0]], queue := q.queue[1..])])
    case Leave(c) =>
      s.(conns := s.conns[c := s.conns[c].(phase := Left, leftAt := |s.log|)], peers := s.peers - {s.conns[c].addr})
    case DropReceiver(c) => s.(conns := s.conns[c := s.conns[c].(phase := Gone)])
  }

  predicate ValidFrom(s: State, t: seq<Action>)
    decreases |t|
  {
    t == [] || (Enabled(s, t[0]) && ValidFrom(Apply(s, t[0]), t[1..]))
  }

  function RunFrom(s: State, t: seq<Action>): State
    requires ValidFrom(s, t)
    decreases |t|
  {
    if t == [] then s else RunFrom(Apply(s, t[0]), t[1..])
  }

  // ----- what a peer should have been sent

  function NotFrom(l: seq<Cast>, c: ConnId): seq<Cast> {
    if l == [] then []
    else NotFrom(l[..|l| - 1], c) + (if l[|l| - 1].sender == c then [] else [l[|l| - 1]])
  }

  /** The broadcasts up to which a connection has been served: all of them, but for the one that has yet to visit it. */
  function ServedTo(s: State, c: ConnId): int
    requires c in s.conns
  {
    var q := s.conns[c];
    if !q.phase.Joined? then q.leftAt
    else if s.casting.Some? && q.addr in s.casting.value.todo then |s.log| - 1
    else |s.log|
  }

  /** Everything pushed to a queue is the global log from its join on, without its own broadcasts. */
  predicate Served(s: State, c: ConnId)
    requires c in s.conns
  {
    var q := s.conns[c];
    && q.joinedAt <= ServedTo(s, c) <= |s.log|
    && q.Pushed() == NotFrom(s.log[q.joinedAt..ServedTo(s, c)], c)
  }

  predicate Registered(s: State) {
    && (forall a :: a in s.peers ==>
          s.peers[a] in s.conns && s.conns[s.peers[a]].addr == a && s.conns[s.peers[a]].phase.Joined?)
    && (forall c :: c in s.conns && s.conns[c].phase.Joined? ==>
          s.conns[c].addr in s.peers && s.peers[s.conns[c].addr] == c)
  }

  predicate CastingOk(s: State) {
    s.casting.Some? ==>
      var k := s.casting.value;
      && k.sender in s.conns && s.conns[k.sender].phase.Joined?
      && k.todo <= s.peers.Keys - {s.conns[k.sender].addr}
      && s.log != [] && s.log[|s.log| - 1].sender == k.sender
  }

  predicate Structure(s: State) {
    && Registered(s) && CastingOk(s) && !s.panicked
    && (forall i :: 0 <= i < |s.log| ==> s.log[i].number == i)
  }

  predicate Inv(s: State) {
    Structure(s) && forall c :: c in s.conns ==> Served(s, c)
  }

  lemma JoinLeaveKeepStructure(s: State, a: Action)
    requires Structure(s) && Enabled(s, a) && (a.Join? || a.Leave? || a.DropReceiver? || a.Pop?)
    ensures Structure(Apply(s, a))
  {
  }

  lemma CastKeepsStructure(s: State, a: Action)
    requires Structure(s) && Enabled(s, a) && (a.BeginCast? || a.Push? || a.EndCast?)
    ensures Structure(Apply(s, a))
  {
  }

  lemma SliceStep(l: seq<Cast>, x: Cast, from: nat, to: nat, c: ConnId)
    requires from <= to <= |l|
    ensures (l + [x])[from..to] == l[from..to]
    ensures NotFrom((l + [x])[from..|l| + 1], c) == NotFrom(l[from..], c) + (if x.sender == c then [] else [x])
  {
    assert (l + [x])[from..|l| + 1] == l[from..] + [x];
    assert (l[from..] + [x])[..|l| - from] == l[from..];
  }

  lemma BeginServes(s: State, c: ConnId, text: string, d: ConnId)
    requires Structure(s) && Enabled(s, BeginCast(c, text)) && d in s.conns && Served(s, d)
    ensures Served(Apply(s, BeginCast(c, text)), d)
  {
    var q := s.conns[d];
    SliceStep(s.log, Cast(c, text, |s.log|), q.joinedAt, ServedTo(s, d), d);
    if q.phase.Joined? {
      assert s.log[q.joinedAt..|s.log|] == s.log[q.joinedAt..];
      assert ServedTo(Apply(s, BeginCast(c, text)), d) == |s.log| + if d == c then 1 else 0;
    } else {
      assert ServedTo(Apply(s, BeginCast(c, text)), d) == q.leftAt;
    }
  }

  lemma LastIsServed(l: seq<Cast>, from: nat, c: ConnId)
    requires from < |l|
    ensures var n := |l| - 1;
            NotFrom(l[from..|l|], c) == NotFrom(l[from..n], c) + (if l[n].sender == c then [] else [l[n]])
  {
    var n := |l| - 1;
    assert l[..n] + [l[n]] == l;
    assert l[..n][from..] == l[from..n];
    SliceStep(l[..n], l[n], from, n, c);
  }

  lemma PushServes(s: State, addr: Addr, d: ConnId)
    requires Structure(s) && Enabled(s, Push(addr)) && d in s.conns && Served(s, d)
    ensures Served(Apply(s, Push(addr)), d)
  {
    var q, n := s.conns[d], |s.log| - 1;
    if d == s.peers[addr] {
      LastIsServed(s.log, q.joinedAt, d);
      var x := s.log[n];
      assert q.received + (q.queue + [x]) == q.Pushed() + [x];
      assert Apply(s, Push(addr)).conns[d] == q.(queue := q.queue + [x]);
    } else {
      assert Apply(s, Push(addr)).conns[d] == q;
    }
  }

  lemma OtherServes(s: State, a: Action, d: ConnId)
    requires Structure(s) && Enabled(s, a) && !a.BeginCast? && !a.Push?
    requires d in Apply(s, a).conns && (d in s.conns ==> Served(s, d))
    ensures Served(Apply(s, a), d)
  {
  }

  lemma InvPreserved(s: State, a: Action)
    requires Inv(s) && Enabled(s, a)
    ensures Inv(Apply(s, a))
  {
    if a.BeginCast? || a.Push? || a.EndCast? {
      CastKeepsStructure(s, a);
    } else {
      JoinLeaveKeepStructure(s, a);
    }
    forall d | d in Apply(s, a).conns
      ensures Served(Apply(s, a), d)
    {
      match a
      case BeginCast(c, text) => BeginServes(s, c, text, d);
      case Push(addr) => PushServes(s, addr, d);
      case _ => OtherServes(s, a, d);
    }
  }

  lemma {:induction false} InvRun(s: State, t: seq<Action>)
    requires Inv(s) && ValidFrom(s, t)
    ensures Inv(RunFrom(s, t))
    decreases |t|
  {
    if t != [] {
      InvPreserved(s, t[0]);
      InvRun(Apply(s, t[0]), t[1..]);
    }
  }

  // ----- main results

  /**
   Totally ordered broadcast: at every step of every run, also midway through a broadcast, what has been
   pushed to a connection's queue is the global log from its join to its leave without its own broadcasts;
   only peers the broadcast in progress has yet to visit lag, by exactly that one. What it has taken out is
   a prefix of that. A connection is in the map exactly while joined.
   */
  lemma TotalOrderBroadcast(t: seq<Action>, c: ConnId)
    requires ValidFrom(INIT, t) && c in RunFrom(INIT, t).conns
    ensures var s := RunFrom(INIT, t);
            var q := s.conns[c];
            var to := if !q.phase.Joined? then q.leftAt
                      else if s.casting.Some? && q.addr in s.casting.value.todo then |s.log| - 1 else |s.log|;
            && q.joinedAt <= to <= |s.log|
            && q.received + q.queue == NotFrom(s.log[q.joinedAt..to], c)
            && (q.phase.Joined? <==> q.addr in s.peers && s.peers[q.addr] == c)
  {
    InvRun(INIT, t);
    var s := RunFrom(INIT, t);
    assert Served(s, c);
  }

  /** A broadcast never meets a dropped receiver: every queue in the map has one, and no send has panicked. */
  lemma NoDeadQueue(t: seq<Action>)
    requires ValidFrom(INIT, t)
    ensures var s := RunFrom(INIT, t);
            && !s.panicked
            && forall a :: a in s.peers ==> s.peers[a] in s.conns && !s.conns[s.peers[a]].phase.Gone?
  {
    InvRun(INIT, t);
    assert Structure(RunFrom(INIT, t));
  }

  lemma {:induction false} FilteredIncreases(l: seq<Cast>, c: ConnId, base: nat)
    requires forall i :: 0 <= i < |l| ==> l[i].number == base + i
    ensures var f := NotFrom(l, c);
            && (forall i :: 0 <= i < |f| ==> base <= f[i].number < base + |l| && f[i].sender != c)
            && (forall i, j :: 0 <= i < j < |f| ==> f[i].number < f[j].number)
  {
    if l != [] {
      var n := |l| - 1;
      FilteredIncreases(l[..n], c, base);
      assert l[n].number == base + n;
      assert l[n].sender == c ==> NotFrom(l, c) == NotFrom(l[..n], c);
    }
  }

  /** The numbers in a queue increase, and none is its owner's. */
  lemma QueueIncreases(s: State, c: ConnId)
    requires Inv(s) && c in s.conns
    ensures var p := s.conns[c].Pushed();
            && (forall i :: 0 <= i < |p| ==> p[i].sender != c)
            && (forall i, j :: 0 <= i < j < |p| ==> p[i].number < p[j].number)
  {
    assert Served(s, c);
    var l := s.log[s.conns[c].joinedAt..ServedTo(s, c)];
    FilteredIncreases(l, c, s.conns[c].joinedAt);
    assert s.conns[c].Pushed() == NotFrom(l, c);
  }

  /**
   Agreement: two broadcasts that both reached the queues of two connections are in the same order in
   both; a sender's broadcasts stay in the order sent, and nobody is sent his own.
   */
  lemma PeersAgree(t: seq<Action>, c: ConnId, d: ConnId, i: nat, j: nat, k: nat, l: nat)
    requires ValidFrom(INIT, t) && c in RunFrom(INIT, t).conns && d in RunFrom(INIT, t).conns
    requires var p, q := RunFrom(INIT, t).conns[c].Pushed(), RunFrom(INIT, t).conns[d].Pushed();
             i < j < |p| && k < |q| && l < |q| && p[i] == q[k] && p[j] == q[l]
    ensures k < l
    ensures var p := RunFrom(INIT, t).conns[c].Pushed(); p[i].number < p[j].number && p[i].sender != c
  {
    InvRun(INIT, t);
    QueueIncreases(RunFrom(INIT, t), c);
    QueueIncreases(RunFrom(INIT, t), d);
  }

  function Pushes(order: seq<Addr>): seq<Action> {
    if order == [] then [] else [Push(order[0])] + Pushes(order[1..])
  }

  /** What the broadcast in progress has yet to push to a connection. */
  function Due(s: State, c: ConnId): seq<Cast>
    requires c in s.conns
  {
    if s.casting.Some? && s.log != [] && s.conns[c].phase.Joined? && s.conns[c].addr in s.casting.value.todo
    then [s.log[|s.log| - 1]] else []
  }

  /** No push changes what the queues will hold in the end. */
  lemma PushIsDue(s: State, a: Addr, c: ConnId)
    requires Structure(s) && Enabled(s, Push(a)) && c in s.conns
    ensures var s1 := Apply(s, Push(a));
            && c in s1.conns && s1.conns[c].queue + Due(s1, c) == s.conns[c].queue + Due(s, c)
  {
  }

  lemma PushesAreDue(s: State, a: Addr)
    requires Structure(s) && Enabled(s, Push(a))
    ensures var s1 := Apply(s, Push(a));
            forall c :: c in s.conns ==> c in s1.conns && s1.conns[c].queue + Due(s1, c) == s.conns[c].queue + Due(s, c)
  {
    forall c | c in s.conns
      ensures var s1 := Apply(s, Push(a));
              c in s1.conns && s1.conns[c].queue + Due(s1, c) == s.conns[c].queue + Due(s, c)
    {
      PushIsDue(s, a, c);
    }
  }

  /**
   Any order will do: whatever order the map yields the recipients in, the broadcast in progress runs to
   its end, and has then pushed its message once to every recipient's queue and to no other.
   */
  lemma {:induction false} AnyOrderCompletes(s: State, order: seq<Addr>)
    requires Inv(s) && s.casting.Some?
    requires forall a :: a in order <==> a in s.casting.value.todo
    requires forall i, j :: 0 <= i < j < |order| ==> order[i] != order[j]
    ensures ValidFrom(s, Pushes(order)) && Enabled(RunFrom(s, Pushes(order)), EndCast)
    ensures var s' := RunFrom(s, Pushes(order));
            forall c :: c in s.conns ==> c in s'.conns && s'.conns[c].queue == s.conns[c].queue + Due(s, c)
    decreases |order|
  {
    if order != [] {
      var a, rest := order[0], order[1..];
      assert a in order;
      var s1 := Apply(s, Push(a));
      InvPreserved(s, Push(a));
      assert forall b :: b in rest ==> b in order && b != a;
      assert forall b :: b in order ==> b == a || b in rest;
      AnyOrderCompletes(s1, rest);
      assert Pushes(order)[1..] == Pushes(rest);
      PushesAreDue(s, a);
    } else {
      assert s.casting.value.todo == {};
    }
  }

  // ----- the broadcast as code

  function Texts(l: seq<Cast>): seq<string> {
    seq(|l|, i requires 0 <= i < |l| => l[i].text)
  }

  /** What waits in a connection's queue. */
  function Waiting(q: Conn): seq<string> {
    Texts(q.queue)
  }

  /** What waits in the queues of the registered peers. */
  function Queues(s: State): map<Addr, seq<string>> {
    map a | a in s.peers && s.peers[a] in s.conns :: Waiting(s.conns[s.peers[a]])
  }

  /** One message more for each of `to`. */
  function WithMessage(q: map<Addr, seq<string>>, to: set<Addr>, m: string): map<Addr, seq<string>> {
    map a | a in q :: if a in to then q[a] + [m] else q[a]
  }

  lemma OneMoreReached(q: map<Addr, seq<string>>, to: set<Addr>, a: Addr, m: string)
    requires a in q && a !in to
    ensures WithMessage(q, to + {a}, m) == WithMessage(q, to, m)[a := WithMessage(q, to, m)[a] + [m]]
  {
  }

  lemma PushFrame(s: State, addr: Addr)
    requires Registered(s) && Enabled(s, Push(addr))
    ensures var s' := Apply(s, Push(addr));
            && s'.peers == s.peers && s'.log == s.log
            && forall c :: c in s.conns ==> c in s'.conns && s'.conns[c].received == s.conns[c].received
  {
  }

  /** Pushing changes neither who is registered nor what has been taken out. */
  lemma {:induction false} PushesFrame(s: State, order: seq<Addr>)
    requires Inv(s) && ValidFrom(s, Pushes(order))
    ensures var s' := RunFrom(s, Pushes(order));
            && Inv(s') && s'.peers == s.peers && s'.log == s.log
            && forall c :: c in s.conns ==> c in s'.conns && s'.conns[c].received == s.conns[c].received
    decreases |order|
  {
    if order != [] {
      InvPreserved(s, Push(order[0]));
      PushFrame(s, order[0]);
      assert Pushes(order)[1..] == Pushes(order[1..]);
      PushesFrame(Apply(s, Push(order[0])), order[1..]);
    }
  }

  /** A sequence that visits exactly the given addresses, each once. */
  ghost predicate Visits(order: seq<Addr>, all: set<Addr>) {
    && (forall a :: a in order <==> a in all)
    && (forall i, j :: 0 <= i < j < |order| ==> order[i] != order[j])
  }

  /** A whole broadcast, in any order of the recipients, and what it does to each connection. */
  lemma BroadcastEffect(s: State, c: ConnId, text: string, order: seq<Addr>) returns (s1: State, s2: State)
    requires Inv(s) && Enabled(s, BeginCast(c, text)) && Visits(order, s.peers.Keys - {s.conns[c].addr})
    ensures s1 == Apply(s, BeginCast(c, text)) && ValidFrom(s1, Pushes(order))
    ensures Enabled(RunFrom(s1, Pushes(order)), EndCast) && s2 == Apply(RunFrom(s1, Pushes(order)), EndCast)
    ensures Inv(s2) && s2.peers == s.peers
    ensures forall d :: d in s.conns ==>
              && d in s2.conns && s2.conns[d].received == s.conns[d].received
              && s2.conns[d].queue == s.conns[d].queue + Due(s1, d)
  {
    s1 := Apply(s, BeginCast(c, text));
    InvPreserved(s, BeginCast(c, text));
    AnyOrderCompletes(s1, order);
    PushesFrame(s1, order);
    s2 := Apply(RunFrom(s1, Pushes(order)), EndCast);
    InvPreserved(RunFrom(s1, Pushes(order)), EndCast);
  }

  lemma QueueGrows(q: Conn, q2: Conn, more: seq<Cast>)
    requires q2.queue == q.queue + more
    ensures Waiting(q2) == Waiting(q) + Texts(more)
  {
    assert Texts(q.queue + more) == Texts(q.queue) + Texts(more);
  }

  /** A broadcast that has just begun is due to everyone but its sender. */
  lemma DueToOthers(s: State, c: ConnId, text: string, a: Addr)
    requires Registered(s) && Enabled(s, BeginCast(c, text)) && a in s.peers
    ensures var s1 := Apply(s, BeginCast(c, text));
            && s.peers[a] in s1.conns
            && Due(s1, s.peers[a]) == if a == s.conns[c].addr then [] else [Cast(c, text, |s.log|)]
  {
  }

  lemma QueueAfter(s: State, c: ConnId, text: string, a: Addr, q2: Conn)
    requires Registered(s) && Enabled(s, BeginCast(c, text)) && a in s.peers
    requires var q := s.conns[s.peers[a]];
             q2.queue == q.queue + Due(Apply(s, BeginCast(c, text)), s.peers[a])
    ensures Waiting(q2) == var w := Waiting(s.conns[s.peers[a]]); if a == s.conns[c].addr then w else w + [text]
  {
    DueToOthers(s, c, text, a);
    var due := if a == s.conns[c].addr then [] else [Cast(c, text, |s.log|)];
    QueueGrows(s.conns[s.peers[a]], q2, due);
    assert Texts(due) == if a == s.conns[c].addr then [] else [text];
  }

  lemma QueuesAfter(s: State, s2: State, to: set<Addr>, text: string)
    requires Registered(s) && Registered(s2) && s2.peers == s.peers
    requires forall a :: a in s.peers ==>
               Waiting(s2.conns[s.peers[a]])
               == var w := Waiting(s.conns[s.peers[a]]); if a in to then w + [text] else w
    ensures Queues(s2) == WithMessage(Queues(s), to, text)
  {
  }

  /**
   The loop of PeerMap.Broadcast is a broadcast of the step system: begin, pushes in any order of the
   recipients and end make a run, and leave in the queues of the registered peers what the loop leaves in its own.
   */
  lemma BroadcastIsPushes(s: State, c: ConnId, text: string, order: seq<Addr>) returns (s1: State, s2: State)
    requires Inv(s) && Enabled(s, BeginCast(c, text)) && Visits(order, s.peers.Keys - {s.conns[c].addr})
    ensures s1 == Apply(s, BeginCast(c, text)) && ValidFrom(s1, Pushes(order))
    ensures Enabled(RunFrom(s1, Pushes(order)), EndCast) && s2 == Apply(RunFrom(s1, Pushes(order)), EndCast)
    ensures Queues(s2) == WithMessage(Queues(s), s.peers.Keys - {s.conns[c].addr}, text)
  {
    s1, s2 := BroadcastEffect(s, c, text, order);
    var to := s.peers.Keys - {s.conns[c].addr};
    forall a | a in s.peers
      ensures Waiting(s2.conns[s.peers[a]])
           == var w := Waiting(s.conns[s.peers[a]]); if a in to then w + [text] else w
    {
      QueueAfter(s, c, text, a, s2.conns[s.peers[a]]);
    }
    QueuesAfter(s, s2, to, text);
  }

  /** An unbounded queue, with its receiver; `owner` is the address it was made for. */
  class Channel {
    ghost const owner: Addr
    var items: seq<string>
    var receiver: bool

    constructor (ghost owner: Addr)
      ensures items == [] && receiver && this.owner == owner
    {
      this.owner, items, receiver := owner, [], true;
    }

    /** unbounded_send: fails exactly when the receiver is gone. */
    method Send(m: string) returns (ok: bool)
      modifies this`items
      ensures ok == receiver
      ensures items == if ok then old(items) + [m] else old(items)
    {
      ok := receiver;
      if ok {
        items := items + [m];
      }
    }

    /** The receiving half: takes the next message, if there is one. */
    method Recv() returns (m: Option<string>)
      modifies this`items
      ensures m == if old(items) == [] then None else Some(old(items)[0])
      ensures old(items) == (if m.Some? then [m.value] else []) + items
    {
      if items == [] {
        return None;
      }
      m := Some(items[0]);
      items := items[1..];
    }

    method DropReceiver()
      modifies this`receiver
      ensures !receiver
    {
      receiver := false;
    }
  }

  class PeerMap {
    var peers: map<Addr, Channel>

    /** Every peer has its own queue, with a live receiver. */
    ghost predicate Valid()
      reads this, peers.Values
    {
      forall a :: a in peers ==> peers[a].owner == a && peers[a].receiver
    }

    ghost function Items(): map<Addr, seq<string>>
      reads this, peers.Values
    {
      map a | a in peers :: peers[a].items
    }

    constructor ()
      ensures Valid() && peers == map[]
    {
      peers := map[];
    }

    method Insert(addr: Addr) returns (rx: Channel)
      requires Valid()
      modifies this
      ensures Valid() && fresh(rx) && rx.items == [] && peers == old(peers)[addr := rx]
    {
      rx := new Channel(addr);
      peers := peers[addr := rx];
    }

    method Remove(addr: Addr)
      requires Valid()
      modifies this
      ensures Valid() && peers == old(peers) - {addr}
    {
      peers := peers - {addr};
    }

    /** The end of handle_connection: the entry goes first, so that no registered queue ever lacks its receiver. */
    method Disconnect(addr: Addr, rx: Channel)
      requires Valid() && addr in peers && peers[addr] == rx
      modifies this, rx`receiver
      ensures Valid() && peers == old(peers) - {addr} && !rx.receiver
    {
      Remove(addr);
      rx.DropReceiver();
    }

    /** One recipient of a broadcast; sending to it cannot fail. */
    method SendTo(a: Addr, m: string)
      requires Valid() && a in peers
      modifies peers.Values`items
      ensures Items() == old(Items())[a := old(Items())[a] + [m]]
    {
      var ok := peers[a].Send(m);
      assert ok;
    }

    /** Sends `m` to everyone but its sender, in whatever order the map yields them. */
    method Broadcast(sender: Addr, m: string)
      requires Valid()
      modifies peers.Values`items
      ensures Valid()
      ensures Items() == WithMessage(old(Items()), peers.Keys - {sender}, m)
    {
      var recipients, reached := peers.Keys - {sender}, {};
      while recipients - reached != {}
        invariant reached <= recipients
        invariant Items() == WithMessage(old(Items()), reached, m)
        decreases recipients - reached
      {
        var a :| a in recipients - reached;
        OneMoreReached(old(Items()), reached, a, m);
        SendTo(a, m);
        reached := reached + {a};
      }
      assert reached == recipients;
    }
  }
}
