/** Driving a close to its end: every wake that lets at least one byte out brings it nearer. */
module CloseDrive {
  import opened Basics
  import opened Framing
  import opened Compat
  import opened InnerSocket
  import opened SocketFacts
  import opened AsyncStream
  import opened StreamRuns
  import opened Backpressure

  /** The socket may block but does not fail, and takes something whenever it takes. */
  predicate Helpful(plan: seq<Answer>) {
    forall i :: 0 <= i < |plan| ==> plan[i].Block? || (plan[i].Go? && plan[i].amount >= 1)
  }

  /** ... and takes something at once, as after a wake. */
  predicate Advancing(plan: seq<Answer>) {
    Helpful(plan) && plan != [] && plan[0].Go?
  }

  /** Bytes that must leave before the close is complete. */
  function Unsent(s: Sock): nat {
    |s.out| + (if s.reply.Some? then |Encode(s.reply.value)| else 0)
    + (if s.status.Active? then |Encode(CLOSE_NONE)| else 0)
  }

  /** Over a helpful socket an operation only blocks, and blocks at once only if the socket does. */
  predicate Progress<T>(s: Sock, r: Ran<T>) {
    && Helpful(r.sock.std.net.plan)
    && (r.res.Err? ==> Blocked(r.res) || r.res.error.ConnectionClosed?)
    && s.std.net.sent <= r.sock.std.net.sent
    && (Blocked(r.res) && Advancing(s.std.net.plan) ==> |r.sock.std.net.sent| > |s.std.net.sent|)
  }

  /** ... and, if it moved no byte and did not block, has asked the socket nothing. */
  predicate Idempotent<T>(s: Sock, r: Ran<T>) {
    r.res.Ok? && |r.sock.std.net.sent| == |s.std.net.sent| ==> r.sock.std.net.plan == s.std.net.plan
  }

  lemma {:induction false} WriteOutProgress(s: Sock)
    requires Helpful(s.std.net.plan)
    ensures Progress(s, WriteOut(s)) && Idempotent(s, WriteOut(s))
    ensures WriteOut(s).res.Err? ==> Blocked(WriteOut(s).res)
    decreases |s.std.net.plan|
  {
    if s.out != [] {
      var (std, w) := s.std.Write(s.out);
      if w.Ok? {
        assert |std.net.sent| == |s.std.net.sent| + w.value;
        WriteOutProgress(s.(std := std, out := s.out[w.value..]));
      }
    }
  }

  lemma Chain<T, U>(a: Sock, r: Ran<T>, s: Sock, q: Ran<U>)
    requires Progress(a, r) && Idempotent(a, r) && r.res.Ok? && s.std == r.sock.std
    requires Progress(s, q)
    ensures Progress(a, q)
    ensures Idempotent(s, q) ==> Idempotent(a, q)
  {
  }

  lemma BufferProgress(s: Sock, e: Entry)
    requires Helpful(s.std.net.plan)
    ensures Progress(s, BufferFrame(s, e)) && Idempotent(s, BufferFrame(s, e))
  {
    WriteOutProgress(Push(s, e));
  }

  lemma FinishProgress(s: Sock, flush: bool)
    requires Helpful(s.std.net.plan)
    ensures Progress(s, Finish(s, flush)) && Idempotent(s, Finish(s, flush))
  {
    WriteOutProgress(s);
  }

  lemma ReplyProgress(s: Sock)
    requires Helpful(s.std.net.plan)
    ensures Progress(s, WriteReply(s)) && Idempotent(s, WriteReply(s))
  {
    if s.reply.None? {
      FinishProgress(s, s.unflushed);
    } else {
      var s1, e := s.(reply := None), Auto(s.reply.value);
      BufferProgress(s1, e);
      var b := BufferFrame(s1, e);
      if b.res.Ok? {
        FinishProgress(b.sock, true);
        Chain(s1, b, b.sock, Finish(b.sock, true));
      }
    }
  }

  lemma FrameProgress(s: Sock, m: Message)
    requires Helpful(s.std.net.plan)
    ensures Progress(s, WriteFrame(s, m)) && Idempotent(s, WriteFrame(s, m))
  {
    BufferProgress(s, User(m));
    var b := BufferFrame(s, User(m));
    if b.res.Ok? {
      ReplyProgress(b.sock);
      Chain(s, b, b.sock, WriteReply(b.sock));
    }
  }

  lemma FlushSocketProgress(s: Sock)
    requires Helpful(s.std.net.plan)
    ensures Progress(s, FlushSocket(s))
  {
  }

  lemma FlushProgress(s: Sock)
    requires Helpful(s.std.net.plan)
    ensures Progress(s, Flush(s))
  {
    ReplyProgress(s);
    var b := WriteReply(s);
    if b.res.Ok? {
      WriteOutProgress(b.sock);
      var w := WriteOut(b.sock);
      Chain(s, b, b.sock, w);
      if w.res.Ok? {
        FlushSocketProgress(w.sock);
        Chain(s, w, w.sock, FlushSocket(w.sock));
      }
    }
  }

  lemma CloseProgress(s: Sock, m: Message)
    requires Helpful(s.std.net.plan)
    ensures Progress(s, DoClose(s, m))
  {
    if s.status.Active? {
      var s1 := s.(status := ClosedByUs);
      FrameProgress(s1, m);
      var b := WriteFrame(s1, m);
      if b.res.Ok? {
        FlushProgress(b.sock);
        Chain(s1, b, b.sock, Flush(b.sock));
      }
    } else {
      FlushProgress(s);
    }
  }

  /** Bytes are conserved: what becomes sent is no longer unsent. */
  lemma UnsentConserved(s: Sock, s': Sock)
    requires Exact(s) && Exact(s') && Owed(s') == Owed(s) && !s'.status.Active?
    requires Users(s'.accepted) == Users(s.accepted) + (if s.status.Active? then [CLOSE_NONE] else [])
    ensures Unsent(s') + |s'.std.net.sent| == Unsent(s) + |s.std.net.sent|
  {
    SizeSplits(s.accepted);
    SizeSplits(s'.accepted);
    OwedSize(s);
    OwedSize(s');
    EncodeAllPush(Users(s.accepted), CLOSE_NONE);
    assert Users(s.accepted) + [] == Users(s.accepted);
  }

  lemma OwedSize(s: Sock)
    ensures Size(Owed(s)) == Size(Autos(s.accepted)) + (if s.reply.Some? then |Encode(s.reply.value)| else 0)
  {
    if s.reply.Some? {
      EncodeAllPush(Autos(s.accepted), s.reply.value);
    } else {
      assert Owed(s) == Autos(s.accepted);
    }
  }

  predicate Drivable(c: Conn) {
    Exact(c.sock) && (c.flags.closing ==> !c.sock.status.Active?)
  }

  /** Blocked, it has queued the close frame at most, so that what it sent is no longer unsent. */
  lemma BlockedDrive(c: Conn, w: Waker, r: Ran<()>)
    requires Drivable(c) && CloseRunKeeps(c, w, r) && Blocked(r.res)
    ensures var s := WithContext(c.sock, PollClose(w));
            && Drivable(Left(c, PollClose(w), r)) && Left(c, PollClose(w), r).flags.closing
            && Unsent(r.sock) + |r.sock.std.net.sent| == Unsent(s) + |s.std.net.sent|
  {
    var s := WithContext(c.sock, PollClose(w));
    assert Users(s.accepted) + [] == Users(s.accepted);
    UnsentConserved(s, r.sock);
  }

  lemma DriveFromResult(c: Conn, w: Waker, r: Ran<()>)
    requires Drivable(c) && Advancing(c.sock.std.net.plan)
    requires CloseRunKeeps(c, w, r) && Progress(WithContext(c.sock, PollClose(w)), r)
    ensures Said(c, PollClose(w), r) == Unit(Ready(Ok(()))) || Said(c, PollClose(w), r) == Unit(Pending)
    ensures var c' := Left(c, PollClose(w), r);
            Said(c, PollClose(w), r) == Unit(Pending) ==>
              Drivable(c') && c'.flags.closing && Unsent(c'.sock) < Unsent(c.sock)
  {
    if Blocked(r.res) {
      BlockedDrive(c, w, r);
    } else if r.res.Ok? {
      assert r.res.value == ();
    }
  }

  /** One poll_close over an advancing socket finishes, or leaves fewer bytes and the close under way. */
  lemma DriveStep(c: Conn, i: Input)
    requires Drivable(c) && i.call.PollClose? && Advancing(i.answers)
    ensures var (c', o) := Exec(c, i);
            && (o == Unit(Ready(Ok(()))) || o == Unit(Pending))
            && (o == Unit(Pending) ==> Drivable(c') && c'.flags.closing && Unsent(c'.sock) < Unsent(c.sock))
  {
    var c1, w := Install(c, i.answers), i.call.waker;
    var s := WithContext(c1.sock, PollClose(w));
    CloseRunFacts(c1, w);
    if c.flags.closing {
      FlushProgress(s);
    } else {
      CloseProgress(s, CLOSE_NONE);
    }
    DriveFromResult(c1, w, CloseRun(c1, w));
    CloseStepIs(c1, w);
  }

  function RunOn(c: Conn, u: seq<Input>): Conn
    decreases |u|
  {
    if u == [] then c else RunOn(Exec(c, u[0]).0, u[1..])
  }

  predicate Driving(u: seq<Input>) {
    forall i :: 0 <= i < |u| ==> u[i].call.PollClose? && Advancing(u[i].answers)
  }

  /** The first `n` of the calls are Pending, the next answers Ok; after the first there is only flushing. */
  predicate EndsAfter(c: Conn, u: seq<Input>, n: nat)
    requires n < |u|
  {
    && Exec(RunOn(c, u[..n]), u[n]).1 == Unit(Ready(Ok(())))
    && (forall j :: 0 <= j < n ==> Exec(RunOn(c, u[..j]), u[j]).1 == Unit(Pending))
    && (forall j :: 0 < j <= n ==> OpFor(RunOn(c, u[..j]).flags, u[j].call) == Some(FlushOp))
  }

  lemma EndsOneLater(c: Conn, u: seq<Input>, k: nat)
    requires k + 1 < |u| && EndsAfter(Exec(c, u[0]).0, u[1..], k)
    requires Exec(c, u[0]).1 == Unit(Pending)
    requires OpFor(Exec(c, u[0]).0.flags, u[1].call) == Some(FlushOp)
    ensures EndsAfter(c, u, k + 1)
  {
    var c' := Exec(c, u[0]).0;
    forall j | 0 < j <= k + 1
      ensures RunOn(c, u[..j]) == RunOn(c', u[1..][..j - 1])
    {
      assert u[..j][1..] == u[1..][..j - 1];
    }
    assert u[1..][..0] == [];
  }

  lemma {:induction false} DriveFrom(c: Conn, u: seq<Input>) returns (n: nat)
    requires Drivable(c) && Driving(u) && |u| > Unsent(c.sock)
    ensures n <= Unsent(c.sock) && EndsAfter(c, u, n)
    decreases |u|
  {
    var (c', o) := Exec(c, u[0]);
    DriveStep(c, u[0]);
    if o == Unit(Pending) {
      var k := DriveFrom(c', u[1..]);
      EndsOneLater(c, u, k);
      n := k + 1;
    } else {
      n := 0;
      assert u[..0] == [];
    }
  }

  lemma LinkedIsDrivable(c: Conn, l: Ledger)
    requires Linked(c, l)
    ensures Drivable(c)
  {
  }

  /**
   The close drive terminates: from any state a run can reach, repeating poll_close while every wake
   lets at least one byte out ends in Ready(Ok) after at most as many Pendings as there are unsent
   bytes; only the first of these calls can start the closing handshake, the others flush.
   */
  lemma CloseDriveEnds(cfg: Config, t: seq<Input>, u: seq<Input>) returns (n: nat)
    requires Driving(u) && |u| > Unsent(After(cfg, t).sock)
    ensures n <= Unsent(After(cfg, t).sock) && EndsAfter(After(cfg, t), u, n)
    ensures OpFor(After(cfg, t).flags, u[0].call) == Some(if After(cfg, t).flags.closing then FlushOp else CloseOp)
  {
    RunLinked(cfg, t);
    LinkedIsDrivable(After(cfg, t), LedgerOf(cfg, t));
    n := DriveFrom(After(cfg, t), u);
  }
}
