/**
 What the three flags guarantee over a whole life of the stream, whatever the inner socket returns:
 a history is any sequence of calls, each with an arbitrary inner result.
 */
module StreamFlags {
  import opened Basics
  import opened Framing
  import opened AsyncStream
  import R = StreamRuns

  datatype Rec = Rec(call: Call, reply: Reply)

  type History = seq<Rec>

  function FlagsOf(h: History): Flags {
    if h == [] then FRESH_FLAGS
    else FlagsAfter(FlagsOf(h[..|h| - 1]), h[|h| - 1].call, h[|h| - 1].reply)
  }

  /** The inner operation call `i` performed. */
  function OpAt(h: History, i: nat): Option<InnerOp>
    requires i < |h|
  {
    OpFor(FlagsOf(h[..i]), h[i].call)
  }

  function OutcomeAt(h: History, i: nat): Outcome
    requires i < |h|
  {
    OutcomeOf(FlagsOf(h[..i]), h[i].call, h[i].reply)
  }

  lemma FlagsStep(h: History, i: nat)
    requires i < |h|
    ensures FlagsOf(h[..i + 1]) == FlagsAfter(FlagsOf(h[..i]), h[i].call, h[i].reply)
  {
    assert h[..i + 1][..i] == h[..i];
  }

  // ----- the ready flag

  predicate BlockedSend(h: History, i: nat)
    requires i < |h|
  {
    h[i].call.StartSend? && Blocked(h[i].reply.unit)
  }

  /** An unblocked start_send, a completed poll_ready or poll_flush, or any poll_close. */
  predicate Clears(h: History, i: nat)
    requires i < |h|
  {
    match h[i].call
    case StartSend(_) => !Blocked(h[i].reply.unit)
    case PollReady(_) => !IsPending(OutcomeAt(h, i))
    case PollFlush(_) => !IsPending(OutcomeAt(h, i))
    case PollClose(_) => true
    case PollNext(_) => false
  }

  /** Call `i` left the sink blocked and nothing since, up to call `n`, has cleared that. */
  predicate BlockedSince(h: History, n: nat, i: nat)
    requires n <= |h|
  {
    i < n && BlockedSend(h, i) && forall j :: i < j < n ==> !Clears(h, j)
  }

  /** The flag is false exactly when the latest relevant call is a start_send whose write blocked. */
  lemma {:induction false} ReadyIsHistory(h: History, n: nat)
    requires n <= |h|
    ensures !FlagsOf(h[..n]).ready <==> exists i :: BlockedSince(h, n, i)
  {
    if n > 0 {
      ReadyIsHistory(h, n - 1);
      FlagsStep(h, n - 1);
      if BlockedSend(h, n - 1) {
        assert BlockedSince(h, n, n - 1);
      } else if Clears(h, n - 1) {
        assert FlagsOf(h[..n]).ready;
      } else {
        assert FlagsOf(h[..n]).ready == FlagsOf(h[..n - 1]).ready;
        if !FlagsOf(h[..n]).ready {
          var i :| BlockedSince(h, n - 1, i);
          assert BlockedSince(h, n, i);
        } else if i :| BlockedSince(h, n, i) {
          assert BlockedSince(h, n - 1, i);
        }
      }
    }
  }

  /** A flush that call `j` ran to a result other than WouldBlock. */
  predicate FlushDone(h: History, j: nat)
    requires j < |h|
  {
    OpAt(h, j) == Some(FlushOp) && !Blocked(h[j].reply.unit)
  }

  lemma {:induction false} ReadyAgainMeansFlushed(h: History, i: nat, n: nat)
    requires i < n <= |h| && BlockedSend(h, i) && FlagsOf(h[..n]).ready
    requires forall j :: i < j < n ==> !h[j].call.StartSend? && !h[j].call.PollClose?
    ensures exists j :: i < j < n && FlushDone(h, j)
  {
    FlagsStep(h, n - 1);
    if i < n - 1 {
      if FlagsOf(h[..n - 1]).ready {
        ReadyAgainMeansFlushed(h, i, n - 1);
      } else {
        assert FlushDone(h, n - 1);
      }
    }
  }

  /**
   Backpressure: a caller that sends only after poll_ready has answered Ok, and not once it has
   begun to close, never sends again after a blocked write before some flush has got through.
   */
  lemma BlockedSendIsFlushedFirst(h: History, i: nat, k: nat)
    requires i < k < |h| && BlockedSend(h, i) && h[k].call.StartSend?
    requires exists r :: i < r < k && h[r].call.PollReady? && OutcomeAt(h, r) == Unit(Ready(Ok(())))
    requires forall j :: i < j < k ==> !h[j].call.StartSend? && !h[j].call.PollClose?
    ensures exists j :: i < j < k && FlushDone(h, j)
  {
    var r :| i < r < k && h[r].call.PollReady? && OutcomeAt(h, r) == Unit(Ready(Ok(())));
    FlagsStep(h, r);
    ReadyAgainMeansFlushed(h, i, r + 1);
  }

  // ----- the closing flag

  predicate BlockedClose(h: History, i: nat)
    requires i < |h|
  {
    OpAt(h, i) == Some(CloseOp) && Blocked(h[i].reply.unit)
  }

  /** The flag is set exactly when some close(None) was left blocked. */
  lemma {:induction false} ClosingIsHistory(h: History, n: nat)
    requires n <= |h|
    ensures FlagsOf(h[..n]).closing <==> exists i :: 0 <= i < n && BlockedClose(h, i)
  {
    if n > 0 {
      ClosingIsHistory(h, n - 1);
      FlagsStep(h, n - 1);
      if BlockedClose(h, n - 1) {
        assert FlagsOf(h[..n]).closing;
      }
    }
  }

  /** Once a close(None) is left blocked, `closing` stays set and no later call issues close(None). */
  lemma SingleBlockedClose(h: History, i: nat, j: nat)
    requires i < j <= |h| && BlockedClose(h, i)
    ensures FlagsOf(h[..j]).closing
    ensures j < |h| ==> OpAt(h, j) != Some(CloseOp)
  {
    ClosingIsHistory(h, j);
  }

  // ----- the ended flag

  /** What poll_next returned, Pending left out. */
  function Outputs(h: History): seq<Option<Result<Message>>> {
    if h == [] then []
    else
      var n := |h| - 1;
      var o := OutcomeAt(h, n);
      Outputs(h[..n]) + (if h[n].call.PollNext? && o.next.Ready? then [o.next.value] else [])
  }

  predicate IsOk(o: Option<Result<Message>>) {
    o.Some? && o.value.Ok?
  }

  predicate ClosedError(o: Option<Result<Message>>) {
    o.Some? && o.value.Err? && (o.value.error.ConnectionClosed? || o.value.error.AlreadyClosed?)
  }

  /** Messages, then at most one error, then nothing for ever; a closed connection is no error. */
  predicate Fused(os: seq<Option<Result<Message>>>) {
    && (forall i, j :: 0 <= i < j < |os| && !IsOk(os[i]) ==> os[j] == None)
    && (forall i :: 0 <= i < |os| ==> !ClosedError(os[i]))
  }

  /** is_terminated holds exactly when an error or the end has been returned, and the outputs are fused. */
  lemma {:induction false} OutputIsFused(h: History)
    ensures Fused(Outputs(h))
    ensures FlagsOf(h).ended <==> exists i :: 0 <= i < |Outputs(h)| && !IsOk(Outputs(h)[i])
  {
    if h != [] {
      var n := |h| - 1;
      OutputIsFused(h[..n]);
      assert h[..n][..n] == h[..n];
      var os, p := Outputs(h), Outputs(h[..n]);
      if os != p {
        assert os[..|p|] == p;
        assert forall i :: 0 <= i < |p| ==> os[i] == p[i];
        if FlagsOf(h[..n]).ended {
          var i :| 0 <= i < |p| && !IsOk(p[i]);
          assert !IsOk(os[i]);
        } else if !IsOk(os[|p|]) {
          assert FlagsOf(h).ended;
        }
      }
    }
  }

  lemma {:induction false} EndedStays(h: History, i: nat, j: nat)
    requires i <= j <= |h| && FlagsOf(h[..i]).ended
    ensures FlagsOf(h[..j]).ended
  {
    if i < j {
      EndedStays(h, i, j - 1);
      FlagsStep(h, j - 1);
    }
  }

  /** After an error or the end, poll_next never touches the inner socket again. */
  lemma NoReadAfterEnd(h: History, i: nat, j: nat)
    requires i < j < |h| && h[i].call.PollNext? && h[j].call.PollNext?
    requires OutcomeAt(h, i).next.Ready? && !IsOk(OutcomeAt(h, i).next.value)
    ensures OpAt(h, j) == None && OutcomeAt(h, j) == Next(Ready(None))
  {
    FlagsStep(h, i);
    EndedStays(h, i + 1, j);
  }

  // ----- what is reported

  /** The error an outcome shows to the caller. */
  function ReportedError(o: Outcome): Option<WsError> {
    match o
    case Next(Ready(Some(Err(e)))) => Some(e)
    case Unit(Ready(Err(e))) => Some(e)
    case Sent(Err(e)) => Some(e)
    case _ => None
  }

  /** The error of the inner operation a call performed. */
  function InnerError(h: History, i: nat): Option<WsError>
    requires i < |h|
  {
    if OpAt(h, i).None? then None
    else if h[i].call.PollNext? then (if h[i].reply.read.Err? then Some(h[i].reply.read.error) else None)
    else if h[i].reply.unit.Err? then Some(h[i].reply.unit.error) else None
  }

  /** Errors that are no errors to the caller of `c`: a blocked operation, and a connection closed in order. */
  predicate Swallowed(c: Call, e: WsError) {
    || e == Io(WouldBlock)
    || (e.ConnectionClosed? && (c.PollNext? || c.PollFlush? || c.PollClose?))
    || (e.AlreadyClosed? && c.PollNext?)
  }

  /** Exactly the inner errors that matter are reported, and WouldBlock never is. */
  lemma ErrorsReported(h: History, i: nat)
    requires i < |h|
    ensures ReportedError(OutcomeAt(h, i))
         == if InnerError(h, i).Some? && !Swallowed(h[i].call, InnerError(h, i).value) then InnerError(h, i) else None
    ensures IsPending(OutcomeAt(h, i)) <==> !h[i].call.StartSend? && InnerError(h, i) == Some(Io(WouldBlock))
  {
  }

  // ----- concrete runs are histories

  function ReplyOf(c: Conn, call: Call): Reply {
    match OpFor(c.flags, call)
    case None => NO_REPLY
    case Some(op) => Perform(WithContext(c.sock, call), op).1
  }

  function HistoryOf(cfg: R.Config, t: seq<R.Input>): History {
    if t == [] then []
    else
      var p := t[..|t| - 1];
      var i := t[|t| - 1];
      HistoryOf(cfg, p) + [Rec(i.call, ReplyOf(R.Install(R.After(cfg, p), i.answers), i.call))]
  }

  lemma StepIsRec(c: Conn, call: Call)
    ensures Step(c, call).0.flags == FlagsAfter(c.flags, call, ReplyOf(c, call))
    ensures Step(c, call).1 == OutcomeOf(c.flags, call, ReplyOf(c, call))
  {
  }

  /** Everything proved of histories holds of the runs of a connection. */
  lemma {:induction false} RunIsHistory(cfg: R.Config, t: seq<R.Input>)
    ensures |HistoryOf(cfg, t)| == |t| && R.After(cfg, t).flags == FlagsOf(HistoryOf(cfg, t))
    ensures t != [] ==> R.LastOutcome(cfg, t) == OutcomeAt(HistoryOf(cfg, t), |t| - 1)
  {
    if t != [] {
      var p, i := t[..|t| - 1], t[|t| - 1];
      RunIsHistory(cfg, p);
      StepIsRec(R.Install(R.After(cfg, p), i.answers), i.call);
      assert HistoryOf(cfg, t)[..|t| - 1] == HistoryOf(cfg, p);
    }
  }
}
