# tokio-tungstenite, verified

A Dafny model of the parts of tokio-tungstenite that are protocols of their own, with proofs about
every run, every interleaving and every behaviour of the socket underneath.

| file | what it models |
|---|---|
| `Basics.dfy` | results, polls, wakers, the four waker slots |
| `WakerProtocol.dfy` | two tasks sharing a socket that remembers one waker per direction, as a step system: single-slot registrations, single-slot wakes, socket operations and reactor events, interleaved freely |
| `WakerSimulation.dfy` | an ideal many-waiter socket, the simulation of it by the proxies, what a socket without proxies loses, the balance of registered wakers |
| `WakerHistory.dfy` | the protocol's and the ideal socket's state told from the steps of the run alone: who is asleep, who has been woken, what is held |
| `Compat.dfy` | `AtomicWaker`, `WakerProxy` and `AllowStd` as classes; the socket as a value that answers polls and records them |
| `Framing.dfy` | a self-delimiting frame format with a resumable parser |
| `InnerSocket.dfy`, `SocketFacts.dfy` | the WebSocket machine under the wrapper, and what its operations keep |
| `SocketRecord.dfy` | what the machine's operations answer, told from the socket's own record |
| `AsyncStream.dfy` | `WebSocketStream` as a class: `ready`, `closing`, `ended`, and the poll methods |
| `StreamFlags.dfy` | what the flags guarantee over any history of calls and inner results |
| `StreamRuns.dfy`, `Backpressure.dfy`, `CloseDrive.dfy` | whole runs of a connection |
| `Answers.dfy` | every answer of the stream in a run, told from the socket's record and what the caller knows |
| `HonestPending.dfy` | the link between the two halves: a call is a poll of the waker protocol, and no caller is forgotten |
| `ChatServer.dfy`, `ChatHistory.dfy` | the broadcast of the chat example, and its state told from the steps of the run |
| `Handshake.dfy` | the handshake futures, driving any handshake that works through the adapter |

**How the parts fit.** Each class method is proved equal to a specification function on values
(`AsyncStream.Step`, `InnerSocket.Read` and so on); the whole-run results are lemmas about sequences of
these functions. A run is a sequence of calls, each with a list of answers the socket is going to give
while the call lasts; answers and calls are arbitrary, so a run covers every readiness pattern, partial
write and failure. The socket itself records each operation: the proxy and the bytes it was handed, and its
answer (`Compat.Exchange`). No code of the wrapper writes that record, so what is said of it is said of what
the wrapper did. `ContextWaker::Read` and `ContextWaker::Write` appear as `StreamSide` and `SinkSide`
where they name a caller (`set_waker`) and as `Inbound` and `Outbound` where they pick a proxy
(`with_context`). A handshake is a `Role`: a machine that asks the adapter for one operation at a time and
gives up with its state unchanged when that operation would block, as the wrapped library's client and
server handshakes do; the adapter it worked on is returned beside its result. Rust's `with_context`
closures are written out in the methods that pass them.

**The wrapped library.** tungstenite is not part of the repository. `InnerSocket.WebSocket` stands for
it: an outgoing buffer written out in parts once it exceeds a threshold, replies to pings and close
frames, the closing handshake of section 7 of RFC 6455, and a reader that keeps what it has of a frame.
The five things the wrapper counts on are proved of this machine, not assumed:

- WouldBlock is returned only if the last socket operation of the call was blocked;
- a blocked write has queued its message;
- a partial frame survives WouldBlock;
- a write that returns Ok leaves the buffer within the threshold;
- a sending operation reports ConnectionClosed only when everything accepted has gone out.

They are the contents of `SocketFacts.WriteFacts`, `SocketFacts.FlushFacts`, `SocketFacts.CloseFacts` and
`SocketFacts.ReadFacts`. The fifth is the predicate `SocketFacts.FailsHonestly`. `poll_flush` and
`poll_close` turn ConnectionClosed into Ok (src/lib.rs:383, src/lib.rs:400), so an Ok of theirs means that
the frames are sent only because of it: `StreamRuns.FlushedMeansSent`, `StreamRuns.EndToEndComplete` and
`CloseDrive.CloseDriveEnds` rest on it. It is a property of the stand-in; another inner library would have
to be shown to have it.

What holds of the flags is proved in `StreamFlags` for arbitrary inner results, so it does not depend on
this machine at all.

**Code and comments.** The comment on the `ready` field (src/lib.rs:209-213) says it is true initially
and after flushing. The code also sets it at every `poll_close`, and after a flush that failed; the
model follows the code, and `StreamFlags.ReadyIsHistory` states exactly when the flag is false.

**Beyond the obvious.** A `start_send` that fails with an I/O error has nevertheless queued its message:
`StreamRuns.ExactSending` counts it among the accepted ones. Replies to pings are buffered whether or not
the sink is blocked, so no bound on the whole buffer depends on the caller alone:
`Backpressure.BufferIsBounded` bounds the user's bytes in the buffer, and says that all else in it is the
automatic replies the socket has not taken yet. Replies sent earlier do not count.

## Model

| member | source | states |
|---|---|---|
| WakerProtocol.InvPreserved | src/compat.rs:87-138 | each single step of registering, operating, waking or reacting keeps the invariant that excludes lost wakeups |
| WakerProtocol.NoLostWakeup | src/compat.rs:21-43 | in every reachable state a side that was told Pending and not woken since has its latest waker in that direction's proxy, and the proxy is held by the socket or about to be woken; with no wake under way nothing has happened on that direction. That told Pending and woken mean what they say is WakerHistory.TaskIsHistory |
| WakerProtocol.OwnProxyOnly | src/compat.rs:41-43 | supporting: each half of the socket only ever remembers its own proxy |
| WakerProtocol.EventWakesSleeper | src/compat.rs:116-121 | after an event in a direction a side sleeps on, whatever interleaves, the side is woken by the time no started wake is left |
| WakerProtocol.WakesDrain | src/compat.rs:117-120 | started wakes can always run to their end, in at most two slot steps each |
| WakerProtocol.SleeperCanBeWoken | src/compat.rs:116-121 | one event on a direction a side sleeps on, and the wakes it starts, suffice to wake that side |
| WakerProtocol.AnyInterleaving | src/compat.rs:63-138 | events and wakes interleaved in any way with what the tasks do never disable a task's next step |
| WakerHistory.TaskIsHistory | src/compat.rs:87-121 | in every run a side counts as woken exactly if some wake has taken its latest waker out of a slot since its latest poll began, and waits exactly for the directions that poll was blocked on |
| WakerHistory.PendingSleeps | src/compat.rs:21-43 | a poll that has just ended Pending, with no wake having taken its waker since it began, is asleep on exactly the directions it was blocked on, and not on none; its waker is in their slots, each proxy held or about to be woken |
| WakerHistory.DirIsHistory | src/compat.rs:131-138 | in every run a direction's own proxy is held exactly if the socket has said Pending there since the last event, and the direction is ready exactly if an event has arrived since the socket last said Pending |
| WakerHistory.WakesHaveEvents | src/compat.rs:116-121 | no wake runs on a direction before an event has arrived there |
| WakerSimulation.ProxiesSimulateIdeal | src/compat.rs:34-39 | every side an ideal many-waiter socket would have woken since its last poll began is woken by the two proxies, or a started wake is on its way to it |
| WakerHistory.IdealIsHistory | src/compat.rs:34-39 | the ideal socket has woken a side exactly if an event arrived on a direction its latest poll had been blocked on |
| WakerHistory.EventReachesBlockedPoll | src/compat.rs:21-43 | in every run, once an event has arrived on a direction a side's latest poll was blocked on, its waker has been taken and woken, or a started wake has yet to take it; with none left, it has been |
| WakerSimulation.DirectSocketLosesOvertaken | src/compat.rs:29-32 | in every run, a socket without proxies has lost a side that the ideal socket would wake on a direction exactly if the other side has blocked there since; the proxies have lost none |
| WakerSimulation.DirectSocketForgetsWaiter | src/compat.rs:29-32 | supporting example: without proxies the first of two blocked writers is forgotten, while the ideal socket wakes both |
| WakerSimulation.WakersConserved | src/compat.rs:87-121 | per slot, registrations plus the initial waker equal wakes delivered, wakers overwritten and the one still there |
| WakerSimulation.WakesBounded | src/compat.rs:64-98 | a side is woken at most twice per set_waker call, plus twice for the stream side from construction |
| Compat.CvtRestoresPoll | src/compat.rs:194-203 | supporting: turning Pending into WouldBlock and back with cvt restores every poll result, and makes nothing else Pending |
| Compat.WakerProxy.WakeByRef | src/compat.rs:116-121 | takes and wakes the wakers of both slots and leaves both empty |
| Compat.AllowStd.constructor | src/compat.rs:64-77 | the creating task's waker is the stream waker of both proxies, the sink slots are empty |
| Compat.AllowStd.SetWaker | src/compat.rs:87-98 | puts the waker into its side's slot of both proxies and leaves the other side's slots alone |
| Compat.AllowStd.ContextFor | src/compat.rs:131-136 | reading gets the read proxy, writing the write proxy |
| Compat.AllowStd.Read | src/compat.rs:153-164 | exactly one poll_read, which the socket records as made with the inbound proxy; Pending becomes WouldBlock, anything else is passed on |
| Compat.AllowStd.Write | src/compat.rs:171-180 | exactly one poll_write, recorded as made with the outbound proxy and all the bytes given; Pending becomes WouldBlock |
| Compat.AllowStd.Flush | src/compat.rs:182-191 | exactly one poll_flush, recorded as made with the outbound proxy; Pending becomes WouldBlock |
| SocketFacts.WriteFacts | src/lib.rs:359-373 | the contract of the inner write: an active connection queues the message whatever the result, nothing accepted is taken back, the user's buffered bytes grow by that message at most, WouldBlock is honest, Ok leaves the buffer within the threshold |
| SocketFacts.FlushFacts | src/lib.rs:351-354 | the contract of the inner flush: sends in order, loses no reply, Ok or closed means the buffer is empty, WouldBlock is honest |
| SocketFacts.CloseFacts | src/lib.rs:391-397 | the contract of the inner close: an active connection queues the close frame once, the rest is flushing |
| SocketFacts.ReadFacts | src/lib.rs:314-317 | the contract of the inner read: bytes conserved, every ping and close frame owed a reply, a blocked read leaves no whole frame behind |
| SocketRecord.WriteRecord | src/lib.rs:359-373 | the inner write reports exactly the I/O error the socket gave it last; a closing connection refuses without asking the socket anything |
| SocketRecord.FlushRecord | src/lib.rs:351-354 | the inner flush reports exactly the I/O error the socket gave it last, and Ok only if the last thing the socket did was to complete a flush |
| SocketRecord.CloseRecord | src/lib.rs:391-397 | the inner close does as the inner flush |
| SocketRecord.ReadRecord | src/lib.rs:314-317 | the inner read answers with what the socket answered and with the first frame of the bytes at hand; a blocked reply does not stop it |
| AsyncStream.WebSocketStream.constructor | src/lib.rs:246-248 | a new stream is ready, not closing and not ended |
| AsyncStream.WebSocketStream.PollNext | src/lib.rs:304-328 | poll_next refines the step function of all run results; it ends exactly on an error or the end, reports no closed connection as an error, and registers the waker only if not ended |
| AsyncStream.WebSocketStream.PollReady | src/lib.rs:346-356 | poll_ready refines the step function; afterwards ready holds exactly if it did not answer Pending, and a ready stream's slots are left alone |
| AsyncStream.WebSocketStream.StartSend | src/lib.rs:358-376 | start_send refines the step function; it registers no waker, and whenever it leaves the stream not ready it has answered Ok |
| AsyncStream.WebSocketStream.PollFlush | src/lib.rs:378-387 | poll_flush refines the step function; when it finishes the stream is ready, and a closed connection is no error |
| AsyncStream.WebSocketStream.PollClose | src/lib.rs:389-411 | poll_close refines the step function; it always leaves the stream ready, and sets closing exactly when it answers Pending |
| Answers.PollNextAnswers | src/lib.rs:304-328 | in every run poll_next on a stream that has not ended answers as the socket's answers during the call, the role, the delivered messages and the first frame of the undelivered bytes say, whatever the sink's flags are |
| Answers.PollNextDelivers | src/lib.rs:314-318 | in every run, unless the stream has ended or a close frame was delivered, poll_next delivers a message exactly if the bytes received hold one more whole frame than was delivered and no automatic reply has failed, and it is the next one; blocked replies and a blocked sink do not prevent it |
| Answers.PollNextSendsReplies | src/lib.rs:314-317 | in every run, with an automatic reply to send or to flush, poll_next turns to that before it reads |
| Answers.PollReadyAnswers | src/lib.rs:346-356 | poll_ready asks the socket nothing while ready; otherwise it says what the socket says of a flush, and Ok only if the socket has completed one |
| Answers.StartSendAnswers | src/lib.rs:358-376 | start_send on an open connection fails exactly as the socket does, a blocked write being no failure; on a closing one it fails without asking the socket anything |
| Answers.StartSendBuffers | src/lib.rs:358-361 | start_send with room under the threshold and no reply to send only buffers, and stays ready |
| Answers.PollFlushAnswers | src/lib.rs:378-387 | poll_flush is Pending exactly if the socket said Pending last, fails exactly as the socket does, and is done only if the socket has completed a flush last, or a server's connection is over |
| Answers.PollCloseAnswers | src/lib.rs:389-411 | poll_close answers as poll_flush does, the close frame included |
| StreamFlags.ReadyIsHistory | src/lib.rs:346-390 | ready is false exactly when the latest of all start_send calls, completed poll_ready and poll_flush calls and poll_close calls is a start_send whose write blocked |
| StreamFlags.BlockedSendIsFlushedFirst | src/lib.rs:346-376 | between a blocked start_send and the next one allowed by poll_ready some flush has finished without WouldBlock |
| StreamFlags.ClosingIsHistory | src/lib.rs:389-405 | closing is set exactly when some close(None) was left blocked |
| StreamFlags.SingleBlockedClose | src/lib.rs:389-405 | once a close(None) is left blocked, closing stays set and no later call issues close(None) |
| StreamFlags.OutputIsFused | src/lib.rs:304-337 | Pending aside, poll_next yields messages, then at most one error, then None for ever, never a closed-connection error; is_terminated holds exactly once an error or None has been returned |
| StreamFlags.NoReadAfterEnd | src/lib.rs:307-312 | after an error or the end poll_next returns None without touching the inner socket |
| StreamFlags.ErrorsReported | src/lib.rs:314-411 | supporting: exactly the inner errors other than WouldBlock and, where the method forgives them, closed connections are reported; Pending is answered exactly for WouldBlock, and never by start_send |
| StreamFlags.RunIsHistory | src/lib.rs:205-214 | flags and outcomes of a concrete run are those of its history of inner results |
| StreamRuns.ExactSending | src/lib.rs:346-387 | after any run, bytes taken by the socket followed by bytes buffered are the frames accepted, in order: the user's messages start_send queued and poll_close's close frame, and the replies to what was delivered; at every earlier moment the frames accepted were a prefix of these |
| StreamRuns.FlushedMeansSent | src/lib.rs:378-387 | a poll_flush that answers Ok has handed every accepted frame and every owed reply to the socket |
| StreamRuns.RunReceives | src/lib.rs:219-244 | in every run the bytes received are those handed over at creation followed by those the socket delivered; role and threshold are the configured ones; each direction's socket half remembers its own proxy or none |
| StreamRuns.CancelSafeReading | src/lib.rs:193-200 | for every schedule of polls, what was delivered is a prefix of what an uninterrupted reader gets from the bytes handed over at creation, those the socket delivered and any to come; a Pending has delivered all that is complete |
| StreamRuns.EndToEnd | src/lib.rs:298-412 | a peer that has received a prefix of our bytes has been given a prefix of the messages accepted here |
| StreamRuns.EndToEndComplete | src/lib.rs:298-412 | once a flush here is done and the peer, having received everything, is Pending, it has been given every message accepted here |
| Backpressure.BufferIsBounded | src/lib.rs:346-376 | under the Sink protocol the user's bytes in the buffer stay within the threshold plus one largest frame and, once closing, one close frame; the rest of the buffer is the automatic replies not yet taken by the socket |
| CloseDrive.CloseDriveEnds | src/lib.rs:389-411 | from any reachable state repeated poll_close calls, each wake letting a byte out, end in Ready(Ok) after at most as many Pendings as unsent bytes; only the first can issue close(None) |
| HonestPending.PendingIsHonest | src/lib.rs:250-261 | in every run a call that reaches the socket registers its waker in both proxies first and hands the socket each direction's own proxy; it is Pending exactly if the socket said Pending last, to a read for poll_next, to a write or flush for the sink, and then the socket remembers that direction's proxy |
| HonestPending.BlockedSendMakesReadyFlush | src/lib.rs:359-368 | a start_send whose write blocked answers Ok and makes the next poll_ready flush with its waker registered |
| HonestPending.CallFollowsProtocol | src/lib.rs:250-261 | what a call does is a poll the waker protocol accepts, leaving the slots as set_waker does |
| HonestPending.RunFollowsProtocol | src/lib.rs:298-412 | all calls of a run, one after the other, are polls the waker protocol accepts |
| HonestPending.WrapperNeverLosesWakeup | src/compat.rs:21-43 | in any run of calls, interleaved in any way with events and wakes, every call that answered Pending and whose side has not reached the socket since, whatever the other side did, still has its side waiting for the direction it was told Pending on, with no wakeup lost |
| HonestPending.SocketHoldsProxies | src/compat.rs:131-138 | in any such run the proxy the protocol's socket remembers in a direction is the one the connection's socket was really handed last with a Pending, or an event has taken it; it is never the other direction's |
| ChatServer.TotalOrderBroadcast | examples/server.rs:46-72 | at every step, what a receiver has taken followed by what waits in its queue is the global broadcast log from join to leave without the peer's own messages, unvisited peers lagging by the one in progress |
| ChatHistory.LogIsHistory | examples/server.rs:51-61 | in every run the log is exactly the broadcasts begun, with their texts, in their order |
| ChatHistory.ConnIsHistory | examples/server.rs:46-72 | in every run who has joined, under which address, since which broadcast, who has left and when, whose receiver is gone and how much it has taken are what the steps say |
| ChatHistory.DeliveredInOrder | examples/server.rs:46-72 | in every run a receiver has taken a prefix of others' broadcasts between its join and its leave, as many as it has popped, and with no broadcast under way the rest waits in its queue |
| ChatHistory.PopTakesNext | examples/server.rs:66 | a receiver takes exactly the front message of its queue |
| ChatServer.PeersAgree | examples/server.rs:51-63 | two broadcasts that reached two queues are in the same order in both; senders' orders are kept |
| ChatServer.NoDeadQueue | examples/server.rs:59-72 | every queue in the map has a live receiver and no send has panicked, under any interleaving of joins, broadcasts and leaves |
| ChatServer.AnyOrderCompletes | examples/server.rs:56-61 | whatever order the map yields, a broadcast runs to its end and pushes its message once to each recipient and to nobody else |
| ChatServer.PeerMap.Insert | examples/server.rs:46-47 | a joining peer gets a fresh empty queue under its address |
| ChatServer.PeerMap.Remove | examples/server.rs:72 | a leaving peer's address, and no other, goes from the map |
| ChatServer.PeerMap.Disconnect | examples/server.rs:69-72 | the entry leaves the map before the receiver is dropped, so every registered queue keeps its receiver |
| ChatServer.PeerMap.Broadcast | examples/server.rs:53-61 | the loop appends the message to every queue but the sender's, once, and no send fails |
| ChatServer.BroadcastIsPushes | examples/server.rs:53-61 | begin, pushes in any order of the recipients and end are a run of the step system, and do to the registered queues what the loop of Broadcast does |
| Handshake.StartedHandshakeFuture.Poll | src/handshake.rs:142-152 | runs the start closure once, on an adapter with the polling task's waker in both proxies, and leaves that adapter as the attempt left it; an interruption is handed on as a mid-state, a second poll panics |
| Handshake.MidHandshake.Poll | src/handshake.rs:163-178 | registers the current waker in both proxies, then resumes exactly the stored mid-state on that adapter; Pending exactly on interruption, keeping the new mid-state |
| Handshake.DrivenIsPlain | src/handshake.rs:75-91 | however often and wherever it is interrupted, the handshake is at a point of one plain blocking loop over the same socket: same result and same bytes moved when finished, same loop ahead of it when pending |
| Handshake.Drive | src/handshake.rs:75-91 | over any number of turns the driver yields what the plain blocking loop yields, with the same bytes moved; it never panics and never yields an interruption |
| Handshake.HandshakeFollowsProtocol | src/handshake.rs:142-178 | from AllowStd::new on, the handshake's polls are polls the waker protocol accepts, and a Pending leaves its task waiting for a direction |
| Handshake.HandshakeIsHeld | src/handshake.rs:142-178 | after any turns the socket remembers exactly the proxies the waker protocol says it does |
| Handshake.HandshakeNeverLosesWakeup | src/handshake.rs:163-178 | a handshake left Pending, interleaved in any way with events and wakes, waits for some direction with no wakeup lost |
| Handshake.Connect | src/lib.rs:110-113 | Interrupted never escapes: the fallback arm of the callers' error mapping is dead |
| Handshake.SkippedHandshakeFuture.Poll | src/handshake.rs:48-54 | ready at the first poll with a fresh machine whose proxies hold the polling task's waker |
| Handshake.WithoutHandshake | src/handshake.rs:22-32 | from_raw_socket and from_partially_read give the state every run starts from |

## Left out

- tungstenite itself: masking, fragmentation, UTF-8 checks, close codes, the write buffer's upper limit and HTTP parsing. User messages of kind Pong are ordinary frames in `InnerSocket`, and raw frames are not sent.
- The wire format: `Framing` always writes the length as eight octets, which is one of the three length forms of section 5.2 of RFC 6455.
- Reactor events in the socket of a run: they are steps of the waker protocol, where they take the remembered proxy; the socket of a run keeps what it was last handed.
- AtomicWaker's internals: a slot is taken and replaced atomically.
- The size of the read buffer: a read delivers a chunk of any length.
- Executors, time and the reactor beyond "an event arrives, the stored waker is taken and woken"; tokio's budget and spurious readiness.
- Sockets that break the polling contract, such as one that reports WouldBlock as a ready error; `Compat.Answer` cannot express it.
- with_context: its closure argument is written out in each caller, in both the adapter and the stream.
- AsyncStream.WebSocketStream.DriveClose: the two arms of poll_close's first match, kept apart so that the method stays small; it is not a function of the source.
- into_inner, get_ref, get_mut and get_config, which return a field; get_mut lets a caller use the socket behind the wrapper's back, which no result covers.
- The mutual exclusion of polls, which Rust enforces by exclusive references (and `split` by a lock), is built into the waker protocol's `Idle` guard.
- A waiter of the ideal socket is one of the latest poll of its side: a new poll replaces what its side waited for before.
- ChatServer: two registered connections with the same address, poisoned locks and messages that are not text are assumed away; accepting, printing and the select of the two futures appear only as joining and leaving.
- Handshake: the executor's turns are one attempt each; in the source the first turn starts and, if interrupted, resumes at once with the same waker, which is the special case of a second turn that brings no new answer.
- Handshake: a role decides from its own state and the results of its operations; the request, the callback and the parsing behind those decisions are tungstenite's.
- Compat.AllowStd.Environment: what the socket has to offer changes between two polls of a handshake; it is not a function of the source.
- ChatServer.PeerMap.SendTo: the body of the broadcast loop, kept apart so that the method stays small.
- AsyncStream.CloseAnswer: the second match of poll_close, as a function of the inner result.
- TLS, connecting, the other examples, logging and the Autobahn scripts.
