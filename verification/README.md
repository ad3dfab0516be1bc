# Verified model of the RPC library and the extent file system

This project models the core of a small distributed file system: an RPC library with at-most-once
calls (`lab/rpc`), and a file system client over an extent server (`lab/yfs_client.cc`,
`lab/extent_server.cc`). It states what the code promises over whole runs, and proves it with Dafny.

Code that changes objects in place is modelled by classes whose methods keep the loops and branches
of the source. Each method is tied by its `ensures` to a function on values, and these functions are
the steps of transition systems in which every interleaving is possible. The theorems are about those
transition systems. A wait on a condition variable gives up the lock, so an operation that waits is
cut at its waits, and each piece is one step.

| module | what it models |
|---|---|
| `XidWindow`, `RpcClient` | the client end point: `calls_`, `xid_rep_window_`, the packet stamped for a call |
| `ReplyWindow`, `RpcServer` | the server's list of requests and saved replies for each client |
| `Protocol`, `ProtocolInvariant`, `ProtocolTheorems` | clients, network and servers together: what never happens |
| `ProtocolProgress` | the same system: what requests are answered, and calls that succeed |
| `RetryTimer` | the waiting loop of a call |
| `Connection`, `ConnectionRuns` | PDU framing, the shared write slot, partial reads and writes |
| `ConnectionProgress` | the exact outcome of each step of a connection, what is delivered, and that everything can be |
| `ConnectionWakeups`, `ConnectionSends` | what wakes the threads inside `send`, the ways in which a connection dies, and sends that succeed |
| `SelectAio`, `PollMgr` | the watched descriptors, and the removal handshake with the poll thread |
| `Fifo`, `ThrPool` | the blocking queue, and shutdown by poison pills |
| `Codec`, `Marshall` | the wire format, the growing buffer, the headers written over its prefix |
| `Directory`, `Yfs`, `YfsTheorems` | directory listings, the extent store, `createfile` as insert-if-absent |

Where the code does less than one would expect of it, the model follows the code:

- The server keeps no watermark of what a client has acknowledged. A copy of a request that arrives
  after its entry was purged is run again (`ProtocolTheorems.LateCopyRunsAgain`). At-most-once holds
  for as long as the client has not recorded the call (`AtMostOnceWhileOpen`), and the exact condition
  for a second NEW verdict is `ReplyWindow.NewAgainIffPurged`.
- `checkduplicate_and_update` stops at a match, so only a NEW verdict comes with a complete purge
  (`ReplyWindow.NewMeansAbsent`, `ReplyWindow.MatchAnswers`).
- `xid_rep_window_` may hold a value twice, because a reply and the end of its call both record it.
- `add_timespec` normalises with `>`: a sum of exactly 10^9 ns is left as it is
  (`RetryTimer.AddTimespec`). The operating system refuses such a deadline, and the wait then ends only
  with an answer.
- `deserialize` refuses a list that ends with an empty name (`Directory.RoundTripIff`), so creating
  an empty name makes the directory unreadable (`YfsTheorems.ReadableAfterCreateIff`).
- The comment above `block_remove_fd` promises that no callback comes after its return. The wait in it is
  not in a loop, so a spurious wake-up can end it, and nothing keeps others from adding the descriptor back
  during the removal. The exact condition, whatever happened before, is that no callback for the descriptor
  is running at the return (`PollMgr.CallbackAfterReturnIff`); this can fail only if the wake-up was spurious or
  the descriptor was added during the removal (`PollMgr.RunningAtReturnNeeds`), and each of the two alone is
  enough (`PollMgr.SpuriousWakeBreaksRemoval`, `PollMgr.AddingAgainBreaksRemoval`). Adding during the removal
  also leaves the descriptor watched without a callback (`PollMgr.OrphanedIff`).

- `closeconn` sets `dead_` and signals nobody. A send that sleeps then until the rest of its PDU is out, although
  its wait is over, is never woken, and neither is any send that sleeps on its slot. This is the only way in which
  a wake-up of `send` is lost (`ConnectionWakeups.StrandedIff`, `OwnerWakesIff`, `SleepersWakeIff`; a run that gets
  there is `ClosingStrands`).
- `write_cb` asserts that the connection is alive. The assertion can fail while write callbacks are registered and
  the removal that follows the end of the connection has not returned, and only then
  (`ConnectionWakeups.AssertionFailsIff`, `AssertionCanFail`).

Assumed throughout: nonces of clients and servers are nonzero and distinct, xids stay below 2^32,
lengths of buffers and lists fit the integers that carry them, the machine is little-endian, and `char`
in a map key compares as an unsigned byte.

## Model

| member | source | states |
|---|---|---|
| `XidWindow.Front` | lab/rpc/rpc.cc:184 | there is a largest F such that 1..F were all reported; this is what a request acknowledges |
| `XidWindow.OpenAboveFront` | lab/rpc/rpc.cc:245-252 | an xid not yet reported lies above the front, so it is never acknowledged |
| `XidWindow.InsertCovers` | lab/rpc/rpc.cc:341-349 | inserting in order keeps the list sorted and makes it stand for one more xid |
| `XidWindow.PopCovers` | lab/rpc/rpc.cc:355-356 | dropping the front is right when the next value is the front again or its successor |
| `XidWindow.CompressedRepresents` | lab/rpc/rpc.cc:351-357 | once no element is the successor of the front, the front is the largest F with 1..F reported and the rest are exactly the reported xids above it |
| `RpcClient.Rpcc.constructor` | lab/rpc/rpc.cc:100-131 | a new client has reported nothing, is unbound, and starts at xid 1 with window [0] |
| `RpcClient.Rpcc.UpdateXidRep` | lab/rpc/rpc.cc:332-358 | for every order and repetition of reports the list stays sorted and non-empty, its front is the largest F with 1..F reported, its values above F are exactly the reported ones |
| `RpcClient.Rpcc.Compress` | lab/rpc/rpc.cc:351-357 | one pass suffices, and the node popped is never the one under the cursor |
| `RpcClient.Rpcc.BeginCall` | lab/rpc/rpc.cc:167-186 | answers an unbound call and a second bind with `bind_failure`; otherwise takes a new xid and stamps the packet with the front of this moment |
| `RpcClient.Rpcc.GotPdu` | lab/rpc/rpc.cc:293-329 | records the xid of every reply, and gives the result to the call only if it is still waiting |
| `RpcClient.Rpcc.EndCall` | lab/rpc/rpc.cc:245-264 | the call leaves the table and is recorded; it returns its saved result or a timeout |
| `RpcClient.Rpcc.FinishBind` | lab/rpc/rpc.cc:149-158 | a bind that returned 0 makes its result the server nonce of all later calls |
| `ReplyWindow.NewMeansAbsent` | lab/rpc/rpc.cc:643-678 | a request is NEW exactly when its xid is not in the list, and then every entry up to the acknowledgement is gone and the new one is last |
| `ReplyWindow.MatchAnswers` | lab/rpc/rpc.cc:643-674 | what a match answers (FORGOTTEN, DONE with the saved reply, INPROGRESS), and that only the entries before it are purged |
| `ReplyWindow.ScanKeeps` | lab/rpc/rpc.cc:643-678 | exactly which xids are in the list afterwards |
| `ReplyWindow.ScanMembers` | lab/rpc/rpc.cc:643-678 | no entry is made up or altered, and entries above the acknowledgement survive |
| `ReplyWindow.ScanDistinct` | lab/rpc/rpc.cc:643-678 | distinct xids stay distinct |
| `ReplyWindow.SaveEffect` | lab/rpc/rpc.cc:601-617 | saving a reply changes the stored reply of one entry and nothing else |
| `ReplyWindow.RunDistinct` | lab/rpc/rpc.cc:601-679 | after any sequence of checks and saves with arbitrary xids and acknowledgements the list holds no xid twice |
| `ReplyWindow.PresenceStep` | lab/rpc/rpc.cc:601-679 | an xid is in the list after an operation exactly if the operation was its NEW verdict, or it was there and was not purged |
| `ReplyWindow.TwoNewsNeedAcknowledgement` | lab/rpc/rpc.cc:636-679 | two NEW verdicts for one xid have strictly between them a request that acknowledges it |
| `ReplyWindow.NewAgainIffPurged` | lab/rpc/rpc.cc:664-678 | a copy of an accepted request is NEW again if and only if some purge walk since then reached its entry with an acknowledgement at or above it |
| `ReplyWindow.ReplyRetained` | lab/rpc/rpc.cc:601-617 | a saved reply above every later acknowledgement stays, unchanged |
| `ReplyWindow.Pigeonhole` | lab/rpc/rpc.cc:643-678 | a list of distinct xids in (r, M] has at most M - r entries |
| `ReplyWindow.WindowBound` | lab/rpc/rpc.cc:643-678 | after a NEW verdict with acknowledgement r the list holds distinct xids in (r, M], M the largest seen |
| `RpcServer.Rpcs.CheckDuplicateAndUpdate` | lab/rpc/rpc.cc:636-679 | the loop that erases while it iterates gives the verdict and the list of the walk specified by `Scan` |
| `RpcServer.Rpcs.AddReply` | lab/rpc/rpc.cc:601-617 | the loop stores the reply in the first entry for the xid; without one nothing is stored |
| `RpcServer.Rpcs.Receive` | lab/rpc/rpc.cc:444-545 | an old server nonce is answered `oldsrv_failure`, an unknown procedure is dropped, NEW runs the handler, DONE replays the saved reply, INPROGRESS is silent, FORGOTTEN is refused |
| `RpcServer.Rpcs.Finish` | lab/rpc/rpc.cc:559-563 | the reply is saved for clients that want at-most-once |
| `ProtocolInvariant.ScanFacts` | lab/rpc/rpc.cc:643-678 | a packet that acknowledges less than its own xid is never FORGOTTEN, is remembered afterwards, and costs no entry above its acknowledgement |
| `ProtocolInvariant.BoundNonceKnown` | lab/rpc/rpc.cc:149-158 | the nonce a client takes from a bind is that of an instance that has existed |
| `ProtocolInvariant.StillRemembered` | lab/rpc/rpc.cc:664-668 | a purge spares every open call |
| `ProtocolInvariant.NextClientSide` | lab/rpc/rpc.cc:167-329 | every client step keeps calls, records, packets and results in order |
| `ProtocolInvariant.NextServerSide` | lab/rpc/rpc.cc:444-679 | every server step, a restart included, keeps lists, tasks, replies and the log of executions in order |
| `ProtocolInvariant.NextInv` | lab/rpc/rpc.cc:167-679 | every step of clients, network and servers keeps the invariant of the protocol |
| `ProtocolInvariant.ReachableInv` | lab/rpc/rpc.cc:444-679 | every state of every run satisfies the invariant |
| `ProtocolTheorems.AtMostOnceWhileOpen` | lab/rpc/rpc.cc:499-580 | in every run with loss, duplication, reordering, retransmission, overlapping handlers, many clients and restarts, an open call has run at most once (a bind: at most once at each instance) |
| `ProtocolTheorems.RunsIffNotRemembered` | lab/rpc/rpc.cc:468-545 | a copy of a request runs exactly when it is addressed to this instance, its procedure exists, and the instance does not remember it |
| `ProtocolTheorems.AcknowledgementsBelow` | lab/rpc/rpc.cc:181-185 | every packet on the wire acknowledges less than its own xid and only xids its client has recorded |
| `ProtocolTheorems.NeverForgotten` | lab/rpc/rpc.cc:590-596 | correct clients are never answered `atmostonce_failure` |
| `ProtocolTheorems.RecordedIffDone` | lab/rpc/rpc.cc:245-252 | a call is recorded if and only if it is done or has left `calls_` |
| `ProtocolTheorems.OnlyTheBoundInstanceRuns` | lab/rpc/rpc.cc:468-478 | over any number of restarts a call other than bind runs only at the instance whose nonce its client got from a bind |
| `ProtocolTheorems.AcceptedResult` | lab/rpc/rpc.cc:305-326 | a reply accepted for a waiting call is `oldsrv_failure`, or return value and bytes of an execution of that call; for a call other than bind it is the only execution so far |
| `ProtocolTheorems.ReturnedResult` | lab/rpc/rpc.cc:245-264 | a finished call returned a timeout, `oldsrv_failure`, or the result of an execution of the call; for a call other than bind, of the first |
| `ProtocolTheorems.SettledForEver` | lab/rpc/rpc.cc:308-326 | once a call has a result, no later reply, copy or restart changes it |
| `ProtocolTheorems.WindowStaysSmall` | lab/rpc/rpc.cc:664-678 | in every run, after NEW with acknowledgement r the list has at most M - r entries, distinct, in (r, M], M the largest xid sent |
| `ProtocolTheorems.SavedReplyKept` | lab/rpc/rpc.cc:601-617 | while a call is open and its instance lives, no step removes or alters its saved reply |
| `ProtocolTheorems.LateCopyRunsAgain` | lab/rpc/rpc.cc:664-678 | from every state with an idle bound client there is a run in which a late copy of a purged request is executed a second time |
| `ProtocolProgress.PacketsCarryTheCall` | lab/rpc/rpc.cc:181-207 | in every run, each packet of a call, and each execution of it, has the procedure, the arguments and the server nonce that the call began with, and acknowledges exactly the front of what was reported at that moment |
| `ProtocolProgress.EveryPacketWasBegun` | lab/rpc/rpc.cc:181-207 | every packet on the wire belongs to a call that its client has begun |
| `ProtocolProgress.DuplicateAnswered` | lab/rpc/rpc.cc:586-589 | in every run, a copy of a request whose reply is saved puts the saved reply on its way, and runs nothing |
| `ProtocolProgress.RunningIgnored` | lab/rpc/rpc.cc:583-585 | a copy of a request that is still running changes neither replies nor tasks |
| `ProtocolProgress.NewStarted` | lab/rpc/rpc.cc:540-547 | a request that is not remembered starts its handler and is entered in the list |
| `ProtocolProgress.StrangersTurnedAway` | lab/rpc/rpc.cc:468-490 | a request for another instance is answered `oldsrv_failure`, one for an unknown procedure is dropped, and nothing else happens |
| `ProtocolProgress.OptedOut` | lab/rpc/rpc.cc:532-536 | a request with client nonce 0 runs every time and leaves no trace in the lists |
| `ProtocolProgress.NoReplyDropped` | lab/rpc/rpc.cc:547-582 | in every run, the reply of every execution by the living instance has been sent, or its dispatch thread still holds it |
| `ProtocolProgress.CopiesAnswered` | lab/rpc/rpc.cc:559-589 | in every run, once an open call has run and its reply has been saved by the thread that ran it, every further copy of its packet is answered with the result of that execution |
| `ProtocolProgress.CallCanSucceed` | lab/rpc/rpc.cc:167-265 | from every reachable state in which a client may begin a call, some run lets its handler run once more, with its arguments, and lets the call return what the handler returned |
| `ProtocolProgress.BindCanSucceed` | lab/rpc/rpc.cc:149-165 | from every reachable state an unbound client can come to be bound to the present instance |
| `RetryTimer.CmpSound` | lab/rpc/rpc.cc:954-969 | the comparison orders times as they are, strictly so on normalised ones |
| `RetryTimer.AddTimespec` | lab/rpc/rpc.cc:971-982 | total nanoseconds are preserved, and the result is normalised unless the nanoseconds add up to exactly 10^9 |
| `RetryTimer.AwaitReply` | lab/rpc/rpc.cc:189-243 | done exactly if the reply has come; each wait but the last is a full one of 1000 * 2^k ms within the final deadline, and the last is full or cut at the final deadline; at most log2(to/1000 + 1) waits before it, for every nonnegative timeout; every timeout used fits an `int`, and so does the last doubled value below 2^21 - 1 seconds; giving up only after the final deadline |
| `Connection.Channel.WritePdu` | lab/rpc/connection.cc:220-244 | one partial write: which bytes go out, and the slot after success, EAGAIN and failure |
| `Connection.Channel.SendEnters` | lab/rpc/connection.cc:103-157 | `send` up to its first wait, or to its end |
| `Connection.Channel.SendWakesForSlot` | lab/rpc/connection.cc:107-149 | `send` when it wakes for the free slot |
| `Connection.Channel.SendWakesWhenDone` | lab/rpc/connection.cc:145-156 | `send` when it wakes for completion |
| `Connection.Channel.CloseConn` | lab/rpc/connection.cc:58-71 | the connection is dead afterwards, and only the caller that killed it goes on to remove the callbacks |
| `Connection.Channel.WriteCb` | lab/rpc/connection.cc:160-184 | the write callback goes on with the PDU in the slot, or finds it empty; when it deletes its registration, and when it signals the sender |
| `Connection.Channel.ReadPdu` | lab/rpc/connection.cc:246-301 | the size word, then the body as it comes |
| `Connection.Channel.ReadCb` | lab/rpc/connection.cc:187-218 | a complete PDU is offered, and leaves the buffer only if it is accepted; a failed read kills the connection and signals the sender |
| `Connection.FrameCarries` | lab/rpc/connection.cc:226-231 | a frame is its buffer with the length in the first four bytes, most significant first |
| `ConnectionRuns.FlatAt` | lab/rpc/connection.cc:226-231 | where each frame lies in the byte stream |
| `ConnectionRuns.TakeEffect` | lab/rpc/connection.cc:116-156 | a take of the free slot writes a beginning of the frame, returns true only for all of it, and otherwise leaves the rest in the slot |
| `ConnectionRuns.TakeSlot` | lab/rpc/connection.cc:116-156 | a thread that takes the free slot starts its frame right behind the last complete one |
| `ConnectionRuns.HeadOk` | lab/rpc/connection.cc:248-286 | a whole size word read at a frame boundary is the length of the next frame |
| `ConnectionRuns.BodyOk` | lab/rpc/connection.cc:288-300 | reads of any size assemble the next frame byte for byte |
| `ConnectionRuns.NextInv` | lab/rpc/connection.cc:103-301 | every step of any number of senders, the poll thread and the reader keeps wire, slot, senders and reader in order |
| `ConnectionRuns.TakenIsPrefix` | lab/rpc/connection.cc:187-301 | the PDUs taken are a prefix of those put on the wire, in order and byte for byte with the size word |
| `ConnectionRuns.TrueMeansWritten` | lab/rpc/connection.cc:151-156 | each `send` that returned true has a frame of its own on the wire, whole, contiguous and between whole frames; two such sends have two frames, in the order of their returns, even if their buffers are equal |
| `ConnectionRuns.NeverInterleaved` | lab/rpc/connection.cc:103-184 | the wire is whole frames and a beginning of one more, and the slot is free before that one is whole only if the connection is dead |
| `ConnectionRuns.DeadIsFinal` | lab/rpc/connection.cc:112-115 | nothing follows on the wire once the sending end is dead |
| `ConnectionRuns.RefusedIsOfferedAgain` | lab/rpc/connection.cc:197-217 | in every later state of every run a complete PDU is still in the buffer, with nothing read or taken meanwhile, or it was the next one taken: refusals neither lose nor repeat it |
| `ConnectionRuns.WaitersCounted` | lab/rpc/connection.cc:106-155 | `waiters_` is always the number of threads waiting for the slot |
| `ConnectionRuns.NobodySleepsOnAFreeSlot` | lab/rpc/connection.cc:107-155 | while a thread sleeps on the slot, the slot is in use by a `send` that has not returned |
| `ConnectionRuns.ShortReadKills` | lab/rpc/connection.cc:248-278 | a failed or short read of the size word, or a size above `MAX_PDU`, ends the connection: in every later state it is dead and no further PDU was taken |
| `ConnectionProgress.DeliveredAsGiven` | lab/rpc/connection.cc:103-301 | in every run, the k-th PDU taken has the length and the bytes of the k-th buffer that a `send` put in the slot |
| `ConnectionProgress.TrueMeansGiven` | lab/rpc/connection.cc:116-156 | the frame of a `send` that returned true carries the bytes of that send |
| `ConnectionProgress.EnterOutcome` | lab/rpc/connection.cc:103-149 | a `send` that enters returns false on a dead connection, waits on a busy one, and else writes: it returns true if all went out, waits if not, and dies exactly of a write error |
| `ConnectionProgress.SlotWakeOutcome` | lab/rpc/connection.cc:107-149 | the same of a `send` that wakes for the slot |
| `ConnectionProgress.DoneWakeOutcome` | lab/rpc/connection.cc:145-156 | in every run, a `send` that wakes from its second wait returns exactly if its frame is out or the connection dead, and returns true exactly if the frame is out and the connection alive |
| `ConnectionProgress.RemovedOutcome` | lab/rpc/connection.cc:129-156 | a `send` whose write failed returns false and frees the slot |
| `ConnectionProgress.WriteOutcome` | lab/rpc/connection.cc:160-184 | in every run, a write callback puts what the system takes on the wire, kills the connection exactly of a write error, and does nothing without something to write |
| `ConnectionProgress.BroadcastIff` | lab/rpc/connection.cc:151-156 | the end of a `send` broadcasts exactly if some thread waits for the slot |
| `ConnectionProgress.ReaderDiesIff` | lab/rpc/connection.cc:187-301 | in every run, a read callback kills the reading end exactly if the size word was due and was not four bytes of value at most 0xA00000, or the read behind it met an error or the end of the stream |
| `ConnectionProgress.BlockedReadKeeps` | lab/rpc/connection.cc:288-292 | a read that would block loses neither the connection nor what has been read |
| `ConnectionProgress.AllCanBeTaken` | lab/rpc/connection.cc:187-301 | from every reachable state with a live reader and all frames whole on the wire and not too big, some run takes them all |
| `ConnectionWakeups.Refines` | lab/rpc/connection.cc:58-218 | every run with its wake-ups and deaths is a run of the two ends, so all the results above hold of it |
| `ConnectionWakeups.SendsFrame` | lab/rpc/connection.cc:103-149 | a thread goes to sleep on `send_complete_` only on a live connection with bytes left to write, and an entering or woken thread leaves a slot in use alone |
| `ConnectionWakeups.NextInv` | lab/rpc/connection.cc:58-218 | every step keeps: a sleeper has bytes to wait for unless `closeconn` killed the connection; callbacks are registered while a send waits on a live connection, and on a dead one only during a removal |
| `ConnectionWakeups.StrandedIff` | lab/rpc/connection.cc:58-71 | in every run, the send that owns the slot sleeps although its wait is over if and only if it sleeps on a connection killed by `closeconn` |
| `ConnectionWakeups.AwakeStaysAwake` | lab/rpc/connection.cc:145-148 | on a dead connection no send falls asleep: one that sleeps then has slept since before the connection died |
| `ConnectionWakeups.StrandedForEver` | lab/rpc/connection.cc:58-71 | a send that sleeps on a dead connection, and all that sleep on its slot, stay asleep in every continuation without spurious wake-ups |
| `ConnectionWakeups.FinishWakes` | lab/rpc/connection.cc:151-156 | a send that comes to its end wakes everybody who sleeps on the slot |
| `ConnectionWakeups.OwnerWakesIff` | lab/rpc/connection.cc:58-184 | in every run, a sleeping owner can still be woken, other than spuriously, if and only if `closeconn` has not killed the connection |
| `ConnectionWakeups.SleepersWakeIff` | lab/rpc/connection.cc:58-184 | in every run, those that sleep on the slot can still be woken, other than spuriously, unless its owner sleeps on a connection killed by `closeconn`, and only then not |
| `ConnectionWakeups.ClosingStrands` | lab/rpc/connection.cc:58-75 | a run in which `closeconn` strands an owner and a thread that waits for its slot |
| `ConnectionWakeups.AssertionFailsIff` | lab/rpc/connection.cc:163 | in every run, the assertion of the write callback can fail next if and only if write callbacks are registered and a removal of them, by `closeconn` or by a send whose write failed, has not returned |
| `ConnectionWakeups.AssertionCanFail` | lab/rpc/connection.cc:163 | a run that gets there |
| `ConnectionSends.WriteCallbackExact` | lab/rpc/connection.cc:160-184 | in every run, a write callback wakes the sleeping sender exactly if its wait is over, and keeps its registration exactly while a live connection has a PDU in the slot |
| `ConnectionSends.DeathsExact` | lab/rpc/connection.cc:58-71 | `closeconn` kills and wakes nobody; a failed read kills, wakes the sender and deletes the registrations |
| `ConnectionSends.SendCanSucceed` | lab/rpc/connection.cc:103-184 | in every run, every thread inside `send` on a live connection can come to return true, with no spurious wake-up |
| `ConnectionSends.NewSendCanSucceed` | lab/rpc/connection.cc:103-184 | so can a `send` that is made now, whoever else is inside |
| `SelectAio.Selector.constructor` | lab/rpc/pollmgr.cc:127-141 | the pipe is watched and is the maximum |
| `SelectAio.WatchExact` | lab/rpc/pollmgr.cc:148-208 | watching adds, and unwatching takes away, exactly the events that the flag asks for, of exactly that descriptor |
| `SelectAio.Selector.WatchFd` | lab/rpc/pollmgr.cc:148-170 | the cached maximum stays the maximum |
| `SelectAio.Selector.UnwatchFd` | lab/rpc/pollmgr.cc:189-235 | the cached maximum stays the maximum of all watched descriptors and the pipe; the result says whether fd is no longer watched at all |
| `SelectAio.Selector.WaitReady` | lab/rpc/pollmgr.cc:237-286 | exactly the watched ready descriptors other than the pipe are reported, each once and in order |
| `PollMgr.PollManager.AddCallback` | lab/rpc/pollmgr.cc:43-52 | the descriptor is watched and has the callback |
| `PollMgr.PollManager.DelCallback` | lab/rpc/pollmgr.cc:66-73 | the callback goes with the last watch |
| `PollMgr.PollManager.BlockRemoveBegins` | lab/rpc/pollmgr.cc:57-62 | a removal up to its wait: unwatched, and a change is pending |
| `PollMgr.PollManager.BlockRemoveEnds` | lab/rpc/pollmgr.cc:62-64 | a removal after its wait: the callback is gone |
| `PollMgr.PollManager.LoopHead` | lab/rpc/pollmgr.cc:92-99 | the poll loop acknowledges pending changes |
| `PollMgr.NextInv` | lab/rpc/pollmgr.cc:57-125 | in every interleaving, with stale ready lists, any number of removers, spurious wake-ups and additions during a removal: a descriptor not added again stays unwatched during its removal, and once its remover is properly woken it is in no list the poll thread still holds |
| `PollMgr.NothingStarts` | lab/rpc/pollmgr.cc:111-123 | as long as a descriptor has no callback and nobody adds it, none starts for it, although it may be on a stale list |
| `PollMgr.CallbackAfterReturnIff` | lab/rpc/pollmgr.cc:54-64 | after `block_remove_fd(fd)` returns, a callback for fd may run before fd is added again if and only if one is running at the return |
| `PollMgr.RunningAtReturnNeeds` | lab/rpc/pollmgr.cc:57-64 | in every run, if one is running at the return then the wake-up was spurious or fd was added during the removal |
| `PollMgr.NoCallbackAfterRemoval` | lab/rpc/pollmgr.cc:54-64 | after a removal of fd that was woken by the poll thread, and during which nobody added fd, no callback for fd runs until fd is added again, whatever befalls other removals |
| `PollMgr.WatchedHaveCallbacks` | lab/rpc/pollmgr.cc:43-73 | whenever the lock is free every watched descriptor but the pipe has a callback, unless it was once added during its own removal |
| `PollMgr.OrphanedIff` | lab/rpc/pollmgr.cc:57-64 | a step leaves a descriptor watched without a callback if and only if it ends a removal while the descriptor is watched, which takes an addition during that removal |
| `PollMgr.WaitingIsWoken` | lab/rpc/pollmgr.cc:92-99 | the next pass of the loop head wakes every waiting remover |
| `PollMgr.WatchedIffWanted` | lab/rpc/pollmgr.cc:43-73 | in every run a descriptor is watched for reading, or for writing, exactly if the last addition, deletion or removal that concerns these events was an addition |
| `PollMgr.ServesIffWanted` | lab/rpc/pollmgr.cc:102-123 | in every run, a round may serve exactly the events that were wanted when it copied the watched sets, whatever came since |
| `PollMgr.CallbackOnlyIfWatched` | lab/rpc/pollmgr.cc:57-73 | in every run a descriptor has a callback only while it is watched, or during a removal of it |
| `PollMgr.CallbackNotReplaced` | lab/rpc/pollmgr.cc:50-51 | a callback is never replaced by another one |
| `PollMgr.AddedIsServed` | lab/rpc/pollmgr.cc:43-52 | a descriptor just added has the callback given and is watched for all events asked for |
| `PollMgr.SpuriousWakeBreaksRemoval` | lab/rpc/pollmgr.cc:62 | a run in which one spurious wake-up, and nothing else, lets the removal return while the callback runs |
| `PollMgr.AddingAgainBreaksRemoval` | lab/rpc/pollmgr.cc:43-64 | a run in which one addition during the removal, and nothing else, does the same, and leaves the descriptor watched without a callback |
| `Fifo.Queue.TryEnq` | lab/rpc/fifo.h:58-75 | one pass of `enq`: appended if there is space, else wait or refuse |
| `Fifo.Queue.TryDeq` | lab/rpc/fifo.h:78-100 | one pass of `deq`: the oldest item, and whether space is signalled |
| `Fifo.EnqInv` | lab/rpc/fifo.h:58-75 | an enqueue keeps order, limit and wake-ups |
| `Fifo.DeqInv` | lab/rpc/fifo.h:78-100 | a dequeue keeps order, limit and wake-ups |
| `Fifo.EnqExact` | lab/rpc/fifo.h:58-75 | an item is accepted at the end exactly if there is space, and wakes a consumer that sleeps; otherwise the caller waits with it or is refused |
| `Fifo.DeqExact` | lab/rpc/fifo.h:78-100 | the oldest item is taken exactly if there is one, and a producer that sleeps is woken if there is space now; otherwise the caller waits |
| `Fifo.EveryRun` | lab/rpc/fifo.h:58-100 | in every run: dequeue order is enqueue order, nothing lost or made up, never more than the limit the queue was made with, and no lost wake-up on either side |
| `ThrPool.Pool.AddJob` | lab/rpc/thr_pool.cc:54-61 | a job is queued, or the caller waits or is refused |
| `ThrPool.Pool.TakeJob` | lab/rpc/thr_pool.cc:63-67 | the oldest job; false exactly for a pill |
| `ThrPool.NextInv` | lab/rpc/thr_pool.cc:6-68 | every step of workers, callers and destructor keeps the pool's accounts |
| `ThrPool.AddJobExact` | lab/rpc/thr_pool.cc:54-61 | in every run, a job is accepted exactly while fewer than 100 jobs for each worker are queued |
| `ThrPool.TakeExact` | lab/rpc/thr_pool.cc:6-18 | a worker runs the job it takes, and exits exactly on a pill |
| `ThrPool.ShutdownComplete` | lab/rpc/thr_pool.cc:37-52 | when the destructor is done the queue is empty, every accepted job was run exactly once in order and has returned, and each worker took exactly one pill |
| `ThrPool.PillNotBlocked` | lab/rpc/thr_pool.cc:39-44 | the destructor's blocking enqueue is not asleep when all workers are asleep or gone |
| `ThrPool.NeverStuck` | lab/rpc/thr_pool.cc:37-52 | once the destructor has started some thread can always take a step until it has finished |
| `ThrPool.ShutdownEnds` | lab/rpc/thr_pool.cc:37-52 | and only boundedly many steps can be taken, whatever the schedule |
| `Wire.LittleEndianRoundTrip` | lab/extent_protocol.h:40-45 | an integer written in host order is read back |
| `Wire.LittleEndianOfBytes` | lab/extent_protocol.h:70-74 | every pattern of bytes is the writing of what is read from it |
| `Wire.LittleEndianAt` | lab/extent_protocol.h:40-45 | the byte at place k of an integer in host order has the weight 256^k |
| `Wire.Be32RoundTrip` | lab/rpc/connection.cc:226-270 | the size word is read back as written |
| `Codec.IntRoundTrip` | lab/rpc/rpc.cc:716-874 | integers of every width come back modulo their width, and what follows is untouched |
| `Codec.PatternRoundTrip` | lab/rpc/rpc.cc:736-864 | signed values survive the unsigned encoding |
| `Codec.PatternInRange` | lab/rpc/rpc.cc:822-864 | every pattern of bytes is a value of its type, negative exactly if its highest bit is set |
| `Codec.BytesLessIff` | lab/rpc/marshall.h:248-252 | string keys are iterated in lexicographic order of their bytes |
| `Codec.InsertIsAssignment` | lab/rpc/marshall.h:264-270 | a decoded entry assigns its value to its key, a repeated key included, and changes no other |
| `Codec.InsertLast` | lab/rpc/marshall.h:264-270 | keys arriving in order rebuild the map |
| `Codec.RoundTrip` | lab/rpc/marshall.h:220-273 | every value of every type (integers, strings, nested vectors, maps) comes back, and the bytes after it are left |
| `Codec.DecodeLater` | lab/rpc/rpc.cc:812-898 | decoding anything never makes a failed read good again |
| `Codec.DecodeAtEnd` | lab/rpc/rpc.cc:812-820 | at the end of the buffer every type fails |
| `Codec.DecodedWithOwnTypes` | lab/rpc/rpc.h:385-395 | arguments decoded with their own types are returned and `okdone` is true |
| `Codec.DecodedWithFewerTypes` | lab/rpc/rpc.h:385-391 | with a strict prefix of the types `okdone` is false |
| `Codec.DecodedWithMoreTypes` | lab/rpc/rpc.h:385-391 | with a strict extension of the types `okdone` is false |
| `Marshall.WordsRoundTrip` | lab/rpc/rpc.cc:772-788 | a header's words are unpacked as packed |
| `Marshall.ReqOfInts` | lab/rpc/marshall.h:91-105 | no header field is lost in the passage through signed words |
| `Marshall.ReqLayout` | lab/rpc/marshall.h:91-105 | the fields of a request header follow each other as xid, procedure, client nonce, server nonce, acknowledgement, each in network order |
| `Marshall.ReplyLayout` | lab/rpc/marshall.h:107-118 | a reply header is xid and result, in network order |
| `Marshall.ReadsJoin` | lab/rpc/rpc.cc:867-874 | an integer read in two parts is the one that was written whole |
| `Marshall.Marshaller.RawByte` | lab/rpc/rpc.cc:691-701 | one byte more; the capacity doubles exactly when the buffer is full; bytes beyond stay |
| `Marshall.Marshaller.RawBytes` | lab/rpc/rpc.cc:703-714 | n bytes more; the one growth step of the source always makes room |
| `Marshall.Marshaller.Put` | lab/rpc/marshall.h:220-255 | whatever is marshalled is appended in its encoding, and `_ind <= _capa` |
| `Marshall.Marshaller.PackReqHeader` | lab/rpc/marshall.h:91-105 | bytes 4 to 24 become the header; size word, arguments and position stay |
| `Marshall.Marshaller.PackReplyHeader` | lab/rpc/marshall.h:107-118 | bytes 4 to 12 become the header; everything else stays |
| `Marshall.Unmarshaller.GetInt` | lab/rpc/rpc.cc:822-874 | every integer overload decodes, or yields zeros and clears `ok` |
| `Marshall.Unmarshaller.Get` | lab/rpc/marshall.h:229-273 | the object decodes as the wire format says, on good input and bad |
| `Marshall.Unmarshaller.Done` | lab/rpc/rpc.cc:800-810 | true exactly if all reads were good and nothing is left |
| `Marshall.Unmarshaller.UnpackReqHeader` | lab/rpc/marshall.h:183-196 | yields the header that was packed; a packet shorter than a header clears `ok` |
| `Marshall.Unmarshaller.UnpackReplyHeader` | lab/rpc/marshall.h:198-208 | yields the header that was packed; fewer than 12 bytes clear `ok` |
| `Marshall.Unmarshaller.TakeIn` | lab/rpc/rpc.cc:791-798 | takes the packet over, positioned behind the header |
| `Marshall.BuildRequest` | lab/rpc/rpc.h:176-185 | a packet with the arguments behind the reserved prefix and the header inside it |
| `Marshall.RequestTrip` | lab/rpc/rpc.h:385-391 | a request arrives as sent; a handler with fewer or more arguments is told they do not fit |
| `Marshall.ReplyTrip` | lab/rpc/rpc.h:138-149 | a reply arrives as sent; a wrong result type list is noticed |
| `Directory.Serialize` | lab/extent_protocol.h:36-49 | the loop writes the listing: the count, then each entry |
| `Directory.Deserialize` | lab/extent_protocol.h:51-86 | the loop accepts exactly the buffers `Read` accepts, appends that list, and on a refusal keeps what it had |
| `Directory.ReadNeedsBytes` | lab/extent_protocol.h:62-65 | the length check at the start refuses nothing the loop would accept |
| `Directory.AcceptedIff` | lab/extent_protocol.h:51-86 | a buffer is accepted as a list if and only if it begins with that list's encoding and something follows the start of the last name |
| `Directory.RoundTripIff` | lab/extent_protocol.h:76-81 | a serialized list comes back if and only if it is empty or its last name is not |
| `Yfs.NewInumIsFile` | lab/yfs_client.h:43-46 | a new file's inum has bit 31 set, a directory's has it clear |
| `Yfs.NewInumExact` | lab/yfs_client.h:43-46 | a new inum has the random number below bit 31: two are equal exactly if their random numbers agree modulo 2^31 - 1 and both are files or both directories |
| `Yfs.OrIsSum` | lab/yfs_client.h:45 | the bit-wise or of the two parts is their sum |
| `Yfs.IsFileIsBit31` | lab/yfs_client.cc:34-44 | files are exactly the inums with bit 31 set, whatever the other bits |
| `Yfs.BitIsQuotient` | lab/yfs_client.cc:34-39 | the bit test is a test of a quotient |
| `Yfs.ExtentServer.constructor` | lab/extent_server.cc:12-29 | the store begins with an empty root directory, inum 1 |
| `Yfs.ExtentServer.Put` | lab/extent_server.cc:31-37 | replaces the contents, keeps attributes that exist |
| `Yfs.ExtentServer.Get` | lab/extent_server.cc:39-47 | the contents, or NOENT |
| `Yfs.ExtentServer.GetAttr` | lab/extent_server.cc:49-67 | the attributes, or NOENT |
| `Yfs.FindMeans` | lab/yfs_client.cc:104-113 | the search succeeds exactly if some entry has the name, with that entry's inum |
| `Yfs.YfsClient.Lookup` | lab/yfs_client.cc:91-120 | IOERR for a missing or unreadable directory, NOENT or the first entry otherwise |
| `Yfs.YfsClient.ReadDir` | lab/yfs_client.cc:122-141 | the whole listing, or IOERR |
| `Yfs.YfsClient.CreateFile` | lab/yfs_client.cc:143-180 | what it answers and leaves in the store, in every case |
| `YfsTheorems.NamesFind` | lab/yfs_client.cc:104-113 | on unique names the linear search is a map lookup |
| `YfsTheorems.ReadDirAgrees` | lab/yfs_client.cc:122-141 | the listing has exactly the pairs of the map, none twice |
| `YfsTheorems.CreateRefines` | lab/yfs_client.cc:143-180 | one call is insert-if-absent on the tree of names, keeps the store good, and the name can be looked up and has attributes afterwards |
| `YfsTheorems.OtherDirectoriesKept` | lab/yfs_client.cc:163-175 | no call touches another directory: the new file's put never overwrites one |
| `YfsTheorems.NewFileExact` | lab/yfs_client.cc:157-175 | a new name leaves an empty file with attributes, and apart from it and the directory nothing changes |
| `YfsTheorems.NothingNewNothingChanged` | lab/yfs_client.cc:149-153 | a call that finds its name, or no readable directory, changes nothing |
| `YfsTheorems.ReadableAfterCreateIff` | lab/yfs_client.cc:154-176 | a newly created name can be looked up if and only if it is not empty |
| `YfsTheorems.RunRefines` | lab/yfs_client.cc:143-180 | every sequence of calls gives the answers of the abstract tree and ends in a store that stands for it |
| `YfsTheorems.LookupAfterRun` | lab/yfs_client.cc:91-120 | after any such sequence `lookup` agrees with the tree in every directory, for every name |
| `YfsTheorems.ReadDirAfterRun` | lab/yfs_client.cc:122-141 | after any such sequence `readdir` agrees with the tree, names are unique, and every listed inum is a file with attributes |
| `YfsTheorems.RunListsDistinctInums` | lab/yfs_client.cc:157-175 | over any run of calls whose random numbers differ, below bit 31, from each other and from the inums already listed, no two names in any directories have the same inum |

## Left out

- Sockets, `select`, `fcntl`, `accept`, address parsing, logging, `EPollAIO` (never instantiated): system calls are parameters or nondeterministic steps.
- Reference counts, malloc and free, lifetime of buffers and connections: buffers are values.
- The checksum (compiled out), `updatestat`, the lossy test switch (the network of the model loses packets anyway), `n2i`, `filename`, the fuse front end, the lock server and client.
- Clients with nonce 0, beyond the branches that let them opt out: they ask for no at-most-once.
- Which connection a packet or reply travels on (`get_refconn`, `conns_`): the network may deliver any packet ever sent, on any path, at any time.
- Distinctness of random nonces and inums is assumed, respectively not claimed: a new inum may collide with an older file's, whose contents are then emptied (`RunListsDistinctInums` says when it does not).
- Fairness of schedules: that a step which stays possible is taken in the end. For `send` it is proved who can still be woken and who cannot, for the queue and the pool that no wake-up is lost, and for the pool that shutdown ends.
- Channel: `send`, `write_cb` and `read_cb` are methods cut where they give up the lock; the lock and the condition variables are the granularity of the steps.
- WriteCb: requires a live connection, as the source asserts (lab/rpc/connection.cc:163); the step `WriteCallbackAborts` of `ConnectionWakeups` is the failure of the assertion, and ends the process.
- ReadPdu: a size word of 2^31 or more is refused, as too big; the source takes it as a negative `int` that passes the test against `MAX_PDU`. A correct sender never writes one.
- PollManager: the calls into it that `connection` makes are not followed; the two modules are proved separately.
- A read of the size word that fails with EAGAIN is an assertion failure in the source and ends the connection in the model.
- AwaitReply: the retransmission inside the loop is the separate step `Transmit` of the protocol. Above 2^21 - 1 seconds the last doubling may overflow, after the final wait, when its value is no longer used.
- UpdateXidRep: xids below 2^32.
- Deserialize: a name length that makes the 32-bit position `p` wrap around is refused; the source reads that many bytes far beyond the buffer before its test. Buffers of fewer than 4 bytes, which the source reads beyond as well, are shut out.
- AcceptedIff: leaves aside name lengths that make the 32-bit position wrap around, for the same reason.
- Declared string lengths so large that `_ind + n` wraps around, and PDUs of 4 bytes or less, or of 2^31 bytes or more.
- RawBytes: `_capa` and `_ind` are unbounded integers, so a buffer beyond 2^31 bytes is not covered.
- GetInt: the overload for `char` follows machines on which it is signed; there is no signed 8-byte overload, as in the source.
- Get: vectors and strings are decoded into empty targets; map keys are integers or strings.
- PutArgs: the templates for one to seven arguments are one loop over the list of arguments.
- Unmarshaller: the four-byte and longer reads go through a helper that reads two bytes; the buffer is a sequence of bytes.
- NewInum: `|` and `& 0x80000000` are written with sum and quotient; `OrIsSum` and `BitIsQuotient` justify this on 64-bit words.
- CreateFile: the RPCs to the extent server succeed, and one call runs at a time; two clients that create in one directory at once may lose an entry, as the source takes no lock.
- Attributes: times and size are never updated by the source, and `remove` always fails.
