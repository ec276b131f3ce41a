# Verified model of the RIO test server's shared-state protocols

This project models the parts of the server whose correctness depends on several functions, or several
threads, agreeing with each other:

- the batched database job protocol: make a batch, register it, execute it, serve the database's reply;
- the packet codec and the id-indexed registries that lead from a sent packet to its handler;
- broadcasting to all sessions while sessions come and go;
- the deadlock checker's clock arithmetic and detection time.

The job protocol and the broadcast are step relations over any number of threads. Every access another
thread could observe is its own step, a schedule is any interleaving, and the main results hold in every
state any schedule reaches. The classes beside them (`DBJobs`, `Broadcaster`, `PacketDispatch`,
`ReplyDispatch`, `Watchdog`) give the same operations in the source's imperative form, run by one thread at a
time.

What a state or a specification function means is also said without it: `JobHistory` and `BroadcastHistory`
describe the states by the moves of the schedule alone, `Watchdog`'s latest-tick results describe a check by the
events before it, and `WireFormat` writes packets out in bytes.

## Where the code differs from what it is meant to do

The model keeps both readings and has a theorem for each.

- `RegisterDBJob` draws a second key and ignores the batch's own (RIO_Test/DBJob.cpp:111). `SecondKey` is the
  code as written, `OwnKey` the meant design. `Disjointness` and `SecondKeyNeverCommits` say what the code
  does; `Correlation`, `HookAccounting` and `CommitOrRollback` what the meant design does; `WholeRound` runs the
  same steps in both and shows the different end.
- `DBJob`'s constructor fills a buffer and never stores it in `jobSPBuffer` (RIO_Test/DBJob.h:25-31), so
  `ExecuteJob` always returns false and the start job's null buffer is refused. `wired` says whether the buffer
  is stored. That an unwired job has no buffer is `DBJob.constructor`'s contract; `UnwiredSendsNothing` only draws
  the consequence for whole runs.
- `ExecuteJob` reads the key value as an address (RIO_Test/DBJob.cpp:22). The store of the key into the slot is
  modelled instead.
- `MakePacket` returns an `IPacket` pointer and `packet.get()` goes into the `any` as such
  (RIO_Test/PacketManager.h:24, RIO_Test/RIOTestSession.cpp:116), while a client packet's handler asks for an
  `IGameAndClientPacket` pointer (RIO_Test/PacketManager.h:51) and a reply's for an `IPacket` pointer
  (RIO_Test/ProcedureReplyHandler.h:36). The model keeps the pointer types apart and derives where a cast throws:
  `AsWrittenNothingArrives`, and `EndToEnd` with the exact condition. `MeantReplyDispatch` shows that no single
  return type suits both kinds of handler.
- `SPReplyHandle` makes the reply object with the client packets' factories, in which no reply id occurs
  (RIO_Test/ProcedureReplyHandler.cpp:22-26): `AsWrittenNoReplyArrives` against `MeantReplyDispatch`.
- The documentation says a removed session is automatically no longer a broadcast target (README.md, section 3).
  The accepter maps a session before it enters its id (RIO_Test/RIOTestServer.cpp:557-573), so a session can
  leave first (lines 599-606) and its id then comes into the set: `StaleId` is such a run.
  `LeaverStaysOutExactly` has the exact condition, at the moment OnSessionLeaved is about to erase the id: the id
  stays out for good, in every continuation, if and only if OnSessionEntered has already inserted it.
  `NoLongerATarget` says what that buys.
- A stale id, or one whose session leaves during a call, is skipped when the call's own lookup no longer finds the
  session: `BroadcastUnderChurn`. The lookup is not repeated, so a session that is unmapped between its lookup and
  the send still gets its copy (RIO_Test/Broadcaster.cpp:34-44): `SentAfterUnmap` is such a run. The check in
  between reads the release flag, which no code sets (RIO_Test/RIOTestSession.h:77-87), so as written it never
  skips anyone. The model lets the flag be set at any time; runs in which it never is are the code as written:
  `AsWrittenTheMappedGetOne`.
- The staleness test wraps in the first twenty seconds of the clock and then reports every ordinary thread:
  `AlarmExactness` has the exact condition.
- A batch is only erased from the map by its destructor, which the map entry itself prevents: every batch that
  was ever registered stays (`RegisteredBatchesLeak`).

## Assumptions

- Keys: the whole-run results about jobs that speak of `Reaches` assume at most 2^64 draws of the counter. This
  bound is exact for distinct keys (`KeyUniqueness`, `OwnKeysDifferExactly`), for `Correlation`
  (`CorrelationBoundIsExact`) and, with two threads or more, for `Disjointness` (`DisjointnessBoundIsExact`); a
  single thread needs no bound there (`LoneThreadStaysDisjoint`). For own keys it is exact for the mutex too
  (`LockBoundIsExact`); `SelfLockExactly` and `SelfLockIsForever` hold of runs of any length.
- `honestDb`: the database answers only keys that occur in frames it was sent. The results that need it name it.
- The buffer library is not part of this model: integers and arrays are taken to be written as they lie in
  memory, strings and lists with a 16-bit count in front, and a read past the end is taken to fail.
- Session ids are not reused, and a session's id is entered once.
- `jobMap.insert` may throw. That is the one way a batch can die; it keeps the destructor in play in the
  lock and ownership results.

## Model

| member | source | states |
|---|---|---|
| Keys.KeyUniqueness | RIO_Test/DBJob.cpp:134-137 | from any counter value, n draws are pairwise distinct exactly when n <= 2^64 |
| Keys.KeysCollideExactly | RIO_Test/DBJob.cpp:111 | two draws give the same key exactly when their tickets agree modulo 2^64 |
| Keys.InvalidKeyIsDrawnLate | RIO_Test/DefineType.h:14 | from the initial counter value, n draws avoid the invalid key exactly when n <= 2^64 - 2 |
| JobInvariants.StepKeepsCore | RIO_Test/DBJob.cpp:43-137 | every step of every thread keeps the key, registration, reference-count and mutex invariants |
| JobInvariants.InsertIsFresh | RIO_Test/DBJob.cpp:113 | a key about to be inserted is never in the map already, in either key mode |
| JobInvariants.EraseFindsNothing | RIO_Test/DBJob.cpp:128-132 | deregistering the key of a batch without references erases nothing |
| JobTheorems.EveryRunKeepsInv | RIO_Test/PacketHandler.cpp:34-50 | every schedule of makers, executors and reply servers keeps all the invariants |
| JobTheorems.Correlation | RIO_Test/DBJobUtil.cpp:4-10 | OwnKey: entries map own keys to their batches, and every key in a sent frame leads back to the batch that sent it |
| JobTheorems.Disjointness | RIO_Test/DBJob.cpp:108-114 | SecondKey: no batch's own key is ever in the map |
| JobTheorems.OwnKeysDifferExactly | RIO_Test/DBJob.cpp:134-137 | OwnKey, runs of any length: batch keys are pairwise distinct exactly while at most 2^64 batches were made |
| JobTheorems.BatchKeysDiffer | RIO_Test/DBJob.cpp:43-47 | no two batches share a key and none has the invalid key before ticket 2^64 - 2 |
| JobTheorems.OwnershipConservation | RIO_Test/DBJobUtil.cpp:6-9 | strong count = local references + map entries; registered batches are alive; map size = completed registrations |
| JobTheorems.RegisteredBatchesLeak | RIO_Test/DBJob.cpp:49-52 | with all threads idle, a batch is destroyed exactly when it was never registered |
| JobTheorems.EraseRemovesNothing | RIO_Test/DBJob.cpp:128-132 | in every reachable state the destructor's erase leaves the map unchanged |
| JobTheorems.LockDiscipline | RIO_Test/DBJob.cpp:110-131 | no thread asks for the mutex it holds; at most one thread is inside |
| JobTheorems.NoDeadlock | RIO_Test/DBJob.cpp:108-132 | every thread can move or waits for a mutex whose holder can move |
| JobTheorems.TraceShape | RIO_Test/DBJob.cpp:65-82 | a finished execution's own frames, in any interleaving: with stored buffers a start frame announcing n <= 16, then one frame per ready job in list order with the batch's key, and the count is met exactly when all jobs are ready; with null buffers, as written, none |
| JobTheorems.TracePrefix | RIO_Test/DBJob.cpp:76-79 | a running execution has sent a prefix of that, one that has not started has sent nothing |
| JobTheorems.SendsOnePerReadyJob | RIO_Test/DBJob.cpp:16-26 | the job frames are exactly the ready jobs', in strictly increasing list position |
| JobTheorems.UnwiredSendsNothing | RIO_Test/DBJob.cpp:16-26 | consequence of `DBJob.constructor` for jobs whose buffer is not stored: no schedule ever sends a frame |
| JobTheorems.ReplyReachesItsSender | RIO_Test/ProcedureReplyHandler.cpp:70-89 | OwnKey, any database: what a reply finds is the batch with its key; it runs that batch's hooks, in list order, and no others; a reply that finds nothing runs none. With a database that answers only keys it was sent (`honestDb`): none is missed, the batch found is the sender, and a finished reply has run all its hooks |
| JobAnswers.SentKeyIsAnswered | RIO_Test/ProcedureReplyHandler.cpp:70-89 | OwnKey, any database: a reply to a key that was sent before it came in is not missed in any continuation of the run, is served by the batch that sent the key, and is finished only after its last hook |
| JobMutex.SelfLockExactly | RIO_Test/DBJob.cpp:110-131 | runs of any length: at most one thread is inside, and a thread asks for the mutex it holds exactly when its own erase has destroyed another batch |
| JobMutex.SelfLockIsForever | RIO_Test/DBJob.cpp:128-132 | such a thread, and with it every thread waiting for the mutex, is stuck in every continuation of the run |
| JobMutex.LockBoundIsExact | RIO_Test/DBJob.cpp:49-52 | OwnKey: one draw past 2^64 a run exists in which a thread asks for the mutex it holds |
| JobMutex.EraseTakesTheEntry | RIO_Test/DBJob.cpp:128-132 | the erase removes the entry under the batch's own key, whoever it belongs to, and one reference with it; the last one re-enters |
| JobTheorems.HookAccounting | RIO_Test/DBJob.cpp:84-98 | OwnKey, any database: a job's commit (rollback) calls = finished replies of that kind for its key + unfinished ones past it - those that finished before the job was added |
| JobTheorems.HonestHookAccounting | RIO_Test/DBJob.cpp:84-98 | OwnKey, honest database: the last term is zero, so the calls are exactly the finished replies plus those under way |
| JobTheorems.CommitOrRollback | RIO_Test/ProcedureReplyHandler.cpp:79-87 | OwnKey, any database that answers each key at most once: a job gets at most one hook call in all |
| JobTheorems.SecondKeyNeverCommits | RIO_Test/ProcedureReplyHandler.cpp:72-77 | SecondKey, any database: a reply with a batch's own key finds no batch and calls no hook; with a database that answers only keys it was sent (`honestDb`) no hook is ever called |
| JobRounds.SoloMake | RIO_Test/DBJobUtil.cpp:4-10 | an idle thread alone, with the mutex free and the next key unused, leaves the counter, the map and the batch as MakeBatchedDBJob's contract says |
| JobRounds.WholeRound | RIO_Test/PacketHandler.cpp:44-47 | from any reachable state with an idle thread, a free mutex and a make's draws left before 2^64: that thread's moves alone, with any list of up to sixteen jobs its constructors can make (one of them ready, if the database is honest), extend the run by a round that sends the start frame and the ready jobs' frames and ends in every job's hook with own keys, in a missed reply and no hook as written |
| JobRounds.SoloAddJobs | RIO_Test/DBJob.cpp:54-63 | that thread's add moves alone leave exactly these up to sixteen jobs in an empty list, in order |
| JobRounds.AddJobState | RIO_Test/DBJob.cpp:54-63 | in the protocol an add appends below sixteen jobs and changes nothing from there on |
| JobHistory.JobsAreTheFirstSixteen | RIO_Test/DBJob.cpp:54-63 | every schedule of any length: a batch's list is the first sixteen jobs handed to it, in call order |
| JobHistory.OneEntryPerCall | RIO_Test/DBJob.cpp:43-47 | every schedule of any length: one batch per construction with its maker and session, one reply per reception with its thread, key and outcome, one registration per insertion |
| JobHistory.OneEntryPerInsertion | RIO_Test/DBJob.cpp:108-114 | the map has as many entries as the schedule has insertions |
| JobHistory.TallyIsNumber | RIO_Test/ProcedureReplyHandler.cpp:70-89 | the tallies of the hook accounting are numbers of replies |
| JobHistory.HookCountIsNumber | RIO_Test/DBJob.cpp:84-98 | the hook count is a number of recorded hook calls |
| JobHistory.ThrowingInsertKillsBatch | RIO_Test/DBJob.cpp:108-114 | from any reachable state: when the insertion throws, the batch ends destroyed and unregistered, the mutex free, and nothing else has changed but the counter |
| JobHistory.PrematureReply | RIO_Test/ProcedureReplyHandler.cpp:70-89 | a run with an unasked answer in which the accounting's last term is 1, so that it cannot be left out |
| JobBounds.CorrelationBoundIsExact | RIO_Test/DBJob.cpp:134-137 | OwnKey: one draw past 2^64 a run exists in which a sent key leads to another batch than its sender |
| JobBounds.DisjointnessBoundIsExact | RIO_Test/DBJob.cpp:108-114 | SecondKey, two threads or more: one draw past 2^64 a run exists in which a batch's own key is in the map |
| JobBounds.LoneThreadStaysDisjoint | RIO_Test/DBJob.cpp:108-114 | SecondKey, one thread, runs of any length: no batch's own key is ever in the map |
| KeySlot.PatchedFrameParses | RIO_Test/DBHelper.cpp:6-15 | a patched frame parses to its id, the key and its payload, whatever the slot held |
| KeySlot.PatchTouchesTheSlotOnly | RIO_Test/DBJob.cpp:22 | no byte outside the slot changes |
| KeySlot.PatchedFrameBytes | RIO_Test/DBHelper.cpp:6-15 | byte by byte: four bytes of id, eight of key, least significant first, then the payload |
| KeySlot.LastPatchWins | RIO_Test/DBJob.cpp:16-26 | any sequence of executions leaves the frame as the last one alone would |
| DBJobs.BoundedBatch | RIO_Test/DBJob.cpp:54-63 | any sequence of adds leaves the first min(n, 16) jobs in call order, and as many successes |
| DBJobs.FramesCarryTheKey | RIO_Test/DBJob.cpp:76-79 | every job frame of an execution parses to the batch's key; one per job exactly when all have frames |
| DBJobs.LoopRefinesProtocol | RIO_Test/DBJob.cpp:76-79 | for jobs that are ready exactly where they have a frame, the loop's bytes are, frame by frame, those of the protocol's job frames |
| DBJobs.ExecutionRefinesProtocol | RIO_Test/DBJob.cpp:65-82 | for every batch object: with its jobs taken over into the protocol, what its execution sends is frame by frame what the protocol's execution puts into the trace behind the start frame |
| DBJobs.HooksRefineProtocol | RIO_Test/DBJob.cpp:84-98 | the method's hook calls are, call by call, those of a fully served reply in the protocol |
| DBJobs.DBJob.constructor | RIO_Test/DBJobUtil.h:5-11 | owner and rollback packet are kept; a wired job's buffer is id, slot, payload in a fresh array; an unwired job has a key slot and no buffer |
| DBJobs.DBJob.ExecuteJob | RIO_Test/DBJob.cpp:16-26 | in place: a job with buffer and slot is patched and sent, any other is left alone and reported |
| DBJobs.BatchedDBJob.constructor | RIO_Test/DBJob.cpp:43-47 | an empty batch that took one draw; the map is untouched |
| DBJobs.DBJobManager.GetDBJobKey | RIO_Test/DBJob.cpp:134-137 | hands out the counter and advances it with wrap-around |
| DBJobs.BatchedDBJob.AddDBJob | RIO_Test/DBJob.cpp:54-63 | appends below sixteen, otherwise reports overflow and changes nothing |
| DBJobs.BatchedDBJob.ExecuteBatchJob | RIO_Test/DBJob.cpp:65-82 | sends the start frame and then the ready jobs' patched frames in order, also for jobs listed twice |
| DBJobs.BatchedDBJob.OnCommit | RIO_Test/DBJob.cpp:84-90 | one commit hook per job in list order |
| DBJobs.BatchedDBJob.OnRollback | RIO_Test/DBJob.cpp:92-98 | one rollback hook per job in list order |
| DBJobs.DBJobManager.RegisterDBJob | RIO_Test/DBJob.cpp:108-114 | the entry and the counter after registering, for each key mode |
| DBJobs.DBJobManager.GetRegistedDBJob | RIO_Test/DBJob.cpp:116-126 | the batch under the key or null |
| DBJobs.DBJobManager.DeregisterDBJob | RIO_Test/DBJob.cpp:128-132 | removes the entry under the key and nothing else |
| DBJobs.MakeBatchedDBJob | RIO_Test/DBJobUtil.cpp:4-10 | a fresh empty batch with the counter's value as key, registered under the mode's key |
| DBJobs.HandleTestProcedure | RIO_Test/PacketHandler.cpp:34-50 | in bytes: a start frame with id 11 and a job frame with id 10, the new batch's key, the int and the wide string; the job keeps the rollback packet with -1 and the handler's string |
| DBJobs.RollbackText | RIO_Test/PacketHandler.cpp:40-42 | the rollback packet's fields, written out |
| DBJobs.AssembleJobReply | RIO_Test/ProcedureReplyHandler.cpp:70-89 | the hooks of the batch found under the reply's key, in order, or none |
| Codec.ReadAfterWrite | RIO_Test/Protocol.h:16-40 | for every schema, all values and any trailing bytes, reading after writing returns the values and leaves the trailing bytes |
| Codec.WriteAfterRead | RIO_Test/Protocol.h:16-27 | whatever a schema's reader accepts is a written packet followed by the rest it leaves |
| Codec.EncodingIsPrefixFree | RIO_Test/Protocol.h:29-40 | no packet's encoding is a prefix of another's of the same schema |
| Codec.DecodeEncode | RIO_Test/Protocol.h:16-33 | the same round trip for a single field of any type, lists of lists included |
| WireFormat.NumberBytes | RIO_Test/Protocol.h:29-40 | numbers go out least significant byte first, negative ones in two's complement |
| WireFormat.TextBytes | RIO_Test/Protocol.h:102-117 | strings: two bytes of count, then the bytes |
| WireFormat.WideTextBytes | RIO_Test/Protocol.h:125-133 | wide strings: two bytes of count, then two per unit in order |
| WireFormat.ListBytes | RIO_Test/Protocol.h:213-225 | lists: two bytes of count, then the elements in order |
| WireFormat.TestStringOnTheWire | RIO_Test/EnumType.h:32-49 | id 1: the packet's bytes, and that these bytes arrive as this packet |
| WireFormat.EchoStringOnTheWire | RIO_Test/EnumType.h:32-49 | id 2 and thirty bytes, likewise |
| WireFormat.TestProcedureOnTheWire | RIO_Test/EnumType.h:32-49 | id 3, four bytes of int, then the wide string, likewise |
| WireFormat.SelectTest2OnTheWire | RIO_Test/EnumType.h:32-49 | id 4 and eight bytes, likewise |
| WireFormat.EmptyPacketsOnTheWire | RIO_Test/EnumType.h:32-49 | id 6 is Ping and id 8 RequestFileStream, likewise |
| WireFormat.OutgoingOnTheWire | RIO_Test/EnumType.h:32-49 | Pong goes out as id 7, ResponseFileStream as id 9; every other small id is ignored when received |
| PacketDispatch.SetParametersToBuffer | RIO_Test/Protocol.h:29-40 | the variadic writer appends exactly the fields' encodings in order |
| PacketDispatch.SetBufferToParameters | RIO_Test/Protocol.h:16-27 | the variadic reader returns the decoded fields and moves the cursor to the rest |
| PacketDispatch.RegistryIsLastWins | RIO_Test/PacketManager.h:32-58 | after any registrations an id is known exactly when some type has it, and selects the last such type |
| PacketDispatch.PacketManager.Register | RIO_Test/Protocol.h:245-248 | factories and handlers stay the same map, repeated ids included |
| PacketDispatch.PacketManager.Init | RIO_Test/PacketManager.cpp:11-14 | both maps hold exactly the listed client packets |
| PacketDispatch.PacketManager.RegisterPacket | RIO_Test/PacketManager.h:32-43 | the id's factory becomes this type's, other ids and all handlers keep theirs |
| PacketDispatch.PacketManager.RegisterPacketHandler | RIO_Test/PacketManager.h:45-58 | the id's handler becomes this type's, other ids and all factories keep theirs |
| PacketDispatch.SendPacket | RIO_Test/RIOTestSession.cpp:52-65 | the buffer holds the id and then the fields |
| PacketDispatch.OnRecvPacket | RIO_Test/RIOTestSession.cpp:99-118 | handler and factory lookup, cast and field reading end in the specified outcome, in this order; behind a handled packet exactly the rest is unread |
| PacketDispatch.EndToEnd | RIO_Test/RIOTestSession.cpp:99-118 | a sent packet arrives as the same type with the same fields, leaving what follows it, exactly when MakePacket returns the pointer type the handlers ask for and its type is the last registered for its id; the cast throws exactly for known ids under the other pointer type; unknown ids are ignored; no wrong downcast |
| PacketDispatch.HandledExactly | RIO_Test/RIOTestSession.cpp:99-118 | a buffer is handled as a packet with a rest exactly when it is that packet's bytes followed by that rest and the packet's type is the last registered for its id |
| PacketDispatch.OtherOutcomes | RIO_Test/RIOTestSession.cpp:99-118 | when a buffer ends ignored, in a thrown cast or in a read past its end, and that it ends in no other way |
| PacketDispatch.ClientPacketsArrive | RIO_Test/Protocol.h:261-268 | with the server's own list and the meant pointer type all six client packets arrive and the two outgoing ones are ignored |
| PacketDispatch.AsWrittenNothingArrives | RIO_Test/PacketManager.h:49-54 | as written no bytes reach a handler, and exactly the registered ids end in a thrown cast |
| ReplyDispatch.ProcedureReplyHandler.SPReplyHandle | RIO_Test/ProcedureReplyHandler.cpp:14-32 | handler lookup, factory lookup, cast and downcast end in the specified outcome |
| ReplyDispatch.ProcedureReplyHandler.Initialize | RIO_Test/ProcedureReplyHandler.cpp:9-12 | the handlers are exactly the two listed replies' |
| ReplyDispatch.ReplyReachability | RIO_Test/ProcedureReplyHandler.cpp:14-32 | whatever MakePacket returns, some reply id gets past both lookups exactly when a reply shares its id with a client packet |
| ReplyDispatch.AsWrittenNoReplyArrives | RIO_Test/Protocol.h:279-281 | with the server's own lists ids 13 and 14 stop at the missing factory and no other id has a handler |
| ReplyDispatch.MeantReplyDispatch | RIO_Test/ProcedureReplyHandler.h:30-42 | with a factory per reply every reply id reaches its own handler under MakePacket's pointer type as written; under the one the client handlers need every registered reply's cast throws |
| ReplyDispatch.MeantServerReplies | RIO_Test/Protocol.h:279-281 | in the meant design id 13 reaches the select reply's handler and id 14 the job reply's |
| BroadcastTheorems.EveryRunKeepsInv | RIO_Test/Broadcaster.cpp:11-63 | every schedule of broadcasters, enterers, leavers and session changes keeps the broadcast invariants |
| BroadcastTheorems.SnapshotIsAtomic | RIO_Test/Broadcaster.cpp:24-30 | the list copied element by element is the id set at the moment of locking, ascending and without repetition |
| BroadcastLookups.BroadcastUnderChurn | RIO_Test/Broadcaster.cpp:32-45 | at most one copy per session; only snapshot members that the call's own lookup found mapped and its later check unreleased; exactly one for members that no move of the schedule has unmapped or released |
| BroadcastLookups.SentAsLookedUp | RIO_Test/Broadcaster.cpp:34-44 | every single copy goes to a session that the same call had found mapped in its lookup and unreleased in its check after that |
| BroadcastLookups.SentAfterUnmap | RIO_Test/Broadcaster.cpp:34-44 | a run in which a session unmapped after its lookup still gets its copy |
| BroadcastLookups.AsWrittenTheMappedGetOne | RIO_Test/Broadcaster.cpp:32-45 | with a release flag that is never set, every snapshot member that was not unmapped got exactly one copy |
| BroadcastHistory.WorldFollowsSchedule | RIO_Test/Broadcaster.cpp:32-45 | a session is mapped exactly when its mapping has no later unmapping of the same id, and released, issued or entered exactly when that happened to this id |
| BroadcastHistory.SetFollowsSchedule | RIO_Test/Broadcaster.cpp:49-63 | an id is in the set exactly when an update of a thread that called OnSessionEntered for it has no later one of a thread that called OnSessionLeaved for it |
| BroadcastHistory.SnapshotIsTheLockedSet | RIO_Test/Broadcaster.cpp:24-30 | what a call copies is the id set at its own locking move, ascending and once each |
| BroadcastTheorems.BroadcastOrder | RIO_Test/Broadcaster.cpp:26-45 | per broadcasting thread, copies go out in program order of the calls and ascending session id within a call |
| BroadcastTheorems.NoDeadlock | RIO_Test/Broadcaster.cpp:24-63 | every broadcasting, entering or leaving thread can move, or waits for the mutex another of the threads holds, and that one can move |
| BroadcastTheorems.SetLockDiscipline | RIO_Test/Broadcaster.cpp:49-63 | nobody asks for the mutex it holds and only its holder changes the set |
| BroadcastTheorems.LeaverStaysOutExactly | RIO_Test/Broadcaster.cpp:57-63 | an id about to be erased stays out of the set in every continuation of the run if and only if it has already been inserted |
| BroadcastTheorems.NoLongerATarget | RIO_Test/Broadcaster.cpp:21-45 | a session erased after its insertion gets no copy of any broadcast that had not copied its id by then, in any continuation |
| BroadcastTheorems.StaleId | RIO_Test/Broadcaster.cpp:49-63 | for every session id and any number of threads, a run in the accepter's own order that ends with every thread idle, the session gone and its id in the set |
| Broadcaster.SessionBroadcaster.OnSessionEntered | RIO_Test/Broadcaster.cpp:49-55 | adds the id to the set |
| Broadcaster.SessionBroadcaster.OnSessionLeaved | RIO_Test/Broadcaster.cpp:57-63 | removes the id from the set |
| Broadcaster.SessionBroadcaster.CopyIds | RIO_Test/Broadcaster.cpp:26-29 | the set's elements, once each, in ascending order |
| Broadcaster.SessionBroadcaster.BroadcastToAllSession | RIO_Test/Broadcaster.cpp:11-47 | undisturbed, exactly the mapped and unreleased sessions of the set get the packet, once |
| Watchdog.AlarmExactness | RIO_Test/DeadlockChecker.cpp:59-65 | from 20000 ms on the wrapping test means "more than 20000 ms old"; exactly when it does before that |
| Watchdog.DetectionLatency | RIO_Test/DeadlockChecker.cpp:49-68 | a thread stalled since t that stays registered crashes the process by t + 20000 + P when checks are at most P apart |
| Watchdog.CrashIffNotTimely | RIO_Test/DeadlockChecker.cpp:53-67 | from any registrations: a run crashes exactly when at some check a registered thread is more than 20000 ms behind, or the check falls in the clock's first 20000 ms and the wrapped test misfires |
| Watchdog.ChecksReadLatestTicks | RIO_Test/DeadlockChecker.cpp:57-59 | a check reads an entry for every registered thread, and in it what that thread published last, by its latest frame or else its registration |
| Watchdog.CrashesAtTheFirstAlarm | RIO_Test/DeadlockChecker.cpp:53-67 | a run crashes at the first check that meets an alarming latest tick, at that check's clock value |
| Watchdog.SurvivesIffTicksAreFresh | RIO_Test/DeadlockChecker.cpp:59-66 | past the clock's first 20000 ms: no crash exactly when every check meets only ticks published at most 20000 ms before |
| Watchdog.DeadlockChecker.RegisterCheckThread | RIO_Test/DeadlockChecker.cpp:22-36 | inserts unless the thread is registered, and says which |
| Watchdog.DeadlockChecker.DeregisteredCheckThread | RIO_Test/DeadlockChecker.cpp:38-44 | removes that thread only |
| Watchdog.TickSet.Frame | RIO_Test/DeadlockChecker.cpp:57-59 | a worker's frame refreshes the tick the checker reads for it and no other |
| Watchdog.DeadlockChecker.CheckOnce | RIO_Test/DeadlockChecker.cpp:53-67 | crashes exactly when some registered thread's tick alarms |

## Left out

- JobTheorems.TraceShape: the start frame's announced size and session are the packet object's fields; the packet
  class lists no fields to write (RIO_Test/Protocol.h:179-188), so on the wire the frame is only an id and a slot,
  as `ExecuteBatchJob` says.
- DBJobs.DBJob.ExecuteJob: models the meant store of the key; the read through the key's value as an address is not
  modelled.
- PacketDispatch.OnRecvPacket: what the buffer library does on a read past the end is not known; the model stops.
  The handler's own effect on the session is not part of the outcome.
- PacketDispatch.SetBufferToParameters: for the same reason says nothing of the cursor after a read past the end.
- ReplyDispatch.ProcedureReplyHandler.SPReplyHandle: the raw copy of the received bytes into the made object is
  not modelled, and what the reached handler then does is `AssembleJobReply`'s contract, not this one's.
- RIO completion handling, socket setup, ring buffers and send streams: I/O. `GetSession`, the release flag and
  sending to a session appear as steps.
- I/O counts: when a session leaves is left to the schedule; only the order of mapping, entering, leaving and
  unmapping that the server's code allows is modelled.
- Buffer pools and reference counts of network buffers: outside this repository. A job's queued buffer is
  modelled by its bytes at the time of sending, not by a pointer that a later execution could overwrite.
- Job hook bodies: stubs in the source; only their calls are recorded.
- DBJobReply's raw copy into a packet object: its two fields are inputs of the reply steps.
- Process shutdown and the order of static destruction.
- The handler that forwards a select result to a session, and the handlers that only echo or answer a ping.
- Data races on a batch's job list: the client adds all jobs before it executes, and the source has no other
  writer.
- DeadlockChecker's disabled branch (the default build): it registers nothing and checks nothing.
- Logging, scope locks, channel selection and the database client's networking.
