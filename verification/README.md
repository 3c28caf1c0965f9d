# Proofs about the inter-processor communication stack

This project models six pieces of the IPC stack that keep state, and proves what they promise. Threads are
modelled as atomic steps between lock, semaphore, event and socket operations, over datatypes that hold the
whole shared state; the sequential code between two such operations is modelled as classes whose methods have
the source's loops and in-place updates, each proved equal to a function of the old state that the machines and
lemmas use.

- **RcmServer** (`RcmScheduler*`, `RcmLedger`, `RcmProgress`, `RcmAnswers`, `RcmJob*`, `RcmIdReuse`, `RcmFinalize`,
  `RcmSymbol*`): a server thread and any number of workers around ready queues, semaphores and job streams; what
  clients are answered; the shutdown of a pool; the job id counter; the growing symbol table with its cyclic 11-bit
  key.
- **TransportRpmsg** (`RpmsgTables`, `RpmsgTransport`, `RpmsgHandshake`): the descriptor tables and the PAUSE,
  ACK and CONTINUE handshake between the dispatch thread and any number of bind and unbind callers.
- **MessageQ** (`QueueBinding`, `MessageQClient`, `LocalQueue`, `QueueSlots`, `QueueTable`): binding every queue to
  every processor while `Ipc_attach` and `Ipc_detach` race `MessageQ_create` and `MessageQ_delete`; local delivery; the
  daemon's growing table.
- **NameServer** (`CrcTable`, `StringHash`, `NameTable`, `NameServerInstance`, `RemoteQuery`, `AttachCount`): the
  string hash, the table keyed by it, remote queries, and the attach counts shared by many clients.
- **GateHWSpinlock and GateMP** (`HwSpinlock`, `GateResources`): nested gates over a recursive local lock and a
  test-and-set register shared by processes of all processors, and the resource allocator that relies on them.
- **LAD** (`LadProtocol`): commands and responses between client threads and the daemon.

`Counting` holds optional values and counting over sequences. `dafny verify dfyconfig.toml` checks everything.

History variables (which message is where, who took a register, what was asked) appear in the states of the
machines; no step's choice depends on them.

## Where the code departs from its intent

The model follows the code. Where a departure breaks a property, a lemma gives a concrete state or run, and the
property is stated with its exact condition:

- `acqJobId_P` may re-issue a job id while a message of its earlier life is outstanding; one message per job
  holds if and only if that does not happen (`StepKeepsInv`). It takes 65535 advances of the counter: before that
  it cannot happen (`FirstCycleClean`), and after them it does in a run (`ReissueBreaksOnePerJob`).
- `MessageQ_delete` has the daemon free the queue's index (MessageQ.c:724-738, MessageQ_daemon.c:422) before it
  takes the gate and unbinds (MessageQ.c:744-777), and the daemon gives out the first free index
  (MessageQ_daemon.c:330). A create that is given the index in between finds the old queue's socket, which makes
  its bind do nothing (TransportRpmsg.c:315), and then loses socket and entry to the delete (`OverrunRun`). A live
  queue keeps both exactly as long as no such delete enters the gate (`OneSocketIff`).
- `Ipc_detach` unbinds under the gate and unregisters the transport after it (Ipc.c:601-605). A create whose scan
  comes in between binds a socket that is lost when the transport is deleted with its index table
  (TransportRpmsg.c:272-275, `LateBindRun`). A detach loses exactly the sockets that creates have bound since its
  scan and no delete has unbound (`DetachLoses`).
- The comment on the worker loop promises that a job's next message for the same pool is processed without the
  semaphore; the code always puts it on the ready queue and posts (RcmServer.c:2395-2480), and so does the model.
- A symbol at offset 0 of a dynamic table resolves, but its function is not handed out (`AddIssues`).
- An index that was never issued is accepted when its key is zero and it names a free slot of an allocated table
  (`AcceptedIff`). A symbol of address zero is taken for a free slot by the next addition (`ZeroAddressTakenOver`).
- An unbind of an unbound queue returns without CONTINUE and leaves the dispatch thread waiting
  (`ReleasedUnlessStranded`, `StrandingRun`).
- The name table compares names only when adding: a lookup or removal of a name that collides with a different
  one acts on that one (`LookupRefines`, `RemoveRefines`, `AddRefines`, `CollidingNamesExist`). No node of the list
  itself is ever marked as colliding, so the branches for that are never taken.
- The very first remote query can report not-found before it is answered, because the listener's copy of the
  latest reply is all zero, as is the first sequence number. It does so only if a token is there or about to be
  posted when it begins (`FirstQuerySound`, `FirstQueryMisses`), which takes a read that failed and was only logged
  (`FreshAnswersOnly`, `LostAckRun`).
- The listener's event counter adds up what is written to it, and two times REFRESH is SHUTDOWN; a late reply's
  token makes an attach return before the listener has read its event, so the next one stops the listener
  (`ListenerStops`). From a state at rest this can happen without a further time-out or failed read if and only if
  a message, a token or an event is left over (`ListenerStaysIff`).
- The daemon computes the byte size of its queue table in 16 bits; growing a larger table drops entries
  (`GrowthKeepsIff`, `CreateKeepsIff`, `GrowthCanLoseAll`). A reserved queue index equal to the number of reserved
  entries is accepted, although the message for a refused one names a smaller maximum.
- The comment on `NameServer_getLocalUInt32` says the length is zeroed when a name is not found; the code leaves
  it as it is.

## Model

| member | source | states |
|---|---|---|
| `RcmSchedulerTheorems.StepKeepsInv` | packages/ti/grcm/RcmServer.c:1397-2490 | every step of the server thread and of any worker keeps the whole invariant if and only if it does not re-issue a job id of which a message is still outstanding |
| `RcmSchedulerTheorems.OnePlace` | packages/ti/grcm/RcmServer.c:1774-2128 | in every reachable state a received message without final disposition is at exactly one position of exactly one queue or thread's hand |
| `RcmSchedulerTheorems.OneDisposition` | packages/ti/grcm/RcmServer.c:1774-2041 | no step ever changes a final disposition (replied, freed, returned unprocessed), and each fits the type of its message |
| `RcmSchedulerTheorems.OnePerJob` | packages/ti/grcm/RcmServer.c:1463-1504 | a job never has two messages outstanding on ready queues or held by workers, and a live job marked empty has none |
| `RcmSchedulerTheorems.NoOvertaking` | packages/ti/grcm/RcmServer.c:2387-2490 | once a message of a job has been started, every message of that job received before it has left the queues: a job's messages run in order whatever pools and workers are used |
| `RcmSchedulerTheorems.DeadBranches` | packages/ti/grcm/RcmServer.c:2356-2382 | a worker past the semaphore always finds a message on its ready queue, and the pool of a message passed on from a job queue is always valid |
| `RcmSchedulerTheorems.NothingLeftBehind` | packages/ti/grcm/RcmServer.c:2136-2270 | whenever no thread can move, every received message has had its final disposition if and only if no message waits on the ready queue of a pool without workers |
| `RcmProgress.StepLeavesLess` | packages/ti/grcm/RcmServer.c:1397-2490 | every step of a thread other than a receipt lowers the work left, whatever the interleaving and also when ids are re-issued |
| `RcmProgress.NineStepsEach` | packages/ti/grcm/RcmServer.c:2136-2490 | in no run do the threads take more than nine steps for each message received: when clients stop sending the server comes to rest |
| `RcmAnswers.RightPool` | packages/ti/grcm/RcmServer.c:1430-1456 | in every reachable state a message on ready queue k, or with a worker of pool k, carries a pool id whose low byte is k |
| `RcmAnswers.InBandIff` | packages/ti/grcm/RcmServer.c:2230-2255 | a message for the default pool is taken in-band by the server thread exactly when that pool has no worker |
| `RcmAnswers.DispatchAnswers` | packages/ti/grcm/RcmServer.c:1419-1510 | a dispatch is refused for its pool exactly when the pool id's low byte is past the pools, and for its job exactly when the pool is there and the job is neither discrete nor live; otherwise the message goes to the end of the ready queue of its own pool, or of its job's queue when one of the job is outstanding, and nothing else changes |
| `RcmAnswers.NextAnswers` | packages/ti/grcm/RcmServer.c:2387-2490 | the message a worker passes on is the oldest of the job of the one it finished, and goes to the ready queue its own pool id names |
| `RcmAnswers.CallAnswers` | packages/ti/grcm/RcmServer.c:1810-1905 | a message is answered with success exactly when its function index was found and the function returned no error, with invalid function exactly when the index was not found, with function error exactly when it was found and failed; a command is freed exactly in the first case and otherwise answered likewise |
| `RcmAnswers.QueryAnswers` | packages/ti/grcm/RcmServer.c:1907-1965 | a symbol query is answered with success exactly when the symbol was found and with symbol not found otherwise; a deferred call goes back with 2 either way, which is its own type number; other types are not answered |
| `RcmAnswers.AcquireAnswers` | packages/ti/grcm/RcmServer.c:1971-1982 | an acquire is answered with success exactly when not all 65535 ids are in use, and then one empty job was opened under an id no job had; otherwise with no free job, changing nothing |
| `RcmAnswers.OthersLeaveJobs` | packages/ti/grcm/RcmServer.c:1810-2041 | completing any other message opens and closes no job and moves no other message, and its thread goes on to the next one |
| `RcmAnswers.ReleaseAnswers` | packages/ti/grcm/RcmServer.c:1998-2019 | a release is answered with success exactly when its job was live when it was looked up, and then that job alone is closed |
| `RcmAnswers.ReleaseReturnsAll` | packages/ti/grcm/RcmServer.c:2049-2128 | over runs, every message that was queued on a released job goes back unprocessed, in order, before the release is answered |
| `RcmIdReuse.PromptIsClean` | packages/ti/grcm/RcmServer.c:1331-1359 | a step re-issues no id of an outstanding message when the counter has been advanced less than 65535 times since the id of each outstanding message was issued |
| `RcmIdReuse.PromptRunsAreClean` | packages/ti/grcm/RcmServer.c:1331-1359 | when every message leaves the ready queues and workers before its id can come round, every state of the run is one in which one-per-job, order and the rest hold |
| `RcmIdReuse.FirstCycleClean` | packages/ti/grcm/RcmServer.c:1331-1359 | until the counter has been advanced more than 65535 times every run is clean, whatever clients do and however late messages are |
| `RcmIdReuse.ReissueBreaksOnePerJob` | packages/ti/grcm/RcmServer.c:1331-1359 | the bound is tight: a run from a fresh server in which a job is acquired, used and released, and after a whole cycle of the counter its id is issued again while its message still waits, which breaks one-per-job |
| `RcmSchedulerProof.JobKeptComplete` | packages/ti/grcm/RcmServer.c:1971-2019 | completing a message keeps the one-per-job record if and only if it does not re-issue an id of which a message is outstanding |
| `RcmJobIds.EveryIdVisited` | packages/ti/grcm/RcmServer.c:1331-1359 | from any counter value the cyclic counter shows every non-zero 16-bit id within 65535 advances |
| `RcmJobIds.NoEarlyRepeat` | packages/ti/grcm/RcmServer.c:1331-1359 | no id comes round twice within one cycle |
| `RcmJobIds.RepeatTakesACycle` | packages/ti/grcm/RcmServer.c:1331-1359 | two counts at which the counter shows the same id are at least 65535 advances apart |
| `RcmJobTable.ServerQueues.FindJob` | packages/ti/grcm/RcmServer.c:1463-1474 | the walk of the job list finds the stream of that id, or reports that no live job has it |
| `RcmJobTable.ServerQueues.Dispatch` | packages/ti/grcm/RcmServer.c:1419-1510 | the list walk and queue updates are exactly the scheduler's dispatch step |
| `RcmJobTable.ServerQueues.Post` | packages/ti/grcm/RcmServer.c:1484-1490 | posting the pool's semaphore is the scheduler's post step |
| `RcmJobTable.ServerQueues.Finish` | packages/ti/grcm/RcmServer.c:2393-2487 | what a worker does to the job under the gate after a message is the scheduler's finish step |
| `RcmJobTable.ServerQueues.NextFreeId` | packages/ti/grcm/RcmServer.c:1331-1359 | the search loop stops at the first id after the counter that no live job has, and gives zero only when it has been round once and all 65535 ids are in use |
| `RcmJobTable.ServerQueues.AcqJobId` | packages/ti/grcm/RcmServer.c:1310-1395 | acquiring opens exactly one new empty stream under the id that the scheduler's search gives and leaves the counter there, or changes no job |
| `RcmJobTable.ServerQueues.RelJobId` | packages/ti/grcm/RcmServer.c:2049-2128 | releasing takes exactly that job out and hands its queued messages over in order |
| `RcmFinalize.EveryStepProgresses` | packages/ti/grcm/RcmServer.c:943-1021 | every step of a pool's shutdown lowers a measure that stays non-negative |
| `RcmFinalize.NeverStuck` | packages/ti/grcm/RcmServer.c:943-1021 | until the shutdown is finished some thread can move |
| `RcmFinalize.ShutdownCompletes` | packages/ti/grcm/RcmServer.c:943-1021 | in any interleaving the shutdown takes a bounded number of steps, ends with every worker gone, and the messages started and returned unprocessed are together the ready queue it found, in order |
| `RcmFinalize.OnePostPerWorker` | packages/ti/grcm/RcmServer.c:957-966 | the finalizing thread posts the semaphore once for each worker: what is left of it is what it was and one for each worker, less what workers have taken |
| `RcmFinalize.SchedulerReadyToStop` | packages/ti/grcm/RcmServer.c:943-1021 | every reachable scheduler state with the server thread out of the way meets what the shutdown of a pool starts from |
| `RcmSymbols.KeyAfterClosed` | packages/ti/grcm/RcmServer.c:1722-1728 | the key counts down to 1 and starts over at 2047, so it returns after 2047 steps and not before |
| `RcmSymbols.PackedWord` | packages/ti/grcm/RcmServer.c:1196 | the shifted and or-ed key, table and offset do not overlap in a 32-bit word and masking gives each back |
| `RcmSymbols.MaskedWord` | packages/ti/grcm/RcmServer.c:1590-1618 | the masks and shifts that take an index apart are the divisions the model uses |
| `RcmSymbols.AddIssues` | packages/ti/grcm/RcmServer.c:1138-1203 | an added symbol takes one slot of address zero, no other slot changes, and the index returned names that slot and resolves to it; at offset 0 its function is not handed out |
| `RcmSymbols.IndicesDistinct` | packages/ti/grcm/RcmServer.c:1196 | two taken slots have different indices |
| `RcmSymbols.RefusedOnlyWhenFull` | packages/ti/grcm/RcmServer.c:1138-1203 | a symbol is refused exactly when all 8160 dynamic slots are taken |
| `RcmSymbols.SymIdxAgrees` | packages/ti/grcm/RcmServer.c:1667-1690 | asking for a newly added name gives the index the add returned |
| `RcmSymbols.StaticResolves` | packages/ti/grcm/RcmServer.c:1594-1601 | index 0x80000000 + j resolves to the function of static slot j, as create function for slot 0, and is refused from the number of static slots on |
| `RcmSymbols.NameResolves` | packages/ti/grcm/RcmServer.c:1655-1705 | in any table, resolving the index that a name gives leads to the function of the first slot of that name, a static one before any dynamic one, offset 0 of a dynamic table apart; no index is given exactly when no slot has the name |
| `RcmSymbols.RemoveFrees` | packages/ti/grcm/RcmServer.c:1241-1268 | a removal frees the first slot of that name and no other |
| `RcmSymbols.RemoveAnswers` | packages/ti/grcm/RcmServer.c:1224-1268 | a removal is refused as static exactly when a static symbol has the name and as not found exactly when none has; otherwise it frees the first dynamic slot of the name; refused, it changes nothing |
| `RcmSymbols.AcceptedWhileLive` | packages/ti/grcm/RcmServer.c:1606-1633 | from its issue through the next 2046 additions an index is accepted exactly as long as its symbol is in its slot, whatever else is added and removed |
| `RcmSymbols.OnlyRemovalEnds` | packages/ti/grcm/RcmServer.c:1138-1203 | a symbol of non-zero address stays in its slot until a removal of its own name |
| `RcmSymbols.ZeroAddressTakenOver` | packages/ti/grcm/RcmServer.c:1138-1147 | a symbol of address zero loses its slot to the very next addition, and its index is accepted no more |
| `RcmSymbols.AcceptedIff` | packages/ti/grcm/RcmServer.c:1606-1633 | a dynamic index inside its table is accepted if and only if its slot is taken under its key, or its slot is free and its key is zero; the latter gives address zero |
| `RcmSymbols.StaleAfter2047` | packages/ti/grcm/RcmServer.c:1722-1728 | the bound is tight: the 2047th addition can issue a removed symbol's index again |
| `RcmSymbolStore.SymbolTable.AddSymbol` | packages/ti/grcm/RcmServer.c:1113-1205 | the nested scan, allocation and fill produce exactly the table and index of the specification, or refuse |
| `RcmSymbolStore.SymbolTable.FindSlot` | packages/ti/grcm/RcmServer.c:1138-1176 | the scan finds the first free slot, in a newly allocated table when all are taken |
| `RcmSymbolStore.SymbolTable.RemoveSymbol` | packages/ti/grcm/RcmServer.c:1224-1268 | static and unknown names are refused, any other clears the slot its index decodes to |
| `RcmSymbolStore.SymbolTable.GetSymIdx` | packages/ti/grcm/RcmServer.c:1655-1705 | the scan returns the index of the first slot of that name, static symbols first |
| `RcmSymbolStore.SymbolTable.GetFxnAddr` | packages/ti/grcm/RcmServer.c:1579-1645 | an index is resolved or rejected as the specification says, and one past the end of its table by whatever is read there |
| `RcmSymbolStore.SymbolTable.GetNextKey` | packages/ti/grcm/RcmServer.c:1712-1733 | the counter moves to the next key and the key is returned |
| `RpmsgTables.BindKeepsGood` | linux/src/transport/TransportRpmsg.c:374-379 | binding an unbound queue keeps the index tables, input array, select set and largest descriptor in agreement, binds that queue, leaves every other binding alone, also when the table grows, which it does to hold 32 entries from that index on, and adds exactly its descriptor to the select set |
| `RpmsgTables.UnbindKeepsGood` | linux/src/transport/TransportRpmsg.c:441-475 | unbinding keeps them in agreement, takes away that one binding and its descriptor from the select set, and leaves every other alone |
| `RpmsgTables.UnbindUndoesBind` | linux/src/transport/TransportRpmsg.c:374-475 | unbinding undoes binding: every table is as before, the index table at its grown size |
| `RpmsgTables.MaskKeepsGood` | linux/src/transport/TransportRpmsg.c:619-628 | masking a descriptor that was shut down keeps agreement, all bindings and the largest descriptor |
| `RpmsgTables.RoomForNext` | linux/src/transport/TransportRpmsg.c:94-98 | with descriptors below FD_SETSIZE the input array never overflows |
| `RpmsgTables.EveryStateGood` | linux/src/transport/TransportRpmsg.c:353-628 | after any run of binds, unbinds and shutdowns the tables describe the same bindings, descriptors are distinct and the count stays below 1024 |
| `RpmsgTables.LastBindHolds` | linux/src/transport/TransportRpmsg.c:374-475 | after any run a queue has for a processor the descriptor of its last bind, and none when it was unbound since or never bound |
| `RpmsgTables.StepWatches` | linux/src/transport/TransportRpmsg.c:374-628 | the select set gains exactly the descriptor bound and loses exactly the one unbound or masked |
| `RpmsgTransport.Instance.BindFdToQueueIndex` | linux/src/transport/TransportRpmsg.c:787-824 | the copy and fill loops of the growing table keep every entry, fill with -1 and set the new one |
| `RpmsgTransport.Transport.RemoveInput` | linux/src/transport/TransportRpmsg.c:449-463 | the shift-down loop takes out that entry and keeps the others in order |
| `RpmsgTransport.Transport.FindMax` | linux/src/transport/TransportRpmsg.c:467-474 | the loop finds the largest of the event and the input descriptors |
| `RpmsgTransport.Transport.Bind` | linux/src/transport/TransportRpmsg.c:315-379 | the in-place update is the bind of the specification exactly when the index table, or the word past its end, reads -1; else nothing changes |
| `RpmsgTransport.Transport.Unbind` | linux/src/transport/TransportRpmsg.c:441-475 | the in-place update is the unbind of the specification |
| `RpmsgTransport.Transport.MaskInput` | linux/src/transport/TransportRpmsg.c:619-630 | the dispatch thread's update for a socket that was shut down is the mask of the specification |
| `RpmsgHandshake.EveryRunKeepsInv` | linux/src/transport/TransportRpmsg.c:346-702 | the handshake invariant holds after every run of the dispatch thread and any number of callers |
| `RpmsgHandshake.NoCarry` | linux/src/transport/TransportRpmsg.c:349-388 | the additive event counter is always a sum of different events: PAUSE and CONTINUE never carry |
| `RpmsgHandshake.TablesGuarded` | linux/src/transport/TransportRpmsg.c:361-384 | a caller changes the tables only as owner of the gate, after its ACK, while the dispatch thread waits to be released; the dispatch thread only masks, under the gate |
| `RpmsgHandshake.UpdateTakesEffect` | linux/src/transport/TransportRpmsg.c:374-475 | when a caller updates the tables its own request takes effect and no other binding changes |
| `RpmsgHandshake.SelectReports` | linux/src/transport/TransportRpmsg.c:570-582 | every socket bound and not masked can be reported by select, the largest descriptor included, and select returns without one exactly when an event is pending |
| `RpmsgHandshake.MaskTakesEffect` | linux/src/transport/TransportRpmsg.c:606-637 | when a socket is shut down and the gate free, the dispatch thread takes the gate, takes that descriptor out of the select set and nothing else, and gives the gate back |
| `RpmsgHandshake.OneAckPerPause` | linux/src/transport/TransportRpmsg.c:677-690 | every PAUSE gets one ACK and no ACK is left for a later caller |
| `RpmsgHandshake.HistoriesAreTheRun` | linux/src/transport/TransportRpmsg.c:338-475 | a shutdown is asked for at most once and then known, there are as many PAUSEs as callers sent, and every ACK was taken by one caller or is still there |
| `RpmsgHandshake.SocketsStayOpen` | linux/src/transport/TransportRpmsg.c:587-597 | every socket the dispatch thread is about to receive from is still bound and still at a position its loop visits |
| `RpmsgHandshake.AckComes` | linux/src/transport/TransportRpmsg.c:571-700 | a caller that has sent PAUSE is answered within a bounded number of steps; until then the dispatch thread always has a step that does not need the gate, and nobody else has any |
| `RpmsgHandshake.CallersFinish` | linux/src/transport/TransportRpmsg.c:314-475 | a caller inside the gate always has a step to take, except while it waits for its ACK; each brings it closer to leaving, and no other thread takes it back |
| `RpmsgHandshake.ContinueReleases` | linux/src/transport/TransportRpmsg.c:380-384 | CONTINUE releases the dispatch thread: it can read the event at once and is back at the top of its loop with nothing pending |
| `RpmsgHandshake.ReleasedUnlessStranded` | linux/src/transport/TransportRpmsg.c:441-482 | outside a handshake the dispatch thread is left waiting with nothing to release it exactly when the last handshake was an unbind that found nothing bound; otherwise it runs or its CONTINUE is pending |
| `RpmsgHandshake.StrandedStillAnswers` | linux/src/transport/TransportRpmsg.c:692-699 | a dispatch thread left waiting still answers the next PAUSE |
| `RpmsgHandshake.ShutdownNeverWaits` | linux/src/transport/TransportRpmsg.c:665-669 | after the shutdown event the dispatch thread never waits again until it has ended |
| `RpmsgHandshake.StrandingRun` | linux/src/transport/TransportRpmsg.c:441-443 | a concrete run in which an unbind of an unbound queue leaves the dispatch thread waiting |
| `QueueBinding.NeverTwoSockets` | linux/src/api/MessageQ.c:610-652 | however attaches, detaches, creates, deletes and re-used indices interleave: but for lost sockets no processor has two sockets for a queue index, one without a transport has none, and none is left for an index all of whose queues are gone or not bound yet |
| `QueueBinding.NothingLost` | linux/src/transport/TransportRpmsg.c:1072-1074 | no socket is lost in any run in which no create's scan meets a processor whose detach has left the gate and not unregistered yet |
| `QueueBinding.DetachLoses` | linux/src/transport/TransportRpmsg.c:252-284 | the end of a detach loses exactly the sockets of the pairs that creates have bound since its scan and no delete has unbound, and after it the processor has no open socket but lost ones |
| `QueueBinding.LateBindRun` | linux/src/api/Ipc.c:601-605 | a run from an initial state after which a processor is detached, nothing is under way, and a socket for it is open that no table knows |
| `QueueBinding.OneSocketIff` | linux/src/api/MessageQ.c:724-777 | but for lost sockets a live queue keeps its one socket for every attached processor, and its entry in the array, until the delete of an earlier queue of its index enters the gate after it was published; once that delete has left the gate it has neither |
| `QueueBinding.AttachCreateRace` | linux/src/api/MessageQ.c:1396-1462 | when attaches, detaches and creates race in any interleaving, no delete has taken the gate and no create has met a draining processor, each live queue is bound to each attached processor by exactly one socket |
| `QueueBinding.OverrunRun` | linux/src/api/MessageQ.c:744-777 | a run from an initial state in which a create is given the index of a queue under deletion and ends, with nothing under way, live without socket and entry |
| `QueueBinding.StepKeepsInv` | linux/src/api/MessageQ.c:1396-1462 | every step of attaches, detaches, creates and deletes, the daemon freeing and re-using indices included, keeps what must and what may be bound and what the array holds |
| `QueueBinding.OwnerMoves` | linux/src/api/MessageQ.c:1404-1424 | the owner of the gate always has a step to take, so the scans do not block each other |
| `QueueBinding.ScanEnds` | linux/src/api/MessageQ.c:1404-1462 | each step of the gate's owner leaves one step fewer, of as many as there are entries to visit and one more, the gate is free when none is left, and no other thread's step changes that |
| `QueueBinding.EntryWritten` | linux/src/api/MessageQ.c:636-779 | a create enters its queue at its index and a delete clears the entry there, whoever's it is; every other entry stays, and an array that is too short grows to hold 32 entries from that index on |
| `MessageQClient.MessageQModule.Bind` | linux/src/api/MessageQ.c:1396-1425 | the scan under the gate binds to the processor exactly the queues in the array, each once |
| `MessageQClient.MessageQModule.Unbind` | linux/src/api/MessageQ.c:1433-1462 | the scan under the gate unbinds from the processor exactly the queues in the array |
| `MessageQClient.MessageQModule.Create` | linux/src/api/MessageQ.c:610-652 | the scan binds the queue to exactly the registered transports before it enters it in the array |
| `MessageQClient.MessageQModule.Delete` | linux/src/api/MessageQ.c:744-779 | the scan unbinds the queue from exactly the registered transports and takes it out of the array |
| `MessageQClient.MessageQModule.Grow` | linux/src/api/MessageQ.c:1353-1380 | the copy loop keeps every entry and adds empty ones up to 32 past the index |
| `CrcTable.TableIsEight` | linux/src/daemon/NameServer_daemon.c:188-232 | every one of the 256 table entries is eight rounds of the CRC-32 polynomial on its index |
| `StringHash.ComputeHash` | linux/src/daemon/NameServer_daemon.c:234-244 | the loop over the characters computes the recursive hash |
| `StringHash.RoundIsEight` | linux/src/daemon/NameServer_daemon.c:239-241 | one round of the hash is eight CRC rounds on the whole word |
| `StringHash.RoundLaws` | linux/src/daemon/NameServer_daemon.c:239-241 | a round is XOR-linear, injective, and undoes a left shift by eight |
| `StringHash.WindowNeverCollides` | linux/src/daemon/NameServer_daemon.c:234-244 | different names of equal length that differ only inside four consecutive characters never have the same hash, at any length |
| `StringHash.WindowOfFiveCollides` | linux/src/daemon/NameServer_daemon.c:234-244 | four is the limit: two names of five letters and digits with the same hash |
| `NameTable.LookupRefines` | linux/src/daemon/NameServer_daemon.c:1323-1361 | a lookup answers as a finite map does, cut to the length asked for, if and only if the hash of the name is not that of a different name in the table |
| `NameTable.LookupCuts` | linux/src/daemon/NameServer_daemon.c:1323-1361 | in any table a lookup fails exactly when no entry has the hash of the name, and otherwise gives the first bytes of the value of the first such entry, as many as asked for or all when there are fewer |
| `NameTable.AddedIsFound` | linux/src/daemon/NameServer_daemon.c:830-1361 | over any operations on names whose hashes differ pairwise, from an accepted add of a name until its removal every lookup of it gives the first bytes of the value added, as many as asked for or all when there are fewer |
| `NameTable.RemovedIsNotFound` | linux/src/daemon/NameServer_daemon.c:961-1361 | and a lookup of a name never added, or removed after each accepted add of it, finds nothing |
| `NameTable.RemoveRefines` | linux/src/daemon/NameServer_daemon.c:961-1001 | a removal takes the name out of the map and reports whether it was there, under the same if-and-only-if |
| `NameTable.AddRefines` | linux/src/daemon/NameServer_daemon.c:849-915 | an add is refused exactly for a value longer than the limit, a name not shorter than the limit if there is one, or a name present; an accepted add enters the pair into the map under the same if-and-only-if |
| `NameTable.RemoveRowGood` | linux/src/daemon/NameServer_daemon.c:1027-1033 | removing through an entry handle takes exactly that name out |
| `NameTable.TableRefinesMap` | linux/src/daemon/NameServer_daemon.c:830-1368 | over any operations on names whose hashes differ pairwise the table answers as a finite map, stands for it in the end, and counts it |
| `NameTable.CollidingNames` | linux/src/daemon/NameServer_daemon.c:896-915 | what happens on a collision: the second add is accepted, its lookup gives the first value, and removing the first loses both but counts one |
| `NameTable.CollidingNamesExist` | linux/src/daemon/NameServer_daemon.c:896-915 | for any two values there are two names of five characters under which all that happens |
| `NameServerInstance.NameServer.Add` | linux/src/daemon/NameServer_daemon.c:830-926 | the scan and insertion of nodes is the specification's add |
| `NameServerInstance.NameServer.Remove` | linux/src/daemon/NameServer_daemon.c:944-1008 | the removal is the specification's, and its branch for a colliding list node is never taken |
| `NameServerInstance.NameServer.RemoveEntry` | linux/src/daemon/NameServer_daemon.c:1016-1038 | removing a node takes that row out and lowers the count |
| `NameServerInstance.NameServer.GetLocal` | linux/src/daemon/NameServer_daemon.c:1294-1368 | the lookup is the specification's, and its branch for a colliding list node is never taken |
| `NameServerInstance.NameServer.Delete` | linux/src/daemon/NameServer_daemon.c:800-803 | the delete loop ends with the table empty |
| `RemoteQuery.FreshAnswersOnly` | linux/src/daemon/NameServer_daemon.c:1118-1195 | with any delay, loss, reordering, leftover replies, and attaches and detaches in between, a query succeeds only with the value the remote table had for its own key at some moment after it was sent, and reports not-found only if the key was absent at such a moment; for the first query the latter while no read of an attach or detach has failed |
| `RemoteQuery.DeliveredReplyReturns` | linux/src/daemon/NameServer_daemon.c:395-406 | when the listener gets the reply of the waiting query, the caller can take it at once and returns what it says |
| `RemoteQuery.FirstQuerySound` | linux/src/daemon/NameServer_daemon.c:1142-1155 | the first query's not-found is right in every run that follows if, when it begins, no token is there or about to be posted |
| `RemoteQuery.FirstQueryMisses` | linux/src/daemon/NameServer_daemon.c:1142-1155 | and otherwise some run makes it miss, whatever key is asked for and whatever the remote table holds |
| `RemoteQuery.LostAckRun` | linux/src/daemon/NameServer_daemon.c:1469-1481 | where such a token comes from: an attach whose failed read of the answer is only logged, after which the first query misses a key that is there all the time |
| `RemoteQuery.ListenerStaysIff` | linux/src/daemon/NameServer_daemon.c:503-527 | whatever has happened before, when the daemon's thread is at rest the listener goes on in every further run without time-outs and failed reads if and only if no request or reply is on its way, no token is left over and the event counter shows no event |
| `RemoteQuery.ListenerStays` | linux/src/daemon/NameServer_daemon.c:503-527 | so in a run without time-outs and failed reads the listener goes on |
| `RemoteQuery.ListenerStops` | linux/src/daemon/NameServer_daemon.c:503-527 | one query that times out is enough to stop the listener for good: its late token lets an attach return early, and the next one's REFRESH adds up with the first to SHUTDOWN |
| `RemoteQuery.AskedOnce` | linux/src/daemon/NameServer_daemon.c:1101-1105 | the remote processor is asked at most once for a query, and for its own key |
| `RemoteQuery.HistoriesAreTheRun` | linux/src/daemon/NameServer_daemon.c:1086-1105 | the histories the other theorems speak of are those of the run: the keys in the order asked for, the tables in the order in which they replaced each other, and for each query the table at the moment it was sent |
| `NameServerComm.KeepsGood` | linux/src/daemon/NameServer_daemon.c:1402-1566 | attach, detach and reattach keep both sockets open exactly while the count is positive and leak no descriptor, also when an attempt fails half way; the sockets change with the first attach, the last detach and a successful reattach alone, the sending one being the first descriptor |
| `NameServerConnection.Connection.Attach` | linux/src/daemon/NameServer_daemon.c:1413-1507 | the step-by-step attach with its failure exits is the specification's |
| `NameServerConnection.Connection.Detach` | linux/src/daemon/NameServer_daemon.c:1525-1566 | the step-by-step detach is the specification's |
| `NameServerConnection.Connection.Reattach` | linux/src/daemon/NameServer_daemon.c:246-335 | the reattach swaps both sockets or closes whatever it opened |
| `AttachCount.CountsAgree` | linux/src/api/Ipc.c:505-544 | after any attaches and detaches by many clients, failed and rolled back ones included, the daemon's count is the number of clients attached or in between, its sockets are open exactly while it is positive, and a client has a transport instance exactly while attached |
| `AttachCount.DetachNeverFailsHalfWay` | linux/src/api/Ipc.c:580-620 | a detach never fails for a missing transport instance in the middle, which would leave the daemon's count too high |
| `AttachCount.CountIsBalance` | linux/src/api/Ipc.c:505-620 | between its calls a client's count is the number of its attaches that returned success less that of its detaches that did, whatever other clients do |
| `AttachCount.CallsAnswer` | linux/src/api/Ipc.c:480-633 | an attach succeeds exactly when the client is attached already, or the daemon is or becomes connected and the transport attaches, and a detach fails exactly when the client is not attached; what each does to the client's and the daemon's count |
| `AttachCount.ReconnectSwaps` | linux/src/daemon/NameServer_daemon.c:246-335 | a reconnection of an attached daemon replaces both sockets if it succeeds, and else changes nothing, and never a client |
| `AttachCount.StepsMakeCalls` | linux/src/api/Ipc.c:480-633 | the steps of one client with nothing in between are the whole attach and detach calls, roll-back included |
| `IpcClient.IpcModule.Attach` | linux/src/api/Ipc.c:505-544 | the attach with its failure exits updates count, transport and connection as the whole call of the machine does |
| `IpcClient.IpcModule.Detach` | linux/src/api/Ipc.c:580-620 | the detach updates them as the whole call of the machine does |
| `LocalQueue.NeverFromEmpty` | linux/src/api/MessageQ.c:1018-1059 | whatever puts, gets, timeouts, unblocks and shutdowns do, no get dequeues from an empty list |
| `LocalQueue.DeliveredInOrder` | linux/src/api/MessageQ.c:896-911 | the messages gets have returned followed by those in the list are the messages inserted, once each, in order |
| `LocalQueue.NoLostWakeup` | linux/src/api/MessageQ.c:896-911 | with no call half done and the flag clear the semaphore counts exactly the messages in the list |
| `LocalQueue.FlagStopsDelivery` | linux/src/api/MessageQ.c:1215-1230 | once the flag is set only gets that had already seen it clear still receive a message, one each |
| `LocalQueue.GetReturns` | linux/src/api/MessageQ.c:1018-1059 | past its wait a get returns the flag that the last unblock or shutdown of the run set, or when there was none, the oldest inserted message that no get has returned; one that gives up returns a timeout and changes nothing |
| `LocalQueue.SemaphoreLaw` | linux/src/api/MessageQ.c:896-1059 | over any run, flag set or not, the semaphore is what was posted less what gets took, each insertion and each raised flag has its one post, and each get that took one its one result |
| `LocalQueue.StepsFollowObject` | linux/src/api/MessageQ.c:896-1059 | the machine's steps do to the list, semaphore and flag what the queue object's methods do |
| `LocalQueueObject.MessageQObject.Put` | linux/src/api/MessageQ.c:903-909 | a local put appends the message and posts once |
| `LocalQueueObject.MessageQObject.Get` | linux/src/api/MessageQ.c:1018-1059 | a get nobody interferes with returns the oldest message, or the flag once it is set, or a timeout |
| `LocalQueueObject.MessageQObject.Unblock` | linux/src/api/MessageQ.c:1215-1230 | an unblock or shutdown sets the flag and posts once |
| `HwSpinlock.MutualExclusion` | linux/src/daemon/GateHWSpinlock.c:263-329 | over any number of processes and threads at most one thread is inside a gate, and its register is taken exactly while some thread is |
| `HwSpinlock.NestedIsDepth` | linux/src/daemon/GateHWSpinlock.c:274-299 | the nesting count of a gate is its local gate owner's depth in it, also through the back-off loop, and zero without owner |
| `HwSpinlock.LeaveNeverWaits` | linux/src/daemon/GateHWSpinlock.c:314-329 | a thread inside a gate can always leave it in two steps that wait for nobody; it is then inside once less, and the register is given up exactly when it was inside once |
| `HwSpinlock.ReentryNeverWaits` | linux/include/IGateProvider.h:156 | a thread inside a gate enters it again without waiting, whatever others do |
| `GateObjects.GateHWSpinlock.Begin` | linux/src/daemon/GateHWSpinlock.c:273-279 | entering takes the local gate and nests, and is done when the gate was entered already |
| `GateObjects.GateHWSpinlock.Try` | linux/src/daemon/GateHWSpinlock.c:282-296 | a round of the loop takes the free register, or un-nests and leaves the local gate |
| `GateObjects.GateHWSpinlock.Reenter` | linux/src/daemon/GateHWSpinlock.c:297-298 | the end of a round takes the local gate and nests again |
| `GateObjects.GateHWSpinlock.Release` | linux/src/daemon/GateHWSpinlock.c:314-324 | leaving un-nests and gives the register up with the last nesting only |
| `GateObjects.StepsFollowObject` | linux/src/daemon/GateHWSpinlock.c:263-329 | each step of the machine does to the registers and to the gate it is about what the method of the gate object does, and leaves the counts of the process's other gates alone |
| `GateObjects.StepsMayCallObject` | linux/src/daemon/GateHWSpinlock.c:273-324 | in every reachable state the thread that takes a step finds the local gate free or its own, and the gate nested when it un-nests |
| `GateResources.NeverHandedOutTwice` | linux/src/daemon/GateMP_daemon.c:622-685 | whatever threads release whatever resources, one is handed out only when it was released since it was handed out before, and it is the lowest free one |
| `GateResources.RefusedOnlyWhenAllUsed` | linux/src/daemon/GateMP_daemon.c:622-651 | an allocation fails only when every resource was in use |
| `GateResources.AllocationStarts` | linux/src/daemon/GateMP_daemon.c:622-685 | a thread inside the default gate can always start an allocation, with the first resource, and release any resource |
| `GateResources.MarkedWhileHeld` | linux/src/daemon/GateMP_daemon.c:622-685 | after any run a resource is marked exactly when a thread was handed it and none has released it since, or it was in use from the start and never released |
| `GateResources.MarksChange` | linux/src/daemon/GateMP_daemon.c:622-685 | a release clears the mark of its resource and no other, a claim sets the mark of the one it hands out and no other, and nothing else changes a mark |
| `GateResources.AllocationEnds` | linux/src/daemon/GateMP_daemon.c:622-651 | an allocation under way can always take its next step and ends after as many steps as there are resources and two more, whatever other threads do in between |
| `GateResources.GateMP.GetFreeResource` | linux/src/daemon/GateMP_daemon.c:626-645 | the scan marks exactly the lowest unused resource, or changes nothing when all are used |
| `GateResources.GateMP.ReleaseResource` | linux/src/daemon/GateMP_daemon.c:677-682 | a release clears exactly that mark, or fails for an id out of range |
| `LadProtocol.OwnResponse` | linux/src/utils/LAD_client.c:303-361 | every response a thread reads is the daemon's answer to the command that thread put |
| `LadProtocol.OneOutstanding` | linux/src/daemon/lad.c:829-874 | a process has at most one command outstanding; the daemon can serve every command and answers the process it came from |
| `LadProtocol.ServedInOrder` | linux/src/daemon/lad.c:398-418 | the daemon serves the commands in the order written, each once; every connect and call ends in one exchange or is still waited for |
| `LadProtocol.SlotsNotShared` | linux/src/daemon/lad.c:1184-1188 | connected processes have different client slots, each below 32 |
| `LadProtocol.DeniedOnlyWhenFull` | linux/src/daemon/lad.c:970-985 | a connect is denied exactly when all 32 slots are owned, otherwise it gets one nobody owned |
| `LadProtocol.WaitersAreServed` | linux/src/daemon/lad.c:398-418 | a waiting thread's answer is there, or its command is in the FIFO, which the daemon can go on serving |
| `LadProtocol.ClosedOnceServed` | linux/src/utils/LAD_client.c:238-298 | a process that has disconnected sees its connection closed exactly when the daemon has served the disconnect, and then owns no slot and may connect again |
| `LadSlots.ClientTable.AssignClientId` | linux/src/daemon/lad.c:970-985 | the scan finds the first slot nobody is connected at |
| `LadSlots.ClientTable.Connect` | linux/src/daemon/lad.c:1098-1188 | a connect takes that slot for the process, or is denied and changes nothing when all are taken |
| `QueueSlots.CreateKeepsGood` | linux/src/daemon/MessageQ_daemon.c:299-357 | a create puts a new queue into a free slot its id decodes to and keeps every other queue and name, needing the byte size to fit in 16 bits only if the table has to grow; it fails only for a reserved index too large or taken |
| `QueueSlots.CreateKeepsIff` | linux/src/daemon/MessageQ_daemon.c:299-357 | a create loses no queue if and only if it finds a slot or the byte size of the table fits in 16 bits |
| `QueueSlots.GrowthKeepsIff` | linux/src/daemon/MessageQ_daemon.c:455-480 | when no dynamic slot is free, so that the table grows, growing loses no queue if and only if the byte size of the table fits in 16 bits |
| `QueueSlots.GrowthCanLoseAll` | linux/src/daemon/MessageQ_daemon.c:463-471 | a table of 16384 four-byte pointers is dropped whole when it grows |
| `QueueSlots.GrowthKeepsExactly` | linux/src/daemon/MessageQ_daemon.c:455-480 | growing keeps exactly the first so many entries as their number modulo 16384, or 8192 for 8-byte pointers, and adds 32 |
| `QueueSlots.AnnounceKeepsGood` | linux/src/daemon/MessageQ_daemon.c:368-383 | an announce enters the name with the queue's id exactly when the queue has none yet, the name is shorter than the limit, if there is one, and not taken; it reports failure only for a missing name or a queue announced before, and changes nothing else |
| `QueueSlots.DeleteKeepsGood` | linux/src/daemon/MessageQ_daemon.c:389-430 | deleting a queue clears its own slot and name and nothing else |
| `QueueSlots.CleanupExact` | linux/src/daemon/MessageQ_daemon.c:522-533 | cleaning up after a process deletes all its queues and no others |
| `QueueSlots.SetOwnerKeepsGood` | linux/src/daemon/MessageQ_daemon.c:515-518 | setting the owner changes that queue's owner and nothing else |
| `QueueSlots.OwnerDecidesCleanup` | linux/src/daemon/MessageQ_daemon.c:515-533 | after the owner of a queue was set to a process, through any run that neither deletes it nor sets its owner again nor cleans up after that process, cleaning up after that process deletes it and cleaning up after any other leaves it |
| `QueueSlots.QueueLife` | linux/src/daemon/MessageQ_daemon.c:275-533 | what each operation means for a given queue: it goes exactly when it is deleted or its owner cleaned up after; its id stays, its owner is the last set, and its key that of the first announce that was taken |
| `QueueSlots.EveryStateGood` | linux/src/daemon/MessageQ_daemon.c:275-533 | after any run from an empty table that has not grown from 64 KB or more, live queues sit in the slot their id decodes to, ids are unique, and names stand exactly for live queues' ids |
| `QueueTable.MessageQModule.Create` | linux/src/daemon/MessageQ_daemon.c:275-365 | the search for a hole, the growth and the fill are the specification's create, for a table of any size |
| `QueueTable.MessageQModule.Grow` | linux/src/daemon/MessageQ_daemon.c:455-480 | the copy loop enlarges the table by 32 and keeps as many entries as the 16-bit size says |
| `QueueTable.MessageQModule.Announce` | linux/src/daemon/MessageQ_daemon.c:368-383 | the announce is the specification's |
| `QueueTable.MessageQModule.SetOwner` | linux/src/daemon/MessageQ_daemon.c:515-518 | storing the process in the queue object is the specification's |
| `QueueTable.MessageQModule.Delete` | linux/src/daemon/MessageQ_daemon.c:389-430 | the delete clears the slot its id leads to |
| `QueueTable.MessageQModule.CleanupOwner` | linux/src/daemon/MessageQ_daemon.c:522-533 | the loop is the specification's clean-up |

## Left out

- Sockets, eventfds, ioctl, mmap and FIFO files appear only by their effect on counters, sets and queues; system calls that the model does not give an outcome for succeed.
- Allocation failures: several such paths leave half-done state and promise nothing.
- RcmServer: dynamic worker pools; a pool id with bit 15 clear leaves the pool unset (RcmServer.c:1739-1766), so messages carry static pool ids. DPC with a bad index, and SYM_ADD and unknown types, which are neither answered nor freed and so count as dropped.
- RcmServer: the RPMessage build, which reuses one receive buffer; message headers, logging and tracing.
- RcmServer: the termination flag of the workers is modelled only in the shutdown of a pool, one pool at a time; the pools share nothing in it.
- RcmServer: the concurrency of the symbol table, whose operations each run under the instance gate.
- RcmFinalize.SchedulerReadyToStop: no job is live any more. The source deletes the job list before the pools (RcmServer.c:903-935) and expects it to be empty; the shutdown with live jobs, or with a worker still inside an acquire, is not modelled.
- RpmsgTransport.Transport.Unbind: when the queue index lies past the index table, which the source does not check, only a word of -1 there is covered; any other is written over.
- TransportRpmsg: queue ports below the port offset; failed writes to an eventfd; errors returned by select; attaching and detaching processors while the tables are in use.
- QueueBinding.OneSocketIff: does not cover socket failures inside a bind, which a lost socket of the same pair may cause; the use of a transport by a create at the moment it is deleted; transports of priority 1 and network transports.
- MessageQ: remote delivery by MessageQ_put, which reports success without a transport; message allocation; the deadline arithmetic of a get with timeout.
- StringHash.WindowNeverCollides: characters are widened without sign, which for 7-bit characters is what every compiler does.
- NameTable.TableRefinesMap: duplicates are refused, as by default; a handle is used only while its entry is in the table, and an entry behind a colliding one is not removed through its handle. The instance list, its reference counts and the 32-bit wrap of the count are not modelled.
- RemoteQuery.FreshAnswersOnly: the sequence check and the copy of the reply are one step, one query runs at a time, and sequence numbers do not wrap. The listener's shutdown by NameServer_destroy is left out.
- AttachCount.CountsAgree: one processor at a time with valid ids; the exits of Ipc_attach and Ipc_detach for invalid ids, which unlock a mutex that was never taken, are not modelled. A call into the daemon is one step.
- The loops of the server, worker, dispatch, listener and daemon threads do not end by themselves; they are steps of the machines, which work on values, so aliasing between objects that different threads hold is not captured there. The objects' own updates between two lock operations are the classes'.
- HwSpinlock: the retry loop of GateHWSpinlock_enter is steps of the machine, not a loop of a method, because whether it ends depends on other processors. One gate object per gate and processor.
- GateMP: shared memory layout, creation and opening of gates by name, attach and detach of processors.
- LadProtocol: clients that die in the middle, the use of a handle during LAD_disconnect, a second connect of a connected process, two threads of one process that connect at once and both pass the check made before the gate (LAD_client.c:154-158), and time-outs.
- QueueSlots.EveryStateGood: names are compared as such; a name whose hash collides with another is the subject of NameTable. Slots beyond 65280, whose ports wrap, are reached only by growing beyond 64 KB.
- Watchdog, Deh, power management, heaps, shared regions, MultiProc and configuration getters.
