# The NVMe-oF RDMA request engine, modelled in Dafny

A Dafny model of the I/O path of an NVMe over Fabrics host driver: how one RDMA queue takes a read or write through
fast-register, send, response and invalidate while several processors interleave, and the smaller pieces around it.
`dafny verify dfyconfig.toml` checks everything.

## The request engine

`IoProtocol` is a step system. Each step is one interlocked operation, one store that another processor may read, or one
call into NDK; the state holds the request slots, the command table, the posted work requests, both completion queues
with their armed flags, the counters, and a program counter for every submitting thread, for the send-queue (SCQ)
handler, for the receive-queue (RCQ) handler and for a flush. The steps follow the functions of `nvmefrdma.c`:

| steps | function | lines |
|---|---|---|
| `SubScan` ... `SubTicket` | GetCurrentFreeIORequest, GetIOQUniqueCommandID | 4866-4895, 4459-4468 |
| `SubParent`, `SubMark` | PrepareRWRequest | 5337-5406 |
| `SubWriteFr` ... `SubCount` | IOQFastRegisterDataMR | 5171-5248 |
| `ScqGet`, `ScqBranch` | IOQPScqCallback, IOQHandleScqReq | 4138-4187, 4022-4135 |
| `FrCount` ... `FrMarkDone` | IoFRCompletion | 4914-5040 |
| `SendMark`, `SendCas` | IoSendCompletion | 5042-5079 |
| `SendWriteInv`, `SendPostInv`, `RcqWriteInv`, `RcqPostInv` | IOQInvalidateDataMr | 4509-4531 |
| `InvCheck`, `InvClaim` | IOQHandleScqReq, the invalidate branch | 4075-4091 |
| `InvAssert` ... `InvCountdown` | IoCompletion | 5100-5148 |
| `RcqGet`, `RcqRearm`, `RcqRepost`, `RcqCount` | IOQPRcqCalback, the end of IOQHandleRcqReq | 3892-3999, 3851-3859 |
| `RcqFind`, `RcqTake` | IOQGetRequestByCmdId | 2895-2930 |
| `RcqMark`, `RcqStoreStatus`, `RcqSwap` | IOQHandleRcqReq, NVMeIoResponseCompletion | 3797, 5150-5169 |
| `Flush...` | FlushIOQueue | 4270-4318 |

`IoInvariant` says what holds between steps; `IoSteps` shows that every step keeps it; `IoCounters` relates counters to
sums over slots and measures what is left to do; `IoRuns` carries both over whole runs; `IoTheorems`, `IoProgress`,
`IoStories`, `IoScan` and `IoWitness` state the results; `IoStories` tells every host I/O's story from the events of a
run alone and shows that the state agrees with it. Two flags of the state are history: `fault` is raised when an
assertion of the driver would fire or NDK would be misused (a work request written or posted while NDK has it, a
command id posted twice, a completion queue drained by two handlers, a null callback called), and `collided` when a
table insert meets an occupied entry. As long as `collided` stays down nothing raises `fault`, and `collided` stays
down while every request whose id is in the table, or about to be entered, has one of the last 65536 tickets.

Assumptions about the surroundings:

- a completion queue is armed for one notification and fires at once if it is armed while it holds completions, so
  each queue is drained by one handler at a time, while SCQ, RCQ, threads and flush run concurrently;
- every posted request completes successfully, in any order; the target answers each command at most once, into a
  posted receive;
- a page map is built before the call returns, and branches that end in `ASSERT(0)` are not taken, except the table
  insert, whose failing branch is modelled because the code goes on after it;
- the caller raises the outstanding counters before it enters the driver (`AdmitIo`);
- counter updates that no step depends on are made in one step with the interlocked operation next to them;
- a batch of results is taken one completion at a time;
- the two names of the hash-table switch mean one switch, which is on, and the several names of the queue array and of
  the queue counter mean one array and one counter.

What the code does not do as one would expect, each with a lemma or a method that shows it:

- the callback can get a stale status: RESPONSE_RECEIVED is published before the status is stored
  (`IoWitness.StaleStatus`, and exactly when in `IoTheorems.StatusAtCall` and `IoStories.CallbackGetsAnswer`);
- the fast-register counter can be below zero for a moment (`IoWitness.FrCounterBelowZero`, and exactly when in
  `IoTheorems.CountersConserved`);
- a request is never free again once a flush took its host I/O (`IoWitness.Robbery`, `IoTheorems.RobbedForever`);
  those requests, and no others, are left over when nothing can move any more (`IoProgress.Progress`);
- a FREE slot can still have the receive-queue handler before the store and the compare-and-swap of its last life
  (`IoWitness.FreeWhileParked`);
- the plain scan by command id, unlike the table, can name the wrong request, because freed requests keep their ids
  and a submitter claims a request and takes its id in two steps. It does so exactly while some lower request that
  showed the id when the ticket was taken has taken none since, or has taken one that is a multiple of 65536 later
  (`IoScan.ScanThroughLife`). One other submitter is enough, after the counter has gone round once
  (`CommandIds.OnePasserScanFails`); it does not happen while submitters pass only requests that have their ids, and
  ids are less than 65536 tickets old (`IoScan.FirstFitAgrees`);
- the function that picks a node's next queue is fair exactly for powers of two (`NumaQueues.FairIff`); otherwise it
  picks just the queues whose number has no bit that the mask lacks (`NumaQueues.PickedIff`);
- with more than one node up to one queue more than asked for is built, and a node's share loses every multiple of 65536
  (`NumaQueues.Session.ConnectControllerIOQueues`);
- a connect that fails after the NDK connect leaves its connector open, in a pair that is not counted
  (`QueuePairs.LeftOpen`, and exactly when in `QueuePairs.Socket.ConnectRdmaQPair`);
- a disconnect of a pair that is not connected takes a reference that belongs to another, so that the count is zero
  while a pair is connected (`QueuePairs.StolenReference`, and exactly when in
  `QueuePairs.Socket.DisconnectSyncAsyncRdmaSocketQP`); of a pair that holds no open objects it closes stale handles;
  and the socket becomes Disconnected only by a disconnect that finds the count at zero;
- a log message is dropped when its sequence numbers wrap (`LogSplitter.WholeMessage`);
- the depth of an I/O queue is read from the queue counter after that was set to zero, so the first queue gets depth 0
  (`NumaQueues.LookupFindsBuilt`).

The comment in `nvmefrdma.c:3958` asks for a check of the controller state in place of the expression there; the model
follows neither, because receives that fail or are cancelled on I/O queues are left out.

## The other modules

- `TicketIds`: command ids by the tickets they are taken from, for the engine and for `CommandIds`.
- `CommandIds` and `IoRequestLists`: the id operations alone, claim and id in one step or in two, with the table
  against the plain scan; the class keeps the driver's arrays and loops and is shown to do what the operations on
  values do.
- `FlushQueues`: the flush loop of one queue in place.
- `Sgl`: page map to scatter/gather list.
- `NumaQueues`: construction of queues per NUMA node, lookup by queue id, round robin.
- `AdminReceives`: the receives of the admin queue.
- `QueuePairs`: NDK object lifetimes in `fab_rdma.c`. A completion queue can be closed there only after its queue
  pair.
- `LogSplitter`: the system event log splitter of `utils.c`.

## Model

| member | source | states |
|---|---|---|
| IoInvariant.InitInv | nvmefrdma.c:3286-3345 | a queue whose requests are all free, with id 0xFFFF and an empty table, satisfies the invariant |
| IoSteps.InvKept | nvmefrdma.c:4914-5169 | every step of every thread, handler, flush, NDK and target keeps the invariant, unless an insert meets an occupied entry |
| IoCounters.CountsStep | nvmefrdma.c:5117-5147 | every step changes each counter by as much as the sum that the counter stands for |
| IoRuns.RunSound | nvmefrdma.c:4866-5169 | the invariant, the sums and the distinctness of tickets hold after every run without collision |
| IoRuns.OccupiedIff | nvmefrdma.c:4986-4990 | the entry for a slot's id is occupied exactly if another slot has the same id and an unfetched response |
| IoRuns.NoRival | nvmefrdma.c:4459-4468 | if the ids in the table, or about to be entered, come from the last 65536 tickets, no insert meets a request with its id |
| IoTheorems.NoFault | nvmefrdma.c:5114-5137 | no assertion fires, no work request is misused, no callback fetched is null, no queue is drained twice, in any reachable state |
| IoTheorems.NoMisuse | nvmefrdma.c:4877-4882 | the same spelled out: at every point of every thread and handler what it asserts there holds, and a work request is written or posted only while the driver has it |
| IoTheorems.OneHandOff | nvmefrdma.c:5058-5066 | a life of a slot is handed off at most once, exactly when its state is FREEING |
| IoTheorems.DoneDoesNotRest | nvmefrdma.c:5031-5066 | a word with both the send-completion and the response bit is ALL_STATE_DONE, and then a handler of this very life is before its compare-and-swap |
| IoTheorems.StepOnward | xport_wrq.h:20-42 | no step takes a slot back within a life, changes whose life it is, or posts without moving on |
| IoTheorems.HandOffStep | nvmefrdma.c:5150-5169 | the hand-off is made by the compare-and-swap of one of the two handlers, from ALL_STATE_DONE to FREEING, and that handler goes on to the invalidate |
| IoTheorems.InvalidatePosted | nvmefrdma.c:4509-4531 | an invalidate is posted only for a life that was handed off, once in it |
| IoTheorems.NoAbaResponse | nvmefrdma.c:5160-5168 | the response's compare-and-swap, however late, succeeds exactly in the life in which the handler set its bit, with the send complete |
| IoTheorems.NoAbaSend | nvmefrdma.c:5044-5066 | the send's compare-and-swap succeeds exactly in the life whose send completed, with the response marked; otherwise the response has won |
| IoTheorems.OneOwner | nvmefrdma.c:4047-4099 | a posted or completed work request still has the type that was posted, and the switch sees the type of the operation that completed |
| IoTheorems.AtMostOneCallback | nvmefrdma.c:4083-4092 | a host I/O is called back at most once, and not before it leaves its slot; it is over exactly if it was called back, turned away or dropped by a flush (IoStories says when) |
| IoTheorems.FetchedCallback | nvmefrdma.c:5133-5137 | the callback fetched by IoCompletion or by the flush is not null, and the two never have the same host I/O |
| IoTheorems.AnaKeeps | nvmefrdma.c:4300-4310 | a flush for an asymmetric-access disconnect calls no host I/O back and leaves its callback |
| IoTheorems.DeliveredStatus | nvmefrdma.c:5133-5157 | a callback that was not recorded as late got the status in the slot's answer |
| IoStories.CallStep | nvmefrdma.c:5133-5137 | the step of the callback: delivered is the status that the slot holds, and late is recorded exactly if the receive-queue handler has still to store one for that slot |
| IoStories.CallbackGetsAnswer | nvmefrdma.c:5133-5157 | over any run: all callbacks are the handler's or a flush's, one in all; the handler's gets the status in the one event by which the target answered this life's command, unless a store was pending, and then what the slot held |
| IoStories.ScanStep | nvmefrdma.c:4877-4890 | a thread that has come to a FREE slot claims it at its next step, and goes on to the next slot otherwise |
| IoStories.TurnedAwayExactly | nvmefrdma.c:4872-4894 | over any run: a host I/O is turned away exactly if its thread found each of the slots not FREE when its turn came; a thread that claimed one claimed the first it found FREE |
| IoStories.DroppedExactly | nvmefrdma.c:4300-4312 | over any run: a flush takes a host I/O at most once; it is dropped exactly if that flush began for asymmetric access, and called back by it exactly if it did not |
| IoStories.NoneDropped | nvmefrdma.c:4300-4312 | in a run without a flush for asymmetric access none is ever dropped, and where nothing can move everyone that was not turned away was called back once |
| IoStories.StuckTells | nvmefrdma.c:4866-5169 | where nothing can move: turned away after finding every slot busy, or dropped, or called back once by the flush that took it, or else by the handler after exactly one answer |
| IoStories.FlushVisitsAll | nvmefrdma.c:4283-4315 | a flush comes to every slot in turn, and leaves it with its host I/O only if the request was not INITIALIZED at the test or had no parent at the exchange; all others are called back or dropped at its end |
| IoStories.PagesMapped | nvmefrdma.c:5337-5406 | the pages counted for a life are those of the map that its thread built |
| IoTheorems.StatusAtCall | nvmefrdma.c:5136-5157 | at the callback the slot's status is the response's exactly if nothing, or the same value, is still to be stored |
| IoTheorems.TableExact | nvmefrdma.c:4986-4996 | entry c holds slot i exactly if i has id c and is between its insert and the removal by its response |
| IoTheorems.CommandFindsSlot | nvmefrdma.c:2902-2916 | every unanswered command and every answer on its way finds its slot in the table |
| IoTheorems.FreeIsClean | nvmefrdma.c:4877-4882 | a FREE slot has no parent and nothing posted, and no thread and neither handler works on it, but for a store and a compare-and-swap of the receive-queue handler that are left over |
| IoTheorems.FreeIsForgotten | nvmefrdma.c:5140-5140 | no entry, command or answer names a FREE slot |
| IoTheorems.RobbedExactly | nvmefrdma.c:4286-4288 | a slot is robbed from the exchange on in which a flush finds its host I/O, and by no other step |
| IoTheorems.RobbedForever | nvmefrdma.c:4284-4288 | a robbed slot is not FREE again in any run |
| IoTheorems.OneDrain | nvmefrdma.c:4157-4187 | each queue is armed exactly while its handler is idle |
| IoTheorems.NoStuckWork | nvmefrdma.c:3990-3999 | a queue that holds work is draining, or armed and about to fire |
| IoTheorems.ReceivesConserved | nvmefrdma.c:3913-3925 | every receive is posted, holds an answer, or is in the running handler's hands |
| IoTheorems.ReceiveCredit | nvmefrdma.c:3851-3859 | with a receive for every slot, unanswered commands never exceed the posted receives and the one in the handler's hands |
| IoTheorems.CountersConserved | nvmefrdma.c:4940-4941 | registered pages, fast registers, sends and outstanding I/Os are counted as the slots and threads have them, sends less one for each host I/O that a flush counted down; the fast-register counter is below zero exactly while more threads have yet to count one than are pending |
| IoTheorems.OutstandingExact | nvmefrdma.c:5146-5147 | the outstanding count is the number of host I/Os that are not completed or not yet counted down |
| IoTheorems.WindowSuffices | nvmefrdma.c:4459-4468 | a run in which every id in the table, or about to be entered, comes from the last 65536 tickets has no collision |
| IoTheorems.CollisionExact | nvmefrdma.c:4986-4996 | the next step collides exactly if it is an insert for a slot whose id another unanswered command has; the entry then stays as it is, and the handler goes on |
| IoProgress.RankFalls | nvmefrdma.c:4270-4318 | every step of a thread, handler, flush, NDK or target leaves strictly less to do |
| IoProgress.StuckIsSettled | nvmefrdma.c:5139-5147 | where nothing can move, every admitted I/O was called back once, turned away or kept, exactly the robbed slots are not free, and without a flush all is as at the start |
| IoProgress.Progress | nvmefrdma.c:4914-5169 | however the turns are taken, flush included, there are no more than the rank of them, and at the end everything is settled |
| IoProgress.Finishes | nvmefrdma.c:4914-5169 | with a receive, from every state that uncollided runs reach there is a run to a settled one, or to a collision outside the window |
| IoScan.ScanExact | nvmefrdma.c:2902-2926 | for every command in flight, scan and table agree exactly if no lower slot's last ticket is another one a multiple of 65536 away, and none is unused while the id is 0xFFFF |
| IoScan.ShadowSince | nvmefrdma.c:4875-4890 | after any run, a slot shadows a ticket exactly if it did before and has taken none since, or the last it has taken since is a multiple of 65536 later |
| IoScan.ScanThroughLife | nvmefrdma.c:4866-4895 | over any run from the ticket on, claims and ids interleaved, the scan finds the request exactly if every lower slot that showed the id then has taken a ticket of its own since, and no lower slot's last ticket is a multiple of 65536 later |
| IoScan.PassedDiffers | nvmefrdma.c:4872-4876 | over any run, a slot that a submitter's scan passed when its request had an id less than 65536 tickets old does not show the next id at the end |
| IoScan.ScanAgrees | nvmefrdma.c:2919-2926 | in a run in which nobody takes an id that a lower slot shows, or that a request in progress has, scan and table agree for every command in flight |
| IoScan.FirstFitAgrees | nvmefrdma.c:4866-4895 | so they do in a run in which whoever takes an id has passed only slots whose requests had theirs, these and the ids of requests in progress being less than 65536 tickets old |
| IoWitness.FrCounterBelowZero | nvmefrdma.c:5235-5244 | a run after which the fast-register counter is -1 |
| IoWitness.StaleStatus | nvmefrdma.c:3797-3797 | a run in which a callback gets status 0 while the response said 7 |
| IoWitness.ReusedWhileParked | nvmefrdma.c:5157-5162 | a run in which a slot is claimed again while the handler of its last response has yet to store and swap |
| IoWitness.FreeWhileParked | nvmefrdma.c:5140-5162 | a run in which a slot is FREE at that point |
| IoWitness.Robbery | nvmefrdma.c:4286-4288 | a run in which a flush takes the host I/O of a prepared request |
| CommandIds.RunKept | nvmefrdma.c:4866-4895 | however claims, ids, inserts, responses and releases interleave, requests show the ids of their last tickets, tickets are distinct, and the table holds the commands in flight |
| CommandIds.LookupIsScan | nvmefrdma.c:2902-2926 | the table answers exactly for the ids in flight; for those the scan gives the same request exactly if no lower one shadows it, and for others it finds whoever shows them |
| CommandIds.LowerDiffers | nvmefrdma.c:4866-4895 | with uninterrupted first-fit allocation and every busy request within the window, no lower request shows the id of a busy one |
| CommandIds.UninterruptedAgrees | nvmefrdma.c:2902-2926 | then scan and table agree for every id in flight |
| CommandIds.InterruptedScanFails | nvmefrdma.c:4875-4890 | a run in which a stopped submitter's request is found by its old id |
| CommandIds.OnePasserScanFails | nvmefrdma.c:4875-4890 | the same with a single allocation between the claim and the insert |
| IoRequestLists.IoRequestList.GetCurrentFreeIORequest | nvmefrdma.c:4866-4895 | claims the first idle request and gives it the next id |
| IoRequestLists.IoRequestList.IsIOSlotAvailable | nvmefrdma.c:4897-4912 | true exactly if an allocation would find a request |
| IoRequestLists.IoRequestList.InsertCommand | nvmefrdma.c:4986-4996 | enters the request under its id unless the entry is taken |
| IoRequestLists.IoRequestList.GetRequestByCmdId | nvmefrdma.c:2902-2917 | the lookup through the table, with removal |
| IoRequestLists.IoRequestList.ScanForCmdId | nvmefrdma.c:2919-2926 | the first request that shows the id |
| IoRequestLists.IoRequestList.ReleaseRequest | nvmefrdma.c:5140-5140 | a released request can be allocated again, and both lookups answer as before for every id |
| FlushQueues.IoQueue.FlushIOQueue | nvmefrdma.c:4270-4318 | exactly the initialized requests lose their host I/O, each such I/O with a callback is called once unless the disconnect is for asymmetric access, and both counters fall by the number of such requests |
| FlushQueues.FlushedOnce | nvmefrdma.c:4284-4288 | a second flush finds nothing to take |
| Sgl.PopulateSglFromLam | nvmefrdma.c:753-783 | fills one element for each page and nothing else, and nothing at all without pages or context |
| Sgl.BytesAddress | nvmefrdma.c:769-779 | byte i of the list is at page (offset + i) / 4096, place (offset + i) % 4096 |
| Sgl.CoversIff | nvmefrdma.c:769-779 | the list describes the whole buffer exactly if the pages have room for it |
| Sgl.WithinPage | nvmefrdma.c:775-777 | no element crosses its page |
| NumaQueues.Session.ConnectControllerIOQueues | nvmefrdma.c:4333-4428 | all queues are built, node by node with consecutive ids, or none is left and the count is zero; on one node as many as asked for, on more the greatest multiple of their number that is not above one more, less the multiples of 65536 that a node's share loses |
| NumaQueues.Session.BuildRow | nvmefrdma.c:4383-4421 | one node's queues, up to the first that cannot be created |
| NumaQueues.Session.GetIOQFromQId | nvmefrdma.c:2870-2893 | finds a queue exactly for ids up to the count, and never divides by zero |
| NumaQueues.LookupFindsBuilt | nvmefrdma.c:2883-2890 | the lookup of q finds the queue that was built q-th, with id q and depth q - 1 |
| NumaQueues.LookupFindsId | nvmefrdma.c:2883-2890 | every id finds the queue that has it, exactly if there are fewer than 65536 queues |
| NumaQueues.DifferentPlaces | nvmefrdma.c:2883-2884 | different ids read different places, 16-bit truncation included |
| NumaQueues.Session.GetNextNumaIOQueue | nvmefrdma.c:2933-2953 | the masked ticket is in range for every positive number of queues |
| NumaQueues.Balanced | nvmefrdma.c:2941-2942 | for a power of two, any run of picks loads the queues within one of each other |
| NumaQueues.PickBits | nvmefrdma.c:2941-2942 | the place picked has exactly the bits that the ticket and the mask share, whatever the number of queues |
| NumaQueues.PickedIff | nvmefrdma.c:2941-2942 | some ticket picks a queue exactly if its place has no bit that the mask lacks |
| NumaQueues.FairIff | nvmefrdma.c:2941-2942 | every queue is picked by some ticket exactly if their number is a power of two |
| AdminReceives.AdminQueue.SubmitReceiveRequests | nvmefrdma.c:1320-1352 | posts the buffers up to the first that NDK does not take, and keeps the counters equal to the receives posted |
| AdminReceives.AdminQueue.HandleRcqRcvReq | nvmefrdma.c:257-358 | afterwards a buffer is posted exactly if it was, or is that of this receive, which succeeded and was taken again; both counters go with it |
| AdminReceives.AdminQueue.RcqCallback | nvmefrdma.c:361-431 | handles every result once: a buffer is still posted exactly if it was and all its receives succeeded and were taken again; keeps submitted - completed = outstanding = receives with NDK, and arms the queue exactly if one is left |
| AdminReceives.BuffersConserved | nvmefrdma.c:388-421 | no buffer is lost or doubled over any sequence of results |
| AdminReceives.PostedIff | nvmefrdma.c:333-356 | over any results a buffer stays posted exactly if each receive of it succeeded and was taken again; no other is ever posted again |
| AdminReceives.RetiredIff | nvmefrdma.c:333-356 | a buffer is retired exactly if a receive of it was cancelled, failed or could not be posted again |
| QueuePairs.Socket.CreateRdmaQPair | fab_rdma.c:792-915 | on every failing exit the live NDK objects and parameter buffers are as on entry, and the bundle keeps only null handles and those of closed objects, exit by exit; on success three new objects belong to the bundle |
| QueuePairs.Socket.CreateCompletionQueues | fab_rdma.c:824-884 | the same for the two completion queues and their interrupt moderation, with the handles each failure leaves |
| QueuePairs.Socket.ConnectRdmaQPair | fab_rdma.c:1156-1253 | succeeds exactly if every call does, and then counts one reference; a failure leaves the live objects as on entry if it is at the connector or the connect, and one connector open in the uncounted bundle otherwise |
| QueuePairs.Socket.DisconnectSyncAsyncRdmaSocketQP | fab_rdma.c:1121-1144 | on any bundle: closes its handles, the queue pair before its completion queues; misuses none exactly if all are open; the count stays that of the connected pairs exactly if the bundle was connected or the count was zero, and only then, with the count at zero, is the socket Disconnected |
| QueuePairs.LeftOpen | fab_rdma.c:1197-1204 | a socket with one connected pair and one whose connect failed late: all four objects of that are open, and the count is 1 |
| QueuePairs.StolenReference | fab_rdma.c:1135-1140 | its disconnect brings the count to zero while the other pair is connected |
| LogSplitter.EventLog.LogSystemEvent | utils.c:20-58 | reserves its numbers at once and writes the packets with those numbers |
| LogSplitter.EventLog.AsciiToWChar | utils.c:9-17 | copies characters up to the number asked for or the end of the message |
| LogSplitter.Suffices | utils.c:28-29 | the packets reserved are enough for the message |
| LogSplitter.FewLeftOver | utils.c:28-29 | and no more than two more than it needs |
| LogSplitter.PacketsFull | utils.c:34-46 | each packet's text and end mark fit the greatest size, and each packet before one with text is full |
| LogSplitter.SaysPrefix | utils.c:31-53 | whatever cannot be allocated, the packets say a prefix of the message, and all of it if enough were |
| LogSplitter.WholeMessage | utils.c:28-53 | if all can be allocated the packets joined are the message, unless the numbers wrap, when nothing is written |
| LogSplitter.OwnNumbers | utils.c:29-31 | packets bear increasing numbers among those reserved |
| LogSplitter.NumbersAllocated | utils.c:31-43 | a number is borne by a packet exactly if it is one of those reserved and its packet could be allocated |
| LogSplitter.NeverShared | utils.c:29-31 | as long as the numbers do not wrap, packets of different messages bear different numbers |

## Left out

- IoProgress.Finishes: may end in a collision, because waiting submitters take new tickets on the way; if the run stays within the window it ends settled.
- IoStories.DroppedExactly: a host I/O that a flush calls back gets the flush's status, which is not modelled.
- NumaQueues.Balanced: the 64-bit ticket is unbounded in the model; it wraps at a multiple of every power of two.
- LogSplitter.EventLog.LogSystemEvent: the greatest packet size and the offset of its text are parameters; the system headers that define them are not part of this model.
- The handlers of the I/O queue are steps of a state machine rather than methods, since what matters is how their single operations interleave; the queue's own Connect command, which takes the first id and an entry of the table for a while (nvmefrdma.c:4636-4767), and its synchronous wait.
- Failing fast registers, sends, invalidates and I/O receives, whose branches end in assertions or count a receive down twice (nvmefrdma.c:3860-3863); cancelled I/O receives; the wrong counter at nvmefrdma.c:3595.
- Page maps that are built asynchronously, memory descriptors, buffers' contents, cache flushes, spin locks, interrupt levels and DMA.
- The per-queue copies of the outstanding counter, the issue and error statistics.
- Admin command ids, whose mask drops bit 0 (nvmefrdma.c:2552-2556), and the rest of the admin queue.
- Translation of NVMe status codes (nvmeof_cmd.c), discovery, identify and keep-alive commands.
- The TCP transport and socket wrappers (nvmeftcp.c, fab_tcp.c, winsockinit.c), the storage port stubs (Sp.c), tracing and hex printing.
- Interface lookup by source address (utils.c:193-204), whose loop counter does not advance.
- Allocation and teardown of queue resources, and NDK adapters, listeners and protection domains.
