# uVisor messaging, verified in Dafny

uVisor splits a microcontroller application into boxes. Boxes talk to each other by
RPC and IPC, through queues that live in box memory and that uVisor drains. This
project models that messaging library and the code under it, and proves what it
promises over whole runs.

| file | what it models |
|---|---|
| `Bits.dfy` | bitwise operators on natural numbers |
| `Cookie.dfy` | RPC cookies: a wrapping counter and a slot in one word |
| `PoolSpec.dfy` | what a pool with queues means: a free list and FIFO queues |
| `PoolQueue.dfy` | the byte-indexed management array that implements it, as a class |
| `RpcProtocol.dfy` | RPC as a step machine: callers, callees, uVisor's two drains |
| `RpcInvariant.dfy` | the invariant of that machine, kept by every action |
| `RpcTheorems.dfy` | what follows for whole runs |
| `RpcRecords.dfy` | what one action of that machine records |
| `RpcTrace.dfy` | what a call that returned owes to the actions of its run |
| `RpcHandlers.dfy` | exactly when a handler runs the message it found, and a discipline that makes it |
| `RpcCalls.dfy` | careful runs put together from calls of one box to another |
| `RpcGateways.dfy` | exactly when a system runs into the assertion on bad gateways |
| `RpcMixup.dfy` | a run of 2^21 calls that mixes up two cookies |
| `RpcRefill.dfy` | a run in which a handler executes a message that it never looked at |
| `DrainSpec.dfy` | the loop that both of uVisor's message drains have: when it ends and what it leaves |
| `RpcDrain.dfy` | a whole call of `drain_message_queue`, exactly when it ends |
| `RpcResults.dfy` | a whole call of `drain_result_queue` |
| `RpcDrainStuck.dfy` | a run of four boxes after which that drain never ends |
| `Spinlock.dfy` | the lock around pool operations |
| `IpcTokens.dfy` | the two token words of a box, as a class |
| `IpcProtocol.dfy` | IPC as a step machine: requests, waits and uVisor's drain |
| `IpcTrace.dfy` | what a delivered receive owes to the calls of its run |
| `IpcStarvation.dfy` | tokens that never come back, and exactly when a box is starved for good |
| `IpcDrain.dfy` | a whole call of `ipc_drain_queue`, exactly when it ends |
| `IpcDrainStuck.dfy` | a run of one box after which that drain never ends |
| `FnGroups.dfy` | function groups and `rpc_fncall_waitfor` on the array pool |
| `DisabledSpec.dfy` | context switching without uVisor: the meaning of nested calls and interrupts |
| `DisabledVectors.dfy` | which registration serves an interrupt, and exactly when it is the wrong one |
| `DisabledTrace.dfy` | in which box and with which vector an interrupt is served, in terms of what is observed |
| `Disabled.dfy` | the call stack, vector table and contexts that implement them, as a class |
| `Regions.dfy` | MPU region rounding, box reservations, address alignment |
| `Circular.dfy` | the circular buffer loops of the vendored DSP header |

Check everything with `dafny verify dfyconfig.toml`.

## What the code does not promise

Some properties one would expect do not hold of the code. For each, the model keeps the
code as it is and proves when the property does hold.

- A message can be dispatched twice. `handle_incoming_rpc` finds and dequeues in two
  steps, and the dequeue looks only at the slot's overlay byte, so a slot that another
  handler has meanwhile put on the done queue passes for queued
  (`RpcHandlers.TwoHandlersCanDispatchTwice`, reached in `RpcHandlers.OneCallPending`).
  It then runs the target again, or the array is corrupted
  (`RpcHandlers.DisorderlyRunsTwice`).
- A handler can execute a message that it never looked at. Between its finding a slot and
  its dequeuing it, another handler answers the message and the slot takes the next one,
  whose target need not be in the handler's function group (`RpcRefill.RefillHappens`). A
  handler that goes on executes a target of its group exactly when the message in the slot
  by then has one (`RpcHandlers.GroupExactly`). It executes the send that it found, for the
  first time and with the pool intact, exactly when the slot is neither on the done queue
  nor refilled at the moment of the dequeue (`RpcHandlers.DequeueExactly`). Letting one
  thread of a box search at a time rules out both failures
  (`RpcHandlers.DisciplinedRunsReach`, `RpcHandlers.HandlerTakesEarliest`).
- `drain_message_queue` need not end. It remembers the first slot that it took and stops
  when that slot comes round again, but the slot never does when its message was delivered
  or dropped. The drain ends exactly when the queue is empty, when its first message finds
  no room at its callee, or when every callee has room for all messages that are for it
  (`RpcDrain.DrainEndsExactly`); a run of four boxes reaches a state from which it does not
  (`RpcDrainStuck.NeverEndsHappens`).
- `ipc_drain_queue` forgets the first slot when it delivers its message, but not when it
  drops one for a box that does not exist. It ends exactly when every message leaves the
  queue, or when all those before the first that stays are for boxes that exist
  (`IpcDrain.DrainEndsExactly`, `IpcDrainStuck.NeverEndsHappens`).
- A drain that ends changes the order of the messages that stay: it puts the first of them
  at the back (`RpcDrain.DrainLeaves`, `IpcDrain.DrainLeaves`).
- In the array, dequeuing a slot through the wrong queue leaves no consistent pool
  behind unless the queue named is empty, or has two or more slots while the slot is
  in the interior of the other queue (`PoolQueue.DequeueExactly`). Freeing a queued slot
  and enqueuing one that is not held do the same (`PoolQueue.FreeExactly`,
  `PoolQueue.EnqueueExactly`).
- `find_first` releases the pool's spinlock when it matches and its caller releases it
  again. Mutual exclusion holds in all runs exactly when no find can match or there is
  one thread (`Spinlock.ExclusiveExactly`). The protocol models take pool operations as
  atomic, which is what holds when no thread takes the lock between the two releases
  (`Spinlock.WindowFreeExclusive`).
- A call through a bad gateway makes `drain_message_queue` fail an assertion, which halts
  a build with assertions. No run fails one exactly when every gateway in use is good
  (`RpcGateways.GatewaysExactly`).
- A cookie is mistaken for a later one exactly when its slot was refilled a multiple of
  2^21 sends later (`RpcInvariant.MixupExactly`). The wait then returns another call's
  result (`RpcTheorems.SwapExactly`), and runs get there (`RpcMixup.MixupHappens`).
- A timed-out `rpc_fncall_wait` loses its slot for good
  (`RpcTheorems.TimedOutSlotStaysTaken`).
- An IPC request refused for want of a slot loses its token for good, and so does a send
  to a box that does not exist (`IpcStarvation.GoneForever`). There are never more than 16
  refused requests in a box (`IpcStarvation.AtMostSixteenRefused`), but together with lost
  sends they can use up all 32 tokens (`IpcStarvation.StarvationReached`), and then the box
  can make no request ever again (`IpcStarvation.LeakedOut`; `IpcStarvation.StarvedExactly`
  says exactly when).
- `uvisor_pool_queue_init` reports success even when the pool was refused, although its
  header documents a non-zero result, and an empty pool is written before its first entry
  (`PoolQueue.Pool.QueueInit`).
- With uVisor disabled, an interrupt between setting the context and pushing the box
  leaves the callee or handler in the interrupted box's context. So does one between the two
  stores of the push if the compiler stores the box first; if it advances the stack pointer
  first, the context is that of the box which an earlier call left in the new entry
  (`DisabledSpec.WindowExactly`, `DisabledSpec.RightExactly`). An interrupt between the two
  stores of a registration runs the old vector in the new box's context, and a registration
  between the two reads of a dispatch runs the new vector in the old box's
  (`DisabledVectors.TornStoreExactly`, `DisabledVectors.TornReadExactly`).
- `UVISOR_REGION_ROUND_DOWN` on Armv7-M gives 0 for every size that is not a region
  size already (`Regions.RoundDownExactly`).

## Model

| member | source | states |
|---|---|---|
| Cookies.MasksAreDivisions | api/inc/rpc_exports.h:27-53 | the slot, counter and build functions used everywhere are the mask expressions of the source |
| Cookies.BuildRoundTrip | api/inc/rpc_exports.h:40-53 | slot and counter come back from a built cookie |
| Cookies.PackedFaithful | api/inc/rpc_exports.h:40-53 | two cookie words are equal exactly when counter field and slot are |
| Cookies.CounterAfterIs | api/src/rpc.c:86-87 | after n sends the wrapping counter is the increment times n modulo 2^21 |
| Cookies.StampedCookie | api/src/rpc.c:86-97 | the cookie that the n-th send builds |
| Cookies.CookieCollision | api/inc/rpc_exports.h:32-53 | two sends get the same cookie if and only if they use the same slot a multiple of 2^21 sends apart |
| Cookies.CookiesInWindowDistinct | api/inc/rpc_exports.h:32-53 | cookies of any 2^21 consecutive sends are pairwise distinct |
| Cookies.CookieNeverInvalid | api/src/rpc.c:164-183 | no cookie of a send is an invalid cookie or the 0xFFFFFFFF of a failed asynchronous call |
| PoolSpec.WithoutAt | api/inc/pool_queue_exports.h:128-135 | removing a slot in the middle keeps the others in order |
| PoolSpec.WithoutMembers | api/inc/pool_queue_exports.h:128-135 | removing a slot removes that slot only |
| PoolSpec.AllocateKeeps | api/inc/pool_queue_exports.h:108-112 | allocation moves one slot from the free list into the caller's hands |
| PoolSpec.EnqueueKeeps | api/inc/pool_queue_exports.h:117-118 | enqueuing a held slot keeps every slot in one place |
| PoolSpec.DequeueKeeps | api/inc/pool_queue_exports.h:128-135 | a dequeued slot is held, and nothing else moved |
| PoolSpec.FreeKeeps | api/inc/pool_queue_exports.h:121-125 | freeing a held slot keeps every slot in one place |
| PoolQueue.OverlayTellsApart | api/inc/pool_queue_exports.h:30-54 | the overlay byte alone says whether a slot is free, held or queued, for every slot |
| PoolQueue.AllocateRep | core/system/src/pool_queue.c:67-88 | the array writes of allocation refine taking the first of the free list |
| PoolQueue.FreeRep | core/system/src/pool_queue.c:166-176 | the array writes of free refine putting the slot on the free list |
| PoolQueue.EnqueueLinked | core/system/src/pool_queue.c:91-112 | the link writes of enqueue append to the doubly linked list and touch nothing else |
| PoolQueue.EnqueueRep | core/system/src/pool_queue.c:91-112 | enqueue refines appending to one queue |
| PoolQueue.DequeueLinked | core/system/src/pool_queue.c:178-203 | each of the four branches of dequeue unlinks its position and keeps the order of the rest |
| PoolQueue.DequeueRep | core/system/src/pool_queue.c:178-203 | dequeue refines removing the slot from its queue |
| PoolQueue.DequeueOtherRep | core/system/src/pool_queue.c:194-199 | a slot in the interior of the other queue is taken off that other queue |
| PoolQueue.WrongQueueBreaks | core/system/src/pool_queue.c:183-185 | emptying a one-slot queue on behalf of a slot of the other queue leaves memory that represents no pool |
| PoolQueue.DequeueExactly | core/system/src/pool_queue.c:178-203 | for a queued slot, dequeue stays in the array and leaves a pool if and only if the call is safe |
| PoolQueue.FreeExactly | core/system/src/pool_queue.c:205-225 | freeing an allocated slot leaves a pool if and only if the slot is on no queue |
| PoolQueue.EnqueueExactly | core/system/src/pool_queue.c:138-147 | enqueuing leaves a pool if and only if the slot is held |
| PoolQueue.FreshRep | core/system/src/pool_queue.c:41-45 | the initial array is a free list of all slots in order |
| PoolQueue.NotAllFree | core/system/src/pool_queue.c:175 | counting down allocated slots never goes below zero |
| PoolQueue.Pool.Init | core/system/src/pool_queue.c:22-50 | -1 and nothing touched for 252 or more slots, otherwise the fresh array; the write before the array happens exactly for 0 slots |
| PoolQueue.Pool.QueueInit | core/system/src/pool_queue.c:52-64 | always reports success; resets the named queue, and the pool if its size is accepted |
| PoolQueue.Pool.InitBoth | api/rtx/src/box_init.c:70-86 | the double initialisation of the incoming pool leaves all slots free and both queues empty |
| PoolQueue.Pool.Allocate | core/system/src/pool_queue.c:67-88 | the first free slot becomes held, or INVALID exactly when none is free; the allocation count stays right |
| PoolQueue.Pool.Enqueue | core/system/src/pool_queue.c:138-147 | for every slot: INVALID is ignored, a held slot is appended, a slot outside the pool is written outside the array, any other breaks the pool |
| PoolQueue.Pool.Link | core/system/src/pool_queue.c:91-112 | the link writes on the array in place |
| PoolQueue.Pool.Free | core/system/src/pool_queue.c:205-225 | for every slot: a held one is freed, a free one and an out-of-range one are reported, a queued one breaks the pool |
| PoolQueue.Pool.Unlink | core/system/src/pool_queue.c:178-203 | the four branches on the array in place |
| PoolQueue.Pool.Dequeue | core/system/src/pool_queue.c:285-311 | result and new view for every slot when the call is safe; otherwise it leaves the array or breaks the pool |
| PoolQueue.Pool.DequeueFirst | core/system/src/pool_queue.c:313-338 | the head is taken, or INVALID exactly when the queue is empty |
| PoolQueue.Pool.FindFirst | core/system/src/pool_queue.c:356-382 | the walk along the links gives the earliest match in queue order, or INVALID when none matches |
| Spinlock.WindowFreeExclusive | core/system/src/pool_queue.c:401-412 | runs in which nobody locks between the two releases of a matching find are mutually exclusive |
| Spinlock.OverlapHappens | core/system/src/pool_queue.c:372-375 | five steps that put two threads inside pool operations |
| Spinlock.ExclusiveExactly | core/system/src/spinlock.c:25-39 | all runs are mutually exclusive if and only if no find ever matches or there is one thread |
| RpcInvariant.InitInv | api/rtx/src/box_init.c:50-86 | the state after queue initialisation satisfies the invariant |
| RpcInvariant.ClaimInv | api/src/rpc.c:78-84 | claiming a slot keeps the invariant |
| RpcInvariant.FillInv | api/src/rpc.c:86-98 | stamping and populating a message keeps it |
| RpcInvariant.PostInv | api/src/rpc.c:100-101 | queuing a message keeps it |
| RpcInvariant.MixupExactly | api/src/rpc.c:179-193 | a wait takes its cookie for a later one if and only if the slot was refilled a multiple of 2^21 sends later and not waited on |
| RpcInvariant.SwapInv | api/src/rpc.c:185-193 | the compare-and-swap keeps the invariant unless cookies are mixed up |
| RpcInvariant.WakeInv | api/src/rpc.c:112-115 | waking on the semaphore hands the finished slot to the waiter |
| RpcInvariant.TimeoutInv | api/src/rpc.c:195-199 | a timed-out wait keeps the invariant and leaves the slot abandoned |
| RpcInvariant.ReleaseInv | api/src/rpc.c:117-126 | reading the result and freeing the slot keeps the invariant and does not halt |
| RpcInvariant.DeliverInv | core/system/src/rpc.c:194-346 | delivering the head of the outgoing queue to the callee keeps the invariant |
| RpcInvariant.PutBackInv | core/system/src/rpc.c:89-107 | putting a message back keeps it |
| RpcInvariant.DropBadInv | core/system/src/rpc.c:243-262 | the assertion failure on a bad gateway, and the dropped message without assertions, keep the invariant |
| RpcInvariant.GiveBackInv | core/system/src/rpc.c:348-470 | returning a result keeps the invariant and fails no assertion |
| RpcInvariant.TakeFoundInv | api/src/rpc.c:292-312 | dequeuing what was found keeps the invariant unless it is already answered |
| RpcInvariant.DispatchInv | api/src/rpc.c:321-325 | running the target keeps the invariant and stores what it returned |
| RpcInvariant.ReportInv | api/src/rpc.c:327-330 | queuing the result keeps the invariant |
| RpcTheorems.ActionInv | api/src/rpc.c:71-331 | every action of library and uVisor keeps the invariant, and abandoned slots stay abandoned |
| RpcTheorems.RunInv | api/src/rpc.c:71-331 | so does every interleaving of any length |
| RpcTheorems.CallsReturnTheirOwnResult | api/src/rpc.c:128-208 | every returned call gives the value recorded for the one execution of its own send, in the right box, by the right target, on its own arguments; no send is answered twice |
| RpcTrace.CallsReturnWhatTheirTargetComputed | api/src/rpc.c:71-331 | in every careful run each returned call goes back to its actions: one call claimed the slot with the arguments and gateway of the send, exactly one dispatch ran it, in the callee's box, on those arguments, and what the target returned there is what the call returned, to the synchronous caller itself or to a wait with the cookie that the asynchronous call got |
| RpcTheorems.PendingSendsRunOnce | api/src/rpc.c:179-208 | a send still under way was claimed by at most one wait and executed at most once |
| RpcTheorems.NoFault | api/src/rpc.c:117-126 | the halt in free_outgoing_msg, the assertions of drain_result_queue and the gateway check of the handler are not reached and no pool is corrupted; only the assertion on bad gateways can fail |
| RpcGateways.GatewaysExactly | core/system/src/rpc.c:243-262 | no careful run of a system fails an assertion, halts or corrupts a pool if and only if all gateways in use have one of the two known magics, lie in flash and lead to a box other than box 0 that exists |
| RpcGateways.HeadExactly | core/system/src/rpc.c:109-323 | the first message is dropped if and only if its gateway is not such a one; otherwise it is delivered if and only if the callee has a free slot, as the last message of the callee's queue, with its arguments, gateway and cookie and the caller's box id |
| RpcGateways.GoodGatewayDelivers | core/system/src/rpc.c:109-145 | one call through any good gateway, synchronous or asynchronous, is delivered without a fault |
| RpcGateways.BadGatewayFails | core/system/src/rpc.c:246-253 | one call through a bad gateway fails the assertion |
| RpcTheorems.WakingMeansDone | api/src/rpc.c:147-156 | a woken waiter finds its slot dequeued and its result set; a free slot's semaphore is zero |
| RpcTheorems.OutgoingSlotInOnePlace | api/inc/rpc_exports.h:112-127 | each outgoing slot is in exactly one place, with at most one owner and one carrier |
| RpcTheorems.IncomingSlotInOnePlace | api/inc/rpc_exports.h:121-128 | each incoming slot is free, to do, done, or with exactly one handler |
| RpcTheorems.TimedOutSlotStaysTaken | api/src/rpc.c:187-199 | after a timed-out wait the slot is taken and cannot be waited on in every later state |
| RpcHandlers.DequeueExactly | api/src/rpc.c:292-325 | a handler whose slot is on no queue any more returns and changes nothing; a handler leaves the pool intact and executes no send a second time if and only if the slot is not on the done queue; a handler that goes on executes the send it found, for the first time, if and only if besides the slot was not refilled with another send |
| RpcHandlers.FindExactly | api/src/rpc.c:257-290 | a search succeeds if and only if a waiting message has a target of the group, and then finds the earliest in queue order |
| RpcHandlers.GroupExactly | api/src/rpc.c:286-325 | the target that a handler executes is in its function group if and only if that of the message in the slot by then is, as it is when the slot was not refilled |
| RpcHandlers.DisorderlyRunsTwice | api/src/rpc.c:292-325 | with the slot on the done queue, the send in it is executed a second time, or the array represents no pool |
| RpcRefill.RefillHappens | api/src/rpc.c:292-325 | a careful run reaches a state in which a handler's next steps execute a target outside its function group, with no fault recorded |
| RpcDrain.DrainEndsExactly | core/system/src/rpc.c:200-346 | a drain of messages ends if and only if the queue is empty, or its first message is for a callee without room, or every callee has room for all messages that are for it |
| RpcDrain.DrainLeaves | core/system/src/rpc.c:212-234 | a drain that ends leaves the messages whose callee had no room for them in their order, but for the first, which is put at the back, and keeps the invariant |
| RpcResults.DrainReturnsAll | core/system/src/rpc.c:348-470 | a drain of results takes one turn for each and leaves the queue empty, every slot that was on it free, and every caller's message completed with its result and its semaphore posted |
| RpcDrainStuck.NeverEndsHappens | core/system/src/rpc.c:200-234 | a careful run of four boxes reaches a state from which a drain with no lock taken never ends |
| RpcTheorems.SwapExactly | api/src/rpc.c:183-207 | a wait on a slot whose result has arrived fails without a trace if its cookie was used up, and otherwise returns what the slot's latest send computed; that is another send than it asked for if and only if the slot was refilled a positive multiple of 2^21 sends later and the refill is still open |
| RpcMixup.MixupHappens | api/src/rpc.c:86-97 | after 2^21 calls a reachable state has an issued cookie that belongs to another, answered send |
| RpcHandlers.DisciplinedRunsAreCareful | api/src/rpc.c:286-301 | one searcher per box and timely waits rule out both harmful steps in every run |
| RpcHandlers.DisciplinedRunsReach | api/src/rpc.c:278-331 | so whole systems that keep the discipline have all the properties above |
| RpcHandlers.HandlerTakesEarliest | api/src/rpc.c:257-301 | with nobody else searching, a handler serves, for the first time, the send that it found, which is the earliest message in queue order whose target is in its group |
| RpcHandlers.TwoHandlersCanDispatchTwice | api/src/rpc.c:286-301 | from any state with one waiting message, two handlers can both execute it |
| RpcHandlers.OneCallPending | api/src/rpc.c:286-301 | such a state is reachable with two boxes and one call |
| IpcTokens.TokensOps | api/src/ipc.c:98-107 | the word operations are the set operations on tokens |
| IpcTokens.AllocateIs | api/src/ipc.c:67-92 | allocation fails exactly when all 32 tokens are taken and adds one token otherwise |
| IpcTokens.MetIs | api/src/ipc.c:140-150 | any and all as conditions on sets; a met all means the result is the mask |
| IpcTokens.TokenWords.Allocate | api/src/ipc.c:67-92 | the shift loop ends with the lowest clear bit, or 0 with the word unchanged exactly when full |
| IpcTokens.TokenWords.Free | api/src/ipc.c:98-107 | exactly the given tokens leave both words |
| IpcTokens.TokenWords.WaitFor | api/src/ipc.c:109-159 | returns at the first poll that meets the condition and clears exactly the reported tokens; a failed poll changes nothing; times out only with timeout 0 |
| IpcProtocol.StepInv | api/src/ipc.c:161-197 | every step of requests, waits and drain keeps the IPC invariant |
| IpcProtocol.RunInv | api/src/ipc.c:109-197 | so does every interleaving of any length |
| IpcProtocol.DeliverInv | core/system/src/ipc.c:112-161 | completing a matched pair keeps it |
| IpcProtocol.DeliverableExactly | core/system/src/ipc.c:41-92 | a send at the head is dropped if and only if its destination does not exist, and delivered if and only if a queued receive of the destination accepts its origin, port and length, then to the first of them |
| IpcProtocol.ContendInv | core/system/src/ipc.c:320-325 | a delivery that finds a token lock taken puts send and receive at the back of their queues and keeps the invariant |
| IpcTrace.ReceivesWhatWasSent | core/system/src/ipc.c:112-161 | in every run a receive that was delivered to holds the bytes that one call of ipc_send was given, over the buffer that its own call was given, and that call's box, port and length |
| IpcProtocol.DeliverFits | core/system/src/ipc.c:66-74 | the copy never runs past the receiver's buffer |
| IpcProtocol.TokensNotShared | api/src/ipc.c:67-92 | no two requests of a box that were not yet reported hold the same token |
| IpcProtocol.CompletedWithinAllocated | api/src/ipc.c:103-107 | completed tokens are allocated tokens |
| IpcProtocol.WaitSucceedsExactly | api/src/ipc.c:109-150 | a wait for any succeeds if and only if a request under its mask is completed and not yet reported, a wait for all if and only if every token of its mask is that of one |
| IpcProtocol.WaitReportsExactly | api/src/ipc.c:109-138 | a successful wait reports exactly the completions under its mask, each for the only time |
| IpcProtocol.DeliveredExactly | core/system/src/ipc.c:41-161 | a completed send and receive matched, and the receive holds the sender's bytes, length and box |
| IpcProtocol.DeliveredToOne | core/system/src/ipc.c:112-161 | no request is paired twice |
| IpcProtocol.TokenCount | api/src/ipc.c:161-197 | the set bits number the outstanding requests plus the refused ones plus those about to claim a slot |
| IpcStarvation.GoneForever | api/src/ipc.c:174-181 | the token of a refused or lost request stays allocated in every later state |
| IpcStarvation.AtMostSixteenRefused | api/src/ipc.c:168-181 | no box ever has more than 16 refused requests |
| IpcStarvation.FullIs | api/src/ipc.c:67-92 | no token is left exactly when 32 requests hold one |
| IpcStarvation.FullMeansNoRequest | api/src/ipc.c:168-172 | no token is left exactly when no request can be made |
| IpcStarvation.StarvedExactly | api/src/ipc.c:161-197 | with no call under way and room in the other boxes, a box can make no request ever again if and only if its 32 tokens are held by requests that nobody can complete |
| IpcStarvation.LeakedOut | core/system/src/ipc.c:260-265 | 32 refused and lost requests starve a box for good, whatever the others do |
| IpcStarvation.StarvationReached | core/system/src/ipc.c:260-265 | a run of one box reaches that with 16 lost sends and 16 refused ones |
| IpcStarvation.StarvedWithoutLoss | core/system/src/ipc.c:55-64 | a run of one box starves it with nothing lost, by receives from a box that does not exist |
| IpcDrain.DrainEndsExactly | core/system/src/ipc.c:222-352 | a drain of sends ends if and only if every message leaves the queue, or all messages before the first that stays are for boxes that exist; a message stays when the sends before it take all receives that match it or a lock is taken |
| IpcDrain.DrainLeaves | core/system/src/ipc.c:234-251 | a drain that ends leaves the messages that stay in their order, but for the first, which is put at the back, and keeps the invariant |
| IpcDrainStuck.NeverEndsHappens | core/system/src/ipc.c:260-265 | a run of one box reaches a state from which a drain with no lock taken never ends |
| FnGroups.Earliest | api/src/rpc.c:257-275 | the earliest queued message whose target is in the group |
| FnGroups.Callee.Find | api/src/rpc.c:234-249 | lookup succeeds exactly for arrays that were registered |
| FnGroups.Callee.Register | api/src/rpc.c:210-230 | a new group takes a free slot; fails exactly when every slot is taken |
| FnGroups.Callee.GroupFor | api/src/rpc.c:338-351 | each array has at most one group, and a new one only on first use |
| FnGroups.Callee.Handle | api/src/rpc.c:278-331 | dispatches the earliest match once and moves it to the done queue, or dispatches nothing, and reports the caller's box id |
| FnGroups.Callee.WaitFor | api/src/rpc.c:333-379 | a new group runs the earliest match that was queued before, if its magic is known, and returns 0 whatever waiting would give; otherwise it waits, returns the status of a failed wait, and after a good one runs the earliest match in the queue with the arrivals and returns 0 if and only if its magic is known, and -1 if not or if there is none; pool, caller's box id and dispatched slots are given for every case; it runs out of structures exactly for a new array with all slots taken |
| Regions.RegionBitsExactly | api/inc/vmpu_exports.h:232-241 | the chain of 27 comparisons is the ceiling of the binary logarithm, at least 5 |
| Regions.BitsAgree | api/inc/vmpu_exports.h:244-247 | above 32 the chain is the bit length of x - 1 |
| Regions.RoundUpLeast | api/inc/vmpu_exports.h:115-122 | rounding up gives the least region size that covers x |
| Regions.RoundUpMonotone | api/inc/vmpu_exports.h:115-122 | rounding up is monotone |
| Regions.RoundDownExactly | api/inc/vmpu_exports.h:116 | rounding down keeps region sizes and sends all other sizes to 0 |
| Regions.ContextFits | api/inc/box_config.h:82-98 | a box reserves at least its rounded context, and six eighths of the reservation cover stack, context and structures together |
| Regions.ReservedLeast | api/inc/box_config.h:82-98 | the reservation is the least region size for eight sixths of stack, context and structures, on Armv8-M with two bands of 128 bytes on top |
| Regions.SizeValidIs | api/rtx/src/unsupported_page_allocator.c:79-82 | valid sizes are the multiples of 32 |
| Regions.RoundUpRegionIs | api/rtx/src/unsupported_page_allocator.c:83-98 | 0 for invalid or zero sizes and on overflow, otherwise a 32-aligned address in the first size bytes |
| Regions.LeastAligned | api/rtx/src/unsupported_page_allocator.c:83-98 | for powers of two the least multiple not below the address |
| Disabled.ContextsDisjoint | api/src/disabled.c:96-122 | contexts are as large as asked, disjoint and inside the carved area |
| Disabled.ContextsWithinReserved | api/inc/box_config.h:82-98 | all contexts together fit in what the box macros reserved, for each rounding scheme |
| Disabled.System.Init | api/src/disabled.c:86-126 | every box gets its context, exactly the carved area is zeroed, runs once, and fails exactly if box 0 asks for a context |
| Disabled.System.SetContext | api/src/disabled.c:128-140 | the context of the destination box becomes current |
| Disabled.System.HalfPush | api/src/disabled.c:142-146 | halts exactly at the depth limit; otherwise the first of the two stores of the push, in either order |
| Disabled.System.PushRest | api/src/disabled.c:146 | with the second store the box is on top of the stack, in either order |
| Disabled.System.SwitchOut | api/src/disabled.c:149-161 | the context of the box below becomes current |
| Disabled.System.RunRegister | api/src/disabled.c:197-235 | the range check and both stores, with whatever interrupts them, compute the meaning of a registration: the box on top of the stack, or box 0 for vector 0, and the vector |
| Disabled.System.RunThenGet | api/src/disabled.c:237-247 | after a clean run the vector read back is that of the latest registration of the number, or the one from before if there is none |
| Disabled.System.Run | api/src/disabled.c:128-235 | the call stack and vector table compute the meaning of every tree of nested calls, interrupts and registrations, also with interrupts in the windows of a switch and between the two stores of a push, in either order |
| Disabled.System.RunSteady | api/src/disabled.c:128-195 | the current context is the one of the stack top before and after, and every box runs in its own |
| DisabledSpec.SteadyRunsRight | api/src/disabled.c:163-195 | in every tree without interrupts in the windows of a switch, each handler runs in its box's context and the interrupted box gets its own back |
| DisabledSpec.RightExactly | api/src/disabled.c:128-195 | in every run, all boxes run in and return to their own contexts if and only if each window passed, also the one inside the push, leaves the context as it should be |
| DisabledSpec.WindowExactly | api/src/disabled.c:140-146 | a callee or handler starts in its own context if and only if no interrupt fell between setting the context and the end of the push, or the context left by the last one is the same: the interrupted box's, or that of the stale stack entry when the pointer is stored first |
| DisabledSpec.HandlerWindowExactly | api/src/disabled.c:163-194 | an interrupt as a whole reads its box and vector and then enters the box; its handler starts in its own context under the same condition |
| DisabledVectors.LatestRegistrationServes | api/src/disabled.c:181-194 | unless a registration or dispatch is interrupted by its own number, every interrupt is served by the entry that the registrations observed before it leave |
| DisabledTrace.HandledAsRegistered | api/src/disabled.c:181-194 | in such a run an interrupt runs the vector of the latest registration of its number in the box that made it, and never vector 0 |
| DisabledTrace.TableAsRegistered | api/src/disabled.c:231-235 | after such a run an entry holds the box and the vector of the latest registration of its number, or zeros if that was a de-registration |
| DisabledTrace.HandlersRunWhereRegistered | api/src/disabled.c:163-235 | with nothing in the windows either, that box is the one that was running when it registered, and the next observation is that it is entered with its own context |
| DisabledVectors.TornStoreExactly | api/src/disabled.c:233-234 | with an interrupted registration that holds if and only if the number did not fire between the stores or the box did not change; with no vector before, it halts |
| DisabledVectors.TornStoreExample | api/src/disabled.c:233-234 | the shortest tree in which one box's vector runs in another's context |
| DisabledVectors.TornReadExactly | api/src/disabled.c:182-186 | with a registration between the reads of a dispatch it holds if and only if the registered box is the same before and after |
| DisabledSpec.ShallowNeverOverflows | api/src/disabled.c:143-145 | trees that fit the stack never hit the depth limit |
| DisabledSpec.CallsFitExactly | api/src/disabled.c:143-161 | nested calls complete if and only if they fit the stack |
| Circular.Write | core/cmsis/inc/arm_math.h:5916-5954 | for all strides that stay inside the arrays: the samples end up in the cells of the running offset, which is stored modulo 2^16 |
| Circular.Read | core/cmsis/inc/arm_math.h:5960-6010 | likewise, with a destination that wraps around on meeting its end |
| Circular.ScatterIs | core/cmsis/inc/arm_math.h:5935-5950 | a cell keeps the last sample stored there and other cells are untouched |
| Circular.ReadBackExactly | core/cmsis/inc/arm_math.h:5935-6006 | every block is read back as written if and only if no cell is used twice |
| Circular.StrideOffset | core/cmsis/inc/arm_math.h:5938-5946 | the source advances by its stride; the offset advances by its own and is wrapped around for strides up to the length, and only falls for strides below 0 |
| Circular.StrideSpot | core/cmsis/inc/arm_math.h:5986-5993 | a destination of m strides is filled over and over in steps of its stride |
| Circular.UnitCells | core/cmsis/inc/arm_math.h:5943-5946 | at unit stride no cell is used twice if and only if the block is no longer than the buffer |
| Circular.UnitOffset | core/cmsis/inc/arm_math.h:5943-5946 | at unit stride the offset ends at the start plus n, wrapped around |
| Circular.WrapIsRemainder | core/cmsis/inc/arm_math.h:5944-5946 | wrapping by subtraction is the remainder |
| Circular.RoundTrip | core/cmsis/inc/arm_math.h:5916-6010 | at unit stride a write and a read from the same offset give the block back and change no other cell |

## Left out

- Secure allocator (api/rtx/src/secure_allocator.c): not modelled.
- Liveness: whether a waiting call is ever woken. What holds in every reached state is proved, and when a drain ends.
- Semaphores of function groups: a handler may look for messages at any time, which covers every wake-up.
- Forged cookies: a wait uses a cookie that an asynchronous call of the same box returned.
- Malicious boxes: the checks that queues and buffers lie inside box memory are taken as passed, and box memory changes only through the library.
- uVisor's own lock attempts: a failed try-lock appears as the put-back or contention step that follows it.
- RpcDrain.DrainEndsExactly: in a build without assertions, where a message with a bad gateway is dropped; with them such a message halts the drain. A drain that finds the queue it drains locked ends at once, which is not modelled, here and in IpcDrain; which other locks are taken is a parameter.
- Steps merged in RpcProtocol: incrementing the counter and filling the message are one action, and so are reading the result and freeing the slot; nobody else looks at the slot in between.
- RpcTheorems.CallsReturnTheirOwnResult: states its claim for runs without two steps, a dequeue of a slot on the done queue (RpcHandlers.DequeueExactly) and a wait on a refilled slot (RpcTheorems.SwapExactly), because with them it is false.
- RpcTheorems.SwapExactly: for a slot whose result has arrived; before that the wait first sleeps.
- PoolQueue.Pool.Init: addresses, strides and magics are not modelled; what a write outside the array does to other memory is not either, here and in Enqueue and Dequeue.
- IpcTokens.TokenWords.WaitFor: what uVisor completes between polls is a parameter; polling for ever is the outcome StillWaiting.
- IpcProtocol: each request has a descriptor of its own; sharing one between two requests overwrites the first token.
- FnGroups.Callee.WaitFor: one thread, a non-null array and a non-null place for the caller's box id; what arrives while waiting and the semaphore's status are parameters, and the status is never the one for missing structures (api/rtx/src/uvisor_semaphore.c:31-45).
- Disabled.System.Run: the boxes' code is the tree of events; at most UVISOR_MAX_BOXES boxes, which the source does not check; interrupts between the two steps of a switch out, which sets the same context in any case, interrupts inside context initialisation and the relocation of the vector table are not modelled.
- DisabledVectors.TornStoreExactly: for windows without a further registration of the same number.
- Regions.ContextFits: for reservations up to 2^31 bytes, above which the compile-time arithmetic wraps.
- Regions.RoundUpLeast: for sizes up to 2^31, above which the shift in the source is undefined.
- Circular.Write: strides that leave an array are undefined behaviour in the source; the f32 and q7 twins are the same loop.
- Register gateways, SVC and opcode encodings, linker and compiler plumbing: not modelled.
