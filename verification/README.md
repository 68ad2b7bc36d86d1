# Verified model of xdispatch

xdispatch is a port of Grand Central Dispatch: queues whose work items are run by a pool of
threads, semaphores and groups built on them, event sources with timers, the Blocks runtime, and a
kqueue emulation. This project models its lock-free protocols and its in-place data structures in
Dafny and proves what they guarantee.

Two forms are used, following the source.

- Code that many threads run at once is a transition system. A state holds the shared memory, the
  program counter of every thread (there is no bound on their number) and history variables. One
  action is one atomic operation of one thread: an exchange, a compare-and-swap, an addition, or a
  plain load or store of shared memory. A run is any interleaving of enabled actions from an initial
  state, and the theorems are about every state of every run. History variables never influence the
  memory or the program counters.
- Code that one thread runs under a lock or on one queue is a class with methods that change its
  fields in place. The red-black tree works on heap nodes with left, right, parent and colour fields.

## Contents

| file | what it models |
|---|---|
| ProducerList.dfy | the intrusive list whose tail is exchanged first and linked later |
| RootQueue.dfy, RootCalls.dfy | root queues: producers, the mediator pop, the requests for worker threads, and what becomes of each call |
| SerialDrain.dfy, DrainCalls.dfy | the drain that may stop at any item and put it back, and what becomes of each call |
| QueueLock.dfy, QueueRuns.dfy, QueueCalls.dfy, QueueClients.dfy | one queue with its suspend word and running word, what holds in all its runs, what becomes of each call and each item, and which calls keep barriers apart |
| Semaphore.dfy, Group.dfy, GroupCalls.dfy | semaphores and groups with timeouts, spurious wakeups and the notification list, and what each call answers |
| RedBlackShape.dfy, RedBlackRemoval.dfy, RedBlackTree.dfy, KnoteIndex.dfy | the parent-pointer red-black tree and the knote index over it |
| BlockHolds.dfy, BlocksRuntime.dfy, BlockLifetimes.dfy | reference counts, copying, releasing and lifetimes of blocks and byrefs |
| TimerList.dfy | the timer lists, a pass over them, and the next-fire search |
| KeventTable.dfy | the hash table of shared event registrations |
| SourceLifecycle.dfy | installing, delivering, cancelling and re-driving an event source |
| Apply.dfy, Time.dfy | dispatch_apply and dispatch_time |
| TailQueue.dfy, Options.dfy | shared definitions |

## Results that are conditional

Three properties one might expect of the code do not hold without a condition. Each has a concrete
counterexample and is proved to hold exactly under its condition.

- Barrier exclusion (`QueueClients.ExclusionExactly`): the fast path of a barrier sync tests the queue
  and takes the barrier bit in separate steps, and the slow path runs its function while the queue is
  suspended, without the bit. A barrier function overlaps no other client function in any run if and
  only if no client calls dispatch_barrier_sync, or dispatch_sync on a serial queue; all other calls
  may be mixed. Three threads that only call dispatch_barrier_sync are enough for an overlap.
  `QueueClients.SerialExactly` says the same of a serial queue running one function at a time, and
  `QueueClients.ExclusionByPaths` gives the condition in terms of the paths the calls end up taking.
- Group notifications (`Group.PunctualExactly`): a thread that found the group empty takes the
  notification list without looking at the count again. No notification is submitted before the group
  was empty with it on the list if and only if clients do not enter an empty group while another
  thread is still inside its wakeup. `Group.OneUseExactly` is a rule a client can obey: do not enter an
  empty group again after the first leave or notify.
- Time arithmetic (`Time.TimeAdds`): dispatch_time is saturating addition for all inputs except
  adding zero to DISPATCH_TIME_NOW while the host clock reads zero, which gives forever.

The comment at libdispatch/src/semaphore.c:610 speaks of another thread having called
semaphore_signal when the waiter count of a group is found to be zero; the code is followed, where
that thread may also have taken the count on behalf of waiters that already left.

## Model

| member | source | states |
|---|---|---|
| `ProducerList.ExchangePreservesLinked` | libdispatch/src/queue_internal.h:86-99 | a tail exchange appends the pushed list and leaves exactly the joining link unstored, owed by the pusher |
| `ProducerList.StoreLinkPreservesLinked` | libdispatch/src/queue_internal.h:92-96 | the later link store settles exactly that debt and disturbs no other link |
| `ProducerList.ReadLink` | libdispatch/src/queue.c:440-470 | a link that reads non-NULL leads to the next item in tail-exchange order; a NULL link means the last item or a pusher about to store |
| `ProducerList.PutBackPreservesLinked` | libdispatch/src/queue.c:1622-1640 | putting an item back in front leaves at most its own link owed |
| `RootQueue.StepInv` | libdispatch/src/queue.c:423-480 | every atomic step of any pusher, popper or worker keeps the protocol invariant |
| `RootQueue.RunInv` | libdispatch/src/queue.c:423-480 | the invariant holds in every state of every run |
| `RootQueue.HolderTheorem` | libdispatch/src/queue.c:423-480 | a non-NULL tail means exactly one of: the head holds an item, one popper owns the front, one pusher owes the head store; the mediator value rests in the head only while some thread is mid-pop |
| `RootQueue.DeliveryTheorem` | libdispatch/src/queue.c:423-480 | items are claimed in tail-exchange order, each received by exactly one popper, and no pusher still owes a store into an item that was handed out |
| `RootQueue.HistoryTheorem` | libdispatch/src/queue.c:423-480 | pushes, claims and deliveries are only ever appended, so delivery is exactly once over the whole run |
| `RootQueue.RefinesFifo` | libdispatch/src/queue.c:423-480 | refinement of a FIFO queue: tail exchanges enqueue, successful head exchanges dequeue the front, all other steps change nothing |
| `RootQueue.SpinTheorem` | libdispatch/src/queue.c:455-470 | a popper spins only on a link that some pusher is about to store |
| `RootQueue.WorkTheorem` | libdispatch/src/queue.c:1390-1427 | whenever the head holds an item, a worker is requested, or a thread is inside the wakeup, or a worker will pop again |
| `RootQueue.QuiescenceTheorem` | libdispatch/src/queue.c:1680-1718 | when all threads have left and no worker is requested, every pushed item was received and the queue is empty |
| `RootCalls.PushTheorem` | libdispatch/src/queue_internal.h:86-99 | a push that has returned has appended its list to the queue exactly once |
| `RootCalls.RunTheorem` | libdispatch/src/queue.c:1680-1718 | a worker starts to run an item exactly when it is handed one, namely the one it claimed, and comes back for another afterwards |
| `RootCalls.LeaveTheorem` | libdispatch/src/queue.c:423-453 | a worker leaves only if it found the queue empty, or if it met another worker in the middle of it and then found no item, found a worker requested, or requested one |
| `RootCalls.AloneTheorem` | libdispatch/src/queue.c:423-480 | a thread that is not interfered with takes a bounded number of steps, given by the items there are, until it has left or waits for the link of a pusher |
| `SerialDrain.PushInv` | libdispatch/src/queue_internal.h:86-99 | every producer step keeps the invariant while the drainer is anywhere in its code |
| `SerialDrain.DrainStepInv` | libdispatch/src/queue.c:1576-1640 | every drainer step, stopping early or not, keeps the invariant |
| `SerialDrain.RunInv` | libdispatch/src/queue.c:1576-1640 | the invariant holds in every state of every run |
| `SerialDrain.OrderTheorem` | libdispatch/src/queue.c:1576-1640 | executed items followed by waiting items are the tail-exchange order, however often the drain stops |
| `SerialDrain.MemoryTheorem` | libdispatch/src/queue.c:1576-1640 | at every instant of a drain the waiting items are the one in the drainer's hand followed by the list in memory; every link of that list is stored, or owed by somebody about to store it, and head and tail are its ends |
| `SerialDrain.RefinesFifo` | libdispatch/src/queue.c:1576-1640 | each step enqueues a pushed list, runs the front item, or changes nothing; the put-back changes nothing |
| `SerialDrain.RestTheorem` | libdispatch/src/queue.c:1622-1640 | between drains, following the links from the head yields exactly the waiting items and the tail is the last one |
| `SerialDrain.SpinTheorem` | libdispatch/src/queue.c:1590-1635 | each wait of the drainer ends with a store that some producer is about to make |
| `DrainCalls.PushTheorem` | libdispatch/src/queue_internal.h:86-99 | a push that has returned has appended its list to the queue exactly once |
| `DrainCalls.AloneTheorem` | libdispatch/src/queue.c:1576-1640 | a drain that is not told to stop and not interfered with ends within a bounded number of steps, and has then run every item |
| `QueueLock.StepInv` | libdispatch/src/queue.c:1474-1621 | every step of push, drain, invoke, retarget, sync, barrier sync, suspend and resume keeps the invariant of the two words |
| `QueueRuns.RunInv` | libdispatch/src/queue.c:1474-1621 | the invariant holds in every state of every run |
| `QueueRuns.WordTheorem` | libdispatch/src/queue.c:860-971 | the running word is the barrier bit plus twice the active and backing-off readers and redirected items, and the suspend word counts suspensions and hand-offs exactly |
| `QueueRuns.TokenTheorem` | libdispatch/src/queue.c:1209-1244 | the lock bit is set iff the queue is on one target list, being pushed there, or being invoked; never on two lists, never twice |
| `QueueRuns.WakeupTheorem` | libdispatch/src/object_internal.h:77-93 | a non-empty unsuspended unlocked queue always has a thread that is going to wake it or that holds the running word |
| `QueueRuns.QuiescenceTheorem` | libdispatch/src/object.c:185-223 | with no thread inside, a non-empty unsuspended queue is on its target's list, the running word is zero, and a blocked thread has its item queued |
| `QueueRuns.ExclusionTheorem` | libdispatch/src/queue.c:860-881 | no barrier function overlaps any other client function, if fast entries and slow hand-offs are not mixed |
| `QueueClients.MixedRun` | libdispatch/src/queue.c:807-881 | a run of barrier syncs only, on a queue of any width, in which a fast and a slow one overlap |
| `QueueClients.NoBarrierStep` | libdispatch/src/queue.c:883-971 | no step of any other call brings a hand-off into the queue |
| `QueueClients.ExclusionExactly` | libdispatch/src/queue.c:807-881 | whatever calls are permitted, exclusion holds in all runs if and only if barrier syncs are not among them |
| `QueueClients.SerialExactly` | libdispatch/src/queue.c:790-881 | on a width-1 queue at most one client function executes at a time in all runs if and only if no synchronous call is permitted |
| `QueueClients.ExclusionByPaths` | libdispatch/src/queue.c:807-881 | exclusion in all runs holds if and only if fast entries and slow hand-offs are not both permitted |
| `QueueRuns.SerialTheorem` | libdispatch/src/queue.c:790-841 | on a width-1 queue at most one client function executes at a time |
| `QueueRuns.HandOffTheorem` | libdispatch/src/queue.c:790-841 | from the grant of a slow barrier sync until its resume the queue stays suspended and no drain is past its suspension test to run, grant or redirect an item |
| `QueueRuns.WidthTheorem` | libdispatch/src/queue.c:1528-1573 | with dq_width 2w at most w redirected items are outstanding |
| `QueueCalls.FifoTheorem` | libdispatch/src/queue.c:1576-1621 | in every run the items pushed are those served, in order, followed by those on the list; barrier items and those of a serial queue are run by the drain, waiting readers are let in, and all other items are redirected |
| `QueueCalls.PushTheorem` | libdispatch/src/queue.c:722-781 | an asynchronous call that has returned has put its item on the list exactly once |
| `QueueCalls.SyncTheorem` | libdispatch/src/queue.c:860-971 | a synchronous call that has returned has run its function exactly once: alone for a barrier or on a serial queue, as a reader otherwise |
| `QueueCalls.TurnTheorem` | libdispatch/src/queue.c:860-971 | a synchronous call runs its function only after its own item was served, or after it found the list empty and the queue not suspended |
| `QueueCalls.SuspendTheorem` | libdispatch/src/object.c:185-223 | the suspension count is that of the suspends without their resume plus the slow barrier syncs that were granted the queue |
| `QueueCalls.PauseTheorem` | libdispatch/src/queue.c:1598-1603 | while a queue is suspended at most one item is served, the one that the drain had in its hand past its test |
| `QueueCalls.TargetTheorem` | libdispatch/src/queue.c:1505-1526 | the target is the one that the last retargeting item gave, and a queue that is listed is listed there and nowhere else |
| `QueueCalls.MoveTheorem` | libdispatch/src/queue.c:1474-1503 | items are served only by a thread that took the queue from the list of its present target, and a drain that ends after a retargeting passes the queue on to the new one |
| `QueueCalls.RedirectTheorem` | libdispatch/src/queue.c:1528-1573 | every redirected item is on its way to the root queue, waits there, or was taken by one thread |
| `QueueCalls.WakeTheorem` | libdispatch/src/queue.c:1219-1244 | a wakeup lists the queue only after it has found it not suspended and not empty |
| `QueueCalls.ServeTheorem` | libdispatch/src/queue.c:1474-1621 | invoking a queue that has items, is not suspended and has nothing else running gets its first item served within eight steps if nobody interferes |
| `Semaphore.StepInv` | libdispatch/src/semaphore.c:195-457 | every step of waiters, signallers, timeouts and spurious wakeups keeps the three counting laws |
| `Semaphore.ConservationTheorem` | libdispatch/src/semaphore.c:343-457 | successful waits, positive value, sent signals and signallers in flight add up to the initial value and the signals |
| `Semaphore.WaiterTheorem` | libdispatch/src/semaphore.c:195-312 | slow waiters are the deficit plus the grants on their way; a timed-out waiter that finds no deficit has a grant coming |
| `Semaphore.TimeoutTheorem` | libdispatch/src/semaphore.c:255-275 | in every run the value is the initial value and the signals less the successful waits and the waits in progress: waits that timed out leave no trace |
| `Semaphore.RestTheorem` | libdispatch/src/semaphore.c:195-312 | when nothing moves, threads are blocked only because all permits are used up, and no grant is stranded |
| `Semaphore.ProgressTheorem` | libdispatch/src/semaphore.c:374-413 | while a grant is recorded, some thread can take the next step towards it without another signal |
| `Semaphore.WaitTheorem` | libdispatch/src/semaphore.c:195-312 | every wait ends in one success or one timeout; it times out only if it was made with the timeout now, or with a limit that was up, so a wait without a limit returns only with a permit |
| `Semaphore.BlockTheorem` | libdispatch/src/semaphore.c:233-305 | a wait with the timeout now blocks only after it saw that a grant is on its way, one with a limit blocks under that limit until it is up, and one without a limit blocks without |
| `Semaphore.DrainTheorem` | libdispatch/src/semaphore.c:276-305 | a wait that may not block, or whose time is up, blocks only to drain a grant that it has seen coming |
| `Semaphore.SignalTheorem` | libdispatch/src/semaphore.c:374-457 | every signal counts exactly once before it returns |
| `Semaphore.AloneTheorem` | libdispatch/src/semaphore.c:195-457 | a thread that is not interfered with returns or blocks within five steps, so every retry is the doing of another thread |
| `Group.StepInv` | libdispatch/src/semaphore.c:415-688 | every step of enter, leave, wait, notify and wake keeps the invariant |
| `Group.RunInv` | libdispatch/src/semaphore.c:415-688 | the invariant holds in every state of every run |
| `Group.OnceTheorem` | libdispatch/src/semaphore.c:459-510 | notifications are submitted at most once and in list order, also those appended during a walk |
| `Group.CompletionTheorem` | libdispatch/src/semaphore.c:512-631 | when nothing moves and the count is back at its original value, every notification was submitted and no thread is asleep in a wait |
| `Group.WalkTheorem` | libdispatch/src/semaphore.c:494-505 | only one thread walks the list, and it waits only for a notifier that has already swung the tail |
| `Group.PunctualExactly` | libdispatch/src/semaphore.c:459-688 | no notification is submitted before the group was empty with it on the list, in all runs, iff no client enters an empty group during its wakeup |
| `Group.OneUseExactly` | libdispatch/src/semaphore.c:459-688 | the same, in all runs, iff no client enters an empty group again after the first leave or notify |
| `GroupCalls.WaitTheorem` | libdispatch/src/semaphore.c:512-653 | dispatch_group_wait answers with a timeout only if it was made with the timeout now, or with a limit that was up; otherwise it found the group empty during the call, and woke the others unless it found so at once |
| `GroupCalls.BlockTheorem` | libdispatch/src/semaphore.c:633-653 | a wait with the timeout now never blocks, one with a limit blocks under it until it is up, and one without a limit blocks without |
| `GroupCalls.DrainTheorem` | libdispatch/src/semaphore.c:596-631 | a wait whose time is up blocks again only to drain a wakeup that is on its way |
| `GroupCalls.CountTheorem` | libdispatch/src/semaphore.c:314-428 | the value is the original one less the enters without their leave, so the group is empty exactly when all that entered has left |
| `GroupCalls.NotifyTheorem` | libdispatch/src/semaphore.c:661-688 | dispatch_group_notify has put its notification on the list exactly once when it returns |
| `GroupCalls.AloneTheorem` | libdispatch/src/semaphore.c:459-688 | a thread that is not interfered with returns, blocks, or comes to wait for the link of another notifier, within a number of steps given by the list and the waiters |
| `RedBlackShape.Rotate` | libkqueue/src/common/tree.h:338-376 | a rotation, in any surrounding tree, moves the child above its parent with all links and parent links consistent |
| `RedBlackShape.RotatedInorder` | libkqueue/src/common/tree.h:338-376 | a rotation keeps the order of the nodes |
| `RedBlackShape.UncleRedOk` | libkqueue/src/common/tree.h:402-420 | recolouring parent, uncle and grandparent keeps black heights and moves the only possible red-red pair up |
| `RedBlackShape.OuterOk` | libkqueue/src/common/tree.h:421-445 | after the rotations of an insertion no red-red pair is left |
| `RedBlackShape.SiblingRedOk` | libkqueue/src/common/tree.h:447-462 | lifting a red sibling keeps the shortage where it is and makes the sibling black |
| `RedBlackShape.SiblingBlackOk` | libkqueue/src/common/tree.h:463-471 | painting a black sibling red moves the shortage to the parent |
| `RedBlackShape.SiblingInnerOk` | libkqueue/src/common/tree.h:472-484 | lifting the nearer nephew makes the farther one red |
| `RedBlackShape.SiblingOuterOk` | libkqueue/src/common/tree.h:485-495 | the last rotation ends the shortage |
| `RedBlackShape.HeightBound` | libkqueue/src/common/tree.h:402-523 | the height is at most 2 lg(n + 1) |
| `RedBlackRemoval.Splice` | libkqueue/src/common/tree.h:571-585 | a node with at most one child is replaced by that child, everything around it unchanged |
| `RedBlackRemoval.Succeed` | libkqueue/src/common/tree.h:534-568 | the spliced-out successor takes over the links and colour of the removed node, also when it was its child |
| `RedBlackRemoval.SuccessorFlat` | libkqueue/src/common/tree.h:534-568 | what results is the old order of nodes without the removed one |
| `RedBlackTree.Tree.RotateAt` | libkqueue/src/common/tree.h:338-376 | the stores of a rotation, in either direction |
| `RedBlackTree.Tree.InsertColor` | libkqueue/src/common/tree.h:402-445 | from a red node that may have a red parent, the loop terminates in a red-black tree with the same nodes in the same order |
| `RedBlackTree.Tree.RemoveColor` | libkqueue/src/common/tree.h:447-523 | from a subtree one black node short, the loop terminates in a red-black tree with the same nodes in the same order |
| `RedBlackTree.Tree.Remove` | libkqueue/src/common/tree.h:525-590 | order, parent links, colours and black heights are kept and exactly the given node leaves |
| `RedBlackTree.Tree.Insert` | libkqueue/src/common/tree.h:592-621 | the same is kept and exactly the new node is added, or the node with the same key is returned and nothing changes |
| `RedBlackTree.Tree.Find` | libkqueue/src/common/tree.h:623-639 | the node with the key, or NULL iff there is none |
| `RedBlackTree.Tree.Balanced` | libkqueue/src/common/tree.h:402-639 | the height bound for every tree that the operations can produce |
| `KnoteIndex.CmpIsRankOrder` | libkqueue/src/common/knote.c:32-36 | memcmp of identifiers is a total order that tells different identifiers apart |
| `KnoteIndex.RankTellsApart` | libkqueue/src/common/knote.c:32-36 | no two identifiers, which all have the size of the field, share a key |
| `KnoteIndex.Filter.Insert` | libkqueue/src/common/knote.c:84-90 | the index gains the knote unless its identifier is taken |
| `KnoteIndex.Filter.Delete` | libkqueue/src/common/knote.c:92-124 | a second deletion fails; otherwise the knote leaves the index if it is the indexed one |
| `KnoteIndex.Filter.Lookup` | libkqueue/src/common/knote.c:126-143 | answers as the finite map does |
| `KnoteIndex.Replay` | libkqueue/src/common/knote.c:84-143 | over every history of insertions and deletions the tree stands for the map of that history |
| `BlockHolds.LatchingCount` | libblocksruntime/runtime.c:116-158 | counting never disturbs the flag bits, and a count that reached 0xffff stays |
| `BlocksRuntime.Runtime.Copy` | libblocksruntime/runtime.c:285-326 | NULL, global and heap blocks stand for themselves with one more hold; a stack block becomes a new heap block with the same flag bits and BLOCK_NEEDS_FREE and with as many captures, each a copy of the capture at its place, to any depth; old objects keep flag bits, captures and holders |
| `BlocksRuntime.Runtime.ByrefAssignCopy` | libblocksruntime/runtime.c:368-411 | the result is the heap byref behind the argument with one more hold; a stack byref is moved with one hold for the block and one for its frame |
| `BlocksRuntime.Runtime.ObjectAssign` | libblocksruntime/runtime.c:560-586 | a capture becomes its heap counterpart, held by the block: a stack block becomes a new heap block with copied captures, a byref its promoted form |
| `BlocksRuntime.Runtime.ByrefRelease` | libblocksruntime/runtime.c:414-439 | one hold less, and deallocation exactly when it was the last |
| `BlocksRuntime.Runtime.Release` | libblocksruntime/runtime.c:459-482 | one hold less; only unlatched heap objects that nobody holds any more are deallocated, with the holds of their captures |
| `BlocksRuntime.Runtime.ObjectDispose` | libblocksruntime/runtime.c:588-609 | the hold of a capture is given up |
| `BlocksRuntime.Runtime.LeaveScope` | libblocksruntime/runtime.c:414-439 | the end of a __block variable's scope gives up the frame's share of the heap byref |
| `BlockHolds.HeldValid` | libblocksruntime/runtime.c:116-126 | taking a hold keeps the law that every unlatched count is its number of holders |
| `BlockHolds.StoredValid` | libblocksruntime/runtime.c:560-586 | so does handing a hold over to a captured variable of a heap block |
| `BlockHolds.PromotedValid` | libblocksruntime/runtime.c:378-403 | so does moving a stack byref to the heap |
| `BlockHolds.ByrefDroppedValid` | libblocksruntime/runtime.c:429-438 | so does giving up a hold of a byref, with its deallocation |
| `BlockLifetimes.LiveIffHeld` | libblocksruntime/runtime.c:285-482 | what is held is alive, and what is alive and has not latched is held, by as many holders as its count says |
| `BlockLifetimes.ForwardingIdempotent` | libblocksruntime/runtime.c:386-392 | following a forwarding pointer twice is following it once |
| `BlockLifetimes.RoundTripRestores` | libblocksruntime/runtime.c:285-482 | copy then release frees every copy it made exactly once and restores every other flags word, unless a count latched |
| `BlockLifetimes.CopyAndRelease` | libblocksruntime/runtime.c:285-482 | the two operations run one after the other, NULL included: a stack block is copied, every copy is freed and was not freed before, and all else is restored unless a count latched |
| `TimerList.Manager.constructor` | libdispatch/src/source_kevent.c:36-66 | the empty lists are in order |
| `TimerList.Manager.Create` | libdispatch/src/source_kevent.c:613-675 | a new timer source keeps the lists in order, with any clock flag |
| `TimerList.Manager.Install` | libdispatch/src/source_kevent.c:219-266 | a timer that is installed before it was set goes to the end of the wall clock's list, which stays sorted |
| `TimerList.Manager.Unregister` | libdispatch/src/source_kevent.c:502-533 | the source leaves its list and the others stay |
| `TimerList.Manager.Suspend` | libdispatch/src/object.c:185-194 | the source counts as suspended; lists, values and registrations are untouched and stay in order |
| `TimerList.Manager.Resume` | libdispatch/src/object.c:196-223 | the source no longer counts as suspended; all else is untouched |
| `TimerList.Manager.Update` | libdispatch/src/source_kevent.c:855-897 | the timer moves to the list of its clock, behind all timers that are not later and before the unset ones, and the others keep their order; both lists are sorted, and no source is lost, listed twice or on the wrong list |
| `TimerList.Manager.RunTimers` | libdispatch/src/source_kevent.c:899-940 | a pass terminates, fires exactly the timers of its clock that were due, leaves none due, and never meets a timer of another list |
| `TimerList.DivisionCounts` | libdispatch/src/source_kevent.c:930-934 | the division counts the grid points up to now one by one, and the new target is the first one after now |
| `TimerList.FiredInFuture` | libdispatch/src/source_kevent.c:926-935 | a repeating timer keeps its phase, ends in the future and does not wrap around 64 bits; a timer for one time fires once and is never due again |
| `TimerList.Manager.NextFire` | libdispatch/src/source_kevent.c:951-1012 | for every state the operations can produce, the early-exit scan returns the minimum delay over all set unsuspended timers, or NULL iff that exceeds a year or there is none; it disarms exactly the suspended timers it passes over |
| `TimerList.AwakeIsFirst` | libdispatch/src/source_kevent.c:961-978 | on an ordered list the scan stops at the earliest set unsuspended timer |
| `TimerList.DelayIsLeast` | libdispatch/src/source_kevent.c:980-1000 | the delay of a timer is the shortest time after which its own clock has reached its target, and zero exactly if it is due |
| `TimerList.DelayIsTimeout` | libdispatch/src/source_kevent.c:980-1000 | the manager sleeps for a timer exactly as long as a thread that waits until its start would |
| `TimerList.Values` | libdispatch/src/source.c:647-704 | the target is the instant that the start stands for, on its clock, or the last instant of the host clock for forever; the interval is the one given, made positive and cut at INT64_MAX; the one-shot flag is kept |
| `TimerList.Manager.SetTimer` | libdispatch/src/source.c:634-704 | the source stands for the instant that the start means and moves to its place on the list of that clock; the lists stay sorted and all others stay on theirs, in their order |
| `KeventTable.Table.Find` | libdispatch/src/source_kevent.c:161-173 | the entry with the identifier and filter, or none exists |
| `KeventTable.Table.Merge` | libdispatch/src/source_kevent.c:219-266 | the source shares the entry of its own identifier and filter; there is at most one such entry, in its bucket, its flags are the union of its sources' masks, the kernel is told exactly the flags gained, and all other sources and entries stay as they were |
| `KeventTable.SharedExactly` | libdispatch/src/source_kevent.c:219-266 | in every valid table two installed sources share an entry if and only if they were created for the same identifier and filter |
| `KeventTable.MergeTwo` | libdispatch/src/source_kevent.c:219-266 | two sources created for one identifier and filter share their entry once both are merged, and for the second the kernel is told only flags that the first did not ask for |
| `KeventTable.CreateAndMerge` | libdispatch/src/source_kevent.c:219-266 | a source that is created for an identifier, a filter and a mask has, once it is merged, the entry of that identifier and filter, which asks the kernel for all its flags |
| `KeventTable.Table.Release` | libdispatch/src/source_kevent.c:470-533 | the entry of the last source goes unless it is static; otherwise it keeps its identifier and filter, its flags shrink to what is still asked for, the kernel is told exactly the flags that only this source asked for, and all other sources and entries stay as they were |
| `KeventTable.JoinedValid` | libdispatch/src/source_kevent.c:240-248 | joining an entry keeps the table invariant |
| `KeventTable.ThinnedValid` | libdispatch/src/source_kevent.c:516-528 | leaving an entry keeps the table invariant, also when no flags are dropped |
| `SourceLifecycle.StepInv` | libdispatch/src/source.c:109-264 | every step of merges, invocations, cancellation and handler changes keeps the invariant |
| `SourceLifecycle.ConservationTheorem` | libdispatch/src/source_kevent.c:565-571 | data merged is data delivered plus pending plus what the cancellation callout threw away, which is nothing before it, modulo the word size; a source that has an event handler ignores none |
| `SourceLifecycle.EventTheorem` | libdispatch/src/source_kevent.c:535-575 | the data of the events that came while the source was neither cancelled nor released, and of no others, is about to be added, delivered, ignored, pending or thrown away, modulo the word size |
| `SourceLifecycle.HandlerTheorem` | libdispatch/src/source.c:199-227 | every latch of data for a handler has its one call of the handler, made or about to be made |
| `SourceLifecycle.CancelTheorem` | libdispatch/src/source.c:199-264 | the cancellation handler runs at most once per setting and only after the kernel event was released, and no event handler runs after the callout |
| `SourceLifecycle.LateTheorem` | libdispatch/src/source.c:199-227 | once a source is cancelled or released its event handler is called at most once more, and only by an invocation that was past its last test |
| `SourceLifecycle.DeadExactly` | libdispatch/src/source.c:46-60 | the source is cancelled exactly when that was asked for, and released exactly when its last reference was given up |
| `SourceLifecycle.QueueTheorem` | libdispatch/src/source.c:109-164 | handlers run only on the target queue, and the kernel event is installed, armed and released only on the manager queue |
| `SourceLifecycle.FieldsTheorem` | libdispatch/src/source.c:229-264 | handlers come and go only as they are set and as callouts take them; re-arming is needed until the kernel event is released, after which the source is not armed |
| `SourceLifecycle.DriveWorks` | libdispatch/src/source.c:109-164 | an invocation driven on the queues it returns ends with NULL and leaves strictly less to do if there was anything |
| `SourceLifecycle.Settle` | libdispatch/src/source.c:166-191 | invoking while the probe asks for it comes to rest when no new events arrive |
| `SourceLifecycle.SettleCancels` | libdispatch/src/source.c:199-264 | a cancelled source settles with its cancellation handler, if set, called exactly once more and its kernel event released |
| `SourceLifecycle.ProbeAgrees` | libdispatch/src/source.c:166-191 | when the probe is false, an invocation on any queue returns NULL at once, calls no handler and leaves the kernel event alone |
| `Apply.ApplySerial` | libdispatch/src/apply.c:61-74 | the serial loop calls every index once, in order |
| `Apply.StartsParallel` | libdispatch/src/apply.c:99-117 | the parallel loop is started with at least two items and no more than the iterations, exactly in the cases where the code neither returns at once nor runs the loop in one piece |
| `Apply.StepInv` | libdispatch/src/apply.c:41-58 | every step of the work items and the caller keeps the invariant |
| `Apply.OnceTheorem` | libdispatch/src/apply.c:52-55 | no index is handed out twice and none is called twice, in any interleaving: each step takes an index nobody had, or calls one that was not called |
| `Apply.ReturnTheorem` | libdispatch/src/apply.c:89-146 | when the caller returns, the calls made are exactly those of the serial loop, each index once, all have returned, no item is still running, and exactly one signal was sent, on both paths |
| `Apply.RestTheorem` | libdispatch/src/apply.c:56-58 | when all items are done the caller has been signalled |
| `Time.TimeAdds` | libdispatch/src/time.c:47-82 | dispatch_time is saturating addition on the same clock and never returns now, exactly unless zero is added to now at clock zero |
| `Time.TimeMonotone` | libdispatch/src/time.c:47-82 | a larger delta never gives an earlier time |
| `Time.TimeComposes` | libdispatch/src/time.c:47-82 | non-negative deltas compose additively |
| `Time.TimeoutInverts` | libdispatch/src/time.c:104-122 | the timeout of now plus d is d |
| `Time.TimeoutIsLeast` | libdispatch/src/time.c:104-122 | the timeout is the shortest wait after which the clock of the instant has reached it, for every kind of time, and forever only for forever |

## Left out

- Weak memory orderings: steps are sequentially consistent; barriers and spin pauses have no effect.
- The concurrent protocols are transition systems over values, because Dafny methods do not interleave.
- QueueLock takes and puts back the items of its list in single steps; SerialDrain shows the steps inside.
- A client function that pushes or waits is modelled as another thread doing so.
- Allocation of continuations (libdispatch/src/queue.c:1560 is read as yielding a fresh one), their cache, and running out of memory.
- Changing dq_width during a run; the width is fixed per run.
- The main queue, where a slow barrier sync runs its function on the draining thread instead of handing the queue over.
- Unbalanced suspend and resume, enter and leave, or retain and release: the crashes they lead to are not modelled.
- The thread-pool fallback of _dispatch_queue_wakeup_global; the workqueue path is modelled.
- Thread creation, thread-specific data, dispatch_once, dispatch_after, queue labels, debugging and benchmarks: no property that needs more than one function.
- Mach ports and MIG stubs, the kqueue filters of each platform, the select and kevent loops: system calls.
- Blocks under garbage collection, Objective-C objects captured by blocks, weak byrefs, and C++ destructors.
- latching_incr_int and latching_decr_int are single steps; the retries of their compare-and-swap loops are not.
- Copy: allocation does not fail, and the captures of a stack block are acyclic and still exist.
- Replay: a knote is inserted only while it is not in the index, as the callers of knote_insert ensure; reference counts of knotes are not modelled.
- Install: whether the source counts as armed afterwards, which only the rearming of SourceLifecycle uses.
- RunTimers: the clock reads less than 2^63; the leeway is not modelled because the code only stores it.
- Clock ratios other than one: _dispatch_time_nano2mach and _dispatch_time_mach2nano are identities here.
- KeventTable.Table.Release: the EV_DELETE update for the kernel and the EV_ONESHOT case of EVFILT_PROC only talk to the kernel.
- Level-triggered and or-type sources: their pending word is overwritten or or-ed, so no sum is conserved.
- WakeupTheorem: states that somebody will wake the queue, not that the scheduler lets that thread run.
- _dispatch_timeout_ts, dispatch_walltime, map.c and alloc.h.
- libxdispatch, libqtdispatch and the legacy interface: thin wrappers.
