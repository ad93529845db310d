# IO-Engine in Dafny

IO-Engine is a single-threaded reactor: a service holds handlers that were posted, delayed, or registered for
a file descriptor, and `iosvc_run` calls each of them when its turn, its time or its event has come. Callbacks
call back into the service. Behind the API, four structures have to agree: a red-black tree of nodes keyed by
descriptor (with parent links), a vector for `poll()`, a heap of deadlines whose entries and events point at
each other, and per node three pieces of event storage that read, write and exception events share.

This project models those structures and the loop, and proves the laws they are there for.

| file | content |
|---|---|
| `IoTypes` | error codes, wait types, handlers; what a callback does is a finite list of API calls, its script |
| `EventSlots` | main/aux/ex storage of one node, as a partial map from wait types to events |
| `RbShape`, `RbLinks` | trees and one-hole contexts as values; how node records in memory represent them |
| `RbTree`, `RbInsert`, `RbDelete`, `RbSwap`, `RbExtract` | rotation, search, insertion, deletion fix-up, extraction by relinking |
| `DeadlineHeap` | sift-up, sift-down, removal anywhere by the deadline -1 |
| `IoModel` | the registrations as plain values: a map from (descriptor, type) to handler, the poll vector, the timers |
| `RegistryRep`, `RegistryOps`, `Registry` | class `Service`: the four structures, proved to implement `IoModel` |
| `StopWalk` | the tree walk of a stopping service |
| `Weights`, `LoopState`, `LoopRounds`, `LoopDispatch`, `LoopCalls` | the state of the event loop as a value, its invariants, and what each step does to it |
| `LoopEffects`, `LoopScripts` | what callbacks ask for and what comes of it, and whether they stop the service |
| `LoopTame`, `LoopTurns`, `LoopRuns` | callbacks that keep to their own descriptor: queue, timeouts, dispatch and whole runs with such callbacks, and where these can still leave the hypotheses |
| `CBuffer` | the circular buffer of posted handlers |
| `EventLoop` | class `Loop`, which owns a `Service` and a `CBuffer`: the API, callbacks, dispatch, timeouts, stopping and `iosvc_run` |
| `LoopExamples` | runs on which the code does not keep to what it promises |
| `Semaphore`, `AsyncRdwr` | two clients of the service |

`dafny verify dfyconfig.toml` checks everything.

## How to read the model

Nodes live in an explicit memory, a map from addresses to node records, which the methods of class `RbTree`
rewrite field by field as the C code does. `Rep(mem, root, c, t)` says that memory holds the tree `t` at the
hole of the context `c`: child links, parent links, colours and descriptors of every node.

`Registry.Service` keeps the represented `IoModel` state in the ghost field `io` and the tree in `shape`; the
contract of each method is an equation `io == IoModel.Operation(old(io), ...)`. `EventLoop.Loop` owns a
`Service` and works through its methods: it searches, captures links, loads nodes and reads poll entries there.
It owns the ring of posted handlers as well, and runs the front handler while it is still stored there. Its
predicate `Linked()` says that the four structures and the ring are sound and represent the state that the rest of
the loop's books speak about.

`EventLoop.Loop` keeps books: everything accepted, and a log of every invocation with its status, its remaining
time and the circumstances. `LoopState.Ok` is what holds between any two steps: the books balance, every logged
invocation was justified (`CallOk`), all indices and heaps are in order, and no descriptor is polled for
nothing. What the calls of callbacks come to is read off the same books (`LoopEffects.Effects`). Every return from
`poll()` is kept with the state in which it left the service (`wakeups`), and `LoopRuns.Paced` says what a run logs
between one return and the next.

The clock is monotone, `poll()` is nondeterministic. Where the code would damage the tree, would use a link
captured before a callback although the tree has changed meanwhile, would call a handler that is not there, or
would rely on something `poll()` does not promise, the run becomes `tripped` and no further claim is made, least of
all by `EventLoop.Loop.Run`. These are:

- a registration that needs a new node whose insertion starts with a mixed rotation, because the write-back
  destroys the tree then (`Registry.InsertHarmless` is false);
- the removal of a node whose extraction loses the parent of its place (`RbExtraction.LosesParent`);
- `iosvc_cancel` and `dispatch_ready_events`: a callback changed the shape of the tree, and the captured link is
  used afterwards (for dispatch also: a callback removed a node);
- `timeout_first`: a callback removed the very node that timed out. New descriptors are fine there;
- a ready type without registration. If `poll()` reports only what it may, this is exactly a hang-up on a
  descriptor that is not waiting for reading (`LoopDispatch.ReadyIsRegisteredIff`);
- `poll()` interrupted by a signal, or returning 0 before its time limit is over;
- a timed registration with a negative deadline; or one attempted by a callback while a stopping service walks
  over its events, because `iosvc_sched_timeout` grows the deadline heap before it looks at the status and may
  so move the array that `stop_async_ops` keeps a pointer into.

The contracts say when a method trips, and when it does not:

- `Sched`, `SchedTimeout`, `Finish` and `Leave` by an equivalence; so do the methods that stop the service:
  `StopDelays` never, `StopAsyncOps`, `StopEvents` and `PrepStop` exactly if some registered handler schedules with a
  time limit;
- `RunScript`, `Fire`, `Answer` and the front of the queue do not trip for callbacks that cancel nothing and register
  only for descriptors that have a node (`CalmScript`), and these leave the tree as it is; `Cancel` and `TimeoutFirst`
  then trip only if the emptied descriptor's node would lose its parent;
- `RunSync` does not trip if everything that queues posts, delays, stops and resets only, directly or through what it
  posts (`TamePosts`);
- `Dispatch` trips exactly when it gets `Stuck`, at an emptied descriptor whose node would lose its parent, if every
  registered handler cancels nothing and registers for its own descriptor only, if at all (`TameRegs`, which covers
  a handler that waits for the next input), and every ready type is registered (`CoveredFrom`);
- if all that is stored is of these kinds (`Orderly`), it stays so, and `Run` trips only when it is `Stuck`, when a
  stopping service calls a handler that schedules with a time limit, or when `poll()` has returned as it should not
  (`Lapse`); with at most two descriptors it is never `Stuck`.

## Where the code falls short of its intent

- `rb_extract` resets the parent by a second search. It leaves a valid tree if and only if the node does not
  have a black left child without right child beside a right child (`RbExtraction.Extract`,
  `LosesParentExample`); keys and child links are right in every case.
- The write-back of `*place` after `rb_insert` leaves the tree intact if and only if the fix-up did not start
  with a mixed rotation; otherwise a later search can run in a circle (`RbInsertion.WriteBackIff`,
  `WriteBackLoops`, `MixedFirstExample`, `LoopExamples.HarmfulInsertion`).
- The branch of `dispatch_ready_events` for an error without anything else is unreachable, because no poll entry
  ever asks for POLLERR alone; such an error calls no handler at all (`EventLoop.Loop.Examine`). As
  `is_top_event_ready` does take it for ready, an overdue event whose descriptor is reported with POLLERR and
  nothing else is not timed out either, and the loop spins without doing anything (`LoopDispatch.StarvedIff`,
  `LoopExamples.StarvedTimeout`, and the clause of `EventLoop.Loop.PollOnce` on `NothingCalled`).
- Removal from the deadline heap takes out the right entry if and only if it is on top or no deadline is negative
  (`DeadlineHeap.RemoveAtIff`, `LoopExamples.NegativeDeadline`).
- The remaining time reported on dispatch is measured from the return of `poll()`. Of every logged invocation it
  is within the requested time if and only if the event was registered no later
  (`LoopRounds.RemainingBoundedIff`); `LoopExamples.LateRegistration` is a run in which it is not. On cancellation
  it is the raw deadline.
- A zero-byte `async_read` or `async_write` never completes with EIO_OK (`AsyncRdwr.TransferLaw`,
  `NothingRequested`).
- A semaphore spends a permit even when the service refuses the handler (`Semaphores.Semaphore.Wait`,
  `PermitLost`).

## Model

| member | source | states |
|---|---|---|
| EventSlots.GetSlot | src/rbnode.h:56-68 | the storage found for a type holds its pending event, and a live event found there is the pending one of that type |
| EventSlots.IsScheduled | src/iosvc_sched.c:22-36 | true exactly when the partial map has an event of that type |
| EventSlots.Schedule | src/iosvc_sched.c:46-111 | reserving or stealing storage and writing the event adds exactly that event to the map: no live event is overwritten or hidden, and EMPTY stays equivalent to no read and no write pending |
| EventSlots.Vacate | src/iosvc_dequeue.c:40-48 | vacating removes exactly that event and marks EMPTY exactly when neither read nor write is left |
| EventSlots.SetDdl | src/async_heap_entry.c:16-21 | writing an event's heap index changes no other event |
| RbTrees.RbTree.Rotate | src/rbtree.c:43-60 | memory holds the rotated subtree in the same surroundings, links both ways, and every node keeps descriptor, poll index and events |
| RbTrees.RbTree.RefToThis | src/rbtree.c:62-74 | the link leading to the node, and its parent |
| RbTrees.RbTree.Probe | src/rbtree.c:76-88 | the link at which the search ends, and its parent, or NULL if the search did not move |
| RbTrees.ProbeFinds | src/rbtree.c:76-88 | in a sorted tree the search ends at the node for the descriptor if there is one, else at the link where a node for it keeps the order |
| RbTrees.PlaceIsUnique | src/rbtree.c:76-88 | two empty links that both lie between the smaller and the larger keys are the same link |
| RbTrees.ProbeIsLogarithmic | src/rbtree.c:76-88 | in a balanced tree of n nodes at most 2 log2(n + 1) nodes are visited, written without logarithms |
| RbInsertion.FixInsert | src/rbtree.c:90-126 | the fix-up loop computes the tree `Fixed`, for every position and every memory, and keeps all payloads |
| RbInsertion.FixedInOrder | src/rbtree.c:90-126 | recolouring and both rotation shapes keep the in-order sequence |
| RbInsertion.FixedBalanced | src/rbtree.c:90-126 | no red node with a red child and equal black heights are restored |
| RbInsertion.Insert | src/rbtree.c:128-137 | memory holds the tree `Inserted`, parent links included |
| RbInsertion.InsertedValid | src/rbtree.c:90-137 | at the link found by the search, that tree is a sorted red-black tree over the old nodes and the new one |
| RbInsertion.LinkKeptIff | src/rbtree.c:90-137 | the link that received the node still holds it exactly when the first step was not a mixed rotation, whatever happens higher up |
| RbInsertion.WriteBackIff | src/iosvc_sched.c:113-123 | storing the node through the old link once more leaves the tree in memory exactly in those cases |
| RbInsertion.WriteBackLoops | src/iosvc_sched.c:113-123 | in the other cases a search for a descriptor between the new node and its old parent alternates between the two |
| RbInsertion.InsertAndWriteBack | src/iosvc_sched.c:113-123 | insertion with both write-backs leaves the inserted tree if and only if the first step was not mixed |
| RbInsertion.MixedFirstExample | src/rbtree.c:108-117 | adding 7 after 10 and 5 starts with a mixed rotation |
| RbDeletion.SiblingExists | src/rbtree.c:144-158 | the position that is one black node short always has a sibling, and a red sibling has the child that the rotation needs |
| RbDeletion.DelFixedStep | src/rbtree.c:147-181 | each branch of the loop leaves the final tree unchanged and decreases the measure, although the red-sibling branch moves the position one level down |
| RbDeletion.DelFixedBalanced | src/rbtree.c:139-186 | the tree computed from one that is short of a black node on one path is a red-black tree |
| RbDeletion.DelFixedInOrder | src/rbtree.c:139-186 | it has the same in-order sequence |
| RbDeletion.FixDelete | src/rbtree.c:139-186 | the loop terminates and computes that tree; called without a parent it only paints the son black |
| RbExtraction.Predecessor | src/rbtree.c:33-41 | the link to the last node of the left subtree |
| RbExtraction.SwapWithPredecessor | src/rbtree.c:193-236 | node and predecessor change places and colours by relinking, in both branches, and keep their payloads |
| RbSwaps.SwapRep | src/rbtree.c:196-236 | after the relinking memory holds the tree with the two nodes exchanged |
| RbExtraction.ExtractedValid | src/rbtree.c:188-252 | the tree left by a regular extraction is a sorted red-black tree over the remaining nodes |
| RbExtraction.Extract | src/rbtree.c:188-252 | always: the requested node is returned, child links lead through the other nodes in order, all payloads are kept; a red-black tree with consistent parent links is left if and only if the node is not of the kind that loses its parent |
| RbExtraction.LostInvalid | src/rbtree.c:238-249 | when the parent is lost, memory holds no balanced tree with consistent links |
| RbExtraction.LosesParentExample | src/rbtree.c:238-239 | removing the root of three black nodes is such a case |
| DeadlineHeap.SiftUpOrders | src/heaputils.c:13-30 | sift-up restores heap order when one entry is too small |
| DeadlineHeap.SiftUpMultiset | src/heaputils.c:13-30 | sift-up only permutes |
| DeadlineHeap.SiftUpKeepsTop | src/heaputils.c:13-30 | an entry not smaller than the top never displaces it |
| DeadlineHeap.SiftDownOrders | src/heaputils.c:32-71 | sift-down restores heap order when one entry is too large |
| DeadlineHeap.SiftDownMultiset | src/heaputils.c:32-71 | sift-down only permutes |
| DeadlineHeap.TopIsLeast | src/heaputils.c:13-71 | heap order makes the first entry the least |
| DeadlineHeap.PushCorrect | src/iosvc_post.c:35-47 | adding keeps the order, adds exactly the entry, and leaves an expired top on top |
| DeadlineHeap.PopTopCorrect | src/io_service.c:229-236 | dropping the top keeps the order and removes exactly the top |
| DeadlineHeap.RemoveAtCorrect | src/iosvc_dequeue.c:29-37 | removal at any index takes out exactly that entry and restores the order |
| DeadlineHeap.RemoveAtIff | src/iosvc_dequeue.c:29-37 | it does so if and only if the entry is on top or no deadline is negative |
| LoopExamples.NegativeDeadline | src/iosvc_dequeue.c:29-37 | two entries with a negative deadline on top: removing the other one removes the top |
| DeadlineHeap.RemoveAtMap | src/iosvc_dequeue.c:29-37 | removal looks at deadlines only, so it commutes with renaming the items |
| DeadlineHeap.Heap.SiftUpIdx | src/heaputils.c:13-30 | the loop computes sift-up |
| DeadlineHeap.Heap.SiftDownIdx | src/heaputils.c:32-71 | the loop computes sift-down |
| DeadlineHeap.Heap.Add | src/iosvc_post.c:35-47 | order kept, exactly one entry more, expired top kept |
| DeadlineHeap.Heap.RemoveTop | src/io_service.c:229-236 | order kept, exactly the top gone |
| IoModel.MaskMeaning | src/iosvc_sched.c:185-191 | a union of masks is empty exactly when no type is scheduled, has POLLERR exactly with read or write, and is never POLLERR alone |
| IoModel.EventsEmptyIff | src/iosvc_dequeue.c:50-63 | the same of the events of a descriptor with given registrations |
| IoModel.MaskDropped | src/iosvc_dequeue.c:53-63 | clearing a type's flags turns the union of masks into that of the other types |
| IoModel.EnqueueKeepsPolls | src/iosvc_sched.c:139-191 | scheduling keeps one poll entry per descriptor, whose events are the union of the masks of its registered types |
| IoModel.DequeueKeepsPolls | src/iosvc_dequeue.c:50-63 | so does clearing a type |
| IoModel.CleanupKeepsPolls | src/iosvc_dequeue.c:78-83 | swap-remove takes out exactly the entry of the descriptor, as a multiset, and keeps the rest consistent |
| IoModel.AddTimerKeeps | src/iosvc_sched.c:225-236 | the heap gains exactly the new timer; one timer per event, each for a live event, in order |
| IoModel.DropTimerKeeps | src/iosvc_dequeue.c:14-38 | the heap loses exactly the timer of the event |
| IoModel.OperationsKeepInv | src/iosvc_sched.c:126-239 | the invariant of the registrations is kept by scheduling, dequeuing and cleanup |
| RegistryRep.SwapLinked | src/async_heap_entry.c:8-22 | swapping two heap entries with their indices keeps every event's index equal to its entry's position |
| Registry.Service.constructor | src/iosvc_cdtor.c:9-24 | a new service represents the empty state |
| Registry.Service.SwapTimed | src/async_heap_entry.c:8-22 | the two entries change places and all back-indices stay right |
| Registry.Service.SiftUpTimed | src/heaputils.c:13-30 | sift-up with back-indices |
| Registry.Service.SmallestAround | src/heaputils.c:38-61 | the index to exchange with |
| Registry.Service.SiftDownTimed | src/heaputils.c:32-71 | sift-down with back-indices |
| Registry.Service.RemoveTimed | src/iosvc_dequeue.c:29-37 | exactly that entry goes, order is restored, every surviving event's index is its position |
| Registry.Service.Dequeue | src/iosvc_dequeue.c:7-66 | the structures represent the state without the registration and its timer; handler and remaining time are those of the event; the tree is untouched |
| Registry.Service.CleanupEvt | src/iosvc_dequeue.c:68-89 | the structures represent the state without the descriptor's poll entry; the node is gone, the moved entry's node has its new index |
| Registry.Service.EnqueueOld | src/iosvc_sched.c:139-191 | a further event on a descriptor that has a node |
| Registry.Service.EnqueueFresh | src/iosvc_sched.c:88-191 | a first event on a descriptor: node, poll entry and event together represent the new state |
| Registry.Service.Enqueue | src/iosvc_sched.c:126-194 | EIO_OK exactly on a ready or running service, with callback and wait type given and nothing registered for that pair; EIO_INPROGRESS, EIO_INVARG and EIO_STOPPED exactly in the cases named; refused calls change none of the structures, accepted ones add the registration and keep every node at its address |
| Registry.Service.SchedTimeout | src/iosvc_sched.c:206-239 | the same answers, and the registration with a timer that counts from the clock reading |
| Registry.Service.Find | src/rbtree.c:76-88 | the link and the parent at which a search from the root ends |
| Registry.Service.LinkTo | src/io_service.c:212-214 | for a node still in the tree, exactly the link and the parent that a search would find |
| Registry.Service.TopRevents | src/io_service.c:171-189 | through node and poll index one gets to the entry of the top event's descriptor |
| Registry.Service.Walk | src/io_service.c:80-100 | the walk from the root yields each registration once, in the order of the tree (`StopWalk.InTreeOrder`): the calls of every subtree's root before those of its other nodes, left part before right part; after a larger descriptor no smaller one comes back; within a node inline before auxiliary before exception storage |
| StopWalk.StopNode | src/io_service.c:84-91 | the three storages hold each live event of the node exactly once |
| StopWalk.StopAsyncOps | src/io_service.c:80-100 | the recursive walk calls each live event of the subtree exactly once, and in a sorted tree in the order just described, stated about the calls themselves |
| StopWalk.WalkOrder | src/io_service.c:80-100 | the order defined by recursion has these properties in every sorted subtree |
| StopWalk.StopsAll | src/io_service.c:132-136 | from the root that is each registration exactly once |
| LoopState.PostedOk | src/iosvc_post.c:15-21 | a post keeps all invariants of the loop and disturbs nothing that is pending |
| LoopState.EnteredOk | src/iosvc_post.c:35-47 | so does a delayed post; an expired top of the heap stays on top |
| LoopState.RegisteredOk | src/iosvc_sched.c:126-194 | so does a registration, given that the tree keeps its nodes and changes for new descriptors only, which `EventLoop.Loop.EnqueueEvent` provides |
| LoopState.WithTimerOk | src/iosvc_sched.c:225-236 | so does a timer; no deadline lies further ahead than was asked for |
| LoopState.FiredOk | src/iosvc_dequeue.c:7-66 | dequeuing an event and logging its invocation keeps the books balanced |
| LoopState.CleanedOk | src/iosvc_dequeue.c:68-89 | removing a descriptor without events keeps the invariants, given that the tree loses no other node, which `EventLoop.Loop.CleanUp` provides |
| LoopRounds.NextDeadlineLeast | src/io_service.c:147-169 | there is no deadline exactly when both heaps are empty; otherwise it is the least over both and belongs to the heap named, a delayed handler going before an event with the same deadline |
| LoopRounds.PollDelayBounded | src/io_service.c:323-328 | the poll delay is -1 exactly without deadlines, else between 0 and the time some pending entry asked for, so the cast to int loses nothing |
| LoopDispatch.ExpiredIff | src/io_service.c:323-346 | comparing elapsed time with the poll delay is the same as comparing the clock with the least deadline, so nothing times out early |
| LoopRounds.RemainingBoundedIff | src/iosvc_dequeue.c:22-25 | of every measured call in every run: a positive remaining time leads from the clock reading exactly to the deadline, zero means that it has passed, and it is within the requested time if and only if the event was registered no later than that reading |
| LoopExamples.LateRegistration | src/io_service.c:271-286 | an exception handler cancels and reschedules the read of its descriptor, which is then served in the same pass and told 8 of 5 milliseconds are left |
| LoopRounds.EndedHeap | src/io_service.c:226-236 | after a delayed handler the heap is the old multiset without its entry plus what its callback added |
| LoopRounds.TimeoutCall | src/io_service.c:200-210 | the top of the deadline heap is a registered event, and timing it out is justified |
| LoopDispatch.EntryEvents | src/io_service.c:271-292 | the flags of a poll entry are exactly its registrations, never POLLERR alone |
| LoopDispatch.ReadyIsRegisteredIff | src/io_service.c:271-290 | with what poll() may report, every type taken for ready is registered if and only if there is no hang-up without a registered read |
| LoopDispatch.AheadCleanup | src/io_service.c:292-295 | swap-remove without advancing the index loses no entry still to be examined |
| LoopDispatch.VanishedDue | src/io_service.c:256-290 | a registration that is gone when its turn comes was cancelled by a handler invoked before |
| LoopDispatch.ReadyExamined | src/io_service.c:271-297 | after one entry: everything called for is answered with EIO_OK or was cancelled before, dispatch has called nothing else, all later entries are still ahead, no idle descriptor is left; and if no callback ran, nothing has changed and the index advances |
| LoopDispatch.InvalidExamined | src/io_service.c:249-269 | the same with EIO_INVARG for an invalid descriptor, where the index does not advance, but some callback has run |
| LoopDispatch.DispatchStep | src/io_service.c:243-298 | each entry present at the start stays settled or ahead, each call made so far is for such an entry, in the order of its types and, as long as no descriptor is removed, in the order of the vector, and no handler of an entry ahead has been called |
| LoopDispatch.OrderedNext | src/io_service.c:243-298 | without removals the calls follow the order of the poll vector |
| LoopDispatch.StarvedIff | src/io_service.c:171-189 | with nothing to dispatch, an overdue event is timed out if and only if its descriptor is not reported with POLLERR (or it waits for an exception) |
| LoopExamples.StarvedTimeout | src/io_service.c:171-189 | a read that was due at 50 is, at 60, neither dispatched nor timed out while its descriptor is reported with POLLERR only |
| LoopRounds.StopEventOk | src/io_service.c:58-70 | the next event of the walk is a registration not stopped so far, and is told the time left, between 0 and the requested time |
| LoopScripts.PostsCat | src/iosvc_post.c:8-22 | of two lists of calls the service takes the posts of the first and then, unless that stops it, those of the second |
| LoopScripts.HeardMeans | src/iosvc_post.c:8-22 | the calls a callback is heard with are those up to the first stop, and none on a service that is not running |
| LoopScripts.PostsAreHeard | src/iosvc_post.c:8-22 | of each handler as many are posted as calls for it are heard |
| LoopScripts.BroughtCat | src/io_service.c:44-44 | what two lists of calls leave behind is what each does: registrations with the handler and time limit first asked for, delayed handlers as often as asked for, posts in order; what was registered stays |
| LoopScripts.RanMeans | src/iosvc_sched.c:196-203 | for a callback without cancellations: every pair that was free holds exactly the handler of the first heard call for it, and the accepted delayed handlers grow by exactly the heard calls with callback and non-negative delay |
| LoopEffects.EffectsCat | src/io_service.c:44-44 | effects compose, for every callback, cancellations included: nothing is posted, delayed or registered without a call for it, and while the service runs every call of every handler invoked meanwhile has had its effect: posts and delays as often as asked, registrations still there or since called, cancellations served |
| LoopEffects.CalledEffects | src/iosvc_dequeue.c:7-66 | so it is of one invocation with all that its handler does |
| LoopScripts.NothingInvoked | src/iosvc_cancel.c:23-27 | calls without a cancellation invoke no handler |
| LoopTame.FrontRan | src/io_service.c:39-47 | what has run followed by what queues is what queued at first followed by everything these have posted before a stop; running the front keeps that |
| LoopTame.TameIsCalm | src/io_service.c:271-290 | a handler that registers for its own descriptor only can neither change the tree nor trip while that descriptor is served |
| LoopTame.StaysOrderly | src/iosvc_sched.c:196-239 | such callbacks store only handlers of the same kind |
| LoopTurns.ReadyIsCalm | src/io_service.c:276-290 | then a ready type that was registered when poll() returned still is when its turn comes |
| LoopTurns.CoveredNext | src/io_service.c:243-298 | and so it is for all entries still to be examined, whatever swap-remove does |
| LoopRuns.CoveredAfter | src/io_service.c:343-346 | a timeout delivered before dispatch takes no ready type away, because it is not that of a ready event |
| LoopRuns.OverIff | src/io_service.c:323-341 | poll() has not returned early exactly if the least deadline has passed |
| LoopTurns.NotStuck | src/io_service.c:292-295 | between phases no descriptor is left with an empty mask |
| LoopTurns.StuckNeedsThree | src/rbtree.c:238-239 | a removal loses the parent only in a tree of three nodes or more |
| LoopRuns.WalkTimed | src/io_service.c:80-100 | the walk meets a handler with a time-limited registration exactly if there is one |
| LoopRuns.ReadyTurned | src/io_service.c:343-349 | after a timeout, if any, dispatch still calls everything that poll() had reported, and nothing that it had not |
| LoopRuns.PacedPoll | src/io_service.c:309-352 | a run goes on as it should with every return from poll(): what that calls for is called, then only posted handlers run, and poll() is called again with none waiting and nothing stopped |
| LoopRuns.RecordedPoll | src/io_service.c:323-350 | so does what the run has come to: pace, effects, and that it is stopping exactly by an invoked handler or a failing poll() |
| LoopRuns.RecordedStop | src/io_service.c:313-317 | the calls with EIO_STOPPED come last and change none of that |
| LoopRuns.EverythingCalled | src/io_service.c:303-358 | when a run that was not stopped is over, every handler posted or delayed by a handler of the run has itself been called as often as asked for, and for every registration asked for a handler has been called later |
| LoopExamples.ReadingIsTame | src/async_rdwr.c:37-70 | a handler that waits for the next input of its descriptor and posts is of the kind considered |
| LoopRounds.EmptyIsDone | src/io_service.c:309-311 | when queue, delay heap and poll vector are empty, so are registrations and timers, and everything accepted has been invoked exactly once |
| EventLoop.Loop.constructor | src/iosvc_cdtor.c:9-24 | a new loop satisfies all invariants with empty books |
| EventLoop.Loop.Post | src/iosvc_post.c:8-22 | EIO_OK exactly on a ready or running service with a callback, EIO_STOPPED exactly when stopping or done, else EIO_INVARG; accepted handlers queue last |
| EventLoop.Loop.PostDelay | src/iosvc_post.c:24-50 | EIO_INVARG exactly for a missing callback or negative delay, before the status is looked at; then EIO_OK exactly on a ready or running service, with an entry at clock plus delay |
| EventLoop.Loop.Sched | src/iosvc_sched.c:196-203 | EIO_OK exactly on a ready or running service, with callback and wait type given and nothing registered for that pair; EIO_INPROGRESS, EIO_INVARG and EIO_STOPPED exactly in the cases named; refused calls change nothing, accepted ones add the registration to the structures and the books; trips exactly if the insertion would damage the tree |
| EventLoop.Loop.SchedTimeout | src/iosvc_sched.c:206-239 | the same answers, with a timer, and exactly when it trips |
| EventLoop.Loop.Stop | src/io_service.c:13-25 | RUNNING becomes STOPPING, nothing else changes |
| EventLoop.Loop.Reset | src/io_service.c:27-37 | READY again, unless running or stopping |
| EventLoop.Loop.Cancel | src/iosvc_cancel.c:7-35 | NOENTRY exactly without registration; else the handler has been invoked with EIO_CANCELLED and the raw deadline, and an emptied descriptor is removed; nothing else is invoked but what that handler cancels; all that these handlers ask for has had its effect; with a calm handler it trips only if the emptied node would lose its parent |
| EventLoop.Loop.Perform | src/io_service.c:44-44 | one API call of a callback, with its exact effect; a cancellation of a registered event on a running service calls its handler with EIO_CANCELLED next |
| EventLoop.Loop.Finish | src/iosvc_cancel.c:28-32 | an emptied descriptor is removed and no other node; trips exactly if that would lose the parent |
| EventLoop.Loop.Fire | src/iosvc_dequeue.c:7-66 | the registered handler is invoked next, with the given status and the remaining time; after that only what its callback cancels; all that it asks for has its effect; pending work shrinks; a calm handler takes nothing else away and never trips |
| EventLoop.Loop.RunScript | src/io_service.c:44-44 | any finite list of API calls keeps the structures and the invariants, adds no more work than it carries, and invokes only events that it cancels; without cancellations every free pair that it asks for holds the handler of the first call before a stop, with its time limit, posts and delayed handlers are taken exactly as asked before a stop, and nothing is taken away; cancellations or not, the calls take effect one after the other (`LoopScripts.Performs`), and everything that this callback and the handlers invoked meanwhile ask for has had its effect as long as the service runs; it stops a running service exactly if it or a handler it invokes says so; once the service is stopping it changes nothing but the clock, and trips exactly by a time-limited registration under the walk |
| EventLoop.Loop.RunSync | src/io_service.c:39-47 | all posted handlers have run and the loop terminates; nothing else is called but what they cancel; of callbacks that only post, delay, stop and reset, exactly the queued ones have run and then, in order, all that these post until one stops the service, whether or not their posts move the ring, and the run has not tripped |
| EventLoop.Loop.TimeoutFirst | src/io_service.c:199-238 | the entry with the least deadline over both heaps is invoked, not before its deadline; with a calm handler it trips only at a node that would lose its parent, and takes away nothing else |
| EventLoop.Loop.TimeoutDelayed | src/io_service.c:221-236 | running before popping is sound: the entry is still on top afterwards, exactly it is removed, and all that its handler asks for has its effect |
| EventLoop.Loop.TimeoutEvent | src/io_service.c:201-219 | EIO_TIMEOUT with remaining time 0; the node is looked up again, and removed if nothing is left on it |
| EventLoop.Loop.Answer | src/io_service.c:271-290 | the registered handler of a type is invoked with the entry's status, or had been cancelled; dispatch has called it once; for a registered type with a calm handler it does not trip while no descriptor has come or gone |
| EventLoop.Loop.Refuse | src/io_service.c:258-263 | one type of an invalid descriptor |
| EventLoop.Loop.Grant | src/io_service.c:276-290 | one type of a descriptor that may be ready |
| EventLoop.Loop.ServeInvalid | src/io_service.c:249-263 | every handler registered on an invalid descriptor is invoked with EIO_INVARG, once, unless cancelled before, reading first, then writing, then priority; handlers that keep to their descriptor never make it trip |
| EventLoop.Loop.ServeReady | src/io_service.c:271-290 | every ready type's handler is invoked with EIO_OK, once, unless cancelled before, and no other: priority first, then reading, then writing; without a ready type nothing happens; if handlers keep to their descriptor and every ready type is registered, it never trips |
| EventLoop.Loop.Examine | src/io_service.c:243-298 | one turn of the dispatch loop, with the index to go on with; under the same conditions it trips only if the emptied node would lose its parent, and takes nothing from other descriptors |
| EventLoop.Loop.Dispatch | src/io_service.c:240-301 | every handler registered at the start whose entry calls for it has been invoked with EIO_OK, or EIO_INVARG, unless a handler invoked before cancelled it; every such invocation is for an entry of the vector with its revents, none happens twice, those for one descriptor come in the order of its types, and without removals those for different descriptors in the order of the vector; the loop terminates; if handlers keep to their descriptor and every ready type is registered, all this holds unless an emptied node would lose its parent |
| EventLoop.Loop.Await | src/io_service.c:323-335 | the delay passed to poll() is computed from the least deadline and a clock reading taken after it; nothing but the clock and the revents changes |
| EventLoop.Loop.TopEventReady | src/io_service.c:171-189 | whether the revents of the top event's descriptor meet its mask |
| EventLoop.Loop.Overdue | src/io_service.c:343-346 | a timeout is delivered exactly if a deadline has passed that is not that of a ready event; orderly handlers stay so, and every ready type stays registered |
| EventLoop.Loop.OnReady | src/io_service.c:343-349 | a timeout, of exactly the least deadline, is delivered first exactly if a deadline has passed that is not that of a ready event; then everything that the reports of poll() call for has been called, and nothing else but what these handlers cancel; whatever was pending when poll() returned is told a remaining time between 0 and the requested one; with orderly handlers and all ready types registered it trips exactly at an emptied node that would lose its parent |
| EventLoop.Loop.PollOnce | src/io_service.c:323-350 | one poll: exactly the least deadline is timed out when the time limit is over, everything called for is dispatched when descriptors are ready, an error stops the service, and nothing else is called (`LoopRuns.Turned`); with orderly handlers and a poll() that returns as it should it trips exactly at an emptied node that would lose its parent |
| EventLoop.Loop.StopDelays | src/io_service.c:108-124 | the log grows by exactly one call with EIO_STOPPED per delayed handler, in array order, and the heap is cleared; it never trips, and nothing else changes but the clock |
| EventLoop.Loop.StopAsyncOps | src/io_service.c:80-100 | the log grows by exactly one call with EIO_STOPPED per registered event, in the order of the tree as stated for `Registry.Service.Walk`; it trips exactly if a registered handler schedules with a time limit |
| EventLoop.Loop.StopEvents | src/io_service.c:126-136 | the same, after which all structures are empty |
| EventLoop.Loop.PrepStop | src/io_service.c:107-137 | first the delayed handlers in array order, then the events in the order of the tree, and nothing is left; it trips exactly if a registered handler schedules with a time limit |
| EventLoop.Loop.Run | src/io_service.c:303-358 | when a started run returns without having tripped, tree, poll vector, heaps and queue are empty and every accepted handler has been invoked exactly once, posted ones in order; the queue is empty whenever poll() is called; between two polls exactly what the first called for has been called, the least deadline before the ready descriptors, and then only posted handlers, and calls with EIO_STOPPED come last (`LoopRuns.Paced`); nothing is taken that no callback asked for, and with EIO_OK all that any invoked callback asked for has had its effect; EIO_STOPPED is answered exactly if an invoked handler stopped the service or poll() failed, and EIO_OK means that no handler was stopped; a run that has not returned has polled in every round; an orderly run trips only at an emptied node that would lose its parent, by a time-limited registration under the walk of a stopping service, or after poll() has lapsed, and the first only with three descriptors or more |
| CBuffers.RingPush | src/cbuffer.c:49-56 | writing at the end and moving it on appends, on either side of the wrap |
| CBuffers.CBuffer.constructor | src/cbuffer.c:10-17 | a new buffer is empty |
| CBuffers.CBuffer.Empty | src/cbuffer.h:25-27 | true exactly when the sequence is empty |
| CBuffers.CBuffer.Front | src/cbuffer.h:29-31 | the first element of the sequence |
| CBuffers.CBuffer.Grow | src/cbuffer.c:24-47 | doubling keeps the sequence and unwraps it |
| CBuffers.CBuffer.Push | src/cbuffer.c:23-57 | appends, across wraparound and growth |
| CBuffers.CBuffer.Pop | src/cbuffer.h:33-38 | drops the first element |
| CBuffers.CBuffer.Clear | src/cbuffer.h:40-43 | empties the sequence |
| Semaphores.StepConsistent | src/io_semaphore.c:41-73 | every wait and signal keeps count, waiters and history consistent |
| Semaphores.ReleasesExactly | src/io_semaphore.c:41-73 | after any interleaving from any initial value, min(waits, max(0, init + signals)) handlers were released, and a positive count never coexists with a waiter |
| Semaphores.NewestFirst | src/io_semaphore.c:54-69 | after any history that leaves no permit, a wait and a signal release exactly that waiter, ahead of all older ones |
| Semaphores.WaitersNewestFirst | src/io_semaphore.c:54-69 | after any history the waiters stand in the reverse order of their waits |
| Semaphores.PermitLost | src/io_semaphore.c:41-45 | on a service that has stopped, a wait with a permit at hand loses both the permit and the handler |
| Semaphores.Semaphore.constructor | src/io_semaphore.c:16-27 | no waiters, the given count |
| Semaphores.Semaphore.Wait | src/io_semaphore.c:41-58 | the handler is posted exactly when the count was positive, otherwise it becomes the first of the waiters |
| Semaphores.Semaphore.Signal | src/io_semaphore.c:60-73 | one step of that history; the newest waiter is posted when one is released |
| Semaphores.Semaphore.Delete | src/io_semaphore.c:29-39 | all remaining waiters are posted, newest first: every handler ever waiting has been handed over once |
| AsyncRdwr.TurnedOk | src/async_rdwr.c:37-70 | one invocation keeps count, cursor, memory and wire consistent, and completes with exactly one call of the handler |
| AsyncRdwr.TransferLaw | src/async_rdwr.c:37-97 | for every sequence of partial transfers: moved plus left is the request, the cursor is start plus moved, one call exactly on completion, EIO_OK if and only if all of a non-empty request moved as consecutive chunks, no other memory touched |
| AsyncRdwr.NextTurnDecides | src/async_rdwr.c:37-70 | after any partial transfers, which turn ends the operation and with which code: the service's status, EIO_SYSERR, EIO_EOF, EIO_OK exactly when all has moved, or the refusal of the rest; and what was read is what the descriptor delivered, in order |
| AsyncRdwr.NothingRequested | src/async_rdwr.c:45-46 | a request for zero bytes ends with EIO_EOF |
| AsyncRdwr.RwCtx.constructor | src/async_rdwr.c:72-97 | the transfer starts with nothing moved, and is scheduled only if the service accepts it |
| AsyncRdwr.RwCtx.Transfer | src/async_rdwr.c:41-43 | read into, or write out of, the memory at the cursor |
| AsyncRdwr.RwCtx.RwImpl | src/async_rdwr.c:37-70 | one invocation, in place |
| AsyncRdwr.RwCtx.RwSomeImpl | src/async_rdwr.c:17-35 | one attempt and one call of the handler; the count is what was moved |

## Left out

- Registry.Service.Enqueue: requires that an accepted insertion does not start with a mixed rotation, because otherwise the write-back destroys the tree; `RbInsertion.WriteBackIff` is the exact condition.
- Registry.Service.SchedTimeout: the same, and a deadline that is not negative, as removal by the deadline -1 needs it; the heap entry that the source appends before enqueuing and pops on refusal is appended on acceptance only.
- Registry.Service.EnqueueFresh: the same as for Enqueue, which it is a part of.
- Registry.Service.CleanupEvt: requires that the extraction does not lose its parent; `RbExtraction.Extract` gives both directions.
- EventLoop.Loop.Run: is followed for any number of rounds, but no claim is made that a run ends, since `poll()` may never report anything; and nothing is claimed once a run is tripped.
- EventLoop.Loop.Cancel: is tripped by every change of the tree's shape during the callback, also by those that happen to leave the captured link intact.
- EventLoop.Loop.Dispatch: is tripped by every descriptor that comes or goes during a callback and is followed by a further type of the same entry, also when the captured link happens to stay intact.
- EventLoop.Loop.StopAsyncOps: takes the list of calls before the first of them; callbacks of a stopping service cannot change the nodes it is taken from.
- Node addresses are keys of a map; malloc returns an unused address, free removes the record. Colour and parent are separate fields, not one tagged word.
- Allocation failure (EIO_NOMEM), including the write-back of a freed node in that case; capacities of the growable arrays.
- Integers are unbounded: the cast of the elapsed time to int, overflow of the semaphore's count and of clock plus milliseconds.
- Pointers through which status and remaining time are reported: the values are in the log, a missing pointer makes no difference.
- `poll`, `read`, `write`, `clock_gettime` and `errno` are nondeterministic steps or parameters.
- A callback cannot react to the answers of its calls: its list of API calls is fixed, but arbitrary.
- `async_net.c`, `task_group.c`, `ioec_strerr.c`, `coroutine.h` and the destructor of the service: thin wrappers, a countdown, a name table, control-flow macros and freeing.
