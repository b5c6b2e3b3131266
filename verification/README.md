# A verified model of a small event library

The repository is a reduced libevent 1.4: an event base over a timer heap and epoll, signals,
buffered I/O with watermarks, a thread pool, and an echo server on top.  This project models
its state machines in Dafny 4.11 and proves what its design rests on: that the structures an
event can be on, the flags, the counters, the descriptor table and the kernel's registrations
never disagree; that timers, signals, jobs, wakeups and bytes are neither lost nor doubled;
and what exactly each call does.

`dafny verify dfyconfig.toml` checks everything.

## How it is laid out

| layer | files |
|---|---|
| time, sequences | `Timevals`, `Seqs` |
| events, their list links, tail queues with real links | `Events` |
| the timer heap, in its array | `HeapOrder` (order), `MinHeap` (array and back-indexes) |
| the epoll table and the kernel's registrations | `Epoll` |
| the base as a value: what every call makes of it | `BaseState`, `BaseInv`, `BaseEffects`, `BaseRuns` |
| the loops of the base as functions, and their laws | `Timeouts`, `ActivePass`, `PassHistory`, `Dispatch`, `DispatchOrder`, `Reinit`, `EventLoop`, `TurnEffects` |
| what becomes of the actions of signals | `SignalActions` |
| the base with its real lists, heap and tables | `EventBase`, `BaseLoops`, `DispatchLoops`, `Teardown`, `Clock`, `EventLoop` |
| handlers against the main loop | `Signals` |
| worker threads | `WorkQueue` |
| byte buffers, buffered I/O, the echo handler | `Evbuffer`, `Bufferevent`, `Echo` |

Code that changes things in place is modelled by classes and methods that do the same.  For
the event base the methods of `EventBase` are proved against the functions of `BaseState`
(the ghost field `view` is the base as a value); the laws are then proved about those
functions, over every state the invariant `Inv` allows and over every run.

`Inv` says, of every event: it has `EVLIST_INSERTED`, `EVLIST_ACTIVE`, `EVLIST_TIMEOUT`
exactly if it is on the inserted list, on the active queue of its own priority and on no
other, in the heap; nothing is listed twice; `event_count` and `event_count_active` are the
numbers of those entries (internal events left out of the first); the readers and writers of
the descriptor table are exactly the inserted I/O events; the kernel's registrations are the
ones the table stands for; the signal lists hold exactly the inserted signal events; and the
event on the self-pipe is inserted exactly if `ev_signal_added` is set.  In `EventBase.Valid`
the back-index of each event in the heap is its slot, and every link belongs to its list.

## What is assumed

* Timevals handed to the library, and the clock, are normalised; `timercmp`, `timeradd` and
  `timersub` are the macros of `<sys/time.h>`.  That deadlines then stay normalised is proved.
* `event_set` is called on new events and again on events that are on no structure, and
  `event_base_set` with the same base, with a descriptor `>= 0` for read and write events and a
  signal number in range for signal events; `EV_SIGNAL` is not combined with `EV_READ` or
  `EV_WRITE`.
* At most one inserted event exists for a descriptor and direction: `event_add` is called only
  when the slot the event wants is free.  A second one would overwrite the slot
  (`include/epoll.cpp:256`-263).
* The program does not add or delete the internal event, nor watch the self-pipe's descriptor
  for reading.  Priorities are below the number of active queues when `event_base_new` runs.
* Allocations and the kernel may refuse: `realloc`, `epoll_ctl` in `epoll_add` and
  `sigaction` are arbitrary answers in `Env`.  In runs of calls `epoll_ctl` accepts the requests
  of `epoll_del`, which are all legal; `BaseInv.DelExactly` says what a refusal would do.
  Installing a saved action succeeds.  A refused `malloc` or `realloc` before `sigaction` ends
  as a refused `sigaction` does.
* `ev_pncalls` points at a variable of `event_process_active` that is gone when it returns.  In
  the model it is the number of the pass it was set in; a write through it after that pass has
  ended changes nothing but the flag `wild`.  `EventLoop.LifeWild` says exactly which runs
  make one: what the other theorems say of the source holds up to there.
* A `short` keeps its argument modulo 2^16, since counting down to zero sees nothing else; an
  `int` that receives a `long` or `size_t` wraps at 2^32.  Other counters do not overflow.
* Callbacks are arbitrary finite sequences of calls of the API (`Op`), chosen beforehand as a
  script that is long enough and stays within this contract.
* `pthread_cond_signal` unblocks at least one waiting thread (IEEE Std 1003.1-2017,
  `pthread_cond_signal`); spurious wakeups may happen at any time.
* Handlers and the scan of `evsignal_process` interleave between atomic steps: the increment,
  the setting of the flag, the read and the subtraction are one step each.

Where the source disagrees with what one would expect, the model follows the source, and a
lemma says exactly when the expectation holds, with an input or run for which it does not:
`Clock.ClampedExactly` (a timer more than 2^31 milliseconds ahead),
`Bufferevents.HowmuchExactly` (watermarks of 2^31 and more), `Bufferevents.HeldUpIsTold` and
`Bufferevents.SilentStall` (a low mark above the high one),
`PassHistory.SelfDeleteStopsExactly` and `PassHistory.ReactivatedGoesOn` (an event that deletes
itself), `PassHistory.ActivationCount` (one that activates itself), `EventLoop.LifeWild` and
`PassHistory.TwoEventRun` (an event deleted again after its calls were cut short),
`SignalActions.OriginalActionReturns` and `SignalActions.ActionLost` (a refused self-pipe),
`BaseEffects.AddWatched` and `Bufferevents.AddWatches` (re-adding an event that a timeout has
made active), `WorkQueue.RemoveRightOnlyForHead`, `Evbuffers.DoublingEndsExactly`,
`Dispatch.RaiseFromEffect` (signal counts of events that are already active).

## Model

| member | source | states |
|---|---|---|
| Timevals.TimevalIsMicros | include/minheap.cpp:31-34 | on normalised timevals the macros are order, sum and difference of microseconds, and nothing leaves the range |
| Events.Tailq.InsertTail | include/event.cpp:904-919 | the four assignments append: links, head and tail pointer are those of the longer list |
| Events.Tailq.Remove | include/event.cpp:853-876 | the unlinking takes out exactly this element at any position, first, last and only one included, and heads, tails and neighbours are those of the rest |
| Events.Tailq.Closed | include/event.cpp:853-863 | bridging the gap at any position leaves a well-linked list of the others |
| HeapOrder.RiseStep | include/minheap.cpp:75-80 | moving the parent down leaves one possibly misplaced position, one level higher |
| HeapOrder.SinkStep | include/minheap.cpp:87-97 | moving the smaller child up leaves one possibly misplaced position, at that child |
| HeapOrder.FirstIsEarliest | include/minheap.cpp:46-49 | in a heap nothing is earlier than the first element |
| HeapOrder.ReplaceAt | include/minheap.cpp:128-137 | any deadline put in any slot of a heap is misplaced upwards exactly if the parent is later, else downwards at most |
| HeapOrder.RisingAtEnd | include/minheap.cpp:108 | a new last element is misplaced upwards at most |
| MinHeaps.MinHeap.ShiftUp | include/minheap.cpp:72-82 | every member ends in a slot it knows, in heap order; an element in its place is only stored |
| MinHeaps.MinHeap.ShiftDown | include/minheap.cpp:84-99 | the same going down, also when the hole is the slot just given up, where the final shift up moves nothing |
| MinHeaps.MinHeap.Reserve | include/minheap.cpp:51-70 | fails exactly if it must grow and may not; keeps the heap; a new array has 8 slots, or twice as many as before, or as many as are wanted if that is more |
| MinHeaps.MinHeap.Push | include/minheap.cpp:101-110 | adds exactly this event, or fails for want of memory and changes nothing |
| MinHeaps.MinHeap.Pop | include/minheap.cpp:112-122 | takes out exactly one event, none of the others being earlier, and sets its index to -1 |
| MinHeaps.MinHeap.Erase | include/minheap.cpp:124-142 | takes out exactly this event, wherever it is, and keeps heap order and every other index; says -1 for an event that is in no heap |
| MinHeaps.MinHeap.OpensAt | include/minheap.cpp:126-137 | giving the erased slot to the last event calls for the right one of the two shifts, also if it is the last event that goes |
| MinHeaps.MinHeap.Top | include/minheap.cpp:46-49 | an earliest member, or nothing exactly if the heap is empty |
| MinHeaps.PopAll | include/minheap.cpp:112-122 | repeated pops give every event once, in the order of the deadlines |
| Epoll.GrownAt | include/epoll.cpp:84-108 | growing keeps every slot, leaves new ones empty and makes room for the descriptor, by doubling as often as it takes and no oftener |
| Epoll.DoubledExactly | include/epoll.cpp:84-95 | the new length is the old one doubled until it is beyond the descriptor, and at most twice that |
| Epoll.AddAgrees | include/epoll.cpp:228-264 | the ADD or MOD issued is legal; accepted, it enters the event and keeps table and kernel in agreement; refused, no slot changes and only the table may have grown; and when it is accepted |
| Epoll.DelAgrees | include/epoll.cpp:284-328 | the MOD or DEL issued is legal; only the event's directions are cleared; the agreement survives exactly if the kernel accepts |
| Epoll.DelUndoesAdd | include/epoll.cpp:209-329 | deleting what was added into free sides restores slots and registrations |
| Epoll.EpollTable.Recalc | include/epoll.cpp:84-108 | the doubling loop ends, and table and failure are those of the model |
| Epoll.EpollTable.Add | include/epoll.cpp:209-265 | array and kernel change as the function PollAdd says, result included |
| Epoll.EpollTable.Del | include/epoll.cpp:267-329 | array and kernel change as the function PollDel says, result included |
| BaseState.Int32 | include/epoll.cpp:120 | what an int keeps of a wider number: the same modulo 2^32, and the number itself if it fits |
| BaseInv.QInsertCore | include/event.cpp:886-929 | putting an event on a structure it is not on keeps flags, lists and counters in step |
| BaseInv.QRemoveCore | include/event.cpp:840-884 | and so does taking it off one it is on |
| BaseInv.DelInv | include/event.cpp:701-739 | event_del keeps the invariant of the whole base, succeeds, and clears exactly the event's three queue flags, whenever the kernel accepts what epoll_del asks |
| BaseInv.DelExactly | include/event.cpp:701-739 | whatever the kernel answers: event_del returns 0, and the invariant holds, exactly if there was nothing to ask it or it accepted; a refusal costs only the registration |
| BaseInv.AddInv | include/event.cpp:637-699 | event_add keeps the invariant, whatever memory and kernel refuse, the nested event_add for the first signal included |
| BaseInv.MakeActiveInv | include/event.cpp:741-753 | event_active keeps the invariant, for active and idle events |
| BaseInv.PrioritySetInv | include/event.cpp:592-605 | event_priority_set keeps the invariant: it refuses active events, whose queue it would falsify |
| BaseInv.SelfPipeInsertInv | include/signal.cpp:203-211 | the internal event's insertion, accepted or refused, keeps the invariant |
| BaseInv.SigEnterInv | include/signal.cpp:182-220 | so does the insertion of a signal event, through all its failures |
| BaseInv.SlotsJoin | include/epoll.cpp:228-264 | an accepted event becomes the reader and writer of its descriptor and displaces nobody |
| BaseInv.SlotsLeave | include/epoll.cpp:284-328 | a deleted event leaves its slots to nobody and other slots alone, and its request to the kernel is accepted |
| BaseRuns.FreshInv | include/event.cpp:82-127 | a new base satisfies the invariant |
| BaseRuns.FreshContents | include/event.cpp:82-127 | what it holds: as many queues as asked for, nothing on any structure, nothing registered, no signal taken over |
| BaseRuns.AttachInv | include/event.cpp:559-590 | event_set and event_base_set keep it, of a new event and again of one that is on no structure |
| BaseRuns.RunInv | include/event.cpp:592-753 | every run of calls within the contract keeps it |
| BaseRuns.EveryRunInv | include/event.cpp:592-753 | so it holds after every run from the creation of a base |
| BaseEffects.DelEffect | include/event.cpp:701-739 | event_del takes the event off everything, every other entry keeps its place, and the running counter is cleared exactly if the event had calls left to cancel |
| BaseEffects.AddEffect | include/event.cpp:637-699 | for I/O and timer events: event_add fails exactly for want of memory or by the kernel's refusal, then leaving every queue alone; else the event's flags, deadline and places are as stated and nothing else moves |
| BaseEffects.DelUndoesAdd | include/event.cpp:637-739 | for I/O and timer events: event_del after event_add restores events, lists, heap and counters; only the deadline stays written |
| BaseEffects.DelUndoesAddInBackend | include/epoll.cpp:209-329 | for I/O events: and it restores every slot, the kernel's registrations and the signal lists |
| BaseEffects.SignalAddEffect | include/signal.cpp:182-220 | for signal events: event_add fails exactly for want of memory for the deadline, if the first event of a signal meets a refused sigaction, or if the first of all is refused the self-pipe; else the inserted list has gained the self-pipe's event, if it was missing, and this one |
| BaseEffects.DelUndoesSignalAdd | include/signal.cpp:182-249 | for signal events: event_del after event_add restores lists, heap and the actions of all signals; the self-pipe's event stays, if it was added for the purpose |
| BaseEffects.AddWatched | include/event.cpp:663-696 | after event_add the descriptor is watched or the callback due exactly unless an activation by a timeout was taken back from an event that is not inserted |
| BaseEffects.Registered | include/epoll.cpp:209-329 | in every state the invariant allows the kernel watches a descriptor for input exactly while an event is inserted that reads it, for output exactly while one writes it, and no other |
| BaseEffects.PrioritySetEffect | include/event.cpp:592-605 | event_priority_set succeeds exactly for an event that is not active and a priority from 0 to below the number of queues; it assigns that priority then, and changes nothing else in any case |
| BaseEffects.PriorityDecides | include/event.cpp:592-753 | after it event_active appends the event to the queue of that priority and touches no other |
| BaseEffects.ActiveEffect | include/event.cpp:741-753 | event_active of an idle event: its reason and, modulo 2^16, the count it is given, the end of the queue of its priority, and nothing else |
| BaseEffects.ActiveAgain | include/event.cpp:743-747 | event_active of an active event adds a reason and changes nothing else |
| Timeouts.ExpireInv | include/event.cpp:833-836 | expiring one event keeps the invariant |
| Timeouts.ExpireEffect | include/event.cpp:833-836 | it leaves the event active only, for its timeout, with one call, last in its queue |
| Timeouts.ServesExactly | include/event.cpp:827-837 | the loop meets each due event once, no other, in the order of the deadlines |
| Timeouts.ExpireAllEffect | include/event.cpp:827-837 | expiring a list of events leaves each queue with its other entries in order and its share of the list behind them |
| Timeouts.TimeoutProcessExact | include/event.cpp:816-838 | both together: the heap keeps exactly the later deadlines, and the invariant holds |
| ActivePass.FirstQueue | include/event.cpp:306-313 | the queue served is the first that is not empty |
| ActivePass.ServeInv | include/event.cpp:317-328 | the event served is the head of its queue; unless persistent it is off every structure when its first call starts |
| ActivePass.CallsInv | include/event.cpp:329-338 | the invariant holds through all calls of one event |
| ActivePass.StepCell | include/event.cpp:682-722 | a call of the API touches the running counter exactly if it deletes an event with calls left whose ev_pncalls points at it, and then clears it; it writes elsewhere exactly if it deletes one whose pointer dangles |
| ActivePass.CallsExactly | include/event.cpp:327-338 | a loop that ends of itself made exactly ev_ncalls calls of its event if and only if no callback stopped the repeats |
| ActivePass.PassFifo | include/event.cpp:317-339 | a pass that ends of itself empties its queue, having served its events in order, less some that callbacks removed, and then only events that callbacks activated |
| ActivePass.PassServesAll | include/event.cpp:317-339 | if callbacks remove none of them, all are served, in order |
| PassHistory.StepCounts | include/event.cpp:559-753 | only event_active of an idle event and event_set touch ev_ncalls and ev_pncalls outside a pass, and both set the pointer to NULL |
| PassHistory.SelfDeleteStopsExactly | include/event.cpp:719-751 | a callback that deletes its own event, in any of its calls and at any point of it, stops the calls that are left exactly if no callback of the event has activated it again or set it up anew before; and then that call is the last |
| PassHistory.ReactivatedGoesOn | include/event.cpp:719-751 | a callback that activates its event and then deletes it: the calls go on to the end |
| PassHistory.ActivationCount | include/event.cpp:327-338 | whatever else its callbacks do, an event that activates itself again in call i keeps the new count exactly if i is its last call, and else what remained of the old one |
| PassHistory.NoCallsDue | include/event.cpp:327-329 | an event left with a count of 0 is served without a call |
| PassHistory.CallsCounts | include/event.cpp:327-338 | the repeats of one event change no other event's pointer and count, unless a callback renews them, and leave their own event what remained of the counter |
| PassHistory.StaleAfterPass | include/event.cpp:299-340 | when event_process_active returns, the events whose ev_pncalls dangles with calls left are exactly those whose repeats it cut short and those that were so before and were not served, less those activated or set up since |
| PassHistory.WildInPass | include/event.cpp:719-722 | a pass writes through a dangling ev_pncalls exactly if a callback deletes an event that was stale when the pass began and has not been renewed since |
| PassHistory.WildInProgram | include/event.cpp:719-722 | and calls outside a pass do so exactly if they delete a stale event |
| PassHistory.DeleteStealsCalls | include/event.cpp:719-722 | an event that has deleted itself in a call that was not its last is deleted once more in a call of the next: that one loses its remaining calls |
| PassHistory.TwoEventRun | include/event.cpp:559-753 | a run of a new base that comes to this: two events with two calls each get one call each |
| PassHistory.PassCalls | include/event.cpp:317-339 | the calls of a pass are its served events in order, each as often as it was called |
| PassHistory.EveryCallMade | include/event.cpp:299-340 | and if no callback deletes a served event, each is called exactly ev_ncalls times |
| PassHistory.ActiveIsCalled | include/event.cpp:299-340 | an active event on the queue that is served is served with the count it has, and called that often if no served event is deleted; one of another priority waits on with its count, unless callbacks take it off |
| PassHistory.ActivatedIsCalled | include/event.cpp:741-753 | an idle event that event_active gives n calls, n from 0 to 65535, is called exactly n times when its queue is served undisturbed |
| PassHistory.RunBroken | include/event.cpp:373-381 | of all calls only event_base_loopbreak sets the break flag, and none clears it |
| PassHistory.LoopbreakEndsPass | include/event.cpp:329-338 | a pass is broken exactly if its last callback called event_base_loopbreak; no callback before it did, and none runs after it |
| PassHistory.CallbackMoves | include/event.cpp:592-753 | a callback that sets the priority of an idle event and activates it appends it to the queue of the new priority |
| Dispatch.RaiseEffect | include/signal.cpp:272-276 | one event of a caught signal: its fields, the signal list, the invariant |
| Dispatch.RaiseAllEffect | include/signal.cpp:269-277 | the loop raises each event of the list once although the list shrinks, and leaves the persistent ones on it, in order |
| Dispatch.RaiseFromEffect | include/signal.cpp:252-280 | exactly the events inserted for a caught signal become active for it; the count reaches those that were not active, or were deleted first |
| Dispatch.ReportAllEffect | include/epoll.cpp:147-190 | each event becomes active for exactly the reasons reported for it, in whatever order and number, with one call; the table is untouched |
| Dispatch.ReasonsExactly | include/epoll.cpp:154-189 | a reason is reported exactly if the event is inserted for it and some report names its descriptor with that direction, an error or a hang-up |
| Dispatch.AnswersExactly | include/epoll.cpp:127-206 | both together, event by event and field by field: a caught signal gives its count, a reported descriptor its reasons and one call, an active event keeps its count, and any other event is left alone |
| DispatchOrder.ReportOrder | include/epoll.cpp:147-190 | each queue gains the reported events that were idle, in the order of the reports, the reader of a report before the writer |
| DispatchOrder.RaiseOrder | include/signal.cpp:260-279 | each queue loses the events that are deleted and gains the raised ones by signal number and, within a signal, in the order they were added |
| EventBases.EventBase.constructor | include/event.cpp:82-127 | the objects of a new base agree with the fresh state |
| EventBases.EventBase.InsertList | include/event.cpp:886-920 | event_queue_insert on the real lists is QInsert; the branch for an event already there is never taken |
| EventBases.EventBase.RemoveList | include/event.cpp:840-877 | event_queue_remove on the real lists is QRemove |
| EventBases.EventBase.InsertTimer | include/event.cpp:921-925 | the unchecked min_heap_push finds a reserved slot and cannot fail |
| EventBases.EventBase.RemoveTimer | include/event.cpp:878-880 | min_heap_erase through the event's own index is QRemove |
| EventBases.EventBase.ReserveOne | include/event.cpp:654-661 | the slot is reserved, or nothing has changed |
| EventBases.EventBase.SignalAdd | include/signal.cpp:182-220 | evsignal_add on the real lists, with its nested event_add, is SigAdd; the action saved is the one in force, also if that is evsignal_handler itself |
| EventBases.EventBase.SignalDel | include/signal.cpp:222-249 | evsignal_del on the real lists is SigDel; with the last event the saved action is installed again |
| EventBases.EventBase.EventAdd | include/event.cpp:637-699 | event_add on the real base is Add, result included |
| EventBases.EventBase.EventDel | include/event.cpp:701-739 | event_del on the real base is Del, result included, also if the kernel refuses |
| EventBases.EventBase.EventActive | include/event.cpp:741-753 | event_active on the real base is MakeActive; the event is active, and its ev_res and ev_ncalls are the arguments, or the old count and the reasons together |
| EventBases.EventBase.EventPrioritySet | include/event.cpp:592-605 | event_priority_set on the real base is PrioritySet; it says 0 and sets ev_pri exactly for an event that is not active and a priority that has a queue |
| EventBases.EventBase.Attach | include/event.cpp:580-590 | event_base_set of an initialised event makes it known, or known again, with half the number of queues as its priority, and touches nothing else; it refuses others |
| EventBases.EventBase.SetUp | include/event.cpp:559-590 | event_set and event_base_set on the real base, of a new event or again of an idle one, is AttachTo; every field is as stated |
| EventBases.EventBase.EventBaseLoopbreak | include/event.cpp:373-381 | only the break flag changes |
| BaseLoops.TimeoutProcess | include/event.cpp:816-838 | the loop ends, and expires what Serves says, in that order |
| BaseLoops.Invoke | include/event.cpp:333 | a callback on the real base is Run |
| BaseLoops.Repeat | include/event.cpp:329-338 | the repeats of one event on the real base are Calls |
| BaseLoops.ServeQueue | include/event.cpp:317-339 | the outer loop on the real base is Pass |
| BaseLoops.ProcessActive | include/event.cpp:299-340 | event_process_active on the real base is Pass over the first queue that is not empty, with a counter of its own; the assert holds |
| DispatchLoops.RaiseList | include/signal.cpp:269-277 | walking the real list while deleting from it is RaiseOne |
| DispatchLoops.ProcessSignals | include/signal.cpp:252-280 | evsignal_process is RaiseFrom, and drains every counter from 1 on |
| DispatchLoops.ActivateReady | include/epoll.cpp:147-190 | the loop over the kernel's answers is ReportAll |
| Teardown.DelPending | include/event.cpp:146-150 | deleting a pending event makes it, and no other, not pending |
| Teardown.NothingLeft | include/event.cpp:181-198 | without pending events all lists, counters and registrations are empty |
| Teardown.DrainInserted | include/event.cpp:143-152 | the first loop ends and leaves at most the internal event, each deletion counted |
| Teardown.DrainTimers | include/event.cpp:153-157 | the second loop ends with an empty heap |
| Teardown.DrainActive | include/event.cpp:161-170 | the third loop ends and leaves at most the internal event on its queue |
| Teardown.Dealloc | include/signal.cpp:282-296 | the internal event goes, and every saved action is installed again, each for its own signal |
| Teardown.EventBaseFree | include/event.cpp:129-202 | all closing asserts hold, both counters are 0, nothing is registered, the number reported is that of the events that were pending, and each signal has the action saved for it, or the one it had |
| SignalActions.StepActions | include/signal.cpp:60-99 | one call keeps the original action of a signal in force or saved, except an event_add that is refused the self-pipe after it has installed the handler; after that the handler stays for good |
| SignalActions.CallsActions | include/event.cpp:329-338 | so do the calls of an event, according to what its callbacks add |
| SignalActions.LifeActions | include/event.cpp:389-481 | and any sequence of turns, ends of the loop and calls by the program, with the deletions for caught signals, deadlines and served events |
| SignalActions.OriginalActionReturns | include/signal.cpp:60-99 | over the life of a base a signal without events has its original action exactly if no such event_add was refused |
| SignalActions.ReinitBorrows | include/event.cpp:225-240 | an event_reinit that succeeds takes over exactly the signals that have events, with the original actions saved, and puts all others back |
| SignalActions.ActionLost | include/signal.cpp:182-249 | a run in which it has not: an event_add refused, then repeated, then deleted |
| Reinit.SelAddGrows | include/event.cpp:234-240 | one turn of the loop lengthens the list it walks only when ev_signal_added is set by it, hence once |
| Reinit.SelAddRel | include/event.cpp:234-240 | what the loop does is an ordinary insertion into the state the backend has caught up with |
| Reinit.AgainHarmless | include/epoll.cpp:228-264 | entering the internal event a second time changes neither table nor kernel |
| Reinit.ReaddInv | include/event.cpp:234-240 | the loop ends with everything inserted again and the invariant restored |
| Reinit.EventReinitExact | include/event.cpp:204-243 | with memory and kernel willing event_reinit returns 0, the new table, registrations and signal lists are those of the inserted events, the new internal event is as set up, and nothing else of the program has changed |
| Reinit.RefusalIsTold | include/event.cpp:234-242 | if the kernel refuses any read or write event it returns -1, whatever comes after |
| Clock.ShiftInv | include/event.cpp:806-812 | moving all pending deadlines keeps the invariant |
| Clock.ShiftOrdered | include/event.cpp:806-812 | moving them by the same normalised offset keeps them in heap order |
| Clock.ShiftHeap | include/event.cpp:806-812 | the loop does so in place and the heap is valid after it |
| Clock.TimeoutCorrect | include/event.cpp:786-814 | on the real base: nothing under a monotonic or advancing clock, else that shift |
| Clock.DeadlinesKept | include/event.cpp:786-814 | every event stays as far from its deadline as it was, to the microsecond, and is due exactly when it would have been; deadlines stay normalised |
| Clock.TimeoutNext | include/event.cpp:755-784 | the time to the first deadline, zero if it has passed, nothing without a timer |
| Clock.RoundedUp | include/epoll.cpp:118-121 | milliseconds are the exact ceiling |
| Clock.ClampedExactly | include/epoll.cpp:116-125 | the wait is the clamped ceiling exactly if narrowing loses nothing or leaves a number beyond the clamp |
| Clock.DistantTimerBlocks | include/epoll.cpp:116-125 | a timer 2147484 seconds ahead gives a negative timeout, which waits for ever |
| Clock.SleepBound | include/epoll.cpp:116-125 | the wait is 0 exactly if an event is due, and else ends at the deadline or less than a millisecond after |
| Clock.WaitExactly | include/epoll.cpp:116-125 | the argument of epoll_wait for every base and clock: -1 without a timer, else the milliseconds to the first deadline rounded up, at most 2100000, 0 exactly if it has passed, as long as they fit an int, and what the int makes of them if not |
| Clock.WaitProgress | include/event.cpp:431-461 | once the clock has advanced by the wait, timeout_process leaves no event with the first deadline or an earlier one, from any heap that has lost events since |
| Clock.RunNormal | include/event.cpp:690-691 | deadlines stay normalised over every run |
| EventLoop.TurnInv | include/event.cpp:404-475 | one turn keeps the invariant; after its timers nothing due is left; after its callbacks the queue served is empty unless the loop was broken |
| EventLoop.PassInv | include/event.cpp:299-340 | a pass keeps the invariant however it ends, and is cut short only by a broken loop |
| EventLoop.LifeInv | include/event.cpp:389-481 | the invariant of lists, flags, counters, heap and tables holds after any sequence of turns, ends of the loop and calls by the program; writes through a dangling ev_pncalls are recorded, and LifeWild says when they happen |
| EventLoop.WildInTurn | include/event.cpp:431-474 | a turn writes through a dangling ev_pncalls exactly if it deletes a stale event: for a caught signal, for a timeout, or in a callback |
| EventLoop.LifeWild | include/event.cpp:389-481 | over the life of a base every write through ev_pncalls goes to the counter of a running pass if and only if no stale event is ever deleted |
| EventLoop.TurnProgress | include/event.cpp:431-461 | for a whole turn: if the clock has advanced by the wait, no event with the first deadline or an earlier one is left in the heap when callbacks begin |
| EventLoop.EpollDispatch | include/epoll.cpp:127-206 | epoll_dispatch behind epoll_wait on the real base: every event is answered as AnswersExactly says, whatever epoll_wait returned, and the counters of the signals are drained exactly if they were looked at |
| EventLoop.Iterate | include/event.cpp:412-474 | one turn on the real base: that a broken loop ends and the flag is cleared, when it stops for want of events or by a failure, what epoll_wait is asked to wait, to the millisecond, and that the state after it is Turned; timeout_correct and timeout_next read the clock separately |
| EventLoop.CorrectedMoves | include/event.cpp:786-814 | of the turn: a clock set back takes every pending deadline with it by the same microseconds, and else none moves |
| TurnEffects.TurnAnswers | include/event.cpp:431-461 | when the callbacks of a turn begin, every event is, field by field, due for its passed deadline alone, or what epoll_dispatch owes it |
| TurnEffects.OwedIsCalled | include/event.cpp:431-474 | from the kernel's answer to the calls: an event that is reported, caught, due or waiting is called in this turn exactly as often as it is owed, if its priority is the first with anything to run and callbacks leave it alone; else it waits on with its count |
| TurnEffects.OwedIsServed | include/event.cpp:463-466 | and if any event is owed a call some queue is served, of its priority or a more urgent one |
| Signals.StepSafe | include/signal.cpp:18-35 | every atomic step of handlers and scan keeps counts conserved and pending counts announced |
| Signals.NoSignalLost | include/signal.cpp:18-35 | over every interleaving delivered == counted + passed on, and outside a scan a count above zero has set the flag or will |
| Signals.ScanDrains | include/signal.cpp:252-280 | a scan nobody cuts into passes on exactly what was counted and leaves the flag clear |
| Signals.EveryArrivalPassedOn | include/signal.cpp:252-280 | after any run such a scan has passed on every arrival of a signal, each once |
| WorkQueue.StepConserved | include/workqueue.cpp:24-51 | every step keeps each added job in exactly one place |
| WorkQueue.StepNoLostWakeup | include/workqueue.cpp:24-51 | every step keeps the bound on waiting jobs while a worker sleeps |
| WorkQueue.EveryJobOnce | include/workqueue.cpp:24-51 | over every interleaving an added job is once, and in one of: waiting, held by a worker, finished |
| WorkQueue.NoWakeupLost | include/workqueue.cpp:110-116 | over every interleaving, while a worker sleeps and no signal is outstanding, waiting jobs do not outnumber awake workers without a job |
| WorkQueue.NewestIsTaken | include/workqueue.cpp:6-45 | over every interleaving a worker takes the job that was added last of those that wait |
| WorkQueue.Wakeups | include/workqueue.cpp:33 | a signal and a spurious wakeup put exactly their sleepers back in line for the mutex and touch no job |
| WorkQueue.StepUsesUp | include/workqueue.cpp:19-52 | every step but a new job or a spurious wakeup decreases a measure |
| WorkQueue.RunUsesUp | include/workqueue.cpp:19-52 | so runs without those are bounded |
| WorkQueue.QuietMeansFinished | include/workqueue.cpp:19-52 | and where they end every added job has finished |
| WorkQueue.JobList.Add | include/workqueue.cpp:6-10 | LL_ADD puts the node in front |
| WorkQueue.JobList.Remove | include/workqueue.cpp:12-17 | LL_REMOVE takes out the head; any other node stays and loses its successors |
| WorkQueue.RemoveRightOnlyForHead | include/workqueue.cpp:12-17 | so it is right exactly for the head |
| Evbuffers.DoublingEndsExactly | include/buffer.cpp:55-58 | the doubling loop ends exactly for needs up to 2^63 |
| Evbuffers.ReadSizeBounds | include/buffer.cpp:131-151 | never more than allowed, never nothing, never beyond what is there or four times the array |
| Evbuffers.ReadSizeExactly | include/buffer.cpp:131-151 | the size asked for, in every case of FIONREAD, limit and array |
| Evbuffers.Evbuffer.Align | include/buffer.cpp:13-18 | moving the bytes to the front keeps them |
| Evbuffers.Evbuffer.Expand | include/buffer.cpp:36-72 | contents kept, room made on both branches, fails exactly if it must grow and may not; sizes stay powers of two |
| Evbuffers.Evbuffer.Add | include/buffer.cpp:74-93 | appends exactly the data, or nothing; and when the callback is due |
| Evbuffers.Evbuffer.Remove | include/buffer.cpp:95-105 | what comes out, followed by what stays, is what was held |
| Evbuffers.Evbuffer.Drain | include/buffer.cpp:107-125 | drops exactly the first bytes; and when the callback is due |
| Evbuffers.Evbuffer.Read | include/buffer.cpp:127-174 | takes exactly the least of that size, what waits and what read is good for, and appends it; fails exactly if read does or memory is refused that is needed |
| Evbuffers.Evbuffer.Write | include/buffer.cpp:176-191 | drops exactly what was written, as much as write takes of all that is held |
| Evbuffers.Play | include/buffer.cpp:36-125 | over any run: taken ++ held == held before ++ added |
| Bufferevents.HowmuchExactly | include/evbuffer.cpp:42-45 | the test on howmuch is right exactly if the difference modulo 2^32 keeps its sign in an int |
| Bufferevents.HugeMarkSuspends | include/evbuffer.cpp:42-51 | a high mark of 2^31 suspends reading of an empty buffer |
| Bufferevents.AddWatches | include/evbuffer.cpp:13-26 | after bufferevent_add the descriptor is watched or the callback due, exactly unless the activation of a timeout was taken back |
| Bufferevents.OnABase | include/evbuffer.cpp:13-26 | the fields of the two events after event_add, event_del, a timeout and a report of epoll are those an event base leaves |
| Bufferevents.HeldUpIsTold | include/evbuffer.cpp:74-90 | a buffer that reaches the high mark is always full enough for readcb exactly if the low mark is not above the high one |
| Bufferevents.Bufferevent.ToldBeforeHeldUp | include/evbuffer.cpp:74-90 | while the marks in force are in order reading is never held up over bytes the program was not told of |
| Bufferevents.SilentStall | include/evbuffer.cpp:42-90 | for every low mark above the high one, bytes arriving one by one stop reading for good without one call of readcb |
| Bufferevents.Bufferevent.constructor | include/evbuffer.cpp:155-187 | a new bufferevent: only writing enabled, no marks, no timeouts, both buffers empty and both events idle |
| Bufferevents.Bufferevent.Readcb | include/evbuffer.cpp:29-99 | for all marks: how many bytes arrive, never past the mark if howmuch is right; which function of the program is called and with which causes; and the event and the callback as they are left in each case |
| Bufferevents.Bufferevent.FireRead | include/evbuffer.cpp:29-99 | the same from the moment event_process_active takes the event off |
| Bufferevents.Bufferevent.ReadReady | include/event.cpp:741-753 | a report of epoll makes the read event due and keeps all that holds of a bufferevent |
| Bufferevents.Bufferevent.ReadExpires | include/event.cpp:833-836 | so does its deadline |
| Bufferevents.Bufferevent.PressureCb | include/evbuffer.cpp:365-377 | below the mark it resumes reading that is enabled, if event_add gets what it asks, and uninstalls itself, else it changes nothing |
| Bufferevents.Bufferevent.SetWatermark | include/evbuffer.cpp:379-393 | for all marks: the new marks keep both sides alive, resume or hold up reading, and say whether they were set fairly |
| Bufferevents.Bufferevent.Enable | include/evbuffer.cpp:303-324 | returns 0 and enables exactly if no event_add is refused; a direction is then watched or due unless event_add took back a timeout's activation; a read event added before the refusal stays |
| Bufferevents.Bufferevent.Disable | include/evbuffer.cpp:326-347 | the directions are off and not enabled, and the other side stays alive |
| Bufferevents.Bufferevent.SetTimeout | include/evbuffer.cpp:350-363 | events that are inserted, or active for their descriptor, get the new deadlines unless refused, others keep theirs |
| Bufferevents.Bufferevent.Writecb | include/evbuffer.cpp:101-152 | sends as much of the output as write takes; what is left is added again, result ignored; errors, their causes and callbacks in each case |
| Bufferevents.Bufferevent.WriteData | include/evbuffer.cpp:255-271 | appends to the output and adds the write event if writing is enabled |
| Bufferevents.Bufferevent.WriteBuffer | include/evbuffer.cpp:273-283 | moves the whole buffer, or nothing, for a buffer that is not the bufferevent's |
| Bufferevents.Bufferevent.WriteInput | include/evbuffer.cpp:273-283 | the same of its own input buffer, which resumes reading |
| Bufferevents.Bufferevent.ReadData | include/evbuffer.cpp:285-300 | gives the first bytes of the input, and resumes reading when the mark is left |
| Echo.BufferedOnRead | src/mainsvrd.cpp:95-116 | the chunk loop ends with the input empty and every byte of it passed on in order; a refused bufferevent_write_buffer keeps the bytes in the intermediate buffer and says so |
| Echo.Session | src/mainsvrd.cpp:95-116 | over any sequence of reads, partial writes, timeouts and refusals until the client is closed, what was sent is a beginning of what was received, and the rest is in the three buffers in order |
| Echo.Echoed | src/mainsvrd.cpp:95-116 | bytes that arrive at an idle connection are all sent back once the read and the write event it causes have been served |

## Left out

- Sockets, `accept`, `fcntl`, logging, the real `epoll_wait`, `read`, `write` and `sigaction`: their answers are arbitrary parameters.
- Freeing of memory, and use of freed objects: `EventBaseFree` ends where the freeing begins.
- `event_base_priority_init` after creation: it can leave events with a priority that no queue has.
- `event_gotsig` and `event_sigcb`: nothing in the library sets the first. `event_gotterm`, and the end of a loop that was asked for one turn or not to block, are left to the caller of `Iterate`.
- `event_pending`'s conversion to wall-clock time, `event_once`, the wrappers for the current base: thin.
- `detect_monotonic` and the clock cache of `gettime`: clocks are parameters, one for each place that reads them.
- Re-doubling of epoll's result array, and the bytes on the self-pipe.
- BaseRuns.RunInv: is about runs in which the kernel accepts what `epoll_del` asks; one refusal, told by the result -1, falsifies the invariant exactly as `BaseInv.DelExactly` says.
- Dispatch.RaiseFromEffect: promises the number of calls only for events that were not active, because `event_active` drops the count for others.
- Signals.NoSignalLost: is about the counters, which do not overflow in the model, and not about callbacks.
- Reinit.EventReinitExact: is on values and not on a real base, because the base's internal event is a constant of the class `EventBase`; that the loop ends holds without its precondition on memory and kernel.
- WorkQueue.QuietMeansFinished: covers the time before `workqueue_shutdown`, after which a worker leaves its loop still holding the mutex (`include/workqueue.cpp:36`-39).
- WorkQueue: the threads share a sequence of jobs; that the pointers of LL_ADD and LL_REMOVE implement it is proved apart, for the class `JobList`.
- Bufferevents.Bufferevent.WriteBuffer: excludes the bufferevent's own output buffer, whose array `evbuffer_add` may move or free while it is read, and then drains all of it; its input buffer is `WriteInput`.
- Bufferevents.Bufferevent.FireRead: the two events of a bufferevent are values that change as `Bufferevents.OnABase` proves an event base changes them; several bufferevents on one base are not put together.
- `bufferevent_setfd`, `bufferevent_priority_set`, `bufferevent_base_set`, `bufferevent_free`: the first leaves its events un-added on purpose, the others forward.
- Evbuffers.Evbuffer.Expand: requires a need of at most 2^63 bytes, because beyond it the doubling loop does not end (`Evbuffers.DoublingEndsExactly`).
- Echo.BufferedOnRead: assumes that adding to the intermediate buffer succeeds, because the source ignores its result, and that the input is shorter than 2^31 bytes, because its length is kept in an int.
- The rest of `src/mainsvrd.cpp`: set-up and accepting of connections.
