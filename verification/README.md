# Verified models of the dthread library

dthread runs POSIX-style threads across the ranks of an MPI job.  These Dafny
modules model its hard parts and prove what they rely on.

**The thread-lifecycle protocol.**  `Machine` is a transition system over N
ranks.  Each manager turn (`process_req`, `process_mqe`, the shutdown test at the
top of the main loop) and each act of an application thread is one step; between
two ranks messages keep their order.  `Life`, `Calls`, `Order`, `Joins` and
`Shutdown` are the parts of the invariant, put together in `Invariant`.
`AppSteps`, `RequestSteps`, `MessageSteps`, `CreateSteps` and `TerminateSteps`
show that each step keeps it.  `Protocol` states what follows for every reachable
state, `Histories` what follows for whole runs, `Waits` what a JOINWAIT waits for,
`Progress` that nothing is lost and no blocked call is stuck, `Delivery` how far a
call is from its answer, `Liveness` that no thread is stuck.  `Outcomes` states what
each message comes to, `Answers` why every call ends as it does, `Results` and
`Endings` which value and final state a thread leaves, `Cancels` that a cancellation
finds its thread.  `ZombieRun` and `ForgedRun` are complete runs, step by
step.  `Router` is the broadcast tree, `Sequence` the numbering, `Tables` the slot
search.

**Shared memory.**  `Bsd` specifies the power-of-two allocator on values and
`BsdHeap` shows that the in-place code, with headers and free-list links in the
arena's bytes (`Bytes`), does what the specification says.  `BreakHeap` does the
same for the break allocator.  `Segment` is the segment layout, `Umap` the loop in
which all ranks agree on a mapping, `Refs` the references ranks exchange.

**Queues and sends.**  `Queues` is the queue lock's state with every critical
section, first on values, then in place on linked tail queues (`Tailq`).
`Testsome` is the in-place compaction of send slots.

**Logging.**  `RingBuffer` is the message buffer, `MesgBuf` the search for it in
memory, `Masks` the text form of log masks.

Three modelling choices matter to a reader:

- A message is kept with the time it was sent; a receiver takes the oldest one
  from a sender.  Sends of a draining rank are refused, as in
  libdthread/dt_queuing.c:257.
- `hist` records, for each thread ever created, its handle, the dispatch index its
  CREATE asked for, whether its pthread was created, the value it left and how often
  it was joined.  Slots, START records
  and JOINWAITs carry the entry they stand for, and `wrapped` records that rank 0's
  sequence source wrapped.  All this is history: no step reads it.
- `Machine` lets a step choose any free slot, of which `Tables` shows that the
  code's search delivers one.  A number is drawn exactly as `Sequence` shows
  get_free_seq to draw it.

One comment in the code disagrees with it.  libdthread/dt_mgrthread.c:1705-1707
says that a zombie waits for somebody to join or detach it, but DETACH of a zombie
does not free its slot.  The model follows the code: `ZombieRun` reaches such a
state, and `Histories` shows exactly when a slot is kept and that it is kept for
good.

Six places of the code do not do on all inputs what they are for.  Each has a
lemma with an input on which it fails and one with the exact condition:

- DETACH of a zombie: `ZombieRun.DetachedZombieKeepsItsSlot`,
  `Histories.DetachLeaksExactlyZombies`.
- JOIN of a thread whose start then fails: `ForgedRun.JoinWaitOutlivesItsThread`,
  `Waits.JoinWaitsAreLive`, `Waits.UniqueJoinWaitsAreLive`.
- BUCKSIZE, which shifts a C int: `Bsd.TooLargeForInt`, `Bsd.BuckSizeDefined`,
  `Bsd.FitIsInt`.
- break_malloc's 64-bit total: `BreakHeap.WrappedIsAdmitted`,
  `BreakHeap.AdmitsIffFits`, `BreakHeap.MallocedValid`.
- the 64-bit sum of a segment's reserves: `Segment.WrappedReserve`,
  `Segment.SoundIffNoWrap`; likewise the rounding in `Segment.Seg.Alloc`.
- the length test of mlog_findmesgbuf: `MesgBuf.FoundOutside`,
  `MesgBuf.FoundInside`.

Branches the code guards against and that are shown to be dead: START failing
validation, STARTED, CREATED, DETACHED, CANCELED or JOINED without a pending
request, TERMINATED failing validation, a JOINWAIT found for a detached thread, a
shutdown with starting threads, the pull overflow in the Testsome compaction, the
"not enough space" test of a segment whose reserves do not wrap, and the last skip
test of mlog_mbcopy.

## Model

| member | source | states |
|---|---|---|
| Protocol.StepKeeps | libdthread/dt_mgrthread.c:1468-1924 | Every step of every manager and every application thread keeps the protocol invariant (tables, counters, messages, calls, joins, shutdown). |
| Protocol.RunKeeps | libdthread/dt_mgrthread.c:1360-1425 | The invariant holds in every state of every run from start-up. |
| Protocol.ReachedInv | libdthread/dt_mgrthread.c:1360-1425 | The same for any reachable state. |
| Protocol.InitInv | libdthread/dt_mgrthread.c:1305-1341 | The state mgr_startapp leaves behind satisfies the invariant. |
| Protocol.ExactlyOneReply | libdthread/dt_mgrthread.c:1777-1812 | A thread blocked in a call has at most one holder of its answer (queue entry, request, START record, JOINWAIT, reply), and exactly one while no rank drains. |
| Progress.BlockedCallsMove | libdthread/dt_mgrthread.c:1360-1425 | While no rank drains, the holder of a blocked call's answer can move (its queue's head can be taken, or the oldest message of its channel received), or it is a JOINWAIT; if the thread of that JOINWAIT has started or is being started, the thread is hosted or has a control message that can move. |
| Liveness.NoThreadIsStuck | libdthread/dt_mgrthread.c:781-900 | Under the same conditions every hosted thread can go on: begin to run, end in any way, call, exit or collect its result, or its call or clean-up can move; only the main thread rests, once it has returned. |
| Progress.NothingIsLost | libdthread/dt_mgrthread.c:580-1210 | While no rank drains, every live thread is hosted or its START, failed STARTED or TERMINATED is in flight, and every START record has its START or STARTED in flight. |
| Progress.ChannelsMove | libdthread/dt_mgrthread.c:1468-1740 | In every reachable state the oldest message of every channel can be received, a CREATE under the number get_free_seq finds, if each rank has more sequence numbers than table entries. |
| Progress.QueuesMove | libdthread/dt_mgrthread.c:1754-1924 | Under the same condition the first request of every queue can be taken, a call under the number get_free_seq finds. |
| Delivery.StepAdvances | libdthread/dt_mgrthread.c:1360-1425 | While no rank drains, no step of any rank or thread takes a blocked call further from its answer, and every step that delivers what holds the call brings it closer or answers it. |
| Delivery.DeliveriesAreBounded | libdthread/dt_mgrthread.c:1360-1425 | Over any stretch of a run in which a thread stays blocked and no rank drains, at most five deliveries of its call happen, and one for each request before it on its queue. |
| Delivery.AheadShrinks | libdthread/dt_mgrthread.c:1360-1425 | The messages ahead of one on its channel only get fewer: nothing overtakes it, and what is received is gone. |
| Protocol.ReplyWakesItsCaller | libdthread/dt_mgrthread.c:197-212 | Every reply finds exactly one thread waiting for it, hands it the result and changes no other request block; the stray-reply branches never run. |
| Answers.EveryAnswerIsRight | libdthread/dt_mgrthread.c:1468-1924 | Over every run: the result a thread collects was decided by one step during that very call, and for a reason that held then. CREATE: EINVAL for an index outside the dispatch table, EAGAIN for a full table, else what pthread_create said of a thread with that index. DETACH: ESRCH exactly for a handle not accepted. CANCEL: the same, or EINVAL on the wrong rank. JOIN: ESRCH for a handle not accepted; EINVAL for a detached thread, a live one that is waited for, or one detached meanwhile; else the value in the slot, which is then retired. EIO only from a draining rank. |
| Results.JoinedValueWasLeft | libdthread/dt_mgrthread.c:536-575 | Over every run: a JOIN that reports success hands back what the thread it named left when it ended: the value it returned or exited with, or the mark of a cancelled thread if it was cancelled or cleaned up. |
| Results.WaiterGetsTheValue | libdthread/dt_mgrthread.c:1165-1210 | When the TERMINATED of a thread that is waited for is received, its waiting caller is sent success and the value that thread left. |
| Results.ResultsAreTrue | libdthread/dt_mgrthread.c:256-295 | A JOIN that reports success carries the value a thread with that very handle left behind; a successful CREATE names a started thread with the dispatch index that was asked for. |
| Endings.ZombieEndedSo | libdthread/dt_mgrthread.c:536-575 | Over every run: the final state in a zombie's slot is the one in which its thread ended. |
| Outcomes.JoinOutcome | libdthread/dt_mgrthread.c:1072-1160 | JOIN of a handle not accepted is answered with ESRCH, of a detached or already waited-for thread with EINVAL, of a zombie with its value and the slot freed; any other JOIN is filed as the one that waits. |
| Outcomes.TerminatedOutcome | libdthread/dt_mgrthread.c:1165-1210 | TERMINATED of a waited-for thread sends the waiter its value and frees the slot; of a detached one frees the slot; of any other leaves a zombie. |
| Outcomes.DetachOutcome | libdthread/dt_mgrthread.c:963-1015 | DETACH fails exactly for a handle not accepted; else it marks the thread and ends a JOIN that waits for it with EINVAL. |
| Outcomes.CancelOutcome | libdthread/dt_mgrthread.c:1021-1066 | CANCEL is answered with ESRCH for a handle not accepted, with EINVAL on the wrong rank, else with success. |
| Outcomes.CreateOutcome | libdthread/dt_mgrthread.c:580-705 | CREATE is refused exactly for an index outside the dispatch table or with every slot in use; else a thread with that index gets a free slot, a new number and the next rank, which is told to start it. |
| Outcomes.StartOutcome | libdthread/dt_mgrthread.c:712-775 | START gives the thread an entry on its rank exactly if its pthread is created; either way STARTED reports the outcome. |
| Outcomes.StartedOutcome | libdthread/dt_mgrthread.c:1556-1597 | STARTED tells the creator the handle or the error, and after an error the slot is free again. |
| Outcomes.ShutdownOutcome | libdthread/dt_mgrthread.c:481-512 | The return of the main thread, the end of the last thread and a notice each make their rank drain and tell exactly its children in the tree, once. |
| Protocol.StartingImpliesRunning | libdthread/dt_mgrthread.c:1391-1401 | The three counters equal the sets they count, and threads_starting > 0 implies threads_running > 0: the warning branch is dead. |
| Protocol.CreatorStarted | libdthread/dt_mgrthread.c:1391-1401 | When rank 0 can take a CREATE off its channel, the creator counts as running: its own STARTED has been processed. |
| Protocol.ShutdownIsSound | libdthread/dt_mgrthread.c:1391-1401 | When threads_running is 0, nothing runs, starts, is queued, pending or in flight on any rank. |
| Protocol.BroadcastReachesAll | libdthread/dt_mgrthread.c:481-512 | Once rank 0 drains and no BCASTSHUTDOWN is in flight, every rank drains. |
| Protocol.LtabAllocSucceeds | libdthread/dt_mgrthread.c:745-745 | The unchecked ltab_alloc in start_thread always finds an entry: the occupied entries of a rank inject into slots other than the one being started. |
| Protocol.GtabAllocSucceeds | libdthread/dt_mgrthread.c:330-346 | gtab_alloc finds a slot whenever threads_alloc is below the maximum. |
| Protocol.FreeSlotIsUnreferenced | libdthread/dt_mgrthread.c:366-382 | A free gtab slot has no ltab entry on any rank, is not published, and no START record or control message is about it. |
| Protocol.PublishedEntryIsRight | libdthread/dt_mgrthread.c:849-854 | has_ltab and ltab_idx lead to the occupied entry of that very thread. |
| Cancels.CancelHitsItsThread | libdthread/dt_mgrthread.c:1021-1066 | CANCEL marks exactly the block of the thread it names, and that exactly if the thread runs on the rank that was asked. |
| Cancels.RunningIsPublished | libdthread/dt_mgrthread.c:849-854 | The slot of every running thread leads to its own ltab entry. |
| Waits.JoinWaitsAreLive | libdthread/dt_mgrthread.c:1072-1160 | In every reachable state: a JOINWAIT was filed for one thread, and that thread still has the slot the JOINWAIT names if and only if its pthread was created or it is being started; a slot a JOINWAIT names is neither detached nor terminated, and no two JOINWAITs name the same handle. |
| Waits.UniqueJoinWaitsAreLive | libdthread/dt_mgrthread.c:1072-1160 | While only one thread has had a handle, a JOINWAIT for it names an allocated slot if and only if a create has returned the handle or that create is still under way. |
| Protocol.JoinWaitIdIsNew | libdthread/dt_mgrthread.c:1122-1132 | The xidseq under which a JOINWAIT is filed is not in use at rank 0, although it was drawn by another rank. |
| Protocol.TerminatedIsInOrder | libdthread/dt_mgrthread.c:1709-1728 | TERMINATED passes all checks, carries a state above LT_RUNNING, and finds neither a START record nor an ltab entry of its slot left. |
| Histories.RetiredForever | libdthread/dt_ops.c:62-73 | A handle the table has dropped is accepted in no later state of any run in which it is still the handle of one thread only. |
| Histories.UniqueUntilWrap | libdthread/dt_mgrthread.c:173-186 | Until rank 0's source wraps, every handle is the handle of one thread only. |
| Histories.FreedWhileUnhosted | libdthread/dt_mgrthread.c:372-382 | Whenever a step frees a slot, no rank has an ltab entry for it before or after, and its handle is retired. |
| Histories.JoinedAtMostOnce | libdthread/dt_mgrthread.c:1165-1210 | Over any run, any two JOINED messages that report success for a handle that only one thread had are the same message, sent in the same step. |
| Histories.NoticedAtMostOnce | libdthread/dt_mgrthread.c:481-505 | Over any run, any two BCASTSHUTDOWN messages to a rank are the same message, sent in the same step. |
| Histories.RoundRobin | libdthread/dt_mgrthread.c:619-621 | In every state of every run the k-th thread is on rank k modulo the world size. |
| Histories.DetachLeaksExactlyZombies | libdthread/dt_mgrthread.c:968-981 | If a step of a run is a DETACH, then in every later state in which only one thread has had the handle, it holds a leaked slot if and only if the thread's TERMINATED had been processed before that step, and otherwise the thread is alive or its slot has been freed. |
| Histories.TerminatedFreesDetached | libdthread/dt_mgrthread.c:1190-1209 | TERMINATED of a detached thread frees its slot. |
| Histories.LeakedForever | libdthread/dt_mgrthread.c:968-981 | A slot detached after termination stays allocated to the same thread in every later state of every run. |
| ZombieRun.DetachedZombieKeepsItsSlot | libdthread/dt_mgrthread.c:968-981 | A concrete run, create to detach, ending in a state whose slot is detached, terminated and still allocated. |
| ZombieRun.RunReaches | libdthread/dt_mgrthread.c:580-1210 | The thirteen steps of that run are enabled one after the other. |
| ForgedRun.JoinWaitOutlivesItsThread | libdthread/dt_mgrthread.c:1573-1583 | A concrete run in which a thread joins a handle no create has returned, the start of that thread fails, and a JOINWAIT for the freed slot stays behind. |
| AppSteps.RunKeeps | libdthread/dt_mgrthread.c:781-895 | The new thread publishing its entry keeps the invariant. |
| AppSteps.IssueKeeps | libdthread/dt_threadops.c:93-150 | An application thread queueing a request keeps the invariant. |
| AppSteps.WakeKeeps | libdthread/dt_threadops.c:147-162 | A caller collecting its result and going idle keeps the invariant. |
| AppSteps.ExitKeeps | libdthread/dt_threadops.c:370-446 | Marking a thread as exited keeps the invariant. |
| AppSteps.RetcleanKeeps | libdthread/dt_mgrthread.c:536-574 | A thread that leaves its value and asks for its clean-up keeps the invariant; which value it leaves is stated by Results.JoinedValueWasLeft. |
| AppSteps.MainReturnKeeps | libdthread/dt_mgrthread.c:1245-1300 | The main thread returning keeps the invariant. |
| RequestSteps.TakeCallKeeps | libdthread/dt_mgrthread.c:1777-1812 | Forwarding a call under a fresh xidseq, or failing it with EIO while draining, keeps the invariant. |
| RequestSteps.TakeRetcleanKeeps | libdthread/dt_mgrthread.c:1814-1897 | Disconnecting and freeing an ltab entry and sending TERMINATED keeps the invariant. |
| RequestSteps.TakeMainKeeps | libdthread/dt_mgrthread.c:1899-1915 | The shutdown triggered by the main thread's return keeps the invariant. |
| RequestSteps.QuiesceKeeps | libdthread/dt_mgrthread.c:1391-1401 | The shutdown rank 0 triggers when nothing runs keeps the invariant. |
| RequestSteps.RecvShutdownKeeps | libdthread/dt_mgrthread.c:1730-1738 | Passing BCASTSHUTDOWN on and starting to drain keeps the invariant. |
| CreateSteps.RecvCreateKeeps | libdthread/dt_mgrthread.c:580-705 | CREATE, refused, started or dropped while draining, keeps the invariant; the new slot has the dispatch index the message asked for. |
| CreateSteps.RecvStartKeeps | libdthread/dt_mgrthread.c:712-774 | START, whether pthread_create succeeds or not, keeps the invariant. |
| CreateSteps.StartIsValid | libdthread/dt_mgrthread.c:732-743 | start_thread's validation of START never fails in a reachable state. |
| CreateSteps.RecvStartedKeeps | libdthread/dt_mgrthread.c:1555-1596 | STARTED becoming CREATED, or freeing the slot on failure, keeps the invariant. |
| CreateSteps.StartedIsPending | libdthread/dt_mgrthread.c:1562-1565 | STARTED always finds its START record. |
| CreateSteps.FailedUnwaited | libdthread/dt_mgrthread.c:1580-1583 | When a start fails, no JOINWAIT for that slot was filed for a thread that started, nor for a handle that only one thread had and a create has returned. |
| TerminateSteps.RecvTerminatedKeeps | libdthread/dt_mgrthread.c:1165-1210 | TERMINATED, whether it leaves a zombie, frees the slot or answers a JOINWAIT, keeps the invariant. |
| TerminateSteps.WaitedIsAttached | libdthread/dt_mgrthread.c:1181-1188 | terminated_thread never finds a JOINWAIT for a detached thread. |
| TerminateSteps.RecvDetachKeeps | libdthread/dt_mgrthread.c:963-1015 | DETACH, including the EINVAL it sends to a waiting joiner, keeps the invariant. |
| MessageSteps.RecvCancelKeeps | libdthread/dt_mgrthread.c:1021-1066 | CANCEL keeps the invariant. |
| MessageSteps.RecvJoinKeeps | libdthread/dt_mgrthread.c:1072-1160 | JOIN in all its cases keeps the invariant; which case applies is stated by Outcomes.JoinOutcome. |
| MessageSteps.RecvReplyKeeps | libdthread/dt_mgrthread.c:1517-1539 | Delivering a reply keeps the invariant. |
| Life.TerminatedIsLoose | libdthread/dt_mgrthread.c:1165-1175 | When TERMINATED is taken, channel order guarantees that no START record, entry or other message of its slot remains. |
| Calls.WaitIsFresh | libdthread/dt_mgrthread.c:1122-1132 | No JOINWAIT has the xidseq of a JOIN still in flight. |
| Joins.AcceptedIsStarted | libdthread/dt_ops.c:62-73 | A handle that only one thread had, that was given out and is accepted, is that of the slot's own, started thread. |
| Router.ChildIffParent | libdthread/dt_mgrthread.c:450-476 | For every root and world size, r is a child of p exactly if p is r's parent: the child lists partition the other ranks. |
| Router.ChildrenDistinct | libdthread/dt_mgrthread.c:450-476 | A rank's children are different ranks, none of them itself or the root. |
| Router.ChildrenAre | libdthread/dt_mgrthread.c:450-476 | The children of the rank numbered a from the root are those numbered 2a + 1 and 2a + 2, in this order, as far as they exist. |
| Router.PathReaches | libdthread/dt_mgrthread.c:450-476 | Following parents leads every rank to the root. |
| Router.TreeIsShallow | libdthread/dt_mgrthread.c:450-476 | No rank has more than two children, and the path to a rank is no longer than in a balanced binary tree. |
| Shutdown.BroadcastKeeps | libdthread/dt_mgrthread.c:481-512 | Forwarding the shutdown keeps: one notice per child that does not drain yet, none to others. |
| Shutdown.AllDrain | libdthread/dt_mgrthread.c:481-512 | With rank 0 draining and no notice in flight, every rank drains. |
| Sequence.Source.constructor | libdthread/dt_init.c:161-161 | A rank's first number is its rank plus the world size, a member of its class. |
| Sequence.Source.GetFreeSeq | libdthread/dt_mgrthread.c:173-186 | The number drawn is the first of the class, going round from the source across the 32-bit wrap, that is not pending with that operation; the search ends whenever one is free. |
| Sequence.FindPending | libdthread/dt_mgrthread.c:153-161 | Finds the first pending request with that operation and number, if any. |
| Sequence.GoOn | libdthread/dt_mgrthread.c:173-186 | The search goes round the class at most once before it has met a free number. |
| Sequence.SomeIsFree | libdthread/dt_mgrthread.c:173-186 | Fewer busy numbers than the class holds leave a number free. |
| Sequence.Draw | libdthread/dt_mgrthread.c:173-186 | Then the search finds the first free number of the class, going round from the source. |
| Sequence.NextIsValid | libdthread/dt_mgrthread.c:176-180 | Across wraps every number of rank r is nonzero and congruent to r modulo the world size. |
| Sequence.ClassIs | libdthread/dt_mgrthread.c:176-180 | The residue class is exactly the set of numbers a rank may issue. |
| Sequence.RanksDiffer | libdthread/dt_mgrthread.c:164-186 | Numbers of different ranks never coincide and are never 0. |
| Tables.Table.Search | libdthread/dt_mgrthread.c:337-346 | The circular scan returns the first free slot after the last one allocated, and none exactly if all are taken. |
| Tables.Table.GtabAlloc | libdthread/dt_mgrthread.c:330-364 | Allocation fails exactly if the table is full; otherwise one free slot becomes used. |
| Tables.Table.LtabAlloc | libdthread/dt_mgrthread.c:389-422 | The same for ltab, which starts at slot 0 when it is empty. |
| Tables.Table.Free | libdthread/dt_mgrthread.c:372-382 | Freeing a used slot frees it and lowers the count; freeing a free one does nothing. |
| Queues.RunKeeps | libdthread/dt_queuing.c:211-319 | In every interleaving each message entry is in exactly one of: free list, send queue, receive queue, MPI slot, the MPI thread's send in hand, another hand, a request. The counters are right, DRAINED means that no send is queued or held, and a blocked manager nobody has signalled has empty input queues. |
| Queues.DrainedForever | libdthread/dt_queuing.c:411-423 | Once DRAINED a rank stays so, and no send is ever queued or held again. |
| Queues.StepKeeps | libdthread/dt_queuing.c:55-423 | Each critical section keeps this, and draindown is never undone. |
| Queues.QueuesInOrder | libdthread/dt_queuing.c:55-297 | In every interleaving each queue holds what was put on it and not yet taken, in that order: sends to other ranks on the send queue, received entries and sends to oneself on the receive queue, requests on the request queue; nothing is put there while draining but what is received. |
| Queues.DequeuesOldest | libdthread/dt_queuing.c:283-297 | The send taken by the MPI thread is the oldest accepted one not yet taken. |
| Queues.FreedLastUsedFirst | libdthread/dt_queuing.c:211-240 | The entry freed last is the next one allocated from the free list. |
| Tailq.TailThreads | libdthread/dt_queuing.c:125-148 | Inserting at the tail through the link fields appends to the sequence the links spell. |
| Tailq.HeadThreads | libdthread/dt_queuing.c:236-240 | Inserting at the head prepends. |
| Tailq.RestThreads | libdthread/dt_queuing.c:153-163 | Removing the first entry leaves the rest. |
| Tailq.TailElsewhere | libdthread/dt_queuing.c:249-277 | It leaves the other lists alone that share the link fields, if they share no entry. |
| Queues.Queue.MqeAlloc | libdthread/dt_queuing.c:211-229 | In place on the linked free list: its first entry, or one from malloc when it is empty, or none when that fails. |
| Queues.Queue.MqeUnalloc | libdthread/dt_queuing.c:236-240 | In place, an entry in hand goes to the front of the free list. |
| Queues.Queue.SendEnqueue | libdthread/dt_queuing.c:249-277 | In place, appends to the linked send queue, or to the receive queue if sent to oneself; returns the entry exactly while draining. |
| Queues.Queue.SendDequeue | libdthread/dt_queuing.c:283-297 | In place, takes the oldest send into the MPI thread's hand and counts it as dequeued. |
| Queues.Queue.AddSlot | libdthread/dt_mpithread.c:146-165 | The send in the MPI thread's hand moves to a slot; everything else stays. |
| Queues.Queue.Unload | libdthread/dt_mgrthread.c:1790-1791 | The entry a taken request carries moves to the manager's hand. |
| Queues.Queue.SendRelease | libdthread/dt_queuing.c:302-319 | In place, frees an entry from a slot or from the MPI thread's hand; the last one of a draindown makes it DRAINED and wakes the manager. |
| Queues.Queue.RecvEnqueue | libdthread/dt_queuing.c:325-340 | Appends to the receive queue and signals if both input queues were empty. |
| Queues.Queue.ReqEnqueue | libdthread/dt_queuing.c:125-148 | Appends to the request queue and signals if both input queues were empty. |
| Queues.Queue.NotifyWait | libdthread/dt_queuing.c:55-73 | Blocks exactly if both input queues are empty, with a time limit if one is set. |
| Queues.Queue.NotifyTake | libdthread/dt_queuing.c:74-82 | Takes the oldest entry of each input queue that has one. |
| Queues.Queue.StartDraindown | libdthread/dt_mgrthread.c:507-512 | Starts the draindown, reports the outstanding sends and limits the manager's waits. |
| Testsome.Slots.SetSlots | libdthread/dt_mpithread.c:80-108 | Growing the arrays keeps all pending sends, whichever of the four reallocs fails; the slot count grows exactly if none does. |
| Testsome.Slots.Add | libdthread/dt_mpithread.c:146-165 | The new send follows the pending ones, message and request in one slot; it fails exactly if all slots are used and the arrays cannot grow, and then changes nothing pending. |
| Testsome.Slots.ReleaseDone | libdthread/dt_mpithread.c:211-225 | Exactly the completed messages are released, each once, leaving holes; the first hole is found. |
| Testsome.Slots.Compact | libdthread/dt_mpithread.c:233-260 | Compaction loses nothing, fills exactly the new count, moves only what must move, and never overflows its pull. |
| Testsome.Slots.Test | libdthread/dt_mpithread.c:178-263 | After any set of completions the slots hold exactly the other pairs, still paired, and the released messages are the completed ones. |
| Testsome.Slots.Finalize | libdthread/dt_mpithread.c:268-281 | Each pending send is released once and its request given up, in slot order; no slot stays in use. |
| Testsome.TooManyHoles | libdthread/dt_mpithread.c:248-252 | The pull-overflow branch would need more holes than sends completed. |
| Bsd.MallocCorrect | libdthread/dt_shmops.c:584-675 | A block of the least fitting bucket, new, aligned and clear of all others; fails exactly if no bucket fits or there is no room. Requests for int buckets carve only int buckets. |
| Bsd.MallocReuses | libdthread/dt_shmops.c:630-660 | A free block of the bucket is used before anything is carved, the one freed last first; only an empty list takes a page of blocks, or one large block, from the core. |
| Bsd.FreedIsReused | libdthread/dt_shmops.c:584-718 | Freeing a block and allocating a size of its bucket gives the same block and the same heap. |
| Bsd.ReleaseCorrect | libdthread/dt_shmops.c:677-718 | An allocated block returns to its own bucket; a free one is left alone. |
| Bsd.ReallocCorrect | libdthread/dt_shmops.c:728-810 | The block stays exactly if its bucket is the least that fits; otherwise exactly the new block replaces the old; it fails exactly if a new block is needed and malloc would fail. |
| Bsd.SessionValid | libdthread/dt_shmops.c:584-810 | Over any sequence of calls the blocks tile the carved range, each is allocated or once on its own bucket's list, and none moves or changes size. |
| Bsd.EveryByteHasItsBlock | libdthread/dt_shmops.c:453-519 | Every carved byte belongs to exactly one block. |
| Bsd.UserAreasDisjoint | libdthread/dt_shmops.c:584-675 | User areas overlap neither each other nor any header. |
| Bsd.FitFits | libdthread/dt_shmops.c:610-625 | The specification's choice is the least bucket whose capacity fits. |
| Bsd.PageDivides | libdthread/dt_shmops.c:471-473 | Small blocks fill a page without rest. |
| Bsd.BuckSizeDefined | libdthread/dt_shmops.c:356-356 | 1 << (b + 4) on a C int is defined, and then equals the size of bucket b, exactly for b up to 26. |
| Bsd.FitIsInt | libdthread/dt_shmops.c:610-628 | bsd_malloc chooses such a bucket exactly if the request fits in bucket 26; it computes no undefined size exactly if that or no bucket fits at all. |
| Bsd.TooLargeForInt | libdthread/dt_shmops.c:627-628 | With pages of 4096 bytes a request for 2^32 bytes asks for 1 << 32. |
| Bsd.SessionDefined | libdthread/dt_shmops.c:453-810 | As long as callers make only such requests, every carved block has a bucket of defined size. |
| BsdHeap.ChooseBucket | libdthread/dt_shmops.c:610-625 | The doubling loop in size_t arithmetic finds the least bucket that fits, within NBUCKETS, and gives up exactly if none does. |
| BsdHeap.LinksAreNotMagic | libdthread/dt_shmops.c:699-702 | An aligned free-list link never carries the magic number. |
| BsdHeap.HeaderSays | libdthread/dt_shmops.c:699-708 | A header carries the magic number exactly if its block is allocated, and then its bucket. |
| BsdHeap.Arena.constructor | libdthread/dt_shmops.c:524-569 | An empty heap whose core is the arena; the page bucket is the one of the page size. |
| BsdHeap.Arena.Morecore | libdthread/dt_shmops.c:453-519 | For a bucket whose size is an int, or one out of range: carves the specified blocks, links them into their list in the arena's bytes, touches nothing below the old core. |
| BsdHeap.Arena.Malloc | libdthread/dt_shmops.c:584-675 | For requests with a defined BUCKSIZE: in place, exactly the specified allocation; user bytes of all allocated blocks are kept. |
| BsdHeap.Arena.Free | libdthread/dt_shmops.c:677-718 | In place, exactly the specified release; freeing a free block, or a place without the magic number, changes no byte, head or counter. |
| BsdHeap.Arena.SameBucket | libdthread/dt_shmops.c:762-784 | The in-place test is true exactly if the current bucket is the least that fits. |
| BsdHeap.Arena.Realloc | libdthread/dt_shmops.c:728-810 | For requests with a defined BUCKSIZE: in place, exactly the specified reallocation; the preserved prefix is copied, other blocks keep their bytes. |
| BreakHeap.SessionValid | libdthread/dt_shmops.c:149-279 | Over any sequence of calls in which the test for room is right, in the source's arithmetic and with repeated frees, live blocks lie below the break and do not overlap, and freed headers no block has covered since lie outside them. |
| BreakHeap.SessionIs | libdthread/dt_shmops.c:149-279 | Over any such sequence the live blocks are exactly those asked for and not freed, each with the size asked for, and the break is at the start, unchanged, or right behind the new block. |
| BreakHeap.FreedValid | libdthread/dt_shmops.c:217-223 | The break resets exactly when the last live block is freed. |
| BreakHeap.GrowthNeverResets | libdthread/dt_shmops.c:271-278 | A growing realloc never triggers a reset. |
| BreakHeap.AdmitsIffFits | libdthread/dt_shmops.c:159-166 | The source's 64-bit test for room agrees with the real sum exactly if that does not wrap, or wraps to more than is left; it does not wrap exactly up to 2^64 - 32. |
| BreakHeap.WrappedIsAdmitted | libdthread/dt_shmops.c:159-166 | A request for 2^64 - 16 bytes passes the test of every heap and fits in none. |
| BreakHeap.MallocedValid | libdthread/dt_shmops.c:149-189 | break_malloc keeps the heap valid if and only if its test for room is right. |
| BreakHeap.Arena.Malloc | libdthread/dt_shmops.c:149-189 | Allocates at the break exactly if the 64-bit test admits the request. If the test is right, that is exactly if there is room, with an intact header, and freed headers outside the block stay invalid; if it is wrong, the heap is no longer valid. User bytes of live blocks are kept. |
| BreakHeap.Arena.Free | libdthread/dt_shmops.c:191-229 | Frees a live block and invalidates its header for as long as no block covers it; freeing such a block again changes nothing. |
| BreakHeap.Arena.Realloc | libdthread/dt_shmops.c:231-279 | A block that need not grow stays; otherwise its bytes move to the new block; other blocks keep theirs. |
| Segment.Seg.Establish | libdthread/dt_segops.c:94-229 | Lays the segment out as planned in 64-bit arithmetic; the result is a valid layout exactly if the sum of the reserves does not wrap. |
| Segment.PlanIsSound | libdthread/dt_segops.c:94-229 | Reserves that do not wrap are refused exactly if they leave less than two pages; otherwise the metadata page is the first whole page behind the front reserve and the free space all that lies between it and the back reserve; the last test is dead. |
| Segment.SoundIffNoWrap | libdthread/dt_segops.c:94-229 | A layout that is not refused is sound if and only if the reserves do not wrap. |
| Segment.WrappedReserve | libdthread/dt_segops.c:94-94 | Reserves of 2^64 - 4096 and 4096 bytes are accepted for a segment of three pages. |
| Segment.Seg.Alloc | libdthread/dt_segops.c:511-565 | For every 64-bit request: allocations are aligned, disjoint, clear of metadata and reserves; it fails exactly if the rounded request does not fit; what it returns is long enough exactly if rounding up does not reach 2^64. |
| Refs.ResolvedInside | libdthread/dt_ops.c:107-119 | A reference becomes a pointer exactly if all its bytes lie in its segment and are enough; then they lie in the mapping, without wrapping. |
| Refs.Ptr2Ref | libdthread/dt_ops.c:125-149 | A pointer becomes the reference that names it exactly if some mapping holds all its bytes. |
| Refs.RoundTrip | libdthread/dt_ops.c:107-149 | A reference names exactly the pointer it becomes. |
| Refs.NamesOne | libdthread/dt_ops.c:125-149 | Only one reference names a stretch of memory. |
| Refs.OtherRank | libdthread/dt_ops.c:107-149 | On a rank that maps the segments elsewhere, a reference becomes a pointer to the same place of the same segment. |
| Umap.SameBranch | libdthread/dt_segops.c:373-418 | Whatever mmap does on each rank, all ranks take the same branch in every round. |
| Umap.RetryInStep | libdthread/dt_segops.c:387-400 | A retry leaves all ranks at the same retry count with mappings only at the maximum. |
| Umap.MaxNeverDecreases | libdthread/dt_segops.c:387-400 | The maximum address never decreases from round to round. |
| Umap.HonouredHintSucceeds | libdthread/dt_segops.c:387-400 | If every rank that retries gets the hinted address, that round succeeds. |
| Umap.Establish | libdthread/dt_segops.c:281-441 | The result is determined by what mmap does. A round in which a rank fails ends with the largest error on all ranks and no mapping; one in which all ranks are mapped succeeds, with UMAP only at one address; UMAP goes on for at most ten rounds, hinting at the highest address, and ends with EAGAIN only then. Without UMAP the first round decides: success exactly if every rank is mapped. |
| Umap.RoundComesTo | libdthread/dt_segops.c:356-418 | A round goes on exactly if UMAP ranks are all mapped, at different addresses, with a retry left; then each keeps only the highest mapping and hints at it. |
| RingBuffer.HoldsAfter | libdthread/mlog.c:639-672 | Logging any text, also one longer than the buffer, keeps the buffer equal to the end of the history. |
| RingBuffer.Ring.Log | libdthread/mlog.c:639-672 | In place, the history grows by the text and the buffer holds its end. |
| RingBuffer.DmesgPieces | libdthread/mlog.c:217-236 | The two pieces concatenate to the newest bytes, whatever the buffer holds. |
| RingBuffer.FoundPieces | libdthread/mlog.c:1465-1480 | The differently split pieces concatenate to the same bytes. |
| MesgBuf.Find | libdthread/mlog.c:1431-1484 | Returns the first plausible header at a multiple of four and the two pieces behind it; nothing exactly if there is none. |
| MesgBuf.HeadRoundTrip | libdthread/mlog.c:1446-1451 | A header written in either byte order reads back the same. |
| MesgBuf.SwapTwice | libdthread/mlog.c:429-434 | Swapping a word twice gives it back. |
| MesgBuf.FindsTheLog | libdthread/mlog.c:1431-1484 | In memory that contains a ring buffer, in either byte order and with nothing plausible before it, the pieces are the end of everything logged to it. |
| MesgBuf.FoundInside | libdthread/mlog.c:1458-1468 | The pieces lie in the memory exactly if the used part of the buffer, header included, ends in it. |
| MesgBuf.FoundOutside | libdthread/mlog.c:1458-1468 | 28 bytes taken for a buffer of 28 bytes: the piece found lies behind them. |
| RingBuffer.Ring.Dmesg | libdthread/mlog.c:217-236 | The contents are the last min(total, length) bytes ever logged. |
| RingBuffer.Ring.MbCopy | libdthread/mlog.c:1326-1383 | Returns the newest len bytes but for the newest offset ones; the last skip test is dead. |
| Masks.PriRoundTrip | libdthread/mlog.c:287-296 | Parsing a printed mask gives it back exactly if it is a pure priority or pure debug bits. |
| Masks.MasksRoundTrip | libdthread/mlog.c:1220-1266 | Parsing all printed masks restores what printing kept of each, all of them exactly if each is pure. |
| Masks.DistinctNamesWork | libdthread/mlog.c:1181-1199 | Names that differ in more than case lead back to their facility. |
| Masks.LevelNames | libdthread/mlog.c:150-152 | Each level name is read as its level and printed for it. |
| Masks.StreamNames | libdthread/mlog.c:153-157 | Each set of debug streams is read from and printed as D and the streams' numbers. |
| Masks.PriorityIff | libdthread/mlog.c:741-778 | A text is a priority exactly if it is one of these names in any case, where a debug name with a capital D may lack its dashes. |
| Masks.NamelessSetsAll | libdthread/mlog.c:1103-1106 | A priority without a facility sets every mask; any other word changes none. |
| Masks.NamedSetsOne | libdthread/mlog.c:1176-1205 | name=priority sets the mask of the first facility with that short or long name and no other; nothing if the priority is unknown. |
| Masks.EntriesInTurn | libdthread/mlog.c:1126-1142 | Entries separated by commas take effect one after another. |
| Masks.Ignored | libdthread/mlog.c:1118-1164 | Empty entries and blanks around the text change nothing. |
| Masks.TextHasEntry | libdthread/mlog.c:1220-1266 | The printed text has an entry for each facility, in order, separated by commas. |
| Masks.EntryIs | libdthread/mlog.c:1233-1255 | An entry is the long name, or the short one if there is none, and the priority. |
| Masks.ParsePri | libdthread/mlog.c:741-778 | Case-insensitive lookup with the ERR, DEBUG and missing-dash rules. |
| Masks.SetMasks | libdthread/mlog.c:1108-1215 | The in-place scan computes the parse that the laws above determine. |
| Masks.Sink.Bput | libdthread/mlog.c:395-420 | Counts every character, drops the first ones and keeps what fits. |
| Masks.GetMasks | libdthread/mlog.c:1220-1266 | Returns exactly the requested window of the full text, and its full length. |

## Left out

- Histories.JoinedAtMostOnce: says nothing of a handle that two threads have had, which takes a wrap of rank 0's source.
- Results.JoinedValueWasLeft: takes the value of a thread that exits from its clean-up step; that dthread_exit stores it in the slot a little earlier is not a step of its own.
- Delivery.DeliveriesAreBounded: counts deliveries; that a fair schedule takes the steps Progress shows enabled is not part of the model. A JOINWAIT moves only when its thread ends.
- Progress.BlockedCallsMove: covers only states in which no rank drains and ranks have more sequence numbers than table entries; with fewer, get_free_seq may not end. A JOINWAIT whose thread's start failed does not move.
- BsdHeap.Arena.Free: leaves open offsets inside a block where user data happens to read as a header.
- BsdHeap.Arena.Realloc: leaves open the same offsets.
- BsdHeap.Arena.Malloc: says nothing about requests whose bucket size is an undefined shift, because the language gives the source no meaning there.
- BreakHeap.Arena.Free: leaves open offsets that are neither live nor freed and happen to read as an intact header.
- BreakHeap.Arena.Realloc: leaves open the same offsets.
- BreakHeap.Arena.Malloc: for a request that its test admits by a wrapped total, requires that a header fits behind the break; without room the source writes it past the arena.
- Failure of malloc in the managers, and the leaks it causes: only dtq_mqe_alloc and the slots of the MPI thread model it.
- Managers that have left their main loop after draining: a draining rank may still take messages in the model.
- Concurrency inside one allocator call: allocator operations are atomic, so a concurrent double free of the same block is not covered.
- The backward links of tail queues: entries are taken off at the front only, where they do not matter.
- Thread attributes, arguments, encode and decode callbacks, detached_ret_cleanup: a return value is an opaque payload.
- Error statuses of single requests in MPI_Testsome, MPI_UNDEFINED and MPI failures: they only affect logging or abort the job.
- bsd_mstats: that its sums are right is not proved; it computes BUCKSIZE of all sixty buckets.
- The formatting half of vmlog: only the bytes appended to the buffer are modelled.
- Segments established before the current one being unmapped on failure: Umap models one segment.
- dt_syncops.c, dt_syncops_pshared.c, xthread.c, start-up and the test programs.
