# The HRP2 kernel core, modelled and proved in Dafny

TOPPERS/HRP2 is a real-time kernel with memory protection. All of its kernel code runs
with the CPU locked, so every service call is one step of a state machine whose state is
the control blocks and the queues that link them. This project models that core and proves
what the kernel promises about it: not for chosen scenarios, but for every configuration,
every argument and every sequence of calls and interrupts.

## How it is organized

* **The state machine.** `KernelSpec.dfy` gives the state (task control blocks, ready
  queues, wait queues, objects, dispatch flags) as a value and every service call as a
  function on it, with the branches and error codes of the C code. `KernelInv.dfy` states
  the kernel invariant in pieces. `KernelKeeps`, `KernelMutex`, `KernelSteps`,
  `KernelTasks` and `KernelSync` show that every call keeps it, and `KernelRun` draws the
  conclusions for all reachable states. Intermediate states matter here: the invariant is
  stated for a set of tasks "in transit" and of mutexes "between owners", so that hand-over,
  release of everything a terminated task holds, and draining of a wait queue are followed
  step by step.
* **What calls do.** `KernelWaits` says of every call that may wait which result it returns,
  when it waits, on what and with which time limit. `KernelEnds` says of every waiting task
  which calls and ticks end its wait and with which result. `KernelStates` builds the state
  transitions of tasks on both: for any task and any step, the state and the requests
  recorded afterwards. `KernelCalls` gives the results of all other calls, shows that a call
  that fails changes nothing, and says when the running task may change. `KernelEffects` and
  `KernelObjects` state what the calls on tasks and objects do, and `KernelFlags` what the
  conditions of event flags mean bit by bit. These statements speak of the state before and
  after a step and of the arguments of the call, not of the functions that compute it.
* **Results over runs.** `KernelCeiling` and `KernelCeilingRun` prove the immediate ceiling theorem
  over whole runs. `KernelRest` proves what every call leaves alone; on top of it,
  `KernelCounts` proves conservation of semaphore counts, `KernelFifo` that a data queue
  is one FIFO, and `KernelPools` that no memory block is ever with two tasks, all over whole
  runs. `KernelResults` and `KernelUndo` hold results about
  calls: who a flag releases, what a priority data queue returns, which calls undo each
  other, what termination leaves behind.
* **The kernel as it runs.** `Kernel.dfy` is a class with arrays of control blocks and
  queues that are changed in place, the 16-bit ready bitmap, the cached `p_schedtsk` and
  the "dispatch needed" results. Every method is proved to do to the state what the state
  machine does, and the caches to agree with a fresh search at every step
  (`Bitmap`, `SchedCache`). A row of the table for a service call means: the method does to
  the kernel state, and returns, exactly what the step of the state machine does, keeps the
  kernel invariant and the caches, and keeps the dispatch discipline (outside handlers
  dspflg implies that the task to run is running; inside handlers a pending switch implies
  reqflg).
* **The ring.** `Queue.dfy` is the doubly linked intrusive ring with its pointers; its
  operations are proved to be the list operations of the state machine.
* **Time events.** `TimeHeap` and `EventHeap` prove the binary heap with back-pointers over
  wrapping times; `TimeEvent` adds the tick accumulator, the enqueueing of relative times,
  cyclic and alarm handlers, timed waits and the firing loop of `signal_time`. Ghost fields
  carry the exact, unbounded times that the wrapping ones stand for. `TimeRun` puts any
  number of ticks in a row and proves the timing guarantee over them.
* **Data areas.** `DataArea.dfy` (with `Ring.dfy`) proves the ring buffer of a data queue,
  the linked list of a priority data queue and the free list of a fixed pool against the
  lists and sets the state machine uses.
* **Serial driver and memory objects.** `Serial` and `SerialTokens` prove the semaphore
  protocol between reading and writing tasks and the callbacks of a port; `Memory` proves
  the binary search and the probes of memory objects; `Interrupt` the search for the queue
  of an interrupt number.

Pointers to control blocks are table indices. Semaphores, flags, mutexes, data queues and
pools share one object table. Wait queue q is the queue of object q, or the receive queue
of data queue q - |inib|. Counts and times are unbounded except where wrap-around matters:
event times, event flag patterns, the ready bitmap, addresses and sizes.

## Where the code departs from a natural contract

* `acre_tsk` with TA_ACT ignores the result of `make_active`, so a more urgent new task is
  not dispatched at once (`hrp2/kernel/task_manage.c:264-266`). `AcreKeeps` gives the exact
  condition under which the call is safe and `AcrePending` a reachable state in which it is
  not. The state machine makes the call as the code does; runs (`Do`, `Run`) make every call
  except this one where it would leave a dispatch undone.
* `fsnd_dtq` and `ifsnd_dtq` return E_OK even for a queue of capacity 0, where nothing was
  sent (`hrp2/kernel/dataqueue.c:749`, `hrp2/kernel/dataqueue.c:785`). The model does the
  same; `ForcedSendResult` says exactly when the data is sent and `ForcedSendLost` gives a
  reachable state in which it is not.
* A range that is the whole address space from address 0 has size 0 in the unsigned
  arithmetic of the probes, so only an empty range fits it; `MemSizeIs` says so.

## Model

| member | source | states |
|---|---|---|
| `KernelRun.StepInv` | hrp2/kernel/mutex.c:207-393 | any single call or interrupt event, other than an acre_tsk that leaves a dispatch undone, keeps the whole kernel invariant: queues match task states, priorities match ceilings held, owners and mutex lists mirror each other, no object is kept from a waiter, dispatch flags agree |
| `KernelRun.BootInv` | hrp2/kernel/task.c:123-161 | the state after initialization and the start of the TA_ACT tasks satisfies that invariant, for every configuration |
| `KernelRun.ReachableInv` | hrp2/kernel/task.h:132-165 | every state reachable from any start-up by any sequence of calls, other than such an acre_tsk, satisfies that invariant |
| `KernelRun.WhereTasksAre` | hrp2/kernel/task.h:232-242 | in every reachable state a task is on a ready queue iff runnable (and exactly that of its current priority), on a wait queue iff waiting on it, on the free list iff nonexistent, and has a time event block registered iff in a timed wait; a nonexistent task is dormant, so on no other list; never twice on one list |
| `KernelRun.PrioritiesAre` | hrp2/kernel/mutex.c:274-291 | in every reachable state the current priority is the base priority raised by exactly the ceilings held, p_loctsk and mutex_queue mirror each other, an unlocked mutex has no waiters and a dormant task holds nothing |
| `KernelRun.RunningIsHighest` | hrp2/kernel/task.h:310-320 | in every reachable state outside handlers with dispatching enabled, the running task is the head of the highest non-empty ready queue, no runnable task has a higher priority, and there is no running task exactly when nothing is runnable |
| `KernelWaits.RequestResult` | hrp2/kernel/mutex.c:670-726 | every call that may wait, polling forms included: it returns an error for a wrong use; E_OK if and only if what it asks for is there; otherwise E_TMOUT for a poll, E_RLWAI when waiting is forbidden, and else it waits |
| `KernelWaits.BlockedWaits` | hrp2/kernel/wait.c:180-187 | whenever a call waits, it waits on the object it names; its event block is registered if and only if its own time-out argument (or dly_tsk) asks for it; it stands last in the queue, or where its priority puts it; what it waits for is recorded; no other task and no object changes, and the next task runs |
| `KernelEnds.WaitEnds` | hrp2/kernel/wait.c:79-141 | for any waiting task and any next call, interrupt or tick: its wait ends if and only if it is served in its turn, its flag condition is met, it inherits a mutex, its time limit is due, it is released or woken up, or its object is initialized, with E_OK, E_TMOUT, E_RLWAI or E_DLT accordingly; otherwise the wait goes on as it was |
| `KernelStates.TaskAfter` | hrp2/kernel/task_manage.c:376-619 | the state transitions of tasks: for any task and any call, interrupt or tick, the state afterwards, the queued activation and wake-up, the permission to wait, the base priority and the existence of the task |
| `KernelCalls.RunningTask` | hrp2/kernel/sys_manage.c:437-487 | inside handlers and while dispatching is disabled the running task keeps the processor whatever is called; otherwise the task to run has it after every step; only dis_dsp, ena_dsp, chg_ipm, ext_tsk and the entry and exit of handlers change the flags |
| `KernelCalls.TaskResult` | hrp2/kernel/task_sync.c:386-600 | which result every call that names a task returns, and when |
| `KernelCalls.ObjectResult` | hrp2/kernel/semaphore.c:331-413 | the same for the other calls on objects |
| `KernelCalls.WrongContext` | hrp2/kernel/mutex.c:678-680 | a call made in the wrong context, or one that can wait while dispatching is disabled, returns E_CTX and changes nothing |
| `KernelCalls.FailsAlone` | hrp2/kernel/task_manage.c:376-412 | a call that returns an error has changed nothing at all, in any object, task or queue |
| `KernelResults.NobodyWaitsInVain` | hrp2/kernel/semaphore.c:350-363 | in every reachable state a task waits on a semaphore only at count 0, on a flag only while its condition is false, on a mutex only when it is locked, to send only when the queue is full and no one waits to receive, for a block only when none is free |
| `KernelResults.ReceiversFindNothing` | hrp2/kernel/dataqueue.c:333-361 | in every reachable state a task waits to receive only while nothing is stored and no one waits to send; only data queues have receivers |
| `KernelResults.HeadIsHighest` | hrp2/kernel/wait.h:59-72 | in every reachable state the first task of a priority-ordered wait queue has the highest current priority of all that wait there |
| `KernelResults.CountsStayInRange` | hrp2/kernel/semaphore.c:350-363 | in every reachable state semcnt <= maxsem, stored data <= capacity, free blocks <= blkcnt |
| `KernelResults.DispatchFlags` | hrp2/kernel/sys_manage.c:446-480 | in every reachable state dspflg = (ipmflg and not disdsp), and on return to a task dspflg implies p_runtsk = p_schedtsk |
| `KernelResults.BlocksArePartitioned` | hrp2/kernel/mempfix.c:189-206 | in every reachable state each block of a pool is in exactly one of the free list, the never-used tail and the allocated blocks, the free list has no duplicates, and fblkcnt = free list length + (blkcnt - unused) |
| `KernelCounts.CountIsConserved` | hrp2/kernel/semaphore.c:331-591 | over any run from any consistent state, semcnt = starting count + signals that returned E_OK - requests that returned E_OK at once - waits that ended with E_OK, restarted from isemcnt by ini_sem; time-outs, forced releases and terminations neither lose nor create counts |
| `KernelCounts.StepCounts` | hrp2/kernel/semaphore.c:350-363 | the same balance for one call of any kind, on this or any other object |
| `KernelCounts.SigBalance` | hrp2/kernel/semaphore.c:331-413 | a signal ends the wait of exactly the first waiting task if there is one, and otherwise is counted once, or refused with E_QOVR exactly when the count is at its maximum |
| `KernelCeilingRun.ImmediateCeiling` | hrp2/kernel/mutex.c:579-602 | the immediate ceiling theorem: after any run from start-up with base priorities fixed, dispatching enabled, no rotation, and holders of ceiling mutexes never waiting or suspended, loc_mtx on a ceiling mutex never blocks; it returns E_OK, E_ILUSE or E_OBJ |
| `KernelCeilingRun.StepCeil` | hrp2/kernel/mutex.c:298-370 | each such call keeps every holder of a ceiling mutex ahead, in ready order, of every task whose base priority lets it lock that mutex |
| `KernelCeilingRun.LockFindsFree` | hrp2/kernel/mutex.c:587-600 | given that order, a running task whose base priority permits it finds a ceiling mutex free or its own |
| `KernelCeiling.RaiseOrder` | hrp2/kernel/mutex.c:298-305 | raising the first ready task to the front of a higher queue keeps the order of the holders |
| `KernelCeiling.DropOrder` | hrp2/kernel/mutex.c:310-322 | dropping the priority of a holder to the front of a lower queue keeps the order of the other holders |
| `KernelCeiling.ReleaseSafe` | hrp2/kernel/mutex.c:343-370 | handing a mutex to the head waiter, or freeing it, keeps the order of the holders |
| `KernelCeiling.JoinOrder` | hrp2/kernel/task.c:273-286 | a task that holds no ceiling mutex joining the end of its ready queue keeps the order of the holders |
| `KernelResults.LockUnlock` | hrp2/kernel/mutex.c:733-775 | unl_mtx undoes loc_mtx altogether: for a task running with dispatching enabled, the state after lock and unlock is the state before, ready order and priorities included, whatever the ceiling and whatever else is held |
| `KernelSteps.AcquireFirst` | hrp2/kernel/mutex.c:583-590 | after mutex_acquire by the task to run, that task is still the task to run: the assertion in loc_mtx cannot fail |
| `KernelObjects.Locking` | hrp2/kernel/mutex.c:328-337 | loc_mtx of a free mutex: the caller owns it, its list has it first, and no other task, object or wait queue changes |
| `KernelObjects.Unlocking` | hrp2/kernel/mutex.c:734-775 | unl_mtx hands the mutex to the task that waits first, which goes last into the ready queue of its raised priority, or frees it; no other object and no third task changes |
| `KernelObjects.EndHandsOver` | hrp2/kernel/mutex.c:380-393 | ter_tsk and ext_tsk: each mutex of the ended task goes to the task that waits first for it, or is free; no other object changes |
| `KernelObjects.IniFrees` | hrp2/kernel/mutex.c:785-826 | ini_mtx leaves the mutex free, with no one waiting, and no other object changed |
| `KernelMutex.CalcPriSpec` | hrp2/kernel/mutex.c:274-291 | mutex_calc_priority gives the base priority raised by exactly the ceilings held |
| `KernelMutex.CalcPriUnique` | hrp2/kernel/mutex.c:274-291 | there is only one such priority |
| `KernelMutex.CalcRemove` | hrp2/kernel/mutex.c:310-322 | giving up a mutex whose ceiling is not the current priority leaves the current priority right, so mutex_drop_priority may skip it |
| `KernelMutex.CalcRebase` | hrp2/kernel/task_manage.c:654-670 | while a ceiling mutex is held, a new base priority that passes mutex_check_ceilpri leaves the current priority right, so chg_pri need not re-queue the task |
| `KernelMutex.ReleaseGood` | hrp2/kernel/mutex.c:343-370 | mutex_release of a mutex taken off its owner makes the owner field and the lists mirror each other again, and the new owner has the right priority |
| `KernelMutex.ReleaseAllGood` | hrp2/kernel/mutex.c:379-393 | mutex_release_all empties the mutex list, keeps the invariant throughout, and changes nothing else of the task |
| `KernelTasks.ChgPriInv` | hrp2/kernel/task_manage.c:628-678 | chg_pri keeps the kernel invariant in each of its branches |
| `KernelEffects.ChgPriEffect` | hrp2/kernel/task_manage.c:652-667 | chg_pri sets the base priority to the one asked for, or the initial one; without a ceiling mutex the current priority becomes the same and a runnable task goes last in that ready queue; with one, nothing else changes |
| `KernelEffects.ChgPriRequeues` | hrp2/kernel/task.c:415-431 | a task in a wait queue in priority order moves behind all tasks of its new priority or a higher one and before all others |
| `KernelEffects.ChgPriRefused` | hrp2/kernel/task_manage.c:652-661 | E_ILUSE exactly when the priority is above the limit of the domain of the caller, or a ceiling held or awaited would be below it; then nothing changes |
| `KernelEffects.Activation` | hrp2/kernel/task_manage.c:391-406 | act_tsk starts a dormant task last in its ready queue; for an active task it records one request and refuses a second with E_QOVR |
| `KernelEffects.ActThenTer` | hrp2/kernel/task_manage.c:588-608 | a request recorded is honoured when the task is terminated: it starts again at once and the request is used up |
| `KernelEffects.ActThenExt` | hrp2/kernel/task_manage.c:499-553 | the same when the task ends itself |
| `KernelEffects.TerminatedClean` | hrp2/kernel/task_manage.c:584-608 | a terminated task holds no mutex, is on no wait queue and has its initial priority; started again, it is last in that ready queue, behind all tasks its end released |
| `KernelEffects.ExitedClean` | hrp2/kernel/task_manage.c:499-553 | the same for ext_tsk |
| `KernelEffects.OneReturns` | hrp2/kernel/wait.c:94-141 | the end of one wait by rel_wai, wup_tsk, a due time limit or a signal: E_RLWAI, E_OK, E_TMOUT (E_OK for dly_tsk) or E_OK; the task stands last in its ready queue unless suspended, the others keep their order, nothing else changes |
| `KernelEffects.SuspendRunnable` | hrp2/kernel/task_sync.c:488-501 | sus_tsk takes a runnable task out of its ready queue, where the others keep their order |
| `KernelEffects.ResumeSuspended` | hrp2/kernel/task_sync.c:543-555 | rsm_tsk puts a suspended task last in its ready queue |
| `KernelEffects.Rotation` | hrp2/kernel/sys_manage.c:188-209 | rot_rdq moves the first task of the queue it names, for TPRI_SELF that of the base priority of the caller, to the end, and changes nothing else |
| `KernelEffects.RotationInt` | hrp2/kernel/sys_manage.c:219-240 | irot_rdq does the same and dispatches nothing |
| `KernelEffects.RotateSelf` | hrp2/kernel/sys_manage.c:200-203 | a caller raised above its base priority keeps its place and the processor when it rotates with TPRI_SELF |
| `KernelEffects.Creation` | hrp2/kernel/task_manage.c:209-267 | acre_tsk takes the first free control block for a task of the priority asked for, last in its ready queue with TA_ACT |
| `KernelEffects.Deletion` | hrp2/kernel/task_manage.c:327-366 | del_tsk gives the control block back behind the other free ones and changes nothing else; the task can not be activated then |
| `KernelEffects.BootState` | hrp2/kernel/task.c:123-161 | after start-up exactly the tasks with TA_ACT can run, each ready queue in the order of the task order table; every object is in its initial state and the highest task runs |
| `KernelUndo.TerminatedTask` | hrp2/kernel/task_manage.c:561-619 | after ter_tsk the task holds no mutex, is on no wait queue and in no timed wait, has its initial priority and no pending wake-up; it is active again iff an activation was queued, which is then used up |
| `KernelUndo.WakeupThenSleep` | hrp2/kernel/task_sync.c:172-292 | a wake-up sent to the running task is used up by its next slp_tsk, which then does not wait; a second wake-up before that is E_QOVR |
| `KernelUndo.SignalThenTake` | hrp2/kernel/semaphore.c:331-459 | what is signalled to a semaphore no one waits for can be taken at once, back to the same state |
| `KernelUndo.GetThenRelease` | hrp2/kernel/mempfix.c:189-206 | a block taken and given back leaves the same blocks allocated and the same number free, and is the next one handed out; if it came from the free list, the pool is exactly as it was |
| `KernelUndo.DisableThenEnable` | hrp2/kernel/sys_manage.c:437-487 | dis_dsp and ena_dsp undo each other, and so do masking and unmasking with chg_ipm; while either one still forbids it, dispatching stays disabled |
| `KernelUndo.RotatedBy` | hrp2/kernel/task.c:440-455 | n rotations move the first n tasks of the queue behind the others, in their order |
| `KernelUndo.RotationIsFair` | hrp2/kernel/sys_manage.c:188-209 | as many rotations as there are tasks restore the state, having put each task of the priority first once |
| `KernelResults.SuspendResume` | hrp2/kernel/task_sync.c:464-569 | sus_tsk and rsm_tsk on a waiting task cancel: it keeps its wait, its place in the queue and its time-out |
| `KernelTasks.AcreKeeps` | hrp2/kernel/task_manage.c:236-267 | acre_tsk with TA_ACT, called by a task, keeps the kernel invariant exactly unless dispatching is enabled and the new task has a higher priority than the caller |
| `KernelResults.AcrePending` | hrp2/kernel/task_manage.c:264-266 | in a state that start-up reaches, in which a task runs with dispatching enabled and a control block is free, acre_tsk with TA_ACT leaves a dispatch undone |
| `KernelResults.SendAppends` | hrp2/kernel/dataqueue.c:538-579 | on a data queue with FIFO senders, seen as stored data followed by the data of waiting senders, snd_dtq appends to that one FIFO, or fails and changes nothing |
| `KernelResults.SendHandsOver` | hrp2/kernel/dataqueue.c:282-301 | when a task waits to receive, the FIFO is empty and the data goes to that task, which is released with E_OK |
| `KernelResults.ReceivePops` | hrp2/kernel/dataqueue.c:333-361 | receiving from a non-empty FIFO returns its head and leaves the rest, even when the capacity is 0 |
| `KernelResults.ForceKeepsSenders` | hrp2/kernel/dataqueue.c:310-324 | forced sending drops only the oldest stored data, only when the storage is full, and goes in before the data of waiting senders |
| `KernelResults.ForcedSendResult` | hrp2/kernel/dataqueue.c:725-755 | fsnd_dtq and ifsnd_dtq on a data queue always return E_OK; the data is handed to the first receiver or stored last if and only if the capacity is not 0, and otherwise nothing changes |
| `KernelResults.ForcedSendLost` | hrp2/kernel/dataqueue.c:737-749 | in a state that start-up reaches, a task sends by force, gets E_OK, and nothing was sent |
| `KernelFifo.RunIsFifo` | hrp2/kernel/dataqueue.c:282-361 | over any run of calls and interrupts: the data received from a data queue with FIFO senders, followed by the data stored and the data of waiting senders, is the data accepted, in order, without what was withdrawn (senders that stopped waiting, the oldest data under forced sending, initialization); forced data goes in before the data of waiting senders |
| `KernelFifo.FifoFromStart` | hrp2/kernel/dataqueue.c:223-273 | the same for every run from every start-up, where the history starts empty |
| `KernelFifo.StepFifo` | hrp2/kernel/dataqueue.c:282-361 | the same for one call of any kind, on this or any other object |
| `KernelRest.StepRest` | hrp2/kernel/wait.h:106-155 | any step that does not name an object leaves its state, its waiting tasks, what they offer and (without priority order) their order alone, but for the one task the step terminates, releases by force or times out, which does not get what it waited for |
| `KernelResults.ReceivesByPriority` | hrp2/kernel/pridataq.c:299-330 | receive_pridata returns the earliest of the most urgent data stored and takes just that one off; the data of the first waiting sender then goes to the end of the FIFO of its priority: a priority data queue is one FIFO for each priority |
| `KernelResults.SendsByPriority` | hrp2/kernel/pridataq.c:269-289 | storing appends to the FIFO of the priority of the data and leaves those of other priorities alone |
| `KernelResults.OfInsert` | hrp2/kernel/pridataq.c:209-237 | the same for enqueue_pridata itself |
| `KernelData.InsertItemSorted` | hrp2/kernel/pridataq.c:209-237 | enqueue_pridata keeps the stored data in order of data priority |
| `DataArea.InsertItemAt` | hrp2/kernel/pridataq.c:222-236 | the new data goes before the first data of lower urgency, so after its equals |
| `KernelObjects.SentIsDelivered` | hrp2/kernel/dataqueue.c:283-324 | whenever a sending call of any form returns E_OK, the data has gone to the task that waits first to receive, or into the queue at its place; for forced sending to a full queue the oldest data is gone; no other task changes |
| `KernelObjects.ReceivedIs` | hrp2/kernel/dataqueue.c:334-361 | whenever rcv_dtq or prcv_dtq return E_OK, the caller has the first data stored, or that of the first sender without capacity; that sender is released and its data stored at its place; no other task changes |
| `KernelFlags.CondMeets` | hrp2/kernel/eventflag.c:197-208 | the condition of a flag wait, bit by bit: TWF_ORW is met if and only if some bit waited for is set, TWF_ANDW if and only if none is missing |
| `KernelFlags.BitsJoined` | hrp2/kernel/eventflag.c:358-380 | set_flg: the new pattern has the old bits and those set, and no other |
| `KernelObjects.FlagMasked` | hrp2/kernel/eventflag.c:469-495 | clr_flg keeps exactly the bits in its argument and changes nothing else |
| `KernelObjects.FlagTaken` | hrp2/kernel/eventflag.c:505-552 | wai_flg that returns at once: its condition is met, it gets the pattern as it was, which is cleared exactly with TA_CLR; nothing else changes |
| `KernelResults.SetFlgReleases` | hrp2/kernel/eventflag.c:357-407 | set_flg without TA_CLR: the new pattern has the old bits and those set; exactly the waiting tasks whose condition it meets bit by bit are released, each with the pattern; no other task changes |
| `KernelResults.SetFlgReleasesFirst` | hrp2/kernel/eventflag.c:380-396 | set_flg with TA_CLR releases only the first waiting task whose condition the joined pattern meets bit by bit, and clears the pattern exactly when there is one |
| `KernelResults.WalkReleases` | hrp2/kernel/eventflag.c:380-396 | the same for the walk along any part of the wait queue |
| `KernelSync.CondMono` | hrp2/kernel/eventflag.c:196-208 | clearing bits never makes a false wait condition true, so clr_flg need not look at the waiting tasks |
| `KernelResults.GrantedIsNew` | hrp2/kernel/mempfix.c:391-432 | the block get_mpf grants was not allocated, is inside the pool, and is the only one that becomes allocated |
| `KernelResults.ReleaseOnce` | hrp2/kernel/mempfix.c:537-588 | rel_mpf accepts exactly the blocks allocated now: a second release and a release after ini_mpf are refused with E_PAR |
| `KernelPools.BlockPassedOn` | hrp2/kernel/mempfix.c:568-575 | rel_mpf while a task waits: the task that waits first gets that very block with E_OK; the pool, the other tasks and the other queues stay as they are |
| `KernelPools.BlockFreed` | hrp2/kernel/mempfix.c:576-581 | rel_mpf while no one waits: just that block is free again, and the next one handed out |
| `KernelPools.BlocksAreAccounted` | hrp2/kernel/mempfix.c:189-206 | over any run of calls, interrupts and ticks, the blocks handed out to callers and waiting tasks and not given back are those the pool counts as allocated |
| `KernelPools.NeverTwice` | hrp2/kernel/mempfix.c:189-206 | so no block is with two tasks at once: a step hands out at most one block, to one task, and one that was not out or has just been given back |
| `KernelPools.StepBlocks` | hrp2/kernel/mempfix.c:538-588 | the same account for one call of any kind, on this or any other object |
| `KernelPools.Initialized` | hrp2/kernel/mempfix.c:598-631 | ini_mpf, ini_dtq, ini_flg and ini_sem put the object, and no other, back to its initial state |
| `KernelInv.InsertTpriSpec` | hrp2/kernel/wait.h:59-72 | queue_insert_tpri keeps the queue in priority order and puts the task after every waiting task of its own priority |
| `KernelKeeps.WakeEffect` | hrp2/kernel/wait.c:78-141 | the end of a wait takes the task, and only it, off its wait queue, gives it the result, and puts it at the end of its ready queue unless suspended; no object and no other task changes |
| `KernelKeeps.WakeOthers` | hrp2/kernel/wait.h:135-155 | the tasks that stay on a wait queue keep their order, and the event block goes exactly when the wait had a time limit |
| `KernelKeeps.WakeAllEffect` | hrp2/kernel/wait.c:196-211 | init_wait_queue releases exactly the tasks of the queue, each with E_DLT and its event block given up; the queue is empty afterwards; no other task changes or leaves a queue |
| `KernelKeeps.JoinEffect` | hrp2/kernel/wait.c:151-187 | wobj_make_wait takes the running task off its ready queue and adds it, and only it, to the wait queue; no object and no other task changes |
| `KernelKeeps.JoinPlace` | hrp2/kernel/wait.h:59-72 | it stands at the end, or in a priority-ordered queue after all tasks of the same or higher priority and before all others; its event block is registered exactly when there is a time limit |
| `KernelKeeps.ChangePriorityEffect` | hrp2/kernel/task.c:379-428 | change_priority keeps the members of every wait queue and changes nothing of the task but its priority |
| `KernelKeeps.ChangePriorityLinks` | hrp2/kernel/task.c:379-428 | change_priority keeps each task on exactly the list its state demands and priority-ordered wait queues in order |
| `Bitmap.Search` | hrp2/kernel/task.c:193-208 | bitmap_search returns the lowest bit set |
| `Bitmap.SetBit` | hrp2/kernel/task.c:233-237 | setting the bit of one priority changes that bit only |
| `Bitmap.ClearBit` | hrp2/kernel/task.c:242-246 | clearing the bit of one priority changes that bit only |
| `Kernel.Kernel.constructor` | hrp2/kernel/task.c:123-161 | the tables, the bitmap and the cached task after start-up stand for the start-up state |
| `Kernel.Kernel.SearchSchedtsk` | hrp2/kernel/task.c:253-260 | returns the head of the highest non-empty ready queue, found through the bitmap |
| `Kernel.Kernel.MakeRunnable` | hrp2/kernel/task.c:273-286 | the task goes to the end of its ready queue; bitmap and p_schedtsk stay right; the result tells exactly whether dispatching is enabled and the task to run changed |
| `Kernel.Kernel.MakeNonRunnable` | hrp2/kernel/task.c:300-321 | the task leaves its ready queue; bitmap and p_schedtsk stay right; the result tells exactly whether dispatching is enabled and the task to run changed |
| `Kernel.Kernel.MakeDormant` | hrp2/kernel/task.c:330-345 | base and current priority become the initial ones and the pending flags are cleared |
| `Kernel.Kernel.MakeActive` | hrp2/kernel/task.c:354-361 | the task becomes runnable at the end of its ready queue; the result tells exactly whether dispatching is enabled and the task to run changed |
| `Kernel.Kernel.ChangePriority` | hrp2/kernel/task.c:379-428 | the task moves to the front (mtxmode) or end of the queue of its new priority, or is re-inserted in a priority-ordered wait queue; bitmap and p_schedtsk stay right; the result tells exactly whether dispatching is enabled and the task to run changed |
| `Kernel.Kernel.RotateReadyQueue` | hrp2/kernel/task.c:440-455 | the head of the queue goes to its end; p_schedtsk stays right; the result tells exactly whether dispatching is enabled and the task to run changed |
| `SchedCache.JoinCached` | hrp2/kernel/task.c:273-286 | the incremental update of bitmap and p_schedtsk at make_runnable agrees with a new search |
| `SchedCache.LeaveCached` | hrp2/kernel/task.c:300-321 | the incremental update at make_non_runnable agrees with a new search |
| `SchedCache.RotateCached` | hrp2/kernel/task.c:440-455 | the incremental update at rotate_ready_queue agrees with a new search |
| `SchedCache.PutTop` | hrp2/kernel/task.c:392-412 | which task is to run after a runnable task moved to its new priority, as the cases of change_priority decide it |
| `Kernel.Kernel.QueueInsertTpri` | hrp2/kernel/wait.h:59-72 | the task is inserted before the first waiting task of lower priority |
| `Kernel.Kernel.MakeWait` | hrp2/kernel/wait.h:81-87 | the running task leaves its ready queue and waits, with the event block registered when there is a time limit |
| `Kernel.Kernel.MakeNonWait` | hrp2/kernel/wait.h:106-127 | a task released from its wait becomes runnable, or suspended when it was suspended; the result tells exactly whether dispatching is enabled and the task to run changed |
| `Kernel.Kernel.WaitDequeueWobj` | hrp2/kernel/wait.h:135-141 | a waiting task leaves the wait queue it is on, if any; the queue keeps its order |
| `Kernel.Kernel.WaitComplete` | hrp2/kernel/wait.c:78-84 | the wait ends with E_OK; the result tells exactly whether dispatching is enabled and the task to run changed |
| `Kernel.Kernel.WaitRelease` | hrp2/kernel/wait.c:134-141 | the wait ends with the given result, in particular E_RLWAI; the result tells exactly whether dispatching is enabled and the task to run changed |
| `Kernel.Kernel.WaitTmout` | hrp2/kernel/wait.c:93-125 | a time limit that is due ends the wait with E_TMOUT, or E_OK for a delay |
| `Kernel.Kernel.WobjMakeWait` | hrp2/kernel/wait.c:151-187 | the running task waits on the object, in priority order when the attribute says so |
| `Kernel.Kernel.InitWaitQueue` | hrp2/kernel/wait.c:196-211 | every waiting task is released with E_DLT, in the order of the queue; the result covers every change of the task to run |
| `Kernel.Kernel.MutexCheckCeilpri` | hrp2/kernel/mutex.c:207-241 | tells whether no ceiling held or awaited is below the base priority |
| `Kernel.Kernel.MutexScanCeilmtx` | hrp2/kernel/mutex.c:250-265 | tells whether a ceiling mutex is held |
| `Kernel.Kernel.MutexCalcPriority` | hrp2/kernel/mutex.c:274-291 | the loop computes the base priority raised by the ceilings held |
| `Kernel.Kernel.MutexRaisePriority` | hrp2/kernel/mutex.c:298-305 | the priority is raised, to the front of its queue, if it was lower; the result tells exactly whether dispatching is enabled and the task to run changed |
| `Kernel.Kernel.MutexDropPriority` | hrp2/kernel/mutex.c:310-322 | the priority is computed again, only if the ceiling given up had made it; the result tells exactly whether dispatching is enabled and the task to run changed |
| `Kernel.Kernel.MutexAcquire` | hrp2/kernel/mutex.c:327-336 | the task owns the mutex and has at least its ceiling; the result tells exactly whether dispatching is enabled and the task to run changed |
| `Kernel.Kernel.MutexRelease` | hrp2/kernel/mutex.c:343-370 | the head waiter becomes the owner, with the ceiling, or the mutex is free; the result tells exactly whether dispatching is enabled and the task to run changed |
| `Kernel.Kernel.MutexReleaseAll` | hrp2/kernel/mutex.c:379-393 | every mutex of the list is released; the result covers every change of the task to run |
| `Kernel.Kernel.LocMtx` | hrp2/kernel/mutex.c:560-724 | loc_mtx and tloc_mtx: takes a free mutex with its ceiling, or waits for it; E_ILUSE below the ceiling, E_OBJ for its owner; the task to run is the caller again after taking it |
| `Kernel.Kernel.PlocMtx` | hrp2/kernel/mutex.c:618-660 | ploc_mtx: takes a free mutex or returns E_TMOUT without waiting |
| `Kernel.Kernel.UnlMtx` | hrp2/kernel/mutex.c:733-775 | unl_mtx: gives the mutex up, drops the priority if its ceiling made it, hands the mutex to the first waiter and dispatches if that preempts |
| `Kernel.Kernel.IniMtx` | hrp2/kernel/mutex.c:784-827 | ini_mtx: releases all waiters with E_DLT, takes the mutex from its owner, whose priority drops, and dispatches |
| `Kernel.Kernel.ActTsk` | hrp2/kernel/task_manage.c:375-411 | act_tsk: starts a dormant task, or queues one activation, or returns E_QOVR; dispatches if the new task preempts |
| `Kernel.Kernel.IactTsk` | hrp2/kernel/task_manage.c:420-453 | iact_tsk: the same in a handler, requesting the dispatch with reqflg |
| `Kernel.Kernel.ExtTsk` | hrp2/kernel/task_manage.c:498-552 | ext_tsk: ends the caller: enables dispatching, releases all its mutexes, makes it dormant or starts it again, dispatches |
| `Kernel.Kernel.TerTsk` | hrp2/kernel/task_manage.c:561-619 | ter_tsk: ends another task in whatever state it is: off its queue and timer, mutexes released to their waiters, dormant or started again |
| `Kernel.Kernel.ChgPri` | hrp2/kernel/task_manage.c:628-678 | chg_pri: changes the base priority under the ceiling check, and re-queues the task only if it holds no ceiling mutex |
| `Kernel.Kernel.AcreTsk` | hrp2/kernel/task_manage.c:236-267 | the state part of acre_tsk: takes a free control block for a dormant task and starts it with TA_ACT without dispatching; the invariant is kept unless that leaves a dispatch undone |
| `Kernel.Kernel.DelTsk` | hrp2/kernel/task_manage.c:326-366 | del_tsk: returns a dormant, dynamically created task to the end of the free list, and refuses all others |
| `Kernel.Kernel.SlpTsk` | hrp2/kernel/task_sync.c:172-244 | slp_tsk and tslp_tsk: uses up a queued wake-up or puts the caller to sleep, with or without time limit |
| `Kernel.Kernel.DlyTsk` | hrp2/kernel/task_sync.c:740-771 | dly_tsk: puts the caller to sleep until its time limit, which ends the wait with E_OK |
| `Kernel.Kernel.WupTsk` | hrp2/kernel/task_sync.c:253-292 | wup_tsk: wakes a sleeping task or queues one wake-up, or returns E_QOVR |
| `Kernel.Kernel.IwupTsk` | hrp2/kernel/task_sync.c:301-337 | iwup_tsk: the same in a handler, requesting the dispatch with reqflg |
| `Kernel.Kernel.RelWai` | hrp2/kernel/task_sync.c:385-417 | rel_wai: ends any wait with E_RLWAI, and refuses a task that does not wait |
| `Kernel.Kernel.IrelWai` | hrp2/kernel/task_sync.c:426-455 | irel_wai: the same in a handler, requesting the dispatch with reqflg |
| `Kernel.Kernel.SusTsk` | hrp2/kernel/task_sync.c:464-515 | sus_tsk: suspends a runnable or waiting task, refuses itself while dispatching is disabled, E_QOVR when suspended already |
| `Kernel.Kernel.RsmTsk` | hrp2/kernel/task_sync.c:524-569 | rsm_tsk: resumes a suspended task at the end of its ready queue, or a waiting one where it waits |
| `Kernel.Kernel.DisWai` | hrp2/kernel/task_sync.c:578-614 | dis_wai: forbids waits for a task whose exceptions are masked, and refuses a task already forbidden |
| `Kernel.Kernel.EnaWai` | hrp2/kernel/task_sync.c:665-695 | ena_wai: permits waits again, and refuses a task not forbidden |
| `Kernel.Kernel.DisDsp` | hrp2/kernel/sys_manage.c:437-455 | dis_dsp: disables dispatching until it is enabled again |
| `Kernel.Kernel.EnaDsp` | hrp2/kernel/sys_manage.c:464-487 | ena_dsp: enables dispatching unless an interrupt mask forbids it, and makes up for the pending dispatch |
| `Kernel.Kernel.ChgIpm` | hrp2/kernel/interrupt.c:496-531 | chg_ipm: disables dispatching while interrupts are masked, and makes up for the pending dispatch when all are enabled and dispatching is not disabled |
| `Kernel.Kernel.RotRdq` | hrp2/kernel/sys_manage.c:187-209 | rot_rdq: rotates the ready queue of a priority, or of the base priority of the caller with TPRI_SELF, and dispatches |
| `Kernel.Kernel.IrotRdq` | hrp2/kernel/sys_manage.c:218-237 | irot_rdq: the same in a handler for a given priority, requesting the dispatch with reqflg |
| `Kernel.Kernel.SigSem` | hrp2/kernel/semaphore.c:331-369 | sig_sem: hands the semaphore to the first waiter or counts up to the maximum, and dispatches if the waiter preempts |
| `Kernel.Kernel.IsigSem` | hrp2/kernel/semaphore.c:378-413 | isig_sem: the same in a handler, requesting the dispatch with reqflg |
| `Kernel.Kernel.WaiSem` | hrp2/kernel/semaphore.c:422-550 | wai_sem and twai_sem: counts down, or makes the caller wait, with or without time limit; E_RLWAI when waits are forbidden |
| `Kernel.Kernel.PolSem` | hrp2/kernel/semaphore.c:468-498 | pol_sem: counts down or returns E_TMOUT without waiting |
| `Kernel.Kernel.IniSem` | hrp2/kernel/semaphore.c:559-591 | ini_sem: releases all waiters with E_DLT, sets the initial count and dispatches |
| `Kernel.Kernel.SetFlg` | hrp2/kernel/eventflag.c:357-407 | set_flg: sets bits and walks the waiting tasks, releasing those whose conditions hold, only the first with TA_CLR |
| `Kernel.Kernel.IsetFlg` | hrp2/kernel/eventflag.c:416-459 | iset_flg: the same in a handler, requesting the dispatch with reqflg |
| `Kernel.Kernel.ClrFlg` | hrp2/kernel/eventflag.c:468-495 | clr_flg: clears bits and releases no one |
| `Kernel.Kernel.WaiFlg` | hrp2/kernel/eventflag.c:504-660 | wai_flg and twai_flg: returns the pattern if the condition holds, clearing it with TA_CLR, or makes the caller wait; E_ILUSE for a second waiter without TA_WMUL, E_PAR for the empty pattern |
| `Kernel.Kernel.PolFlg` | hrp2/kernel/eventflag.c:561-597 | pol_flg: the same but E_TMOUT instead of waiting |
| `Kernel.Kernel.IniFlg` | hrp2/kernel/eventflag.c:669-701 | ini_flg: releases all waiters with E_DLT, sets the initial pattern and dispatches |
| `Kernel.Kernel.SndDtq` | hrp2/kernel/dataqueue.c:538-716 | snd_dtq, tsnd_dtq and their pdq forms: hands the data over, stores it, or makes the caller wait with it; E_PAR for a data priority out of range |
| `Kernel.Kernel.PsndDtq` | hrp2/kernel/dataqueue.c:588-621 | psnd_dtq: the same but E_TMOUT instead of waiting |
| `Kernel.Kernel.IpsndDtq` | hrp2/kernel/dataqueue.c:630-660 | ipsnd_dtq: the same in a handler, requesting the dispatch with reqflg |
| `Kernel.Kernel.FsndDtq` | hrp2/kernel/dataqueue.c:725-755 | fsnd_dtq: hands the data over or stores it, dropping the oldest when full, and returns E_OK whatever happened |
| `Kernel.Kernel.IfsndDtq` | hrp2/kernel/dataqueue.c:764-791 | ifsnd_dtq: the same in a handler, requesting the dispatch with reqflg |
| `Kernel.Kernel.RcvDtq` | hrp2/kernel/dataqueue.c:800-951 | rcv_dtq, trcv_dtq and their pdq forms: takes the first data, lets the first waiting sender store its own, or makes the caller wait |
| `Kernel.Kernel.PrcvDtq` | hrp2/kernel/dataqueue.c:856-890 | prcv_dtq: the same but E_TMOUT instead of waiting |
| `Kernel.Kernel.IniDtq` | hrp2/kernel/dataqueue.c:960-997 | ini_dtq: releases waiting senders and then receivers with E_DLT, empties the queue and dispatches |
| `Kernel.Kernel.GetMpf` | hrp2/kernel/mempfix.c:391-528 | get_mpf and tget_mpf: grants a free block, by its number, or makes the caller wait |
| `Kernel.Kernel.PgetMpf` | hrp2/kernel/mempfix.c:441-472 | pget_mpf: grants a free block, by its number, or returns E_TMOUT |
| `Kernel.Kernel.RelMpf` | hrp2/kernel/mempfix.c:537-588 | rel_mpf, the block given by its number: gives an allocated block, by its number, to the first waiter or to the free list; E_PAR for any other |
| `Kernel.Kernel.IniMpf` | hrp2/kernel/mempfix.c:597-631 | ini_mpf: releases all waiters with E_DLT, frees every block and dispatches |
| `Kernel.Kernel.Call` | hrp2/kernel/task.h:310-328 | every call, in any context, refines one step of the state machine: same state, same result, caches right; unless it is an acre_tsk that leaves a dispatch undone, afterwards the invariant holds, outside handlers dspflg implies p_runtsk = p_schedtsk, and inside handlers a pending switch with dspflg implies reqflg |
| `Kernel.Kernel.ExitInt` | hrp2/kernel/task.h:322-328 | leaving the last handler makes up for the dispatch that was requested with reqflg |
| `Kernel.Kernel.CheckFlgCond` | hrp2/kernel/eventflag.c:196-208 | tells whether the condition holds, returns the pattern, and clears it with TA_CLR exactly when it holds |
| `Kernel.Kernel.FlgLoop` | hrp2/kernel/eventflag.c:380-396 | the walk with removal along the wait queue does what the walk on the list does; the result covers every change of the task to run |
| `Kernel.Kernel.SendData` | hrp2/kernel/dataqueue.c:282-301 | send_data and send_pridata: the data goes to the first receiver, or is stored, or nothing changes |
| `Kernel.Kernel.ForceSendData` | hrp2/kernel/dataqueue.c:310-324 | force_send_data: the data goes to the first receiver, or is stored, dropping the oldest when full |
| `Kernel.Kernel.ReceiveData` | hrp2/kernel/dataqueue.c:333-361 | receive_data and receive_pridata: the oldest data is returned and the data of the first waiting sender takes its place; or nothing changes |
| `Queue.Node.constructor` | hrp2/include/queue.h:73-78 | queue_initialize makes an empty ring |
| `Queue.InsertPrev` | hrp2/include/queue.h:86-93 | on the pointer ring, queue_insert_prev at any entry inserts there and keeps both link directions consistent |
| `Queue.InsertNext` | hrp2/include/queue.h:101-108 | queue_insert_next at any entry inserts after it |
| `Queue.Delete` | hrp2/include/queue.h:115-120 | queue_delete removes exactly the entry, wherever it is |
| `Queue.DeleteNext` | hrp2/include/queue.h:130-140 | queue_delete_next removes and returns the first entry |
| `Queue.Empty` | hrp2/include/queue.h:147-155 | queue_empty tells whether the ring has no entries, and its assertion holds |
| `Queue.InsertByPriority` | hrp2/kernel/interrupt.c:135-148 | queue_insert_tpri and enqueue_isr on the pointer ring insert before the first entry of lower priority and keep the ring in priority order |
| `Queue.InsertOrder` | hrp2/kernel/interrupt.c:135-148 | the ring after an insertion by priority (queue_insert_tpri, enqueue_isr) is in priority order, the new entry standing after all of the same or higher priority and before all others |
| `Queue.DeleteOrder` | hrp2/kernel/wait.h:135-141 | the ring after a removal anywhere is in priority order |
| `Queue.ChangePriority` | hrp2/kernel/wait.h:270-277 | wobj_change_priority on the pointer ring: out of its place and in again by its new priority, after which the ring is in priority order |
| `Queue.RingInsertIsTpri` | hrp2/kernel/wait.h:59-72 | the pointer insertion is the list insertion of the kernel model |
| `Queue.RingDeleteIsRemove` | hrp2/include/queue.h:115-120 | the pointer removal is the list removal of the kernel model |
| `Interrupt.SearchIsrQueue` | hrp2/kernel/interrupt.c:222-248 | search_isr_queue returns the queue of the interrupt number, and none exactly when there is none |
| `EventHeap.EventHeap.Up` | hrp2/kernel/time_event.c:124-151 | tmevt_up: the hole moves up to where the time belongs; every other event keeps its time and its exact back-pointer |
| `EventHeap.EventHeap.Down` | hrp2/kernel/time_event.c:164-201 | tmevt_down: the hole moves down to where the time belongs; every other event keeps its time and its exact back-pointer |
| `EventHeap.EventHeap.Insert` | hrp2/kernel/time_event.c:213-229 | the heap, ordered by time modulo the word from min_time, gains exactly this event |
| `EventHeap.EventHeap.Delete` | hrp2/kernel/time_event.c:238-287 | the heap loses exactly this event, wherever it is, and is a heap again |
| `EventHeap.EventHeap.DeleteTop` | hrp2/kernel/time_event.c:294-320 | the heap loses exactly its first event and is a heap again |
| `EventHeap.EventHeap.TopFirst` | hrp2/kernel/time_event.c:64-65 | the root is an event and none is earlier |
| `EventHeap.EventHeap.Fits` | hrp2/base-workspace/OBJ/kernel_cfg.c:589 | last_index is the number of registered blocks, so the heap array, with one place for each block, never overflows |
| `EventHeap.EventHeap.Slide` | hrp2/kernel/time_event.c:394 | moving min_time up to a time no event is before keeps the heap a heap although times wrap |
| `TimeHeap.RelSlide` | hrp2/kernel/time_event.c:64-65 | events not before the new min_time keep their order when min_time moves |
| `TimeHeap.RootFirst` | hrp2/kernel/time_event.c:213-229 | the parent order of the array makes the root earliest of all |
| `TimeHeap.Room` | hrp2/kernel/time_event.c:213-229 | as long as some block is not registered there is room in the array |
| `TimeEvent.TickFirst` | hrp2/kernel/time_event.c:101-111 | the clock variables start exact |
| `TimeEvent.TickNext` | hrp2/kernel/time_event.c:364-381 | after tick k, next_time * TIC_DENO + next_subtime = (k + 1) * TIC_NUME: no drift |
| `TimeEvent.BaseLater` | hrp2/kernel/time_event.h:119-123 | base_time is the first whole time not before the next tick, so always after current_time |
| `TimeRun.ClockAt` | hrp2/kernel/time_event.c:364-381 | current_time after tick k is the whole part of k * TIC_NUME / TIC_DENO, for every k: no drift over any number of ticks |
| `TimeRun.OnceInTime` | hrp2/kernel/time_event.c:385-389 | an event asked for after tick k with relative time r fires in at most one later tick j, and only with j * TIC_NUME - (k + 1) * TIC_NUME >= r * TIC_DENO, so at least r after the call; tick j - 1 came less than r + 1 after tick k + 1; and once r + 1 has passed since tick k + 1 it has fired |
| `TimeEvent.PeriodsElapsed` | hrp2/kernel/cyclic.c:455-483 | a cyclic handler fires at its first time and then once in each period, none skipped and none doubled |
| `TimeEvent.Timer.constructor` | hrp2/kernel/time_event.c:101-111 | initialize_tmevt: exact clock, nothing registered |
| `TimeEvent.Timer.Enqueue` | hrp2/kernel/time_event.h:157-165 | tmevtb_enqueue registers the block at base_time + r exactly, although event times wrap |
| `TimeEvent.Timer.Dequeue` | hrp2/kernel/time_event.h:184-188 | tmevtb_dequeue takes exactly this block off |
| `TimeEvent.Timer.StaCyc` | hrp2/kernel/cyclic.c:331-364 | sta_cyc: the handler is operating and next fires at base_time + cycphs, also when it was operating; its block is registered iff cycsta |
| `TimeEvent.Timer.EnqueueCyc` | hrp2/kernel/cyclic.c:125-131 | tmevtb_enqueue_cyc registers the handler at the given time and records it in evttim |
| `TimeEvent.Timer.StpCyc` | hrp2/kernel/cyclic.c:373-403 | stp_cyc: the handler stops and its block is off the heap |
| `TimeEvent.Timer.StaAlm` | hrp2/kernel/alarm.c:319-395 | sta_alm and ista_alm: the alarm fires at base_time + almtim, also when it was running; E_PAR beyond TMAX_RELTIM |
| `TimeEvent.Timer.StpAlm` | hrp2/kernel/alarm.c:404-470 | stp_alm and istp_alm: the alarm stops and its block is off the heap |
| `TimeEvent.Timer.StartWait` | hrp2/kernel/wait.c:55-69 | a timed wait registers the block of the task at base_time + tmout |
| `TimeEvent.Timer.EndWait` | hrp2/kernel/wait.h:149-155 | the end of a wait takes the block off exactly when it was a timed one |
| `TimeEvent.Timer.LeftTime` | hrp2/kernel/time_event.c:327-342 | tmevt_lefttim: the time left counted from base_time, 0 when the next tick fires it |
| `TimeEvent.Timer.Callback` | hrp2/kernel/cyclic.c:455-483 | call_cychdr registers the handler at evttim + cyctim before it runs, call_almhdr and a time-out give up the block; what the handler starts is after current_time |
| `TimeEvent.Timer.FireTop` | hrp2/kernel/time_event.c:385-389 | one turn of the firing loop fires an event no other is earlier than |
| `TimeRun.Run` | hrp2/kernel/time_event.c:351-397 | any number of ticks, with any calls of tasks between them and any actions of handlers in them: an alarm or time-out nobody stops or restarts fires once, at its time, in the first tick that reaches it, is then off the heap and does not fire again; an unregistered one never fires; a cyclic handler left alone fires once for each period elapsed in all that time |
| `TimeRun.AlarmRun` | hrp2/kernel/alarm.c:319-395 | sta_alm and then any ticks that leave the alarm alone: it fires once and in time for almtim, counted from the call |
| `TimeRun.WaitRun` | hrp2/kernel/wait.c:55-69 | a wait with a time limit and then any ticks that leave it alone: it times out once and in time for the limit, counted from the call |
| `TimeRun.CyclicRun` | hrp2/kernel/cyclic.c:331-364 | sta_cyc and then any ticks that leave the handler alone: it fires at base_time + cycphs and every cyctim after that, once for each period elapsed |
| `TimeEvent.Timer.SignalTime` | hrp2/kernel/time_event.c:351-397 | one tick: the clock advances exactly, the loop ends although callbacks register events, everything due fires in order of time, each cyclic handler once per elapsed period; each alarm or time-out that handlers leave alone fires once, at its time, and is then off the heap if it was due, and otherwise stays as it was; nothing due is left |
| `DataArea.DataRing.Enqueue` | hrp2/kernel/dataqueue.c:223-232 | enqueue_data on the ring appends, and tail stays (head + count) modulo the capacity |
| `DataArea.DataRing.ForceEnqueue` | hrp2/kernel/dataqueue.c:241-255 | force_enqueue_data appends and drops only the oldest data, only when the ring is full |
| `DataArea.DataRing.Dequeue` | hrp2/kernel/dataqueue.c:264-273 | dequeue_data returns and removes the oldest data |
| `DataArea.DataRing.Reset` | hrp2/kernel/dataqueue.c:960-997 | ini_dtq empties the ring |
| `Ring.RingForce` | hrp2/kernel/dataqueue.c:241-255 | on a full ring, overwriting at head and moving head is: append and drop the oldest |
| `DataArea.PriArea.Enqueue` | hrp2/kernel/pridataq.c:209-237 | enqueue_pridata on the linked list inserts by data priority after equals; list, free list and never-used blocks stay disjoint, with count + free list length = unused |
| `DataArea.PriArea.Dequeue` | hrp2/kernel/pridataq.c:246-260 | dequeue_pridata returns and removes the first data and gives its block to the free list |
| `DataArea.SpliceOk` | hrp2/kernel/pridataq.c:222-236 | relinking through the pointer to the link puts the block at its place and leaves the free list alone |
| `DataArea.MemPool.GetBlock` | hrp2/kernel/mempfix.c:189-206 | get_mpf_block returns the address of a block that was not allocated, inside the pool, and marks it; the free list stays acyclic |
| `DataArea.MemPool.CheckBlock` | hrp2/kernel/mempfix.c:559-567 | the address check of rel_mpf accepts exactly the starts of blocks allocated now |
| `DataArea.MemPool.RelBlock` | hrp2/kernel/mempfix.c:574-581 | a released block goes to the front of the free list |
| `DataArea.MemPool.Reset` | hrp2/kernel/mempfix.c:617-620 | ini_mpf makes every block free |
| `Serial.SerialPort.constructor` | hrp2/syssvc/serial.c:278-289 | opening a port empties both buffers |
| `Serial.SerialPort.WriChr` | hrp2/syssvc/serial.c:410-461 | the locked section of serial_wri_chr: the character goes to the device or to the end of the send buffer; tells whether the buffer is now full |
| `Serial.SerialPort.ReaChr` | hrp2/syssvc/serial.c:521-553 | the locked section of serial_rea_chr: the oldest character is taken and flow control is resumed when due; tells whether the buffer is now empty |
| `Serial.SerialPort.IrdySnd` | hrp2/syssvc/serial.c:687-720 | sio_irdy_snd: flow control characters first, then the oldest character; signals exactly when the buffer was full |
| `Serial.SerialPort.IrdyRcv` | hrp2/syssvc/serial.c:725-793 | sio_irdy_rcv: flow control, or the character kept or lost when full; signals exactly when the buffer was empty |
| `SerialTokens.StepInv` | hrp2/syssvc/serial.c:410-461 | every section of any task or callback keeps one token for each buffer, the order of the data and the absence of errors |
| `SerialTokens.PortIsSafe` | hrp2/syssvc/serial.c:687-793 | for any interleaving of any number of tasks and callbacks on an open port: semaphore + holder + [send buffer full] = 1 and semaphore + holder + [receive buffer empty] = 1; isig_sem never overflows; buffers stay in bounds; a writer about to store finds room and a reader about to take finds data; data leaves in the order accepted |
| `SerialTokens.SigSndOk` | hrp2/syssvc/serial.c:705-712 | a signal when no token is about makes exactly one and does not overflow snd_sem |
| `Memory.SearchMeminib` | hrp2/kernel/memory.c:71-88 | the binary search returns the region that contains the address, for any sorted table |
| `Memory.RegionUnique` | hrp2/kernel/memory.c:71-88 | there is only one such region |
| `Memory.MemSizeIs` | hrp2/kernel/memory.c:104-115 | the size left in the region is exact also for the last region, whose end is written 0 |
| `Memory.SizeCheck` | hrp2/kernel/memory.c:104-115 | the size check passes exactly for ranges inside the one region, without wrap |
| `Memory.WriteProbeExact` | hrp2/kernel/memory.c:99-131 | probe_mem_write says yes exactly when the whole range is in one memory object the domain may write, or in the stack of the task |
| `Memory.ReadProbeExact` | hrp2/kernel/memory.c:142-172 | probe_mem_read says yes exactly when the whole range is in one readable memory object of the domain, or in the stack of the task |
| `Memory.ValidExact` | hrp2/kernel/memory.c:182-205 | valid_memobj says yes exactly when the whole range is in one memory object; valid_memobj_kernel implies it |
| `Memory.KernelOnly` | hrp2/kernel/memory.c:214-243 | of what valid_memobj_kernel accepts, a user domain can probe nothing for reading or writing but the stack of the task itself |
| `Memory.WriteProbesAgree` | hrp2/kernel/mem_manage.c:68-143 | probe_memory for writing by the running user task succeeds exactly when probe_mem_write does and acptn4 permits |
| `Memory.ReadProbesAgree` | hrp2/kernel/mem_manage.c:68-143 | the same for reading and probe_mem_read |
| `Memory.ProbeModesExact` | hrp2/kernel/mem_manage.c:68-143 | for any modes, probe_memory by the running user task succeeds exactly when acptn4 permits, the range is in one memory object (and in the stack of the task in a stack region), and each mode asked for is permitted by its own fast probe, or for execution by the attribute and acptn2 |
| `Memory.WithinExact` | hrp2/kernel/memory.h:125-130 | within_memobj is exact containment and no sum in it can overflow |
| `Memory.FitsInside` | hrp2/kernel/memory.c:104-115 | a range that passes lies in one region and no other |

## Left out

- Access control vectors, protection domains in service calls and the argument checks of
  the CHECK macros: guards in front of the modelled code. An invalid identifier is E_ID.
- Task exception routines, overrun handlers and CPU exceptions: user code or hardware.
- Creation and deletion of objects other than tasks, of cyclic handlers and of alarms: on
  tasks and queues they have the effect of initialization calls, which are modelled.
- `can_act`, `can_wup`, `ref_` calls and `get_` calls, and the interrupt-side copies of
  `dis_wai` and `ena_wai`: they read or clear one field, or repeat what is modelled.
- Context switching itself: `dispatch()` sets the running task to the task to run, and the
  exit of the last interrupt handler dispatches when it was requested. Code bodies shared
  by the task and interrupt forms of a call, or by the polling and waiting forms, are one
  method here.
- The two processor locks: a call is one step, and interrupt handlers make calls between
  steps. Nesting of handlers is one flag.
- Ready and wait queues in the kernel class are sequences held in arrays, not pointer
  rings; the rings are proved separately, against the same list functions.
- The event heap is, in the kernel class, the set of tasks with a registered event block;
  times, heap and firing order are in the time event part.
- In `ini_mtx` the owner field is cleared after the owner's priority has dropped, where the
  C code does it before; no one can look in between.
- Stored data of both kinds of data queue are pairs of data and priority.
- Kernel.Kernel.DisWai: whether the task masks its exceptions is an argument.
- Kernel.Kernel.GetMpf: grants a block by its number; the address is in `DataArea.MemPool`.
- Kernel.Kernel.PgetMpf: grants a block by its number; the address is in `DataArea.MemPool`.
- Kernel.Kernel.RelMpf: takes a block by its number; the check that an address is the start
  of an allocated block is `DataArea.MemPool.CheckBlock`.
- Wait information that the C code keeps on the stack of the waiting task is in its task
  control block.
- The word of event times is assumed to have room for TMAX_RELTIM and two ticks.
- What handlers do during a tick is a sequence of alarm starts, alarm stops and ends of
  timed waits for each firing; `sta_cyc` and `stp_cyc` are task calls and do not occur there.
- Callback pointers: the number of an event block tells what it belongs to.
- SerialTokens.PortIsSafe: an open port without forced release of its waiting tasks;
  closing it, `serial_get_chr` and the error exits of the echo are not part of this model.
- Whether the serial device takes a character is a parameter; in `sio_irdy_snd` the device
  takes it, as it has just said that it can.
- Task stacks, memory section initialization, the system log and trace buffers, the kernel
  heap allocator, the configurator, the loader and the user interface.
