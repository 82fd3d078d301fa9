# ZeOS in Dafny

A model of the ZeOS kernel's core: the two-level round-robin scheduler with its join and
mutex queues, frames and address spaces with `fork`, the stack work of a context switch,
and two word-level helpers. The C functions that change kernel data in place are classes
and methods over pointer maps and arrays; each is proved to do what a function from state
to state says, and the theorems are about those functions and about runs of them.

| file | what it holds |
|---|---|
| `Rings.dfy`, `ListHeap.dfy` | queues as sequences; the circular pointer lists that stand for them |
| `Options.dfy`, `Scheduling.dfy`, `Agreement.dfy`, `Steps.dfy`, `Boot.dfy` | the kernel's queues and structs, every step as a function, the invariant that all steps keep |
| `Scheduler.dfy` | the same steps in place: pointer lists, arrays of structs, remaining quanta |
| `Runs.dfy`, `Reachable.dfy` | runs of steps; what holds in every state from boot |
| `Effects.dfy` | what each call and the tick change and answer, told without their steps |
| `Dispatches.dfy`, `Switching.dfy` | which steps dispatch whom, and what that does to queues and quanta |
| `Quanta.dfy`, `Timing.dfy`, `Starvation.dfy`, `ThreadTurns.dfy`, `ThreadRuns.dfy` | what the quanta are worth; when processes and threads get their turn: by ticks alone, and in any run |
| `Identities.dfy`, `Joining.dfy`, `Stranded.dfy`, `MutexLife.dfy`, `MutexRuns.dfy` | what threads are known by, who is woken, who never is, and in what order; a mutex from init to destroy |
| `FreeStructs.dfy` | how many thread structs and PIDs a run uses up |
| `Frames.dfy`, `Paging.dfy`, `Memory.dfy`, `AddressSpaces.dfy` | the frame allocator, page tables, fork's copy, isolation, conservation |
| `LiveProcesses.dfy`, `Kernel.dfy`, `System.dfy` | scheduler and address spaces as one machine |
| `Machine.dfy`, `Contexts.dfy`, `Actions.dfy` | the stack machine under a switch; contexts over interleavings; the machine's methods as steps of those |
| `Interleaving.dfy`, `FirstRuns.dfy`, `NewThreads.dfy` | scheduler and stack machine together: who is dispatched resumes; where a child and a created thread start |
| `FailingRuns.dfy` | runs from boot that end where the code fails its callers |
| `CopyData.dfy`, `Division.dfy` | `copy_data`, `do_div` |

How to read the central definitions:

- A `Sched` is the scheduler's whole state. `Steps.Tick`, `Yield`, `Create`, `Join`,
  `PthreadExit`, `MutexInit`, `MutexLock`, `MutexUnlock`, `MutexDestroy`, `Fork` and `Exit`
  are its steps; the `Guard` predicates are what the C code relies on without checking
  (for `list_first` on a queue that must not be empty, for instance).
- `Inv` ties the `state` fields to queue membership, which is what makes every `list_del`
  of the kernel safe. `ApplyInv` says that every step keeps it; no result about runs
  assumes it beyond the first state, which boot establishes.
- A `Mem` is `phys_mem`, the page tables and the contents of the frames. `Isolated` and
  `Conserved` are its invariants; `Kernel.Good` puts both halves together.

Results that say where the code falls short of what one would expect, each with the exact
condition under which it does not:

- the process quantum is lost when both quanta run out in the same tick while only the
  thread level has someone waiting (`QuantumLostIff`), after which no other process is
  dispatched in any run until the running one exits (`ExactWait`, `ServedInRunIff`, with a
  run from boot in `ChildNeverServed`);
- `pthread_exit` wakes the head of the join queue and only marks the others
  (`ExitWakesAllIff`, `StepKeepsStatesIff`), who then stay in the queue until their process
  exits, because the TID they wait for never comes back (`InVainForEver`, with a run from
  boot in `LeftBehindFromBoot`);
- `unlock` clears `locked` when it hands the mutex to the last waiter (`UnlockHandsOver`),
  and of a mutex that was locked without anyone waiting since it takes a first waiter that
  is not there (`LoneLockStays`);
- `fork` unmaps thread stacks in pages 284 to 303 of its caller (`ForkLeavesParentIff`):
  create a thread after boot and fork, and its stack is gone (`LoseStack`);
- `fork` maps the code pages writable, and they are the same frames for all: a store to one
  is seen by every live process (`StoreSeenIff`, `CodeIsShared`), a resting one keeps its
  code and a waiting child gets its parent's if and only if such stores have been undone
  (`RestingSpace`, `ChildStartsAsParentWas`), and a child of the first process can make one
  (`StoreSeen`);
- `copy_data` is not a move when the destination starts inside the source
  (`CopyIsMoveIff`);
- a yield with an empty ready list, and no other step, switches to its own thread
  (`DispatchesItselfIff`), which loads the stack pointer of an earlier switch and so
  returns to its caller only if a stale frame happens to fit (`SelfSwitchIff`,
  `LoneYieldResumesIff`); for a thread that was never switched out it does not
  (`FirstSelfSwitchFails`), the boot thread among them (`BootYield`, `BootYieldIsLost`).
  Over runs without lone yields every dispatch resumes what the dispatched thread was
  doing (`SwitchesAreIntoIff`, `DispatchedResumes`).

Where comments and code disagree the code is followed: the comment at sys.c:115 names the
last page as fork's window, the code uses pages 284 to 303; `init_freethreadqueue` lists
NR_TASKS thread structs, not NR_THREADS.

`dafny verify dfyconfig.toml` checks everything.

## Model

| member | source | states |
|---|---|---|
| ListHeap.ListHeap.InitListHead | list.c:6-10 | the head becomes an empty circle; every other list on the heap is untouched |
| ListHeap.ListHeap.ListAddTail | list.c:50-53 | an unlinked node becomes the last of one list; next and prev stay inverse on all circles, other lists untouched |
| ListHeap.ListHeap.ListAdd | list.c:36-39 | the same in front |
| ListHeap.ListHeap.ListDel | list.c:74-79 | a linked node leaves its list from any position and its pointers are cleared; other lists untouched |
| ListHeap.ListHeap.ListEmpty | list.c:96-99 | true exactly for the empty list |
| ListHeap.ListHeap.ListIsLast | list.c:86-90 | true exactly for the last member |
| ListHeap.CircleFrame | list.c:18-26 | stores at addresses of other circles leave a circle alone |
| Rings.DeleteUndoesAppend | list.c:50-79 | adding at the tail and deleting gives back every queue as it was |
| Rings.DeleteWellFormed | list.c:74-79 | no node is in two places, before and after a deletion, and exactly the deleted one is in none |
| Steps.UpdateLinked | sched.c:160-173 | a linked thread goes from wherever it is to the end of the destination, READY exactly if that is its process's ready list |
| Scheduler.Scheduler.constructor | sched.c:235-328 | initialising the queues, the idle task and task 1 yields the booted state |
| Scheduler.Scheduler.InitFreequeue | sched.c:298-312 | tasks 0 to 9 in order in freequeue, each with two empty thread queues |
| Scheduler.Scheduler.InitFreethreadqueue | sched.c:314-328 | threads 0 to 9 in order in free_threadqueue, nothing else queued |
| Scheduler.Scheduler.UpdateThreadState | sched.c:160-173 | the pointer version does what `UpdateThread` says, provided the state says truly whether the node is linked |
| Scheduler.Scheduler.UpdateProcessState | sched.c:145-158 | likewise for `UpdateProcess` |
| Effects.UpdateThreadEffect | sched.c:160-173 | from wherever it is, if anywhere, a thread comes to be last in the destination and in no other queue: READY in its process's ready list, BLOCKED elsewhere, RUN without one |
| Effects.UpdateProcessEffect | sched.c:145-158 | likewise a task that goes to readyqueue |
| Scheduler.Scheduler.NeedsSchedRr | sched.c:130-142 | the verdict, and the refills when there is nothing to switch to |
| Scheduler.Scheduler.SchedNextThread | sched.c:204-216 | the first ready thread of the process leaves its list and runs with its full quantum |
| Scheduler.Scheduler.SchedNextProcess | sched.c:175-201 | the first ready process and its first thread leave their lists and run with full quanta |
| Scheduler.Scheduler.Schedule | sched.c:218-233 | a timer tick is `Tick`, and keeps the invariant |
| Scheduler.Scheduler.ForceThreadSwitch | sched.c:364-369 | the running thread goes to the tail and the head runs |
| Scheduler.Scheduler.SysYield | sys.c:293-297 | yield is `Yield` |
| Scheduler.Scheduler.SysPthreadJoin | sys.c:299-309 | join is `Join` |
| Dispatches.JoinNeverFails | sys.c:300 | the error return of join is never taken: a process that runs has counted a thread |
| Scheduler.Scheduler.SysPthreadExit | sys.c:311-345 | the rotating scan and the dispatch together are `PthreadExit` |
| Scheduler.Scheduler.ScanJoiners | sys.c:319-340 | the scan ends, visits each joiner once, leaves the queue in its order; only a matching head moves |
| Scheduler.Scheduler.FreeAll | sys.c:262-272 | an exit loop returns all threads of a queue in order, with TIDs cleared |
| Scheduler.Scheduler.SysExit | sys.c:258-290 | the queue part of exit is `Exit` |
| Scheduler.Scheduler.SysMutexInit | mutex.c:7-18 | init is `MutexInit` |
| Scheduler.Scheduler.SysMutexLock | mutex.c:20-32 | lock is `MutexLock`: take it, or block at the tail and dispatch |
| Scheduler.Scheduler.SysMutexUnlock | mutex.c:34-46 | unlock is `MutexUnlock`: the first waiter becomes ready, `locked` falls with the last one |
| Scheduler.Scheduler.SysMutexDestroy | mutex.c:48-64 | destroy without waiters is `MutexDestroy` |
| Effects.TickEffect | sched.c:124-233 | the whole state after a tick in each of its three cases; when nobody is dispatched a quantum that has run out is filled up, the process's from the task, the thread's from the thread, and nothing else changes |
| Quanta.AloneCountsDown | sched.c:139-140 | a process alone counts both quanta down and fills each up from its own, over and over: qp - n % qp and qt - n % qt after n ticks |
| Quanta.BootAlone | sched.c:139-140 | for the booted kernel 20 - n % 20 and 10 - n % 10 |
| Quanta.QuantaFromBoot | sched.c:124-233 | in every state of every run from boot neither exceeds the quantum of what runs |
| Effects.YieldEffect | sched.c:364-369 | the caller is last in its ready list, READY, the first one runs with its quantum, all else is as it was |
| Effects.JoinEffect | sys.c:299-309 | the caller has noted whom it waits for and is last among the joiners, BLOCKED, the first ready one runs; the answer is 0 |
| Effects.PthreadExitFrame | sys.c:311-345 | beside queues and states an exiting thread changes only who runs, with a full quantum |
| Effects.ExitEffect | sys.c:258-290 | task and waiting threads free in order, PID and TIDs cleared, the next process and thread run with full quanta, all else is as it was |
| Effects.InitEffect | mutex.c:7-18 | 0, -EINVAL and -EBUSY each exactly when; after 0 the mutex is the caller's, unlocked, without waiters, after an error nothing has changed |
| Effects.LockFreeEffect | mutex.c:20-32 | a free mutex is locked afterwards and nothing else has changed; -EINVAL exactly for a number out of range |
| Effects.LockBlocksEffect | mutex.c:25-29 | on a locked one the caller is last among its waiters, BLOCKED, and another thread of the process runs |
| Effects.UnlockEffect | mutex.c:34-46 | -EINVAL exactly for a number out of range; an unlocked mutex is left alone |
| Effects.UnlockWakesEffect | mutex.c:40-44 | the first waiter is the last ready thread, READY, `locked` says whether others wait, the owner stays, all else is as it was |
| Effects.DestroyEffect | mutex.c:48-64 | 0 exactly if the caller's TID is the owner, -EPERM exactly if it is another's, -EINVAL otherwise; the owner is cleared, and after an error nothing has changed |
| MutexLife.InitOnce | mutex.c:12 | an initialised mutex cannot be initialised: -EBUSY |
| MutexLife.InitThenDestroy | mutex.c:7-64 | who initialised it can destroy it, and that leaves everything else as before the init |
| MutexLife.OnlyOwnerDestroys | mutex.c:52 | no thread with another TID can, in any later state with the same owner |
| MutexLife.DestroyThenInit | mutex.c:60-61 | a destroyed mutex can be initialised again |
| MutexLife.LockThenLock | mutex.c:25-30 | once locked, every further lock blocks its caller |
| MutexLife.LoneLockStays | mutex.c:40-42 | what unlock relies on does not hold for a mutex just locked |
| MutexLife.LockerIsServed | mutex.c:20-46 | over any run a thread that locks a locked mutex with k waiters is handed it by exactly the (k+1)-th unlock from then on, and is BLOCKED until then |
| Effects.CreateAnswers | sys.c:199-200 | -EFAULT exactly for a bad address, -ENOMEM exactly for a good one without a free thread; the state changes exactly on 0 |
| Effects.CreateEffect | sys.c:202-242 | the new thread is its creator's copy with the next TID and a quantum of 10, READY behind the others |
| Effects.ForkAnswers | sys.c:56-103 | -ENOMEM without a struct, -EAGAIN without frames, the new PID otherwise |
| Effects.ForkEffect | sys.c:126-154 | the child's task and thread struct in full, both last in their queues, all else is as it was |
| FreeStructs.FreeLeft | sys.c:56-204 | eight threads are free after boot, and over every run without exits each create and each fork takes one until none is left |
| FreeStructs.NinthFails | sys.c:200 | so the ninth of them is the first to answer -ENOMEM |
| FreeStructs.ForkAnswersInOrder | sys.c:127 | over every run from boot the k-th fork that succeeds answers 1000 + k |
| Steps.ScanStep | sys.c:325-335 | each turn of the scan meets the next joiner, not the first again, and puts it behind |
| Steps.ScanEnd | sys.c:325-340 | the scan stops exactly when all have been put back: the queue is as before, the matching ones behind the head are marked |
| Steps.ParkOrder | sched.c:221-228 | which of process and thread is parked first makes no difference |
| Steps.TickInv | sched.c:218-233 | a tick keeps the agreement between queues and structs |
| Steps.PthreadExitInv | sys.c:311-345 | so does the exit of a thread |
| Steps.MutexUnlockInv | mutex.c:34-46 | so does an unlock |
| Steps.ForkInv | sys.c:49-157 | so does a fork, successful or not |
| Steps.ExitDispatches | sys.c:245-290 | so does an exit, which finds a real process with a real thread to run |
| Agreement.DispatchProcess | sched.c:175-201 | with a ready process there is always a thread of its own to dispatch, and dispatching it restores the invariant |
| Agreement.DispatchThread | sched.c:204-216 | likewise within a process |
| Boot.BootInv | sched.c:235-296 | the booted kernel satisfies the invariant |
| Runs.ApplyInv | sched.c:218-233 | every step keeps the invariant |
| Reachable.QueuesOverRuns | sched.c:145-216 | in every state reached from boot: no node at two places, ready processes READY with a ready thread of their own, free ones without threads, RUN the current thread's mark alone, and any other busy thread linked |
| Reachable.StatesIff | sched.c:160-173 | states say READY, BLOCKED, RUN exactly by place if and only if all joiners are marked BLOCKED |
| Reachable.StepKeepsStatesIff | sys.c:324-335 | the one step that breaks this is the exit of a thread with a joiner behind the head of the queue |
| Reachable.StatesOverRuns | sched.c:145-216 | without such exits every thread's state says where it is, in every state from boot |
| Timing.ExactWait | sched.c:124-142 | over any run without exits a ready process is dispatched if and only if the process quantum is not lost and as many ticks have passed as the remaining quantum and the quanta ahead of it add up to |
| Timing.BoundedWait | sched.c:175-233 | with exits, that many ticks are enough |
| Timing.StepWait | sched.c:218-233 | no step raises the wait; a tick lowers it |
| Timing.TickWait | sched.c:124-142 | a tick lowers it by exactly one |
| Starvation.QuantumLostIff | sched.c:131-139 | the only way for the process quantum to be lost |
| Starvation.ProcessServedIff | sched.c:130-142 | by ticks alone, a ready process is ever dispatched if and only if the quantum has not been lost |
| Starvation.ChildNeverServed | sched.c:130-142 | a run from boot that loses it: create, twenty ticks, fork |
| ThreadTurns.StepTurn | sched.c:160-233 | no step sets a ready thread back, and a tick of its process brings it nearer |
| ThreadTurns.ServedWithin | sched.c:130-233 | by ticks alone, every ready thread runs within its turn times a round plus its process's wait |
| ThreadTurns.ThreadServedIff | sched.c:130-142 | by ticks alone, it is ever served if and only if its process runs or the quantum has not been lost |
| ThreadRuns.ServedByItsProcess | sched.c:160-233 | in any run in which its process does not exit, a ready thread runs once the process has run more ticks than its turn, whatever calls are made in between |
| ThreadRuns.ServedInAnyRun | sched.c:130-233 | from any state of any run from boot, it runs within turn * 200 + wait ticks, unless the quantum is lost with another process running or its own process exits first |
| ThreadRuns.ServedInRunIff | sched.c:130-142 | over a run without exits that is that long, it runs if and only if its process was running or the quantum was not lost |
| Dispatches.DispatchesItselfIff | sched.c:204-233 | a step leaves the same thread running if and only if it calls no task_switch or is a yield with an empty ready list |
| Dispatches.YieldDispatches | sched.c:364-369 | a yield picks its own thread if and only if the ready list is empty |
| Dispatches.TickDispatchesOther | sched.c:218-233 | a tick that dispatches never picks the thread it interrupted |
| Dispatches.BootYield | sched.c:262-296 | in a booted kernel the first yield does |
| Identities.StepIdentifies | sys.c:126-134 | every step keeps PIDs of live processes distinct and at most `global_PID`, TIDs of a process's threads distinct and below `nthread` |
| Identities.IdentitiesOverRuns | sys.c:234-234 | and so over every run: a TID names at most one thread of its process |
| Identities.IdentitiesFromBoot | sys.c:126-134 | in every state that a run from boot reaches |
| Identities.BootIdentified | sched.c:262-296 | at boot they are |
| Joining.PthreadExitEffect | sys.c:311-345 | everything an exiting thread changes: free queue, a matching head to the ready tail, marks, the dispatch |
| Joining.ExitWakesAllIff | sys.c:316-340 | all joiners are woken if and only if none is behind the head |
| Stranded.ExitStrands | sys.c:316-340 | after a thread's exit, everyone behind the head who joined it waits for a TID that no thread of the process has |
| Stranded.InVainForEver | sys.c:234-234 | and so in every state of every run until the process exits |
| FailingRuns.LeftBehindFromBoot | sys.c:316-340 | a run from boot that leaves a joiner so: two creates, two joins of thread 3, its exit |
| MutexRuns.WaitersImplyLocked | mutex.c:20-32 | read off the invariant that every run keeps (`ApplyInv`): a waiter is BLOCKED and its mutex initialised and locked |
| MutexRuns.UnlockHandsOver | mutex.c:40-43 | the first waiter becomes the last ready thread; the mutex stays locked if and only if others wait |
| MutexRuns.WaiterMovesForward | mutex.c:20-46 | over any run a waiter moves forward by one with each unlock and with nothing else |
| MutexRuns.FirstComeFirstServed | mutex.c:20-46 | the waiter at position k is handed the mutex by the (k+1)-th unlock and by none before |
| MutexRuns.ServedFromBoot | mutex.c:20-46 | the same from any state that a run from boot reaches, and until that unlock the waiter is BLOCKED on the locked mutex and does not run |
| Memory.Memory.AllocFrame | mm.c:214-227 | the lowest free even frame from 256, or -1 if and only if there is none |
| Memory.Memory.FreeFrame | mm.c:242-246 | frees frames 257 to 1023, ignores the others |
| Memory.SetSsPag | mm.c:249-257 | one entry is set, to 20 bits of the frame number |
| Memory.DelSsPag | mm.c:260-263 | one entry is cleared |
| Memory.Memory.InitTablePages | mm.c:55-76 | kernel pages lead to the frames of the same number, all others nowhere |
| Memory.Memory.InitFrames | mm.c:198-210 | exactly the kernel's frames are in use |
| Memory.Memory.SetUserPages | mm.c:81-106 | 28 user pages on every other frame from 256 |
| Memory.Memory.GrantPages | sys.c:82-88 | the lowest free frames in order, up to the first failure |
| Memory.Memory.TakeBack | sys.c:92-96 | the rollback loop |
| Memory.Memory.CopyDataPages | sys.c:115-122 | every data page's bytes arrive in the child's frame through the window, nothing else in memory changes, the window ends empty |
| Memory.Memory.ForkPages | sys.c:80-124 | succeeds if and only if twenty frames are free; the whole new memory state in both cases |
| Memory.Memory.MapStack | sys.c:216-230 | lowest empty entry from page 284, lowest free frame, stack top at the page's end; without a free frame the entry is 0xFFFFF, not empty and leading nowhere |
| Memory.Memory.FreePages | sys.c:249-256 | the data frames are free and unmapped |
| Frames.ReturnGranted | mm.c:242-246 | granting and freeing restores the byte map if and only if frame 256 was held or nothing was granted |
| Frames.GrantedCount | mm.c:214-227 | so many fewer frames are free |
| AddressSpaces.BootIsolated | mm.c:55-106 | after boot the address spaces are apart |
| AddressSpaces.ForkIsolated | sys.c:80-122 | a successful fork keeps: kernel and code frames shared, every other frame in use and mapped once |
| AddressSpaces.RollbackIsExact | sys.c:89-103 | a failed fork leaves frames, tables and contents exactly as they were |
| AddressSpaces.StackIsolated | sys.c:216-230 | so does a stack page that got a frame |
| AddressSpaces.ExitIsolated | sys.c:249-256 | so does an exit |
| AddressSpaces.ForkDuplicates | sys.c:104-122 | the child reads in every code and data page what its parent did |
| AddressSpaces.ForkLeavesOthers | sys.c:80-124 | every other live process reads what it did |
| AddressSpaces.ForkLeavesParentIff | sys.c:115-122 | the parent keeps its address space if and only if pages 284 to 303 were empty |
| FailingRuns.LoseStack | sys.c:115-122 | a booted kernel creates a thread and forks: page 284 of process 1 is mapped in between and not after |
| AddressSpaces.StoreLeavesOthers | sys.c:80-122 | a store to a private page is seen by no other process |
| AddressSpaces.StoreSeenIff | sys.c:111-114 | a store that changes a byte is seen by every other live process if it is to a code page, and by none if not |
| FailingRuns.StoreSeen | sys.c:111-114 | a booted kernel forks, the timer dispatches the child, which stores to page 256: its parent's code has changed |
| AddressSpaces.RoomForFork | sys.c:82-103 | free frames are 376 less twenty a live process less the stack pages mapped so far |
| AddressSpaces.StackSearchEnds | sys.c:218-230 | some entry among pages 284 to 660 is empty, so the search stays in the table |
| LiveProcesses.ForkAddsProcess | sys.c:60-66 | the struct a fork takes belonged to no live process, and is the one process more afterwards |
| LiveProcesses.ExitRemovesProcess | sys.c:258-260 | an exit takes exactly the running process out |
| Kernel.NextGood | sys.c:49-290 | every step keeps queues, isolation and conservation together |
| Kernel.KernelInvariant | sys.c:49-290 | and so every state from boot has them: used frames are 256 + 8 + 20 per live process + stack pages, odd ones beyond 256 never among them |
| Kernel.CodeIsShared | sys.c:111-114 | over every run each byte of code, one for all live processes, is what the last store to it by any of them has left |
| Kernel.RestingSpace | sys.c:80-124 | as long as a live process does not run, its page table and its data and stack bytes do not change, and its code does not if and only if every byte that was stored to has been put back; so if nobody stores to code |
| Kernel.ChildStartsAsParentWas | sys.c:104-122 | a child first runs with its parent's data as of the fork, however late, and with its code under the same condition |
| Kernel.ForkFailsIff | sys.c:82-103 | with free structs, fork fails if and only if 20 * (live + 1) + stacks > 376, and then memory is unchanged |
| Kernel.FailedForkLeaves | sys.c:89-103 | and the task struct moved from the head of freequeue to its tail, the thread struct is in no queue, all other queues are as before |
| System.System.SysFork | sys.c:49-157 | fork in place is the machine's fork step, result included |
| System.System.SysPthreadCreate | sys.c:197-243 | likewise pthread_create, with -EFAULT and -ENOMEM each exactly when and nothing changed on either; the stack top returned is the end of a page that was empty and is now mapped to a frame that was free |
| NewThreads.Fork | sys.c:49-157 | fork together with the kernel stack: the child's thread is prepared to start from its parent's user state, or its page spoilt when frames run out |
| NewThreads.PthreadCreate | sys.c:197-243 | together with the kernel stack: the new thread's leads to its start routine on that user stack |
| System.System.SysExit | sys.c:245-290 | likewise exit |
| Machine.Cpu.SwitchStack | kernel-utils.S:4-9 | stores ebp, takes the other stack pointer, pops ebp and the return address |
| Machine.Cpu.TaskSwitch | kernel-utils.S:12-25 | leaves the caller's frame complete on its stack and loads the one the other thread left, although inner_task_switch's epilogue is skipped |
| Machine.Cpu.InnerTaskSwitch | sched.c:350-362 | the standard frame around switch_stack |
| Machine.Cpu.FabricateFork | sys.c:137-149 | the child's stack: ret_from_fork above the parent's ebp, the rest the parent's |
| Machine.Cpu.FabricateThread | sys.c:211-228 | the thread's stack: start routine and stack top in the return frame |
| Machine.Cpu.FirstRunOfFork | sys.c:44-47 | a child's first dispatch reaches user mode in its parent's state with result 0 |
| Machine.Cpu.FirstRunOfThread | sys.c:211-228 | a thread's first dispatch reaches user mode at its start routine with the stack top it was made with |
| Machine.Cpu.EnterService | entry.S:86-97 | each of the eighteen words on the kernel stack when a service runs, the user state they stand for, and the kernel's data segment in ds and es |
| Machine.Cpu.ReturnFromService | entry.S:101-107 | a service's return reaches user mode in the state it was called from, with the result in eax |
| Machine.Cpu.SelfSwitch | kernel-utils.S:12-25 | what a switch to oneself loads: the words register_esp named before, wherever in memory |
| Contexts.FabricatedFrames | sys.c:137-149 | the stacks made by fork and pthread_create are contexts like those left by a switch |
| System.StartKernel | sched.c:298-328 | booting both halves gives a kernel that satisfies all invariants |
| Machine.Cpu.SaveAll | entry.S:39-53 | the order in which registers are saved |
| Machine.Cpu.RestoreAll | entry.S:55-66 | and its inverse |
| Machine.Cpu.SysenterFin | entry.S:101-107 | what user state the sixteen saved words and eax turn into |
| Contexts.SuspendedContexts | kernel-utils.S:12-25 | over every interleaving the context of every suspended thread stays on its stack |
| Contexts.RoundTrip | kernel-utils.S:4-25 | a dispatched thread has esp, ebp, ebx, esi, edi and return address of its own last call of task_switch, or of the frame made for it |
| Contexts.ForkedFirstDispatch | sys.c:137-149 | however many switches lie between fork and the child's first dispatch, it reaches user mode in its parent's state with result 0 |
| Contexts.CreatedFirstDispatch | sys.c:211-228 | likewise a created thread, at its start routine on its user stack |
| FirstRuns.ChildStarts | sys.c:137-149 | over every run from boot without lone yields, the first dispatch of a forked child's thread, at whatever step the scheduler makes it, starts in its parent's user state with result 0 |
| FirstRuns.ThreadStarts | sys.c:211-228 | likewise that of a created thread at its start routine, unless its process has exited |
| Actions.Switch | kernel-utils.S:12-25 | what task_switch does is the switch of `Contexts.Next` |
| Actions.SwitchToSelf | kernel-utils.S:12-25 | also to oneself |
| Actions.Fork | sys.c:70-149 | and what fork does to the kernel stacks is its preparation of a context |
| Actions.Create | sys.c:211-228 | so for pthread_create |
| Contexts.SelfSwitchIff | kernel-utils.S:4-9 | a thread that switches to itself resumes its call, all registers and stack, if and only if register_esp named the frame now pushed, or the saved ebp with the registers untouched |
| Contexts.FirstSelfSwitchFails | sched.c:262-296 | it does not when register_esp is 0, as at boot, or still what fork or pthread_create set |
| Interleaving.SwitchesAreIntoIff | sched.c:350-369 | in a run from boot every switch is into a thread that was left or prepared before if and only if nobody yields alone |
| Interleaving.DispatchedResumes | kernel-utils.S:4-25 | and in such a run every thread the scheduler dispatches resumes its own last context |
| Interleaving.LoneYieldResumesIff | sched.c:364-369 | a lone yield returns to its caller if and only if the stale frame fits |
| Interleaving.BootYieldIsLost | sched.c:262-296 | the boot thread's first lone yield does not |
| CopyData.Copy | utils.c:6-20 | the word loop and the byte loop compute `Copied` |
| CopyData.CopiedIsMoved | utils.c:6-20 | a byte-exact move, overlap included, unless the destination starts inside the source |
| CopyData.CopyIsMoveIff | utils.c:6-20 | a move of all contents if and only if it does not |
| Division.TwoStepDivision | utils.c:103-115 | the two halves of the quotient recombine to n / base and n % base |
| Division.Dividend.DoDiv | utils.c:103-115 | for every 64-bit n and non-zero 32-bit base: quotient in place, remainder returned |
| Division.DivlFitsIff | utils.c:112-112 | divl's quotient fits 32 bits if and only if the upper half is below the divisor |

## Left out

- Scheduler.Scheduler.SchedNextProcess: requires a process in readyqueue. The idle thread's turn (sched.c:193-195) is not modelled, because `init_idle` leaves its process unset.
- Scheduler.Scheduler.SysExit: requires a non-empty readyqueue, for the same reason, and that no thread of the process waits on a mutex, whose queue would keep a struct that the next process reuses.
- System.System.SysExit: requires the same.
- Scheduler.Scheduler.UpdateProcessState: readyqueue is its only destination, as in all calls; NULL and others are left out.
- ProcessServedIff: futures of ticks alone; ExactWait has runs with any calls.
- ServedWithin: futures of ticks alone; ServedInAnyRun has runs with any calls.
- ThreadServedIff: futures of ticks alone; ServedInRunIff has runs with any calls.
- SetSsPag: frame numbers only, not the user, rw and present bits.
- Memory.Memory.InitTablePages: likewise, and the two guard pages around the task array are mapped like their neighbours.
- Memory.Memory.SetUserPages: likewise.
- Machine.Cpu.InnerTaskSwitch: the frame and the call only, not the TSS, MSR and CR3 writes.
- Machine.Cpu.SelfSwitch: requires eight words of memory at register_esp; where there are none the machine faults.
- Mutual exclusion: the code does not give it (see `UnlockHandsOver`).
- Scheduler.Scheduler.SysMutexDestroy: only without waiters, because the loop deletes each waiter twice.
- Unlocking a locked mutex without waiters, and mutexes shared between processes: the code dereferences or queues wrongly there; `UnlockGuard` and `LockGuard` say what it needs.
- System.System.SysPthreadCreate: requires a free frame whenever a thread is created, because the code maps whatever alloc_frame returns; Memory.Memory.MapStack itself covers the failing case.
- StackSearchEnds: holds while every stack page got a frame; otherwise entries need not be distinct and nothing bounds the search.
- Copying a thread union copies its list pointers too; the model leaves the pointers of unlinked nodes alone, and they are overwritten when the node is linked.
- Machine.Cpu.CopyUnion: word by word, which is what copy_data does on two disjoint unions except that its last four bytes go one by one.
- A failed fork loses its thread struct and exit loses the running thread's; no conservation of thread structs is claimed.
- Stores to kernel pages, which fork also leaves writable in the child (sys.c:107-110).
- Stores that the rw bit forbids are not told apart: only those of the boot process to its own code, which init maps without the bit (mm.c:89-95), and the results about runs, which admit them, hold without them too.
- NewThreads.PthreadCreate: requires a free frame, as System.System.SysPthreadCreate does.
- Present, user and rw bits of page table entries, the TLB, CR3 and the TSS; tables map pages to frames, 0 is empty.
- access_ok, the user's `id` and `value_ptr` pointers: a boolean and a value.
- 32-bit wrap-around of PIDs, thread counts and quanta; TIDs are compared as integers.
- copy_from_user and copy_to_user: the same loops as copy_data, with a result that is always 0.
- The compiler: only the standard frame of saved ebp and return address is assumed, with callee-saved registers as the i386 convention has them.
- System call numbers out of range (entry.S:93-100): the handler answers -ENOSYS without a service.
- get_stats, getpid, gettime, write, console, keyboard, boot, linking, segments and MSRs: hardware, I/O or easy members.
- free_user_pages: not called by the modelled code.
- The other calls on the whole machine: they touch no frame or table, so Scheduler.dfy has them and `Kernel.Next` says that memory stays.
