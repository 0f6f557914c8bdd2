# ZeOS and Dig Dug: a verified model

ZeOS is a small teaching kernel for 32-bit x86. This project models three parts of its repository and proves what they
keep over whole runs:

- the extended kernel in `project/` (threads, stacks that grow, a scheduler with blocking calls, keyboard upcalls),
- the base kernel in `zeos/` (fork and exit with paging) and the `write` call of one exam kernel,
- the Dig Dug game in `project/game_*.c` that runs on the extended kernel.

Code that computes becomes functions and lemmas. Code that updates memory becomes classes: the kernel's lists are arrays
of links, page tables and memory are arrays with a translation cache, the heap of the search is an array. Methods are
proved against functions of the old state, or relations to it, and the theorems about runs are proved about these.

## Main results

**Search.** `logic_find_path_bfs` is Dijkstra's algorithm with a binary heap of limited size that drops what does not
fit. `Pathfinder.FindPath` is the whole search on arrays; it takes a run of an abstract search and ends with its answer.
Whatever is dropped, the direction starts a real path. If nothing is dropped, it starts a cheapest path, and there is no
direction exactly for the start itself and for targets out of reach (`Reach`: on the game's map, exactly if no path leads
there). Nothing is dropped if the passable cells fit the heap. `Crowded` shows a map of the game on which its own
search, with its 256 slots, misses a target 24 steps away; `Cramped` shows such a map for every capacity from 1 to 4999.

**Scheduler and threads.** `KernelModel` gives the effect of every call, and `Effects` and `Lives` say what it
means: who runs, who waits, who is born and who ends. `KernelRuns` proves one invariant for all steps;
`KernelTheorems`, `Fairness` and `Semaphore` state what follows for all runs: one place per task structure, different
identifiers, disjoint stacks, no starvation with an explicit bound (also for tasks that wait for a tick, `Effects`), and block/unblock as a counting semaphore if and only
if no unblock meets a wait for a tick. `Links`, `KernelCode`, `KernelCalls`, `KernelExits` and `KernelMachine` prove that the pointer-level code does
exactly this, from boot on, for every run (`KernelMachine.RunFromBoot`).

**Address spaces.** `BaseKernel` is fork, exit and switch on page tables, a frame map, memory and a translation cache
that may keep any translation until the page-table base is written (Intel SDM volume 3A, sections 4.3, 4.10.2 and
4.10.4). `Isolation` proves that all runs from boot behave like a machine in which each process simply owns its memory,
and fork copies it. `UserWrite` and `ThreadStacks` use the same paging machine.

**Keyboard.** A key takes a process that accepts it to its handler. Whatever the handler does before it resumes, the interrupted process goes on with the registers it had.

**Game.** `Rules` says what keys, ticks of player, enemies and rocks, and collisions do to a world. `Game.PlayGame` runs
any sequence of frames and level loads on the arrays of the game and goes by these rules, step by step. The player stays
on free ground inside the field, enemies stay where they may be, the counter of enemies is right, each dead enemy of the
round was paid once, and the score is the capped sum of all awards since the first round. `Chronicle` proves what the
rules amount to over many frames: when a struck enemy dies, when a lost player comes back, how fast the player is, and
that rocks follow the ground below them. `Rocks` gives the exact life of a rock and the exact time after which a loose one is gone.

## Properties that fail, and exactly when

- Search: a full heap loses targets. `Crowded.LosesTarget` calls the game's search on a map of 80 by 24 cells, with 256 slots, for a
  ghost; it misses a target 24 steps away, whatever the order of equal costs. `Cramped.LosesTarget` calls the search on a comb-shaped
  map whose target it misses, for every capacity from 1 to 4999; that map grows with the capacity. A run loses nothing exactly if no push met a full heap (`Pathfinder.LossyMeansRefused`), and then the
  answer is exact (`Pathfinder.FindPath`).
- Pending unblocks: an unblock during a wait for a tick is lost (`Shortfalls.LostUnblockExample`); `Semaphore.CountingSemaphore` gives both directions.
- `exit` called by a thread that is not the master puts a structure on two queues (`Shortfalls.ExitExample`);
  `KernelTheorems.ExitNeedsTheMaster` gives both directions.
- A thread that inherited a process cannot hand it over again, because its list links are null (`KernelTheorems.SecondHandOverExample`,
  a run from boot). Over all runs this holds of exactly the heirs (`HandOvers.HeirsCannotHandOver`): on the links their entries, and no
  others, cannot be removed, and both links of these entries are null (`HandOvers.RunWithHeirs`).
- The rollback of a failed fork restores the frame map exactly if the first user frame was held before; `BaseKernel.RollbackRestoresExactly`.
  In the kernel this frame is always held (`BaseKernel.FirstFrameHeld`), and with ten task structures fork never runs out of frames (`BaseModel.ForkNeverRunsOut`), so the
  failing side is not reached.
- `copy_data` copies words, which differs from bytes exactly on short forward overlaps; `CopyData.WordCopyIsByteCopy` and `CopyData.WordsDifferOnOverlap`.

## Where code and comments disagree

The model follows the code.

- The comment at `FORK_TEMP_MAPPING_PAGE` says page 1002; the constants give 998.
- A comment in `project/game.c` gives the wait after the last enemy as two seconds; `project/game_logic.c` waits three.
- Comments in `project/include/game_config.h` give the ground 20 rows from row 4 on; the constants give 21 rows from row 3 on.
- `project/include/game_config.h` says that the pump reaches one block ahead; since the direction is cleared before the pump works, it reaches the cell of the player only.

## Model

| member | source | states |
|---|---|---|
| PriorityQueues.PriorityQueue.Push | project/game_logic.c:600-622 | keeps the min-heap order; a heap that is not full gains exactly the pushed node as a multiset, a full one stays as it is, node for node |
| PriorityQueues.PriorityQueue.SiftUp | project/game_logic.c:609-621 | restores the heap order from any heap that is in order except above one node, and keeps the multiset |
| PriorityQueues.PriorityQueue.Pop | project/game_logic.c:624-659 | keeps the heap order; a non-empty heap loses exactly the returned node, whose cost is minimal; an empty one yields the sentinel |
| PriorityQueues.PriorityQueue.DropRoot | project/game_logic.c:631-656 | the heap loses exactly its root and stays in order |
| PriorityQueues.PriorityQueue.SiftDown | project/game_logic.c:637-656 | restores the heap order from any heap that is in order except below the root, and keeps the multiset |
| PriorityQueues.SiftUpStep | project/game_logic.c:611-621 | one exchange with the parent moves the only misplaced node up |
| PriorityQueues.SiftDownStep | project/game_logic.c:640-656 | one exchange with the cheaper child moves the only misplaced node down |
| PriorityQueues.RootIsMinimum | project/game_logic.c:631 | in a heap-ordered array of any size the root is a minimum |
| PriorityQueues.TakeRoot | project/game_logic.c:631-635 | putting the last node into the root leaves a heap that is in order except below the root, without the root |
| SearchTheory.LabelledOnce | project/game_logic.c:700-735 | a cell that has a cost never gets a lower one, so the test for outdated nodes is dead code |
| SearchTheory.TakenIsSound | project/game_logic.c:690-697 | popping the cheapest node keeps all recorded paths real and costs in order |
| SearchTheory.DiscoveredIsSound | project/game_logic.c:724-735 | a newly reached cell has a real legal path of its recorded cost that starts with its recorded first move, also when pushes are dropped |
| SearchTheory.DiscoveredIsComplete | project/game_logic.c:706-735 | without dropped pushes every neighbour of every finished cell stays recorded at no more than its true offer |
| SearchTheory.LeavingIsExpensive | project/game_logic.c:690-738 | every legal path that leaves the finished cells costs at least as much as the cheapest waiting cell |
| SearchTheory.OpenIsOptimal | project/game_logic.c:690-703 | the cheapest waiting cell has the cost of a shortest path |
| SearchTheory.ExhaustedMeansExpensive | project/game_logic.c:690-741 | when the heap runs empty, every cell that was not finished costs at least the infinity value |
| Pathfinder.RoomForOneMore | project/game_logic.c:577-598 | the waiting cells never outnumber the passable cells |
| Pathfinder.Search.constructor | project/game_logic.c:666-679 | tables start with infinite costs and no directions, the heap is empty |
| Pathfinder.Search.Begin | project/game_logic.c:680-687 | the start has cost zero and is queued |
| Pathfinder.Search.Take | project/game_logic.c:690-703 | the popped node is a waiting cell of least cost with the table entries it was pushed with |
| Pathfinder.Search.Relax | project/game_logic.c:706-735 | one neighbour: either nothing changes or the cell is newly recorded with the cost of this step, and waits unless the heap was full; afterwards no cheaper offer is left |
| Pathfinder.Search.Expand | project/game_logic.c:706-736 | all four neighbours; the search grows or stays, which is why it ends |
| Pathfinder.Search.Run | project/game_logic.c:690-742 | the whole loop: the direction starts a legal path; without a dropped push it starts a cheapest one, and there is no direction exactly for the start itself and for targets out of reach |
| Pathfinder.FindPath | project/game_logic.c:666-742 | for every map, start, target, mode and heap capacity: a returned direction starts a real path; if the passable cells fit the heap, or the run that is returned refused no push, it starts a cheapest one, and there is none exactly for the start and for targets out of reach; the run expands every cell in the order of the loop before it takes the next |
| Reach.LoopFreePath | project/game_map.c:57-65 | whatever can be reached can be reached without visiting a cell twice |
| Reach.CellCount | project/game_map.c:57-59 | a map has width times height cells |
| Reach.InfinityIsLargeEnough | project/game_logic.c:672-679 | on maps of the size of the game a cell is out of reach at the infinity value exactly if no path leads to it, for walkers and for ghosts |
| Reach.FindPathOnGameMap | project/game_logic.c:666-742 | the same on the 80 by 24 map with a heap of 256, where out of reach means that no path leads there |
| Reach.LegalMeans | project/game_logic.c:706-722 | a legal path is exactly one whose moves are real, stay on the map and, unless a ghost makes them, out of earth and walls |
| Reach.CostCountsCells | project/game_logic.c:724-727 | the cost of any legal path is its length and nine more for each cell of earth or wall that it enters |
| Reach.CheapestMeansShortest | project/game_logic.c:662-742 | the cheapest paths are exactly those with the least sum of length and nine for each cell of earth or wall they enter; for walkers these are the shortest |
| Pathfinder.LossyMeansRefused | project/game_logic.c:600-601 | after any run of the search a recorded cell is neither waiting nor finished exactly if some push met a full heap |
| Pathfinder.SearchedIsSound | project/game_logic.c:666-742 | in every run of the search, whatever is refused, all recorded costs and first steps have a real path |
| Cramped.RoomForLabel | project/game_logic.c:600-601 | on a comb, for every order of equal costs, all pushes before the last corner of the spine find room, and the push of the target finds none |
| Cramped.NeverTaken | project/game_logic.c:690-738 | no run on the comb ever takes the target |
| Cramped.LosesTarget | project/game_logic.c:600-742 | for every capacity from 1 to 4999 the search returns no direction on the comb of that size, whose target can be reached |
| Crowded.FitsOutside | project/game_logic.c:575-601 | on a map of 80 by 24 cells, for every order of equal costs, at most 256 cells wait while the search stands between the room and 23 steps |
| Crowded.FullAtBrim | project/game_logic.c:575-601 | when only cells at 23 steps and beyond are left, the heap is full |
| Crowded.PackedLabel | project/game_logic.c:599-601 | from then on every push leaves the heap full, and the push of the target is refused |
| Crowded.NeverTaken | project/game_logic.c:690-738 | no run on this map with 256 slots ever takes the target |
| Crowded.LosesTarget | project/game_logic.c:575-742 | the search with the 256 slots of the game returns no direction on this map of the game, though the target is 24 steps away |
| Pathfinder.Answer | project/game_logic.c:690-694 | the entry of a finished target is a first step of a real path, and of a cheapest one if nothing was refused |
| Reach.GhostPath | project/game_logic.c:715-722 | a ghost can go straight to any cell, at no more than ten per step |
| Links.LinkMemory.InitListHead | project/list.c:37-40 | the node becomes an empty ring; all other rings stay |
| Links.LinkMemory.ListAddTail | project/list.c:17-48 | the entry joins the end of exactly one ring, and all rings stay well-formed in both directions |
| Links.LinkMemory.ListDel | project/list.c:32-54 | the entry leaves its ring and has null links; a node that was only initialised just loses its links |
| Links.LinkMemory.ListEmpty | project/list.c:60-62 | answers whether the ring has entries |
| Links.LinkMemory.ListFirst | project/sched.c:309-317 | the first entry of the ring |
| Links.LinkMemory.ListNext | project/kernel_helpers.c:84-88 | the entry after another one, or the head again at the end |
| Links.LinkMemory.CopyLinks | project/sys.c:68 | a copied structure has links but is on no ring, and no ring is damaged by overwriting them |
| Links.RingAfterAddTail | project/list.c:17-48 | pointer-level effect of the insertion on the ring that grows |
| Links.RingAfterDel | project/list.c:32-54 | pointer-level effect of the removal on the ring that shrinks |
| KernelModel.Minus | project/list.c:50-54 | removal by value: exactly the other entries remain, and no duplicates arise |
| KernelModel.FirstClear | project/sched.c:248-257 | the lowest clear slot, or -1 exactly if all are in use |
| KernelModel.FreeSlot | project/sched.c:259-265 | clears exactly the slot of the identifier, and nothing if it is out of range |
| KernelModel.FindRegion | project/kernel_helpers.c:93-99 | a region that overlaps no stack of the process, or -1 |
| KernelModel.FirstRegion | project/kernel_helpers.c:93-99 | all regions before the one that is found are in use; if none is found, all are |
| KernelModel.MinusAll | project/list.c:50-54 | removal of several entries: exactly the others remain |
| Placement.SchedulerDispatches | project/sched.c:332-349 | a clock tick ends with exactly one task running, and every task on the queue its status says |
| Placement.BlockDispatches | project/sys.c:376-389 | so does a blocking call, with or without a pending unblock |
| Placement.WaitForTickDispatches | project/sys.c:391-403 | so does waiting for a tick |
| Placement.UnblockDispatches | project/sys.c:405-427 | so does an unblock |
| Placement.ForkDispatches | project/sys.c:46-251 | so does a fork, whether or not it fails |
| Placement.CreateThreadDispatches | project/sys.c:429-565 | so does the creation of a thread, whether or not it fails |
| Placement.EndedIsVacant | project/sys.c:313-374 | after the end of a process all its threads are off all queues and nobody runs |
| Placement.ThreadEndedIsVacant | project/sys.c:567-597 | after the end of a thread nobody runs and the queues are right |
| Placement.HandedOverIsVacant | project/sys.c:599-652 | after a hand-over nobody runs and the queues are right |
| Lifecycle.ForkKeepsOrganised | project/sys.c:46-251 | fork keeps masters, thread lists, counts, identifiers, slots and stack regions consistent |
| Lifecycle.CreateThreadKeepsOrganised | project/sys.c:429-565 | thread creation keeps them consistent |
| Endings.EndedIsOrganised | project/sys.c:313-374 | the end of a process keeps the other processes consistent |
| Endings.ThreadEndedIsOrganised | project/sys.c:567-597 | the end of a thread keeps its process consistent |
| Endings.HandedOverIsOrganised | project/sys.c:599-652 | the hand-over makes the heir the one master all threads point at, listed once each and counted |
| StackRegions.AtMostNineMembers | project/sched.c:236-257 | ten slots bound the number of other threads of a process by nine |
| StackRegions.FreeRegionExists | project/kernel_helpers.c:71-99 | with a clear slot one of the first ten regions is free, and the search returns it |
| KernelRuns.HeirExists | project/sys.c:599-617 | a master that counts more than itself finds an heir: the fallback that ends the process is dead code |
| KernelRuns.ExitThread | project/sys.c:567-652 | every way a thread can end keeps the invariant |
| KernelRuns.Next | project/sys.c:46-652 | every step keeps the invariant: one place per task, consistent processes |
| KernelRuns.After | project/sched.c:332-349 | so does every run |
| KernelRuns.BootIsGood | project/sched.c:74-200 | the state after boot satisfies the invariant |
| KernelTheorems.EachTaskHasOnePlace | project/sched.c:291-349 | after every run from boot each structure is in exactly one place: free, ready, blocked, waiting for a tick, current, or idle before its first turn; and its status says which |
| KernelTheorems.IdleIsPickedAtMostOnce | project/sched.c:309-330 | the scheduler falls back to idle at most once in a run, since idle then queues like any task |
| KernelTheorems.ThreadIdsAreUnique | project/sched.c:248-265 | live identifiers differ across all processes, and only idle has identifier zero |
| KernelTheorems.StacksAreApart | project/kernel_helpers.c:71-99 | every live stack region lies within 80 pages of the base, so below the pages for temporary mappings, and regions of a process are disjoint |
| KernelTheorems.ThreadCreationFindsRegion | project/sys.c:490-495 | if a slot is clear, the region search succeeds within the first ten regions |
| KernelTheorems.ExitNeedsTheMaster | project/sys.c:367 | at exit the master, which is put on the free queue without leaving another one, is on none exactly if it is the caller |
| KernelTheorems.CreationIsReported | project/sys.c:429-565 | the result is an identifier no other task has, of a thread that now exists; or an error, and nothing but the order of free structures changed |
| KernelTheorems.CreationSucceeds | project/sys.c:449-565 | a master with a clear slot and a free structure gets its thread, last in its list and in the ready queue |
| KernelTheorems.SecondHandOverIsNotEnabled | project/sys.c:631-632 | if the heir is dispatched next and has a thread, its entry is unlinked and its own end would be a second hand-over |
| KernelTheorems.SecondHandOverReached | project/sys.c:567-652 | a master that creates a second thread and ends gets there whenever its first thread is the only ready task |
| KernelTheorems.SecondHandOverExample | project/sys.c:567-652 | a run from boot that reaches this state: two threads are created and init ends |
| HandOvers.HeirsCannotHandOver | project/sys.c:567-652 | after every run from boot a live task is unlinked exactly if it got its process by a hand-over, and the end of the running thread is possible exactly if it is no such heir with threads |
| HandOvers.LinkedMeansUnlinkable | project/list.c:32-54 | on the links a live task is linked exactly if its entry meets what the removal asks for |
| HandOvers.RunWithHeirs | project/sys.c:567-652 | after every run on the links from boot, the list entry of a live task can be removed exactly if the task is no heir, and both links of an heir are null |
| HandOvers.StepTracks | project/sys.c:46-652 | every step keeps the unlinked tasks and the heirs the same |
| Shortfalls.LostUnblockExample | project/sys.c:391-427 | a run from boot: init forks, the child waits for a tick, and the unblock by init is lost |
| Shortfalls.ExitExample | project/sys.c:313-374 | a run from boot: a thread that is not the master runs while its master is on the ready queue |
| Fairness.StepAdvances | project/sched.c:275-349 | a ready task runs next, ends, or is due no later than before, one tick earlier after a tick |
| Fairness.NoStarvation | project/sched.c:275-349 | if q bounds all quanta, a task at place i of the ready queue is dispatched or ends within (i + 1) * q ticks of any run |
| Fairness.BootIsFair | project/sched.c:122-134 | all quanta are one tick after boot |
| Semaphore.StepAccounts | project/sys.c:376-427 | every step changes the value of a task, its pending unblocks minus one if it is blocked, by exactly the calls for it, except for unblocks during a wait for a tick |
| Semaphore.ValueAfterRun | project/sys.c:376-427 | after every run the value is the first value plus unblocks minus lost unblocks minus blocks |
| Semaphore.CountingSemaphore | project/sys.c:376-427 | over any run: it is blocked exactly if it blocked more often than it was unblocked and the surplus of unblocks is pending, if and only if no unblock met it during a wait for a tick |
| Semaphore.NothingLostWithoutTickWaits | project/sys.c:391-427 | a task that does not wait for a tick at first and makes no such wait in the run loses no unblock |
| Semaphore.OnlyCallersWait | project/sys.c:391-427 | whatever step is made, only the caller of a tick wait joins the tick queue |
| Semaphore.BootIsSane | project/sched.c:122-143 | nobody has pending unblocks after boot |
| KernelCode.KernelState.UpdateProcessState | project/sched.c:291-307 | on the links: a task that is not running leaves its queue, joins the end of the new one and gets its status |
| KernelCode.KernelState.Unqueue | project/sched.c:291-295 | on the links: a task leaves the queue it is on |
| KernelCode.KernelState.QueueUp | project/sched.c:296-306 | on the links: a loose task joins the end of a queue |
| KernelCode.KernelState.SchedNextRr | project/sched.c:309-330 | on the links: the first ready task is dispatched, or idle |
| KernelCode.KernelState.NeedsSchedRr | project/sched.c:279-289 | renews an expired quantum and asks for a switch exactly as the model does |
| KernelCode.KernelState.WakeAll | project/sched.c:335-340 | on the links: all tick waiters move to the ready queue, in order |
| KernelCode.KernelState.SchedulerRr | project/sched.c:332-349 | the clock tick on the links does what the model says, and keeps all rings well-formed |
| KernelCode.KernelState.SysBlock | project/sys.c:376-389 | on the links: consumes a pending unblock or blocks |
| KernelCode.KernelState.SysWaitForTick | project/sys.c:391-403 | on the links: queues the caller for the next tick |
| KernelCode.KernelState.SysUnblock | project/sys.c:412-424 | on the links: readies a blocked child or counts a pending unblock |
| Effects.TickMeans | project/sched.c:332-349 | after a clock tick nobody waits for one; those who did are behind the ready tasks, in their order, and all of them take turns with the running task; blocked ones stay blocked |
| Effects.BlockMeans | project/sys.c:376-389 | block uses up a pending unblock, or else the caller is blocked behind the others and the first task that is ready or waited for a tick runs |
| Effects.WaitMeans | project/sys.c:391-403 | the caller waits behind the others who wait for a tick, and the first ready task runs |
| Effects.UnblockMeans | project/sys.c:412-424 | a child that is blocked or waits for a tick becomes ready behind the others; any other one has one more unblock pending |
| Effects.StepIsFair | project/sys.c:46-652 | no call lengthens a quantum beyond the bound, and only the caller of a call gets blocked |
| Effects.TickWaitEnds | project/sched.c:324-349 | over any run, a task that waits for a tick is dispatched or ends within 1 + n q clock ticks, for n task structures and quanta of at most q |
| Lives.ForkMeans | project/sys.c:46-251 | fork fails exactly for lack of a structure or of frames, with the error for each, and then changes no task; else it reports an identifier larger than all before, of a copy of the caller that is ready behind all others |
| Lives.CreationMeans | project/sys.c:429-565 | the creation of a thread fails exactly for lack of a structure, a slot or a frame; else the thread has the lowest free identifier of the process and a stack region of its own |
| Lives.MembersAreListed | project/sys.c:567-652 | the tasks with the identifier of a process are its master and the threads on the list of the master |
| Lives.ExitMeans | project/sys.c:313-374 | exit ends exactly the tasks of the process, frees their structures, changes no other task, and the first ready survivor runs |
| Lives.ThreadEndMeans | project/sys.c:583-597 | the end of a thread that is not the master takes only this thread and its slot away |
| Lives.HandOverMeans | project/sys.c:599-648 | the end of a master with threads makes its first thread the master of the others, with the slots of the process |
| Lives.LastThreadExits | project/sys.c:571-581 | the end of a master without threads is the end of the process |
| Lives.IdentifiersAreNotReused | project/sys.c:46-652 | over any run, the identifier of a process that has ended never comes back |
| KernelCalls.TakeFree | project/sys.c:60-63 | takes the first free structure off its ring |
| KernelCalls.CopyStructure | project/sys.c:66-68 | copies the caller into it, links included, without damage to any ring |
| KernelCalls.InitTidSlots | project/sched.c:236-246 | ten clear slots but the first |
| KernelCalls.GetNextPid | project/sched.c:232-234 | the next process identifier |
| KernelCalls.SysFork | project/sys.c:46-251 | on the links: fork and its failures do and return what the model says |
| KernelCalls.AllocateTid | project/sched.c:248-257 | takes the first clear slot of the master and returns its identifier |
| KernelCalls.FreeTid | project/sched.c:259-265 | clears the slot of an identifier |
| KernelCalls.StackRegionInUse | project/kernel_helpers.c:81-91 | walks the ring of threads and says whether any stack overlaps |
| KernelCalls.FindFreeStackRegion | project/kernel_helpers.c:93-99 | finds the region that the model finds |
| KernelCalls.SysCreateThread | project/sys.c:445-565 | on the links: thread creation and its failures do and return what the model says; a failure gives slot and structure back |
| KernelExits.EndThread | project/sys.c:583-597 | on the links: the end of a thread that is not the master |
| KernelExits.EndMember | project/sys.c:324-339 | on the links: one thread of an ending process leaves its lists |
| KernelExits.EndProcess | project/sys.c:313-367 | on the links: the end of a process with all its threads |
| KernelExits.TakeOver | project/sys.c:619-629 | the heir gets count and slots of the old master |
| KernelExits.HandOver | project/sys.c:599-648 | on the links: the hand-over moves every other thread to the ring of the heir, in order |
| KernelMachine.SysExit | project/sys.c:313-374 | on the links: exit of a master |
| KernelMachine.SysExitThread | project/sys.c:567-652 | on the links: the three ways a thread ends |
| KernelMachine.InitQueues | project/sched.c:190-200 | all structures are free, in order, and the other queues empty |
| KernelMachine.BootKernel | project/sched.c:74-200 | boot on the links yields the boot state of the model |
| KernelMachine.Perform | project/sys.c:46-652 | every step on the links does what the model says |
| KernelMachine.PerformAll | project/sched.c:332-349 | after every run all rings are well-formed and show the state of the model |
| KernelMachine.RunFromBoot | project/sched.c:74-200 | so does every run from boot |
| Frames.FirstFree | zeos/mm.c:185-197 | the first free frame among every second one, or -1 exactly if all of them are used |
| Frames.FrameTable.constructor | zeos/mm.c:172-183 | exactly the kernel frames are used |
| Frames.FrameTable.AllocFrame | zeos/mm.c:185-197 | marks and returns that frame |
| Frames.FrameTable.FreeFrame | zeos/mm.c:209-211 | frees exactly the frame given, if it lies above the first user frame |
| CopyData.CopyData | zeos/utils.c:15-28 | the two loops over words and bytes compute the word copy |
| CopyData.WordCopyIsByteCopy | zeos/utils.c:15-28 | the word copy is a byte copy unless more than four bytes go to a target one to three bytes into the source |
| CopyData.WordsDifferOnOverlap | zeos/utils.c:15-28 | in that case, for all places and sizes, some contents are copied differently |
| CopyData.ByteCopyCopies | zeos/utils.c:15-28 | a byte copy to a target that does not start inside the source leaves there what the source held, and changes nothing else |
| CopyData.WordCopyDoubles | zeos/utils.c:15-28 | the routine copies a block onto the one after it and leaves the first as it is |
| BaseModel.AllocationSucceeds | zeos/mm.c:185-197 | allocation succeeds while fewer than 640 frames are used, although odd frames are skipped |
| BaseModel.AllocatesDifferentFrames | zeos/sys.c:70-84 | allocations in a row yield different free even frames and mark exactly those |
| BaseModel.ReleasesFrames | zeos/sys.c:216-224 | releases mark exactly the given frames free |
| BaseModel.ForkNeverRunsOut | zeos/sys.c:73-83 | with ten task structures the branch that runs out of frames is dead code |
| BaseModel.ForkKeepsInv | zeos/sys.c:45-163 | fork keeps frames of processes disjoint, used and counted |
| BaseModel.ExitKeepsInv | zeos/sys.c:194-231 | exit keeps them so |
| BaseModel.FramesAfterAnyRun | zeos/sys.c:45-231 | after any run of forks, exits and switches every process owns its twenty frames alone, 264 + 20 n frames are used for n processes, and a fork with a free structure finds its frames |
| BaseModel.ForkMeans | zeos/sys.c:45-163 | a fork with a structure left gives the child twenty different frames that nobody had, marks exactly those, and changes no other process; without one nothing changes |
| BaseModel.ExitMeans | zeos/sys.c:194-231 | the end of a process other than init frees exactly its frames and its structure; init cannot end |
| BaseModel.BootIsGood | zeos/mm.c:68-91 | so it is after boot |
| BaseKernel.RollbackRestores | zeos/sys.c:75-79 | the rollback of a failed fork restores the frame map |
| BaseKernel.RollbackRestoresExactly | zeos/mm.c:209-211 | it does exactly if the first user frame was held before, because that frame is never freed |
| Paging.Machine.SetSsPag | zeos/mm.c:213-219 | writes one entry; the translation cache keeps what it has |
| Paging.Machine.DelSsPag | zeos/mm.c:221-223 | clears one entry; the translation cache keeps what it has |
| Paging.Machine.SetCr3 | zeos/mm.c:95-97 | empties the translation cache |
| Paging.Machine.Translate | zeos/mm.c:93-97 | an access may use the table or any translation kept since the last write of the base |
| Paging.Machine.CopyPage | zeos/utils.c:15-28 | the copy through logical addresses does to the two frames what the copy routine does to plain memory, and so moves all bytes, if both pages resolve uniquely |
| BaseKernel.Kernel.constructor | zeos/sched.c:64-136 | boot yields a valid machine and the boot state of the model |
| BaseKernel.Kernel.InitTablePages | zeos/mm.c:49-66 | kernel pages but page zero are mapped to themselves for every task, nothing else is |
| BaseKernel.Kernel.SetUserPages | zeos/mm.c:68-91 | the given pages of init get newly allocated frames in order |
| BaseKernel.Kernel.Rollback | zeos/sys.c:75-79 | frees exactly the frames taken so far |
| BaseKernel.Kernel.FreeDataPages | zeos/sys.c:216-224 | frees the frames of the data pages and clears their entries, and no others |
| BaseKernel.Kernel.AllocDataFrames | zeos/sys.c:68-84 | twenty frames, or none and the frame map as before |
| BaseKernel.Kernel.ShareKernelAndCode | zeos/sys.c:90-100 | the child sees the frames of the parent in its kernel and code pages; nothing else changes |
| BaseKernel.Kernel.CopyDataPage | zeos/sys.c:107-118 | one page: mapped into the child, copied through the window, unmapped again; only the window page may be stale in the cache |
| BaseKernel.Kernel.CopyDataPages | zeos/sys.c:102-118 | all pages copied byte for byte, the tables of all other tasks unchanged, and all window translations still in the cache |
| BaseKernel.Kernel.BuildAddressSpace | zeos/sys.c:86-119 | the final flush leaves no translation to the frames of the child |
| BaseKernel.Kernel.SysFork | zeos/sys.c:45-163 | each result under its exact condition; the child starts with a copy of every data page of the parent in frames of its own, and no other frame and no other table changes; failures leave memory and tables alone |
| BaseKernel.Kernel.SysExit | zeos/sys.c:194-231 | what the model says: exactly the frames of the caller are freed, and init stays |
| BaseKernel.Kernel.Switch | zeos/sched.c:149-166 | a switch changes only who runs, and the machine is coherent again for the next task |
| BaseKernel.Kernel.Store | zeos/mm.c:68-91 | a store through a data page changes one byte of the running process and no byte of another one |
| BaseKernel.Kernel.Load | zeos/mm.c:68-91 | a load through a data page yields the byte of the running process |
| Isolation.NobodyElseWrites | zeos/sys.c:45-231 | in the reference machine a process that does not run finds its memory as it left it |
| Isolation.PerformFork | zeos/sys.c:45-163 | fork on tables and cache does what copying a value does |
| Isolation.PerformStore | zeos/mm.c:68-91 | a store changes one byte of one process in the reference machine |
| Isolation.PerformLoad | zeos/mm.c:68-91 | a load gives the byte of the reference machine |
| Isolation.Perform | zeos/sys.c:45-231 | every action on tables and cache does what the reference machine does |
| Isolation.PerformAll | zeos/sys.c:45-231 | over any run of forks, exits, switches, stores and loads, tables, frames and cache refine a machine where each process owns its memory |
| Isolation.RunFromBoot | zeos/sys.c:45-231 | from boot on, everything that is ever loaded is what that machine gives |
| UserWrite.AccessOkMeans | lab_exams/L1/2025_04_10/A/ex3/utils.c:62-81 | the check in wrapping 32-bit arithmetic accepts exactly the blocks from the first user page that end before one page beyond the last |
| UserWrite.Readable | lab_exams/L1/2025_04_10/A/ex3/sys.c:157-181 | how far the buffer is readable: up to the first page without a frame, at a page boundary |
| UserWrite.Terminal.WriteConsole | lab_exams/L1/2025_04_10/A/ex3/devices.c:8-14 | the console gets the bytes of the window |
| UserWrite.Terminal.MoveWindow | lab_exams/L1/2025_04_10/A/ex3/sys.c:158-159 | after the base is written again the window leads to the new frame only |
| UserWrite.Terminal.ShowPart | lab_exams/L1/2025_04_10/A/ex3/sys.c:165-169 | some bytes, not beyond the end of the window nor of the buffer, in order |
| UserWrite.Terminal.NextPage | lab_exams/L1/2025_04_10/A/ex3/sys.c:174-179 | turns to the next page if it has a frame, else leaves the window closed |
| UserWrite.Terminal.Show | lab_exams/L1/2025_04_10/A/ex3/sys.c:161-184 | the loop shows exactly the readable bytes and ends with the window closed |
| UserWrite.Terminal.BytesInOrder | lab_exams/L1/2025_04_10/A/ex3/sys.c:164-171 | byte i on the console is byte i of the buffer |
| UserWrite.Terminal.SysWrite | lab_exams/L1/2025_04_10/A/ex3/sys.c:146-187 | all results; the console receives exactly the bytes of the caller up to the first page without a frame; no table entry but the one of the window changes, and that ends up empty |
| ThreadStacks.GrowCovers | project/kernel_helpers.c:48-63 | growing covers the page below the mapped part and no other |
| ThreadStacks.RegionsNeedThreads | project/kernel_helpers.c:93-99 | every region below the first free one is taken by a thread of its own |
| ThreadStacks.StackMemory.Grow | project/kernel_helpers.c:42-69 | succeeds exactly for a fault right below the mapped part of a stack with room while a frame is free, and then maps that page; otherwise nothing changes |
| ThreadStacks.StackMemory.MapStackPages | project/kernel_helpers.c:101-121 | maps all pages, or fails exactly if frames run out and then leaves table and frames as before |
| ThreadStacks.StackMemory.RollBack | project/kernel_helpers.c:108-116 | unmapping in the opposite order restores table and frames |
| ThreadStacks.StackMemory.FindFreeStackRegion | project/kernel_helpers.c:93-99 | with fewer threads than identifiers a free region below the keyboard page is found |
| ThreadStacks.StackMemory.CreateStack | project/sys.c:490-548 | succeeds exactly if a frame is free; then the top page of a free region is mapped and all others stay; a failure changes nothing |
| ThreadStacks.StackMemory.ReleaseThreadStack | project/kernel_helpers.c:123-149 | exactly the pages of the thread are unmapped and their frames freed, all others keep theirs; nothing happens without a stack |
| ThreadStacks.StackMemory.Run | project/kernel_helpers.c:42-149 | over any run of faults, creations and releases every stack is one mapped block that ends at the top of its region, no other entry of any table changes, and once all stacks are gone the frame map is the first one again |
| Keyboard.KeyboardTask.KbdIrqHandler | project/keyboard.c:79-142 | on the words of kernel stack, saved context and auxiliary page: the process is diverted as the model says, which needs a handler that does not run yet |
| Keyboard.KeyboardTask.KbdResumeHandler | project/keyboard.c:144-175 | on the same words: the sixteen saved registers are back, if the handler runs |
| Keyboard.KeyboardTask.KbdIrqEntry | project/entry.S:131-136 | the key interrupt as seen by the process |
| Keyboard.KeyboardTask.KbdResumeEntry | project/entry.S:139-143 | the resume trap as seen by the process |
| Keyboard.KeyboardTask.CleanupKbdHandler | project/keyboard.c:70-77 | forgets handler, context and stack |
| Keyboard.KeyboardTask.SysKeyboardEvent | project/sys.c:654-690 | all results of a registration as the model gives them |
| Keyboard.HandlerKeepsContext | project/keyboard.c:79-175 | while the handler runs, computations, keys and calls leave the saved context alone |
| Keyboard.KeysReachTheHandler | project/keyboard.c:79-142 | a key sends a process that accepts it to its wrapper, on the auxiliary stack with handler, key and whether it was pressed as arguments, all other registers as they were; any other process does not notice |
| Keyboard.RegistrationMeans | project/sys.c:654-690 | which registrations are refused and with which error, and what an accepted one leaves |
| Keyboard.UserPointerMeans | project/utils.c:62-79 | exactly the four-byte objects inside the user pages count as those of the user |
| Keyboard.KeysAreTransparent | project/keyboard.c:79-175 | whatever happens between key and resume, the process goes on with the registers it had, and can be interrupted again |
| Keyboard.KeyboardTask.Run | project/keyboard.c:79-175 | any sequence of computations, keys, resumes and registrations takes the words of the task through the states of the model |
| Rocks.OneUpdate | project/game_logic.c:1104-1146 | one update keeps the column, never goes up or back, and takes at least one off the time a moving rock has left |
| Rocks.GoneInTime | project/game_logic.c:1097-1182 | a moving rock is gone after as many updates as its bound |
| Rocks.NeverBack | project/game_logic.c:1097-1182 | over any run a rock keeps its column, never rises, never returns to an earlier state, and stays gone |
| Rocks.WobblingRockEnds | project/game_logic.c:1097-1182 | a rock that starts to wobble in row y is gone after at most 80 + (24 - y) + 30 updates, however the map changes meanwhile |
| Rocks.BoundIsReached | project/game_logic.c:1097-1182 | the bound is exact: for every smaller number of updates some changes of the map keep the rock in the game |
| Rocks.RestsOnGround | project/game_logic.c:1150-1161 | a resting rock over solid ground stays as it is, for any number of updates |
| Rocks.StartsWhenFree | project/game_logic.c:1150-1161 | it starts to wobble at the first update with a free cell below |
| Rocks.RestsExactlyOnGround | project/game_logic.c:1150-1161 | after any updates it still rests exactly if the cell below was solid at all of them |
| Rocks.WobblesInPlace | project/game_logic.c:1112-1117 | it wobbles in its place for eighty updates, whatever the ground does |
| Rocks.FallsRowByRow | project/game_logic.c:1163-1182 | a falling rock goes down exactly one row at each update with a free cell below |
| Rocks.LandsOnGround | project/game_logic.c:1163-1175 | at the first update with a solid cell below it stays there and blinks |
| Rocks.BlinksInPlace | project/game_logic.c:1123-1137 | it blinks in its place for thirty updates and is gone |
| Rocks.WholeLife | project/game_logic.c:1097-1182 | from rest to the end: n updates on ground, the wobble, as many rows down as cells are free, the blinks, and gone, each at its exact update |
| GameModel.DiggingKeeps | project/game_map.c:81-85 | digging never takes away ground to walk on, nor the side walls |
| GameModel.AwayFromWalls | project/game_logic.c:361-376 | who is not in a wall between sky and border row is inside columns 1 to 78 |
| GameModel.DiggingKeepsCrowd | project/game_map.c:81-85 | digging leaves every enemy on ground it may be on |
| GameModel.DeeperPaysMore | project/game_logic.c:1318-1340 | every five rows of ground are worth a hundred points more, from 200 on |
| GameModel.KillIsBooked | project/game_logic.c:1309-1316 | a kill keeps the books: counter, capped score and one award per dead enemy at the points of its layer |
| GameModel.BonusIsBooked | project/game_logic.c:267-273 | so does a bonus |
| GameModel.ScoreOfGame | project/game_logic.c:1309-1316 | capping after every award, round after round, gives the capped sum of all awards of the game |
| GameModel.NoneActive | project/game_logic.c:1349 | the counter is zero exactly if no enemy is active |
| Levels.LevelsAreOk | project/game_data.c:23-232 | in every round all enemies start on tunnels of the level and nothing is put into a wall |
| Levels.MapClear | project/game_map.c:25-33 | an empty map of the size of the game |
| Levels.MapCreateBorders | project/game_map.c:178-197 | walls and border row, and nothing else |
| Levels.CreateTunnels | project/game_data.c:271-278 | opens exactly the dirt on the tunnels of the level, cell by cell |
| Levels.PlaceBonuses | project/game_data.c:325-378 | exactly the given cells of the map hold an item afterwards |
| Levels.MapGenerate | project/game_map.c:160-197 | walls, border row, sky and solid ground, cell by cell |
| Levels.PlaceDirt | project/game_map.c:314-339 | sky in the upper rows, dirt below |
| Levels.DigTunnel | project/game_data.c:242-269 | digs exactly the dirt on the row and then the column of the tunnel, also for ends in any order |
| Levels.LoadMap | project/game_data.c:384-426 | the whole map of a level, cell by cell; player and enemies of the level stand on free cells, and the walls are whole |
| Game.GameState.LoadLevel | project/game_data.c:384-426 | a valid round: map, player, enemies and rocks of the level, all enemies active, no awards, and score and earlier awards carried over |
| Game.GameState.NextLevel | project/game.c:203-223 | between rounds no award is lost, and the score is still the capped sum of all; map, player, enemies and rocks are those of the level, lives and time are kept |
| Game.GameState.PlayerMove | project/game_logic.c:333-402 | takes the step exactly if the cell is below the sky, above the border row, dirt or free, and without a resting rock; then exactly that cell is dug or its gem taken; the player always faces the direction |
| Game.GameState.AttackPathClear | project/game_logic.c:413-449 | the length of the longest free run of cells ahead, up to the range |
| Game.GameState.PlayerAttack | project/game_logic.c:462-528 | exactly the active enemies in the longest free run of cells ahead, up to two cells vertically and three horizontally, are paralysed; these cells can be walked on, so a ghost inside the ground is not |
| Game.GameState.CheckPumpHit | project/game_logic.c:1218-1258 | the first enemy of the nearest cell with one that the pump gets to, or -1 exactly if there is none |
| Game.GameState.PlayerPump | project/game_logic.c:530-547 | the pump gets one longer, up to four; because the direction was used up before, exactly the first living enemy in the cell of the player takes a stroke, if there is one, and dies for its points at the fourth |
| Game.GameState.EnemyInflate | project/game_logic.c:1061-1080 | one level more for this enemy only; at the fourth it dies and is paid once, for its layer |
| Game.GameState.EnemyDeflate | project/game_logic.c:1082-1091 | deflates one level, back to normal at the end |
| Game.GameState.Collide | project/game_logic.c:302-317 | one life for the first enemy in the cell unless it is pumped up or paralysed, and one for the first rock there if it is falling; what the loss of a life does is stated too |
| Game.GameState.PlayerDie | project/game_logic.c:549-561 | one life less; a comeback is scheduled while lives are left |
| Game.GameState.FirstEnemyAt | project/game_logic.c:1188-1201 | the first living enemy in a cell, or -1 exactly if there is none |
| Game.GameState.CheckPlayerRockCollision | project/game_logic.c:1203-1216 | the first rock in the cell of the player, or -1 exactly if there is none |
| Game.GameState.CountDown | project/game_logic.c:277-292 | step delay and attack time run down, and an attack whose time is up ends |
| Game.GameState.Walk | project/game_logic.c:258-275 | a wanted step is taken exactly when the delay is over and the cell can be entered; exactly that cell is dug, a bonus there is paid, and the direction is used up |
| Game.GameState.TakeBonus | project/game_logic.c:267-273 | a bonus is taken off the map and booked once |
| Game.GameState.UpdatePlayer | project/game_logic.c:242-318 | keeps the invariant; walk, countdown, pump stroke and collisions in this order, as a relation between the worlds before and after; without a life nothing changes |
| Game.GameState.GetRandomDirection | project/game_logic.c:747-798 | the first of four directions, from a start that position and waiting time decide, in which a free cell without a rock lies, or none exactly if there is none |
| Game.GameState.TryEnemyMove | project/game_logic.c:914-961 | moves exactly if the cell is on the map, free, above the border row and without a resting rock |
| Game.GameState.MoveTowardsPlayer | project/game_logic.c:893-912 | takes the step the search gives if that cell can be entered, else a stroll; unless the search refused a push, it is the first step of a cheapest path, and there is none exactly if the player is there or no path leads there |
| Game.GameState.GhostMode | project/game_logic.c:963-1023 | a ghost that has come out of the ground becomes normal; every other one takes the step of the search through the ground, a cheapest one unless a push was refused, and becomes normal only on a free cell after it was in the ground |
| Game.GameState.Blink | project/game_logic.c:815-835 | a paralysed enemy counts down, blinks, and dies exactly at the end of its last blink, paid once |
| Game.GameState.EnemyTurn | project/game_logic.c:862-880 | one step, then the delay starts again, and a walker becomes a ghost exactly if it is stuck for twelve seconds and does not see the player |
| Game.GameState.EnemyAi | project/game_logic.c:883-891 | a ghost takes a step through the ground and a walker one in the tunnels; nobody else changes |
| Game.GameState.CanSeePlayer | project/game_logic.c:1025-1059 | sight exactly along a row or column of free cells, both ends included |
| Game.GameState.FireWayClear | project/game_logic.c:1446-1458 | whether both cells next to a Fygar in a direction are free |
| Game.GameState.CheckFireCollision | project/game_logic.c:1488-1512 | hit exactly if the player is in one of the two cells in the direction of the fire |
| Game.GameState.FygarFire | project/game_logic.c:1416-1486 | fire burns for eighty ticks, cools down for two seconds, and starts towards the player or else away exactly if two cells are free; it costs exactly one life while it burns on the player |
| Game.GameState.UpdateEnemy | project/game_logic.c:804-881 | keeps the invariant; one turn of this enemy as a relation between worlds: dead ones do nothing, paralysed ones blink, pumped up ones deflate unless the player pumps, others wait out their delay, burn, or move and rest |
| Game.GameState.UpdateEnemies | project/game_logic.c:804-881 | every enemy takes exactly one turn, in order, each in the world the one before has left, at the time the clock then shows |
| Game.GameState.RockCrush | project/game_logic.c:1260-1303 | exactly the active enemies in the cell of a falling rock and the one below die, each for twice the points of its layer; the player there loses one life |
| Game.GameState.UpdateRock | project/game_logic.c:1104-1146 | one update of the rock for the cell below it on the map as it is; exactly if it falls on it crushes what is in its way; other rocks stay |
| Game.GameState.UpdateRocks | project/game_logic.c:1097-1148 | every rock takes exactly one update, in order |
| Game.GameState.AddScore | project/game_logic.c:1309-1316 | adds and caps |
| Game.GameState.KillEnemy | project/game_logic.c:1067-1078 | dead, inactive, counted and paid in one step |
| Game.GameState.DevKillEnemy | project/game_logic.c:1389-1410 | kills exactly the first active enemy, and reports whether there was one |
| Game.GameState.CheckRoundComplete | project/game_logic.c:1346-1368 | round clear, or victory in the last round, exactly if no enemy is left and the wait is over |
| Game.GameState.CheckGameOver | project/game_logic.c:1370-1376 | game over exactly without lives |
| Game.GameState.Judge | project/game_logic.c:1346-1376 | three seconds after the last enemy is gone the round is over, in the last round the game is won; without lives it is over |
| Game.GameState.Wait | project/game_logic.c:211-220 | the timer runs down; at its end a lost player comes back at the start if lives are left; nothing else changes |
| Game.GameState.LogicUpdate | project/game_logic.c:173-236 | while the timer runs, only the wait; else the ticks of player, enemies and rocks in this order, and then the judgement of round and game; keeps the invariant, and only goes forward |
| Game.GameState.Prepare | project/game.c:260-300 | development key, direction, pump and attack of a frame, in this order |
| Game.GameState.Frame | project/game.c:260-315 | the keys of the frame and then one update; so it keeps the invariant with any keys |
| Game.PlayGame | project/game.c:203-315 | every game goes by the rules, step by step from the first round on; in it at any time: the player is in columns 1 to 78 and rows 2 to 22 on free ground; enemies are on the map and, unless ghost or dead, on free ground; the counter is the number of active enemies; each dead one was paid once; the score is the capped sum of all awards since the first round |
| Chronicle.OneTurnEach | project/game_logic.c:804-881 | in a tick every enemy takes exactly one turn, from the state the tick finds it in to the one the tick leaves it in |
| Chronicle.StruckEnemyDies | project/game_logic.c:815-835 | an enemy hit by the harpoon stays in its place and is dead after exactly sixty frames that move, however many frames wait in between, unless it is pumped up; only a rock or the development key ends it before |
| Chronicle.HistoryKeeps | project/game_logic.c:173-236 | over any frames the dead stay dead and awards stay paid |
| Chronicle.RocksFollowTheGround | project/game_logic.c:1097-1148 | over any frames every rock takes exactly one update for each frame that moves, decided by the cell below it on the map the player has left; so the theorems about rocks hold in the game |
| Chronicle.LostPlayerReturns | project/game_logic.c:211-220 | a lost player with a life left is back at the start after exactly as many frames as the timer says; until then nothing on the map, no rock and, without the development key, no enemy changes |
| Chronicle.PlayerSteps | project/game_logic.c:242-318 | in a frame that moves the player takes the wanted step exactly if the delay is over and the cell can be entered, whatever enemies and rocks do |
| Chronicle.StepsAreSpaced | project/game_logic.c:258-275 | after a step the player stays for five frames that move, whatever the keys |
| Chronicle.TouchCostsALife | project/game_logic.c:302-317 | a player who presses nothing and shares the cell with an enemy that can move loses a life in the frame |
| Chronicle.NothingHurts | project/game_logic.c:302-317 | without active enemies and falling rocks no frame costs a life |

## Left out

- KernelCode.KernelState.SysUnblock: takes the child that the search found; the lists of children, and with them the search and its failure, are not modelled.
- KernelCalls.SysFork: whether frames suffice is an input, and neither the check for the keyboard context nor the list of children is modelled; the copying of pages is proved for the base kernel in BaseKernel.
- KernelCalls.SysCreateThread: whether the stack page can be mapped is an input, which ThreadStacks decides; the checks of the arguments and of the keyboard context come before any change and are not modelled.
- KernelExits.EndProcess: the children that get a new parent and the release of the pages are not modelled; ThreadStacks covers the stacks.
- Extended kernel, the page directory after a hand-over and the copy of thread stacks in fork.
- Extended kernel, `exit` by a thread that is not the master and a second hand-over: excluded from runs, see the theorems above.
- Pathfinder.FindPath: that nothing is dropped is proved if the passable cells fit the heap; smaller heaps may do as well, depending on the order of equal costs.
- Base kernel: parents and children, kernel stacks and their contents, the permission bits of pages, the program image at boot and the wrap-around of process identifiers; which task runs next is an input.
- Base kernel, scheduling and blocking: modelled for the extended kernel, whose scheduler is the larger one.
- UserWrite.Terminal.SysWrite: after a page without a frame the code leaves the translation of the window in the cache, and so does the model.
- ThreadStacks.StackMemory.CreateStack: asks for fewer threads than identifiers, which is what the kernel checks before; the branch without a free region is then dead.
- ThreadStacks: frames of other processes are a fixed set that is never touched; regions end below page 1014, since the next region would contain the page of the keyboard stack.
- Keyboard.KeyboardTask.SysKeyboardEvent: whether a frame for the auxiliary stack is found is an input, and its mapping is not modelled.
- Keyboard.KeyboardTask.CleanupKbdHandler: the release of the auxiliary frame and its page-table entry is not modelled.
- Keyboard: interrupts during kernel code are not modelled.
- Game: what the clock shows at the turn of each enemy and at the end of a frame is an input.
- Game: the flag of a rock that crushed somebody, the list of gem positions, drawing, the keyboard queue, menus and pauses.
- Game: the branches of `logic_update` for round changes, which the game loop does not reach.
- The other exams and laboratory kernels of the repository repeat parts of the base kernel.
