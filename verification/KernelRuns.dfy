/**
 Runs of the kernel: any sequence of clock ticks and system calls, from boot.
 */
module KernelRuns {
  import opened Sequences
  import opened KernelModel
  import opened Placement
  import opened Processes
  import opened Lifecycle
  import opened Endings

  datatype Step =
    | ClockTick
    | BlockCall
    | UnblockCall(child: int)
    | WaitForTickCall
    | ForkCall(memory: ForkMemory)
    | CreateThreadCall(mapped: bool)
    | ExitThreadCall
    | ExitCall

  ghost predicate Inv(k: Kernel) {
    Dispatched(k) && Accounted(k) && Organised(k)
  }

  /**
   The idle task makes no system calls. A whole process ends through its master. A master that
   received its role from another one has null list links and must not end while it has threads.
   */
  ghost predicate Enabled(k: Kernel, step: Step)
    requires Inv(k)
  {
    match step
    case ClockTick => true
    case UnblockCall(child) => k.current != k.idle && child in k.tasks && child != k.idle
    case ExitThreadCall => k.current != k.idle && (IsMaster(k, k.current) && k.threads[k.current] != [] ==> k.current in k.linked)
    case ExitCall => k.current != k.idle && IsMaster(k, k.current)
    case _ => k.current != k.idle
  }

  lemma CurrentIsLive(k: Kernel)
    requires Dispatched(k)
    ensures k.current in k.tasks
  {
  }

  /** There are the same task structures, and the same one is idle. */
  predicate SameStructures(k: Kernel, k': Kernel) {
    k'.ids == k.ids && k'.idle == k.idle
  }

  // Scheduling does not touch processes

  ghost predicate Reschedules(k: Kernel, k': Kernel) {
    SameOrganisation(k, k') && k'.free == k.free && k'.ids == k.ids
  }

  lemma ReschedulesTransitive(a: Kernel, b: Kernel, c: Kernel)
    requires Reschedules(a, b) && Reschedules(b, c)
    ensures Reschedules(a, c)
  {
  }

  lemma EnqueueReschedules(k: Kernel, t: int, dest: Queue)
    requires t in k.tasks
    ensures Reschedules(k, Enqueue(k, t, dest))
  {
  }

  lemma WakeReschedules(k: Kernel, q: int)
    ensures Reschedules(k, WakeTicking(k.(quantumLeft := q)))
  {
  }

  lemma SchedNextReschedules(k: Kernel)
    requires k.idle in k.tasks && forall t :: t in k.ready ==> t in k.tasks
    ensures Reschedules(k, SchedNext(k))
  {
    hide Minus;
    if k.ready != [] {
      var t := k.ready[0];
      assert t in k.ready;
    }
  }

  lemma SchedulerReschedules(k: Kernel)
    requires Dispatched(k) || (Vacant(k) && k.current in k.blocked)
    ensures Reschedules(k, Scheduler(k))
  {
    hide Minus, NoDuplicates, Rescheduled, Reschedules, SameOrganisation;
    var out := if Dispatched(k) then Fresh(k) + {k.current} else Fresh(k);
    var ticked := k.(quantumLeft := k.quantumLeft - 1);
    PlacedIgnoresQuantum(k, out, k.quantumLeft - 1, k.current);
    WakeKeepsOthers(ticked, out, k.current);
    WakeKeepsPlaced(ticked, out);
    WakeReschedules(k, k.quantumLeft - 1);
    RescheduleReschedules(WakeTicking(ticked), out);
    ReschedulesTransitive(k, WakeTicking(ticked), Scheduler(k));
  }

  lemma RescheduleReschedules(k: Kernel, out: set<int>)
    requires Placed(k, out) && k.current in k.tasks
    ensures Reschedules(k, Rescheduled(k))
  {
    hide Enqueue, SchedNext, NoDuplicates;
    var (needed, k') := NeedsSched(k);
    assert Reschedules(k, k');
    PlacedIgnoresQuantum(k, out, k'.quantumLeft, k.current);
    if needed {
      EnqueueReschedules(k', k.current, ToReady);
      EnqueueKeepsPlaced(k', out, k.current, ToReady);
      var k2 := if k'.tasks[k.current].status != Blocked then Enqueue(k', k.current, ToReady) else k';
      SchedNextReschedules(k2);
      hide SameOrganisation, Reschedules;
      ReschedulesTransitive(k, k', k2);
      ReschedulesTransitive(k, k2, SchedNext(k2));
    }
  }

  lemma ReschedulingKeepsInv(k: Kernel, k': Kernel)
    requires Inv(k) && Reschedules(k, k') && Dispatched(k')
    ensures Inv(k') && SameStructures(k, k')
  {
    hide Dispatched, Organised;
    SchedulingKeepsOrganised(k, k');
    AccountedFrame(k, k');
  }

  lemma TickKeepsInv(k: Kernel)
    requires Inv(k)
    ensures k.current in k.tasks && Inv(Scheduler(k)) && SameStructures(k, Scheduler(k))
  {
    SchedulerDispatches(k);
    SchedulerReschedules(k);
    ReschedulingKeepsInv(k, Scheduler(k));
  }

  lemma BlockReschedules(k: Kernel)
    requires Dispatched(k) && k.current != k.idle
    ensures k.current in k.tasks && Reschedules(k, Block(k))
  {
    CurrentIsLive(k);
    if k.tasks[k.current].pending == 0 {
      var out := Fresh(k) + {k.current};
      EnqueueKeepsPlaced(k, out, k.current, ToBlocked);
      assert out - {k.current} == Fresh(k);
      EnqueueReschedules(k, k.current, ToBlocked);
      var blocked := Enqueue(k, k.current, ToBlocked);
      SchedulerReschedules(blocked);
      ReschedulesTransitive(k, blocked, Scheduler(blocked));
    }
  }

  lemma BlockKeepsInv(k: Kernel)
    requires Inv(k) && k.current != k.idle
    ensures k.current in k.tasks && Inv(Block(k)) && SameStructures(k, Block(k))
  {
    hide Accounted, Organised, Reschedules, Block, NoDuplicates;
    BlockDispatches(k);
    BlockReschedules(k);
    ReschedulingKeepsInv(k, Block(k));
  }

  lemma WaitReschedules(k: Kernel)
    requires Dispatched(k) && k.current != k.idle
    ensures k.current in k.tasks && Reschedules(k, WaitForTick(k))
  {
    hide NoDuplicates, Minus;
    CurrentIsLive(k);
    var queued := Enqueue(k, k.current, ToTick);
    EnqueueReschedules(k, k.current, ToTick);
    SchedNextReschedules(queued);
    ReschedulesTransitive(k, queued, SchedNext(queued));
  }

  lemma WaitKeepsInv(k: Kernel)
    requires Inv(k) && k.current != k.idle
    ensures k.current in k.tasks && Inv(WaitForTick(k)) && SameStructures(k, WaitForTick(k))
  {
    hide Accounted, Organised, Reschedules, WaitForTick, NoDuplicates;
    WaitForTickDispatches(k);
    WaitReschedules(k);
    ReschedulingKeepsInv(k, WaitForTick(k));
  }

  lemma UnblockKeepsInv(k: Kernel, child: int)
    requires Inv(k) && child in k.tasks && child != k.idle
    ensures Inv(Unblock(k, child)) && SameStructures(k, Unblock(k, child))
  {
    hide Dispatched, Accounted, Organised, Unblock, Reschedules;
    UnblockDispatches(k, child);
    UnblockReschedules(k, child);
    ReschedulingKeepsInv(k, Unblock(k, child));
  }

  lemma UnblockReschedules(k: Kernel, child: int)
    requires child in k.tasks
    ensures Reschedules(k, Unblock(k, child))
  {
    hide Enqueue;
    EnqueueReschedules(k, child, ToReady);
  }

  lemma ForkKeepsInv(k: Kernel, memory: ForkMemory)
    requires Inv(k)
    ensures k.current in k.tasks && Inv(Fork(k, memory)) && SameStructures(k, Fork(k, memory))
  {
    assert k.current in k.tasks;
    hide Dispatched, Organised, Accounted, Fork;
    ForkDispatches(k, memory);
    ForkKeepsOrganised(k, memory);
    ForkKeepsAccounted(k, memory);
  }

  lemma ForkKeepsAccounted(k: Kernel, memory: ForkMemory)
    requires Accounted(k) && k.current in k.tasks
    ensures Accounted(Fork(k, memory)) && SameStructures(k, Fork(k, memory))
  {
    hide Accounted;
    if k.free != [] {
      RotateKeepsAccounted(k);
      AccountedFrame(k.(free := Rotated(k.free)), k.(free := Rotated(k.free), nextPid := k.nextPid + 1));
      AccountedFrame(k, k.(nextPid := k.nextPid + 1));
      SpawnAllAccounted(k.(nextPid := k.nextPid + 1));
    }
  }

  lemma SpawnAllAccounted(k: Kernel)
    requires Accounted(k) && k.free != []
    ensures forall t: Task :: Accounted(Spawned(k, t))
  {
    forall t: Task
      ensures Accounted(Spawned(k, t))
    {
      SpawnKeepsAccounted(k, t);
    }
  }

  lemma CreateThreadKeepsInv(k: Kernel, mapped: bool)
    requires Inv(k) && k.current != k.idle
    ensures k.current in k.tasks && HasProcess(k, k.tasks[k.current].master)
    ensures Inv(CreateThread(k, mapped)) && SameStructures(k, CreateThread(k, mapped))
  {
    assert k.current in k.tasks;
    hide Dispatched, Organised;
    ProcessOf(k, k.current);
    CreateThreadDispatches(k, mapped);
    CreateThreadKeepsOrganised(k, mapped);
    CreateThreadKeepsAccounted(k, mapped);
  }

  lemma CreateThreadKeepsAccounted(k: Kernel, mapped: bool)
    requires Accounted(k) && k.current in k.tasks && HasProcess(k, k.tasks[k.current].master)
    ensures Accounted(CreateThread(k, mapped)) && SameStructures(k, CreateThread(k, mapped))
  {
    hide FindRegion, FirstClear;
    if k.free != [] {
      RotateKeepsAccounted(k);
      var m := k.tasks[k.current].master;
      var master := k.tasks[m];
      var slot := FirstClear(master.slots, 0);
      if slot >= 0 {
        var master' := master.(slots := master.slots[slot := true], threadCount := master.threadCount + 1);
        var k1 := k.(tasks := k.tasks[m := master'], threads := k.threads[m := k.threads[m] + [k.free[0]]]);
        AccountedFrame(k, k1);
        SpawnAllAccounted(k1);
      }
    }
  }

  // Ending

  /** Dispatching after the current task is gone. */
  lemma DispatchKeepsInv(k: Kernel)
    requires Vacant(k) && Accounted(k) && Organised(k)
    ensures Inv(SchedNext(k)) && SameStructures(k, SchedNext(k))
  {
    SchedNextDispatches(k);
    SchedNextReschedules(k);
    hide Vacant, Dispatched, Organised, SchedNext;
    SchedulingKeepsOrganised(k, SchedNext(k));
    AccountedFrame(k, SchedNext(k));
  }

  lemma VacantCanDispatch(k: Kernel)
    requires Vacant(k)
    ensures k.idle in k.tasks && forall t :: t in k.ready ==> t in k.tasks
  {
  }

  lemma ExitKeepsInv(k: Kernel)
    requires Inv(k) && IsMaster(k, k.current) && k.current != k.idle
    ensures k.current in k.threads && Vacant(Ended(k)) && Inv(SchedNext(Ended(k))) && SameStructures(k, SchedNext(Ended(k)))
  {
    assert k.current in k.tasks;
    MasterFacts(k);
    hide Dispatched, Organised, Accounted, Vacant;
    EndedIsVacant(k);
    EndedIsOrganised(k);
    EndedIsAccounted(k);
    DispatchKeepsInv(Ended(k));
  }

  lemma MasterFacts(k: Kernel)
    requires Organised(k) && k.current in k.tasks && k.current != k.idle
    ensures k.current in k.threads && k.current !in k.threads[k.current] && k.idle !in k.threads[k.current]
    ensures NoDuplicates(k.threads[k.current]) && forall t :: t in k.threads[k.current] ==> t in k.tasks
  {
    assert BelongsTo(k, k.idle, k.idle);
  }

  lemma EndedIsAccounted(k: Kernel)
    requires Accounted(k) && k.current in k.tasks && k.current in k.threads
    requires k.current !in k.threads[k.current] && NoDuplicates(k.threads[k.current])
    requires forall t :: t in k.threads[k.current] ==> t in k.tasks
    ensures Accounted(Ended(k))
  {
    var gone := k.threads[k.current] + [k.current];
    AppendNoDuplicates(k.threads[k.current], [k.current]);
    FreeKeepsAccounted(k, gone);
    assert Elements(gone) == Elements(k.threads[k.current]) + {k.current};
    assert k.free + k.threads[k.current] + [k.current] == k.free + gone;
    AccountedFrame(k.(tasks := k.tasks - Elements(gone), free := k.free + gone), Ended(k));
  }

  lemma LeaveIsAccounted(k: Kernel, k': Kernel)
    requires Accounted(k) && k.current in k.tasks && k'.ids == k.ids
    requires k'.tasks.Keys == k.tasks.Keys - {k.current} && k'.free == k.free + [k.current]
    ensures Accounted(k')
  {
    AppendNoDuplicates([], [k.current]);
    FreeKeepsAccounted(k, [k.current]);
    assert Elements([k.current]) == {k.current};
  }

  lemma ThreadEndKeepsInv(k: Kernel)
    requires Inv(k) && k.current != k.idle && !IsMaster(k, k.current)
    ensures CanLeave(k) && Vacant(ThreadEnded(k)) && Inv(SchedNext(ThreadEnded(k)))
    ensures SameStructures(k, SchedNext(ThreadEnded(k)))
  {
    hide Dispatched, Accounted, Vacant;
    CurrentIsLive(k);
    ProcessOf(k, k.current);
    hide Organised;
    ThreadEndedIsVacant(k);
    ThreadEndedIsOrganised(k);
    ThreadEndedFrees(k);
    hide ThreadEnded, SchedNext;
    LeaveIsAccounted(k, ThreadEnded(k));
    DispatchKeepsInv(ThreadEnded(k));
  }

  lemma ThreadEndedFrees(k: Kernel)
    requires CanLeave(k)
    ensures var k' := ThreadEnded(k);
            && k'.ids == k.ids && k'.idle == k.idle
            && k'.tasks.Keys == k.tasks.Keys - {k.current} && k'.free == k.free + [k.current]
  {
    hide Minus, FreeSlot;
  }

  lemma HandOverKeepsInv(k: Kernel)
    requires Inv(k) && k.current != k.idle && IsMaster(k, k.current)
    requires k.current in k.threads && k.threads[k.current] != []
    ensures CanHandOver(k) && Vacant(HandedOver(k)) && Inv(SchedNext(HandedOver(k)))
    ensures SameStructures(k, SchedNext(HandedOver(k)))
  {
    hide Dispatched, Organised, Accounted, Vacant, NoDuplicates;
    CurrentIsLive(k);
    MasterFacts(k);
    var n := k.threads[k.current][0];
    assert n in k.threads[k.current];
    HandedOverIsVacant(k);
    HandedOverIsOrganised(k);
    LeaveIsAccounted(k, HandedOver(k));
    DispatchKeepsInv(HandedOver(k));
  }

  // Steps and runs

  /** A thread ends: with its process if it is alone, else by itself, and a master hands its role over. */
  ghost function ExitThread(k: Kernel): (k': Kernel)
    requires Inv(k) && k.current != k.idle
    ensures Inv(k') && SameStructures(k, k')
  {
    assert k.current in k.tasks;
    ProcessOf(k, k.current);
    var m := k.tasks[k.current].master;
    if k.tasks[m].threadCount == 1 then
      AloneIsMaster(k);
      ExitKeepsInv(k);
      SchedNext(Ended(k))
    else if k.current != m then
      ThreadEndKeepsInv(k);
      SchedNext(ThreadEnded(k))
    else
      HeirExists(k);
      HandOverKeepsInv(k);
      SchedNext(HandedOver(k))
  }

  lemma AloneIsMaster(k: Kernel)
    requires Organised(k) && k.current in k.tasks
    ensures var m := k.tasks[k.current].master;
            && m in k.tasks && (k.tasks[m].threadCount == 1 ==> k.current == m)
  {
    assert BelongsTo(k, k.current, k.tasks[k.current].master);
  }

  /** A master that counts more than itself finds an heir on its list: the fallback branch is dead. */
  lemma HeirExists(k: Kernel)
    requires Organised(k) && IsMaster(k, k.current)
    ensures k.current in k.threads
    ensures k.tasks[k.current].threadCount != 1 <==> k.threads[k.current] != []
  {
    assert BelongsTo(k, k.current, k.current);
  }

  ghost function Next(k: Kernel, step: Step): (k': Kernel)
    requires Inv(k) && Enabled(k, step)
    ensures Inv(k') && SameStructures(k, k')
  {
    match step
    case ClockTick => TickKeepsInv(k); Scheduler(k)
    case BlockCall => BlockKeepsInv(k); Block(k)
    case UnblockCall(child) => UnblockKeepsInv(k, child); Unblock(k, child)
    case WaitForTickCall => WaitKeepsInv(k); WaitForTick(k)
    case ForkCall(memory) => ForkKeepsInv(k, memory); Fork(k, memory)
    case CreateThreadCall(mapped) => CreateThreadKeepsInv(k, mapped); CreateThread(k, mapped)
    case ExitThreadCall => ExitThread(k)
    case ExitCall => ExitKeepsInv(k); SchedNext(Ended(k))
  }

  /** The end of a master that leaves its process to the first of its threads. */
  ghost predicate HandsOver(k: Kernel, step: Step) {
    step == ExitThreadCall && IsMaster(k, k.current) && k.current in k.threads && k.threads[k.current] != []
  }

  /** The three ways a thread ends. */
  lemma ExitThreadCases(k: Kernel)
    requires Inv(k) && k.current != k.idle
    ensures k.current in k.tasks
    ensures if !IsMaster(k, k.current) then CanLeave(k) && SchedNext.requires(ThreadEnded(k)) && ExitThread(k) == SchedNext(ThreadEnded(k))
            else if HandsOver(k, ExitThreadCall) then
              CanHandOver(k) && SchedNext.requires(HandedOver(k)) && ExitThread(k) == SchedNext(HandedOver(k))
            else k.current in k.threads && SchedNext.requires(Ended(k)) && ExitThread(k) == SchedNext(Ended(k))
  {
    CurrentIsLive(k);
    ProcessOf(k, k.current);
    AloneIsMaster(k);
    hide Dispatched, Accounted, Ended, ThreadEnded, HandedOver, SchedNext, Vacant, CanLeave, CanHandOver;
    if !IsMaster(k, k.current) {
      ThreadEndKeepsInv(k);
      VacantCanDispatch(ThreadEnded(k));
    } else {
      HeirExists(k);
      hide Organised;
      if HandsOver(k, ExitThreadCall) {
        HandOverKeepsInv(k);
        VacantCanDispatch(HandedOver(k));
      } else {
        ExitKeepsInv(k);
        VacantCanDispatch(Ended(k));
      }
    }
  }

  lemma NextOfUnblock(k: Kernel, t: int)
    requires Inv(k) && k.current != k.idle && t in k.tasks && t != k.idle
    ensures Enabled(k, UnblockCall(t)) && Next(k, UnblockCall(t)) == Unblock(k, t)
  {
    hide Inv, Unblock;
  }

  lemma NextOfWait(k: Kernel)
    requires Inv(k) && k.current != k.idle && WaitForTick.requires(k)
    ensures Enabled(k, WaitForTickCall) && Next(k, WaitForTickCall) == WaitForTick(k)
  {
    hide Inv, WaitForTick;
  }

  lemma NextOfTick(k: Kernel)
    requires Inv(k) && Scheduler.requires(k)
    ensures Enabled(k, ClockTick) && Next(k, ClockTick) == Scheduler(k)
  {
    hide Inv, Scheduler;
  }

  lemma NextOfFork(k: Kernel, memory: ForkMemory)
    requires Inv(k) && k.current != k.idle && k.current in k.tasks
    ensures Enabled(k, ForkCall(memory)) && Next(k, ForkCall(memory)) == Fork(k, memory)
  {
    hide Inv, Fork;
  }

  lemma NextOfCreation(k: Kernel, mapped: bool)
    requires Inv(k) && k.current != k.idle && CreateThread.requires(k, mapped)
    ensures Enabled(k, CreateThreadCall(mapped)) && Next(k, CreateThreadCall(mapped)) == CreateThread(k, mapped)
  {
    hide Inv, CreateThread;
  }

  lemma StepReschedules(k: Kernel, step: Step)
    requires Inv(k) && Enabled(k, step) && (step.ClockTick? || step.BlockCall? || step.WaitForTickCall? || step.UnblockCall?)
    ensures Reschedules(k, Next(k, step))
  {
    hide Accounted, Organised, Reschedules, Scheduler, Block, Unblock, WaitForTick;
    match step
    case ClockTick => SchedulerReschedules(k);
    case BlockCall => BlockReschedules(k);
    case UnblockCall(child) => UnblockReschedules(k, child);
    case WaitForTickCall => WaitReschedules(k);
  }

  /** Every step of the run is possible when its turn comes. */
  ghost predicate Runs(k: Kernel, steps: seq<Step>)
    requires Inv(k)
    decreases |steps|
  {
    hide Next, Inv;
    steps == [] || (Enabled(k, steps[0]) && Runs(Next(k, steps[0]), steps[1..]))
  }

  ghost function After(k: Kernel, steps: seq<Step>): (k': Kernel)
    requires Inv(k) && Runs(k, steps)
    ensures Inv(k') && SameStructures(k, k')
    decreases |steps|
  {
    hide Next, Inv;
    if steps == [] then k else After(Next(k, steps[0]), steps[1..])
  }

  // Boot

  const IDLE := Task(0, 0, Running, DEFAULT_QUANTUM, 0, 0, 1,
                     [false, false, false, false, false, false, false, false, false, false], 0, 0)
  const INIT := Task(1, 10, Running, DEFAULT_QUANTUM, 0, 1, 1, INITIAL_SLOTS, STACK_BASE_PAGE, REGION_PAGES)

  /** Structure 0 is idle, structure 1 is init and runs, the others are free. */
  function Boot(free: seq<int>): Kernel {
    Kernel({0, 1} + Elements(free), map[0 := IDLE, 1 := INIT], free, [], [], [], map[0 := [], 1 := []], {0, 1},
           1, DEFAULT_QUANTUM, 1, 0, 0)
  }

  lemma BootIsGood(free: seq<int>)
    requires NoDuplicates(free) && 0 !in free && 1 !in free
    ensures Inv(Boot(free))
  {
    BootIsPlaced(free);
    BootIsOrganised(free);
  }

  lemma BootIsPlaced(free: seq<int>)
    requires NoDuplicates(free) && 0 !in free && 1 !in free
    ensures Dispatched(Boot(free)) && Accounted(Boot(free))
  {
    assert Boot(free).tasks.Keys == {0, 1};
  }

  /** Only idle and init are alive. */
  ghost predicate JustBooted(k: Kernel) {
    && k.tasks.Keys == {0, 1} && k.threads.Keys == {0, 1} && k.idle == 0 && k.nextPid == 1
    && k.tasks[0] == IDLE && k.tasks[1] == INIT && k.threads[0] == [] && k.threads[1] == []
  }

  lemma BootIsOrganised(free: seq<int>)
    ensures Organised(Boot(free))
  {
    var k := Boot(free);
    assert JustBooted(k) by {
      assert k.tasks.Keys == {0, 1} && k.threads.Keys == {0, 1};
    }
    hide Boot;
    BootIsListed(k);
    BootIsSlotted(k, IDLE, INIT);
    hide Led, Listed, Slotted;
  }

  lemma BootIsListed(k: Kernel)
    requires JustBooted(k)
    ensures Led(k) && Listed(k) && Numbered(k) && Stacked(k)
  {
    assert BelongsTo(k, 0, 0) && BelongsTo(k, 1, 1);
    BootIsNumbered(k);
    hide Numbered, Stacked;
  }

  lemma BootIsNumbered(k: Kernel)
    requires JustBooted(k)
    ensures Numbered(k) && Stacked(k)
  {
  }

  lemma BootIsSlotted(k: Kernel, idle: Task, init: Task)
    requires k.tasks.Keys == {0, 1} && k.tasks[0] == idle && k.tasks[1] == init && k.idle == 0
    requires idle.master == 0 && init.master == 1 && SlotOf(init) == 0
    requires |init.slots| == MAX_TIDS && init.slots[0] && forall i :: 0 < i < MAX_TIDS ==> !init.slots[i]
    ensures Slotted(k)
  {
    assert OwnsSlot(k, 1, 1);
    forall m, i | IsMaster(k, m) && m != k.idle && 0 <= i < |k.tasks[m].slots| && k.tasks[m].slots[i]
      ensures SlotOwned(k, m, i)
    {
      assert m == 1 && i == 0;
      assert 1 in k.tasks && k.tasks[1].master == 1 && SlotOf(k.tasks[1]) == 0;
    }
  }
}
