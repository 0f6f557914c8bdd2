/**
 How tasks come and go: what fork, the creation of a thread and the three ways to end do to processes, in
 every state that can be reached.
 */
module Lives {
  import opened Sequences
  import opened KernelModel
  import opened Placement
  import opened Processes
  import opened Endings
  import opened KernelRuns
  import opened Effects
  import KernelTheorems

  /** Queues, current task and all tasks and lists that there were are as before. */
  ghost predicate OthersStay(k: Kernel, k': Kernel) {
    && (forall t :: t in k.tasks ==> t in k'.tasks && k'.tasks[t] == k.tasks[t])
    && (forall t :: t in k.threads ==> t in k'.threads && k'.threads[t] == k.threads[t])
    && k'.blocked == k.blocked && k'.ticking == k.ticking && k'.current == k.current && k'.quantumLeft == k.quantumLeft
    && k'.ids == k.ids && k'.idle == k.idle && k'.idlePicks == k.idlePicks
  }

  /** Only the first of ten slots is in use. */
  predicate OneSlot(slots: seq<bool>) {
    |slots| == 10 && slots[0] && forall i :: 1 <= i < 10 ==> !slots[i]
  }

  /** A failed call changes at most the order of the free structures and the counter of identifiers. */
  ghost predicate Fails(k: Kernel, k': Kernel) {
    k'.(free := k.free, nextPid := k.nextPid) == k && Elements(k'.free) == Elements(k.free) && k.nextPid <= k'.nextPid
  }

  /** Fork lacks a structure, or frames for the data or for a stack that has to be copied. */
  ghost predicate CannotFork(k: Kernel, memory: ForkMemory)
    requires k.current in k.tasks
  {
    k.free == [] || memory == NoDataFrames || (memory == NoStackFrames && k.tasks[k.current].regionPages != 0)
  }

  /** The child is a new process with one thread, which is ready behind all others. */
  ghost predicate Child(k: Kernel, k': Kernel, child: int, pid: int)
    requires k.current in k.tasks
  {
    && child !in k.tasks && k'.tasks.Keys == k.tasks.Keys + {child} && k'.ready == k.ready + [child]
    && k'.threads.Keys == k.threads.Keys + {child} && k'.threads[child] == [] && k'.linked == k.linked + {child}
    && var c, p := k'.tasks[child], k.tasks[k.current];
       && c.pid == pid && c.tid == 10 * pid && c.master == child && c.threadCount == 1 && OneSlot(c.slots)
       && c.status == Ready && c.quantum == p.quantum && c.pending == 0
       && (if p.regionPages == 0 then c.regionPages == 0 else c.regionStart == 310 && c.regionPages == 8)
  }

  lemma FreeIsNotLive(k: Kernel)
    requires Inv(k) && k.free != []
    ensures k.free[0] !in k.tasks && k.free[0] !in k.threads
  {
    var id := k.free[0];
    assert id in k.free;
    hide Dispatched;
    assert k.threads.Keys == k.tasks.Keys;
  }

  lemma PidsAreIssued(k: Kernel, t: int)
    requires Inv(k) && t in k.tasks
    ensures 0 <= k.tasks[t].pid <= k.nextPid
  {
    hide Dispatched, Accounted;
  }

  lemma ForkFails(k: Kernel, memory: ForkMemory)
    requires k.current in k.tasks && CannotFork(k, memory)
    ensures Fails(k, Fork(k, memory))
  {
    hide Elements, Rotated;
    if k.free != [] {
      KernelTheorems.RotatedElements(k.free);
    }
  }

  lemma ForkSucceeds(k: Kernel, memory: ForkMemory)
    requires k.current in k.tasks && !CannotFork(k, memory) && k.free[0] !in k.tasks && k.free[0] !in k.threads
    ensures var k' := Fork(k, memory);
            && OthersStay(k, k') && Child(k, k', k.free[0], k.nextPid + 1)
            && k'.free == k.free[1..] && k'.nextPid == k.nextPid + 1
  {
  }

  /**
   Fork fails exactly for lack of a structure or of frames, and then changes nothing of any task. Else it reports an
   identifier larger than all there were, of a new process that is ready behind all others.
   */
  lemma ForkMeans(k: Kernel, memory: ForkMemory)
    requires Inv(k) && Enabled(k, ForkCall(memory))
    ensures k.current in k.tasks
    ensures var k', r := Next(k, ForkCall(memory)), ForkResult(k, memory);
            if CannotFork(k, memory) then Fails(k, k') && r == (if k.free == [] then -12 else -11)
            else
              && OthersStay(k, k') && Child(k, k', k.free[0], r) && k'.free == k.free[1..]
              && r == k.nextPid + 1 == k'.nextPid && forall t :: t in k.tasks ==> k.tasks[t].pid < r
  {
    hide Inv, Fork, Next, OthersStay, Child, Fails;
    CallerIsLive(k);
    NextOfFork(k, memory);
    if CannotFork(k, memory) {
      ForkFails(k, memory);
    } else {
      FreeIsNotLive(k);
      ForkSucceeds(k, memory);
      forall t | t in k.tasks
        ensures k.tasks[t].pid < k.nextPid + 1
      {
        PidsAreIssued(k, t);
      }
    }
  }

  // Threads

  /** The lowest slot that is not in use. */
  ghost predicate Lowest(slots: seq<bool>, i: int) {
    0 <= i < |slots| && !slots[i] && forall j :: 0 <= j < i ==> slots[j]
  }

  ghost predicate AllTaken(slots: seq<bool>) {
    forall i :: 0 <= i < |slots| ==> slots[i]
  }

  /** The new thread belongs to process m, has a stack of its own there, and is ready behind all others. */
  ghost predicate Thread(k: Kernel, k': Kernel, id: int, m: int, slot: int)
    requires m in k.tasks && m in k.threads && 0 <= slot < |k.tasks[m].slots|
  {
    && id !in k.tasks && k'.tasks.Keys == k.tasks.Keys + {id} && k'.ready == k.ready + [id]
    && k'.threads == k.threads[m := k.threads[m] + [id]][id := []] && k'.linked == k.linked + {id}
    && k'.tasks[m] == k.tasks[m].(slots := k.tasks[m].slots[slot := true], threadCount := k.tasks[m].threadCount + 1)
    && var c := k'.tasks[id];
       && c.pid == k.tasks[m].pid && c.tid == 10 * c.pid + slot && c.master == m
       && c.status == Ready && c.quantum == 1 && c.pending == 0 && c.regionPages == 8 && IsRegion(c.regionStart)
       && (forall t :: t in k.tasks && k.tasks[t].master == m && k.tasks[t].regionPages != 0 ==> k.tasks[t].regionStart != c.regionStart)
  }

  /** All queues but the ready queue and all tasks but m are as before. */
  ghost predicate OthersStayBut(k: Kernel, k': Kernel, m: int) {
    && (forall t :: t in k.tasks && t != m ==> t in k'.tasks && k'.tasks[t] == k.tasks[t])
    && k'.blocked == k.blocked && k'.ticking == k.ticking && k'.current == k.current && k'.quantumLeft == k.quantumLeft
    && k'.ids == k.ids && k'.idle == k.idle && k'.idlePicks == k.idlePicks && k'.nextPid == k.nextPid
  }

  lemma CreatedThread(k: Kernel, slot: int)
    requires k.current in k.tasks && HasProcess(k, k.tasks[k.current].master) && k.free != [] && k.free[0] !in k.tasks
    requires var m := k.tasks[k.current].master; slot == FirstClear(k.tasks[m].slots, 0) >= 0 && FindRegion(k, m, STACK_BASE_PAGE) >= 0
    ensures var k', m := CreateThread(k, true), k.tasks[k.current].master;
            && OthersStayBut(k, k', m) && k'.free == k.free[1..]
            && k'.tasks.Keys == k.tasks.Keys + {k.free[0]} && k'.ready == k.ready + [k.free[0]]
            && k'.threads == k.threads[m := k.threads[m] + [k.free[0]]][k.free[0] := []] && k'.linked == k.linked + {k.free[0]}
            && k'.tasks[m] == k.tasks[m].(slots := k.tasks[m].slots[slot := true], threadCount := k.tasks[m].threadCount + 1)
            && var c := k'.tasks[k.free[0]];
               && c.pid == k.tasks[m].pid && c.tid == 10 * c.pid + slot && c.master == m && c.status == Ready
               && c.quantum == 1 && c.pending == 0 && c.regionPages == 8 && c.regionStart == FindRegion(k, m, STACK_BASE_PAGE)
  {
    hide FirstClear, FindRegion;
  }

  lemma OwnStack(k: Kernel, k': Kernel, id: int, m: int)
    requires Stacked(k') && m in k.tasks && id !in k.tasks && id in k'.tasks && k'.tasks[id].master == m && k'.tasks[id].regionPages == 8
    requires forall t :: t in k.tasks ==>
               t in k'.tasks && k'.tasks[t].master == k.tasks[t].master && k'.tasks[t].regionStart == k.tasks[t].regionStart
               && k'.tasks[t].regionPages == k.tasks[t].regionPages
    ensures IsRegion(k'.tasks[id].regionStart)
    ensures forall t :: t in k.tasks && k.tasks[t].master == m && k.tasks[t].regionPages != 0 ==> k.tasks[t].regionStart != k'.tasks[id].regionStart
  {
  }

  lemma StacksInOrder(k: Kernel)
    requires Inv(k)
    ensures Stacked(k)
  {
    hide Dispatched, Accounted, Led, Listed, Numbered, Slotted;
  }

  lemma CreationSucceeds(k: Kernel, slot: int)
    requires Inv(k) && Enabled(k, CreateThreadCall(true)) && k.free != []
    ensures k.current in k.tasks && HasProcess(k, k.tasks[k.current].master)
    ensures var k', m := Next(k, CreateThreadCall(true)), k.tasks[k.current].master;
            Lowest(k.tasks[m].slots, slot) ==> Thread(k, k', k.free[0], m, slot) && OthersStayBut(k, k', m) && k'.free == k.free[1..]
  {
    hide Inv, Next, CreateThread, FindRegion, FirstClear, OthersStayBut, Stacked;
    KernelTheorems.ThreadCreationFindsRegion(k);
    CreateThreadKeepsInv(k, true);
    NextOfCreation(k, true);
    FreeIsNotLive(k);
    var m := k.tasks[k.current].master;
    if Lowest(k.tasks[m].slots, slot) {
      FirstClearIsLowest(k.tasks[m].slots, slot);
      CreatedThread(k, slot);
      StacksInOrder(CreateThread(k, true));
      ThreadKeepsRecords(k, CreateThread(k, true), m, slot);
      OwnStack(k, CreateThread(k, true), k.free[0], m);
    }
  }

  lemma ThreadKeepsRecords(k: Kernel, k': Kernel, m: int, slot: int)
    requires m in k.tasks && m in k'.tasks && OthersStayBut(k, k', m) && 0 <= slot < |k.tasks[m].slots|
    requires k'.tasks[m] == k.tasks[m].(slots := k.tasks[m].slots[slot := true], threadCount := k.tasks[m].threadCount + 1)
    ensures forall t :: t in k.tasks ==>
              t in k'.tasks && k'.tasks[t].master == k.tasks[t].master && k'.tasks[t].regionStart == k.tasks[t].regionStart
              && k'.tasks[t].regionPages == k.tasks[t].regionPages
  {
  }

  lemma FirstClearIsLowest(slots: seq<bool>, slot: int)
    ensures FirstClear(slots, 0) >= 0 <==> !AllTaken(slots)
    ensures Lowest(slots, slot) ==> slot == FirstClear(slots, 0)
    ensures FirstClear(slots, 0) >= 0 ==> Lowest(slots, FirstClear(slots, 0))
  {
    hide FirstClear;
  }

  /** A thread cannot be created if there is no structure, all ten slots of the process are in use, or its stack page cannot be mapped. */
  ghost predicate CannotCreate(k: Kernel, mapped: bool)
    requires k.current in k.tasks && HasProcess(k, k.tasks[k.current].master)
  {
    k.free == [] || AllTaken(k.tasks[k.tasks[k.current].master].slots) || !mapped
  }

  lemma CreationFails(k: Kernel, mapped: bool)
    requires Inv(k) && Enabled(k, CreateThreadCall(mapped))
    ensures k.current in k.tasks && HasProcess(k, k.tasks[k.current].master)
    ensures var k', r, slots := Next(k, CreateThreadCall(mapped)), CreateResult(k, mapped), k.tasks[k.tasks[k.current].master].slots;
            && (r < 0 <==> CannotCreate(k, mapped))
            && (r < 0 ==> Fails(k, k') && k'.nextPid == k.nextPid && r == if k.free == [] || AllTaken(slots) then -12 else -11)
  {
    hide Inv, Next, CreateThread, FindRegion, FirstClear, IsRegion;
    KernelTheorems.ThreadCreationFindsRegion(k);
    KernelTheorems.CreatorFacts(k);
    KernelTheorems.CreationIsReported(k, mapped);
    CreateThreadKeepsInv(k, mapped);
    NextOfCreation(k, mapped);
    var m := k.tasks[k.current].master;
    FirstClearIsLowest(k.tasks[m].slots, 0);
    RegionsArePages(FindRegion(k, m, STACK_BASE_PAGE));
  }

  lemma RegionsArePages(start: int)
    ensures IsRegion(start) ==> start >= 0
  {
  }

  /**
   The creation of a thread fails exactly for lack of a structure, a slot or a frame, and then changes nothing of any
   task. Else it reports the lowest free identifier of the process, of a thread with a stack of its own.
   */
  lemma CreationMeans(k: Kernel, mapped: bool)
    requires Inv(k) && Enabled(k, CreateThreadCall(mapped))
    ensures k.current in k.tasks && HasProcess(k, k.tasks[k.current].master)
    ensures var k', r, m := Next(k, CreateThreadCall(mapped)), CreateResult(k, mapped), k.tasks[k.current].master;
            var slot := r - 10 * k.tasks[m].pid;
            if CannotCreate(k, mapped) then
              Fails(k, k') && k'.nextPid == k.nextPid && r == (if k.free == [] || AllTaken(k.tasks[m].slots) then -12 else -11)
            else
              Lowest(k.tasks[m].slots, slot) && Thread(k, k', k.free[0], m, slot) && OthersStayBut(k, k', m) && k'.free == k.free[1..]
  {
    hide Inv, Next, CreateThread, FindRegion, FirstClear, Thread, OthersStayBut, Fails, Lowest, AllTaken;
    CreateThreadKeepsInv(k, mapped);
    var m := k.tasks[k.current].master;
    FirstClearIsLowest(k.tasks[m].slots, 0);
    CreationFails(k, mapped);
    if !CannotCreate(k, mapped) {
      CreationSucceeds(k, FirstClear(k.tasks[m].slots, 0));
    }
  }

  // Ends

  /** The survivors: all tasks but those that are gone, as they were but for their status. */
  ghost predicate Survive(k: Kernel, k': Kernel, gone: set<int>) {
    && k'.tasks.Keys == k.tasks.Keys - gone && k'.threads.Keys == k.threads.Keys - gone
    && (forall t :: t in k'.tasks ==> k'.tasks[t] == k.tasks[t].(status := k'.tasks[t].status))
    && (forall t :: t in k'.threads ==> k'.threads[t] == k.threads[t])
    && k'.linked == k.linked - gone && k'.nextPid == k.nextPid && k'.idle == k.idle && k'.ids == k.ids
  }

  /** The tasks of the process of m. */
  ghost function Members(k: Kernel, m: int): set<int>
    requires m in k.tasks
  {
    set t | t in k.tasks && k.tasks[t].pid == k.tasks[m].pid
  }

  /** A process consists of its master and the threads on the master's list. */
  lemma MembersAreListed(k: Kernel, m: int)
    requires Inv(k) && IsMaster(k, m) && m in k.threads
    ensures Members(k, m) == Elements(k.threads[m]) + {m}
  {
    hide Dispatched, Accounted, Slotted, Stacked, NoDuplicates;
    forall t
      ensures t in Members(k, m) <==> t in Elements(k.threads[m]) + {m}
    {
      if t in k.tasks {
        assert BelongsTo(k, t, k.tasks[t].master);
      }
    }
  }

  lemma EndedSurvive(k: Kernel)
    requires k.current in k.threads
    ensures var k', gone := Ended(k), Elements(k.threads[k.current]) + {k.current};
            && Survive(k, k', gone) && k'.free == k.free + k.threads[k.current] + [k.current]
            && k'.ready == MinusAll(k.ready, k.threads[k.current])
            && k'.blocked == MinusAll(k.blocked, k.threads[k.current]) && k'.ticking == MinusAll(k.ticking, k.threads[k.current])
  {
    hide MinusAll, Elements;
  }

  lemma DispatchSurvives(k: Kernel, k': Kernel, gone: set<int>)
    requires Survive(k, k', gone) && Vacant(k')
    ensures Survive(k, SchedNext(k'), gone) && SchedNext(k').free == k'.free
    ensures Dispatches(k', SchedNext(k'), k'.ready) && SchedNext(k').blocked == k'.blocked && SchedNext(k').ticking == k'.ticking
  {
    SchedNextMeans(k');
    hide SchedNext, Placed, Dispatches;
  }

  /** Exit ends exactly the tasks of the caller's process, frees their structures, and the first ready survivor runs. */
  lemma ExitMeans(k: Kernel)
    requires Inv(k) && Enabled(k, ExitCall)
    ensures k.current in k.tasks && k.current in k.threads
    ensures var k', gone := Next(k, ExitCall), Members(k, k.current);
            && Survive(k, k', gone) && Elements(k'.free) == Elements(k.free) + gone
            && Dispatches(k.(tasks := k.tasks - gone), k', MinusAll(k.ready, k.threads[k.current]))
            && (forall t :: t in k'.blocked <==> t in k.blocked && t !in gone)
            && (forall t :: t in k'.ticking <==> t in k.ticking && t !in gone)
  {
    hide Inv, SchedNext, Vacant, Ended, Survive, MinusAll;
    ExitKeepsInv(k);
    CallerIsLive(k);
    CallerIsOnNoQueue(k);
    MembersAreListed(k, k.current);
    EndedSurvive(k);
    DispatchSurvives(k, Ended(k), Members(k, k.current));
    EndedKeepsQuanta(k);
  }

  lemma CallerIsOnNoQueue(k: Kernel)
    requires Inv(k)
    ensures k.current !in k.ready && k.current !in k.blocked && k.current !in k.ticking
  {
    hide Accounted, Organised, NoDuplicates;
  }

  lemma EndedKeepsQuanta(k: Kernel)
    requires k.current in k.threads
    ensures Ended(k).tasks == k.tasks - (Elements(k.threads[k.current]) + {k.current}) && Ended(k).idle == k.idle
  {
    hide MinusAll, Elements;
  }

  /** Slots without the one that becomes free. */
  ghost predicate Cleared(slots: seq<bool>, slots': seq<bool>, slot: int) {
    |slots'| == |slots| && forall i :: 0 <= i < |slots| ==> slots'[i] == (slots[i] && i != slot)
  }

  /** Thread t of the process of m is gone: its slot is free, and the master counts and lists one thread less. */
  ghost predicate Leaves(k: Kernel, k': Kernel, t: int, m: int)
    requires t in k.tasks && m in k.tasks && m in k.threads
  {
    && k'.tasks.Keys == k.tasks.Keys - {t} && m in k'.tasks
    && (forall x :: x in k'.tasks && x != m ==> k'.tasks[x] == k.tasks[x].(status := k'.tasks[x].status))
    && Cleared(k.tasks[m].slots, k'.tasks[m].slots, k.tasks[t].tid - 10 * k.tasks[m].pid)
    && k'.tasks[m] == k.tasks[m].(status := k'.tasks[m].status, slots := k'.tasks[m].slots, threadCount := k.tasks[m].threadCount - 1)
    && k'.threads.Keys == k.threads.Keys - {t} && (forall x :: x in k'.threads && x != m ==> k'.threads[x] == k.threads[x])
    && m in k'.threads && NoDuplicates(k'.threads[m]) && (forall x :: x in k'.threads[m] <==> x in k.threads[m] && x != t)
    && k'.linked == k.linked - {t} && k'.nextPid == k.nextPid && k'.idle == k.idle && k'.ids == k.ids
  }

  lemma ThreadEndedLeaves(k: Kernel)
    requires CanLeave(k) && NoDuplicates(k.threads[k.tasks[k.current].master])
    ensures var k' := ThreadEnded(k);
            && Leaves(k, k', k.current, k.tasks[k.current].master) && k'.free == k.free + [k.current]
            && k'.ready == k.ready && k'.blocked == k.blocked && k'.ticking == k.ticking
            && forall t :: t in k'.tasks ==> k'.tasks[t].quantum == k.tasks[t].quantum
  {
    hide NoDuplicates;
  }

  lemma DispatchLeaves(k: Kernel, k': Kernel, t: int, m: int)
    requires t in k.tasks && m in k.tasks && m in k.threads && Leaves(k, k', t, m) && Vacant(k') && k'.ready == k.ready
    requires forall x :: x in k'.tasks ==> k'.tasks[x].quantum == k.tasks[x].quantum
    ensures Leaves(k, SchedNext(k'), t, m) && SchedNext(k').free == k'.free
    ensures Dispatches(k, SchedNext(k'), k.ready) && SchedNext(k').blocked == k'.blocked && SchedNext(k').ticking == k'.ticking
  {
    SchedNextMeans(k');
    hide SchedNext, Placed, NoDuplicates;
  }

  /** The end of a thread that is not the master takes only this thread away, and the first ready task runs. */
  lemma ThreadEndMeans(k: Kernel)
    requires Inv(k) && Enabled(k, ExitThreadCall) && !IsMaster(k, k.current)
    ensures k.current in k.tasks && HasProcess(k, k.tasks[k.current].master)
    ensures var k' := Next(k, ExitThreadCall);
            && Leaves(k, k', k.current, k.tasks[k.current].master) && k'.free == k.free + [k.current]
            && k'.blocked == k.blocked && k'.ticking == k.ticking && Dispatches(k, k', k.ready)
  {
    hide Inv, SchedNext, Vacant, ThreadEnded, ExitThread, Leaves, NoDuplicates, HasProcess;
    ExitThreadCases(k);
    ThreadEndKeepsInv(k);
    CreateThreadKeepsInv(k, true);
    ListsAreSound(k, k.tasks[k.current].master);
    ThreadEndedLeaves(k);
    DispatchLeaves(k, ThreadEnded(k), k.current, k.tasks[k.current].master);
  }

  lemma ListsAreSound(k: Kernel, m: int)
    requires Inv(k) && m in k.threads
    ensures NoDuplicates(k.threads[m])
  {
    hide Dispatched, Accounted;
  }

  /** The process of m now belongs to n, the first thread on its list; the others follow n, in the same order. */
  ghost predicate PassesTo(k: Kernel, k': Kernel, m: int, n: int)
    requires m in k.tasks && n in k.tasks && m in k.threads && k.threads[m] != []
  {
    && k'.tasks.Keys == k.tasks.Keys - {m} && n in k'.tasks
    && (forall x :: x in k'.tasks && x != n ==>
          k'.tasks[x] == k.tasks[x].(status := k'.tasks[x].status, master := if x in k.threads[m] then n else k.tasks[x].master))
    && Cleared(k.tasks[m].slots, k'.tasks[n].slots, k.tasks[m].tid - 10 * k.tasks[m].pid)
    && k'.tasks[n] == k.tasks[n].(status := k'.tasks[n].status, master := n, slots := k'.tasks[n].slots,
                                  threadCount := k.tasks[m].threadCount - 1)
    && k'.threads.Keys == k.threads.Keys - {m} && n in k'.threads && k'.threads[n] == k.threads[m][1..]
    && (forall x :: x in k'.threads && x != n ==> k'.threads[x] == k.threads[x])
    && k'.linked == k.linked - {m, n} && k'.nextPid == k.nextPid && k'.idle == k.idle && k'.ids == k.ids
  }

  lemma HandedOverPasses(k: Kernel)
    requires CanHandOver(k) && k.threads[k.current][0] != k.current && k.threads[k.current][0] in k.threads
    requires NoDuplicates(k.threads[k.current])
    ensures var k', n := HandedOver(k), k.threads[k.current][0];
            && PassesTo(k, k', k.current, n) && k'.free == k.free + [k.current]
            && k'.ready == k.ready && k'.blocked == k.blocked && k'.ticking == k.ticking
            && forall t :: t in k'.tasks ==> k'.tasks[t].quantum == k.tasks[t].quantum
  {
    var list := k.threads[k.current];
    assert list == [list[0]] + list[1..];
  }

  lemma DispatchPasses(k: Kernel, k': Kernel, m: int, n: int)
    requires m in k.tasks && n in k.tasks && m in k.threads && k.threads[m] != [] && PassesTo(k, k', m, n) && Vacant(k') && k'.ready == k.ready
    requires forall x :: x in k'.tasks ==> k'.tasks[x].quantum == k.tasks[x].quantum
    ensures PassesTo(k, SchedNext(k'), m, n) && SchedNext(k').free == k'.free
    ensures Dispatches(k, SchedNext(k'), k.ready) && SchedNext(k').blocked == k'.blocked && SchedNext(k').ticking == k'.ticking
  {
    SchedNextMeans(k');
    hide SchedNext, Placed;
  }

  /** The end of a master with threads passes its process on. */
  lemma HandOverMeans(k: Kernel)
    requires Inv(k) && Enabled(k, ExitThreadCall) && HandsOver(k, ExitThreadCall)
    ensures k.current in k.tasks && k.threads[k.current][0] in k.tasks
    ensures var k', n := Next(k, ExitThreadCall), k.threads[k.current][0];
            && PassesTo(k, k', k.current, n) && k'.free == k.free + [k.current]
            && k'.blocked == k.blocked && k'.ticking == k.ticking && Dispatches(k, k', k.ready)
  {
    hide Inv, SchedNext, Vacant, HandedOver, ExitThread, PassesTo, NoDuplicates;
    ExitThreadCases(k);
    HandOverKeepsInv(k);
    ListsAreSound(k, k.current);
    HeirIsThread(k);
    HandedOverPasses(k);
    DispatchPasses(k, HandedOver(k), k.current, k.threads[k.current][0]);
  }

  lemma HeirIsThread(k: Kernel)
    requires Inv(k) && k.current != k.idle && k.current in k.threads && k.threads[k.current] != []
    ensures var n := k.threads[k.current][0]; n != k.current && n in k.threads
  {
    hide Dispatched, Accounted, NoDuplicates, Slotted, Stacked, Numbered, BelongsTo;
    var n := k.threads[k.current][0];
    assert n in k.threads[k.current];
    assert k.threads.Keys == k.tasks.Keys;
  }

  /** A master without threads takes its process along. */
  lemma LastThreadExits(k: Kernel)
    requires Inv(k) && Enabled(k, ExitThreadCall) && Enabled(k, ExitCall) && !HandsOver(k, ExitThreadCall)
    ensures Next(k, ExitThreadCall) == Next(k, ExitCall)
  {
    hide Inv, SchedNext, ExitThread, Ended;
    ExitThreadCases(k);
  }

  // Identifiers over runs

  /** No live task has process identifier p. */
  ghost predicate Absent(k: Kernel, p: int) {
    forall t :: t in k.tasks ==> k.tasks[t].pid != p
  }

  lemma SchedulingKeepsPids(k: Kernel, k': Kernel, p: int)
    requires OnlyScheduling(k, k') && Absent(k, p)
    ensures Absent(k', p) && k'.nextPid == k.nextPid
  {
  }

  lemma ForkKeepsAbsent(k: Kernel, k': Kernel, child: int, r: int, p: int)
    requires k.current in k.tasks && OthersStay(k, k') && Child(k, k', child, r) && Absent(k, p) && r != p
    ensures Absent(k', p)
  {
  }

  lemma CreationKeepsAbsent(k: Kernel, k': Kernel, id: int, m: int, slot: int, p: int)
    requires m in k.tasks && m in k.threads && 0 <= slot < |k.tasks[m].slots| && Thread(k, k', id, m, slot) && OthersStayBut(k, k', m) && Absent(k, p)
    ensures Absent(k', p)
  {
  }

  /** An identifier that was issued and belongs to nobody is not issued again. */
  lemma StepKeepsAbsent(k: Kernel, step: Step, p: int)
    requires Inv(k) && Enabled(k, step) && Absent(k, p) && p <= k.nextPid
    ensures Absent(Next(k, step), p) && p <= Next(k, step).nextPid
  {
    hide Inv, Next, OnlyScheduling, Dispatches, TakesTurns, OthersStay, Child, Thread, OthersStayBut, Lowest, AllTaken;
    match step
    case ClockTick =>
      TickMeans(k);
      SchedulingKeepsPids(k, Next(k, step), p);
    case BlockCall =>
      BlockMeans(k);
      if k.tasks[k.current].pending == 0 {
        SchedulingKeepsPids(k, Next(k, step), p);
      }
    case WaitForTickCall =>
      WaitMeans(k);
      SchedulingKeepsPids(k, Next(k, step), p);
    case UnblockCall(child) =>
      UnblockMeans(k, child);
      if child in k.blocked || child in k.ticking {
        SchedulingKeepsPids(k, Next(k, step), p);
      }
    case ForkCall(memory) =>
      ForkMeans(k, memory);
      if !CannotFork(k, memory) {
        ForkKeepsAbsent(k, Next(k, step), k.free[0], k.nextPid + 1, p);
      }
    case CreateThreadCall(mapped) =>
      CreationStepKeepsAbsent(k, mapped, p);
    case ExitThreadCall =>
      EndKeepsAbsent(k, p);
    case ExitCall =>
      ExitMeans(k);
  }

  lemma CreationStepKeepsAbsent(k: Kernel, mapped: bool, p: int)
    requires Inv(k) && Enabled(k, CreateThreadCall(mapped)) && Absent(k, p)
    ensures Absent(Next(k, CreateThreadCall(mapped)), p) && Next(k, CreateThreadCall(mapped)).nextPid == k.nextPid
  {
    hide Inv, Next, Thread;
    CreationMeans(k, mapped);
    if !CannotCreate(k, mapped) {
      var m := k.tasks[k.current].master;
      CreationKeepsAbsent(k, Next(k, CreateThreadCall(mapped)), k.free[0], m, CreateResult(k, mapped) - 10 * k.tasks[m].pid, p);
    }
  }

  lemma EndKeepsAbsent(k: Kernel, p: int)
    requires Inv(k) && Enabled(k, ExitThreadCall) && Absent(k, p)
    ensures Absent(Next(k, ExitThreadCall), p) && Next(k, ExitThreadCall).nextPid == k.nextPid
  {
    hide Inv, Next, NoDuplicates;
    if !IsMaster(k, k.current) {
      ThreadEndMeans(k);
    } else if HandsOver(k, ExitThreadCall) {
      HandOverMeans(k);
    } else {
      LastThreadExits(k);
      ExitMeans(k);
    }
  }

  /** Over any run, the identifier of a process that has ended never comes back. */
  lemma {:induction false} IdentifiersAreNotReused(k: Kernel, steps: seq<Step>, p: int)
    requires Inv(k) && Runs(k, steps) && Absent(k, p) && p <= k.nextPid
    ensures Absent(After(k, steps), p)
    decreases |steps|
  {
    hide Inv, Next, Enabled, Absent;
    if steps != [] {
      StepKeepsAbsent(k, steps[0], p);
      IdentifiersAreNotReused(Next(k, steps[0]), steps[1..], p);
    }
  }
}
