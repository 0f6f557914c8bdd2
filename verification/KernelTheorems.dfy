/**
 What holds after every run of the kernel.
 */
module KernelTheorems {
  import opened Sequences
  import opened KernelModel
  import opened Placement
  import opened Processes
  import opened StackRegions
  import opened Lifecycle
  import opened Endings
  import opened KernelRuns

  const FORK_TEMP_MAPPING_PAGE := TOTAL_PAGES - 24 - 2

  /** In how many places task structure t is to be found. */
  function Places(k: Kernel, t: int): nat {
    One(t in k.free) + One(t in k.ready) + One(t in k.blocked) + One(t in k.ticking)
    + One(t == k.current) + One(t == k.idle && k.idlePicks == 0)
  }

  /**
   After every run each task structure is free, ready, blocked, waiting for a tick, current, or the
   idle task that never ran; it is exactly one of these, once; and its status says which.
   */
  lemma EachTaskHasOnePlace(free: seq<int>, steps: seq<Step>, t: int)
    requires NoDuplicates(free) && 0 !in free && 1 !in free
    requires Inv(Boot(free)) && Runs(Boot(free), steps) && t in Boot(free).ids
    ensures var k := After(Boot(free), steps);
            && Places(k, t) == 1
            && NoDuplicates(k.free) && NoDuplicates(k.ready) && NoDuplicates(k.blocked) && NoDuplicates(k.ticking)
            && (t in k.free <==> t !in k.tasks)
            && (t in k.tasks ==>
                  && (k.tasks[t].status == Ready <==> t in k.ready)
                  && (k.tasks[t].status == Blocked <==> t in k.blocked || t in k.ticking)
                  && (k.tasks[t].status == Running <==> t == k.current || (t == k.idle && k.idlePicks == 0)))
  {
    var k := After(Boot(free), steps);
    hide Organised, After, Runs, Boot;
    assert t in k.tasks.Keys || t in Elements(k.free);
    PlaceOf(k, t);
  }

  lemma PlaceOf(k: Kernel, t: int)
    requires Dispatched(k) && Accounted(k) && (t in k.tasks || t in k.free)
    ensures Places(k, t) == 1 && (t in k.free <==> t !in k.tasks)
    ensures t in k.tasks ==>
              && (k.tasks[t].status == Ready <==> t in k.ready)
              && (k.tasks[t].status == Blocked <==> t in k.blocked || t in k.ticking)
              && (k.tasks[t].status == Running <==> t == k.current || (t == k.idle && k.idlePicks == 0))
  {
    hide NoDuplicates;
  }

  /** The scheduler falls back to the idle task at most once in a whole run. */
  lemma IdleIsPickedAtMostOnce(free: seq<int>, steps: seq<Step>)
    requires NoDuplicates(free) && 0 !in free && 1 !in free
    requires Inv(Boot(free)) && Runs(Boot(free), steps)
    ensures After(Boot(free), steps).idlePicks <= 1
  {
    hide Placed, Accounted, Organised, Boot;
    assert Inv(After(Boot(free), steps));
  }

  // Identifiers and stacks

  /** Live tasks have different identifiers, across all processes; only idle has number zero. */
  lemma ThreadIdsAreUnique(k: Kernel, t: int, u: int)
    requires Inv(k) && t in k.tasks && u in k.tasks && t != u
    ensures k.tasks[t].tid != k.tasks[u].tid
    ensures k.tasks[t].tid >= 0 && (k.tasks[t].tid == 0 <==> t == k.idle)
  {
    IdIsPositive(k, t);
    IdIsPositive(k, u);
    if t != k.idle && u != k.idle {
      var m, n := k.tasks[t].master, k.tasks[u].master;
      assert OwnsSlot(k, t, m) && OwnsSlot(k, u, n);
      assert m == n ==> SlotOf(k.tasks[t]) != SlotOf(k.tasks[u]);
      assert m != n ==> k.tasks[m].pid != k.tasks[n].pid;
      hide Inv, OwnsSlot;
    }
  }

  lemma IdIsPositive(k: Kernel, t: int)
    requires Inv(k) && t in k.tasks
    ensures t != k.idle ==> IsMaster(k, k.tasks[t].master) && k.tasks[k.tasks[t].master].pid == k.tasks[t].pid
    ensures k.tasks[t].tid >= 0 && (k.tasks[t].tid == 0 <==> t == k.idle)
  {
    if t != k.idle {
      ProcessOf(k, t);
      assert OwnsSlot(k, t, k.tasks[t].master);
    }
  }

  /** Every stack lies within 80 pages of the base, below the pages for temporary mappings, and stacks of a process are apart. */
  lemma StacksAreApart(k: Kernel, t: int)
    requires Inv(k) && t in k.tasks && k.tasks[t].regionPages != 0
    ensures var a := k.tasks[t];
            && STACK_BASE_PAGE <= a.regionStart && a.regionStart + a.regionPages <= STACK_BASE_PAGE + 80 < FORK_TEMP_MAPPING_PAGE
            && forall u :: u in k.tasks && u != t && k.tasks[u].master == a.master && k.tasks[u].regionPages != 0 ==>
                 var b := k.tasks[u];
                 a.regionStart + a.regionPages <= b.regionStart || b.regionStart + b.regionPages <= a.regionStart
  {
    hide Led, Listed, Slotted, Numbered, Dispatched, Accounted;
    assert IsRegion(k.tasks[t].regionStart);
    forall u | u in k.tasks && u != t && k.tasks[u].master == k.tasks[t].master && k.tasks[u].regionPages != 0
      ensures var a, b := k.tasks[t], k.tasks[u];
              a.regionStart + a.regionPages <= b.regionStart || b.regionStart + b.regionPages <= a.regionStart
    {
      assert IsRegion(k.tasks[u].regionStart);
    }
  }

  /** If a thread slot is clear, the region search succeeds: only a full slot table, no structure or no frame stops a thread. */
  lemma ThreadCreationFindsRegion(k: Kernel)
    requires Inv(k) && k.current != k.idle
    ensures k.current in k.tasks && HasProcess(k, k.tasks[k.current].master)
    ensures var m := k.tasks[k.current].master;
            FirstClear(k.tasks[m].slots, 0) >= 0 ==> IsRegion(FindRegion(k, m, STACK_BASE_PAGE))
  {
    assert k.current in k.tasks;
    hide Dispatched, Accounted, FirstClear, FindRegion;
    ProcessOf(k, k.current);
    var m := k.tasks[k.current].master;
    var slot := FirstClear(k.tasks[m].slots, 0);
    if slot >= 0 {
      hide Led, Listed, Slotted, Stacked, Numbered;
      FreeRegionExists(k, m, slot);
    }
  }

  // Limits of the code

  /**
   Freeing the master's structure is sound exactly if the caller is the master: otherwise the
   master's queue entry is still linked into a queue.
   */
  lemma ExitNeedsTheMaster(k: Kernel)
    requires Inv(k) && k.current != k.idle
    ensures k.current in k.tasks
    ensures var m := k.tasks[k.current].master;
            (m in k.ready || m in k.blocked || m in k.ticking) <==> m != k.current
  {
    assert k.current in k.tasks;
    ProcessOf(k, k.current);
    hide Organised;
    PlaceOf(k, k.tasks[k.current].master);
  }

  /**
   A master whose role was handed to it cannot hand it on: its list entry has null links. Here the
   heir is dispatched next, has a thread, and its own end is not enabled.
   */
  lemma SecondHandOverIsNotEnabled(k: Kernel)
    requires Inv(k) && k.current != k.idle && IsMaster(k, k.current) && k.current in k.linked
    requires k.current in k.threads && |k.threads[k.current]| >= 2
    requires k.ready != [] && k.ready[0] == k.threads[k.current][0]
    ensures var k' := ExitThread(k);
            && k'.current == k.threads[k.current][0] && IsMaster(k', k'.current)
            && k'.threads[k'.current] != [] && k'.current !in k'.linked
            && !Enabled(k', ExitThreadCall)
  {
    hide Dispatched, Accounted, Organised, Vacant, HandedOver, Run;
    MasterFacts(k);
    HeirExists(k);
    HandOverKeepsInv(k);
    var n := k.threads[k.current][0];
    assert n in k.threads[k.current];
    HeirFacts(k);
    VacantCanDispatch(HandedOver(k));
    SchedNextReschedules(HandedOver(k));
    assert ExitThread(k) == SchedNext(HandedOver(k));
    hide ExitThread;
  }

  lemma HeirFacts(k: Kernel)
    requires CanHandOver(k) && k.threads[k.current][0] != k.current
    ensures var k', n := HandedOver(k), k.threads[k.current][0];
            && n in k'.tasks && k'.tasks[n].master == n && n in k'.threads && k'.threads[n] == k.threads[k.current][1..]
            && n !in k'.linked && k'.ready == k.ready
  {
  }

  /** A master with a clear second slot gets its thread, at the end of its list and of the ready queue. */
  lemma CreationSucceeds(k: Kernel)
    requires Inv(k) && k.current != k.idle && IsMaster(k, k.current) && k.current in k.threads && k.free != []
    requires FirstClear(k.tasks[k.current].slots, 0) >= 0
    ensures HasProcess(k, k.tasks[k.current].master)
    ensures var k', m, id := CreateThread(k, true), k.current, k.free[0];
            && k'.current == m && k'.idle == k.idle && m in k'.threads && k'.threads[m] == k.threads[m] + [id]
            && k'.ready == k.ready + [id] && k'.free == k.free[1..] && k'.linked == k.linked + {id}
            && m in k'.tasks && k'.tasks[m].master == m
            && k'.tasks[m].slots == k.tasks[m].slots[FirstClear(k.tasks[m].slots, 0) := true]
  {
    ThreadCreationFindsRegion(k);
    assert k.current !in k.free by {
      hide Organised;
      PlaceOf(k, k.current);
    }
    var id := k.free[0];
    assert id in k.free;
    hide Dispatched, Accounted, Organised, FirstClear, FindRegion;
  }

  lemma RotatedElements(free: seq<int>)
    requires free != []
    ensures Elements(Rotated(free)) == Elements(free)
  {
    assert free == [free[0]] + free[1..];
  }

  lemma FailedCreation(k: Kernel, mapped: bool)
    requires k.current in k.tasks && HasProcess(k, k.tasks[k.current].master) && k.tasks[k.tasks[k.current].master].pid >= 0
    requires CreateResult(k, mapped) < 0
    ensures CreateThread(k, mapped).(free := k.free) == k && Elements(CreateThread(k, mapped).free) == Elements(k.free)
  {
    hide FirstClear, FindRegion, Rotated, Elements;
    if k.free != [] {
      RotatedElements(k.free);
    }
  }

  lemma SuccessfulCreation(k: Kernel, mapped: bool)
    requires k.current in k.tasks && HasProcess(k, k.tasks[k.current].master) && k.tasks[k.tasks[k.current].master].pid >= 0
    requires CreateResult(k, mapped) >= 0 && (k.free != [] ==> k.free[0] !in k.tasks)
    ensures var r, k' := CreateResult(k, mapped), CreateThread(k, mapped);
            && k.free != [] && k'.idle == k.idle && k'.tasks.Keys == k.tasks.Keys + {k.free[0]}
            && k'.tasks[k.free[0]].tid == r && forall t :: t in k.tasks ==> k'.tasks[t].tid == k.tasks[t].tid
  {
    hide FirstClear, FindRegion;
  }

  lemma CreatorFacts(k: Kernel)
    requires Inv(k) && k.current != k.idle
    ensures k.current in k.tasks && HasProcess(k, k.tasks[k.current].master) && k.tasks[k.tasks[k.current].master].pid >= 0
    ensures k.idle in k.tasks && (k.free != [] ==> k.free[0] !in k.tasks)
  {
    hide FirstClear, FindRegion;
    ProcessOf(k, k.current);
    if k.free != [] {
      var id := k.free[0];
      assert id in k.free;
    }
  }

  /** Creation reports an identifier that no other task has, for a thread that now exists, or else an error and no change. */
  lemma CreationIsReported(k: Kernel, mapped: bool)
    requires Inv(k) && k.current != k.idle
    ensures k.current in k.tasks && HasProcess(k, k.tasks[k.current].master)
    ensures var r, k' := CreateResult(k, mapped), CreateThread(k, mapped);
            if r < 0 then k'.(free := k.free) == k && Elements(k'.free) == Elements(k.free)
            else
              && k.free != [] && k'.tasks.Keys == k.tasks.Keys + {k.free[0]} && k'.tasks[k.free[0]].tid == r
              && forall t :: t in k.tasks ==> k.tasks[t].tid != r
  {
    CreatorFacts(k);
    hide Inv, FirstClear, FindRegion, CreateThread, CreateResult, Elements;
    CreateThreadKeepsInv(k, mapped);
    if CreateResult(k, mapped) < 0 {
      FailedCreation(k, mapped);
    } else {
      SuccessfulCreation(k, mapped);
      forall t | t in k.tasks
        ensures k.tasks[t].tid != CreateResult(k, mapped)
      {
        ThreadIdsAreUnique(CreateThread(k, mapped), t, k.free[0]);
      }
    }
  }

  /** A ready-to-run second thread and the end of the master lead to such a state. */
  lemma SecondHandOverReached(k: Kernel)
    requires Inv(k) && k.current != k.idle && IsMaster(k, k.current) && k.current in k.linked && k.current in k.threads
    requires |k.threads[k.current]| == 1 && k.ready == k.threads[k.current]
    requires k.free != [] && FirstClear(k.tasks[k.current].slots, 0) >= 0
    ensures Runs(k, [CreateThreadCall(true), ExitThreadCall])
    ensures !Enabled(After(k, [CreateThreadCall(true), ExitThreadCall]), ExitThreadCall)
  {
    hide Dispatched, Accounted, Organised, CreateThread, ExitThread, FirstClear;
    var step1, step2 := CreateThreadCall(true), ExitThreadCall;
    CreationSucceeds(k);
    CreateThreadKeepsInv(k, true);
    var k1 := Next(k, step1);
    assert k1 == CreateThread(k, true);
    SecondHandOverIsNotEnabled(k1);
    var k2 := Next(k1, step2);
    assert k2 == ExitThread(k1);
    assert Runs(k2, []) && After(k2, []) == k2;
    assert [step2][1..] == [] && [step1, step2][1..] == [step2];
    assert Runs(k1, [step2]) && After(k1, [step2]) == k2;
  }

  lemma SecondHandOverFromLoneMaster(k: Kernel)
    requires Inv(k) && k.current != k.idle && IsMaster(k, k.current) && k.current in k.linked && k.current in k.threads
    requires k.threads[k.current] == [] && k.ready == [] && |k.free| >= 2
    requires var slots := k.tasks[k.current].slots; |slots| >= 3 && slots[0] && !slots[1] && !slots[2]
    ensures var steps := [CreateThreadCall(true), CreateThreadCall(true), ExitThreadCall];
            Runs(k, steps) && !Enabled(After(k, steps), ExitThreadCall)
  {
    hide Dispatched, Accounted, Organised, CreateThread, ExitThread, FirstClear;
    FirstClearIs(k.tasks[k.current].slots, 1);
    CreationSucceeds(k);
    CreateThreadKeepsInv(k, true);
    var step := CreateThreadCall(true);
    var k1 := Next(k, step);
    assert k1 == CreateThread(k, true);
    FirstClearIs(k1.tasks[k.current].slots, 2);
    SecondHandOverReached(k1);
    var rest := [CreateThreadCall(true), ExitThreadCall];
    assert [step, CreateThreadCall(true), ExitThreadCall][1..] == rest;
    assert Runs(k, [step, CreateThreadCall(true), ExitThreadCall]);
  }

  lemma InitIsAlone(free: seq<int>)
    ensures var k := Boot(free);
            && k.current == 1 != k.idle && IsMaster(k, 1) && 1 in k.linked && 1 in k.threads
            && k.threads[1] == [] && k.ready == [] && k.free == free && k.tasks[1].slots == INITIAL_SLOTS
  {
  }

  /** Right after boot this happens if init creates two threads and ends. */
  lemma SecondHandOverExample()
    ensures var steps := [CreateThreadCall(true), CreateThreadCall(true), ExitThreadCall];
            && Inv(Boot([2, 3, 4])) && Runs(Boot([2, 3, 4]), steps)
            && !Enabled(After(Boot([2, 3, 4]), steps), ExitThreadCall)
  {
    hide Boot, Inv, Next, Enabled, Runs, After, IsMaster;
    BootIsGood([2, 3, 4]);
    InitIsAlone([2, 3, 4]);
    SecondHandOverFromLoneMaster(Boot([2, 3, 4]));
  }

  lemma FirstClearIs(slots: seq<bool>, i: nat)
    requires i < |slots| && !slots[i] && forall j :: 0 <= j < i ==> slots[j]
    ensures FirstClear(slots, 0) == i
  {
  }
}
