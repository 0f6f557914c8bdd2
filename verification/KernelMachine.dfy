/**
 The kernel from boot on, in memory: any run of clock ticks and system calls keeps all rings of links
 well-formed and does what the model says.
 */
module KernelMachine {
  import opened Links
  import opened KernelModel
  import opened Placement
  import opened Processes
  import opened Sequences
  import opened KernelRuns
  import opened KernelCode
  import opened KernelCalls
  import opened KernelExits

  // System calls that end threads

  /** The master ends its process. */
  method SysExit(s: KernelState)
    requires Inv(s.View()) && IsMaster(s.View(), s.current) && s.current != s.idle && Whole(s)
    modifies s`current, s`quantumLeft, s`idlePicks, s.tasks, s.queues, s.queues.next, s.queues.prev, s.members, s.members.next, s.members.prev
    ensures s.members.copied <= old(s.members.copied)
    ensures Whole(s) && s.current == s.View().current
    ensures old(s.View()).current in old(s.View()).threads && Vacant(Ended(old(s.View()))) && s.View() == SchedNext(Ended(old(s.View())))
  {
    hide Inv, Whole, ViewOf, Vacant, Ended, SchedNext;
    CpuOf(s.Contents());
    ExitKeepsInv(s.View());
    EndProcess(s);
    Dispatch(s);
    CpuOf(s.Contents());
  }

  /** Whether the current task is alone in its process, and who leads it. */
  method Leadership(s: KernelState) returns (m: int, alone: bool)
    requires Inv(s.View()) && s.current != s.idle && Whole(s)
    ensures s.current in s.View().tasks && m == s.View().tasks[s.current].master && m in s.View().tasks
    ensures alone <==> s.View().tasks[m].threadCount == 1
  {
    hide ViewOf, HeadsReady, Sound;
    CpuOf(s.Contents());
    CreateFacts(s.View());
    hide Inv;
    var task := RecordOf(s, s.current);
    m := task.master;
    ProcessHasList(s.View(), m);
    var master := RecordOf(s, m);
    alone := master.threadCount == 1;
  }

  method SysExitThread(s: KernelState, ghost k: Kernel)
    requires Inv(k) && Enabled(k, ExitThreadCall) && k.current != k.idle
    requires s.View() == k && Whole(s)
    modifies s`current, s`quantumLeft, s`idlePicks, s.tasks, s.queues, s.queues.next, s.queues.prev, s.members, s.members.next, s.members.prev
    ensures s.members.copied <= old(s.members.copied)
    ensures s.View() == ExitThread(k) && Whole(s)
  {
    hide Inv, Whole, ViewOf, Vacant, Ended, SchedNext, ThreadEnded, HandedOver, HandingOver;
    CpuOf(s.Contents());
    AloneIsMasterOf(k);
    var m, alone := Leadership(s);
    if alone {
      SysExit(s);
    } else if s.current != m {
      EndThread(s);
    } else {
      HeirIsThere(k);
      HandOverFacts(k);
      HandOverKeepsInv(k);
      HandOver(s, k);
      Dispatch(s);
    }
  }

  lemma AloneIsMasterOf(k: Kernel)
    requires Inv(k) && k.current != k.idle
    ensures k.current in k.tasks
    ensures var m := k.tasks[k.current].master; m in k.tasks && (k.tasks[m].threadCount == 1 ==> IsMaster(k, k.current))
  {
    CurrentIsLive(k);
    AloneIsMaster(k);
  }

  lemma HeirIsThere(k: Kernel)
    requires Inv(k) && IsMaster(k, k.current) && k.tasks[k.current].threadCount != 1
    ensures k.current in k.threads && k.threads[k.current] != []
  {
    HeirExists(k);
  }

  // Steps

  /** Scheduling leaves free structures and thread lists alone. */
  lemma StillWhole(s: KernelState, r: Memory, k: Kernel)
    requires s.Valid() && Tidy(r) && r.members == s.members.lists && r.n == s.n == |r.records| && ViewOf(r) == k
    requires HeadsReady(k.tasks.Keys, s.n, s.members.lists) && Reschedules(k, s.View())
    ensures Whole(s)
  {
    hide QueueShape, MemberShape, Records, ThreadLists, LinkedTasks, Below, Tidy, Disjoint, WellFormed, HeadsReady;
    FreeShown(r);
    FreeShown(s.Contents());
    TidyFrame(r, s.Contents());
    RescheduledKeys(k, s.View());
  }

  lemma RescheduledKeys(k: Kernel, k': Kernel)
    requires Reschedules(k, k')
    ensures k'.tasks.Keys == k.tasks.Keys && k'.free == k.free
  {
  }

  /** Clock ticks and blocking calls. */
  method Reschedule(s: KernelState, step: Step, ghost k: Kernel)
    requires Inv(k) && Enabled(k, step) && (step.ClockTick? || step.BlockCall? || step.WaitForTickCall? || step.UnblockCall?)
    requires s.View() == k && Whole(s)
    modifies s`current, s`quantumLeft, s`idlePicks, s.tasks, s.queues, s.queues.next, s.queues.prev
    ensures s.View() == Next(k, step) && Whole(s) && s.members.copied == old(s.members.copied)
  {
    hide QueueShape, MemberShape, Records, ThreadLists, LinkedTasks, Below, Tidy, Disjoint, WellFormed, ViewOf;
    hide Placed, Accounted, Organised, Scheduler, Block, Unblock, WaitForTick, HeadsReady, Reschedules;
    ghost var r := s.Contents();
    CpuOf(r);
    StepReschedules(k, step);
    match step {
      case ClockTick => s.SchedulerRr();
      case BlockCall => s.SysBlock();
      case UnblockCall(child) => s.SysUnblock(child);
      case WaitForTickCall => s.SysWaitForTick();
    }
    StillWhole(s, r, k);
  }

  /** Any step of the kernel, on its memory. */
  method Perform(s: KernelState, step: Step, ghost k: Kernel)
    requires Inv(k) && Enabled(k, step)
    requires s.View() == k && Whole(s)
    modifies s, s.tasks, s.queues, s.queues.next, s.queues.prev, s.members, s.members.next, s.members.prev
    ensures Garbled(s) <= old(Garbled(s))
    ensures s.View() == Next(k, step) && Whole(s)
  {
    hide Inv, Whole, ViewOf, Vacant, Ended, SchedNext, Fork, CreateThread, Scheduler, Block, WaitForTick, Unblock, ExitThread;
    CpuOf(s.Contents());
    match step {
      case ForkCall(memory) =>
        CurrentLives(k);
        var _ := SysFork(s, memory);
      case CreateThreadCall(mapped) => var _ := SysCreateThread(s, mapped);
      case ExitThreadCall =>
        SysExitThread(s, k);
        FewerTasks(k, step);
      case ExitCall =>
        SysExit(s);
        FewerTasks(k, step);
      case _ =>
        Reschedule(s, step, k);
        FewerTasks(k, step);
    }
  }

  /** Only fork and thread creation bring new tasks. */
  lemma FewerTasks(k: Kernel, step: Step)
    requires Inv(k) && Enabled(k, step) && !step.ForkCall? && !step.CreateThreadCall?
    ensures Next(k, step).tasks.Keys <= k.tasks.Keys
  {
    hide Inv, Next, Enabled;
    if step == ExitThreadCall || step == ExitCall {
      EndingKeys(k, step);
    } else {
      StepReschedules(k, step);
      RescheduledKeys(k, Next(k, step));
    }
  }

  lemma EndingKeys(k: Kernel, step: Step)
    requires Inv(k) && Enabled(k, step) && (step == ExitThreadCall || step == ExitCall)
    ensures Next(k, step).tasks.Keys <= k.tasks.Keys
  {
    if step == ExitCall {
      ExitShrinks(k);
    } else {
      ExitThreadCases(k);
      hide Inv, SchedNext, ExitThread, ThreadEnded, HandedOver, Ended;
      if !IsMaster(k, k.current) {
        ThreadEndKeepsInv(k);
        ThreadEndedKeys(k);
        DispatchedKeys(ThreadEnded(k));
      } else if HandsOver(k, ExitThreadCall) {
        HandOverKeepsInv(k);
        HandedOverKeys(k);
        DispatchedKeys(HandedOver(k));
      } else {
        ExitShrinks(k);
      }
    }
  }

  lemma ExitShrinks(k: Kernel)
    requires Inv(k) && IsMaster(k, k.current) && k.current != k.idle
    ensures k.current in k.threads && SchedNext.requires(Ended(k)) && SchedNext(Ended(k)).tasks.Keys <= k.tasks.Keys
  {
    hide Inv, Ended, SchedNext, Vacant;
    ExitKeepsInv(k);
    EndedKeys(k);
    DispatchedKeys(Ended(k));
  }

  lemma DispatchedKeys(k: Kernel)
    requires Vacant(k)
    ensures SchedNext.requires(k) && SchedNext(k).tasks.Keys == k.tasks.Keys
  {
    VacantCanDispatch(k);
    hide Vacant;
    SchedNextReschedules(k);
  }

  lemma CurrentLives(k: Kernel)
    requires Inv(k)
    ensures k.current in k.tasks
  {
    CurrentIsLive(k);
  }

  /**
   Any run: afterwards all rings are well-formed and hold what the model says, so every task is on exactly
   one of the queues or runs.
   */
  method PerformAll(s: KernelState, steps: seq<Step>, ghost k: Kernel)
    requires Inv(k) && Runs(k, steps)
    requires s.View() == k && Whole(s)
    modifies s, s.tasks, s.queues, s.queues.next, s.queues.prev, s.members, s.members.next, s.members.prev
    ensures Garbled(s) <= old(Garbled(s))
    ensures s.View() == After(k, steps) && Whole(s)
  {
    hide Inv, Whole, ViewOf, Next;
    ghost var k' := k;
    assert steps[0..] == steps;
    for i := 0 to |steps|
      invariant Inv(k') && s.View() == k' && Whole(s) && Runs(k', steps[i..]) && After(k, steps) == After(k', steps[i..])
      invariant Garbled(s) <= old(Garbled(s))
    {
      assert steps[i..][1..] == steps[i + 1..];
      Perform(s, steps[i], k');
      k' := Next(k', steps[i]);
    }
  }

  // Boot

  /** The numbers below n, in order. */
  function UpTo(n: nat): (r: seq<int>)
    ensures |r| == n && forall i :: 0 <= i < n ==> r[i] == i
  {
    if n == 0 then [] else UpTo(n - 1) + [n - 1]
  }

  /** All heads are initialised; the first i structures are free. */
  ghost predicate Queued(lists: Lists, n: nat, i: nat) {
    lists == map[n := UpTo(i), n + 1 := [], n + 2 := [], n + 3 := []]
  }

  method InitHeads(s: KernelState)
    requires s.queues.lists == map[] && s.queues.Valid() && s.queues.next.Length == s.n + 4
    modifies s.queues, s.queues.next, s.queues.prev
    ensures s.queues.Valid() && Queued(s.queues.lists, s.n, 0)
  {
    hide WellFormed;
    s.queues.InitListHead(s.n);
    s.queues.InitListHead(s.n + 1);
    s.queues.InitListHead(s.n + 2);
    s.queues.InitListHead(s.n + 3);
    assert s.queues.lists == map[s.n := UpTo(0), s.n + 1 := [], s.n + 2 := [], s.n + 3 := []];
  }

  lemma QueuedMore(lists: Lists, n: nat, i: nat)
    requires Queued(lists, n, i) && i < n
    ensures Loose(lists, i) && n in lists && Queued(Added(lists, n, i), n, i + 1)
  {
    assert Added(lists, n, i) == map[n := UpTo(i + 1), n + 1 := [], n + 2 := [], n + 3 := []];
  }

  method InitQueues(s: KernelState)
    requires s.queues.lists == map[] && s.queues.Valid() && s.queues.next.Length == s.n + 4
    modifies s.queues, s.queues.next, s.queues.prev
    ensures s.queues.Valid() && Queued(s.queues.lists, s.n, s.n)
  {
    InitHeads(s);
    hide WellFormed, Queued, Loose, Added;
    for i := 0 to s.n
      invariant s.queues.Valid() && Queued(s.queues.lists, s.n, i)
    {
      QueuedMore(s.queues.lists, s.n, i);
      s.queues.ListAddTail(i, s.n);
    }
  }

  /** Nothing is alive yet. */
  lemma UnbootedView(r: Memory)
    requires |r.records| == r.n && r.members == map[] && Disjoint(r.queues) && Queued(r.queues, r.n, r.n)
    ensures Shaped(r) && Tidy(r)
    ensures ViewOf(r) == Kernel(Below(r.n), map[], UpTo(r.n), [], [], [], map[], {}, r.current, r.quantumLeft, r.nextPid, r.idle, r.idlePicks)
  {
    hide Disjoint;
    assert Disjoint(r.members) by {
      EmptyIsDisjoint();
    }
    forall t | 0 <= t < r.n
      ensures t in UpTo(r.n)
    {
      assert UpTo(r.n)[t] == t;
    }
    assert forall t :: !Live(r, t);
    assert Records(r) == map[] && ThreadLists(r) == map[] && LinkedTasks(r) == {};
  }

  lemma EmptyIsDisjoint()
    ensures Disjoint(map[])
  {
  }

  /** Gives the first free structure its record and links. */
  method Establish(s: KernelState, record: Task) returns (t: int)
    requires s.View().free != [] && Sound(s)
    modifies s.tasks, s.queues, s.queues.next, s.queues.prev, s.members, s.members.next, s.members.prev
    ensures s.members.copied <= old(s.members.copied)
    ensures var k := old(s.View());
            && t == k.free[0] && 0 <= t < s.n
            && s.View() == k.(tasks := k.tasks[t := record], free := k.free[1..], threads := k.threads[t := []], linked := k.linked + {t})
    ensures Sound(s) && HeadsKept(s.n, old(s.members.lists), s.members.lists) && s.n + t in s.members.lists
  {
    hide Sound, ViewOf, Loose, HeadsKept;
    ghost var k, lists, garbage, linked := s.View(), s.members.lists, record, true;
    t, garbage, linked := TakeFree(s);
    LooseAfterInit(s.members.lists, t, s.n + t);
    InitThreadsHead(s, t);
    InitOwnLink(s, t);
    SetRecord(s, t, record);
    TwoInitsKeepHeads(s.n, lists, s.n + t, t);
    assert k.tasks[t := garbage][t := record] == k.tasks[t := record];
    assert Taken(k, garbage, linked).linked + {t} == k.linked + {t};
  }

  lemma TwoInitsKeepHeads(n: nat, lists: Lists, x: int, y: int)
    ensures HeadsKept(n, lists, lists[x := []][y := []])
  {
  }

  lemma ViewWithRegisters(r: Memory, current: int, quantumLeft: int, idle: int)
    ensures ViewOf(r.(current := current, quantumLeft := quantumLeft, idle := idle)) ==
            ViewOf(r).(current := current, quantumLeft := quantumLeft, idle := idle)
  {
    var r' := r.(current := current, quantumLeft := quantumLeft, idle := idle);
    assert Records(r') == Records(r);
    assert ThreadLists(r') == ThreadLists(r);
    assert LinkedTasks(r') == LinkedTasks(r);
  }

  method SetRegisters(s: KernelState, current: int, quantumLeft: int, idle: int)
    requires Sound(s)
    modifies s`current, s`quantumLeft, s`idle
    ensures s.View() == old(s.View()).(current := current, quantumLeft := quantumLeft, idle := idle)
    ensures Sound(s) && s.members.lists == old(s.members.lists) && s.members.copied == old(s.members.copied)
  {
    hide QueueShape, MemberShape, Records, ThreadLists, LinkedTasks, Below, Disjoint, WellFormed, ViewOf;
    ghost var r := s.Contents();
    ViewWithRegisters(r, current, quantumLeft, idle);
    s.current, s.quantumLeft, s.idle := current, quantumLeft, idle;
    assert s.Contents() == r.(current := current, quantumLeft := quantumLeft, idle := idle);
    TidyFrame(r, s.Contents());
  }

  lemma BootView(n: nat, k: Kernel)
    requires n >= 2 && k.ids == Below(n) && k.tasks == map[] && k.free == UpTo(n) && k.ready == k.blocked == k.ticking == []
    requires k.threads == map[] && k.linked == {} && k.nextPid == 1 && k.idlePicks == 0
    ensures var k1 := k.(tasks := k.tasks[0 := IDLE], free := k.free[1..], threads := k.threads[0 := []], linked := k.linked + {0});
            var k2 := k1.(tasks := k1.tasks[1 := INIT], free := k1.free[1..], threads := k1.threads[1 := []], linked := k1.linked + {1});
            && k.free[0] == 0 && k1.free[0] == 1
            && k2.(current := 1, quantumLeft := DEFAULT_QUANTUM, idle := 0) == Boot(UpTo(n)[2..])
    ensures NoDuplicates(UpTo(n)[2..]) && 0 !in UpTo(n)[2..] && 1 !in UpTo(n)[2..]
  {
    hide UpTo, Below, Elements, NoDuplicates;
    UpToParts(n);
    BootMaps([]);
    hide Boot;
    BootParts(UpTo(n)[2..]);
  }

  lemma BootMaps(none: seq<int>)
    requires none == []
    ensures map[][0 := IDLE][1 := INIT] == map[0 := IDLE, 1 := INIT]
    ensures map[][0 := none][1 := none] == map[0 := none, 1 := none]
    ensures {} + {0} + {1} == {0, 1}
  {
  }

  lemma BootParts(free: seq<int>)
    ensures Boot(free) == Kernel({0, 1} + Elements(free), map[0 := IDLE, 1 := INIT], free, [], [], [], map[0 := [], 1 := []], {0, 1},
                                 1, DEFAULT_QUANTUM, 1, 0, 0)
  {
    hide Elements;
  }

  lemma UpToParts(n: nat)
    requires n >= 2
    ensures UpTo(n)[0] == 0 && UpTo(n)[1..][0] == 1 && UpTo(n)[1..][1..] == UpTo(n)[2..]
    ensures NoDuplicates(UpTo(n)[2..]) && 0 !in UpTo(n)[2..] && 1 !in UpTo(n)[2..]
    ensures Below(n) == {0, 1} + Elements(UpTo(n)[2..])
  {
    var all := UpTo(n);
    hide UpTo;
    assert all[1..][1..] == all[2..];
    RestIsBelow(all, n);
  }

  lemma RestIsBelow(all: seq<int>, n: nat)
    requires |all| == n >= 2 && forall i :: 0 <= i < n ==> all[i] == i
    ensures Below(n) == {0, 1} + Elements(all[2..])
  {
    var rest := all[2..];
    forall t | 2 <= t < n
      ensures t in rest
    {
      assert rest[t - 2] == t;
    }
  }

  /** Boot: the structures become free, then idle takes the first and init the second of them. */
  method BootKernel(n: nat) returns (s: KernelState)
    requires n >= 2
    ensures NoDuplicates(UpTo(n)[2..]) && Inv(Boot(UpTo(n)[2..])) && s.View() == Boot(UpTo(n)[2..]) && Whole(s)
    ensures Garbled(s) == {}
    ensures fresh(s) && fresh(s.tasks) && fresh(s.queues) && fresh(s.queues.next) && fresh(s.queues.prev)
    ensures fresh(s.members) && fresh(s.members.next) && fresh(s.members.prev)
  {
    hide QueueShape, MemberShape, Records, ThreadLists, LinkedTasks, Below, Ring, Tidy, Queued, Inv, Boot, HeadsReady, ViewOf;
    s := new KernelState(n);
    InitQueues(s);
    UnbootedView(s.Contents());
    ghost var k := s.View();
    BootView(n, k);
    BootIsGood(UpTo(n)[2..]);
    EstablishBoth(s, k);
  }

  method EstablishBoth(s: KernelState, ghost k: Kernel)
    requires s.n >= 2 && s.View() == k && Sound(s)
    requires k.ids == Below(s.n) && k.tasks == map[] && k.free == UpTo(s.n) && k.ready == k.blocked == k.ticking == []
    requires k.threads == map[] && k.linked == {} && k.nextPid == 1 && k.idlePicks == 0
    modifies s, s.tasks, s.queues, s.queues.next, s.queues.prev, s.members, s.members.next, s.members.prev
    ensures s.members.copied <= old(s.members.copied)
    ensures s.View() == Boot(UpTo(s.n)[2..]) && Whole(s)
  {
    hide Sound, ViewOf, HeadsKept, Boot, Below;
    BootView(s.n, k);
    var idle := Establish(s, IDLE);
    ghost var lists := s.members.lists;
    var init := Establish(s, INIT);
    HeadStays(s.n, lists, s.members.lists, s.n + idle);
    SetRegisters(s, init, INIT.quantum, idle);
    BootHeads(UpTo(s.n)[2..], s.n, s.members.lists);
  }

  lemma BootHeads(free: seq<int>, n: nat, lists: Lists)
    requires n >= 2 && n in lists && n + 1 in lists
    ensures HeadsReady(Boot(free).tasks.Keys, n, lists)
  {
  }

  /** The kernel after any run from boot. */
  method RunFromBoot(n: nat, steps: seq<Step>) returns (s: KernelState)
    requires n >= 2 && NoDuplicates(UpTo(n)[2..]) && Inv(Boot(UpTo(n)[2..])) && Runs(Boot(UpTo(n)[2..]), steps)
    ensures s.View() == After(Boot(UpTo(n)[2..]), steps) && Whole(s) && Garbled(s) == {}
  {
    hide Whole, ViewOf, Inv, Boot, Runs, After;
    s := BootKernel(n);
    PerformAll(s, steps, Boot(UpTo(n)[2..]));
  }
}
