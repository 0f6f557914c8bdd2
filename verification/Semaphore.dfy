/**
 Blocking and unblocking as a counting semaphore.

 Over any run in which a task stays alive, its pending unblocks minus its place on the blocked queue
 change by exactly the unblock calls it received minus the block calls it made, except for the
 unblock calls that hit it while it waited for a tick: those wake it and are lost.
 */
module Semaphore {
  import opened Sequences
  import opened KernelModel
  import opened Placement
  import opened Processes
  import opened Lifecycle
  import opened Endings
  import opened KernelRuns

  /** The value of the semaphore that task t waits on. */
  function Value(k: Kernel, t: int): int
    requires t in k.tasks
  {
    k.tasks[t].pending - One(t in k.blocked)
  }

  /** What a step adds to the value: 1 for an unblock of t that is not lost, -1 for a block by t. */
  function Credit(k: Kernel, step: Step, t: int): int {
    match step
    case BlockCall => -One(k.current == t)
    case UnblockCall(child) => One(child == t && t !in k.ticking)
    case _ => 0
  }

  /** A blocked task has no pending unblocks, and nobody has a negative number of them. */
  ghost predicate Sane(k: Kernel) {
    && (forall t :: t in k.tasks ==> k.tasks[t].pending >= 0)
    && (forall t :: t in k.blocked && t in k.tasks ==> k.tasks[t].pending == 0)
  }

  /** t keeps its pending unblocks and its place on the blocked queue. */
  ghost predicate Untouched(k: Kernel, k': Kernel, t: int) {
    t in k.tasks && t in k'.tasks && k'.tasks[t].pending == k.tasks[t].pending && (t in k'.blocked <==> t in k.blocked)
  }

  /** Nobody who stays alive is touched. */
  ghost predicate Neutral(k: Kernel, k': Kernel) {
    && (forall t :: t in k'.tasks && t in k.tasks ==> Untouched(k, k', t))
    && (forall t :: t in k'.tasks && t !in k.tasks ==> k'.tasks[t].pending == 0 && t !in k'.blocked)
  }

  lemma NeutralIsSane(k: Kernel, k': Kernel)
    requires Sane(k) && Neutral(k, k')
    ensures Sane(k')
  {
  }

  lemma NeutralTransitive(a: Kernel, b: Kernel, c: Kernel)
    requires Neutral(a, b) && Neutral(b, c) && b.tasks.Keys == c.tasks.Keys
    ensures Neutral(a, c)
  {
    forall t | t in c.tasks && t in a.tasks
      ensures Untouched(a, c, t)
    {
      assert Untouched(a, b, t) && Untouched(b, c, t);
    }
    forall t | t in c.tasks && t !in a.tasks
      ensures c.tasks[t].pending == 0 && t !in c.blocked
    {
      assert Untouched(b, c, t);
    }
  }

  lemma DispatchIsNeutral(k: Kernel)
    requires Vacant(k)
    ensures Neutral(k, SchedNext(k)) && SchedNext(k).tasks.Keys == k.tasks.Keys
  {
    hide NoDuplicates, Minus;
    if k.ready != [] {
      var head := k.ready[0];
      assert head in k.ready;
    }
  }

  lemma SchedulerIsNeutral(k: Kernel)
    requires (Vacant(k) && k.current in k.blocked) || Dispatched(k)
    ensures Neutral(k, Scheduler(k)) && Scheduler(k).tasks.Keys == k.tasks.Keys
  {
    hide NoDuplicates, Rescheduled, Minus;
    var out := if Dispatched(k) then Fresh(k) + {k.current} else Fresh(k);
    var ticked := k.(quantumLeft := k.quantumLeft - 1);
    PlacedIgnoresQuantum(k, out, k.quantumLeft - 1, k.current);
    WakeKeepsOthers(ticked, out, k.current);
    WakeKeepsPlaced(ticked, out);
    var woken := WakeTicking(ticked);
    assert Neutral(k, woken);
    RescheduleIsNeutral(woken, out);
    hide Neutral, WakeTicking;
    NeutralTransitive(k, woken, Scheduler(k));
  }

  lemma RescheduleIsNeutral(k: Kernel, out: set<int>)
    requires Placed(k, out) && k.idlePicks <= 1 && k.current in k.tasks
    requires if k.current in k.blocked then out == Fresh(k) else out == Fresh(k) + {k.current} && k.current !in Fresh(k)
    ensures Neutral(k, Rescheduled(k)) && Rescheduled(k).tasks.Keys == k.tasks.Keys
  {
    hide NoDuplicates, SchedNext;
    var (needed, k') := NeedsSched(k);
    PlacedIgnoresQuantum(k, out, k'.quantumLeft, k.current);
    if needed {
      if k'.tasks[k.current].status != Blocked {
        EnqueueKeepsPlaced(k', out, k.current, ToReady);
        var queued := Enqueue(k', k.current, ToReady);
        assert out - {k.current} == Fresh(queued);
        assert Neutral(k, queued);
        DispatchIsNeutral(queued);
        NeutralTransitive(k, queued, SchedNext(queued));
      } else {
        DispatchIsNeutral(k');
      }
    }
  }

  /** The step moves the value of every surviving task by its credit, and new tasks start at zero. */
  ghost predicate Accounts(k: Kernel, k': Kernel, step: Step) {
    && Sane(k')
    && (forall t :: t in k'.tasks && t in k.tasks ==> Value(k', t) == Value(k, t) + Credit(k, step, t))
    && (forall t :: t in k'.tasks && t !in k.tasks ==> Value(k', t) == 0)
  }

  lemma NeutralAccounts(k: Kernel, k': Kernel, step: Step)
    requires Sane(k) && Neutral(k, k') && !step.BlockCall? && !step.UnblockCall?
    ensures Accounts(k, k', step)
  {
    NeutralIsSane(k, k');
    assert forall t :: t in k'.tasks && t in k.tasks ==> Untouched(k, k', t);
  }

  lemma BlockAccounts(k: Kernel)
    requires Dispatched(k) && k.current != k.idle && Sane(k)
    ensures Accounts(k, Block(k), BlockCall)
  {
    hide NoDuplicates, Scheduler;
    if k.tasks[k.current].pending == 0 {
      var out := Fresh(k) + {k.current};
      EnqueueKeepsPlaced(k, out, k.current, ToBlocked);
      assert out - {k.current} == Fresh(k);
      var queued := Enqueue(k, k.current, ToBlocked);
      assert Accounts(k, queued, BlockCall);
      SchedulerIsNeutral(queued);
      NeutralIsSane(queued, Scheduler(queued));
      assert forall t :: t in queued.tasks ==> Untouched(queued, Scheduler(queued), t);
    }
  }

  lemma UnblockAccounts(k: Kernel, child: int)
    requires Dispatched(k) && child in k.tasks && Sane(k)
    ensures Accounts(k, Unblock(k, child), UnblockCall(child))
  {
    hide NoDuplicates, Minus;
  }

  lemma WaitIsNeutral(k: Kernel)
    requires Dispatched(k) && k.current != k.idle
    ensures Neutral(k, WaitForTick(k))
  {
    hide NoDuplicates, Minus, SchedNext;
    EnqueueKeepsPlaced(k, Fresh(k) + {k.current}, k.current, ToTick);
    assert Fresh(k) + {k.current} - {k.current} == Fresh(k);
    var queued := Enqueue(k, k.current, ToTick);
    assert Neutral(k, queued);
    DispatchIsNeutral(queued);
    NeutralTransitive(k, queued, SchedNext(queued));
  }

  lemma ForkIsNeutral(k: Kernel, memory: ForkMemory)
    requires Dispatched(k) && Accounted(k)
    ensures k.current in k.tasks && Neutral(k, Fork(k, memory))
  {
    hide NoDuplicates;
    if k.free != [] {
      FirstFreeIsNotLive(k);
    }
  }

  lemma CreateThreadIsNeutral(k: Kernel, mapped: bool)
    requires Dispatched(k) && Accounted(k) && k.current in k.tasks && HasProcess(k, k.tasks[k.current].master)
    ensures Neutral(k, CreateThread(k, mapped))
  {
    hide NoDuplicates, FirstClear, FindRegion;
    if k.free != [] {
      FirstFreeIsNotLive(k);
    }
  }

  /** Tasks that end do not touch the others. */
  lemma EndedIsNeutral(k: Kernel)
    requires k.current in k.threads
    ensures Neutral(k, Ended(k))
  {
    hide NoDuplicates, MinusAll;
  }

  lemma ThreadEndedIsNeutral(k: Kernel)
    requires CanLeave(k)
    ensures Neutral(k, ThreadEnded(k))
  {
  }

  lemma HandedOverIsNeutral(k: Kernel)
    requires CanHandOver(k)
    ensures Neutral(k, HandedOver(k))
  {
  }

  lemma LeavingIsNeutral(k: Kernel, k': Kernel)
    requires Neutral(k, k') && Vacant(k')
    ensures Neutral(k, SchedNext(k'))
  {
    DispatchIsNeutral(k');
    hide Vacant, SchedNext;
    NeutralTransitive(k, k', SchedNext(k'));
  }

  lemma ExitThreadIsNeutral(k: Kernel)
    requires Inv(k) && k.current != k.idle
    ensures Neutral(k, ExitThread(k))
  {
    hide Dispatched, Accounted, Organised, Vacant, ThreadEnded, HandedOver, Ended, SchedNext;
    CurrentIsLive(k);
    ProcessOf(k, k.current);
    var m := k.tasks[k.current].master;
    if k.tasks[m].threadCount == 1 {
      AloneIsMaster(k);
      ExitKeepsInv(k);
      EndedIsNeutral(k);
      LeavingIsNeutral(k, Ended(k));
    } else if k.current != m {
      ThreadEndKeepsInv(k);
      ThreadEndedIsNeutral(k);
      LeavingIsNeutral(k, ThreadEnded(k));
    } else {
      HeirExists(k);
      HandOverKeepsInv(k);
      HandedOverIsNeutral(k);
      LeavingIsNeutral(k, HandedOver(k));
    }
  }

  /** Every step of the kernel keeps the books. */
  lemma StepAccounts(k: Kernel, step: Step)
    requires Inv(k) && Enabled(k, step) && Sane(k)
    ensures Accounts(k, Next(k, step), step)
  {
    hide Dispatched, Accounted, Organised, Accounts, Neutral, Sane;
    hide Block, Unblock, WaitForTick, Fork, CreateThread, Scheduler, Ended, SchedNext, ExitThread;
    match step
    case ClockTick =>
      SchedulerIsNeutral(k);
      NeutralAccounts(k, Next(k, step), step);
    case BlockCall => BlockAccounts(k);
    case UnblockCall(child) => UnblockAccounts(k, child);
    case WaitForTickCall =>
      WaitIsNeutral(k);
      NeutralAccounts(k, Next(k, step), step);
    case ForkCall(memory) =>
      ForkIsNeutral(k, memory);
      NeutralAccounts(k, Next(k, step), step);
    case CreateThreadCall(mapped) =>
      CreateThreadKeepsInv(k, mapped);
      CreateThreadIsNeutral(k, mapped);
      NeutralAccounts(k, Next(k, step), step);
    case ExitThreadCall =>
      ExitThreadIsNeutral(k);
      NeutralAccounts(k, Next(k, step), step);
    case ExitCall =>
      ExitKeepsInv(k);
      EndedIsNeutral(k);
      LeavingIsNeutral(k, Ended(k));
      NeutralAccounts(k, Next(k, step), step);
  }

  // Runs

  /** t is alive in every state of the run. */
  ghost predicate Stays(k: Kernel, steps: seq<Step>, t: int)
    requires Inv(k) && Runs(k, steps)
    decreases |steps|
  {
    hide Inv, Next;
    t in k.tasks && (steps != [] ==> Stays(Next(k, steps[0]), steps[1..], t))
  }

  /** How often t calls block in the run. */
  ghost function Blocks(k: Kernel, steps: seq<Step>, t: int): nat
    requires Inv(k) && Runs(k, steps)
    decreases |steps|
  {
    hide Inv, Next;
    if steps == [] then 0
    else One(steps[0] == BlockCall && k.current == t) + Blocks(Next(k, steps[0]), steps[1..], t)
  }

  /** How often t is unblocked in the run. */
  function Unblocks(steps: seq<Step>, t: int): nat {
    if steps == [] then 0 else One(steps[0] == UnblockCall(t)) + Unblocks(steps[1..], t)
  }

  /** How many of these calls hit t while it waits for a tick. */
  ghost function Lost(k: Kernel, steps: seq<Step>, t: int): nat
    requires Inv(k) && Runs(k, steps)
    decreases |steps|
  {
    hide Inv, Next;
    if steps == [] then 0
    else One(steps[0] == UnblockCall(t) && t in k.ticking) + Lost(Next(k, steps[0]), steps[1..], t)
  }

  lemma {:induction false} ValueAfterRun(k: Kernel, steps: seq<Step>, t: int)
    requires Inv(k) && Runs(k, steps) && Sane(k) && Stays(k, steps, t)
    ensures var k' := After(k, steps);
            && Sane(k') && t in k'.tasks
            && Value(k', t) == Value(k, t) + Unblocks(steps, t) - Lost(k, steps, t) - Blocks(k, steps, t)
    decreases |steps|
  {
    hide Inv, Next, Enabled, Value;
    if steps != [] {
      StepAccounts(k, steps[0]);
      ValueAfterRun(Next(k, steps[0]), steps[1..], t);
    }
  }

  /**
   A task that starts a run with nothing pending and not blocked is blocked at the end, and has pending
   unblocks, exactly as a counting semaphore says, if and only if no unblock was lost to a tick wait.
   */
  lemma CountingSemaphore(k: Kernel, steps: seq<Step>, t: int)
    requires Inv(k) && Runs(k, steps) && Sane(k) && Stays(k, steps, t)
    requires t in k.tasks && Value(k, t) == 0
    ensures var k', blocks, unblocks := After(k, steps), Blocks(k, steps, t), Unblocks(steps, t);
            && t in k'.tasks
            && (t in k'.blocked ==> k'.tasks[t].pending == 0)
            && (Lost(k, steps, t) == 0 <==>
                  && (t in k'.blocked <==> blocks > unblocks)
                  && k'.tasks[t].pending == (if unblocks > blocks then unblocks - blocks else 0)
                  && (t in k'.blocked ==> blocks == unblocks + 1))
  {
    hide Inv, Runs, After, Stays, Blocks, Unblocks, Lost, Next;
    ValueAfterRun(k, steps, t);
  }

  /** Task t makes no tick wait in the run. */
  ghost predicate NeverWaits(k: Kernel, steps: seq<Step>, t: int)
    requires Inv(k) && Runs(k, steps)
    decreases |steps|
  {
    hide Inv, Next;
    steps != [] ==> !(steps[0] == WaitForTickCall && k.current == t) && NeverWaits(Next(k, steps[0]), steps[1..], t)
  }

  ghost predicate NoNewWaits(k: Kernel, k': Kernel) {
    forall t :: t in k'.ticking ==> t in k.ticking
  }

  lemma DispatchNoNewWaits(k: Kernel)
    requires k.idle in k.tasks && forall t :: t in k.ready ==> t in k.tasks
    ensures NoNewWaits(k, SchedNext(k))
  {
    hide NoDuplicates;
  }

  lemma RescheduleNoNewWaits(k: Kernel)
    requires k.current in k.tasks && k.idle in k.tasks && forall t :: t in k.ready ==> t in k.tasks
    ensures NoNewWaits(k, Rescheduled(k))
  {
    var (needed, k') := NeedsSched(k);
    if needed {
      var queued := if k'.tasks[k.current].status != Blocked then Enqueue(k', k.current, ToReady) else k';
      hide SchedNext, NoDuplicates;
      DispatchNoNewWaits(queued);
    }
  }

  lemma SchedulerNoNewWaits(k: Kernel)
    requires Scheduler.requires(k)
    ensures NoNewWaits(k, Scheduler(k))
  {
    hide Rescheduled;
    RescheduleNoNewWaits(WakeTicking(k.(quantumLeft := k.quantumLeft - 1)));
  }

  lemma BlockNoNewWaits(k: Kernel)
    requires Block.requires(k)
    ensures NoNewWaits(k, Block(k))
  {
    hide Scheduler, NoDuplicates;
    if k.tasks[k.current].pending == 0 {
      SchedulerNoNewWaits(Enqueue(k, k.current, ToBlocked));
    }
  }

  lemma EndNoNewWaits(k: Kernel)
    requires Inv(k) && k.current != k.idle
    ensures ExitThread.requires(k) && NoNewWaits(k, ExitThread(k))
  {
    ExitThreadCases(k);
    hide SchedNext, Inv, ExitThread, NoDuplicates;
    if !IsMaster(k, k.current) {
      DispatchNoNewWaits(ThreadEnded(k));
    } else if HandsOver(k, ExitThreadCall) {
      DispatchNoNewWaits(HandedOver(k));
    } else {
      DispatchNoNewWaits(Ended(k));
    }
  }

  lemma ExitNoNewWaits(k: Kernel)
    requires Inv(k) && Enabled(k, ExitCall)
    ensures Ended.requires(k) && SchedNext.requires(Ended(k)) && NoNewWaits(k, SchedNext(Ended(k)))
  {
    ExitKeepsInv(k);
    VacantCanDispatch(Ended(k));
    hide Inv, SchedNext, NoDuplicates;
    DispatchNoNewWaits(Ended(k));
  }

  /** Only its own call puts a task on the tick queue. */
  lemma OnlyCallersWait(k: Kernel, step: Step, t: int)
    requires Inv(k) && Enabled(k, step) && t !in k.ticking && !(step == WaitForTickCall && k.current == t)
    ensures t !in Next(k, step).ticking
  {
    hide Accounted, Organised, Scheduler, Block, ExitThread, SchedNext, NoDuplicates;
    match step
    case ClockTick => SchedulerNoNewWaits(k);
    case BlockCall => BlockNoNewWaits(k);
    case WaitForTickCall => DispatchNoNewWaits(Enqueue(k, k.current, ToTick));
    case ExitThreadCall => EndNoNewWaits(k);
    case ExitCall => ExitNoNewWaits(k);
    case _ =>
  }

  /** A task that makes no tick wait loses no unblock. */
  lemma {:induction false} NothingLostWithoutTickWaits(k: Kernel, steps: seq<Step>, t: int)
    requires Inv(k) && Runs(k, steps) && t !in k.ticking && NeverWaits(k, steps, t)
    ensures Lost(k, steps, t) == 0
    decreases |steps|
  {
    hide Inv, Next, Enabled;
    if steps != [] {
      OnlyCallersWait(k, steps[0], t);
      NothingLostWithoutTickWaits(Next(k, steps[0]), steps[1..], t);
    }
  }

  lemma BootIsSane(free: seq<int>)
    ensures Sane(Boot(free)) && Value(Boot(free), 1) == 0
  {
  }
}
