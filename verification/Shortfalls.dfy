/**
 Runs from boot in which the kernel falls short: an unblock that is lost, and an exit that would put a
 structure on two queues.
 */
module Shortfalls {
  import opened KernelModel
  import opened KernelRuns
  import KernelTheorems
  import Semaphore

  /** Task t runs for its last tick, and only u is ready. */
  ghost predicate Pair(k: Kernel, t: int, u: int) {
    && t in k.tasks && u in k.tasks && t != u && k.idle in k.tasks && t != k.idle && u != k.idle
    && k.current == t && k.ready == [u] && k.blocked == [] && k.ticking == [] && k.quantumLeft == 1
    && k.tasks[t].status == Running && k.tasks[u].status == Ready && k.tasks[t].quantum == k.tasks[u].quantum == 1
  }

  /** A tick lets them change places. */
  lemma TickSwitches(k: Kernel, t: int, u: int)
    requires Pair(k, t, u)
    ensures Scheduler.requires(k) && Pair(Scheduler(k), u, t)
    ensures forall x :: x in k.tasks ==>
              x in Scheduler(k).tasks && Scheduler(k).tasks[x] == k.tasks[x].(status := Scheduler(k).tasks[x].status)
  {
    var k1 := WakeTicking(k.(quantumLeft := 0));
    assert k1.ready == [u] && k1.tasks == k.tasks;
    var k2 := Enqueue(k1.(quantumLeft := 1), t, ToReady);
    assert k2.ready == [u, t] && k2.tasks[u] == k.tasks[u];
    assert NeedsSched(k1) == (true, k1.(quantumLeft := 1));
    assert Rescheduled(k1) == SchedNext(k2);
    assert Minus([u, t], u) == [t];
  }

  /** Init has forked: it runs, and its child is ready. */
  lemma AfterFork(k: Kernel)
    requires k == Boot([2])
    ensures k.current in k.tasks && Pair(Fork(k, Enough), 1, 2) && Fork(k, Enough).tasks[2].pending == 0
  {
  }

  lemma WaitingForTick(k: Kernel, t: int, u: int)
    requires Pair(k, t, u)
    ensures WaitForTick.requires(k)
    ensures var k' := WaitForTick(k);
            && k'.current == u && k'.ticking == [t] && t in k'.tasks && k'.tasks[t].status == Blocked
            && k'.tasks[t].pending == k.tasks[t].pending
  {
    var k1 := Enqueue(k, t, ToTick);
    assert k1.ready == [u] && k1.ticking == [t];
    assert Minus([u], u) == [] && Minus([t], u) == [t];
  }

  // A lost unblock

  /** Task t is unblocked once and never blocks in the run, but has nothing pending after it. */
  ghost predicate Loses(k: Kernel, steps: seq<Step>, t: int)
    requires Inv(k)
  {
    && Runs(k, steps) && Semaphore.Lost(k, steps, t) == 1
    && Semaphore.Unblocks(steps, t) == 1 && Semaphore.Blocks(k, steps, t) == 0
    && t in After(k, steps).tasks && After(k, steps).tasks[t].pending == 0
  }

  lemma OneStepEarlier(k: Kernel, step: Step, steps: seq<Step>, t: int)
    requires Inv(k) && Enabled(k, step) && Loses(Next(k, step), steps, t) && step != UnblockCall(t) && step != BlockCall
    ensures Loses(k, [step] + steps, t)
  {
    hide Inv, Next, Enabled;
    assert ([step] + steps)[1..] == steps;
  }

  lemma LosesNow(k: Kernel, t: int)
    requires Inv(k) && k.current != k.idle && t in k.tasks && t != k.idle
    requires k.ticking == [t] && k.tasks[t].status == Blocked && k.tasks[t].pending == 0
    ensures Loses(k, [UnblockCall(t)], t)
  {
    hide Inv, Next, Minus, Enabled;
    NextOfUnblock(k, t);
    var k', rest: seq<Step> := Next(k, UnblockCall(t)), [];
    assert [UnblockCall(t)][1..] == rest && Runs(k', rest) && After(k', rest) == k';
    assert Semaphore.Lost(k', rest, t) == 0 && Semaphore.Blocks(k', rest, t) == 0 && Semaphore.Unblocks(rest, t) == 0;
  }

  lemma LosesSoon(k: Kernel, t: int, u: int)
    requires Inv(k) && Pair(k, t, u) && k.tasks[t].pending == 0
    ensures Loses(k, [WaitForTickCall, UnblockCall(t)], t)
  {
    hide Inv, Next, Enabled, Loses, WaitForTick;
    WaitingForTick(k, t, u);
    NextOfWait(k);
    LosesNow(WaitForTick(k), t);
    OneStepEarlier(k, WaitForTickCall, [UnblockCall(t)], t);
    assert [WaitForTickCall] + [UnblockCall(t)] == [WaitForTickCall, UnblockCall(t)];
  }

  lemma LosesAfterFork(k: Kernel, t: int, u: int)
    requires Inv(k) && Pair(k, u, t) && k.tasks[t].pending == 0
    ensures Loses(k, [ClockTick, WaitForTickCall, UnblockCall(t)], t)
  {
    hide Inv, Next, Enabled, Loses, Scheduler;
    TickSwitches(k, u, t);
    NextOfTick(k);
    LosesSoon(Scheduler(k), t, u);
    OneStepEarlier(k, ClockTick, [WaitForTickCall, UnblockCall(t)], t);
    assert [ClockTick] + [WaitForTickCall, UnblockCall(t)] == [ClockTick, WaitForTickCall, UnblockCall(t)];
  }

  /** Init forks, the child gets its turn and waits for a tick, and init's unblock is lost. */
  lemma LostUnblockExample()
    ensures Inv(Boot([2])) && Loses(Boot([2]), [ForkCall(Enough), ClockTick, WaitForTickCall, UnblockCall(2)], 2)
  {
    hide Inv, Next, Enabled, Loses, Fork;
    var k := Boot([2]);
    BootIsGood([2]);
    AfterFork(k);
    NextOfFork(k, Enough);
    LosesAfterFork(Fork(k, Enough), 2, 1);
    var rest := [ClockTick, WaitForTickCall, UnblockCall(2)];
    OneStepEarlier(k, ForkCall(Enough), rest, 2);
    assert [ForkCall(Enough)] + rest == [ForkCall(Enough), ClockTick, WaitForTickCall, UnblockCall(2)];
  }

  // An exit by a thread that is not the master

  /** A lone master that creates a thread. */
  lemma CreatesPair(k: Kernel)
    requires CreateThread.requires(k, true) && k.current == 1 && k.idle == 0 && k.tasks.Keys == {0, 1} && k.free == [2]
    requires k.ready == [] && k.blocked == [] && k.ticking == [] && k.quantumLeft == 1
    requires k.tasks[1].master == 1 && k.tasks[1].status == Running && k.tasks[1].quantum == 1
    requires FirstClear(k.tasks[1].slots, 0) >= 0 && FindRegion(k, 1, STACK_BASE_PAGE) >= 0
    ensures var k' := CreateThread(k, true); Pair(k', 1, 2) && k'.tasks[2].master == 1
  {
    hide FirstClear, FindRegion;
  }

  /** Init has created a thread: it runs, and the thread is ready. */
  lemma AfterCreation(k: Kernel)
    requires k == Boot([2])
    ensures CreateThread.requires(k, true)
    ensures var k' := CreateThread(k, true); Pair(k', 1, 2) && k'.tasks[2].master == 1
  {
    hide FirstClear, FindRegion, CreateThread, Inv;
    KernelTheorems.FirstClearIs(INIT.slots, 1);
    BootIsGood([2]);
    KernelTheorems.ThreadCreationFindsRegion(k);
    assert k.tasks.Keys == {0, 1};
    CreatesPair(k);
  }

  ghost predicate ExitWouldClash(k: Kernel) {
    k.current in k.tasks && k.tasks[k.current].master != k.current && k.tasks[k.current].master in k.ready
  }

  lemma ClashesAfterTick(k: Kernel)
    requires Inv(k) && Pair(k, 1, 2) && k.tasks[2].master == 1
    ensures Runs(k, [ClockTick]) && ExitWouldClash(After(k, [ClockTick]))
  {
    hide Inv, Next, Enabled, Scheduler;
    TickSwitches(k, 1, 2);
    NextOfTick(k);
    var k', rest: seq<Step> := Next(k, ClockTick), [];
    assert [ClockTick][1..] == rest && Runs(k', rest) && After(k', rest) == k';
  }

  /** The thread runs while its master is ready, so that an exit would put the master on a second queue. */
  lemma ExitExample()
    ensures var steps := [CreateThreadCall(true), ClockTick];
            Inv(Boot([2])) && Runs(Boot([2]), steps) && ExitWouldClash(After(Boot([2]), steps))
  {
    hide Inv, Next, Enabled, CreateThread, ExitWouldClash;
    var k := Boot([2]);
    BootIsGood([2]);
    AfterCreation(k);
    NextOfCreation(k, true);
    ClashesAfterTick(CreateThread(k, true));
    assert [CreateThreadCall(true), ClockTick][1..] == [ClockTick];
  }
}
