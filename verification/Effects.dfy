/**
 What the clock tick and the calls do to the queues, in every state that can be reached.
 */
module Effects {
  import opened Sequences
  import opened KernelModel
  import opened Placement
  import opened Processes
  import opened Endings
  import opened KernelRuns
  import opened Fairness

  /** Nothing changes but queues, statuses, and who runs for how long. */
  ghost predicate OnlyScheduling(k: Kernel, k': Kernel) {
    && k'.tasks.Keys == k.tasks.Keys && (forall t :: t in k.tasks ==> k'.tasks[t] == k.tasks[t].(status := k'.tasks[t].status))
    && k'.free == k.free && k'.threads == k.threads && k'.linked == k.linked && k'.nextPid == k.nextPid
    && k'.ids == k.ids && k'.idle == k.idle
  }

  /** The first of the queue runs, with a full quantum, and the others wait in their order; idle runs if there is nobody. */
  ghost predicate Dispatches(k: Kernel, k': Kernel, queue: seq<int>) {
    if queue == [] then k'.current == k.idle && k'.ready == [] && k.idle in k.tasks && k'.quantumLeft == k.tasks[k.idle].quantum
    else k'.current == queue[0] && k'.ready == queue[1..] && queue[0] in k.tasks && k'.quantumLeft == k.tasks[queue[0]].quantum
  }

  lemma SchedNextMeans(k: Kernel)
    requires Vacant(k)
    ensures var k' := SchedNext(k);
            Dispatches(k, k', k.ready) && k'.blocked == k.blocked && k'.ticking == k.ticking && OnlyScheduling(k, k')
  {
    if k.ready != [] {
      var head := k.ready[0];
      assert head in k.ready;
      HeadLeaves(k.ready);
      MinusAbsent(k.blocked, head);
      MinusAbsent(k.ticking, head);
    }
    hide NoDuplicates, Minus;
  }

  lemma OnlySchedulingTwice(a: Kernel, b: Kernel, c: Kernel)
    requires OnlyScheduling(a, b) && OnlyScheduling(b, c)
    ensures OnlyScheduling(a, c)
  {
  }

  /** A running task goes on while it has time or is alone; else it goes behind all others. */
  ghost predicate TakesTurns(k: Kernel, k': Kernel, queue: seq<int>, left: int) {
    if left > 0 then k'.current == k.current && k'.ready == queue && k'.quantumLeft == left
    else if queue == [] then k'.current == k.current && k'.ready == [] && k.current in k.tasks && k'.quantumLeft == k.tasks[k.current].quantum
    else Dispatches(k, k', queue + [k.current])
  }

  /** The running task joins the end of a queue. */
  lemma EnqueueMeans(k: Kernel, dest: Queue)
    requires Dispatched(k) && (dest != ToReady ==> k.current != k.idle)
    ensures k.current in k.tasks
    ensures var queued := Enqueue(k, k.current, dest);
            && Vacant(queued) && OnlyScheduling(k, queued) && queued.current == k.current && queued.quantumLeft == k.quantumLeft
            && queued.tasks[k.current].status == (if dest == ToReady then Ready else Blocked)
            && queued.ready == k.ready + (if dest == ToReady then [k.current] else [])
            && queued.blocked == k.blocked + (if dest == ToBlocked then [k.current] else [])
            && queued.ticking == k.ticking + (if dest == ToTick then [k.current] else [])
  {
    CurrentIsLive(k);
    var out := Fresh(k) + {k.current};
    EnqueueKeepsPlaced(k, out, k.current, dest);
    assert out - {k.current} == Fresh(k);
    assert k.tasks[k.current].status == Running;
    hide Placed;
  }

  lemma RescheduledMeans(k: Kernel)
    requires Dispatched(k)
    ensures k.current in k.tasks
    ensures var k' := Rescheduled(k);
            TakesTurns(k, k', k.ready, k.quantumLeft) && k'.blocked == k.blocked && k'.ticking == k.ticking && OnlyScheduling(k, k')
  {
    CurrentIsLive(k);
    var (needed, k1) := NeedsSched(k);
    PlacedIgnoresQuantum(k, Fresh(k) + {k.current}, k1.quantumLeft, k.current);
    assert k.tasks[k.current].status == Running && Dispatched(k1);
    hide Placed, Enqueue, SchedNext;
    if needed {
      EnqueueMeans(k1, ToReady);
      var queued := Enqueue(k1, k.current, ToReady);
      SchedNextMeans(queued);
      OnlySchedulingTwice(k, queued, SchedNext(queued));
    }
  }

  lemma WakeTickingMeans(k: Kernel, q: int)
    requires Dispatched(k) || Vacant(k)
    ensures var woken := WakeTicking(k.(quantumLeft := q));
            && (Dispatched(k) ==> Dispatched(woken)) && (Vacant(k) ==> Vacant(woken))
            && woken.current == k.current && woken.quantumLeft == q
            && woken.ready == k.ready + k.ticking && woken.ticking == [] && woken.blocked == k.blocked && OnlyScheduling(k, woken)
            && (k.current in k.blocked && k.current in k.tasks ==> woken.tasks[k.current] == k.tasks[k.current])
  {
    hide NoDuplicates;
    var out := if Dispatched(k) then Fresh(k) + {k.current} else Fresh(k);
    PlacedIgnoresQuantum(k, out, q, k.current);
    WakeKeepsPlaced(k.(quantumLeft := q), out);
    if k.current in k.blocked {
      WakeKeepsOthers(k.(quantumLeft := q), out, k.current);
    }
  }

  /**
   After a clock tick nobody waits for one: those who did are behind the tasks that were ready, in their
   order, and all of them take turns with the running task.
   */
  lemma TickMeans(k: Kernel)
    requires Inv(k)
    ensures var k' := Next(k, ClockTick);
            && k'.ticking == [] && k'.blocked == k.blocked && OnlyScheduling(k, k')
            && TakesTurns(k, k', k.ready + k.ticking, k.quantumLeft - 1)
  {
    hide Accounted, Organised, NoDuplicates;
    WakeTickingMeans(k, k.quantumLeft - 1);
    var woken := WakeTicking(k.(quantumLeft := k.quantumLeft - 1));
    hide Placed, WakeTicking;
    RescheduledMeans(woken);
    assert Next(k, ClockTick) == Scheduler(k) == Rescheduled(woken);
    hide Rescheduled;
    OnlySchedulingTwice(k, woken, Rescheduled(woken));
  }

  /** A caller that is on the blocked queue gives way to the first of those who are ready or waited for a tick. */
  lemma SchedulerMeansForBlocked(k: Kernel)
    requires Vacant(k) && k.current in k.blocked && k.current in k.tasks && k.tasks[k.current].status == Blocked
    ensures Scheduler.requires(k)
    ensures var k' := Scheduler(k);
            Dispatches(k, k', k.ready + k.ticking) && k'.ticking == [] && k'.blocked == k.blocked && OnlyScheduling(k, k')
  {
    WakeTickingMeans(k, k.quantumLeft - 1);
    var woken := WakeTicking(k.(quantumLeft := k.quantumLeft - 1));
    hide WakeTicking, Placed, SchedNext;
    BlockedGivesWay(woken);
    var (_, k1) := NeedsSched(woken);
    SchedNextMeans(k1);
    OnlySchedulingTwice(k, k1, SchedNext(k1));
  }

  lemma BlockedGivesWay(k: Kernel)
    requires Vacant(k) && k.current in k.tasks && k.tasks[k.current].status == Blocked
    ensures Rescheduled.requires(k)
    ensures var (needed, k1) := NeedsSched(k);
            needed && Vacant(k1) && k1 == k.(quantumLeft := k1.quantumLeft) && Rescheduled(k) == SchedNext(k1)
  {
    hide SchedNext;
    VacantCanDispatch(k);
    var (_, k1) := NeedsSched(k);
    PlacedIgnoresQuantum(k, Fresh(k), k1.quantumLeft, k.current);
  }

  /** A caller with a pending unblock uses it up; any other one is blocked, and the scheduler runs as for a tick. */
  lemma BlockMeans(k: Kernel)
    requires Inv(k) && k.current != k.idle
    ensures k.current in k.tasks
    ensures var k', c := Next(k, BlockCall), k.tasks[k.current];
            if c.pending != 0 then k' == k.(tasks := k.tasks[k.current := c.(pending := c.pending - 1)])
            else
              && k'.blocked == k.blocked + [k.current] && k'.ticking == []
              && Dispatches(k, k', k.ready + k.ticking) && OnlyScheduling(k, k')
  {
    hide Accounted, Organised;
    CurrentIsLive(k);
    hide Placed;
    assert Next(k, BlockCall) == Block(k);
    if k.tasks[k.current].pending == 0 {
      EnqueueMeans(k, ToBlocked);
      var queued := Enqueue(k, k.current, ToBlocked);
      hide Enqueue, Scheduler;
      SchedulerMeansForBlocked(queued);
      OnlySchedulingTwice(k, queued, Scheduler(queued));
    }
  }

  /** The caller waits behind the others who wait for a tick, and the first ready task runs. */
  lemma WaitMeans(k: Kernel)
    requires Inv(k) && k.current != k.idle
    ensures var k' := Next(k, WaitForTickCall);
            && k'.ticking == k.ticking + [k.current] && k'.blocked == k.blocked
            && Dispatches(k, k', k.ready) && OnlyScheduling(k, k')
  {
    hide Accounted, Organised;
    EnqueueMeans(k, ToTick);
    var queued := Enqueue(k, k.current, ToTick);
    hide Placed, Enqueue, SchedNext;
    SchedNextMeans(queued);
    assert Next(k, WaitForTickCall) == WaitForTick(k) == SchedNext(queued);
    OnlySchedulingTwice(k, queued, SchedNext(queued));
  }

  /** A child that is blocked or waits for a tick becomes ready behind the others; any other one has one more unblock pending. */
  lemma UnblockMeans(k: Kernel, child: int)
    requires Inv(k) && Enabled(k, UnblockCall(child))
    ensures var k', c := Next(k, UnblockCall(child)), k.tasks[child];
            if child !in k.blocked && child !in k.ticking then k' == k.(tasks := k.tasks[child := c.(pending := c.pending + 1)])
            else
              && k'.ready == k.ready + [child] && k'.current == k.current && k'.quantumLeft == k.quantumLeft
              && (forall t :: t in k'.blocked <==> t in k.blocked && t != child)
              && (forall t :: t in k'.ticking <==> t in k.ticking && t != child)
              && OnlyScheduling(k, k')
  {
    hide Accounted, Organised, NoDuplicates;
    if k.tasks[child].status == Blocked {
      MinusAbsent(k.ready, child);
    }
  }

  // Nobody waits for a tick for long

  lemma QuantaStay(k: Kernel, k': Kernel, q: int)
    requires OnlyScheduling(k, k') && QuantaWithin(k, q)
    ensures QuantaWithin(k', q)
  {
  }

  lemma DispatchIsFair(k: Kernel, q: int)
    requires Vacant(k) && QuantaWithin(k, q)
    ensures Fair(SchedNext(k), q) && forall t :: t in SchedNext(k).blocked ==> t in k.blocked
  {
    SchedNextMeans(k);
    hide SchedNext, Placed;
    QuantaStay(k, SchedNext(k), q);
  }

  /** No step lengthens a quantum beyond q, and only a caller gets blocked. */
  lemma StepIsFair(k: Kernel, step: Step, q: int)
    requires Inv(k) && Enabled(k, step) && Fair(k, q)
    ensures var k' := Next(k, step);
            Fair(k', q) && forall t :: t in k'.blocked ==> t in k.blocked || t == k.current
  {
    hide Inv, Scheduler, Block, WaitForTick, Unblock, Fork, CreateThread, ExitThread, SchedNext, Ended;
    match step
    case ClockTick =>
      TickMeans(k);
      QuantaStay(k, Next(k, step), q);
    case BlockCall =>
      BlockMeans(k);
      if k.tasks[k.current].pending == 0 {
        QuantaStay(k, Next(k, step), q);
      }
    case WaitForTickCall =>
      WaitMeans(k);
      QuantaStay(k, Next(k, step), q);
    case UnblockCall(child) =>
      UnblockMeans(k, child);
      if child in k.blocked || child in k.ticking {
        QuantaStay(k, Next(k, step), q);
      }
    case ForkCall(memory) => ForkIsFair(k, memory, q);
    case CreateThreadCall(mapped) => CreationIsFair(k, mapped, q);
    case ExitThreadCall => ThreadEndIsFair(k, q);
    case ExitCall => ExitIsFair(k, q);
  }

  lemma ForkKeepsQuanta(k: Kernel, memory: ForkMemory, q: int)
    requires k.current in k.tasks && Fair(k, q)
    ensures Fork(k, memory).blocked == k.blocked && Fair(Fork(k, memory), q)
  {
  }

  lemma ForkIsFair(k: Kernel, memory: ForkMemory, q: int)
    requires Inv(k) && Enabled(k, ForkCall(memory)) && Fair(k, q)
    ensures Next(k, ForkCall(memory)).blocked == k.blocked && Fair(Next(k, ForkCall(memory)), q)
  {
    hide Inv, Fork, Fair, Next;
    CallerIsLive(k);
    NextOfFork(k, memory);
    ForkKeepsQuanta(k, memory, q);
  }

  lemma CallerIsLive(k: Kernel)
    requires Inv(k)
    ensures k.current in k.tasks
  {
    CurrentIsLive(k);
  }

  lemma CreationKeepsQuanta(k: Kernel, mapped: bool, q: int)
    requires k.current in k.tasks && HasProcess(k, k.tasks[k.current].master) && Fair(k, q)
    ensures CreateThread(k, mapped).blocked == k.blocked && Fair(CreateThread(k, mapped), q)
  {
    hide FirstClear, FindRegion;
  }

  lemma CreationIsFair(k: Kernel, mapped: bool, q: int)
    requires Inv(k) && Enabled(k, CreateThreadCall(mapped)) && Fair(k, q)
    ensures Next(k, CreateThreadCall(mapped)).blocked == k.blocked && Fair(Next(k, CreateThreadCall(mapped)), q)
  {
    hide Inv, CreateThread, Fair, Next;
    CreateThreadKeepsInv(k, mapped);
    NextOfCreation(k, mapped);
    CreationKeepsQuanta(k, mapped, q);
  }

  lemma EndKeepsQuanta(k: Kernel, q: int)
    requires k.current in k.threads && QuantaWithin(k, q)
    ensures QuantaWithin(Ended(k), q) && forall t :: t in Ended(k).blocked ==> t in k.blocked
  {
    hide NoDuplicates;
  }

  lemma EndIsFair(k: Kernel, k': Kernel, q: int)
    requires Vacant(k') && QuantaWithin(k', q) && forall t :: t in k'.blocked ==> t in k.blocked
    ensures Fair(SchedNext(k'), q) && forall t :: t in SchedNext(k').blocked ==> t in k.blocked
  {
    hide Vacant, SchedNext, QuantaWithin, Fair;
    DispatchIsFair(k', q);
  }

  lemma ExitIsFair(k: Kernel, q: int)
    requires Inv(k) && Enabled(k, ExitCall) && Fair(k, q)
    ensures var k' := Next(k, ExitCall); Fair(k', q) && forall t :: t in k'.blocked ==> t in k.blocked
  {
    hide Inv, SchedNext, Vacant, Ended;
    ExitKeepsInv(k);
    EndKeepsQuanta(k, q);
    hide Fair;
    EndIsFair(k, Ended(k), q);
  }

  lemma ThreadEndIsFair(k: Kernel, q: int)
    requires Inv(k) && Enabled(k, ExitThreadCall) && Fair(k, q)
    ensures var k' := Next(k, ExitThreadCall); Fair(k', q) && forall t :: t in k'.blocked ==> t in k.blocked
  {
    hide Inv, SchedNext, Vacant, Ended, ThreadEnded, HandedOver, ExitThread;
    ExitThreadCases(k);
    if !IsMaster(k, k.current) {
      ThreadEndKeepsInv(k);
      ThreadEndKeepsQuanta(k, q);
      hide Fair;
      EndIsFair(k, ThreadEnded(k), q);
    } else if HandsOver(k, ExitThreadCall) {
      HandOverKeepsInv(k);
      HandOverKeepsQuanta(k, q);
      hide Fair;
      EndIsFair(k, HandedOver(k), q);
    } else {
      ExitKeepsInv(k);
      EndKeepsQuanta(k, q);
      hide Fair;
      EndIsFair(k, Ended(k), q);
    }
  }

  /** A queue is not longer than there are task structures. */
  lemma {:induction false} QueueFits(queue: seq<int>, ids: set<int>)
    requires NoDuplicates(queue) && forall t :: t in queue ==> t in ids
    ensures |queue| <= |ids|
    decreases |queue|
  {
    if queue != [] {
      var last := queue[|queue| - 1];
      assert last in queue;
      QueueFits(queue[..|queue| - 1], ids - {last});
    }
  }

  lemma ReadyQueueFits(k: Kernel)
    requires Inv(k)
    ensures |k.ready| <= |k.ids|
  {
    hide Organised;
    QueueFits(k.ready, k.ids);
  }

  /** A task that waits for a tick stays so, gets ready, runs or ends; a tick leaves nobody waiting. */
  lemma WaiterStep(k: Kernel, step: Step, t: int, q: int)
    requires Inv(k) && Enabled(k, step) && Fair(k, q) && t in k.ticking
    ensures var k' := Next(k, step);
            && (t in k'.tasks && t != k'.current ==> t in k'.ready || t in k'.ticking)
            && (step == ClockTick ==> t !in k'.ticking)
  {
    hide Inv, Next, Enabled, Fair;
    WaiterFacts(k, t);
    StepIsFair(k, step, q);
    var k' := Next(k, step);
    if t in k'.tasks && t != k'.current {
      LiveHasPlace(k', t);
    }
    if step == ClockTick {
      TickMeans(k);
    }
  }

  lemma WaiterFacts(k: Kernel, t: int)
    requires Inv(k) && t in k.ticking
    ensures t in k.tasks && t !in k.blocked && t != k.current && t != k.idle
  {
    hide Accounted, Organised, NoDuplicates;
  }

  lemma LiveHasPlace(k: Kernel, t: int)
    requires Inv(k) && t in k.tasks && t != k.idle && t != k.current
    ensures t in k.ready || t in k.blocked || t in k.ticking
  {
    hide Accounted, Organised, NoDuplicates;
  }

  /**
   A task that waits for a tick gets its turn, or ends, at the latest when one more tick has passed than it takes
   all task structures to use up quanta of q.
   */
  lemma {:induction false} TickWaitEnds(k: Kernel, steps: seq<Step>, t: int, q: nat)
    requires Inv(k) && Runs(k, steps) && Fair(k, q) && t in k.ticking && Ticks(steps) >= 1 + |k.ids| * q
    ensures GetsItsTurn(k, steps, t)
    decreases |steps|
  {
    hide Inv, Next, Enabled, Fair;
    assert |k.ids| * q >= 0;
    var step, k' := steps[0], Next(k, steps[0]);
    StepIsFair(k, step, q);
    WaiterStep(k, step, t, q);
    if t in k'.tasks && t != k'.current {
      if t in k'.ready {
        ReadyInTime(k', steps[1..], t, q);
      } else {
        TickWaitEnds(k', steps[1..], t, q);
      }
    }
  }

  lemma LongerTakesLonger(i: nat, n: nat, q: nat)
    requires i <= n
    ensures i * q <= n * q
  {
    assert n * q == i * q + (n - i) * q;
  }

  lemma ReadyInTime(k: Kernel, steps: seq<Step>, t: int, q: nat)
    requires Inv(k) && Runs(k, steps) && Fair(k, q) && t in k.ready && Ticks(steps) >= |k.ids| * q
    ensures GetsItsTurn(k, steps, t)
  {
    hide Inv, Fair, Runs, GetsItsTurn;
    ReadyQueueFits(k);
    var i :| 0 <= i < |k.ready| && k.ready[i] == t;
    LongerTakesLonger(i + 1, |k.ids|, q);
    NoStarvation(k, steps, t, i, q);
  }
}
