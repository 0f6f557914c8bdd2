/**
 No starvation: a ready task is dispatched after a bounded number of clock ticks.
 */
module Fairness {
  import opened Sequences
  import opened KernelModel
  import opened Placement
  import opened Processes
  import opened Lifecycle
  import opened Endings
  import opened KernelRuns

  /** All quanta and what is left of the current one lie between 1 and q. */
  ghost predicate Fair(k: Kernel, q: int) {
    && 1 <= k.quantumLeft <= q
    && forall t :: t in k.tasks ==> 1 <= k.tasks[t].quantum <= q
  }

  /** t waits at place i of the ready queue. */
  ghost predicate WaitsAt(k: Kernel, t: int, i: int) {
    0 <= i < |k.ready| && k.ready[i] == t
  }

  /** The ticks that i full quanta of q take. */
  function Turns(i: nat, q: nat): nat {
    if i == 0 then 0 else Turns(i - 1, q) + q
  }

  lemma {:induction false} TurnsIsProduct(i: nat, q: nat)
    ensures Turns(i, q) == i * q
  {
    if i > 0 {
      TurnsIsProduct(i - 1, q);
      assert i * q == (i - 1) * q + q;
    }
  }

  lemma {:induction false} TurnsGrow(i: nat, j: nat, q: nat)
    requires i <= j
    ensures Turns(i, q) <= Turns(j, q)
  {
    if i < j {
      TurnsGrow(i, j - 1, q);
    }
  }

  /** t has been dispatched, has been freed, or waits with at most b ticks to go. */
  ghost predicate Due(k: Kernel, t: int, q: nat, b: int) {
    || k.current == t
    || t !in k.tasks
    || (Fair(k, q) && exists i :: WaitsAt(k, t, i) && Turns(i, q) + k.quantumLeft <= b)
  }

  lemma {:induction false} MinusMovesForward(s: seq<int>, x: int, i: nat) returns (j: nat)
    requires i < |s| && s[i] != x
    ensures j <= i && j < |Minus(s, x)| && Minus(s, x)[j] == s[i]
  {
    if s[0] == x {
      j := MinusMovesForward(s[1..], x, i - 1);
    } else if i == 0 {
      j := 0;
    } else {
      j := MinusMovesForward(s[1..], x, i - 1);
      j := j + 1;
    }
  }

  lemma {:induction false} MinusAllMovesForward(s: seq<int>, gone: seq<int>, i: nat) returns (j: nat)
    requires i < |s| && s[i] !in gone
    ensures j <= i && j < |MinusAll(s, gone)| && MinusAll(s, gone)[j] == s[i]
    decreases |gone|
  {
    if gone == [] {
      j := i;
    } else {
      j := MinusAllMovesForward(s, gone[..|gone| - 1], i);
      j := MinusMovesForward(MinusAll(s, gone[..|gone| - 1]), gone[|gone| - 1], j);
    }
  }

  /** Dispatching moves everybody one place forward and starts a quantum of at most q. */
  lemma DispatchAdvances(k: Kernel, t: int, i: nat, q: nat)
    requires Vacant(k) && WaitsAt(k, t, i)
    requires forall u :: u in k.tasks ==> 1 <= k.tasks[u].quantum <= q
    ensures Fair(SchedNext(k), q) && Due(SchedNext(k), t, q, Turns(i, q))
  {
    var k', head := SchedNext(k), k.ready[0];
    assert head in k.ready;
    HeadLeaves(k.ready);
    hide Minus, NoDuplicates;
    if i > 0 {
      assert WaitsAt(k', t, i - 1);
    }
  }

  ghost predicate QuantaWithin(k: Kernel, q: int) {
    forall t :: t in k.tasks ==> 1 <= k.tasks[t].quantum <= q
  }

  lemma ReschedulingKeepsQuanta(k: Kernel, k': Kernel, q: int)
    requires SameOrganisation(k, k') && QuantaWithin(k, q)
    ensures QuantaWithin(k', q)
  {
  }

  lemma EnqueueAtEnd(k: Kernel, out: set<int>, t: int, i: nat)
    requires Placed(k, out) && k.current in out && WaitsAt(k, t, i)
    ensures WaitsAt(Enqueue(k, k.current, ToReady), t, i)
  {
  }

  /** One call of the scheduler uses up a tick or dispatches. */
  lemma RescheduleAdvances(k: Kernel, out: set<int>, t: int, i: nat, q: nat)
    requires Placed(k, out) && k.idlePicks <= 1 && k.current in k.tasks
    requires if k.current in k.blocked then out == Fresh(k) else out == Fresh(k) + {k.current} && k.current !in Fresh(k)
    requires QuantaWithin(k, q) && 0 <= k.quantumLeft < q && WaitsAt(k, t, i)
    ensures Fair(Rescheduled(k), q) && Due(Rescheduled(k), t, q, Turns(i, q) + k.quantumLeft)
  {
    hide Enqueue, SchedNext, NoDuplicates, Turns;
    var (needed, k') := NeedsSched(k);
    PlacedIgnoresQuantum(k, out, k'.quantumLeft, k.current);
    if needed {
      if k'.tasks[k.current].status != Blocked {
        EnqueueKeepsPlaced(k', out, k.current, ToReady);
        var queued := Enqueue(k', k.current, ToReady);
        EnqueueFrame(k', k.current, ToReady);
        EnqueueReschedules(k', k.current, ToReady);
        EnqueueAtEnd(k', out, t, i);
        ReschedulingKeepsQuanta(k', queued, q);
        assert out - {k.current} == Fresh(queued);
        DispatchAdvances(queued, t, i, q);
      } else {
        DispatchAdvances(k', t, i, q);
      }
    } else {
      assert WaitsAt(k', t, i);
    }
  }

  lemma SchedulerAdvances(k: Kernel, t: int, i: nat, q: nat)
    requires (Vacant(k) && k.current in k.blocked) || Dispatched(k)
    requires Fair(k, q) && WaitsAt(k, t, i)
    ensures Fair(Scheduler(k), q) && Due(Scheduler(k), t, q, Turns(i, q) + k.quantumLeft - 1)
  {
    hide NoDuplicates, Turns, Rescheduled, Due;
    var out := if Dispatched(k) then Fresh(k) + {k.current} else Fresh(k);
    var ticked := k.(quantumLeft := k.quantumLeft - 1);
    PlacedIgnoresQuantum(k, out, k.quantumLeft - 1, k.current);
    WakeKeepsOthers(ticked, out, k.current);
    WakeKeepsPlaced(ticked, out);
    WakeReschedules(k, k.quantumLeft - 1);
    var woken := WakeTicking(ticked);
    ReschedulingKeepsQuanta(k, woken, q);
    assert WaitsAt(woken, t, i);
    RescheduleAdvances(woken, out, t, i, q);
  }

  lemma {:induction false} LaterIsFine(k: Kernel, t: int, q: nat, b: int, c: int)
    requires Due(k, t, q, b) && b <= c
    ensures Due(k, t, q, c)
  {
  }

  lemma BlockAdvances(k: Kernel, t: int, i: nat, q: nat)
    requires Dispatched(k) && k.current != k.idle && Fair(k, q) && WaitsAt(k, t, i)
    ensures Fair(Block(k), q) && Due(Block(k), t, q, Turns(i, q) + k.quantumLeft)
  {
    hide NoDuplicates, Turns;
    var task := k.tasks[k.current];
    if task.pending == 0 {
      var out := Fresh(k) + {k.current};
      EnqueueKeepsPlaced(k, out, k.current, ToBlocked);
      assert out - {k.current} == Fresh(k);
      var queued := Enqueue(k, k.current, ToBlocked);
      hide Scheduler;
      SchedulerAdvances(queued, t, i, q);
      LaterIsFine(Scheduler(queued), t, q, Turns(i, q) + k.quantumLeft - 1, Turns(i, q) + k.quantumLeft);
    } else {
      assert WaitsAt(Block(k), t, i);
    }
  }

  lemma WaitAdvances(k: Kernel, t: int, i: nat, q: nat)
    requires Dispatched(k) && k.current != k.idle && Fair(k, q) && WaitsAt(k, t, i)
    ensures Fair(WaitForTick(k), q) && Due(WaitForTick(k), t, q, Turns(i, q) + k.quantumLeft)
  {
    hide NoDuplicates, Turns;
    EnqueueKeepsPlaced(k, Fresh(k) + {k.current}, k.current, ToTick);
    assert Fresh(k) + {k.current} - {k.current} == Fresh(k);
    var queued := Enqueue(k, k.current, ToTick);
    DispatchAdvances(queued, t, i, q);
    LaterIsFine(SchedNext(queued), t, q, Turns(i, q), Turns(i, q) + k.quantumLeft);
  }

  lemma UnblockAdvances(k: Kernel, child: int, t: int, i: nat, q: nat)
    requires Dispatched(k) && child in k.tasks && Fair(k, q) && WaitsAt(k, t, i)
    ensures Fair(Unblock(k, child), q) && Due(Unblock(k, child), t, q, Turns(i, q) + k.quantumLeft)
  {
    hide NoDuplicates, Turns;
    var k' := Unblock(k, child);
    if k.tasks[child].status == Blocked {
      MinusAbsent(k.ready, child);
    }
    assert WaitsAt(k', t, i);
  }

  lemma ForkAdvances(k: Kernel, memory: ForkMemory, t: int, i: nat, q: nat)
    requires k.current in k.tasks && Fair(k, q) && WaitsAt(k, t, i)
    ensures Fair(Fork(k, memory), q) && Due(Fork(k, memory), t, q, Turns(i, q) + k.quantumLeft)
  {
    hide Turns;
    assert WaitsAt(Fork(k, memory), t, i);
  }

  lemma CreateThreadAdvances(k: Kernel, mapped: bool, t: int, i: nat, q: nat)
    requires k.current in k.tasks && HasProcess(k, k.tasks[k.current].master) && Fair(k, q) && WaitsAt(k, t, i)
    ensures Fair(CreateThread(k, mapped), q) && Due(CreateThread(k, mapped), t, q, Turns(i, q) + k.quantumLeft)
  {
    hide Turns, FirstClear, FindRegion;
    assert WaitsAt(CreateThread(k, mapped), t, i);
  }

  lemma EndAdvances(k: Kernel, t: int, i: nat, q: nat)
    requires k.current in k.threads && Vacant(Ended(k)) && Fair(k, q) && WaitsAt(k, t, i)
    ensures Due(SchedNext(Ended(k)), t, q, Turns(i, q) + k.quantumLeft)
  {
    hide NoDuplicates, Turns, Minus, MinusAll;
    var gone := k.threads[k.current];
    if t in gone {
      SchedNextReschedules(Ended(k));
      assert t !in SchedNext(Ended(k)).tasks;
    } else {
      var j := MinusAllMovesForward(k.ready, gone, i);
      TurnsGrow(j, i, q);
      DispatchAdvances(Ended(k), t, j, q);
      LaterIsFine(SchedNext(Ended(k)), t, q, Turns(j, q), Turns(i, q) + k.quantumLeft);
    }
  }

  function TickCost(step: Step): nat {
    if step == ClockTick then 1 else 0
  }

  /** Every step brings a waiting task closer to its turn, and a clock tick does so strictly. */
  lemma StepAdvances(k: Kernel, step: Step, t: int, i: nat, q: nat)
    requires Inv(k) && Enabled(k, step) && Fair(k, q) && WaitsAt(k, t, i)
    ensures Due(Next(k, step), t, q, Turns(i, q) + k.quantumLeft - TickCost(step))
  {
    hide Placed, Accounted, Organised, Turns, Due, Block, Unblock, WaitForTick, Fork, CreateThread, Scheduler;
    match step
    case ClockTick => SchedulerAdvances(k, t, i, q);
    case BlockCall => BlockAdvances(k, t, i, q);
    case UnblockCall(child) => UnblockAdvances(k, child, t, i, q);
    case WaitForTickCall => WaitAdvances(k, t, i, q);
    case ForkCall(memory) =>
      ForkKeepsInv(k, memory);
      ForkAdvances(k, memory, t, i, q);
    case CreateThreadCall(mapped) =>
      CreateThreadKeepsInv(k, mapped);
      CreateThreadAdvances(k, mapped, t, i, q);
    case ExitThreadCall => ExitThreadAdvances(k, t, i, q);
    case ExitCall =>
      ExitKeepsInv(k);
      EndAdvances(k, t, i, q);
  }

  lemma ExitThreadAdvances(k: Kernel, t: int, i: nat, q: nat)
    requires Inv(k) && k.current != k.idle && Fair(k, q) && WaitsAt(k, t, i)
    ensures Due(ExitThread(k), t, q, Turns(i, q) + k.quantumLeft)
  {
    hide Dispatched, Accounted, Organised, Turns, Due, Vacant, ThreadEnded, HandedOver, Ended, SchedNext;
    CurrentIsLive(k);
    ProcessOf(k, k.current);
    var m := k.tasks[k.current].master;
    if k.tasks[m].threadCount == 1 {
      AloneIsMaster(k);
      ExitKeepsInv(k);
      EndAdvances(k, t, i, q);
    } else if k.current != m {
      ThreadEndKeepsInv(k);
      ThreadEndKeepsQuanta(k, q);
      VacantCanDispatch(ThreadEnded(k));
      DispatchAdvances(ThreadEnded(k), t, i, q);
      LaterIsFine(SchedNext(ThreadEnded(k)), t, q, Turns(i, q), Turns(i, q) + k.quantumLeft);
    } else {
      HeirExists(k);
      HandOverKeepsInv(k);
      HandOverKeepsQuanta(k, q);
      VacantCanDispatch(HandedOver(k));
      DispatchAdvances(HandedOver(k), t, i, q);
      LaterIsFine(SchedNext(HandedOver(k)), t, q, Turns(i, q), Turns(i, q) + k.quantumLeft);
    }
  }

  lemma ThreadEndKeepsQuanta(k: Kernel, q: nat)
    requires CanLeave(k) && QuantaWithin(k, q)
    ensures QuantaWithin(ThreadEnded(k), q) && ThreadEnded(k).ready == k.ready && ThreadEnded(k).blocked == k.blocked
  {
  }

  lemma HandOverKeepsQuanta(k: Kernel, q: nat)
    requires CanHandOver(k) && QuantaWithin(k, q)
    ensures QuantaWithin(HandedOver(k), q) && HandedOver(k).ready == k.ready && HandedOver(k).blocked == k.blocked
  {
  }

  // Runs

  function Ticks(steps: seq<Step>): nat {
    if steps == [] then 0 else TickCost(steps[0]) + Ticks(steps[1..])
  }

  /** Somewhere in the run t is current or gone. */
  ghost predicate GetsItsTurn(k: Kernel, steps: seq<Step>, t: int)
    requires Inv(k) && Runs(k, steps)
    decreases |steps|
  {
    hide Inv, Next;
    k.current == t || t !in k.tasks || (steps != [] && GetsItsTurn(Next(k, steps[0]), steps[1..], t))
  }

  lemma {:induction false} TurnComes(k: Kernel, steps: seq<Step>, t: int, q: nat, b: int)
    requires Inv(k) && Runs(k, steps) && Due(k, t, q, b) && b <= Ticks(steps)
    ensures GetsItsTurn(k, steps, t)
    decreases |steps|
  {
    hide Inv, Next, Enabled;
    if k.current != t && t in k.tasks {
      var i :| WaitsAt(k, t, i) && Turns(i, q) + k.quantumLeft <= b;
      assert steps != [];
      StepAdvances(k, steps[0], t, i, q);
      LaterIsFine(Next(k, steps[0]), t, q, Turns(i, q) + k.quantumLeft - TickCost(steps[0]), b - TickCost(steps[0]));
      TurnComes(Next(k, steps[0]), steps[1..], t, q, b - TickCost(steps[0]));
    }
  }

  /**
   If q bounds all quanta, a task at place i of the ready queue is dispatched within (i + 1) * q clock
   ticks of any run, unless its process ends first.
   */
  lemma NoStarvation(k: Kernel, steps: seq<Step>, t: int, i: nat, q: nat)
    requires Inv(k) && Runs(k, steps) && Fair(k, q)
    requires WaitsAt(k, t, i) && Ticks(steps) >= (i + 1) * q
    ensures GetsItsTurn(k, steps, t)
  {
    hide Inv;
    TurnsIsProduct(i, q);
    assert (i + 1) * q == i * q + q;
    TurnComes(k, steps, t, q, Turns(i, q) + k.quantumLeft);
  }

  /** At boot one tick is the quantum of every task. */
  lemma BootIsFair(free: seq<int>)
    ensures Fair(Boot(free), DEFAULT_QUANTUM)
  {
  }
}
