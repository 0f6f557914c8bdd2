/**
 Where every task is: in each reachable state exactly one task runs, the others are on exactly
 one queue each, and status and queue agree.
 */
module Placement {
  import opened Sequences
  import opened KernelModel

  /** The idle task counts as running until it is dispatched for the first time. */
  function Fresh(k: Kernel): set<int> {
    if k.idlePicks == 0 then {k.idle} else {}
  }

  /**
   Every live task outside `out` is on exactly one queue and has the status of that queue;
   the tasks in `out` have running status and are on no queue.
   */
  ghost predicate Placed(k: Kernel, out: set<int>) {
    && out <= k.tasks.Keys
    && NoDuplicates(k.ready) && NoDuplicates(k.blocked) && NoDuplicates(k.ticking)
    && (forall t :: t in k.ready ==> t in k.tasks && k.tasks[t].status == Ready)
    && (forall t :: t in k.blocked ==> t in k.tasks && k.tasks[t].status == Blocked && t !in k.ticking)
    && (forall t :: t in k.ticking ==> t in k.tasks && k.tasks[t].status == Blocked)
    && (forall t :: t in k.tasks ==> (k.tasks[t].status == Running <==> t in out))
    && (forall t :: t in k.tasks && k.tasks[t].status == Ready ==> t in k.ready)
    && (forall t :: t in k.tasks && k.tasks[t].status == Blocked ==> t in k.blocked || t in k.ticking)
    && k.idle in k.tasks && k.idle !in k.blocked && k.idle !in k.ticking
  }

  /** The free queue holds exactly the structures that are not live. */
  ghost predicate Accounted(k: Kernel) {
    && NoDuplicates(k.free)
    && (forall t :: t in k.free ==> t !in k.tasks)
    && k.tasks.Keys + Elements(k.free) == k.ids
  }

  /** Between two kernel entries: exactly the current task runs. */
  ghost predicate Dispatched(k: Kernel) {
    Placed(k, Fresh(k) + {k.current}) && k.current !in Fresh(k) && k.idlePicks <= 1
  }

  /** The current task has been queued or freed and nobody runs yet. */
  ghost predicate Vacant(k: Kernel) {
    Placed(k, Fresh(k)) && k.idlePicks <= 1
  }

  lemma AppendNoDuplicates(a: seq<int>, b: seq<int>)
    requires forall x :: x in a ==> x !in b
    ensures NoDuplicates(a) && NoDuplicates(b) ==> NoDuplicates(a + b)
    ensures |b| <= 1 ==> NoDuplicates(b)
  {
    if NoDuplicates(a) && NoDuplicates(b) {
      forall i, j | 0 <= i < j < |a + b|
        ensures (a + b)[i] != (a + b)[j]
      {
        if i < |a| <= j {
          assert a[i] in a && b[j - |a|] in b;
        }
      }
    }
  }

  lemma EnqueueKeepsPlaced(k: Kernel, out: set<int>, t: int, dest: Queue)
    requires Placed(k, out) && t in k.tasks && (dest != ToReady ==> t != k.idle)
    ensures Placed(Enqueue(k, t, dest), out - {t})
  {
    hide NoDuplicates, Minus;
    var off := if k.tasks[t].status != Running then Dequeue(k, t) else k;
    AppendNoDuplicates(off.ready, [t]);
    AppendNoDuplicates(off.blocked, [t]);
    AppendNoDuplicates(off.ticking, [t]);
  }

  lemma EnqueueFrame(k: Kernel, t: int, dest: Queue)
    requires t in k.tasks
    ensures var k' := Enqueue(k, t, dest);
            && k'.idle == k.idle && k'.idlePicks == k.idlePicks && k'.current == k.current
            && k'.tasks.Keys == k.tasks.Keys
  {
  }

  lemma WakeKeepsPlaced(k: Kernel, out: set<int>)
    requires Placed(k, out)
    ensures Placed(WakeTicking(k), out)
  {
    hide NoDuplicates;
    AppendNoDuplicates(k.ready, k.ticking);
    AppendNoDuplicates([], []);
  }

  lemma RunKeepsPlaced(k: Kernel, out: set<int>, t: int)
    requires Placed(k, out) && t in k.tasks
    ensures Placed(Run(k, t), out + {t})
  {
    hide NoDuplicates, Minus;
  }

  /** The ready queue is empty only if the idle task has never run: it is then picked for the first time. */
  lemma SchedNextDispatches(k: Kernel)
    requires Vacant(k)
    ensures Dispatched(SchedNext(k))
    ensures SchedNext(k).idlePicks == k.idlePicks <==> k.ready != []
  {
    if k.ready != [] {
      RunKeepsPlaced(k, Fresh(k), k.ready[0]);
    } else {
      assert k.tasks[k.idle].status == Running;
    }
  }

  lemma PlacedIgnoresQuantum(k: Kernel, out: set<int>, q: int, c: int)
    requires Placed(k, out)
    ensures Placed(k.(quantumLeft := q, current := c), out)
  {
  }

  /** Being woken does not change a task that does not wait for a tick. */
  lemma WakeKeepsOthers(k: Kernel, out: set<int>, t: int)
    requires Placed(k, out) && (t in out || t in k.blocked)
    ensures t in k.tasks && t !in k.ticking && t in WakeTicking(k).tasks
    ensures WakeTicking(k).tasks[t] == k.tasks[t]
  {
  }

  /** The clock tick, and the end of a blocking call whose caller is already on the blocked queue. */
  lemma SchedulerDispatches(k: Kernel)
    requires (Vacant(k) && k.current in k.blocked) || Dispatched(k)
    ensures Dispatched(Scheduler(k))
  {
    hide Rescheduled, NoDuplicates;
    var out := if Dispatched(k) then Fresh(k) + {k.current} else Fresh(k);
    var ticked := k.(quantumLeft := k.quantumLeft - 1);
    PlacedIgnoresQuantum(k, out, k.quantumLeft - 1, k.current);
    WakeKeepsOthers(ticked, out, k.current);
    WakeKeepsPlaced(ticked, out);
    RescheduleDispatches(WakeTicking(ticked), out);
  }

  lemma RescheduleDispatches(k: Kernel, out: set<int>)
    requires Placed(k, out) && k.idlePicks <= 1 && k.current in k.tasks
    requires if k.current in k.blocked then out == Fresh(k) else out == Fresh(k) + {k.current} && k.current !in Fresh(k)
    ensures Dispatched(Rescheduled(k))
  {
    hide Enqueue, SchedNext, NoDuplicates;
    var (needed, k') := NeedsSched(k);
    PlacedIgnoresQuantum(k, out, k'.quantumLeft, k.current);
    if needed {
      if k'.tasks[k.current].status != Blocked {
        EnqueueKeepsPlaced(k', out, k.current, ToReady);
        var queued := Enqueue(k', k.current, ToReady);
        EnqueueFrame(k', k.current, ToReady);
        assert out - {k.current} == Fresh(queued);
        SchedNextDispatches(queued);
      } else {
        SchedNextDispatches(k');
      }
    }
  }

  /** Changing records without touching their status moves nobody. */
  lemma PlacedIgnoresRecords(k: Kernel, out: set<int>, tasks': map<int, Task>)
    requires Placed(k, out) && tasks'.Keys == k.tasks.Keys
    requires forall t :: t in k.tasks ==> tasks'[t].status == k.tasks[t].status
    ensures Placed(k.(tasks := tasks'), out)
  {
  }

  lemma PlacedIgnoresThreads(
    k: Kernel, out: set<int>, free': seq<int>, threads': map<int, seq<int>>, linked': set<int>, pid: int)
    requires Placed(k, out)
    ensures Placed(k.(free := free', threads := threads', linked := linked', nextPid := pid), out)
  {
  }

  lemma BlockDispatches(k: Kernel)
    requires Dispatched(k) && k.current != k.idle
    ensures Dispatched(Block(k))
  {
    hide NoDuplicates, Minus, Scheduler;
    var out := Fresh(k) + {k.current};
    var t := k.tasks[k.current];
    if t.pending == 0 {
      EnqueueKeepsPlaced(k, out, k.current, ToBlocked);
      assert out - {k.current} == Fresh(k);
      SchedulerDispatches(Enqueue(k, k.current, ToBlocked));
    } else {
      PendingKeepsDispatched(k, k.current, t.pending - 1);
    }
  }

  lemma WaitForTickDispatches(k: Kernel)
    requires Dispatched(k) && k.current != k.idle
    ensures Dispatched(WaitForTick(k))
  {
    hide NoDuplicates, Minus;
    EnqueueKeepsPlaced(k, Fresh(k) + {k.current}, k.current, ToTick);
    assert Fresh(k) + {k.current} - {k.current} == Fresh(k);
    SchedNextDispatches(Enqueue(k, k.current, ToTick));
  }

  lemma BlockedIsIn(k: Kernel, t: int)
    requires Dispatched(k) && t in k.tasks
    ensures k.tasks[t].status == Blocked ==> t !in Fresh(k) + {k.current}
  {
  }

  lemma PendingKeepsDispatched(k: Kernel, t: int, pending: int)
    requires Dispatched(k) && t in k.tasks
    ensures Dispatched(k.(tasks := k.tasks[t := k.tasks[t].(pending := pending)]))
  {
    hide NoDuplicates;
    PlacedIgnoresRecords(k, Fresh(k) + {k.current}, k.tasks[t := k.tasks[t].(pending := pending)]);
    hide Placed;
  }

  lemma UnblockDispatches(k: Kernel, child: int)
    requires Dispatched(k) && child in k.tasks && child != k.idle
    ensures Dispatched(Unblock(k, child))
  {
    hide NoDuplicates, Minus, Enqueue, Placed;
    var out := Fresh(k) + {k.current};
    var t := k.tasks[child];
    if t.status == Blocked {
      BlockedIsIn(k, child);
      EnqueueKeepsPlaced(k, out, child, ToReady);
      EnqueueFrame(k, child, ToReady);
      assert out - {child} == out;
    } else {
      PendingKeepsDispatched(k, child, t.pending + 1);
    }
  }

  lemma SpawnKeepsPlaced(k: Kernel, out: set<int>, t: Task)
    requires Placed(k, out) && k.free != [] && k.free[0] !in k.tasks && t.status == Ready
    ensures Placed(Spawned(k, t), out)
  {
    AppendNoDuplicates(k.ready, [k.free[0]]);
    hide NoDuplicates;
  }

  lemma FirstFreeIsNotLive(k: Kernel)
    requires Accounted(k) && k.free != []
    ensures k.free[0] !in k.tasks
  {
    var t := k.free[0];
    assert t in k.free;
  }

  lemma ForkDispatches(k: Kernel, memory: ForkMemory)
    requires Dispatched(k) && Accounted(k)
    ensures Dispatched(Fork(k, memory))
  {
    hide Placed, NoDuplicates;
    var out := Fresh(k) + {k.current};
    if k.free != [] {
      PlacedIgnoresThreads(k, out, k.free, k.threads, k.linked, k.nextPid + 1);
      PlacedIgnoresThreads(k, out, Rotated(k.free), k.threads, k.linked, k.nextPid);
      PlacedIgnoresThreads(k, out, Rotated(k.free), k.threads, k.linked, k.nextPid + 1);
      FirstFreeIsNotLive(k);
      SpawnAll(k.(nextPid := k.nextPid + 1), out);
    }
  }

  lemma SpawnAll(k: Kernel, out: set<int>)
    requires Placed(k, out) && k.free != [] && k.free[0] !in k.tasks
    ensures forall t: Task :: t.status == Ready ==> Placed(Spawned(k, t), out)
  {
    forall t: Task | t.status == Ready
      ensures Placed(Spawned(k, t), out)
    {
      SpawnKeepsPlaced(k, out, t);
    }
  }

  lemma CreateThreadDispatches(k: Kernel, mapped: bool)
    requires Dispatched(k) && Accounted(k) && k.current in k.tasks && HasProcess(k, k.tasks[k.current].master)
    ensures Dispatched(CreateThread(k, mapped))
  {
    hide NoDuplicates, FirstClear, FindRegion, Placed;
    var out := Fresh(k) + {k.current};
    var m := k.tasks[k.current].master;
    var master := k.tasks[m];
    var slot := FirstClear(master.slots, 0);
    if k.free != [] {
      PlacedIgnoresThreads(k, out, Rotated(k.free), k.threads, k.linked, k.nextPid);
      if slot >= 0 {
        var master' := master.(slots := master.slots[slot := true], threadCount := master.threadCount + 1);
        var tasks', threads' := k.tasks[m := master'], k.threads[m := k.threads[m] + [k.free[0]]];
        PlacedIgnoresRecords(k, out, tasks');
        PlacedIgnoresThreads(k.(tasks := tasks'), out, k.free, threads', k.linked, k.nextPid);
        assert tasks'.Keys == k.tasks.Keys;
        FirstFreeIsNotLive(k);
        SpawnAll(k.(tasks := tasks', threads := threads'), out);
      }
    }
  }

  /** A running task ceases to exist. */
  lemma FreeKeepsPlaced(k: Kernel, out: set<int>, t: int)
    requires Placed(k, out) && t in out && t != k.idle
    ensures Placed(k.(tasks := k.tasks - {t}), out - {t})
  {
  }

  /** A waiting task ceases to exist. */
  lemma RemoveKeepsPlaced(k: Kernel, out: set<int>, t: int)
    requires Placed(k, out) && t !in out && t != k.idle
    ensures Placed(Dequeue(k, t).(tasks := k.tasks - {t}), out)
  {
    hide Minus, NoDuplicates;
  }

  lemma {:induction false} RemoveAllKeepsPlaced(k: Kernel, out: set<int>, gone: seq<int>)
    requires Placed(k, out) && k.idle !in gone && forall t :: t in gone ==> t !in out
    ensures Placed(k.(tasks := k.tasks - Elements(gone), ready := MinusAll(k.ready, gone),
                      blocked := MinusAll(k.blocked, gone), ticking := MinusAll(k.ticking, gone)), out)
    decreases |gone|
  {
    hide Placed, Minus;
    if gone == [] {
      assert k.tasks - Elements(gone) == k.tasks;
      assert k.(tasks := k.tasks) == k;
    } else {
      var t, before := gone[|gone| - 1], gone[..|gone| - 1];
      RemoveAllKeepsPlaced(k, out, before);
      var k1 := k.(tasks := k.tasks - Elements(before), ready := MinusAll(k.ready, before),
                   blocked := MinusAll(k.blocked, before), ticking := MinusAll(k.ticking, before));
      RemoveKeepsPlaced(k1, out, t);
      assert Elements(gone) == Elements(before) + {t};
      assert k1.tasks - {t} == k.tasks - Elements(gone);
    }
  }

  lemma EndedIsVacant(k: Kernel)
    requires Dispatched(k) && k.current != k.idle && k.current in k.threads
    requires k.idle !in k.threads[k.current] && k.current !in k.threads[k.current]
    ensures Vacant(Ended(k))
  {
    hide MinusAll, NoDuplicates;
    var out := Fresh(k) + {k.current};
    var gone := k.threads[k.current];
    RemoveAllKeepsPlaced(k, out, gone);
    var k1 := k.(tasks := k.tasks - Elements(gone), ready := MinusAll(k.ready, gone),
                 blocked := MinusAll(k.blocked, gone), ticking := MinusAll(k.ticking, gone));
    FreeKeepsPlaced(k1, out, k.current);
    assert out - {k.current} == Fresh(k);
    assert k1.tasks - {k.current} == Ended(k).tasks;
    PlacedIgnoresThreads(k1.(tasks := Ended(k).tasks), Fresh(k), Ended(k).free, Ended(k).threads, Ended(k).linked, k.nextPid);
  }

  /** The current task is freed after other records, list contents and links have changed. */
  lemma LeaveIsVacant(k: Kernel, tasks': map<int, Task>, threads': map<int, seq<int>>, linked': set<int>)
    requires Dispatched(k) && k.current != k.idle && tasks'.Keys == k.tasks.Keys
    requires forall t :: t in k.tasks ==> tasks'[t].status == k.tasks[t].status
    ensures Vacant(k.(tasks := tasks' - {k.current}, free := k.free + [k.current], threads := threads', linked := linked'))
  {
    hide Placed, NoDuplicates;
    var out := Fresh(k) + {k.current};
    PlacedIgnoresRecords(k, out, tasks');
    FreeKeepsPlaced(k.(tasks := tasks'), out, k.current);
    assert out - {k.current} == Fresh(k);
    PlacedIgnoresThreads(k.(tasks := tasks' - {k.current}), Fresh(k), k.free + [k.current], threads', linked', k.nextPid);
  }

  lemma ThreadEndedIsVacant(k: Kernel)
    requires Dispatched(k) && k.current != k.idle && k.current in k.tasks
    requires k.tasks[k.current].master in k.tasks && k.tasks[k.current].master in k.threads
    ensures Vacant(ThreadEnded(k))
  {
    hide Placed, NoDuplicates, Minus, Vacant, Dispatched;
    var t := k.current;
    var m := k.tasks[t].master;
    var master' := k.tasks[m].(slots := FreeSlot(k.tasks[m].slots, k.tasks[t].tid - k.tasks[m].pid * 10),
                               threadCount := k.tasks[m].threadCount - 1);
    LeaveIsVacant(k, k.tasks[m := master'], ThreadEnded(k).threads, ThreadEnded(k).linked);
  }

  lemma HandedOverIsVacant(k: Kernel)
    requires Dispatched(k) && k.current != k.idle && k.current in k.tasks && k.current in k.threads
    requires k.threads[k.current] != [] && k.threads[k.current][0] in k.tasks
    ensures Vacant(HandedOver(k))
  {
    hide Placed, NoDuplicates, Vacant, Dispatched;
    var m := k.current;
    var master := k.tasks[m];
    var n, rest := k.threads[m][0], k.threads[m][1..];
    var heir := k.tasks[n].(master := n, threadCount := master.threadCount - 1,
                            slots := FreeSlot(master.slots, SlotOf(master)));
    LeaveIsVacant(k, Adopted(k.tasks, rest, n)[n := heir], HandedOver(k).threads, HandedOver(k).linked);
  }

  // The free queue

  lemma AccountedFrame(k: Kernel, k': Kernel)
    requires Accounted(k) && k'.ids == k.ids && k'.free == k.free && k'.tasks.Keys == k.tasks.Keys
    ensures Accounted(k')
  {
  }

  lemma RotateKeepsAccounted(k: Kernel)
    requires Accounted(k) && k.free != []
    ensures Accounted(k.(free := Rotated(k.free)))
  {
    var free' := Rotated(k.free);
    assert k.free == [k.free[0]] + k.free[1..];
    assert Elements(free') == Elements(k.free);
  }

  lemma SpawnKeepsAccounted(k: Kernel, t: Task)
    requires Accounted(k) && k.free != []
    ensures Accounted(Spawned(k, t))
  {
    var id := k.free[0];
    assert k.free == [id] + k.free[1..];
    assert Elements(k.free) == {id} + Elements(k.free[1..]);
    assert id !in k.free[1..];
  }

  lemma FreeKeepsAccounted(k: Kernel, gone: seq<int>)
    requires Accounted(k) && NoDuplicates(gone) && forall t :: t in gone ==> t in k.tasks
    ensures Accounted(k.(tasks := k.tasks - Elements(gone), free := k.free + gone))
  {
    AppendNoDuplicates(k.free, gone);
    assert Elements(k.free + gone) == Elements(k.free) + Elements(gone);
    assert (k.tasks - Elements(gone)).Keys == k.tasks.Keys - Elements(gone);
    forall t | t in Elements(gone)
      ensures t in k.tasks.Keys
    {
      assert t in gone;
    }
    assert k.tasks.Keys - Elements(gone) + (Elements(k.free) + Elements(gone)) == k.tasks.Keys + Elements(k.free);
  }
}
