/**
 Creating and ending threads and processes keeps the organisation of processes.
 */
module Lifecycle {
  import opened Sequences
  import opened KernelModel
  import opened Placement
  import opened Processes
  import opened StackRegions

  // A new process

  lemma NewProcessIsLed(k: Kernel, t: Task)
    requires Led(k) && k.free != [] && k.free[0] !in k.tasks && t.master == k.free[0]
    ensures Led(Spawned(k, t))
  {
    var k' := Spawned(k, t);
    forall x | x in k'.tasks
      ensures BelongsTo(k', x, k'.tasks[x].master)
    {
      if x != k.free[0] {
        assert BelongsTo(k, x, k.tasks[x].master);
      }
    }
  }

  lemma NewProcessIsListed(k: Kernel, t: Task)
    requires Led(k) && Listed(k) && k.free != [] && k.free[0] !in k.tasks && t.master == k.free[0] && t.threadCount == 1
    ensures Listed(Spawned(k, t))
  {
    hide BelongsTo;
    var k' := Spawned(k, t);
    forall m | m in k'.threads
      ensures NoDuplicates(k'.threads[m])
      ensures IsMaster(k', m) ==> k'.tasks[m].threadCount == 1 + |k'.threads[m]|
      ensures forall x :: x in k'.threads[m] ==> x in k'.tasks && x != m && k'.tasks[x].master == m
    {
      if m != k.free[0] {
        assert m in k.threads && k'.threads[m] == k.threads[m];
      }
    }
  }

  lemma NewProcessIsNumbered(k: Kernel, t: Task)
    requires Numbered(k) && k.free != [] && k.free[0] !in k.tasks && t.pid == k.nextPid + 1
    ensures Numbered(Spawned(k.(nextPid := k.nextPid + 1), t))
  {
  }

  lemma NewProcessIsSlotted(k: Kernel, t: Task)
    requires Led(k) && Slotted(k) && k.free != [] && k.free[0] !in k.tasks && t.master == k.free[0]
    requires SlotOf(t) == 0 && t.slots == INITIAL_SLOTS
    ensures Slotted(Spawned(k, t))
  {
    var k', id := Spawned(k, t), k.free[0];
    forall x | x in k'.tasks && x != k.idle
      ensures OwnsSlot(k', x, k'.tasks[x].master)
    {
      if x != id {
        assert OwnsSlot(k, x, k.tasks[x].master);
      }
    }
    forall m, i | IsMaster(k', m) && m != k.idle && 0 <= i < |k'.tasks[m].slots| && k'.tasks[m].slots[i]
      ensures SlotOwned(k', m, i)
    {
      if m == id {
        assert i == 0;
        assert id in k'.tasks && k'.tasks[id].master == m && SlotOf(k'.tasks[id]) == i;
      } else {
        assert IsMaster(k, m) && SlotOwned(k, m, i);
        var x :| x in k.tasks && k.tasks[x].master == m && SlotOf(k.tasks[x]) == i;
        assert x in k'.tasks && k'.tasks[x].master == m && SlotOf(k'.tasks[x]) == i;
      }
    }
    forall x, u | x in k'.tasks && u in k'.tasks && x != u && x != k.idle && k'.tasks[x].master == k'.tasks[u].master
      ensures SlotOf(k'.tasks[x]) != SlotOf(k'.tasks[u])
    {
      assert x != id ==> BelongsTo(k, x, k.tasks[x].master);
      assert u != id ==> BelongsTo(k, u, k.tasks[u].master);
    }
  }

  lemma NewProcessIsStacked(k: Kernel, t: Task)
    requires Led(k) && Stacked(k) && k.free != [] && k.free[0] !in k.tasks && t.master == k.free[0]
    requires t.regionPages != 0 ==> t.regionPages == REGION_PAGES && IsRegion(t.regionStart)
    ensures Stacked(Spawned(k, t))
  {
    var k', id := Spawned(k, t), k.free[0];
    forall x, u | x in k'.tasks && u in k'.tasks && x != u && k'.tasks[x].master == k'.tasks[u].master
      ensures x != id && u != id
    {
      assert x != id ==> BelongsTo(k, x, k.tasks[x].master);
      assert u != id ==> BelongsTo(k, u, k.tasks[u].master);
    }
  }

  lemma ForkKeepsOrganised(k: Kernel, memory: ForkMemory)
    requires Organised(k) && Accounted(k) && k.current in k.tasks
    ensures Organised(Fork(k, memory))
  {
    hide Led, Listed, Slotted, Stacked, Numbered;
    if k.free != [] {
      FirstFreeIsNotLive(k);
      var p := k.nextPid + 1;
      var k1 := k.(nextPid := p);
      SchedulingKeepsOrganised(k, k.(free := Rotated(k.free)));
      SchedulingKeepsOrganised(k, k.(free := Rotated(k.free), nextPid := p));
      SchedulingKeepsOrganised(k, k1);
      var parent := k.tasks[k.current];
      var stack := if parent.regionPages != 0 then (STACK_BASE_PAGE, REGION_PAGES) else (0, 0);
      var t := Task(p, p * 10, Ready, parent.quantum, 0, k.free[0], 1, INITIAL_SLOTS, stack.0, stack.1);
      NewProcessIsLed(k1, t);
      NewProcessIsListed(k1, t);
      NewProcessIsNumbered(k, t);
      NewProcessIsSlotted(k1, t);
      NewProcessIsStacked(k1, t);
    }
  }

  // A new thread

  /** The first free structure becomes a thread of m, whose record becomes master'. */
  function ThreadAdded(k: Kernel, m: int, master': Task, t: Task): Kernel
    requires k.free != [] && m in k.threads
  {
    Spawned(k.(tasks := k.tasks[m := master'], threads := k.threads[m := k.threads[m] + [k.free[0]]]), t)
  }

  ghost predicate Joins(k: Kernel, m: int, master': Task, t: Task) {
    && k.free != [] && k.free[0] !in k.tasks && IsMaster(k, m) && m in k.threads && m != k.idle
    && t.master == m && t.pid == k.tasks[m].pid
    && master'.master == m && master'.pid == k.tasks[m].pid && master'.tid == k.tasks[m].tid
    && master'.threadCount == k.tasks[m].threadCount + 1
    && master'.regionStart == k.tasks[m].regionStart && master'.regionPages == k.tasks[m].regionPages
  }

  lemma NewThreadIsLed(k: Kernel, m: int, master': Task, t: Task)
    requires Led(k) && Joins(k, m, master', t)
    ensures Led(ThreadAdded(k, m, master', t))
  {
    var k' := ThreadAdded(k, m, master', t);
    forall x | x in k'.tasks
      ensures BelongsTo(k', x, k'.tasks[x].master)
    {
      if x != k.free[0] {
        assert BelongsTo(k, x, k.tasks[x].master);
      }
    }
  }

  lemma NewThreadIsListed(k: Kernel, m: int, master': Task, t: Task)
    requires Listed(k) && Joins(k, m, master', t) && k.tasks.Keys == k.threads.Keys
    ensures Listed(ThreadAdded(k, m, master', t))
  {
    var k', id := ThreadAdded(k, m, master', t), k.free[0];
    forall n | n in k'.threads
      ensures NoDuplicates(k'.threads[n])
      ensures IsMaster(k', n) ==> k'.tasks[n].threadCount == 1 + |k'.threads[n]|
      ensures forall x :: x in k'.threads[n] ==> x in k'.tasks && x != n && k'.tasks[x].master == n
    {
      if n == m {
        assert id !in k.threads[m];
        AppendNoDuplicates(k.threads[m], [id]);
      } else if n != id {
        assert n in k.threads && k'.threads[n] == k.threads[n];
      }
    }
  }

  lemma NewThreadIsNumbered(k: Kernel, m: int, master': Task, t: Task)
    requires Numbered(k) && Joins(k, m, master', t)
    ensures Numbered(ThreadAdded(k, m, master', t))
  {
    var k' := ThreadAdded(k, m, master', t);
    assert forall n :: IsMaster(k', n) ==> IsMaster(k, n) && k'.tasks[n].pid == k.tasks[n].pid;
  }

  lemma NewThreadIsSlotted(k: Kernel, m: int, master': Task, t: Task, slot: nat)
    requires Led(k) && Slotted(k) && Joins(k, m, master', t)
    requires slot < |k.tasks[m].slots| && !k.tasks[m].slots[slot] && SlotOf(t) == slot
    requires master'.slots == k.tasks[m].slots[slot := true]
    ensures Slotted(ThreadAdded(k, m, master', t))
  {
    NewThreadOwnsSlot(k, m, master', t, slot);
    NewSlotIsOwned(k, m, master', t, slot);
    NewSlotIsUnique(k, m, master', t, slot);
  }

  lemma NewThreadOwnsSlot(k: Kernel, m: int, master': Task, t: Task, slot: nat)
    requires Led(k) && Slotted(k) && Joins(k, m, master', t)
    requires slot < |k.tasks[m].slots| && !k.tasks[m].slots[slot] && SlotOf(t) == slot
    requires master'.slots == k.tasks[m].slots[slot := true]
    ensures var k' := ThreadAdded(k, m, master', t); forall x :: x in k'.tasks && x != k.idle ==> OwnsSlot(k', x, k'.tasks[x].master)
  {
    var k', id := ThreadAdded(k, m, master', t), k.free[0];
    assert OwnsSlot(k, m, m);
    forall x | x in k'.tasks && x != k.idle
      ensures OwnsSlot(k', x, k'.tasks[x].master)
    {
      if x != id {
        assert OwnsSlot(k, x, k.tasks[x].master);
      }
    }
  }

  lemma NewSlotIsOwned(k: Kernel, m: int, master': Task, t: Task, slot: nat)
    requires Led(k) && Slotted(k) && Joins(k, m, master', t)
    requires slot < |k.tasks[m].slots| && !k.tasks[m].slots[slot] && SlotOf(t) == slot
    requires master'.slots == k.tasks[m].slots[slot := true]
    ensures var k' := ThreadAdded(k, m, master', t);
            forall n, i :: IsMaster(k', n) && n != k.idle && 0 <= i < |k'.tasks[n].slots| && k'.tasks[n].slots[i] ==> SlotOwned(k', n, i)
  {
    var k', id := ThreadAdded(k, m, master', t), k.free[0];
    forall n, i | IsMaster(k', n) && n != k.idle && 0 <= i < |k'.tasks[n].slots| && k'.tasks[n].slots[i]
      ensures SlotOwned(k', n, i)
    {
      if n == m && i == slot {
        assert id in k'.tasks && k'.tasks[id].master == n && SlotOf(k'.tasks[id]) == i;
      } else {
        assert IsMaster(k, n) && SlotOwned(k, n, i);
        var x :| x in k.tasks && k.tasks[x].master == n && SlotOf(k.tasks[x]) == i;
        assert x in k'.tasks && k'.tasks[x].master == n && SlotOf(k'.tasks[x]) == i;
      }
    }
  }

  lemma NewSlotIsUnique(k: Kernel, m: int, master': Task, t: Task, slot: nat)
    requires Led(k) && Slotted(k) && Joins(k, m, master', t)
    requires slot < |k.tasks[m].slots| && !k.tasks[m].slots[slot] && SlotOf(t) == slot
    requires master'.slots == k.tasks[m].slots[slot := true]
    ensures var k' := ThreadAdded(k, m, master', t);
            forall x, u :: x in k'.tasks && u in k'.tasks && x != u && x != k.idle && k'.tasks[x].master == k'.tasks[u].master ==>
              SlotOf(k'.tasks[x]) != SlotOf(k'.tasks[u])
  {
    var k', id := ThreadAdded(k, m, master', t), k.free[0];
    assert OwnsSlot(k, m, m);
    forall x, u | x in k'.tasks && u in k'.tasks && x != u && x != k.idle && k'.tasks[x].master == k'.tasks[u].master
      ensures SlotOf(k'.tasks[x]) != SlotOf(k'.tasks[u])
    {
      assert x != id ==> OwnsSlot(k, x, k.tasks[x].master);
      assert u != id && u != k.idle ==> OwnsSlot(k, u, k.tasks[u].master);
      assert BelongsTo(k, k.idle, k.tasks[k.idle].master);
    }
  }

  lemma NewThreadIsStacked(k: Kernel, m: int, master': Task, t: Task)
    requires Led(k) && Stacked(k) && Joins(k, m, master', t)
    requires t.regionPages == REGION_PAGES && IsRegion(t.regionStart)
    requires forall x :: x in k.tasks && k.tasks[x].master == m && k.tasks[x].regionPages != 0 ==>
               k.tasks[x].regionStart != t.regionStart
    ensures Stacked(ThreadAdded(k, m, master', t))
  {
  }

  /** `count` and `slots` are what the copy of the caller's structure left in the new one. */
  lemma NewThreadIsOrganised(k: Kernel, m: int, slot: nat, region: int, count: int, slots: seq<bool>)
    requires Organised(k) && IsMaster(k, m) && m in k.threads && m != k.idle && k.free != [] && k.free[0] !in k.tasks
    requires slot < |k.tasks[m].slots| && !k.tasks[m].slots[slot]
    requires IsRegion(region)
    requires forall t :: t in k.tasks && k.tasks[t].master == m && k.tasks[t].regionPages != 0 ==>
               k.tasks[t].regionStart != region
    ensures var master := k.tasks[m];
            Organised(ThreadAdded(k, m,
                                  master.(slots := master.slots[slot := true], threadCount := master.threadCount + 1),
                                  Task(master.pid, master.pid * 10 + slot, Ready, DEFAULT_QUANTUM, 0, m,
                                       count, slots, region, REGION_PAGES)))
  {
    hide Led, Listed, Slotted, Stacked, Numbered;
    var master := k.tasks[m];
    var t := Task(master.pid, master.pid * 10 + slot, Ready, DEFAULT_QUANTUM, 0, m, count, slots, region, REGION_PAGES);
    var master' := master.(slots := master.slots[slot := true], threadCount := master.threadCount + 1);
    NewThreadIsLed(k, m, master', t);
    LedMeansSameKeys(k);
    NewThreadIsListed(k, m, master', t);
    NewThreadIsNumbered(k, m, master', t);
    NewThreadIsSlotted(k, m, master', t, slot);
    NewThreadIsStacked(k, m, master', t);
  }

  lemma CreateThreadKeepsOrganised(k: Kernel, mapped: bool)
    requires Organised(k) && Accounted(k) && k.current in k.tasks && k.current != k.idle
    requires HasProcess(k, k.tasks[k.current].master)
    ensures Organised(CreateThread(k, mapped))
  {
    hide Led, Listed, Slotted, Stacked, Numbered, FindRegion, FirstClear, RegionInUse, IsRegion;
    var m := k.tasks[k.current].master;
    ProcessOf(k, k.current);
    var slot := FirstClear(k.tasks[m].slots, 0);
    if k.free != [] {
      FirstFreeIsNotLive(k);
      SchedulingKeepsOrganised(k, k.(free := Rotated(k.free)));
      if slot >= 0 {
        FreeRegionExists(k, m, slot);
        NewThreadIsOrganised(k, m, slot, FindRegion(k, m, STACK_BASE_PAGE), k.tasks[k.current].threadCount, k.tasks[k.current].slots);
      }
    }
  }

  lemma LedMeansSameKeys(k: Kernel)
    requires Led(k)
    ensures k.tasks.Keys == k.threads.Keys
  {
  }

  /** A live task other than idle belongs to a process with ten slots. */
  lemma ProcessOf(k: Kernel, t: int)
    requires Organised(k) && t in k.tasks && t != k.idle
    ensures var m := k.tasks[t].master;
            && IsMaster(k, m) && m != k.idle && HasProcess(k, m) && |k.tasks[m].slots| == MAX_TIDS
            && BelongsTo(k, t, m)
  {
    var m := k.tasks[t].master;
    assert BelongsTo(k, t, m);
    assert OwnsSlot(k, t, m);
  }
}
