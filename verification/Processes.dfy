/**
 What threads, processes, identifiers and stack regions look like in every reachable state.
 */
module Processes {
  import opened Sequences
  import opened KernelModel

  predicate IsMaster(k: Kernel, t: int) {
    t in k.tasks && k.tasks[t].master == t
  }

  /** t is the master m of its process or one of the threads listed there. */
  ghost predicate BelongsTo(k: Kernel, t: int, m: int) {
    && t in k.tasks && IsMaster(k, m) && m in k.threads
    && k.tasks[t].pid == k.tasks[m].pid
    && (t != m ==> t in k.threads[m] && t in k.linked)
  }

  /** Every live thread points at the one master of its process and is listed there. */
  ghost predicate Led(k: Kernel) {
    && k.tasks.Keys == k.threads.Keys
    && (forall t :: t in k.tasks ==> BelongsTo(k, t, k.tasks[t].master))
    && IsMaster(k, k.idle)
  }

  /** A master lists its own threads only, each once, and counts them. */
  ghost predicate Listed(k: Kernel) {
    && (forall m :: m in k.threads ==> NoDuplicates(k.threads[m]))
    && (forall m, t :: m in k.threads && t in k.threads[m] ==> t in k.tasks && t != m && k.tasks[t].master == m)
    && (forall m :: m in k.threads && IsMaster(k, m) ==> k.tasks[m].threadCount == 1 + |k.threads[m]|)
    && k.idle in k.threads && k.threads[k.idle] == []
  }

  /** Processes have different identifiers, all issued by the counter. */
  ghost predicate Numbered(k: Kernel) {
    && (forall m, n :: IsMaster(k, m) && IsMaster(k, n) && m != n ==> k.tasks[m].pid != k.tasks[n].pid)
    && (forall t :: t in k.tasks ==> 0 <= k.tasks[t].pid <= k.nextPid)
    && k.idle in k.tasks && k.tasks[k.idle].pid == 0 && k.tasks[k.idle].tid == 0
  }

  /** The threads of a process own different slots of its master, and no other slot is in use. */
  ghost predicate Slotted(k: Kernel) {
    && (forall t :: t in k.tasks && t != k.idle ==>
          OwnsSlot(k, t, k.tasks[t].master))
    && (forall t, u :: t in k.tasks && u in k.tasks && t != u && t != k.idle && k.tasks[t].master == k.tasks[u].master ==>
          SlotOf(k.tasks[t]) != SlotOf(k.tasks[u]))
    && (forall m, i :: IsMaster(k, m) && m != k.idle && 0 <= i < |k.tasks[m].slots| && k.tasks[m].slots[i] ==>
          SlotOwned(k, m, i))
  }

  ghost predicate OwnsSlot(k: Kernel, t: int, m: int) {
    && t in k.tasks && m in k.tasks && |k.tasks[m].slots| == MAX_TIDS
    && 0 <= SlotOf(k.tasks[t]) < MAX_TIDS && k.tasks[m].slots[SlotOf(k.tasks[t])]
  }

  ghost predicate SlotOwned(k: Kernel, m: int, i: int) {
    exists t :: t in k.tasks && k.tasks[t].master == m && SlotOf(k.tasks[t]) == i
  }

  /** One of the ten regions that thread stacks may occupy. */
  predicate IsRegion(start: int) {
    STACK_BASE_PAGE <= start <= STACK_BASE_PAGE + 9 * REGION_PAGES && (start - STACK_BASE_PAGE) % REGION_PAGES == 0
  }

  /** Stack regions are aligned, among the first ten, and different within a process. */
  ghost predicate Stacked(k: Kernel) {
    && (forall t :: t in k.tasks && k.tasks[t].regionPages != 0 ==>
          k.tasks[t].regionPages == REGION_PAGES && IsRegion(k.tasks[t].regionStart))
    && (forall t, u :: t in k.tasks && u in k.tasks && t != u && k.tasks[t].master == k.tasks[u].master ==>
          k.tasks[t].regionPages == 0 || k.tasks[u].regionPages == 0 || k.tasks[t].regionStart != k.tasks[u].regionStart)
  }

  ghost predicate Organised(k: Kernel) {
    Led(k) && Listed(k) && Numbered(k) && Slotted(k) && Stacked(k)
  }

  /** t' differs from t at most in status and pending unblocks. */
  predicate SameButStatus(t: Task, t': Task) {
    t' == t.(status := t'.status, pending := t'.pending)
  }

  /** Scheduling does not touch the organisation of processes. */
  ghost predicate SameOrganisation(k: Kernel, k': Kernel) {
    && k'.tasks.Keys == k.tasks.Keys
    && (forall t :: t in k.tasks ==> SameButStatus(k.tasks[t], k'.tasks[t]))
    && k'.threads == k.threads && k'.linked == k.linked && k'.nextPid >= k.nextPid && k'.idle == k.idle
  }

  lemma SchedulingKeepsLed(k: Kernel, k': Kernel)
    requires Led(k) && SameOrganisation(k, k')
    ensures Led(k')
  {
    forall t | t in k'.tasks
      ensures BelongsTo(k', t, k'.tasks[t].master)
    {
      assert BelongsTo(k, t, k.tasks[t].master);
    }
  }

  lemma SchedulingKeepsListed(k: Kernel, k': Kernel)
    requires Listed(k) && SameOrganisation(k, k')
    ensures Listed(k')
  {
  }

  lemma SchedulingKeepsOwner(k: Kernel, k': Kernel, m: int, i: int)
    requires SlotOwned(k, m, i) && SameOrganisation(k, k')
    ensures SlotOwned(k', m, i)
  {
    var t :| t in k.tasks && k.tasks[t].master == m && SlotOf(k.tasks[t]) == i;
    assert t in k'.tasks && k'.tasks[t].master == m && SlotOf(k'.tasks[t]) == i;
  }

  lemma SchedulingKeepsOwning(k: Kernel, k': Kernel, t: int)
    requires t in k.tasks && OwnsSlot(k, t, k.tasks[t].master) && SameOrganisation(k, k')
    ensures OwnsSlot(k', t, k'.tasks[t].master)
  {
  }

  lemma SchedulingKeepsSlotted(k: Kernel, k': Kernel)
    requires Slotted(k) && SameOrganisation(k, k')
    ensures Slotted(k')
  {
    forall t | t in k'.tasks && t != k.idle
      ensures OwnsSlot(k', t, k'.tasks[t].master)
    {
      SchedulingKeepsOwning(k, k', t);
    }
    forall m, i | IsMaster(k', m) && m != k.idle && 0 <= i < |k'.tasks[m].slots| && k'.tasks[m].slots[i]
      ensures SlotOwned(k', m, i)
    {
      assert IsMaster(k, m);
      SchedulingKeepsOwner(k, k', m, i);
    }
    hide OwnsSlot, SlotOwned;
  }

  lemma SchedulingKeepsNumbered(k: Kernel, k': Kernel)
    requires Numbered(k) && SameOrganisation(k, k')
    ensures Numbered(k')
  {
    assert forall m :: IsMaster(k', m) <==> IsMaster(k, m);
  }

  lemma SchedulingKeepsStacked(k: Kernel, k': Kernel)
    requires Stacked(k) && SameOrganisation(k, k')
    ensures Stacked(k')
  {
  }

  lemma SchedulingKeepsOrganised(k: Kernel, k': Kernel)
    requires Organised(k) && SameOrganisation(k, k')
    ensures Organised(k')
  {
    hide Led, Listed, Numbered, Slotted, Stacked, SameOrganisation;
    SchedulingKeepsLed(k, k');
    SchedulingKeepsListed(k, k');
    SchedulingKeepsNumbered(k, k');
    SchedulingKeepsSlotted(k, k');
    SchedulingKeepsStacked(k, k');
  }
}
