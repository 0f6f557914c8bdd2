/**
 The scheduler as the kernel runs it: task structures in an array, queues and thread lists as rings
 of links, and methods that update them in place. Every method is proved to do what the function of
 the same operation in KernelModel says.
 */
module KernelCode {
  import opened Links
  import opened KernelModel
  import opened Placement
  import opened Sequences
  import opened Endings
  import opened KernelRuns

  /** The four heads follow the n queue entries; only heads carry entries, and only of tasks. */
  ghost predicate QueueShape(lists: Lists, n: int) {
    && (forall h :: n <= h < n + 4 ==> h in lists)
    && (forall h :: h in lists && !(n <= h < n + 4) ==> lists[h] == [])
    && (forall h, x :: h in lists && x in lists[h] ==> 0 <= x < n)
  }

  /** The threads heads follow the n thread_list entries. */
  ghost predicate MemberShape(lists: Lists, n: int) {
    && (forall h :: h in lists && !(n <= h < 2 * n) ==> lists[h] == [])
    && (forall h, x :: h in lists && x in lists[h] ==> 0 <= x < n)
  }

  /** Removing an entry by its position is removing it by its value. */
  lemma {:induction false} WithoutIsMinus(s: seq<int>, k: nat)
    requires k < |s| && NoDuplicates(s)
    ensures Without(s, k) == Minus(s, s[k])
  {
    if k == 0 {
      MinusAbsent(s[1..], s[0]);
    } else {
      assert s[1..][k - 1] == s[k];
      WithoutIsMinus(s[1..], k - 1);
      assert Without(s, k) == [s[0]] + Without(s[1..], k - 1);
    }
  }

  /** The contents of the kernel's memory as a value. */
  datatype Memory = Memory(
    n: nat, records: seq<Task>, queues: Lists, members: Lists,
    current: int, quantumLeft: int, nextPid: int, idle: int, idlePicks: nat)

  ghost predicate Shaped(r: Memory) {
    |r.records| == r.n && Disjoint(r.queues) && Disjoint(r.members) && QueueShape(r.queues, r.n) && MemberShape(r.members, r.n)
  }

  ghost function ListAt(lists: Lists, h: int): seq<int> {
    if h in lists then lists[h] else []
  }

  /** The live structures are those that are not on the free queue. */
  ghost predicate Live(r: Memory, t: int) {
    0 <= t < |r.records| && t !in ListAt(r.queues, r.n)
  }

  ghost function Records(r: Memory): map<int, Task> {
    map t | 0 <= t < |r.records| && Live(r, t) :: r.records[t]
  }

  ghost function ThreadLists(r: Memory): map<int, seq<int>> {
    map t | 0 <= t < |r.records| && Live(r, t) :: ListAt(r.members, r.n + t)
  }

  ghost function LinkedTasks(r: Memory): set<int> {
    set t | 0 <= t < |r.records| && Live(r, t) && Linked(r.members, t)
  }

  /** The kernel that the memory represents. */
  ghost function ViewOf(r: Memory): Kernel {
    Kernel(Below(r.n), Records(r), ListAt(r.queues, r.n), ListAt(r.queues, r.n + 1), ListAt(r.queues, r.n + 2),
           ListAt(r.queues, r.n + 3), ThreadLists(r), LinkedTasks(r),
           r.current, r.quantumLeft, r.nextPid, r.idle, r.idlePicks)
  }

  /** Memories with the same free queue, members and records but other waiting queues differ in those only. */
  lemma ViewWithQueues(r: Memory, q: Lists)
    requires ListAt(q, r.n) == ListAt(r.queues, r.n)
    ensures ViewOf(r.(queues := q)) ==
            ViewOf(r).(ready := ListAt(q, r.n + 1), blocked := ListAt(q, r.n + 2), ticking := ListAt(q, r.n + 3))
  {
    var r' := r.(queues := q);
    assert forall t :: Live(r', t) <==> Live(r, t);
    assert Records(r') == Records(r);
    assert ThreadLists(r') == ThreadLists(r);
    assert LinkedTasks(r') == LinkedTasks(r);
  }

  /** Writing a live record changes that record only. */
  lemma ViewWithRecord(r: Memory, t: int, task: Task)
    requires Live(r, t)
    ensures ViewOf(r.(records := r.records[t := task])) == ViewOf(r).(tasks := ViewOf(r).tasks[t := task])
  {
    var r' := r.(records := r.records[t := task]);
    assert forall u :: Live(r', u) <==> Live(r, u);
    assert Records(r') == Records(r)[t := task];
    assert ThreadLists(r') == ThreadLists(r);
    assert LinkedTasks(r') == LinkedTasks(r);
  }

  lemma ViewAfterUnqueue(r: Memory, t: int, h: int, k: nat)
    requires Shaped(r) && r.n < h < r.n + 4 && h in r.queues && k < |r.queues[h]| && r.queues[h][k] == t
    ensures t !in r.queues
    ensures var r' := r.(queues := Removed(r.queues, h, k));
            Shaped(r') && Loose(r'.queues, t) && ViewOf(r') == Dequeue(ViewOf(r), t)
  {
    hide Minus;
    RemovedKeepsDisjoint(r.queues, h, k);
    WithoutIsMinus(r.queues[h], k);
    var q := Removed(r.queues, h, k);
    forall g | r.n < g < r.n + 4
      ensures ListAt(q, g) == Minus(ListAt(r.queues, g), t)
    {
      if g != h {
        MinusAbsent(r.queues[g], t);
      }
    }
    ViewWithQueues(r, q);
  }

  lemma ViewAfterQueue(r: Memory, t: int, dest: Queue)
    requires Shaped(r) && Loose(r.queues, t) && Live(r, t)
    ensures HeadOf(r.n, dest) in r.queues
    ensures Shaped(r.(queues := Added(r.queues, HeadOf(r.n, dest), t)))
    ensures ViewOf(r.(queues := Added(r.queues, HeadOf(r.n, dest), t))) == Appended(ViewOf(r), t, dest)
  {
    hide Disjoint, QueueShape, MemberShape, Added, Loose, ListAt, Records, ThreadLists, LinkedTasks, Below, ViewOf;
    var h := HeadOf(r.n, dest);
    HeadExists(r, h);
    AddTailKeepsDisjoint(r.queues, h, t);
    AddKeepsQueueShape(r.queues, r.n, h, t);
    ViewOfGrown(r, Added(r.queues, h, t), t, dest);
  }

  lemma ViewOfGrown(r: Memory, q: Lists, t: int, dest: Queue)
    requires var h := HeadOf(r.n, dest);
             && ListAt(q, r.n) == GrownAt(r.queues, h, t, r.n) && ListAt(q, r.n + 1) == GrownAt(r.queues, h, t, r.n + 1)
             && ListAt(q, r.n + 2) == GrownAt(r.queues, h, t, r.n + 2) && ListAt(q, r.n + 3) == GrownAt(r.queues, h, t, r.n + 3)
    ensures ViewOf(r.(queues := q)) == Appended(ViewOf(r), t, dest)
  {
    hide Records, ThreadLists, LinkedTasks, Below;
    ViewWithQueues(r, q);
  }

  lemma GrownFree(r: Memory, t: int, dest: Queue)
    requires Shaped(r) && Loose(r.queues, t) && 0 <= t < r.n
    ensures HeadOf(r.n, dest) in r.queues && t != HeadOf(r.n, dest)
    ensures ListAt(Added(r.queues, HeadOf(r.n, dest), t), r.n) == ListAt(r.queues, r.n)
  {
    HeadExists(r, HeadOf(r.n, dest));
  }

  lemma HeadExists(r: Memory, h: int)
    requires Shaped(r) && r.n <= h < r.n + 4
    ensures h in r.queues
  {
  }

  /** The list at g after t joined the list at h. */
  ghost function GrownAt(lists: Lists, h: int, t: int, g: int): seq<int> {
    if g == h then ListAt(lists, g) + [t] else ListAt(lists, g)
  }

  lemma AddKeepsQueueShape(lists: Lists, n: nat, h: int, t: int)
    requires QueueShape(lists, n) && n <= h < n + 4 && Loose(lists, t) && 0 <= t < n
    ensures QueueShape(Added(lists, h, t), n)
    ensures var q := Added(lists, h, t);
            && ListAt(q, n) == GrownAt(lists, h, t, n) && ListAt(q, n + 1) == GrownAt(lists, h, t, n + 1)
            && ListAt(q, n + 2) == GrownAt(lists, h, t, n + 2) && ListAt(q, n + 3) == GrownAt(lists, h, t, n + 3)
  {
    var q := Added(lists, h, t);
    forall g, x | g in q && x in q[g]
      ensures 0 <= x < n
    {
      assert x == t || x in lists[g];
    }
  }

  /** A task of the view has its record in the array. */
  lemma LiveRecord(r: Memory, t: int)
    requires t in ViewOf(r).tasks
    ensures Live(r, t) && ViewOf(r).tasks[t] == r.records[t]
  {
  }

  function HeadOf(n: nat, dest: Queue): int {
    match dest
    case ToReady => n + 1
    case ToBlocked => n + 2
    case ToTick => n + 3
  }

  function Appended(k: Kernel, t: int, dest: Queue): Kernel {
    match dest
    case ToReady => k.(ready := k.ready + [t])
    case ToBlocked => k.(blocked := k.blocked + [t])
    case ToTick => k.(ticking := k.ticking + [t])
  }

  /** Where an updated task goes: to the end of a queue, or to the processor. */
  datatype Destination = Processor | On(queue: Queue)

  function Updated(k: Kernel, t: int, dest: Destination): Kernel
    requires t in k.tasks
  {
    match dest
    case Processor => Run(k, t)
    case On(queue) => Enqueue(k, t, queue)
  }

  /** The task is on a queue exactly if it is not running. */
  ghost predicate Consistent(k: Kernel, t: int) {
    t in k.tasks && (k.tasks[t].status != Running <==> t in k.ready || t in k.blocked || t in k.ticking)
  }

  lemma PlacedIsConsistent(k: Kernel, out: set<int>, t: int)
    requires Placed(k, out) && t in k.tasks
    ensures Consistent(k, t)
  {
  }

  lemma NotQueuedIsLoose(r: Memory, t: int)
    requires Shaped(r) && Live(r, t)
    requires t !in ViewOf(r).ready && t !in ViewOf(r).blocked && t !in ViewOf(r).ticking
    ensures Loose(r.queues, t)
  {
    forall h | h in r.queues
      ensures t !in r.queues[h]
    {
    }
  }

  lemma ViewWithCpu(r: Memory, current: int, quantumLeft: int, idlePicks: nat)
    ensures ViewOf(r.(current := current, quantumLeft := quantumLeft, idlePicks := idlePicks)) ==
            ViewOf(r).(current := current, quantumLeft := quantumLeft, idlePicks := idlePicks)
  {
    var r' := r.(current := current, quantumLeft := quantumLeft, idlePicks := idlePicks);
    assert Records(r') == Records(r);
    assert ThreadLists(r') == ThreadLists(r);
    assert LinkedTasks(r') == LinkedTasks(r);
  }

  /** Waking the first waiter first makes no difference. */
  lemma WakeOne(k: Kernel, out: set<int>)
    requires Placed(k, out) && k.ticking != []
    ensures k.ticking[0] in k.tasks && k.tasks[k.ticking[0]].status == Blocked && Consistent(k, k.ticking[0])
    ensures WakeTicking(Enqueue(k, k.ticking[0], ToReady)) == WakeTicking(k)
    ensures |Enqueue(k, k.ticking[0], ToReady).ticking| < |k.ticking|
    ensures Placed(Enqueue(k, k.ticking[0], ToReady), out)
  {
    hide NoDuplicates, Minus;
    var t := k.ticking[0];
    assert t in k.ticking;
    MinusAbsent(k.ready, t);
    MinusAbsent(k.blocked, t);
    HeadLeaves(k.ticking);
    var k' := Enqueue(k, t, ToReady);
    assert k.ticking == [t] + k.ticking[1..];
    assert k'.ready + k'.ticking == k.ready + k.ticking;
    assert WakeTicking(k').tasks == WakeTicking(k).tasks;
    EnqueueKeepsPlaced(k, out, t, ToReady);
    assert out - {t} == out;
  }

  lemma NobodyToWake(k: Kernel)
    requires k.ticking == []
    ensures WakeTicking(k) == k
  {
    assert WakeTicking(k).tasks == k.tasks;
  }

  class KernelState {
    const n: nat
    const tasks: array<Task>
    const queues: LinkMemory
    const members: LinkMemory
    var current: int
    var quantumLeft: int
    var nextPid: int
    var idle: int
    ghost var idlePicks: nat

    /** Static memory before boot: all links null. */
    constructor (size: nat)
      ensures n == size && tasks.Length == size && fresh(tasks) && queues.next.Length == size + 4 && members.next.Length == 2 * size
      ensures fresh(queues) && fresh(queues.next) && fresh(queues.prev) && fresh(members) && fresh(members.next) && fresh(members.prev)
      ensures queues != members && queues.next != members.next && queues.next != members.prev
      ensures queues.prev != members.next && queues.prev != members.prev
      ensures queues.Valid() && members.Valid() && queues.lists == map[] && members.lists == map[] && members.copied == {}
      ensures idlePicks == 0 && nextPid == 1
    {
      n := size;
      tasks := new Task[size](_ => IDLE);
      queues := new LinkMemory(size + 4);
      members := new LinkMemory(2 * size);
      current, quantumLeft, nextPid, idle := 0, 0, 1, 0;
      idlePicks := 0;
    }

    ghost function Contents(): Memory
      reads this, tasks, queues, members
    {
      Memory(n, tasks[..], queues.lists, members.lists, current, quantumLeft, nextPid, idle, idlePicks)
    }

    ghost function View(): Kernel
      reads this, tasks, queues, members
    {
      ViewOf(Contents())
    }

    ghost predicate Valid()
      reads this, tasks, queues, queues.next, queues.prev, members, members.next, members.prev
    {
      && tasks.Length == n && queues.next.Length == n + 4 && members.next.Length == 2 * n
      && queues != members
      && queues.next != members.next && queues.next != members.prev
      && queues.prev != members.next && queues.prev != members.prev
      && queues.Valid() && members.Valid() && Shaped(Contents())
    }

    // Queues

    /** Unlinks a task from the queue it is on. */
    method Unqueue(t: int)
      requires Valid() && (t in View().ready || t in View().blocked || t in View().ticking)
      modifies queues, queues.next, queues.prev
      ensures Valid() && Loose(queues.lists, t)
      ensures Contents() == old(Contents()).(queues := queues.lists)
      ensures View() == Dequeue(old(View()), t)
    {
      hide Disjoint, QueueShape, MemberShape, WellFormed, Loose, Dequeue, Records, ThreadLists, LinkedTasks;
      ghost var r := Contents();
      ghost var h := if t in View().ready then n + 1 else if t in View().blocked then n + 2 else n + 3;
      ghost var k :| 0 <= k < |queues.lists[h]| && queues.lists[h][k] == t;
      ViewAfterUnqueue(r, t, h, k);
      queues.ListDel(t, h, k);
    }

    /** Puts a task that is on no queue at the end of one. */
    method QueueUp(t: int, queue: Queue)
      requires Valid() && t in View().tasks && Loose(queues.lists, t)
      modifies queues, queues.next, queues.prev
      ensures Valid() && View() == Appended(old(View()), t, queue)
      ensures Contents() == old(Contents()).(queues := queues.lists) && ListAt(queues.lists, n) == old(ListAt(queues.lists, n))
    {
      hide Disjoint, QueueShape, MemberShape, WellFormed, Loose, Records, ThreadLists, LinkedTasks, Added, ViewOf;
      LiveRecord(Contents(), t);
      ViewAfterQueue(Contents(), t, queue);
      GrownFree(Contents(), t, queue);
      hide ListAt, Appended;
      queues.ListAddTail(t, HeadOf(n, queue));
    }

    method UpdateProcessState(t: int, dest: Destination)
      requires Valid() && Consistent(View(), t)
      modifies tasks, queues, queues.next, queues.prev
      ensures Valid() && View() == Updated(old(View()), t, dest)
      ensures members.lists == old(members.lists) && members.copied == old(members.copied)
    {
      hide Disjoint, QueueShape, MemberShape, WellFormed, Loose, Records, ThreadLists, LinkedTasks, Minus;
      LeaveQueue(t);
      match dest {
        case On(queue) =>
          QueueUp(t, queue);
          SetStatusOf(t, if queue == ToReady then Ready else Blocked);
        case Processor =>
          SetStatusOf(t, Running);
      }
    }

    /** A task that is not running is taken off its queue. */
    method LeaveQueue(t: int)
      requires Valid() && Consistent(View(), t)
      modifies queues, queues.next, queues.prev
      ensures Valid() && t in old(View()).tasks && Loose(queues.lists, t)
      ensures View() == if old(View()).tasks[t].status != Running then Dequeue(old(View()), t) else old(View())
    {
      hide Disjoint, QueueShape, MemberShape, WellFormed, Loose, Records, ThreadLists, LinkedTasks, Minus;
      LiveRecord(Contents(), t);
      if tasks[t].status != Running {
        Unqueue(t);
      } else {
        NotQueuedIsLoose(Contents(), t);
      }
    }

    method SetStatusOf(t: int, status: Status)
      requires Valid() && t in View().tasks
      modifies tasks
      ensures Valid() && View() == SetStatus(old(View()), t, status)
    {
      hide Disjoint, QueueShape, MemberShape, WellFormed;
      ViewWithRecord(Contents(), t, tasks[t].(status := status));
      tasks[t] := tasks[t].(status := status);
      assert Contents() == old(Contents()).(records := old(tasks[..])[t := tasks[t]]);
    }

    // The round-robin scheduler

    method SchedNextRr()
      requires Valid() && Vacant(View())
      modifies this`current, this`quantumLeft, this`idlePicks, tasks, queues, queues.next, queues.prev
      ensures Valid() && View() == SchedNext(old(View()))
      ensures members.lists == old(members.lists) && members.copied == old(members.copied)
    {
      hide Disjoint, QueueShape, MemberShape, WellFormed, Records, ThreadLists, LinkedTasks, Below;
      hide NoDuplicates, Minus;
      HeadExists(Contents(), n + 1);
      LiveRecord(Contents(), idle);
      var next := idle;
      var empty := queues.ListEmpty(n + 1);
      if !empty {
        next := queues.ListFirst(n + 1);
        assert next in View().ready;
        PlacedIsConsistent(View(), Fresh(View()), next);
        LiveRecord(Contents(), next);
        UpdateProcessState(next, Processor);
        LiveRecord(Contents(), next);
      }
      ghost var picks := if empty then idlePicks + 1 else idlePicks;
      ViewWithCpu(Contents(), next, tasks[next].quantum, picks);
      quantumLeft := tasks[next].quantum;
      current := next;
      idlePicks := picks;
    }

    method WakeAll(ghost out: set<int>)
      requires Valid() && Placed(View(), out)
      modifies tasks, queues, queues.next, queues.prev
      ensures Valid() && View() == WakeTicking(old(View()))
      ensures members.lists == old(members.lists) && members.copied == old(members.copied)
    {
      hide Disjoint, QueueShape, MemberShape, WellFormed, Records, ThreadLists, LinkedTasks, Below, Placed, WakeTicking, Enqueue, Consistent;
      HeadExists(Contents(), n + 3);
      var empty := queues.ListEmpty(n + 3);
      while !empty
        invariant Valid() && Placed(View(), out)
        invariant n + 3 in queues.lists && (empty <==> View().ticking == [])
        invariant WakeTicking(View()) == old(WakeTicking(View()))
        invariant members.lists == old(members.lists)
        decreases |View().ticking|
      {
        ghost var before := View();
        var first := queues.ListFirst(n + 3);
        WakeOne(before, out);
        UpdateProcessState(first, On(ToReady));
        HeadExists(Contents(), n + 3);
        empty := queues.ListEmpty(n + 3);
      }
      NobodyToWake(View());
    }

    method NeedsSchedRr() returns (needed: bool)
      requires Valid() && current in View().tasks
      modifies this`quantumLeft
      ensures Valid() && (needed, View()) == NeedsSched(old(View()))
    {
      hide Disjoint, QueueShape, MemberShape, WellFormed, Records, ThreadLists, LinkedTasks, Below;
      HeadExists(Contents(), n + 1);
      LiveRecord(Contents(), current);
      needed := tasks[current].status == Blocked;
      if quantumLeft <= 0 {
        ViewWithCpu(Contents(), current, tasks[current].quantum, idlePicks);
        quantumLeft := tasks[current].quantum;
        var empty := queues.ListEmpty(n + 1);
        if !empty {
          needed := true;
        }
      }
    }

    method SchedulerRr()
      requires Valid() && (Dispatched(View()) || (Vacant(View()) && current in View().blocked))
      modifies this`current, this`quantumLeft, this`idlePicks, tasks, queues, queues.next, queues.prev
      ensures Valid() && View() == Scheduler(old(View()))
      ensures members.lists == old(members.lists) && members.copied == old(members.copied)
    {
      hide Disjoint, QueueShape, MemberShape, WellFormed, Records, ThreadLists, LinkedTasks, Below;
      hide Placed, WakeTicking, Rescheduled, CanReschedule, Fresh;
      ghost var k := View();
      ghost var out := if Dispatched(k) then Fresh(k) + {k.current} else Fresh(k);
      WakeFacts(k, out);
      ViewWithCpu(Contents(), current, quantumLeft - 1, idlePicks);
      quantumLeft := quantumLeft - 1;
      WakeAll(out);
      Reschedule(out);
    }

    method Reschedule(ghost out: set<int>)
      requires Valid() && CanReschedule(View(), out)
      modifies this`current, this`quantumLeft, this`idlePicks, tasks, queues, queues.next, queues.prev
      ensures Valid() && View() == Rescheduled(old(View()))
      ensures members.lists == old(members.lists) && members.copied == old(members.copied)
    {
      hide Disjoint, QueueShape, MemberShape, WellFormed, Records, ThreadLists, LinkedTasks, Below;
      hide Placed, Enqueue, Vacant, SchedNext, Consistent;
      RescheduleFacts(View(), out);
      var needed := NeedsSchedRr();
      if needed {
        LiveRecord(Contents(), current);
        if tasks[current].status != Blocked {
          UpdateProcessState(current, On(ToReady));
        }
        SchedNextRr();
      }
    }

    // System calls

    method SysBlock()
      requires Valid() && Dispatched(View()) && current != idle
      modifies this`current, this`quantumLeft, this`idlePicks, tasks, queues, queues.next, queues.prev
      ensures Valid() && View() == Block(old(View()))
      ensures members.lists == old(members.lists) && members.copied == old(members.copied)
    {
      hide Disjoint, QueueShape, MemberShape, WellFormed, Records, ThreadLists, LinkedTasks, Below;
      hide Placed, Enqueue, Scheduler, Consistent;
      BlockFacts(View());
      LiveRecord(Contents(), current);
      if tasks[current].pending == 0 {
        UpdateProcessState(current, On(ToBlocked));
        SchedulerRr();
      } else {
        SetPending(current, tasks[current].pending - 1);
      }
    }

    method SysWaitForTick()
      requires Valid() && Dispatched(View()) && current != idle
      modifies this`current, this`quantumLeft, this`idlePicks, tasks, queues, queues.next, queues.prev
      ensures Valid() && View() == WaitForTick(old(View()))
      ensures members.lists == old(members.lists) && members.copied == old(members.copied)
    {
      hide Disjoint, QueueShape, MemberShape, WellFormed, Records, ThreadLists, LinkedTasks, Below;
      hide Placed, Enqueue, SchedNext, Consistent, Vacant;
      BlockFacts(View());
      UpdateProcessState(current, On(ToTick));
      SchedNextRr();
    }

    /** The effect on the child that the search through the caller's children has found. */
    method SysUnblock(child: int)
      requires Valid() && Dispatched(View()) && child in View().tasks
      modifies tasks, queues, queues.next, queues.prev
      ensures Valid() && View() == Unblock(old(View()), child)
      ensures members.lists == old(members.lists) && members.copied == old(members.copied)
    {
      hide Disjoint, QueueShape, MemberShape, WellFormed, Records, ThreadLists, LinkedTasks, Below;
      hide Enqueue;
      LiveRecord(Contents(), child);
      PlacedIsConsistent(View(), Fresh(View()) + {current}, child);
      hide Placed, Consistent;
      if tasks[child].status == Blocked {
        UpdateProcessState(child, On(ToReady));
      } else {
        SetPending(child, tasks[child].pending + 1);
      }
    }

    method SetPending(t: int, pending: int)
      requires Valid() && t in View().tasks
      modifies tasks
      ensures Valid()
      ensures View() == old(View()).(tasks := old(View()).tasks[t := old(View()).tasks[t].(pending := pending)])
    {
      hide Disjoint, QueueShape, MemberShape, WellFormed;
      ViewWithRecord(Contents(), t, tasks[t].(pending := pending));
      tasks[t] := tasks[t].(pending := pending);
      assert Contents() == old(Contents()).(records := old(tasks[..])[t := tasks[t]]);
    }
  }

  /** What blocking calls rely on. */
  lemma BlockFacts(k: Kernel)
    requires Dispatched(k) && k.current != k.idle
    ensures k.current in k.tasks && Consistent(k, k.current)
    ensures var queued := Enqueue(k, k.current, ToBlocked);
            Vacant(queued) && queued.current == k.current && queued.current in queued.blocked
    ensures Vacant(Enqueue(k, k.current, ToTick))
  {
    hide NoDuplicates, Minus;
    var out := Fresh(k) + {k.current};
    EnqueueKeepsPlaced(k, out, k.current, ToBlocked);
    EnqueueKeepsPlaced(k, out, k.current, ToTick);
    assert out - {k.current} == Fresh(k);
  }

  /** The view shows the processor's registers as they are. */
  lemma CpuOf(r: Memory)
    ensures ViewOf(r).current == r.current && ViewOf(r).quantumLeft == r.quantumLeft && ViewOf(r).idle == r.idle
    ensures ViewOf(r).nextPid == r.nextPid
  {
  }

  /** What the scheduler relies on when it wakes tasks. */
  lemma WakeFacts(k: Kernel, out: set<int>)
    requires Dispatched(k) || (Vacant(k) && k.current in k.blocked)
    requires out == if Dispatched(k) then Fresh(k) + {k.current} else Fresh(k)
    ensures k.current in k.tasks
    ensures var ticked := k.(quantumLeft := k.quantumLeft - 1);
            && Placed(ticked, out) && CanReschedule(WakeTicking(ticked), out)
  {
    var ticked := k.(quantumLeft := k.quantumLeft - 1);
    PlacedIgnoresQuantum(k, out, k.quantumLeft - 1, k.current);
    WakeKeepsOthers(ticked, out, k.current);
    WakeKeepsPlaced(ticked, out);
  }

  ghost predicate CanReschedule(k: Kernel, out: set<int>) {
    && Placed(k, out) && k.idlePicks <= 1 && k.current in k.tasks
    && if k.current in k.blocked then out == Fresh(k) else out == Fresh(k) + {k.current} && k.current !in Fresh(k)
  }

  /** What the scheduler relies on when it switches. */
  lemma RescheduleFacts(k: Kernel, out: set<int>)
    requires CanReschedule(k, out)
    ensures k.current in k.tasks
    ensures var (needed, k') := NeedsSched(k);
            && k.current in k'.tasks && k'.current == k.current
            && (k'.tasks[k.current].status != Blocked ==> Consistent(k', k.current) && Vacant(Enqueue(k', k.current, ToReady)))
            && (k'.tasks[k.current].status == Blocked ==> Vacant(k'))
  {
    hide NoDuplicates;
    var (needed, k') := NeedsSched(k);
    PlacedIgnoresQuantum(k, out, k'.quantumLeft, k.current);
    if k'.tasks[k.current].status != Blocked {
      EnqueueKeepsPlaced(k', out, k.current, ToReady);
      assert out - {k.current} == Fresh(k');
    }
  }
}
