/**
 The extended kernel's tasks, queues and threads as a value, and its system calls and clock
 tick as functions on it.

 `tasks` holds the live task structures only: what a freed structure still contains plays no
 role, because it is overwritten before it is used again.
 */
module KernelModel {
  import opened Sequences

  const DEFAULT_QUANTUM := 1
  const MAX_TIDS := 10
  const TOTAL_PAGES := 1024
  const REGION_PAGES := 8
  const STACK_BASE_PAGE := 256 + 24 + 30

  datatype Status = Running | Ready | Blocked

  datatype Task = Task(
    pid: int, tid: int, status: Status, quantum: int, pending: int,
    master: int, threadCount: int, slots: seq<bool>,
    regionStart: int, regionPages: int)

  datatype Queue = ToReady | ToBlocked | ToTick

  /**
   `ids` are all task structures there are.
   `threads[t]` is the list headed by the `threads` field of t, and `linked` are the tasks whose
   own `thread_list` entry is not null. `idlePicks` counts how often the scheduler fell back to
   the idle task because no task was ready.
   */
  datatype Kernel = Kernel(
    ids: set<int>, tasks: map<int, Task>,
    free: seq<int>, ready: seq<int>, blocked: seq<int>, ticking: seq<int>,
    threads: map<int, seq<int>>, linked: set<int>,
    current: int, quantumLeft: int, nextPid: int, idle: int, idlePicks: nat)

  // Queues

  /** s without x. */
  function Minus(s: seq<int>, x: int): (r: seq<int>)
    ensures forall y :: y in r <==> y in s && y != x
    ensures NoDuplicates(s) ==> NoDuplicates(r)
    ensures |r| <= |s|
  {
    if s == [] then []
    else if s[0] == x then Minus(s[1..], x)
    else
      var rest := Minus(s[1..], x);
      assert NoDuplicates(s) ==> NoDuplicates(s[1..]) && s[0] !in s[1..];
      assert forall i :: 0 < i < |rest| + 1 ==> ([s[0]] + rest)[i] == rest[i - 1] && rest[i - 1] in rest;
      [s[0]] + rest
  }

  function SetStatus(k: Kernel, t: int, status: Status): Kernel
    requires t in k.tasks
  {
    k.(tasks := k.tasks[t := k.tasks[t].(status := status)])
  }

  /** Takes a task off whatever queue it is on. */
  function Dequeue(k: Kernel, t: int): Kernel {
    k.(ready := Minus(k.ready, t), blocked := Minus(k.blocked, t), ticking := Minus(k.ticking, t))
  }

  /** A task that is not running leaves its queue and joins another one, at the end. */
  function Enqueue(k: Kernel, t: int, dest: Queue): Kernel
    requires t in k.tasks
  {
    var off := if k.tasks[t].status != Running then Dequeue(k, t) else k;
    match dest
    case ToReady => SetStatus(off.(ready := off.ready + [t]), t, Ready)
    case ToBlocked => SetStatus(off.(blocked := off.blocked + [t]), t, Blocked)
    case ToTick => SetStatus(off.(ticking := off.ticking + [t]), t, Blocked)
  }

  /** The task becomes the running one. */
  function Run(k: Kernel, t: int): Kernel
    requires t in k.tasks
  {
    SetStatus(if k.tasks[t].status != Running then Dequeue(k, t) else k, t, Running)
  }

  /** Dispatches the first ready task, or the idle task if there is none. */
  function SchedNext(k: Kernel): Kernel
    requires k.idle in k.tasks
    requires forall t :: t in k.ready ==> t in k.tasks
  {
    if k.ready != [] then
      var t := k.ready[0];
      Run(k, t).(current := t, quantumLeft := k.tasks[t].quantum)
    else
      k.(current := k.idle, quantumLeft := k.tasks[k.idle].quantum, idlePicks := k.idlePicks + 1)
  }

  /** Everybody who waits for a tick becomes ready, in order. */
  function WakeTicking(k: Kernel): Kernel {
    k.(tasks := map t | t in k.tasks :: if t in k.ticking then k.tasks[t].(status := Ready) else k.tasks[t],
       ready := k.ready + k.ticking,
       ticking := [])
  }

  /** Whether the scheduler has to switch; an expired quantum is renewed on the way. */
  function NeedsSched(k: Kernel): (bool, Kernel)
    requires k.current in k.tasks
  {
    var expired := k.quantumLeft <= 0;
    var k' := if expired then k.(quantumLeft := k.tasks[k.current].quantum) else k;
    ((expired && k.ready != []) || k.tasks[k.current].status == Blocked, k')
  }

  /** Switches if that is needed; a caller that is not blocked joins the ready queue first. */
  function Rescheduled(k: Kernel): Kernel
    requires k.current in k.tasks && k.idle in k.tasks && forall t :: t in k.ready ==> t in k.tasks
  {
    var (needed, k') := NeedsSched(k);
    if !needed then k'
    else SchedNext(if k'.tasks[k.current].status != Blocked then Enqueue(k', k.current, ToReady) else k')
  }

  function Scheduler(k: Kernel): Kernel
    requires k.current in k.tasks && k.idle in k.tasks
    requires (forall t :: t in k.ready ==> t in k.tasks) && (forall t :: t in k.ticking ==> t in k.tasks)
  {
    Rescheduled(WakeTicking(k.(quantumLeft := k.quantumLeft - 1)))
  }

  // Blocking

  function Block(k: Kernel): Kernel
    requires k.current in k.tasks && k.idle in k.tasks
    requires (forall t :: t in k.ready ==> t in k.tasks) && (forall t :: t in k.ticking ==> t in k.tasks)
  {
    var t := k.tasks[k.current];
    if t.pending == 0 then Scheduler(Enqueue(k, k.current, ToBlocked))
    else k.(tasks := k.tasks[k.current := t.(pending := t.pending - 1)])
  }

  function WaitForTick(k: Kernel): Kernel
    requires k.current in k.tasks && k.idle in k.tasks
    requires forall t :: t in k.ready ==> t in k.tasks
  {
    SchedNext(Enqueue(k, k.current, ToTick))
  }

  /** The caller unblocks the child it found. */
  function Unblock(k: Kernel, child: int): Kernel
    requires child in k.tasks
  {
    var t := k.tasks[child];
    if t.status == Blocked then Enqueue(k, child, ToReady)
    else k.(tasks := k.tasks[child := t.(pending := t.pending + 1)])
  }

  // Thread identifiers and stack regions

  const INITIAL_SLOTS: seq<bool> := [true] + [false, false, false, false, false, false, false, false, false]

  /** The first clear slot at or after i, or -1. */
  function FirstClear(slots: seq<bool>, i: nat): (r: int)
    requires i <= |slots|
    ensures r == -1 || i <= r < |slots|
    ensures r == -1 ==> forall j :: i <= j < |slots| ==> slots[j]
    ensures r != -1 ==> !slots[r] && forall j :: i <= j < r ==> slots[j]
    decreases |slots| - i
  {
    if i == |slots| then -1 else if !slots[i] then i else FirstClear(slots, i + 1)
  }

  function FreeSlot(slots: seq<bool>, slot: int): (r: seq<bool>)
    ensures |r| == |slots|
    ensures forall j :: 0 <= j < |slots| ==> r[j] == (slots[j] && j != slot)
  {
    if 0 <= slot < |slots| then slots[slot := false] else slots
  }

  function SlotOf(t: Task): int {
    t.tid - t.pid * 10
  }

  /** m is live and so are the threads on its list. */
  ghost predicate HasProcess(k: Kernel, m: int) {
    m in k.tasks && m in k.threads && forall t :: t in k.threads[m] ==> t in k.tasks
  }

  predicate RegionOverlaps(t: Task, start: int, pages: int) {
    && t.regionPages != 0
    && !(start + pages <= t.regionStart || start >= t.regionStart + t.regionPages)
  }

  predicate RegionInUse(k: Kernel, m: int, start: int)
    requires HasProcess(k, m)
  {
    || RegionOverlaps(k.tasks[m], start, REGION_PAGES)
    || exists t :: t in k.threads[m] && RegionOverlaps(k.tasks[t], start, REGION_PAGES)
  }

  /** The first unused stack region of a process at or after start, or -1. */
  function FindRegion(k: Kernel, m: int, start: nat): (r: int)
    requires HasProcess(k, m)
    ensures r == -1 || (start <= r && r + REGION_PAGES <= TOTAL_PAGES && !RegionInUse(k, m, r))
    decreases TOTAL_PAGES - start
  {
    if start + REGION_PAGES > TOTAL_PAGES then -1
    else if !RegionInUse(k, m, start) then start
    else FindRegion(k, m, start + REGION_PAGES)
  }

  /** The search looks at the regions in order: those before the one it finds are all in use. */
  lemma {:induction false} FirstRegion(k: Kernel, m: int, start: nat, i: nat)
    requires HasProcess(k, m) && start + (i + 1) * REGION_PAGES <= TOTAL_PAGES
    ensures var r := FindRegion(k, m, start);
            r == -1 || start + i * REGION_PAGES < r ==> RegionInUse(k, m, start + i * REGION_PAGES)
    decreases i
  {
    if i > 0 && RegionInUse(k, m, start) {
      FirstRegion(k, m, start + REGION_PAGES, i - 1);
    }
  }

  // Creation

  const ENOMEM := 12
  const EAGAIN := 11

  /** What the frame allocator can still provide when fork asks for it. */
  datatype ForkMemory = Enough | NoDataFrames | NoStackFrames

  function Rotated(free: seq<int>): seq<int>
    requires free != []
  {
    free[1..] + [free[0]]
  }

  /** The first free structure becomes the ready task t. */
  function Spawned(k: Kernel, t: Task): Kernel
    requires k.free != []
  {
    var id := k.free[0];
    k.(tasks := k.tasks[id := t], free := k.free[1..], ready := k.ready + [id],
       threads := k.threads[id := []], linked := k.linked + {id})
  }

  function Fork(k: Kernel, memory: ForkMemory): Kernel
    requires k.current in k.tasks
  {
    var parent := k.tasks[k.current];
    if k.free == [] then k
    else if memory == NoDataFrames then k.(free := Rotated(k.free))
    else if memory == NoStackFrames && parent.regionPages != 0 then
      k.(free := Rotated(k.free), nextPid := k.nextPid + 1)
    else
      var child, pid := k.free[0], k.nextPid + 1;
      var stack := if parent.regionPages != 0 then (STACK_BASE_PAGE, REGION_PAGES) else (0, 0);
      Spawned(k.(nextPid := pid),
              Task(pid, pid * 10, Ready, parent.quantum, 0, child, 1, INITIAL_SLOTS, stack.0, stack.1))
  }

  /** What fork returns. */
  function ForkResult(k: Kernel, memory: ForkMemory): int
    requires k.current in k.tasks
  {
    if k.free == [] then -ENOMEM
    else if memory == NoDataFrames || (memory == NoStackFrames && k.tasks[k.current].regionPages != 0) then -EAGAIN
    else k.nextPid + 1
  }

  /** `mapped` tells whether the first stack page could be mapped. */
  function CreateThread(k: Kernel, mapped: bool): Kernel
    requires k.current in k.tasks && HasProcess(k, k.tasks[k.current].master)
  {
    var m := k.tasks[k.current].master;
    var master := k.tasks[m];
    var slot := FirstClear(master.slots, 0);
    if k.free == [] then k
    else if slot < 0 then k.(free := Rotated(k.free))
    else
      var region := FindRegion(k, m, STACK_BASE_PAGE);
      if region < 0 || !mapped then k.(free := Rotated(k.free))
      else
        var thread := k.free[0];
        var caller := k.tasks[k.current];
        var t := Task(master.pid, master.pid * 10 + slot, Ready, DEFAULT_QUANTUM, 0, m, caller.threadCount,
                      caller.slots, region, REGION_PAGES);
        var master' := master.(slots := master.slots[slot := true], threadCount := master.threadCount + 1);
        Spawned(k.(tasks := k.tasks[m := master'], threads := k.threads[m := k.threads[m] + [thread]]), t)
  }

  /** What the creation of a thread returns. */
  function CreateResult(k: Kernel, mapped: bool): int
    requires k.current in k.tasks && HasProcess(k, k.tasks[k.current].master)
  {
    var m := k.tasks[k.current].master;
    var slot := FirstClear(k.tasks[m].slots, 0);
    if k.free == [] || slot < 0 || FindRegion(k, m, STACK_BASE_PAGE) < 0 then -ENOMEM
    else if !mapped then -EAGAIN
    else k.tasks[m].pid * 10 + slot
  }

  // Termination

  /** s without the elements of gone. */
  function MinusAll(s: seq<int>, gone: seq<int>): (r: seq<int>)
    ensures forall y :: y in r <==> y in s && y !in gone
    ensures NoDuplicates(s) ==> NoDuplicates(r)
    ensures |r| <= |s|
    decreases |gone|
  {
    if gone == [] then s else Minus(MinusAll(s, gone[..|gone| - 1]), gone[|gone| - 1])
  }

  function Elements(s: seq<int>): set<int> {
    set x | x in s
  }

  /** The calling master ends its process with all threads. */
  function Exit(k: Kernel): Kernel
    requires k.current in k.threads && k.idle in k.tasks && k.idle != k.current && k.idle !in k.threads[k.current]
    requires forall t :: t in k.ready && t !in k.threads[k.current] ==> t in k.tasks && t != k.current
  {
    SchedNext(Ended(k))
  }

  /** Everything Exit does before it dispatches the next task. */
  function Ended(k: Kernel): Kernel
    requires k.current in k.threads
  {
    var gone := k.threads[k.current];
    var dead := Elements(gone) + {k.current};
    k.(tasks := k.tasks - dead, threads := k.threads - dead, linked := k.linked - dead,
       free := k.free + gone + [k.current],
       ready := MinusAll(k.ready, gone), blocked := MinusAll(k.blocked, gone), ticking := MinusAll(k.ticking, gone))
  }

  /** A thread other than the master ends. */
  function ThreadEnded(k: Kernel): Kernel
    requires k.current in k.tasks && k.tasks[k.current].master in k.tasks && k.tasks[k.current].master in k.threads
  {
    var t := k.current;
    var m := k.tasks[t].master;
    var master := k.tasks[m];
    var master' := master.(slots := FreeSlot(master.slots, k.tasks[t].tid - master.pid * 10),
                           threadCount := master.threadCount - 1);
    k.(tasks := k.tasks[m := master'] - {t}, threads := k.threads[m := Minus(k.threads[m], t)] - {t},
       linked := k.linked - {t}, free := k.free + [t])
  }

  function Adopted(tasks: map<int, Task>, threads: seq<int>, n: int): map<int, Task> {
    map t | t in tasks :: if t in threads then tasks[t].(master := n) else tasks[t]
  }

  /** The master ends and hands its role to the first of its threads. */
  function HandedOver(k: Kernel): Kernel
    requires k.current in k.tasks && k.current in k.threads && k.threads[k.current] != []
    requires k.threads[k.current][0] in k.tasks
  {
    var m := k.current;
    var master := k.tasks[m];
    var n, rest := k.threads[m][0], k.threads[m][1..];
    var heir := k.tasks[n].(master := n, threadCount := master.threadCount - 1,
                            slots := FreeSlot(master.slots, SlotOf(master)));
    k.(tasks := Adopted(k.tasks, rest, n)[n := heir] - {m}, threads := k.threads[n := rest] - {m},
       linked := k.linked - {m, n}, free := k.free + [m])
  }
}
