/**
 How threads and processes end on the kernel's memory, and every run of the kernel on it.
 */
module KernelExits {
  import opened Links
  import opened KernelModel
  import opened Placement
  import opened Processes
  import opened Sequences
  import opened Endings
  import opened KernelRuns
  import opened KernelCode
  import opened KernelCalls

  lemma SchedNextFrame(k: Kernel)
    requires k.idle in k.tasks && forall t :: t in k.ready ==> t in k.tasks
    ensures SchedNext(k).free == k.free && SchedNext(k).tasks.Keys == k.tasks.Keys
  {
    hide Minus;
    FirstIsIn(k.ready);
  }

  lemma FreeShown(r: Memory)
    ensures ViewOf(r).free == ListAt(r.queues, r.n)
  {
  }

  method Dispatch(s: KernelState)
    requires Vacant(s.View()) && Whole(s)
    modifies s`current, s`quantumLeft, s`idlePicks, s.tasks, s.queues, s.queues.next, s.queues.prev
    ensures Whole(s) && s.View() == SchedNext(old(s.View()))
    ensures s.members.copied == old(s.members.copied)
  {
    hide QueueShape, MemberShape, Records, ThreadLists, LinkedTasks, Below, Tidy, Disjoint, WellFormed, Placed, SchedNext, HeadsReady, ViewOf;
    ghost var r := s.Contents();
    VacantCanDispatch(s.View());
    SchedNextFrame(s.View());
    s.SchedNextRr();
    FreeShown(r);
    FreeShown(s.Contents());
    TidyFrame(r, s.Contents());
  }

  /** The running task is on no queue. */
  lemma RunningIsLoose(r: Memory)
    requires Shaped(r) && Dispatched(ViewOf(r))
    ensures r.current in ViewOf(r).tasks && Loose(r.queues, r.current)
  {
    var k := ViewOf(r);
    CpuOf(r);
    LiveRecord(r, r.current);
    NotQueuedIsLoose(r, r.current);
  }

  /** What a thread other than the master relies on when it ends. */
  lemma LeaveFacts(k: Kernel)
    requires Inv(k) && k.current != k.idle && !IsMaster(k, k.current)
    ensures k.current in k.tasks && k.current in k.threads && k.threads[k.current] == []
    ensures var m := k.tasks[k.current].master;
            m in k.tasks && m != k.current && m in k.threads && k.current in k.threads[m] && |k.tasks[m].slots| == MAX_TIDS
  {
    CurrentIsLive(k);
    Lifecycle.ProcessOf(k, k.current);
    hide Dispatched, Slotted, Stacked, Numbered, Listed;
    if k.threads[k.current] != [] {
      ThreadsMakeMaster(k, k.current);
      assert false;
    }
  }

  lemma ThreadsMakeMaster(k: Kernel, t: int)
    requires Led(k) && Listed(k) && t in k.threads && k.threads[t] != []
    ensures IsMaster(k, t)
  {
    var x := k.threads[t][0];
    assert x in k.threads[t];
    assert BelongsTo(k, x, k.tasks[x].master);
  }

  /** The master's record after a thread with the given identifier has left. */
  ghost function Deserted(master: Task, tid: int): Task {
    master.(slots := FreeSlot(master.slots, tid - master.pid * 10), threadCount := master.threadCount - 1)
  }

  lemma EndedThreadView(k: Kernel, m: int)
    requires k.current in k.tasks && m == k.tasks[k.current].master && m in k.tasks && m in k.threads
    ensures var t := k.current;
            var k1 := k.(tasks := k.tasks[m := Deserted(k.tasks[m], k.tasks[t].tid)]);
            Freed(k1.(threads := k1.threads[m := Minus(k1.threads[m], t)], linked := k1.linked - {t}), t) == ThreadEnded(k)
  {
    hide Minus, FreeSlot;
    assert k.linked - {k.current} - {k.current} == k.linked - {k.current};
  }

  /** Takes the identifier and the count of a leaving thread off its master. */
  method Desert(s: KernelState, m: int, tid: int)
    requires m in s.View().tasks && |s.View().tasks[m].slots| == MAX_TIDS && Sound(s)
    modifies s.tasks
    ensures Sound(s) && s.members.lists == old(s.members.lists) && s.members.copied == old(s.members.copied) && s.queues.lists == old(s.queues.lists)
    ensures var k := old(s.View()); s.View() == k.(tasks := k.tasks[m := Deserted(k.tasks[m], tid)])
  {
    hide Sound, ViewOf;
    FreeTid(s, m, tid);
    var master := RecordOf(s, m);
    SetRecord(s, m, master.(threadCount := master.threadCount - 1));
  }

  method EndThread(s: KernelState)
    requires Inv(s.View()) && s.current != s.idle && !IsMaster(s.View(), s.current) && Whole(s)
    modifies s`current, s`quantumLeft, s`idlePicks, s.tasks, s.queues, s.queues.next, s.queues.prev, s.members, s.members.next, s.members.prev
    ensures s.members.copied <= old(s.members.copied)
    ensures Whole(s) && CanLeave(old(s.View())) && Vacant(ThreadEnded(old(s.View()))) && s.View() == SchedNext(ThreadEnded(old(s.View())))
  {
    hide Inv, ViewOf, HeadsReady, HeadsKept, Deserted, Loose, Minus, FreeSlot, Vacant, Freed, SchedNext;
    ghost var k, lists := s.View(), s.members.lists;
    CpuOf(s.Contents());
    CurrentIsLoose(s);
    LeaveFacts(k);
    ThreadEndKeepsInv(k);
    var t := s.current;
    hide Sound;
    var thread := RecordOf(s, t);
    var m := thread.master;
    EndedThreadView(k, m);
    Desert(s, m, thread.tid);
    Leave(s, t, m);
    LooseIsNoMember(s.members.lists, t);
    PutFree(s, t);
    ThreadEndedKeys(k);
    HeadsStayReady(k.tasks.Keys, s.n, lists, s.members.lists);
    HeadsFewer(k.tasks.Keys, s.View().tasks.Keys, s.n, s.members.lists);
    Dispatch(s);
  }

  lemma ThreadEndedKeys(k: Kernel)
    requires CanLeave(k)
    ensures ThreadEnded(k).tasks.Keys <= k.tasks.Keys
  {
  }

  lemma CurrentIsLoose(s: KernelState)
    requires Inv(s.View()) && Sound(s)
    ensures Loose(s.queues.lists, s.current)
  {
    RunningIsLoose(s.Contents());
  }

  lemma LooseIsNoMember(lists: Lists, t: int)
    requires Loose(lists, t)
    ensures !Member(lists, t)
  {
  }

  // The end of a process

  /** After the first i threads of the current master are gone; `slots` are what is left of its identifiers. */
  ghost function PartlyEnded(k: Kernel, i: int, slots: seq<bool>): Kernel
    requires k.current in k.tasks && k.current in k.threads && 0 <= i <= |k.threads[k.current]|
  {
    var m := k.current;
    var gone, rest := k.threads[m][..i], k.threads[m][i..];
    k.(tasks := k.tasks[m := k.tasks[m].(slots := slots)] - Elements(gone), threads := k.threads[m := rest] - Elements(gone),
       linked := k.linked - Elements(gone), free := k.free + gone,
       ready := MinusAll(k.ready, gone), blocked := MinusAll(k.blocked, gone), ticking := MinusAll(k.ticking, gone))
  }

  lemma PartlyEndedStart(k: Kernel)
    requires k.current in k.tasks && k.current in k.threads
    ensures PartlyEnded(k, 0, k.tasks[k.current].slots) == k
  {
    var m := k.current;
    var gone := k.threads[m][..0];
    assert gone == [] && Elements(gone) == {} && k.threads[m][0..] == k.threads[m];
    assert k.tasks[m := k.tasks[m].(slots := k.tasks[m].slots)] == k.tasks;
    assert k.threads[m := k.threads[m]] == k.threads;
    assert k.free + gone == k.free;
  }

  lemma PartlyEndedEnd(k: Kernel, slots: seq<bool>)
    requires k.current in k.tasks && k.current in k.threads
    ensures Freed(PartlyEnded(k, |k.threads[k.current]|, slots), k.current) == Ended(k)
  {
    hide MinusAll;
    var m := k.current;
    var all := k.threads[m];
    assert all[..|all|] == all;
    assert k.tasks[m := k.tasks[m].(slots := slots)] - Elements(all) - {m} == k.tasks - (Elements(all) + {m});
    assert k.threads[m := all[|all|..]] - Elements(all) - {m} == k.threads - (Elements(all) + {m});
    assert k.linked - Elements(all) - {m} == k.linked - (Elements(all) + {m});
  }

  lemma PartlyEndedStep(k: Kernel, i: int, slots: seq<bool>, slots': seq<bool>)
    requires k.current in k.tasks && k.current in k.threads && 0 <= i < |k.threads[k.current]|
    requires NoDuplicates(k.threads[k.current]) && k.current !in k.threads[k.current]
    ensures var m, t, k0 := k.current, k.threads[k.current][i], PartlyEnded(k, i, slots);
            && m in k0.tasks && m in k0.threads && k0.threads[m] != [] && k0.threads[m][0] == t
            && Freed(Dequeue(k0.(tasks := k0.tasks[m := k0.tasks[m].(slots := slots')],
                                 threads := k0.threads[m := Minus(k0.threads[m], t)], linked := k0.linked - {t}), t), t) ==
               PartlyEnded(k, i + 1, slots')
  {
    hide NoDuplicates;
    var m, t := k.current, k.threads[k.current][i];
    var gone, gone' := k.threads[m][..i], k.threads[m][..i + 1];
    PartSplit(k.threads[m], i);
    hide MinusAll, Minus;
    assert gone' == gone + [t];
    assert Elements(gone') == Elements(gone) + {t};
    var k0 := PartlyEnded(k, i, slots);
    assert m !in Elements(gone) && m != t;
    OneMoreGone(k.tasks, m, k0.tasks[m], k.tasks[m].(slots := slots'), Elements(gone), t);
    OneMoreGone(k.threads, m, k0.threads[m], Minus(k0.threads[m], t), Elements(gone), t);
    assert k0.linked - {t} - {t} == k.linked - Elements(gone');
    hide Elements;
    MinusAllStep(k.ready, gone, t);
    MinusAllStep(k.blocked, gone, t);
    MinusAllStep(k.ticking, gone, t);
  }

  lemma OneMoreGone<V>(m: map<int, V>, key: int, v: V, v': V, gone: set<int>, t: int)
    requires key !in gone && key != t
    ensures (m[key := v] - gone)[key := v'] - {t} == m[key := v'] - (gone + {t})
  {
  }

  lemma MinusAllStep(s: seq<int>, gone: seq<int>, t: int)
    ensures MinusAll(s, gone + [t]) == Minus(MinusAll(s, gone), t)
  {
    assert (gone + [t])[..|gone|] == gone;
  }

  lemma PartSplit(s: seq<int>, i: int)
    requires NoDuplicates(s) && 0 <= i < |s|
    ensures s[..i + 1] == s[..i] + [s[i]] && s[i..] != [] && s[i..][0] == s[i] && Minus(s[i..], s[i]) == s[i + 1..]
    ensures s[i] !in s[..i] && s[i] in s && forall x :: x in s[..i] ==> x in s
  {
    var rest := s[i..];
    assert rest == [s[i]] + s[i + 1..];
    MinusAbsent(s[i + 1..], s[i]);
    assert rest[1..] == s[i + 1..];
  }

  lemma DequeueNobody(k: Kernel, t: int)
    requires t !in k.ready && t !in k.blocked && t !in k.ticking
    ensures Dequeue(k, t) == k
  {
    MinusAbsent(k.ready, t);
    MinusAbsent(k.blocked, t);
    MinusAbsent(k.ticking, t);
  }

  /** Takes a task off its queue, if it is on one. */
  method TakeOff(s: KernelState, t: int)
    requires Consistent(s.View(), t) && Sound(s)
    modifies s.queues, s.queues.next, s.queues.prev
    ensures Sound(s) && s.View() == Dequeue(old(s.View()), t) && Loose(s.queues.lists, t) && s.members.lists == old(s.members.lists) && s.members.copied == old(s.members.copied)
  {
    hide QueueShape, MemberShape, Records, ThreadLists, LinkedTasks, Below, Tidy, Disjoint, WellFormed, Loose, Dequeue, ViewOf;
    ghost var r := s.Contents();
    LiveRecord(r, t);
    if s.tasks[t].status != Running {
      s.Unqueue(t);
      DequeueKeepsFree(ViewOf(r), t);
      FreeShown(r);
      FreeShown(s.Contents());
      TidyFrame(r, s.Contents());
    } else {
      NotQueuedIsLoose(r, t);
      DequeueNobody(ViewOf(r), t);
    }
  }

  lemma DequeueKeepsFree(k: Kernel, t: int)
    ensures Dequeue(k, t).free == k.free
  {
  }

  /** The threads that are still there can be taken off their queues. */
  lemma PartlyEndedConsistent(k: Kernel, i: int, slots: seq<bool>, master: Task, threads: map<int, seq<int>>, linked: set<int>)
    requires k.current in k.tasks && k.current in k.threads && 0 <= i < |k.threads[k.current]|
    requires NoDuplicates(k.threads[k.current]) && k.current !in k.threads[k.current] && Consistent(k, k.threads[k.current][i])
    ensures var k0 := PartlyEnded(k, i, slots);
            Consistent(k0.(tasks := k0.tasks[k.current := master], threads := threads, linked := linked), k.threads[k.current][i])
  {
    PartSplit(k.threads[k.current], i);
    hide MinusAll, Minus, NoDuplicates;
    assert k.threads[k.current][i] !in Elements(k.threads[k.current][..i]);
  }

  /** One thread of an ending process. */
  method EndMember(s: KernelState, m: int, ghost k: Kernel, ghost i: int, ghost slots: seq<bool>) returns (ghost slots': seq<bool>)
    requires k.current in k.tasks && k.current in k.threads && 0 <= i < |k.threads[k.current]| && m == k.current
    requires NoDuplicates(k.threads[m]) && m !in k.threads[m] && Consistent(k, k.threads[m][i])
    requires k.threads[m][i] in k.threads && k.threads[m][i] in k.tasks && k.threads[k.threads[m][i]] == [] && |slots| == MAX_TIDS
    requires s.View() == PartlyEnded(k, i, slots) && s.n + m in s.members.lists && Sound(s)
    modifies s.tasks, s.queues, s.queues.next, s.queues.prev, s.members, s.members.next, s.members.prev
    ensures s.members.copied <= old(s.members.copied)
    ensures |slots'| == MAX_TIDS && s.View() == PartlyEnded(k, i + 1, slots') && Sound(s)
    ensures HeadsKept(s.n, old(s.members.lists), s.members.lists)
  {
    hide Sound, PartlyEnded, ViewOf, Loose, Minus, Dequeue, Freed, NoDuplicates, FreeSlot, Consistent, HeadsKept;
    ghost var k0 := s.View();
    PartlyEndedFacts(k, i, slots);
    var t := FirstThread(s, m);
    var thread := RecordOf(s, t);
    slots' := FreeSlot(slots, thread.tid - k0.tasks[m].pid * 10);
    PartlyEndedStep(k, i, slots, slots');
    PartlyEndedConsistent(k, i, slots, k0.tasks[m].(slots := slots'), k0.threads[m := Minus(k0.threads[m], t)], k0.linked - {t});
    FreeTid(s, m, thread.tid);
    FirstIsIn(s.View().threads[m]);
    Leave(s, t, m);
    TakeOff(s, t);
    LooseIsNoMember(s.members.lists, t);
    DequeueFrame(k0.(tasks := k0.tasks[m := k0.tasks[m].(slots := slots')],
                     threads := k0.threads[m := Minus(k0.threads[m], t)], linked := k0.linked - {t}), t);
    PutFree(s, t);
  }

  lemma DequeueFrame(k: Kernel, t: int)
    ensures Dequeue(k, t).tasks == k.tasks && Dequeue(k, t).threads == k.threads
  {
  }

  lemma PartlyEndedFacts(k: Kernel, i: int, slots: seq<bool>)
    requires k.current in k.tasks && k.current in k.threads && 0 <= i < |k.threads[k.current]|
    requires NoDuplicates(k.threads[k.current]) && k.current !in k.threads[k.current]
    requires k.threads[k.current][i] in k.threads && k.threads[k.current][i] in k.tasks
    ensures var m, t, k0 := k.current, k.threads[k.current][i], PartlyEnded(k, i, slots);
            && m in k0.tasks && k0.tasks[m] == k.tasks[m].(slots := slots) && m in k0.threads && k0.threads[m] != [] && k0.threads[m][0] == t
            && t in k0.tasks && t in k0.threads && k0.threads[t] == k.threads[t] && t != m
  {
    PartSplit(k.threads[k.current], i);
    hide MinusAll, Minus, NoDuplicates;
    assert k.threads[k.current][i] !in Elements(k.threads[k.current][..i]);
    assert k.current !in Elements(k.threads[k.current][..i]);
  }

  method FirstThread(s: KernelState, m: int) returns (t: int)
    requires m in s.View().tasks && m in s.View().threads && s.View().threads[m] != [] && s.n + m in s.members.lists && Sound(s)
    ensures t == s.View().threads[m][0] && t in s.View().tasks
  {
    hide QueueShape, MemberShape, Records, ThreadLists, LinkedTasks, Below, Disjoint;
    ProcessShown(s.Contents(), m);
    t := s.members.ListFirst(s.n + m);
    assert t in s.View().threads[m];
  }

  /** What the end of a process relies on. */
  lemma ExitFacts(k: Kernel)
    requires Inv(k) && IsMaster(k, k.current) && k.current != k.idle
    ensures k.current in k.tasks && k.current in k.threads && k.current !in k.threads[k.current] && NoDuplicates(k.threads[k.current])
    ensures |k.tasks[k.current].slots| == MAX_TIDS
    ensures forall t :: t in k.threads[k.current] ==> t in k.tasks && t in k.threads && k.threads[t] == [] && Consistent(k, t)
  {
    MasterFacts(k);
    Lifecycle.ProcessOf(k, k.current);
    forall t | t in k.threads[k.current]
      ensures t in k.threads && k.threads[t] == [] && Consistent(k, t)
    {
      PlacedIsConsistent(k, Fresh(k) + {k.current}, t);
      ThreadIsNoMaster(k, t, k.current);
    }
  }

  lemma ThreadIsNoMaster(k: Kernel, t: int, m: int)
    requires Led(k) && Listed(k) && m in k.threads && t in k.threads[m]
    ensures t in k.threads && k.threads[t] == []
  {
    if k.threads[t] != [] {
      ThreadsMakeMaster(k, t);
      assert false;
    }
  }

  /** The master ends its process with all threads. */
  method EndProcess(s: KernelState)
    requires Inv(s.View()) && IsMaster(s.View(), s.current) && s.current != s.idle && Whole(s)
    modifies s.tasks, s.queues, s.queues.next, s.queues.prev, s.members, s.members.next, s.members.prev
    ensures s.members.copied <= old(s.members.copied)
    ensures s.current in old(s.View()).threads && s.View() == Ended(old(s.View())) && Whole(s)
  {
    hide Inv, PartlyEnded, ViewOf, HeadsReady, HeadsKept, Loose, Freed, NoDuplicates, Consistent, Ended;
    ghost var k, lists := s.View(), s.members.lists;
    CpuOf(s.Contents());
    CurrentIsLoose(s);
    hide Sound;
    ExitFacts(k);
    var m := s.current;
    HeadAt(k.tasks.Keys, s.n, lists, m);
    PartlyEndedStart(k);
    HeadsKeptStart(s.n, lists);
    EndMembers(s, m, k);
    PutFree(s, m);
    EndedKeys(k);
    HeadsStayReady(k.tasks.Keys, s.n, lists, s.members.lists);
    HeadsFewer(k.tasks.Keys, s.View().tasks.Keys, s.n, s.members.lists);
  }

  lemma EndedKeys(k: Kernel)
    requires k.current in k.threads
    ensures Ended(k).tasks.Keys <= k.tasks.Keys
  {
    hide MinusAll;
  }

  lemma HeadsKeptStart(n: nat, lists: Lists)
    ensures HeadsKept(n, lists, lists)
  {
  }

  lemma HeadsKeptOn(n: nat, a: Lists, b: Lists, c: Lists)
    requires HeadsKept(n, a, b) && HeadsKept(n, b, c)
    ensures HeadsKept(n, a, c)
  {
  }

  method NoThreads(s: KernelState, m: int) returns (none: bool)
    requires m in s.View().tasks && m in s.View().threads && s.n + m in s.members.lists && Sound(s)
    ensures none <==> s.View().threads[m] == []
  {
    hide QueueShape, MemberShape, Records, ThreadLists, LinkedTasks, Below, Disjoint;
    ProcessShown(s.Contents(), m);
    none := s.members.ListEmpty(s.n + m);
  }

  lemma PartlyEndedLeft(k: Kernel, i: int, slots: seq<bool>)
    requires k.current in k.tasks && k.current in k.threads && 0 <= i <= |k.threads[k.current]| && k.current !in k.threads[k.current]
    ensures var m, k0 := k.current, PartlyEnded(k, i, slots);
            && m in k0.tasks && m in k0.threads && k0.threads[m] == k.threads[m][i..]
            && (forall x :: x in k0.ready ==> x in k.ready) && (forall x :: x in k0.blocked ==> x in k.blocked)
            && (forall x :: x in k0.ticking ==> x in k.ticking)
            && (forall h, x :: h in k0.threads && x in k0.threads[h] ==> h in k.threads && x in k.threads[h])
  {
    hide MinusAll;
    var gone := k.threads[k.current][..i];
    assert forall x :: x in gone ==> x in k.threads[k.current];
    assert k.current !in Elements(gone);
  }

  /** A task that is on no queue and on no thread list in the view is so in memory. */
  lemma Unlisted(s: KernelState, t: int)
    requires Sound(s) && t in s.View().tasks && t !in s.View().ready && t !in s.View().blocked && t !in s.View().ticking
    requires forall h :: h in s.View().threads ==> t !in s.View().threads[h]
    ensures Loose(s.queues.lists, t) && !Member(s.members.lists, t)
  {
    var r := s.Contents();
    LiveRecord(r, t);
    NotQueuedIsLoose(r, t);
    forall h | h in r.members
      ensures t !in r.members[h]
    {
      ShownLists(r, h);
    }
  }

  lemma ShownLists(r: Memory, h: int)
    requires Tidy(r) && h in r.members
    ensures r.members[h] == [] || (h - r.n in ViewOf(r).threads && ViewOf(r).threads[h - r.n] == r.members[h])
  {
    FirstIsIn(r.members[h]);
    var t := h - r.n;
    assert r.n + t == h;
    if r.members[h] != [] {
      var x := r.members[h][0];
      assert x in r.members[h];
      assert Live(r, x) && Live(r, t);
      assert t in ThreadLists(r);
    }
  }

  /** A master is on no thread list and, while it runs, on no queue. */
  lemma MasterIsUnlisted(k: Kernel)
    requires Inv(k) && IsMaster(k, k.current) && k.current != k.idle
    ensures k.current !in k.ready && k.current !in k.blocked && k.current !in k.ticking
    ensures forall h :: h in k.threads ==> k.current !in k.threads[h]
  {
  }

  method EndMembers(s: KernelState, m: int, ghost k: Kernel)
    requires Inv(k) && IsMaster(k, k.current) && k.current != k.idle && m == k.current
    requires s.View() == k && s.n + m in s.members.lists && Sound(s) && 0 <= m
    modifies s.tasks, s.queues, s.queues.next, s.queues.prev, s.members, s.members.next, s.members.prev
    ensures s.members.copied <= old(s.members.copied)
    ensures m in k.threads && m in s.View().tasks && m in s.View().threads && s.View().threads[m] == []
    ensures Freed(s.View(), m) == Ended(k) && Sound(s) && Loose(s.queues.lists, m) && !Member(s.members.lists, m)
    ensures HeadsKept(s.n, old(s.members.lists), s.members.lists)
  {
    hide Inv, PartlyEnded, ViewOf, HeadsKept, Loose, Freed, NoDuplicates, Consistent, Ended, Sound;
    ExitFacts(k);
    MasterIsUnlisted(k);
    PartlyEndedStart(k);
    HeadsKeptStart(s.n, s.members.lists);
    ghost var i, slots, all := 0, k.tasks[m].slots, k.threads[m];
    var none := NoThreads(s, m);
    while !none
      invariant 0 <= i <= |all| && |slots| == MAX_TIDS && s.View() == PartlyEnded(k, i, slots) && Sound(s)
      invariant HeadsKept(s.n, old(s.members.lists), s.members.lists) && s.n + m in s.members.lists
      invariant s.members.copied <= old(s.members.copied)
      invariant none <==> i == |all|
      decreases |all| - i
    {
      ghost var before := s.members.lists;
      assert all[i] in all;
      slots := EndMember(s, m, k, i, slots);
      i := i + 1;
      HeadsKeptOn(s.n, old(s.members.lists), before, s.members.lists);
      HeadStays(s.n, before, s.members.lists, s.n + m);
      PartlyEndedLeft(k, i, slots);
      none := NoThreads(s, m);
    }
    PartlyEndedLeft(k, i, slots);
    PartlyEndedEnd(k, slots);
    Unlisted(s, m);
  }

  lemma HeadStays(n: nat, a: Lists, b: Lists, h: int)
    requires HeadsKept(n, a, b) && h in a && h >= n
    ensures h in b
  {
  }

  // The hand-over of the master role

  /** Unlinks an entry that is on no list. */
  method DropOwnLink(s: KernelState, t: int)
    requires t in s.View().linked && !Member(s.members.lists, t) && Sound(s)
    modifies s.members, s.members.next, s.members.prev
    ensures s.members.copied <= old(s.members.copied)
    ensures s.View() == old(s.View()).(linked := old(s.View()).linked - {t}) && Sound(s)
    ensures s.members.lists == old(s.members.lists) - {t} && s.queues.lists == old(s.queues.lists) && 0 <= t < s.n
  {
    OwnLinkShown(s.Contents(), t);
    hide QueueShape, MemberShape, Records, ThreadLists, LinkedTasks, Below, Tidy, ViewOf, Ring, ListAt, Disjoint, Loose;
    OwnLinkView(s.Contents(), t, s.members.lists - {t});
    s.members.ListDel(t, 0, 0);
    assert s.Contents() == old(s.Contents()).(members := s.members.lists);
  }

  lemma OwnLinkShown(r: Memory, t: int)
    requires Shaped(r) && t in ViewOf(r).linked && !Member(r.members, t)
    ensures Live(r, t) && t in r.members && r.members[t] == [] && Loose(r.members, t) && 0 <= t < r.n
  {
  }

  lemma HeadIsLoose(s: KernelState, t: int)
    requires t in s.View().tasks && t in s.View().threads && s.View().threads[t] == [] && Sound(s)
    ensures Loose(s.members.lists, s.n + t) && 0 <= t < s.n
  {
    ProcessShown(s.Contents(), t);
  }

  /** The record of the heir n when it takes over from m. */
  ghost function Heir(k: Kernel, m: int, n: int): Task
    requires m in k.tasks && n in k.tasks
  {
    k.tasks[n].(master := n, threadCount := k.tasks[m].threadCount - 1, slots := FreeSlot(k.tasks[m].slots, SlotOf(k.tasks[m])))
  }

  /** After i of the remaining threads have moved to the list of the heir. */
  ghost function PartlyMoved(k: Kernel, i: int): Kernel
    requires k.current in k.tasks && k.current in k.threads && 0 < |k.threads[k.current]| && 0 <= i < |k.threads[k.current]|
    requires k.threads[k.current][0] in k.tasks
  {
    var m := k.current;
    var n, rest := k.threads[m][0], k.threads[m][1..];
    var tasks := k.tasks[m := Deserted(k.tasks[m], k.tasks[m].tid)][n := Heir(k, m, n)];
    k.(tasks := Adopted(tasks, rest[..i], n), threads := k.threads[m := rest[i..]][n := rest[..i]], linked := k.linked - {m} - {n})
  }

  lemma PartlyMovedEnd(k: Kernel)
    requires CanHandOver(k) && k.current !in k.threads[k.current] && NoDuplicates(k.threads[k.current])
    ensures Freed(PartlyMoved(k, |k.threads[k.current]| - 1), k.current) == HandedOver(k)
  {
    hide FreeSlot, NoDuplicates;
    var m := k.current;
    var n, rest := k.threads[m][0], k.threads[m][1..];
    HeadLeaves(k.threads[m]);
    HeadNotInRest(k.threads[m]);
    assert rest[..|rest|] == rest;
    var moved := PartlyMoved(k, |rest|);
    assert moved.tasks - {m} == HandedOver(k).tasks;
    assert moved.threads - {m} == HandedOver(k).threads;
    assert moved.linked - {m} == HandedOver(k).linked;
  }

  lemma HeadNotInRest(s: seq<int>)
    requires NoDuplicates(s) && s != []
    ensures s[0] !in s[1..] && s[0] in s && forall x :: x in s[1..] ==> x in s
  {
  }

  lemma PartlyMovedStep(k: Kernel, i: int)
    requires CanHandOver(k) && k.current !in k.threads[k.current] && NoDuplicates(k.threads[k.current])
    requires 0 <= i < |k.threads[k.current]| - 1 && k.threads[k.current][i + 1] in k.tasks && k.threads[k.current][i + 1] in k.linked
    ensures var m, n, t, k0 := k.current, k.threads[k.current][0], k.threads[k.current][i + 1], PartlyMoved(k, i);
            && m in k0.tasks && n in k0.tasks && t in k0.tasks && m in k0.threads && n in k0.threads
            && k0.threads[m] != [] && k0.threads[m][0] == t && t != n && t != m && n != m
            && var k1 := k0.(tasks := k0.tasks[t := k0.tasks[t].(master := n)]);
               var k2 := k1.(threads := k1.threads[m := Minus(k1.threads[m], t)], linked := k1.linked - {t});
               && n in k2.threads
               && k2.(threads := k2.threads[n := k2.threads[n] + [t]], linked := k2.linked + {t}) == PartlyMoved(k, i + 1)
  {
    hide FreeSlot;
    var m := k.current;
    var n, rest, t := k.threads[m][0], k.threads[m][1..], k.threads[m][i + 1];
    HeadNotInRest(k.threads[m]);
    assert rest[i] == t;
    PartSplit(rest, i);
    hide NoDuplicates, Minus;
    var k0, k' := PartlyMoved(k, i), PartlyMoved(k, i + 1);
    assert k0.tasks[t := k0.tasks[t].(master := n)] == k'.tasks;
    assert k0.threads[m := Minus(k0.threads[m], t)][n := rest[..i] + [t]] == k'.threads;
    assert k0.linked - {t} + {t} == k'.linked;
  }

  /** Everything a hand-over relies on. */
  ghost predicate HandingOver(k: Kernel) {
    && CanHandOver(k) && k.current !in k.threads[k.current] && NoDuplicates(k.threads[k.current])
    && |k.tasks[k.current].slots| == MAX_TIDS && k.current in k.linked
    && (forall t :: t in k.threads[k.current] ==>
          t in k.tasks && t in k.threads && k.threads[t] == [] && t in k.linked && k.tasks[t].pid == k.tasks[k.current].pid)
    && (forall h :: h in k.threads ==> k.current !in k.threads[h])
    && k.current !in k.ready && k.current !in k.blocked && k.current !in k.ticking
  }

  lemma HandOverFacts(k: Kernel)
    requires Inv(k) && IsMaster(k, k.current) && k.current != k.idle && k.current in k.threads && k.threads[k.current] != []
    requires k.current in k.linked
    ensures HandingOver(k)
  {
    hide Dispatched, Slotted, Stacked, Numbered, NoDuplicates;
    ExitFacts(k);
    MasterIsUnlisted(k);
    var n := k.threads[k.current][0];
    assert n in k.threads[k.current];
    forall t | t in k.threads[k.current]
      ensures t in k.linked && k.tasks[t].pid == k.tasks[k.current].pid
    {
      assert BelongsTo(k, t, k.tasks[t].master);
    }
  }

  lemma PartlyMovedStart(k: Kernel)
    requires HandingOver(k)
    ensures var m, n := k.current, k.threads[k.current][0];
            var k1 := k.(tasks := k.tasks[m := Deserted(k.tasks[m], k.tasks[m].tid)]);
            var k2 := k1.(linked := k1.linked - {m});
            var k3 := k2.(tasks := k2.tasks[n := Heir(k, m, n)]);
            && n in k.tasks && n != m && n in k.threads[m] && k.threads[n] == []
            && k3.(threads := k3.threads[m := Minus(k3.threads[m], n)], linked := k3.linked - {n}) == PartlyMoved(k, 0)
  {
    hide FreeSlot;
    var m := k.current;
    var n, rest := k.threads[m][0], k.threads[m][1..];
    HeadLeaves(k.threads[m]);
    HeadNotInRest(k.threads[m]);
    hide NoDuplicates, Minus;
    var tasks := k.tasks[m := Deserted(k.tasks[m], k.tasks[m].tid)][n := Heir(k, m, n)];
    assert rest[..0] == [] && rest[0..] == rest;
    assert Adopted(tasks, rest[..0], n) == tasks;
    assert k.threads[m := rest][n := []] == k.threads[m := rest];
  }

  /** The heir takes over count and identifiers; the old master's own one is free already. */
  method TakeOver(s: KernelState, m: int, n: int, ghost k: Kernel)
    requires HandingOver(k) && m == k.current && n == k.threads[m][0] && n in k.tasks && n != m
    requires m in s.View().tasks && n in s.View().tasks
    requires s.View().tasks[m] == Deserted(k.tasks[m], k.tasks[m].tid) && s.View().tasks[n] == k.tasks[n] && Sound(s)
    modifies s.tasks
    ensures s.View() == old(s.View()).(tasks := old(s.View()).tasks[n := Heir(k, m, n)]) && Sound(s)
    ensures s.members.lists == old(s.members.lists) && s.members.copied == old(s.members.copied) && s.queues.lists == old(s.queues.lists)
  {
    hide Sound, ViewOf, NoDuplicates, FreeSlot;
    assert n in k.threads[m];
    FreeSlotTwice(k.tasks[m].slots, SlotOf(k.tasks[m]));
    var master := RecordOf(s, m);
    var heir := RecordOf(s, n);
    var slots := CopiedSlots(master.slots);
    SetRecord(s, n, heir.(master := n, threadCount := master.threadCount, slots := slots));
    FreeTid(s, n, master.tid);
  }

  method CopiedSlots(slots: seq<bool>) returns (copy: seq<bool>)
    requires |slots| == MAX_TIDS
    ensures copy == slots
  {
    copy := [];
    for i := 0 to MAX_TIDS
      invariant copy == slots[..i]
    {
      copy := copy + [slots[i]];
    }
  }

  lemma FreeSlotTwice(slots: seq<bool>, slot: int)
    ensures FreeSlot(FreeSlot(slots, slot), slot) == FreeSlot(slots, slot)
  {
  }

  /** The first thread becomes master, with an empty list of its own. */
  method Promote(s: KernelState, m: int, ghost k: Kernel) returns (n: int)
    requires HandingOver(k) && m == k.current && s.View() == k && s.n + m in s.members.lists && Sound(s) && 0 <= m
    modifies s.tasks, s.members, s.members.next, s.members.prev
    ensures s.members.copied <= old(s.members.copied)
    ensures n == k.threads[m][0] && s.View() == PartlyMoved(k, 0) && Sound(s)
    ensures HeadsKept(s.n, old(s.members.lists), s.members.lists) && s.n + n in s.members.lists && 0 <= n
  {
    hide Sound, ViewOf, PartlyMoved, NoDuplicates, Deserted, Heir, HeadsKept, Loose, Minus, FreeSlot, Adopted;
    PartlyMovedStart(k);
    Unlisted(s, m);
    var master := RecordOf(s, m);
    Desert(s, m, master.tid);
    ghost var lists := s.members.lists;
    DropOwnLink(s, m);
    DroppingKeepsHeads(s.n, lists, m);
    HeadStays(s.n, lists, s.members.lists, s.n + m);
    n := FirstThread(s, m);
    TakeOver(s, m, n, k);
    ghost var before := s.members.lists;
    Leave(s, n, m);
    HeadsKeptOn(s.n, lists, before, s.members.lists);
    ghost var after := s.members.lists;
    PartlyMovedShape(k, 0);
    HeadIsLoose(s, n);
    InitThreadsHead(s, n);
    InitKeepsHeads(s.n, after, s.n + n);
    HeadsKeptOn(s.n, lists, after, s.members.lists);
  }

  lemma DroppingKeepsHeads(n: nat, lists: Lists, x: int)
    requires x < n
    ensures HeadsKept(n, lists, lists - {x})
  {
  }

  lemma InitKeepsHeads(n: nat, lists: Lists, x: int)
    ensures HeadsKept(n, lists, lists[x := []])
  {
  }

  lemma PartlyMovedShape(k: Kernel, i: int)
    requires HandingOver(k) && 0 <= i < |k.threads[k.current]|
    ensures k.threads[k.current][0] in k.tasks
    ensures var m, n, k0 := k.current, k.threads[k.current][0], PartlyMoved(k, i);
            && m in k0.tasks && n in k0.tasks && m in k0.threads && n in k0.threads && n != m
            && k0.threads[n] == k.threads[m][1..][..i] && k0.threads[m] == k.threads[m][1..][i..]
            && k0.ready == k.ready && k0.blocked == k.blocked && k0.ticking == k.ticking
            && k0.tasks.Keys == k.tasks.Keys
            && (forall h :: h in k0.threads ==> m !in k0.threads[h])
  {
    HeadNotInRest(k.threads[k.current]);
    hide FreeSlot, NoDuplicates;
    var rest := k.threads[k.current][1..];
    assert forall x :: x in rest[..i] || x in rest[i..] ==> x in rest;
  }

  /** One thread moves from the old master to the heir. */
  method MoveMember(s: KernelState, m: int, n: int, ghost k: Kernel, ghost i: int)
    requires HandingOver(k) && m == k.current && n == k.threads[m][0] && 0 <= i < |k.threads[m]| - 1 && 0 <= n
    requires s.View() == PartlyMoved(k, i) && s.n + m in s.members.lists && s.n + n in s.members.lists && Sound(s)
    modifies s.tasks, s.members, s.members.next, s.members.prev
    ensures s.members.copied <= old(s.members.copied)
    ensures s.View() == PartlyMoved(k, i + 1) && Sound(s) && HeadsKept(s.n, old(s.members.lists), s.members.lists)
  {
    hide Sound, ViewOf, PartlyMoved, NoDuplicates, HeadsKept, Loose, Minus;
    ghost var lists := s.members.lists;
    ghost var next := k.threads[m][i + 1];
    assert next in k.threads[m];
    PartlyMovedStep(k, i);
    var t := FirstThread(s, m);
    var thread := RecordOf(s, t);
    SetRecord(s, t, thread.(master := n));
    FirstIsIn(s.View().threads[m]);
    Leave(s, t, m);
    HeadStays(s.n, lists, s.members.lists, s.n + n);
    ghost var before := s.members.lists;
    InRange(s, t);
    AddingKeepsHeads(s.n, before, s.n + n, t);
    Join(s, t, n);
    HeadsKeptOn(s.n, lists, before, s.members.lists);
  }

  lemma InRange(s: KernelState, t: int)
    requires t in s.View().tasks && Sound(s)
    ensures 0 <= t < s.n
  {
    LiveRecord(s.Contents(), t);
  }

  /** The current master leaves and its first thread takes its place. */
  method HandOver(s: KernelState, ghost k: Kernel)
    requires HandingOver(k) && s.View() == k && s.current == k.current && Whole(s)
    modifies s.tasks, s.queues, s.queues.next, s.queues.prev, s.members, s.members.next, s.members.prev
    ensures s.members.copied <= old(s.members.copied)
    ensures s.View() == HandedOver(k) && Whole(s)
  {
    hide Sound, ViewOf, PartlyMoved, NoDuplicates, HeadsKept, HeadsReady, Loose, HandedOver, Freed;
    ghost var lists, i, last := s.members.lists, 0, |k.threads[k.current]| - 1;
    var m := s.current;
    HeadAt(k.tasks.Keys, s.n, lists, m);
    var n := Promote(s, m, k);
    HeadStays(s.n, lists, s.members.lists, s.n + m);
    PartlyMovedShape(k, 0);
    var none := NoThreads(s, m);
    while !none
      invariant 0 <= i <= last && s.View() == PartlyMoved(k, i) && Sound(s) && (none <==> i == last)
      invariant HeadsKept(s.n, lists, s.members.lists) && s.n + m in s.members.lists && s.n + n in s.members.lists
      invariant s.members.copied <= old(s.members.copied)
      decreases last - i
    {
      ghost var before := s.members.lists;
      MoveMember(s, m, n, k, i);
      i := i + 1;
      HeadsKeptOn(s.n, lists, before, s.members.lists);
      HeadStays(s.n, before, s.members.lists, s.n + m);
      HeadStays(s.n, before, s.members.lists, s.n + n);
      PartlyMovedShape(k, i);
      none := NoThreads(s, m);
    }
    PartlyMovedShape(k, last);
    PartlyMovedEnd(k);
    Unlisted(s, m);
    PutFree(s, m);
    HandedOverKeys(k);
    HeadsStayReady(k.tasks.Keys, s.n, lists, s.members.lists);
    HeadsFewer(k.tasks.Keys, s.View().tasks.Keys, s.n, s.members.lists);
  }

  lemma HandedOverKeys(k: Kernel)
    requires CanHandOver(k)
    ensures HandedOver(k).tasks.Keys <= k.tasks.Keys
  {
    hide FreeSlot;
  }
}
