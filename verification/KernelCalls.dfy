/**
 Creation and termination of processes and threads on the kernel's memory: records in an array, queues
 and thread lists as rings of links. Every call is proved to do what its function in KernelModel says.
 */
module KernelCalls {
  import opened Links
  import opened KernelModel
  import opened Sequences
  import opened KernelRuns
  import opened KernelCode

  /** Only live tasks have threads, and only live tasks are on thread lists. */
  ghost predicate Tidy(r: Memory) {
    forall h, x :: h in r.members && x in r.members[h] ==> Live(r, x) && Live(r, h - r.n)
  }

  ghost predicate Sound(s: KernelState)
    reads s, s.tasks, s.queues, s.queues.next, s.queues.prev, s.members, s.members.next, s.members.prev
  {
    s.Valid() && Tidy(s.Contents())
  }

  lemma TidyFrame(r: Memory, r': Memory)
    requires Tidy(r) && r'.members == r.members && r'.n == r.n && |r'.records| == |r.records|
    requires ListAt(r'.queues, r.n) == ListAt(r.queues, r.n)
    ensures Tidy(r')
  {
    assert forall t :: Live(r, t) ==> Live(r', t);
  }

  // Records

  method SetRecord(s: KernelState, t: int, task: Task)
    requires Sound(s) && t in s.View().tasks
    modifies s.tasks
    ensures Sound(s) && s.View() == old(s.View()).(tasks := old(s.View()).tasks[t := task])
    ensures s.members.lists == old(s.members.lists) && s.members.copied == old(s.members.copied) && s.queues.lists == old(s.queues.lists)
  {
    hide Disjoint, QueueShape, MemberShape, WellFormed, Records, ThreadLists, LinkedTasks, Below;
    LiveRecord(s.Contents(), t);
    ViewWithRecord(s.Contents(), t, task);
    s.tasks[t] := task;
    assert s.Contents() == old(s.Contents()).(records := old(s.tasks[..])[t := task]);
    TidyFrame(old(s.Contents()), s.Contents());
  }

  // The free queue

  /** The kernel after the first free structure was taken; what it holds is still the old record. */
  ghost function Taken(k: Kernel, record: Task, linked: bool): Kernel
    requires k.free != []
  {
    var t := k.free[0];
    k.(tasks := k.tasks[t := record], free := k.free[1..], threads := k.threads[t := []],
       linked := if linked then k.linked + {t} else k.linked)
  }

  /** The same memory with one more live structure. */
  lemma OneMoreLive(r: Memory, r': Memory, t: int)
    requires r'.n == r.n && r'.records == r.records && r'.members == r.members && 0 <= t < |r.records|
    requires forall u :: Live(r', u) <==> Live(r, u) || u == t
    ensures Records(r') == Records(r)[t := r.records[t]]
    ensures ThreadLists(r') == ThreadLists(r)[t := ListAt(r.members, r.n + t)]
    ensures LinkedTasks(r') == if Linked(r.members, t) then LinkedTasks(r) + {t} else LinkedTasks(r)
  {
    hide Live, Linked, ListAt;
  }

  lemma FirstIsIn(s: seq<int>)
    ensures s == [] || s[0] in s
  {
  }

  /** A structure on the free queue has no threads and is on no thread list. */
  lemma FreeIsUnused(r: Memory, t: int)
    requires MemberShape(r.members, r.n) && Tidy(r) && 0 <= t < r.n && !Live(r, t)
    ensures ListAt(r.members, r.n + t) == [] && !Member(r.members, t) && Loose(r.members, t) && Loose(r.members, r.n + t)
  {
    var h := r.n + t;
    assert h - r.n == t;
    assert forall x :: h in r.members && x in r.members[h] ==> Live(r, h - r.n);
    FirstIsIn(ListAt(r.members, h));
  }

  lemma TakenQueue(lists: Lists, n: nat)
    requires Disjoint(lists) && QueueShape(lists, n) && n in lists && lists[n] != []
    ensures var q, t := Removed(lists, n, 0), lists[n][0];
            && Disjoint(q) && QueueShape(q, n) && Loose(q, t) && 0 <= t < n && t in lists[n] && t !in lists && lists[n] == [t] + q[n]
            && t !in q[n] && q[n] == lists[n][1..] && forall h :: n < h < n + 4 ==> ListAt(q, h) == ListAt(lists, h)
  {
    var q, t := Removed(lists, n, 0), lists[n][0];
    assert t in lists[n];
    assert Without(lists[n], 0) == lists[n][1..];
    RemovedKeepsDisjoint(lists, n, 0);
    forall h, x | h in q && x in q[h]
      ensures 0 <= x < n
    {
      assert x in lists[h];
    }
  }

  lemma TakenView(r: Memory)
    requires Shaped(r) && Tidy(r) && r.n in r.queues && r.queues[r.n] != []
    ensures var t := r.queues[r.n][0];
            var r' := r.(queues := Removed(r.queues, r.n, 0));
            && 0 <= t < r.n && t !in r.queues && Shaped(r') && Tidy(r') && Live(r', t)
            && ViewOf(r') == Taken(ViewOf(r), r.records[t], Linked(r.members, t))
  {
    hide Disjoint, Linked, MemberShape, Records, ThreadLists, LinkedTasks, Removed, Below;
    var t := r.queues[r.n][0];
    var r' := r.(queues := Removed(r.queues, r.n, 0));
    TakenQueue(r.queues, r.n);
    FreeIsUnused(r, t);
    assert forall u :: Live(r', u) <==> Live(r, u) || u == t;
    OneMoreLive(r, r', t);
  }

  method TakeFree(s: KernelState) returns (t: int, ghost record: Task, ghost linked: bool)
    requires Sound(s) && s.View().free != []
    modifies s.queues, s.queues.next, s.queues.prev
    ensures Sound(s) && t == old(s.View()).free[0] && 0 <= t < s.n && s.members.lists == old(s.members.lists) && s.members.copied == old(s.members.copied)
    ensures s.View() == Taken(old(s.View()), record, linked)
    ensures t !in old(s.View()).tasks && Loose(s.queues.lists, t) && Loose(s.members.lists, t) && Loose(s.members.lists, s.n + t)
  {
    hide Disjoint, MemberShape, WellFormed, Records, ThreadLists, LinkedTasks, Below, Tidy, Loose, Taken;
    ghost var r := s.Contents();
    HeadExists(r, s.n);
    t := s.queues.ListFirst(s.n);
    TakenView(r);
    TakenQueue(r.queues, s.n);
    FreeIsUnused(r, t);
    FreeIsDead(r, t);
    s.queues.ListDel(t, s.n, 0);
    assert s.Contents() == r.(queues := Removed(r.queues, s.n, 0));
    record, linked := s.tasks[t], Linked(s.members.lists, t);
  }

  lemma FreeIsDead(r: Memory, t: int)
    requires t in ListAt(r.queues, r.n)
    ensures t !in ViewOf(r).tasks && !Live(r, t)
  {
  }

  /** The kernel after a task without threads, which is on no queue, went back to the free queue. */
  ghost function Freed(k: Kernel, t: int): Kernel {
    k.(tasks := k.tasks - {t}, threads := k.threads - {t}, linked := k.linked - {t}, free := k.free + [t])
  }

  /** The same memory with one live structure less. */
  lemma OneLessLive(r: Memory, r': Memory, t: int)
    requires r'.n == r.n && r'.records == r.records && r'.members == r.members
    requires forall u :: Live(r', u) <==> Live(r, u) && u != t
    ensures Records(r') == Records(r) - {t} && ThreadLists(r') == ThreadLists(r) - {t} && LinkedTasks(r') == LinkedTasks(r) - {t}
  {
    hide Live, Linked, ListAt;
  }

  /** A live structure joins the free queue and is live no more. */
  lemma FreeGrows(r: Memory, t: int)
    requires Shaped(r) && Live(r, t) && Loose(r.queues, t)
    ensures r.n in r.queues && t != r.n
    ensures var r' := r.(queues := Added(r.queues, r.n, t));
            && Shaped(r') && ListAt(r'.queues, r.n) == ListAt(r.queues, r.n) + [t]
            && ListAt(r'.queues, r.n + 1) == ListAt(r.queues, r.n + 1) && ListAt(r'.queues, r.n + 2) == ListAt(r.queues, r.n + 2)
            && ListAt(r'.queues, r.n + 3) == ListAt(r.queues, r.n + 3)
            && (forall u :: Live(r', u) <==> Live(r, u) && u != t)
  {
    hide Disjoint, MemberShape, Added, Loose;
    HeadExists(r, r.n);
    AddKeepsQueueShape(r.queues, r.n, r.n, t);
    AddTailKeepsDisjoint(r.queues, r.n, t);
    hide QueueShape;
  }

  lemma FreedView(r: Memory, t: int)
    requires Shaped(r) && Tidy(r) && Live(r, t) && Loose(r.queues, t) && ListAt(r.members, r.n + t) == [] && !Member(r.members, t)
    ensures r.n in r.queues && t != r.n
    ensures var q := Added(r.queues, r.n, t);
            Shaped(r.(queues := q)) && Tidy(r.(queues := q)) && ViewOf(r.(queues := q)) == Freed(ViewOf(r), t)
  {
    hide Shaped, Tidy, Live, Loose, Added, Records, ThreadLists, LinkedTasks, Below, ListAt, Member;
    FreeGrows(r, t);
    var r' := r.(queues := Added(r.queues, r.n, t));
    StaysTidy(r, r', t);
    OneLessLive(r, r', t);
  }

  lemma StaysTidy(r: Memory, r': Memory, t: int)
    requires Tidy(r) && r'.members == r.members && r'.n == r.n && ListAt(r.members, r.n + t) == [] && !Member(r.members, t)
    requires forall u :: Live(r', u) <==> Live(r, u) && u != t
    ensures Tidy(r')
  {
    hide Live;
    assert forall h, x :: h in r.members && x in r.members[h] ==> x != t && h - r.n != t;
  }

  method PutFree(s: KernelState, t: int)
    requires Sound(s) && t in s.View().tasks && Loose(s.queues.lists, t)
    requires s.View().threads[t] == [] && !Member(s.members.lists, t)
    modifies s.queues, s.queues.next, s.queues.prev
    ensures Sound(s) && s.View() == Freed(old(s.View()), t) && s.members.lists == old(s.members.lists) && s.members.copied == old(s.members.copied)
  {
    hide Disjoint, QueueShape, MemberShape, WellFormed, Records, LinkedTasks, Below, Tidy, Loose, Freed, Added;
    LiveRecord(s.Contents(), t);
    FreedView(s.Contents(), t);
    s.queues.ListAddTail(t, s.n);
    assert s.Contents() == old(s.Contents()).(queues := s.queues.lists);
  }

  // Thread lists

  lemma LinkedWith(r: Memory, m: Lists, gain: set<int>, loss: set<int>)
    requires forall u :: Live(r, u) ==> (Linked(m, u) <==> (Linked(r.members, u) && u !in loss) || u in gain)
    requires forall u :: u in gain ==> Live(r, u)
    ensures LinkedTasks(r.(members := m)) == LinkedTasks(r) - loss + gain
  {
    assert forall t :: Live(r.(members := m), t) <==> Live(r, t);
    assert forall t :: Live(r, t) ==> 0 <= t < |r.records|;
    hide Live, Linked, ListAt;
  }

  lemma RecordsWith(r: Memory, m: Lists)
    ensures Records(r.(members := m)) == Records(r)
  {
    assert forall t :: Live(r.(members := m), t) <==> Live(r, t);
  }

  /** Other links of the same live tasks, whose thread lists stay. */
  lemma ViewWithLinks(r: Memory, m: Lists, gain: set<int>, loss: set<int>)
    requires forall u :: Live(r, u) ==> ListAt(m, r.n + u) == ListAt(r.members, r.n + u)
    requires forall u :: Live(r, u) ==> (Linked(m, u) <==> (Linked(r.members, u) && u !in loss) || u in gain)
    requires forall u :: u in gain ==> Live(r, u)
    ensures ViewOf(r.(members := m)) == ViewOf(r).(linked := ViewOf(r).linked - loss + gain)
  {
    LinkedWith(r, m, gain, loss);
    RecordsWith(r, m);
    assert ThreadLists(r.(members := m)) == ThreadLists(r) by {
      assert forall t :: Live(r.(members := m), t) <==> Live(r, t);
    }
    hide Live, Linked, ListAt, Records, ThreadLists, LinkedTasks;
  }

  lemma ThreadListsWith(r: Memory, m: Lists, t: int, list: seq<int>)
    requires Live(r, t)
    requires forall u :: Live(r, u) ==> ListAt(m, r.n + u) == if u == t then list else ListAt(r.members, r.n + u)
    ensures ThreadLists(r.(members := m)) == ThreadLists(r)[t := list]
  {
    assert forall t :: Live(r.(members := m), t) <==> Live(r, t);
    assert forall t :: Live(r, t) ==> 0 <= t < |r.records|;
    hide Live, Linked, ListAt;
  }

  /** The same with another list for t. */
  lemma ViewWithThreads(r: Memory, m: Lists, t: int, list: seq<int>, gain: set<int>, loss: set<int>)
    requires Live(r, t)
    requires forall u :: Live(r, u) ==> ListAt(m, r.n + u) == if u == t then list else ListAt(r.members, r.n + u)
    requires forall u :: Live(r, u) ==> (Linked(m, u) <==> (Linked(r.members, u) && u !in loss) || u in gain)
    requires forall u :: u in gain ==> Live(r, u)
    ensures ViewOf(r.(members := m)) == ViewOf(r).(threads := ViewOf(r).threads[t := list], linked := ViewOf(r).linked - loss + gain)
  {
    LinkedWith(r, m, gain, loss);
    RecordsWith(r, m);
    ThreadListsWith(r, m, t, list);
    hide Live, Linked, ListAt, Records, ThreadLists, LinkedTasks;
  }

  lemma SameMembers(lists: Lists, lists': Lists)
    requires forall h :: ListAt(lists, h) == ListAt(lists', h)
    ensures forall u :: Member(lists, u) <==> Member(lists', u)
  {
    forall u
      ensures Member(lists, u) <==> Member(lists', u)
    {
      if Member(lists, u) {
        var h :| h in lists && u in lists[h];
        assert ListAt(lists', h) == lists[h];
      }
      if Member(lists', u) {
        var h :| h in lists' && u in lists'[h];
        assert ListAt(lists, h) == lists'[h];
      }
    }
  }

  /** Initialising or dropping an empty head does not show in the lists. */
  lemma EmptyHead(lists: Lists, lists': Lists, x: int)
    requires ListAt(lists, x) == [] && (lists' == lists[x := []] || lists' == lists - {x})
    ensures forall h :: ListAt(lists, h) == ListAt(lists', h)
    ensures forall u :: u != x ==> (u in lists' <==> u in lists)
  {
  }

  /** A thread_list entry that is initialised or dropped. */
  lemma OwnLinkView(r: Memory, t: int, m: Lists)
    requires Shaped(r) && Tidy(r) && Live(r, t) && Loose(r.members, t) && (m == r.members[t := []] || m == r.members - {t})
    ensures MemberShape(m, r.n) && Tidy(r.(members := m))
    ensures ViewOf(r.(members := m)) == ViewOf(r).(linked := if t in m then ViewOf(r).linked + {t} else ViewOf(r).linked - {t})
  {
    hide Disjoint, QueueShape, Records, ThreadLists, LinkedTasks, Below, ViewOf;
    EmptyHead(r.members, m, t);
    SameMembers(r.members, m);
    if t in m {
      ViewWithLinks(r, m, {t}, {});
      assert ViewOf(r).linked - {} + {t} == ViewOf(r).linked + {t};
    } else {
      ViewWithLinks(r, m, {}, {t});
      assert ViewOf(r).linked - {t} + {} == ViewOf(r).linked - {t};
    }
    assert Tidy(r.(members := m)) by {
      hide MemberShape;
      SameListsTidy(r, m);
    }
  }

  lemma SameListsTidy(r: Memory, m: Lists)
    requires Tidy(r) && forall h :: ListAt(r.members, h) == ListAt(m, h)
    ensures Tidy(r.(members := m))
  {
    var r' := r.(members := m);
    forall h, x | h in m && x in m[h]
      ensures Live(r', x) && Live(r', h - r.n)
    {
      assert ListAt(r.members, h) == m[h];
      assert h in r.members && x in r.members[h];
      assert Live(r, x) && Live(r, h - r.n);
    }
  }

  /** A head without threads that is initialised or dropped. */
  lemma ThreadsHeadView(r: Memory, t: int, m: Lists)
    requires Shaped(r) && Tidy(r) && 0 <= t < r.n && ListAt(r.members, r.n + t) == []
    requires m == r.members[r.n + t := []] || m == r.members - {r.n + t}
    ensures MemberShape(m, r.n) && Tidy(r.(members := m)) && ViewOf(r.(members := m)) == ViewOf(r)
  {
    hide Disjoint, QueueShape, Records, ThreadLists, LinkedTasks, Below, ViewOf;
    EmptyHead(r.members, m, r.n + t);
    SameMembers(r.members, m);
    ViewWithLinks(r, m, {}, {});
    assert ViewOf(r).linked - {} + {} == ViewOf(r).linked;
    SameListsTidy(r, m);
  }

  /** A queue entry that is initialised or overwritten while the task is on no queue. */
  lemma QueueLinkView(r: Memory, t: int, q: Lists)
    requires Shaped(r) && Tidy(r) && 0 <= t < r.n && Loose(r.queues, t) && (q == r.queues[t := []] || q == r.queues - {t})
    ensures QueueShape(q, r.n) && Loose(q, t) && Tidy(r.(queues := q)) && ViewOf(r.(queues := q)) == ViewOf(r)
  {
    hide Disjoint, MemberShape, Records, ThreadLists, LinkedTasks, Below;
    EmptyHead(r.queues, q, t);
    SameMembers(r.queues, q);
    ViewWithQueues(r, q);
    TidyFrame(r, r.(queues := q));
  }

  method InitQueueLink(s: KernelState, t: int)
    requires Sound(s) && 0 <= t < s.n && Loose(s.queues.lists, t)
    modifies s.queues, s.queues.next, s.queues.prev
    ensures Sound(s) && s.View() == old(s.View()) && Loose(s.queues.lists, t) && s.members.lists == old(s.members.lists) && s.members.copied == old(s.members.copied)
  {
    hide QueueShape, MemberShape, Records, ThreadLists, LinkedTasks, Below, Tidy, Loose, ViewOf, Ring;
    QueueLinkView(s.Contents(), t, Initialised(s.queues.lists, t));
    s.queues.InitListHead(t);
    assert s.Contents() == old(s.Contents()).(queues := s.queues.lists);
  }

  method InitOwnLink(s: KernelState, t: int)
    requires Sound(s) && t in s.View().tasks && Loose(s.members.lists, t)
    modifies s.members, s.members.next, s.members.prev
    ensures s.members.copied == old(s.members.copied) - {t}
    ensures Sound(s) && s.View() == old(s.View()).(linked := old(s.View()).linked + {t})
    ensures s.members.lists == old(s.members.lists)[t := []] && s.queues.lists == old(s.queues.lists)
  {
    LiveRecord(s.Contents(), t);
    hide QueueShape, MemberShape, Records, ThreadLists, LinkedTasks, Below, Tidy, Loose, ViewOf, Ring;
    OwnLinkView(s.Contents(), t, Initialised(s.members.lists, t));
    s.members.InitListHead(t);
    assert s.Contents() == old(s.Contents()).(members := s.members.lists);
  }

  method InitThreadsHead(s: KernelState, t: int)
    requires Sound(s) && 0 <= t < s.n && Loose(s.members.lists, s.n + t)
    modifies s.members, s.members.next, s.members.prev
    ensures s.members.copied == old(s.members.copied) - {s.n + t}
    ensures Sound(s) && s.View() == old(s.View()) && s.members.lists == old(s.members.lists)[s.n + t := []]
    ensures s.queues.lists == old(s.queues.lists)
  {
    hide QueueShape, MemberShape, Records, ThreadLists, LinkedTasks, Below, Tidy, Loose, ViewOf, Ring, ListAt;
    LooseIsEmpty(s.members.lists, s.n + t);
    ThreadsHeadView(s.Contents(), t, Initialised(s.members.lists, s.n + t));
    s.members.InitListHead(s.n + t);
    assert s.Contents() == old(s.Contents()).(members := s.members.lists);
  }

  /** Copies the whole structure of a task into a fresh one, links included. */
  method CopyStructure(s: KernelState, from: int, to: int)
    requires Sound(s) && from in s.View().tasks && to in s.View().tasks
    requires Loose(s.queues.lists, to) && Loose(s.members.lists, to) && Loose(s.members.lists, s.n + to)
    modifies s.tasks, s.queues, s.queues.next, s.queues.prev, s.members, s.members.next, s.members.prev
    ensures s.members.copied <= old(s.members.copied) + {to, s.n + to}
    ensures Sound(s)
    ensures var k := old(s.View()); s.View() == k.(tasks := k.tasks[to := k.tasks[from]], linked := k.linked - {to})
    ensures s.members.lists == old(s.members.lists) - {to} - {s.n + to}
    ensures Loose(s.queues.lists, to) && Loose(s.members.lists, to) && Loose(s.members.lists, s.n + to)
  {
    LiveRecord(s.Contents(), from);
    LiveRecord(s.Contents(), to);
    hide QueueShape, MemberShape, Records, ThreadLists, LinkedTasks, Below, Tidy, ViewOf, Ring;
    SetRecord(s, to, s.tasks[from]);
    CopyQueueLink(s, from, to);
    CopyMemberLinks(s, from, to);
  }

  method CopyQueueLink(s: KernelState, from: int, to: int)
    requires Sound(s) && 0 <= from < s.n && 0 <= to < s.n && Loose(s.queues.lists, to)
    modifies s.queues, s.queues.next, s.queues.prev
    ensures Sound(s) && s.View() == old(s.View()) && Loose(s.queues.lists, to) && s.members.lists == old(s.members.lists) && s.members.copied == old(s.members.copied)
  {
    hide QueueShape, MemberShape, Records, ThreadLists, LinkedTasks, Below, Tidy, Loose, ViewOf, Ring;
    QueueLinkView(s.Contents(), to, s.queues.lists - {to});
    s.queues.CopyLinks(from, to);
    assert s.Contents() == old(s.Contents()).(queues := s.queues.lists);
  }

  method CopyMemberLinks(s: KernelState, from: int, to: int)
    requires Sound(s) && 0 <= from < s.n && to in s.View().tasks
    requires Loose(s.members.lists, to) && Loose(s.members.lists, s.n + to)
    modifies s.members, s.members.next, s.members.prev
    ensures s.members.copied <= old(s.members.copied) + {to, s.n + to}
    ensures Sound(s) && s.View() == old(s.View()).(linked := old(s.View()).linked - {to})
    ensures s.members.lists == old(s.members.lists) - {to} - {s.n + to} && s.queues.lists == old(s.queues.lists)
    ensures Loose(s.members.lists, to) && Loose(s.members.lists, s.n + to)
  {
    hide Sound, Loose, ViewOf;
    LooseAfterDrop(s.members.lists, to, s.n + to);
    CopyOwnLink(s, from, to);
    CopyThreadsHead(s, from, to);
  }

  method CopyOwnLink(s: KernelState, from: int, to: int)
    requires Sound(s) && 0 <= from < s.n && to in s.View().tasks && Loose(s.members.lists, to)
    modifies s.members, s.members.next, s.members.prev
    ensures s.members.copied <= old(s.members.copied) + {to}
    ensures Sound(s) && s.View() == old(s.View()).(linked := old(s.View()).linked - {to})
    ensures s.members.lists == old(s.members.lists) - {to} && 0 <= to < s.n && s.queues.lists == old(s.queues.lists)
  {
    LiveRecord(s.Contents(), to);
    hide QueueShape, MemberShape, Records, ThreadLists, LinkedTasks, Below, Tidy, ViewOf, Ring, ListAt, Loose;
    OwnLinkView(s.Contents(), to, s.members.lists - {to});
    s.members.CopyLinks(from, to);
    assert s.Contents() == old(s.Contents()).(members := s.members.lists);
  }

  method CopyThreadsHead(s: KernelState, from: int, to: int)
    requires Sound(s) && 0 <= from < s.n && 0 <= to < s.n && Loose(s.members.lists, s.n + to)
    modifies s.members, s.members.next, s.members.prev
    ensures s.members.copied <= old(s.members.copied) + {s.n + to}
    ensures Sound(s) && s.View() == old(s.View()) && s.members.lists == old(s.members.lists) - {s.n + to}
    ensures s.queues.lists == old(s.queues.lists)
  {
    hide QueueShape, MemberShape, Records, ThreadLists, LinkedTasks, Below, Tidy, ViewOf, Ring, ListAt, Loose;
    LooseIsEmpty(s.members.lists, s.n + to);
    ThreadsHeadView(s.Contents(), to, s.members.lists - {s.n + to});
    s.members.CopyLinks(s.n + from, s.n + to);
    assert s.Contents() == old(s.Contents()).(members := s.members.lists);
  }

  lemma LooseIsEmpty(lists: Lists, x: int)
    requires Loose(lists, x)
    ensures ListAt(lists, x) == []
  {
  }

  lemma LooseAfterDrop(lists: Lists, x: int, y: int)
    requires Loose(lists, x) && Loose(lists, y)
    ensures Loose(lists - {x}, y) && Loose(lists - {x} - {y}, x) && Loose(lists - {x} - {y}, y)
  {
  }

  // Creation

  /** All thread heads of live tasks are initialised. */
  ghost predicate Whole(s: KernelState)
    reads s, s.tasks, s.queues, s.queues.next, s.queues.prev, s.members, s.members.next, s.members.prev
  {
    Sound(s) && HeadsReady(s.View().tasks.Keys, s.n, s.members.lists)
  }

  /** Live tasks whose list entry holds copied links. */
  ghost function Garbled(s: KernelState): set<int>
    reads s, s.tasks, s.queues, s.queues.next, s.queues.prev, s.members, s.members.next, s.members.prev
  {
    s.members.copied * s.View().tasks.Keys
  }

  lemma NothingGarbled(tasks: set<int>, tasks': set<int>, copied: set<int>, copied': set<int>, c: int, n: nat)
    requires copied' <= copied + {c, n + c} && tasks' <= tasks + {c} && (c in tasks' ==> c !in copied') && 0 <= c
    requires forall t :: t in tasks' ==> t < n
    ensures copied' * tasks' <= copied * tasks
  {
  }

  lemma TasksInRange(s: KernelState)
    requires Sound(s)
    ensures forall t :: t in s.View().tasks.Keys ==> t < s.n
  {
    hide QueueShape, MemberShape, ThreadLists, LinkedTasks, Below, Disjoint, WellFormed, Tidy;
  }

  ghost predicate HeadsReady(tasks: set<int>, n: nat, lists: Lists) {
    forall t :: t in tasks ==> 0 <= t < n && n + t in lists
  }

  method QueueReady(s: KernelState, t: int)
    requires Sound(s) && t in s.View().tasks && Loose(s.queues.lists, t)
    modifies s.queues, s.queues.next, s.queues.prev
    ensures Sound(s) && s.View() == Appended(old(s.View()), t, ToReady) && s.members.lists == old(s.members.lists) && s.members.copied == old(s.members.copied)
  {
    hide QueueShape, MemberShape, Records, ThreadLists, LinkedTasks, Below, Tidy, Loose, ViewOf, WellFormed, Disjoint, ListAt, Appended;
    s.QueueUp(t, ToReady);
    TidyFrame(old(s.Contents()), s.Contents());
  }

  /** What a fresh structure looks like from outside: k' differs from k in structure c only. */
  ghost predicate Borrowed(k: Kernel, k': Kernel, c: int, record: Task)
  {
    && k.free != [] && c == k.free[0] && c !in k.tasks && c !in k.threads && c !in k.linked
    && k'.tasks == k.tasks[c := record] && k'.threads == k.threads[c := []] && k'.linked - {c} == k.linked
    && k' == k.(tasks := k'.tasks, free := k.free[1..], threads := k'.threads, linked := k'.linked)
  }

  lemma ReturnedView(k: Kernel, k': Kernel, c: int, record: Task)
    requires Borrowed(k, k', c, record)
    ensures Freed(k', c) == k.(free := Rotated(k.free))
  {
    assert k'.tasks - {c} == k.tasks;
    assert k'.threads - {c} == k.threads;
  }

  lemma SpawnedView(k: Kernel, k': Kernel, c: int, record: Task)
    requires Borrowed(k, k', c, record) && c in k'.linked
    ensures Appended(k', c, ToReady) == Spawned(k, record)
  {
    assert k'.linked == k.linked + {c};
  }

  lemma ViewKeys(r: Memory)
    ensures ViewOf(r).threads.Keys == ViewOf(r).tasks.Keys && ViewOf(r).linked <= ViewOf(r).tasks.Keys
  {
  }

  /** The first free structure with a copy of the caller's. */
  method Borrow(s: KernelState) returns (c: int)
    requires Sound(s) && s.View().free != [] && s.current in s.View().tasks
    modifies s.tasks, s.queues, s.queues.next, s.queues.prev, s.members, s.members.next, s.members.prev
    ensures s.members.copied <= old(s.members.copied) + {c, s.n + c}
    ensures Sound(s) && Borrowed(old(s.View()), s.View(), c, old(s.View()).tasks[s.current])
    ensures Loose(s.queues.lists, c) && Loose(s.members.lists, c) && Loose(s.members.lists, s.n + c) && 0 <= c < s.n
    ensures s.members.lists == old(s.members.lists) - {c} - {s.n + c} && c !in s.View().linked
  {
    hide Sound, Loose, ViewOf, Taken, Borrowed;
    ghost var k := s.View();
    ghost var record, linked;
    ViewKeys(s.Contents());
    CpuOf(s.Contents());
    c, record, linked := TakeFree(s);
    BorrowedView(k, record, linked);
    CopyStructure(s, s.current, c);
  }

  lemma BorrowedView(k: Kernel, record: Task, linked: bool)
    requires k.free != [] && k.threads.Keys == k.tasks.Keys && k.linked <= k.tasks.Keys && k.free[0] !in k.tasks && k.current in k.tasks
    ensures var c, k1 := k.free[0], Taken(k, record, linked);
            && c in k1.tasks && c !in k1.linked - {c} && k.current in k1.tasks && k1.tasks[k.current] == k.tasks[k.current]
            && Borrowed(k, k1.(tasks := k1.tasks[c := k1.tasks[k.current]], linked := k1.linked - {c}), c, k.tasks[k.current])
  {
  }

  method NoneFree(s: KernelState) returns (none: bool)
    requires Sound(s)
    ensures none <==> s.View().free == []
  {
    hide QueueShape, MemberShape, Records, ThreadLists, LinkedTasks, Below, Tidy, Disjoint;
    HeadExists(s.Contents(), s.n);
    none := s.queues.ListEmpty(s.n);
  }

  method GetNextPid(s: KernelState) returns (pid: int)
    requires Sound(s)
    modifies s`nextPid
    ensures Sound(s) && pid == old(s.View()).nextPid + 1 && s.View() == old(s.View()).(nextPid := pid)
    ensures s.members.lists == old(s.members.lists) && s.members.copied == old(s.members.copied) && s.queues.lists == old(s.queues.lists)
  {
    s.nextPid := s.nextPid + 1;
    pid := s.nextPid;
    ViewWithPid(old(s.Contents()), pid);
    hide QueueShape, MemberShape, Records, ThreadLists, LinkedTasks, Below, Disjoint;
    assert s.Contents() == old(s.Contents()).(nextPid := pid);
    TidyFrame(old(s.Contents()), s.Contents());
  }

  lemma ViewWithPid(r: Memory, pid: int)
    ensures ViewOf(r.(nextPid := pid)) == ViewOf(r).(nextPid := pid)
  {
    var r' := r.(nextPid := pid);
    assert Records(r') == Records(r);
    assert ThreadLists(r') == ThreadLists(r);
    assert LinkedTasks(r') == LinkedTasks(r);
  }

  method InitTidSlots() returns (slots: seq<bool>)
    ensures slots == INITIAL_SLOTS
  {
    slots := [];
    for i := 0 to MAX_TIDS
      invariant |slots| == i && forall j :: 0 <= j < i ==> !slots[j]
    {
      slots := slots + [false];
    }
    slots := slots[0 := true];
  }

  method RecordOf(s: KernelState, t: int) returns (task: Task)
    requires Sound(s) && t in s.View().tasks
    ensures task == s.View().tasks[t]
  {
    hide QueueShape, MemberShape, Records, ThreadLists, LinkedTasks, Below, Tidy, Disjoint;
    LiveRecord(s.Contents(), t);
    task := s.tasks[t];
  }


  /** The links of a fresh structure. */
  method InitLinks(s: KernelState, c: int)
    requires Sound(s) && c in s.View().tasks && Loose(s.queues.lists, c) && Loose(s.members.lists, c) && Loose(s.members.lists, s.n + c)
    requires 0 <= c < s.n
    modifies s.queues, s.queues.next, s.queues.prev, s.members, s.members.next, s.members.prev
    ensures s.members.copied <= old(s.members.copied) - {c}
    ensures Sound(s) && s.View() == old(s.View()).(linked := old(s.View()).linked + {c})
    ensures Loose(s.queues.lists, c) && Loose(s.members.lists, c)
    ensures s.members.lists == old(s.members.lists)[s.n + c := []][c := []]
  {
    hide Sound, Loose, ViewOf;
    InitQueueLink(s, c);
    LooseAfterInit(s.members.lists, c, s.n + c);
    InitThreadsHead(s, c);
    InitOwnLink(s, c);
  }

  lemma LooseAfterInit(lists: Lists, x: int, y: int)
    requires Loose(lists, x) && Loose(lists, y)
    ensures Loose(lists[y := []], x) && Loose(lists[y := []][x := []], x)
  {
  }

  lemma BorrowedHas(k: Kernel, k': Kernel, c: int, record: Task)
    requires Borrowed(k, k', c, record)
    ensures c in k'.tasks && k'.tasks[c] == record && c !in k.tasks && k'.nextPid == k.nextPid && k.free != [] && c == k.free[0]
    ensures k'.tasks.Keys == k.tasks.Keys + {c}
  {
  }

  lemma BorrowedFilled(k: Kernel, k': Kernel, c: int, record: Task, record': Task, pid: int)
    requires Borrowed(k, k', c, record)
    ensures var k1 := k'.(nextPid := pid);
            var k2 := k1.(linked := k1.linked + {c});
            var k3 := k2.(tasks := k2.tasks[c := record']);
            Borrowed(k.(nextPid := pid), k3, c, record') && c in k3.linked
  {
    assert k'.tasks[c := record'] == k.tasks[c := record'];
  }

  /** Turns a borrowed structure into the structure of a new process. */
  method FillChild(s: KernelState, c: int, ghost k: Kernel) returns (hasStack: bool)
    requires Sound(s) && 0 <= c < s.n && k.current in k.tasks
    requires Borrowed(k, s.View(), c, k.tasks[k.current])
    requires Loose(s.queues.lists, c) && Loose(s.members.lists, c) && Loose(s.members.lists, s.n + c)
    modifies s`nextPid, s.tasks, s.queues, s.queues.next, s.queues.prev, s.members, s.members.next, s.members.prev
    ensures s.members.copied <= old(s.members.copied) - {c}
    ensures Sound(s) && Borrowed(k.(nextPid := k.nextPid + 1), s.View(), c, ChildRecord(k, c)) && c in s.View().linked
    ensures Loose(s.queues.lists, c) && Loose(s.members.lists, c) && s.members.lists == old(s.members.lists)[s.n + c := []][c := []]
    ensures hasStack <==> k.tasks[k.current].regionPages != 0
  {
    hide Sound, Loose, ViewOf, Borrowed;
    BorrowedHas(k, s.View(), c, k.tasks[k.current]);
    BorrowedFilled(k, s.View(), c, k.tasks[k.current], ChildRecord(k, c), k.nextPid + 1);
    var parent := RecordOf(s, c);
    hasStack := parent.regionPages != 0;
    var pid := GetNextPid(s);
    var slots := InitTidSlots();
    var stack := if hasStack then (STACK_BASE_PAGE, REGION_PAGES) else (0, 0);
    InitLinks(s, c);
    SetRecord(s, c, parent.(pid := pid, tid := pid * 10, status := Ready, pending := 0, master := c, threadCount := 1,
                            slots := slots, regionStart := stack.0, regionPages := stack.1));
  }

  ghost function ChildRecord(k: Kernel, c: int): Task
    requires k.current in k.tasks
  {
    var parent, pid := k.tasks[k.current], k.nextPid + 1;
    var stack := if parent.regionPages != 0 then (STACK_BASE_PAGE, REGION_PAGES) else (0, 0);
    Task(pid, pid * 10, Ready, parent.quantum, 0, c, 1, INITIAL_SLOTS, stack.0, stack.1)
  }

  lemma ForkOutcome(k: Kernel, memory: ForkMemory)
    requires k.current in k.tasks && k.free != []
    ensures memory == NoDataFrames ==> Fork(k, memory) == k.(free := Rotated(k.free)) && ForkResult(k, memory) == -EAGAIN
    ensures memory == NoStackFrames && k.tasks[k.current].regionPages != 0 ==>
              Fork(k, memory) == k.(nextPid := k.nextPid + 1).(free := Rotated(k.free)) && ForkResult(k, memory) == -EAGAIN
    ensures memory == Enough || (memory == NoStackFrames && k.tasks[k.current].regionPages == 0) ==>
              && Fork(k, memory) == Spawned(k.(nextPid := k.nextPid + 1), ChildRecord(k, k.free[0]))
              && ForkResult(k, memory) == k.nextPid + 1
  {
  }

  /** Heads of other tasks stay initialised while structure c is prepared. */
  lemma HeadsStay(tasks: set<int>, lists: Lists, n: nat, c: int)
    requires HeadsReady(tasks, n, lists) && c !in tasks && 0 <= c < n
    ensures HeadsReady(tasks, n, lists - {c} - {n + c})
    ensures HeadsReady(tasks, n, (lists - {c} - {n + c})[n + c := []][c := []])
    ensures HeadsReady(tasks + {c}, n, (lists - {c} - {n + c})[n + c := []][c := []])
  {
  }

  method SysFork(s: KernelState, memory: ForkMemory) returns (pid: int)
    requires Whole(s) && s.current in s.View().tasks
    modifies s`nextPid, s.tasks, s.queues, s.queues.next, s.queues.prev, s.members, s.members.next, s.members.prev
    ensures Garbled(s) <= old(Garbled(s))
    ensures Whole(s) && s.View() == Fork(old(s.View()), memory)
    ensures pid == ForkResult(old(s.View()), memory)
  {
    hide Sound, Loose, ViewOf, Borrowed, Spawned, ChildRecord, Appended, HeadsReady;
    ghost var k, lists := s.View(), s.members.lists;
    CpuOf(s.Contents());
    var none := NoneFree(s);
    if none {
      return -ENOMEM;
    }
    ForkOutcome(k, memory);
    hide Fork, ForkResult;
    var c := Borrow(s);
    BorrowedHas(k, s.View(), c, k.tasks[k.current]);
    HeadsStay(k.tasks.Keys, lists, s.n, c);
    if memory == NoDataFrames {
      GiveBack(s, c, k, k.tasks[k.current]);
      return -EAGAIN;
    }
    var hasStack := FillChild(s, c, k);
    if hasStack && memory == NoStackFrames {
      GiveBack(s, c, k.(nextPid := k.nextPid + 1), ChildRecord(k, c));
      return -EAGAIN;
    }
    BorrowedHas(k.(nextPid := k.nextPid + 1), s.View(), c, ChildRecord(k, c));
    SpawnedView(k.(nextPid := k.nextPid + 1), s.View(), c, ChildRecord(k, c));
    QueueReady(s, c);
    SpawnedKeys(k.(nextPid := k.nextPid + 1), ChildRecord(k, c));
    CpuOf(s.Contents());
    pid := s.nextPid;
  }

  lemma SpawnedKeys(k: Kernel, record: Task)
    requires k.free != []
    ensures Spawned(k, record).tasks.Keys == k.tasks.Keys + {k.free[0]} && Spawned(k, record).nextPid == k.nextPid
  {
  }

  method GiveBack(s: KernelState, c: int, ghost k: Kernel, ghost record: Task)
    requires Sound(s) && Borrowed(k, s.View(), c, record) && Loose(s.queues.lists, c) && Loose(s.members.lists, c)
    modifies s.queues, s.queues.next, s.queues.prev
    ensures Sound(s) && s.View() == k.(free := Rotated(k.free)) && s.members.lists == old(s.members.lists) && s.members.copied == old(s.members.copied)
  {
    ReturnedView(k, s.View(), c, record);
    hide Sound, ViewOf;
    PutFree(s, c);
  }

  // Threads

  lemma JoinView(r: Memory, t: int, m: int)
    requires Shaped(r) && Tidy(r) && Live(r, t) && Live(r, m) && Loose(r.members, t) && r.n + m in r.members
    ensures t != r.n + m
    ensures var lists, r' := Added(r.members, r.n + m, t), r.(members := Added(r.members, r.n + m, t));
            && Shaped(r') && Tidy(r')
            && ViewOf(r') == ViewOf(r).(threads := ViewOf(r).threads[m := r.members[r.n + m] + [t]], linked := ViewOf(r).linked + {t})
  {
    hide QueueShape, Records, ThreadLists, LinkedTasks, Below, ViewOf, Disjoint;
    AddedIsShaped(r, t, m);
    AddedMembers(r.members, r.n + m, t);
    hide MemberShape, Tidy, Linked, Added, Loose;
    var lists := Added(r.members, r.n + m, t);
    ViewWithThreads(r, lists, m, r.members[r.n + m] + [t], {t}, {});
    assert ViewOf(r).linked - {} + {t} == ViewOf(r).linked + {t};
  }

  lemma AddedIsShaped(r: Memory, t: int, m: int)
    requires Shaped(r) && Tidy(r) && Live(r, t) && Live(r, m) && Loose(r.members, t) && r.n + m in r.members
    ensures t != r.n + m
    ensures var r' := r.(members := Added(r.members, r.n + m, t)); Shaped(r') && Tidy(r')
  {
    hide QueueShape, Disjoint;
    AddTailKeepsDisjoint(r.members, r.n + m, t);
    var lists := Added(r.members, r.n + m, t);
    var r' := r.(members := lists);
    forall h, x | h in lists && x in lists[h]
      ensures 0 <= x < r.n && Live(r', x) && Live(r', h - r.n)
    {
      assert (h == r.n + m && x == t) || (h in r.members && x in r.members[h]);
      assert Live(r, x) && Live(r, h - r.n);
    }
  }

  lemma AddedMembers(lists: Lists, h: int, t: int)
    requires h in lists && Loose(lists, t) && t != h
    ensures var lists' := Added(lists, h, t);
            && (forall g :: ListAt(lists', g) == if g == h then lists[h] + [t] else ListAt(lists, g))
            && (forall u :: Linked(lists', u) <==> Linked(lists, u) || u == t)
  {
    var lists' := Added(lists, h, t);
    forall u
      ensures Linked(lists', u) <==> Linked(lists, u) || u == t
    {
      if Member(lists, u) {
        var g :| g in lists && u in lists[g];
        assert g in lists' && u in lists'[g];
      }
      assert t in lists'[h];
    }
  }

  method Join(s: KernelState, t: int, m: int)
    requires Sound(s) && t in s.View().tasks && m in s.View().tasks && Loose(s.members.lists, t) && s.n + m in s.members.lists
    modifies s.members, s.members.next, s.members.prev
    ensures s.members.copied <= old(s.members.copied)
    ensures Sound(s) && s.queues.lists == old(s.queues.lists) && s.members.lists == Added(old(s.members.lists), s.n + m, t)
    ensures m in old(s.View()).threads
    ensures var k := old(s.View()); s.View() == k.(threads := k.threads[m := k.threads[m] + [t]], linked := k.linked + {t})
  {
    hide QueueShape, MemberShape, Records, LinkedTasks, Below, Tidy, Loose, Disjoint, Ring, Added;
    LiveRecord(s.Contents(), t);
    LiveRecord(s.Contents(), m);
    ThreadsShown(s.Contents(), m);
    JoinView(s.Contents(), t, m);
    hide ViewOf, ThreadLists;
    s.members.ListAddTail(t, s.n + m);
    assert s.Contents() == old(s.Contents()).(members := s.members.lists);
  }

  lemma ThreadsShown(r: Memory, m: int)
    requires m in ViewOf(r).tasks
    ensures m in ViewOf(r).threads && ViewOf(r).threads[m] == ListAt(r.members, r.n + m)
  {
  }

  lemma LeaveView(r: Memory, m: int, i: nat)
    requires Shaped(r) && Tidy(r) && Live(r, m) && r.n + m in r.members && i < |r.members[r.n + m]|
    ensures var t := r.members[r.n + m][i];
            var r' := r.(members := Removed(r.members, r.n + m, i));
            && t !in r.members && Live(r, t) && Loose(r'.members, t) && Shaped(r') && Tidy(r')
            && ViewOf(r') == ViewOf(r).(threads := ViewOf(r).threads[m := Minus(r.members[r.n + m], t)], linked := ViewOf(r).linked - {t})
  {
    hide QueueShape, Records, ThreadLists, LinkedTasks, Below, ViewOf, Minus, Disjoint;
    var h := r.n + m;
    var t := r.members[h][i];
    RemovedIsShaped(r, m, i);
    WithoutIsMinusAt(r.members, h, i);
    RemovedMembers(r.members, h, i);
    var lists := Removed(r.members, h, i);
    hide MemberShape, Tidy, Linked, Removed, Loose;
    ViewWithThreads(r, lists, m, Minus(r.members[h], t), {}, {t});
    assert ViewOf(r).linked - {t} + {} == ViewOf(r).linked - {t};
  }

  lemma WithoutIsMinusAt(lists: Lists, h: int, i: nat)
    requires Disjoint(lists) && h in lists && i < |lists[h]|
    ensures Without(lists[h], i) == Minus(lists[h], lists[h][i])
  {
    WithoutIsMinus(lists[h], i);
  }

  lemma RemovedIsShaped(r: Memory, m: int, i: nat)
    requires Shaped(r) && Tidy(r) && Live(r, m) && r.n + m in r.members && i < |r.members[r.n + m]|
    ensures var t := r.members[r.n + m][i];
            var r' := r.(members := Removed(r.members, r.n + m, i));
            t !in r.members && Live(r, t) && Loose(r'.members, t) && Shaped(r') && Tidy(r')
  {
    hide QueueShape;
    var h := r.n + m;
    var t := r.members[h][i];
    assert t in r.members[h];
    RemovedKeepsDisjoint(r.members, h, i);
    RemovedMembers(r.members, h, i);
    var lists := Removed(r.members, h, i);
    var r' := r.(members := lists);
    hide Disjoint;
    forall g, x | g in lists && x in lists[g]
      ensures 0 <= x < r.n && Live(r', x) && Live(r', g - r.n)
    {
      assert g in r.members && x in r.members[g];
      assert Live(r, x) && Live(r, g - r.n);
    }
  }

  lemma RemovedMembers(lists: Lists, h: int, i: nat)
    requires Disjoint(lists) && h in lists && i < |lists[h]|
    ensures var lists', t := Removed(lists, h, i), lists[h][i];
            && (forall g :: ListAt(lists', g) == if g == h then Without(lists[h], i) else ListAt(lists, g))
            && (forall x :: x in Without(lists[h], i) <==> x in lists[h] && x != t)
            && (forall u :: Linked(lists', u) <==> Linked(lists, u) && u != t)
  {
    var lists', t := Removed(lists, h, i), lists[h][i];
    assert t in lists[h];
    RemovedKeepsDisjoint(lists, h, i);
    WithoutIsMinus(lists[h], i);
    forall u
      ensures Linked(lists', u) <==> Linked(lists, u) && u != t
    {
      if Member(lists, u) && u != t {
        var g :| g in lists && u in lists[g];
        assert g in lists' && u in lists'[g];
      }
    }
  }

  /** Unlinks a thread from the list of its master. */
  method Leave(s: KernelState, t: int, m: int)
    requires Sound(s) && m in s.View().tasks && m in s.View().threads && t in s.View().threads[m]
    modifies s.members, s.members.next, s.members.prev
    ensures s.members.copied <= old(s.members.copied)
    ensures Sound(s) && s.queues.lists == old(s.queues.lists) && Loose(s.members.lists, t)
    ensures HeadsKept(s.n, old(s.members.lists), s.members.lists)
    ensures var k := old(s.View()); s.View() == k.(threads := k.threads[m := Minus(k.threads[m], t)], linked := k.linked - {t})
  {
    hide QueueShape, MemberShape, Records, LinkedTasks, Below, Tidy, Loose, Disjoint, Ring, Minus;
    LiveRecord(s.Contents(), m);
    ThreadsShown(s.Contents(), m);
    ghost var i :| 0 <= i < |s.members.lists[s.n + m]| && s.members.lists[s.n + m][i] == t;
    LeaveView(s.Contents(), m, i);
    hide ViewOf, ThreadLists;
    s.members.ListDel(t, s.n + m, i);
    assert s.Contents() == old(s.Contents()).(members := s.members.lists);
  }

  // Thread identifiers

  method AllocateTid(s: KernelState, m: int) returns (tid: int, ghost slot: int)
    requires Sound(s) && m in s.View().tasks && |s.View().tasks[m].slots| == MAX_TIDS
    modifies s.tasks
    ensures Sound(s) && s.members.lists == old(s.members.lists) && s.members.copied == old(s.members.copied) && s.queues.lists == old(s.queues.lists)
    ensures slot == FirstClear(old(s.View()).tasks[m].slots, 0)
    ensures tid == if slot < 0 then -1 else old(s.View()).tasks[m].pid * 10 + slot
    ensures var k := old(s.View());
            s.View() == if slot < 0 then k else k.(tasks := k.tasks[m := k.tasks[m].(slots := k.tasks[m].slots[slot := true])])
  {
    hide Sound, ViewOf;
    var task := RecordOf(s, m);
    for i := 0 to MAX_TIDS
      invariant s.View() == old(s.View()) && Sound(s)
      invariant s.members.lists == old(s.members.lists) && s.queues.lists == old(s.queues.lists)
      invariant FirstClear(task.slots, 0) == FirstClear(task.slots, i)
    {
      if !task.slots[i] {
        SetRecord(s, m, task.(slots := task.slots[i := true]));
        return task.pid * 10 + i, i;
      }
    }
    return -1, -1;
  }

  method FreeTid(s: KernelState, m: int, tid: int)
    requires Sound(s) && m in s.View().tasks && |s.View().tasks[m].slots| == MAX_TIDS
    modifies s.tasks
    ensures Sound(s) && s.members.lists == old(s.members.lists) && s.members.copied == old(s.members.copied) && s.queues.lists == old(s.queues.lists)
    ensures var k := old(s.View());
            var task := k.tasks[m];
            s.View() == k.(tasks := k.tasks[m := task.(slots := FreeSlot(task.slots, tid - task.pid * 10))])
  {
    hide Sound, ViewOf;
    var task := RecordOf(s, m);
    var slot := tid - task.pid * 10;
    if slot >= 0 && slot < MAX_TIDS {
      SetRecord(s, m, task.(slots := task.slots[slot := false]));
    } else {
      assert s.View().tasks == s.View().tasks[m := task];
    }
  }

  // Stack regions

  lemma ProcessShown(r: Memory, m: int)
    requires Tidy(r) && m in ViewOf(r).tasks
    ensures HasProcess(ViewOf(r), m) && Live(r, m) && ViewOf(r).threads[m] == ListAt(r.members, r.n + m)
    ensures var list := ListAt(r.members, r.n + m); forall i :: 0 <= i < |list| ==> 0 <= list[i] < |r.records|
  {
    forall t | t in ViewOf(r).threads[m]
      ensures t in ViewOf(r).tasks
    {
      assert r.n + m in r.members && t in r.members[r.n + m];
      assert Live(r, t);
    }
    var list := ListAt(r.members, r.n + m);
    forall i | 0 <= i < |list|
      ensures 0 <= list[i] < |r.records|
    {
      assert list[i] in list;
    }
  }

  method StackRegionInUse(s: KernelState, m: int, start: int) returns (used: bool)
    requires Sound(s) && m in s.View().tasks && s.n + m in s.members.lists
    ensures HasProcess(s.View(), m) && used == RegionInUse(s.View(), m, start)
  {
    hide QueueShape, MemberShape, Records, ThreadLists, LinkedTasks, Below, Disjoint, RegionOverlaps;
    ProcessShown(s.Contents(), m);
    hide Tidy;
    LiveRecord(s.Contents(), m);
    if RegionOverlaps(s.tasks[m], start, REGION_PAGES) {
      return true;
    }
    ghost var list := s.members.lists[s.n + m];
    var empty := s.members.ListEmpty(s.n + m);
    if empty {
      return false;
    }
    var pos := s.members.ListFirst(s.n + m);
    ghost var i := 0;
    while pos != s.n + m
      invariant 0 <= i <= |list| && pos == (if i < |list| then list[i] else s.n + m)
      invariant forall j :: 0 <= j < i ==> !RegionOverlaps(s.View().tasks[list[j]], start, REGION_PAGES)
      decreases |list| - i
    {
      LiveRecord(s.Contents(), pos);
      if RegionOverlaps(s.tasks[pos], start, REGION_PAGES) {
        return true;
      }
      pos := s.members.ListNext(pos, s.n + m, i);
      i := i + 1;
    }
    return false;
  }

  method FindFreeStackRegion(s: KernelState, m: int) returns (r: int)
    requires Sound(s) && m in s.View().tasks && s.n + m in s.members.lists
    ensures HasProcess(s.View(), m) && r == FindRegion(s.View(), m, STACK_BASE_PAGE)
  {
    hide Sound, ViewOf, RegionInUse, HasProcess;
    var page := STACK_BASE_PAGE;
    var used := StackRegionInUse(s, m, page);
    while page + REGION_PAGES <= TOTAL_PAGES
      invariant page >= STACK_BASE_PAGE && HasProcess(s.View(), m)
      invariant used == RegionInUse(s.View(), m, page)
      invariant FindRegion(s.View(), m, STACK_BASE_PAGE) == FindRegion(s.View(), m, page)
    {
      if !used {
        return page;
      }
      page := page + REGION_PAGES;
      used := StackRegionInUse(s, m, page);
    }
    return -1;
  }

  // Thread creation

  /** Structure c and the slots of master m are all that differs. */
  lemma RegionsUnchanged(k: Kernel, k': Kernel, m: int, start: nat)
    requires HasProcess(k, m) && HasProcess(k', m) && k'.threads[m] == k.threads[m]
    requires forall t :: t == m || t in k.threads[m] ==> t in k.tasks && t in k'.tasks && SameRegion(k.tasks[t], k'.tasks[t])
    ensures FindRegion(k', m, start) == FindRegion(k, m, start)
    decreases TOTAL_PAGES - start
  {
    if start + REGION_PAGES <= TOTAL_PAGES {
      assert RegionInUse(k', m, start) == RegionInUse(k, m, start);
      RegionsUnchanged(k, k', m, start + REGION_PAGES);
    }
  }

  predicate SameRegion(t: Task, u: Task) {
    t.regionStart == u.regionStart && t.regionPages == u.regionPages
  }

  ghost function ThreadRecord(k: Kernel, m: int, slot: int, region: int): Task
    requires m in k.tasks && k.current in k.tasks
  {
    var master, caller := k.tasks[m], k.tasks[k.current];
    Task(master.pid, master.pid * 10 + slot, Ready, DEFAULT_QUANTUM, 0, m, caller.threadCount, caller.slots, region, REGION_PAGES)
  }

  lemma BorrowedMaster(k: Kernel, k': Kernel, c: int, record: Task, m: int, master: Task)
    requires Borrowed(k, k', c, record) && m in k.tasks
    ensures m in k'.tasks && k'.tasks[m] == k.tasks[m]
    ensures Borrowed(k.(tasks := k.tasks[m := master]), k'.(tasks := k'.tasks[m := master]), c, record)
  {
    assert m != c;
    assert k'.tasks[m := master] == k.tasks[m := master][c := record];
  }

  lemma BorrowedRecord(k: Kernel, k': Kernel, c: int, record: Task, record': Task)
    requires Borrowed(k, k', c, record)
    ensures Borrowed(k, k'.(tasks := k'.tasks[c := record']), c, record')
    ensures Borrowed(k, k'.(linked := k'.linked + {c}), c, record)
  {
    assert k'.tasks[c := record'] == k.tasks[c := record'];
    assert k'.linked + {c} - {c} == k'.linked - {c};
  }

  ghost function SlotTaken(task: Task, slot: int): Task
    requires 0 <= slot < |task.slots|
  {
    task.(slots := task.slots[slot := true])
  }

  /** Gives the new thread its identifier and fields, but no stack yet. */
  method PrepareThread(s: KernelState, c: int, m: int, tid: int, ghost k: Kernel, ghost caller: Task)
    requires Sound(s) && 0 <= c < s.n && m in k.tasks && Borrowed(k, s.View(), c, caller)
    requires Loose(s.queues.lists, c) && Loose(s.members.lists, c) && Loose(s.members.lists, s.n + c)
    modifies s.tasks, s.queues, s.queues.next, s.queues.prev, s.members, s.members.next, s.members.prev
    ensures s.members.copied <= old(s.members.copied) - {c}
    ensures Sound(s) && c in s.View().linked
    ensures Borrowed(k, s.View(), c, Task(k.tasks[m].pid, tid, Ready, DEFAULT_QUANTUM, 0, m, caller.threadCount, caller.slots, 0, 0))
    ensures Loose(s.queues.lists, c) && Loose(s.members.lists, c) && s.members.lists == old(s.members.lists)[s.n + c := []][c := []]
  {
    hide Sound, Loose, ViewOf, Borrowed;
    ghost var record := Task(k.tasks[m].pid, tid, Ready, DEFAULT_QUANTUM, 0, m, caller.threadCount, caller.slots, 0, 0);
    BorrowedHas(k, s.View(), c, caller);
    BorrowedMaster(k, s.View(), c, caller, m, k.tasks[m]);
    BorrowedRecord(k, s.View(), c, caller, caller);
    var master := RecordOf(s, m);
    var copy := RecordOf(s, c);
    InitLinks(s, c);
    BorrowedHas(k, s.View(), c, caller);
    BorrowedRecord(k, s.View(), c, caller, record);
    SetRecord(s, c, copy.(pid := master.pid, tid := tid, status := Ready, quantum := DEFAULT_QUANTUM, pending := 0, master := m,
                          regionStart := 0, regionPages := 0));
  }

  /** The region search sees the process as it was before the new thread was prepared. */
  lemma BorrowedRegions(k: Kernel, k': Kernel, c: int, record: Task, m: int, slot: int)
    requires HasProcess(k, m) && 0 <= slot < |k.tasks[m].slots|
    requires Borrowed(k.(tasks := k.tasks[m := SlotTaken(k.tasks[m], slot)]), k', c, record) && HasProcess(k', m)
    ensures FindRegion(k', m, STACK_BASE_PAGE) == FindRegion(k, m, STACK_BASE_PAGE) && k'.threads[m] == k.threads[m]
  {
    RegionsUnchanged(k, k', m, STACK_BASE_PAGE);
  }

  /** The new thread joins its process and the ready queue. */
  lemma ThreadJoins(k: Kernel, k': Kernel, c: int, record: Task, m: int, slot: int, region: int)
    requires k.current in k.tasks && m in k.tasks && m in k.threads && 0 <= slot < |k.tasks[m].slots|
    requires Borrowed(k.(tasks := k.tasks[m := SlotTaken(k.tasks[m], slot)]), k', c, record) && c in k'.linked
    ensures m in k'.tasks && m in k'.threads && k'.tasks[m] == SlotTaken(k.tasks[m], slot)
    ensures var t := ThreadRecord(k, m, slot, region);
            var master := SlotTaken(k.tasks[m], slot).(threadCount := k.tasks[m].threadCount + 1);
            var k1 := k'.(tasks := k'.tasks[c := t]);
            var k2 := k1.(tasks := k1.tasks[m := master]);
            var k3 := k2.(threads := k2.threads[m := k2.threads[m] + [c]], linked := k2.linked + {c});
            Appended(k3, c, ToReady) ==
            Spawned(k.(tasks := k.tasks[m := master], threads := k.threads[m := k.threads[m] + [c]]), t)
  {
    var t := ThreadRecord(k, m, slot, region);
    var master := SlotTaken(k.tasks[m], slot).(threadCount := k.tasks[m].threadCount + 1);
    assert k'.tasks[c := t][m := master] == k.tasks[m := master][c := t];
    assert k'.threads[m := k'.threads[m] + [c]] == k.threads[m := k.threads[m] + [c]][c := []];
    assert k'.linked + {c} == k.linked + {c};
  }

  /** No head of a thread list is lost. */
  ghost predicate HeadsKept(n: nat, lists: Lists, lists': Lists) {
    forall h :: h >= n && h in lists ==> h in lists'
  }

  lemma HeadsStayReady(tasks: set<int>, n: nat, lists: Lists, lists': Lists)
    requires HeadsReady(tasks, n, lists) && HeadsKept(n, lists, lists')
    ensures HeadsReady(tasks, n, lists')
  {
  }

  lemma AddingKeepsHeads(n: nat, lists: Lists, h: int, c: int)
    requires c < n && h in lists
    ensures HeadsKept(n, lists, Added(lists, h, c))
  {
  }

  lemma HeadAt(tasks: set<int>, n: nat, lists: Lists, t: int)
    requires HeadsReady(tasks, n, lists) && t in tasks
    ensures 0 <= t < n && n + t in lists
  {
  }

  /** Everything that creation does once the stack is there. */
  method Enlist(s: KernelState, c: int, m: int, region: int, ghost k: Kernel, ghost slot: int)
    requires k.current in k.tasks && m in k.tasks && m in k.threads && 0 <= slot < |k.tasks[m].slots| && k.free != []
    requires Borrowed(k.(tasks := k.tasks[m := SlotTaken(k.tasks[m], slot)]), s.View(), c,
                      ThreadRecord(k, m, slot, region).(regionStart := 0, regionPages := 0))
    requires c in s.View().linked && Loose(s.queues.lists, c) && Loose(s.members.lists, c) && s.n + m in s.members.lists && Sound(s)
    requires c < s.n
    modifies s.tasks, s.queues, s.queues.next, s.queues.prev, s.members, s.members.next, s.members.prev
    ensures s.members.copied <= old(s.members.copied)
    ensures Sound(s) && HeadsKept(s.n, old(s.members.lists), s.members.lists)
    ensures var master := SlotTaken(k.tasks[m], slot).(threadCount := k.tasks[m].threadCount + 1);
            s.View() == Spawned(k.(tasks := k.tasks[m := master], threads := k.threads[m := k.threads[m] + [c]]),
                                ThreadRecord(k, m, slot, region))
  {
    hide Sound, Loose, ViewOf, Borrowed, Added, Appended, Spawned;
    ghost var bare := ThreadRecord(k, m, slot, region).(regionStart := 0, regionPages := 0);
    BorrowedHas(k.(tasks := k.tasks[m := SlotTaken(k.tasks[m], slot)]), s.View(), c, bare);
    ThreadJoins(k, s.View(), c, bare, m, slot, region);
    var thread := RecordOf(s, c);
    SetRecord(s, c, thread.(regionStart := region, regionPages := REGION_PAGES));
    var master := RecordOf(s, m);
    SetRecord(s, m, master.(threadCount := master.threadCount + 1));
    AddingKeepsHeads(s.n, s.members.lists, s.n + m, c);
    Join(s, c, m);
    QueueReady(s, c);
  }

  /** The slot goes back and so does the structure. */
  method GiveUpThread(s: KernelState, c: int, m: int, tid: int, ghost k: Kernel, ghost slot: int, ghost record: Task)
    requires Sound(s) && m in k.tasks && |k.tasks[m].slots| == MAX_TIDS && 0 <= slot < MAX_TIDS && !k.tasks[m].slots[slot]
    requires Borrowed(k.(tasks := k.tasks[m := SlotTaken(k.tasks[m], slot)]), s.View(), c, record)
    requires Loose(s.queues.lists, c) && Loose(s.members.lists, c) && tid == k.tasks[m].pid * 10 + slot
    modifies s.tasks, s.queues, s.queues.next, s.queues.prev
    ensures Sound(s) && s.View() == k.(free := Rotated(k.free)) && s.members.lists == old(s.members.lists) && s.members.copied == old(s.members.copied)
  {
    hide Sound, Loose, ViewOf, Borrowed;
    ghost var k1 := k.(tasks := k.tasks[m := SlotTaken(k.tasks[m], slot)]);
    BorrowedHas(k1, s.View(), c, record);
    assert FreeSlot(SlotTaken(k.tasks[m], slot).slots, slot) == k.tasks[m].slots;
    BorrowedMaster(k1, s.View(), c, record, m, k.tasks[m]);
    assert k1.(tasks := k1.tasks[m := k.tasks[m]]) == k;
    FreeTid(s, m, tid);
    GiveBack(s, c, k, record);
  }

  lemma CreateOutcome(k: Kernel, mapped: bool)
    requires k.current in k.tasks && HasProcess(k, k.tasks[k.current].master) && k.free != []
    ensures var m := k.tasks[k.current].master;
            var slot, region := FirstClear(k.tasks[m].slots, 0), FindRegion(k, m, STACK_BASE_PAGE);
            if slot < 0 || region < 0 || !mapped then CreateThread(k, mapped) == k.(free := Rotated(k.free))
            else
              var master := SlotTaken(k.tasks[m], slot).(threadCount := k.tasks[m].threadCount + 1);
              CreateThread(k, mapped) ==
              Spawned(k.(tasks := k.tasks[m := master], threads := k.threads[m := k.threads[m] + [k.free[0]]]),
                      ThreadRecord(k, m, slot, region))
  {
    hide FindRegion, FirstClear, Spawned;
  }

  /** Structure c was borrowed and slot taken for a new thread of the caller's process m. */
  ghost predicate Creating(k: Kernel, k': Kernel, c: int, m: int, slot: int, record: Task) {
    && k.free != [] && k.current in k.tasks && m == k.tasks[k.current].master && HasProcess(k, m)
    && |k.tasks[m].slots| == MAX_TIDS && slot == FirstClear(k.tasks[m].slots, 0) >= 0
    && Borrowed(k.(tasks := k.tasks[m := SlotTaken(k.tasks[m], slot)]), k', c, record)
  }

  /** Creation once a structure was borrowed and an identifier allocated. */
  method CreateWithTid(s: KernelState, c: int, m: int, tid: int, mapped: bool, ghost k: Kernel, ghost slot: int) returns (r: int)
    requires k.current in k.tasks && Creating(k, s.View(), c, m, slot, k.tasks[k.current]) && tid == k.tasks[m].pid * 10 + slot && 0 <= c < s.n
    requires Loose(s.queues.lists, c) && Loose(s.members.lists, c) && Loose(s.members.lists, s.n + c) && s.n + m in s.members.lists
    requires Sound(s)
    modifies s.tasks, s.queues, s.queues.next, s.queues.prev, s.members, s.members.next, s.members.prev
    ensures s.members.copied <= old(s.members.copied) - {c}
    ensures s.View() == CreateThread(k, mapped) && r == CreateResult(k, mapped) && Sound(s)
    ensures HeadsKept(s.n, old(s.members.lists)[s.n + c := []][c := []], s.members.lists)
  {
    hide Sound, Loose, ViewOf, Borrowed, Spawned, CreateThread, FindRegion, FirstClear, HasProcess, Added;
    ProcessHasList(k, m);
    ghost var k1 := k.(tasks := k.tasks[m := SlotTaken(k.tasks[m], slot)]);
    ghost var bare := Task(k.tasks[m].pid, tid, Ready, DEFAULT_QUANTUM, 0, m, k.tasks[k.current].threadCount, k.tasks[k.current].slots, 0, 0);
    CreateOutcome(k, mapped);
    BorrowedHas(k1, s.View(), c, k.tasks[k.current]);
    PrepareThread(s, c, m, tid, k1, k.tasks[k.current]);
    BorrowedHas(k1, s.View(), c, bare);
    var region := FindFreeStackRegion(s, m);
    BorrowedRegions(k, s.View(), c, bare, m, slot);
    if region < 0 {
      GiveUpThread(s, c, m, tid, k, slot, bare);
      return -ENOMEM;
    }
    if !mapped {
      GiveUpThread(s, c, m, tid, k, slot, bare);
      return -EAGAIN;
    }
    Enlist(s, c, m, region, k, slot);
    return tid;
  }

  lemma ProcessHasList(k: Kernel, m: int)
    requires HasProcess(k, m)
    ensures m in k.tasks && m in k.threads
  {
  }

  /** What creation relies on. */
  lemma CreateFacts(k: Kernel)
    requires Inv(k) && k.current != k.idle
    ensures k.current in k.tasks
    ensures var m := k.tasks[k.current].master; HasProcess(k, m) && |k.tasks[m].slots| == MAX_TIDS && k.tasks[m].pid >= 0
  {
    CurrentIsLive(k);
    Lifecycle.ProcessOf(k, k.current);
  }

  method SysCreateThread(s: KernelState, mapped: bool) returns (r: int)
    requires Inv(s.View()) && s.current != s.idle && Whole(s)
    modifies s.tasks, s.queues, s.queues.next, s.queues.prev, s.members, s.members.next, s.members.prev
    ensures Garbled(s) <= old(Garbled(s))
    ensures Whole(s) && CreateThread.requires(old(s.View()), mapped) && s.View() == CreateThread(old(s.View()), mapped)
    ensures r == CreateResult(old(s.View()), mapped)
  {
    hide Sound, Loose, ViewOf, Borrowed, HeadsReady, Inv, HasProcess, CreateThread, Added, FirstClear, SlotTaken;
    ghost var k, lists := s.View(), s.members.lists;
    CpuOf(s.Contents());
    CreateFacts(k);
    var none := NoneFree(s);
    if none {
      NobodyCreated(k, mapped);
      return -ENOMEM;
    }
    var c := Borrow(s);
    BorrowedHas(k, s.View(), c, k.tasks[k.current]);
    HeadsStay(k.tasks.Keys, lists, s.n, c);
    r := CreateIn(s, c, mapped, k);
    CreateKeys(k, mapped);
    TasksInRange(s);
    NothingGarbled(k.tasks.Keys, s.View().tasks.Keys, old(s.members.copied), s.members.copied, c, s.n);
  }

  lemma NobodyCreated(k: Kernel, mapped: bool)
    requires k.current in k.tasks && HasProcess(k, k.tasks[k.current].master) && k.free == []
    ensures CreateThread(k, mapped) == k
  {
    hide FindRegion, FirstClear;
  }

  /** Creation once a structure was borrowed. */
  method CreateIn(s: KernelState, c: int, mapped: bool, ghost k: Kernel) returns (r: int)
    requires k.current in k.tasks && HasProcess(k, k.tasks[k.current].master) && 0 <= c < s.n && k.free != []
    requires |k.tasks[k.tasks[k.current].master].slots| == MAX_TIDS && k.tasks[k.tasks[k.current].master].pid >= 0
    requires Borrowed(k, s.View(), c, k.tasks[k.current])
    requires Loose(s.queues.lists, c) && Loose(s.members.lists, c) && Loose(s.members.lists, s.n + c)
    requires HeadsReady(k.tasks.Keys, s.n, s.members.lists)
    requires HeadsReady(k.tasks.Keys + {c}, s.n, s.members.lists[s.n + c := []][c := []])
    requires Sound(s)
    modifies s.tasks, s.queues, s.queues.next, s.queues.prev, s.members, s.members.next, s.members.prev
    ensures s.members.copied <= old(s.members.copied) && (c in s.View().tasks ==> c !in s.members.copied)
    ensures s.View() == CreateThread(k, mapped) && r == CreateResult(k, mapped) && Whole(s)
  {
    hide Sound, Loose, ViewOf, Borrowed, HeadsReady, CreateThread, FindRegion, FirstClear, HasProcess, Added;
    ghost var lists := s.members.lists;
    BorrowedHas(k, s.View(), c, k.tasks[k.current]);
    var caller := RecordOf(s, c);
    var m := caller.master;
    ProcessHasList(k, m);
    HeadAt(k.tasks.Keys, s.n, lists, m);
    BorrowedMaster(k, s.View(), c, caller, m, k.tasks[m]);
    ghost var slot;
    ghost var taken := FirstClear(k.tasks[m].slots, 0);
    if taken >= 0 {
      BorrowedMaster(k, s.View(), c, caller, m, SlotTaken(k.tasks[m], taken));
    }
    r, slot := AllocateTid(s, m);
    if r < 0 {
      CreateOutcome(k, mapped);
      GiveBack(s, c, k, caller);
      return -ENOMEM;
    }
    CreateKeys(k, mapped);
    r := CreateWithTid(s, c, m, r, mapped, k, slot);
    HeadsStayReady(k.tasks.Keys + {c}, s.n, lists[s.n + c := []][c := []], s.members.lists);
    HeadsFewer(k.tasks.Keys + {c}, s.View().tasks.Keys, s.n, s.members.lists);
  }

  lemma HeadsFewer(tasks: set<int>, tasks': set<int>, n: nat, lists: Lists)
    requires HeadsReady(tasks, n, lists) && tasks' <= tasks
    ensures HeadsReady(tasks', n, lists)
  {
  }

  lemma CreateKeys(k: Kernel, mapped: bool)
    requires k.current in k.tasks && HasProcess(k, k.tasks[k.current].master) && k.free != []
    ensures CreateThread(k, mapped).tasks.Keys <= k.tasks.Keys + {k.free[0]}
  {
    hide FindRegion, FirstClear;
  }
}
