/**
 Ending a process, a thread, or a master that hands its role over keeps the organisation.
 */
module Endings {
  import opened Sequences
  import opened KernelModel
  import opened Processes

  // A whole process

  ghost predicate CanExit(k: Kernel) {
    IsMaster(k, k.current) && k.current != k.idle && k.current in k.threads
  }

  /** k' holds exactly what k holds outside the process of m. */
  ghost predicate Survive(k: Kernel, k': Kernel, m: int) {
    && (forall t :: t in k'.tasks <==> t in k.tasks && k.tasks[t].master != m)
    && (forall t :: t in k'.tasks ==> k'.tasks[t] == k.tasks[t])
    && k'.threads.Keys == k'.tasks.Keys
    && (forall t :: t in k'.threads ==> t in k.threads && k'.threads[t] == k.threads[t])
    && (forall t :: t in k'.tasks && t in k.linked ==> t in k'.linked)
    && k'.idle == k.idle && k'.nextPid == k.nextPid
  }

  lemma EndedSurvive(k: Kernel)
    requires Led(k) && Listed(k) && CanExit(k)
    ensures Survive(k, Ended(k), k.current)
  {
    var m := k.current;
    forall t | t in k.tasks && k.tasks[t].master == m
      ensures t == m || t in k.threads[m]
    {
      assert BelongsTo(k, t, m);
    }
  }

  lemma SurvivorsAreLed(k: Kernel, k': Kernel, m: int)
    requires Led(k) && Survive(k, k', m) && m != k.idle
    ensures Led(k')
  {
    forall t | t in k'.tasks
      ensures BelongsTo(k', t, k'.tasks[t].master)
    {
      assert BelongsTo(k, t, k.tasks[t].master);
    }
  }

  lemma SurvivorsAreListed(k: Kernel, k': Kernel, m: int)
    requires Led(k) && Listed(k) && Survive(k, k', m) && m != k.idle
    ensures Listed(k')
  {
    hide BelongsTo;
    forall n | n in k'.threads
      ensures NoDuplicates(k'.threads[n])
      ensures IsMaster(k', n) ==> k'.tasks[n].threadCount == 1 + |k'.threads[n]|
      ensures forall t :: t in k'.threads[n] ==> t in k'.tasks && t != n && k'.tasks[t].master == n
    {
      assert n in k.threads;
      forall t | t in k'.threads[n]
        ensures t in k'.tasks && t != n && k'.tasks[t].master == n
      {
        assert t in k.tasks && k.tasks[t].master == n;
        assert BelongsTo(k, t, n);
        MasterIsNot(k, t, n, m);
      }
    }
    assert IsMaster(k, k.idle);
  }

  /** A master that survives is not the one that ends. */
  lemma MasterIsNot(k: Kernel, t: int, n: int, m: int)
    requires BelongsTo(k, t, n) && n in k.tasks && k.tasks[n].master != m
    ensures n != m
  {
  }

  lemma SurvivorsAreSlotted(k: Kernel, k': Kernel, m: int)
    requires Led(k) && Slotted(k) && Survive(k, k', m)
    ensures Slotted(k')
  {
    forall t | t in k'.tasks && t != k.idle
      ensures OwnsSlot(k', t, k'.tasks[t].master)
    {
      assert OwnsSlot(k, t, k.tasks[t].master) && BelongsTo(k, t, k.tasks[t].master);
    }
    forall n, i | IsMaster(k', n) && n != k.idle && 0 <= i < |k'.tasks[n].slots| && k'.tasks[n].slots[i]
      ensures SlotOwned(k', n, i)
    {
      assert IsMaster(k, n) && SlotOwned(k, n, i);
      var t :| t in k.tasks && k.tasks[t].master == n && SlotOf(k.tasks[t]) == i;
      assert t in k'.tasks && k'.tasks[t].master == n && SlotOf(k'.tasks[t]) == i;
    }
  }

  lemma SurvivorsAreNumbered(k: Kernel, k': Kernel, m: int)
    requires Numbered(k) && Survive(k, k', m) && IsMaster(k, k.idle) && m != k.idle
    ensures Numbered(k')
  {
    assert forall t :: IsMaster(k', t) ==> IsMaster(k, t);
  }

  lemma SurvivorsAreStacked(k: Kernel, k': Kernel, m: int)
    requires Stacked(k) && Survive(k, k', m)
    ensures Stacked(k')
  {
  }

  lemma EndedIsOrganised(k: Kernel)
    requires Organised(k) && CanExit(k)
    ensures Organised(Ended(k))
  {
    hide Led, Listed, Numbered, Slotted, Stacked, Survive, Ended;
    var k', m := Ended(k), k.current;
    EndedSurvive(k);
    IdleIsMaster(k);
    SurvivorsAreLed(k, k', m);
    SurvivorsAreListed(k, k', m);
    SurvivorsAreNumbered(k, k', m);
    SurvivorsAreSlotted(k, k', m);
    SurvivorsAreStacked(k, k', m);
  }

  lemma IdleIsMaster(k: Kernel)
    requires Led(k)
    ensures IsMaster(k, k.idle)
  {
  }

  // One thread

  ghost predicate CanLeave(k: Kernel) {
    && k.current in k.tasks && k.current != k.idle && !IsMaster(k, k.current)
    && IsMaster(k, k.tasks[k.current].master) && k.tasks[k.current].master in k.threads
  }

  lemma {:induction false} MinusLength(s: seq<int>, x: int)
    requires NoDuplicates(s) && x in s
    ensures |Minus(s, x)| == |s| - 1
  {
    if s[0] == x {
      MinusAbsent(s[1..], x);
    } else {
      assert x in s[1..];
      MinusLength(s[1..], x);
    }
  }

  lemma {:induction false} MinusAbsent(s: seq<int>, x: int)
    requires x !in s
    ensures Minus(s, x) == s
  {
    if s != [] {
      MinusAbsent(s[1..], x);
    }
  }

  lemma {:induction false} HeadLeaves(s: seq<int>)
    requires s != [] && NoDuplicates(s)
    ensures Minus(s, s[0]) == s[1..]
  {
    MinusAbsent(s[1..], s[0]);
  }

  lemma ThreadEndedIsLed(k: Kernel)
    requires Led(k) && Listed(k) && CanLeave(k)
    ensures Led(ThreadEnded(k))
  {
    hide Minus, NoDuplicates, FreeSlot;
    var k' := ThreadEnded(k);
    assert IsMaster(k', k.idle);
    forall x | x in k'.tasks
      ensures BelongsTo(k', x, k'.tasks[x].master)
    {
      assert BelongsTo(k, x, k.tasks[x].master);
    }
    hide BelongsTo, Listed;
  }

  lemma ThreadEndedLists(k: Kernel, n: int)
    requires CanLeave(k) && n in ThreadEnded(k).threads && n in k.threads && NoDuplicates(k.threads[n])
    requires forall x :: x in k.threads[n] ==> x in k.tasks && x != n && k.tasks[x].master == n
    requires IsMaster(k, n) ==> k.tasks[n].threadCount == 1 + |k.threads[n]|
    requires n == k.tasks[k.current].master ==> k.current in k.threads[n]
    ensures var k' := ThreadEnded(k);
            && NoDuplicates(k'.threads[n])
            && (IsMaster(k', n) ==> k'.tasks[n].threadCount == 1 + |k'.threads[n]|)
            && (forall x :: x in k'.threads[n] ==> x in k'.tasks && x != n && k'.tasks[x].master == n)
  {
    hide Minus, NoDuplicates, FreeSlot;
    var t, m := k.current, k.tasks[k.current].master;
    if n == m {
      MinusLength(k.threads[m], t);
    } else {
      assert ThreadEnded(k).threads[n] == k.threads[n];
    }
  }

  lemma ThreadEndedIsListed(k: Kernel)
    requires Led(k) && Listed(k) && CanLeave(k)
    ensures Listed(ThreadEnded(k))
  {
    var k', t := ThreadEnded(k), k.current;
    assert k'.threads[k.idle] == [] && k.idle in k'.threads by {
      assert k.tasks[t].master != k.idle by {
        assert BelongsTo(k, t, k.tasks[t].master);
      }
    }
    assert BelongsTo(k, t, k.tasks[t].master);
    hide Led, BelongsTo;
    forall n | n in k'.threads
      ensures NoDuplicates(k'.threads[n])
      ensures IsMaster(k', n) ==> k'.tasks[n].threadCount == 1 + |k'.threads[n]|
      ensures forall x :: x in k'.threads[n] ==> x in k'.tasks && x != n && k'.tasks[x].master == n
    {
      assert n in k.threads;
      ThreadEndedLists(k, n);
    }
  }

  /** k' holds all tasks of k but t, with the same identity and stack. */
  ghost predicate LoseOne(k: Kernel, k': Kernel, t: int) {
    && (forall x :: x in k'.tasks <==> x in k.tasks && x != t)
    && (forall x :: x in k'.tasks ==> SameIdentity(k.tasks[x], k'.tasks[x]) && k'.tasks[x].master == k.tasks[x].master)
    && k'.idle == k.idle && k'.nextPid == k.nextPid
  }

  predicate SameIdentity(t: Task, t': Task) {
    t'.pid == t.pid && t'.tid == t.tid && t'.regionStart == t.regionStart && t'.regionPages == t.regionPages
  }

  lemma ThreadEndedLosesOne(k: Kernel)
    requires CanLeave(k)
    ensures LoseOne(k, ThreadEnded(k), k.current)
    ensures var k', t, m := ThreadEnded(k), k.current, k.tasks[k.current].master;
            && (forall x :: x in k'.tasks && x != m ==> k'.tasks[x] == k.tasks[x])
            && m in k'.tasks
            && k'.tasks[m].slots == FreeSlot(k.tasks[m].slots, k.tasks[t].tid - k.tasks[m].pid * 10)
  {
  }

  lemma LoseOneKeepsStacked(k: Kernel, k': Kernel, t: int)
    requires Numbered(k) && Stacked(k) && LoseOne(k, k', t) && t != k.idle
    ensures Numbered(k') && Stacked(k')
  {
    assert forall n :: IsMaster(k', n) ==> IsMaster(k, n);
  }

  lemma LoseOneKeepsSlotted(k: Kernel, k': Kernel, t: int, m: int)
    requires Slotted(k) && LoseOne(k, k', t) && t != k.idle && t in k.tasks && m in k'.tasks && m != k.idle
    requires k.tasks[t].master == m && IsMaster(k, m)
    requires forall x :: x in k.tasks ==> k.tasks[x].master != t
    requires forall x :: x in k'.tasks && x != m ==> k'.tasks[x].slots == k.tasks[x].slots
    requires k'.tasks[m].slots == FreeSlot(k.tasks[m].slots, SlotOf(k.tasks[t]))
    ensures Slotted(k')
  {
    forall x | x in k'.tasks && x != k.idle
      ensures OwnsSlot(k', x, k'.tasks[x].master)
    {
      assert OwnsSlot(k, x, k.tasks[x].master);
    }
    forall n, i | IsMaster(k', n) && n != k.idle && 0 <= i < |k'.tasks[n].slots| && k'.tasks[n].slots[i]
      ensures SlotOwned(k', n, i)
    {
      assert IsMaster(k, n) && SlotOwned(k, n, i);
      var x :| x in k.tasks && k.tasks[x].master == n && SlotOf(k.tasks[x]) == i;
      assert x in k'.tasks && k'.tasks[x].master == n && SlotOf(k'.tasks[x]) == i;
    }
  }

  lemma NobodysMaster(k: Kernel)
    requires Led(k) && CanLeave(k)
    ensures forall x :: x in k.tasks ==> k.tasks[x].master != k.current
    ensures BelongsTo(k, k.current, k.tasks[k.current].master)
  {
    forall x | x in k.tasks
      ensures k.tasks[x].master != k.current
    {
      assert BelongsTo(k, x, k.tasks[x].master);
    }
  }

  lemma ThreadEndedIsOrganised(k: Kernel)
    requires Organised(k) && CanLeave(k) && k.tasks[k.current].master != k.idle
    ensures Organised(ThreadEnded(k))
  {
    hide Led, Listed, Slotted, Numbered, Stacked, ThreadEnded;
    ThreadEndedIsLed(k);
    ThreadEndedIsListed(k);
    ThreadEndedLosesOne(k);
    NobodysMaster(k);
    LoseOneKeepsStacked(k, ThreadEnded(k), k.current);
    LoseOneKeepsSlotted(k, ThreadEnded(k), k.current, k.tasks[k.current].master);
  }

  // A master with threads

  ghost predicate CanHandOver(k: Kernel) {
    && IsMaster(k, k.current) && k.current != k.idle && k.current in k.threads
    && k.threads[k.current] != [] && k.threads[k.current][0] in k.tasks
  }

  /** The process of m in k is the process of n in k', without m. */
  ghost predicate Inherit(k: Kernel, k': Kernel, m: int, n: int) {
    && (forall x :: x in k'.tasks <==> x in k.tasks && x != m)
    && (forall x :: x in k'.tasks ==>
          && SameIdentity(k.tasks[x], k'.tasks[x])
          && k'.tasks[x].master == (if k.tasks[x].master == m then n else k.tasks[x].master))
    && (forall x :: x in k'.tasks && k.tasks[x].master != m ==>
          k'.tasks[x].slots == k.tasks[x].slots && k'.tasks[x].threadCount == k.tasks[x].threadCount)
    && m in k.tasks && n in k'.tasks && k.tasks[n].master == m
    && k'.tasks[n].slots == FreeSlot(k.tasks[m].slots, SlotOf(k.tasks[m]))
    && k'.tasks[n].threadCount == k.tasks[m].threadCount - 1
    && k'.idle == k.idle && k'.nextPid == k.nextPid
  }

  /** The threads of a master are those on its list. */
  lemma ThreadsOfMaster(k: Kernel, m: int, n: int, rest: seq<int>)
    requires Led(k) && Listed(k) && IsMaster(k, m) && m in k.threads && k.threads[m] == [n] + rest
    ensures forall x :: x in k.tasks && x != m ==> (k.tasks[x].master == m <==> x == n || x in rest)
    ensures n in k.tasks && n != m && m !in rest
  {
    assert n in k.threads[m];
    forall x | x in k.tasks && x != m
      ensures k.tasks[x].master == m <==> x == n || x in rest
    {
      assert BelongsTo(k, x, k.tasks[x].master);
      assert x in k.threads[m] <==> x == n || x in rest;
    }
    assert m !in k.threads[m];
  }

  /** The list of a master names its threads. */
  ghost predicate Names(k: Kernel, m: int, n: int, rest: seq<int>) {
    && m in k.tasks && n in k.tasks && n != m && m !in rest
    && forall x :: x in k.tasks && x != m ==> (k.tasks[x].master == m <==> x == n || x in rest)
  }

  lemma HeirIsNamed(k: Kernel)
    requires Led(k) && Listed(k) && CanHandOver(k)
    ensures Names(k, k.current, k.threads[k.current][0], k.threads[k.current][1..])
  {
    var m := k.current;
    var n, rest := k.threads[m][0], k.threads[m][1..];
    assert k.threads[m] == [n] + rest;
    ThreadsOfMaster(k, m, n, rest);
  }

  lemma NamedInherit(k: Kernel)
    requires CanHandOver(k) && Names(k, k.current, k.threads[k.current][0], k.threads[k.current][1..])
    ensures Inherit(k, HandedOver(k), k.current, k.threads[k.current][0])
  {
    hide FreeSlot;
  }

  lemma HandOverInherits(k: Kernel)
    requires Led(k) && Listed(k) && CanHandOver(k)
    ensures Inherit(k, HandedOver(k), k.current, k.threads[k.current][0])
  {
    hide Led, Listed, Names, Inherit, HandedOver;
    HeirIsNamed(k);
    NamedInherit(k);
  }

  /** The lists after a hand-over: the heir takes over the rest of the list, the others keep theirs. */
  ghost predicate ListsMoved(k: Kernel, k': Kernel, m: int, n: int, rest: seq<int>) {
    && n in k'.threads && k'.threads[n] == rest && k'.threads.Keys == (k.threads.Keys + {n}) - {m}
    && (forall p :: p in k.threads && p != m && p != n ==> p in k'.threads && k'.threads[p] == k.threads[p])
    && k'.linked == k.linked - {m, n}
  }

  lemma HandOverMovesLists(k: Kernel)
    requires CanHandOver(k) && k.threads[k.current][0] != k.current
    ensures ListsMoved(k, HandedOver(k), k.current, k.threads[k.current][0], k.threads[k.current][1..])
  {
    hide FreeSlot, Adopted;
  }

  lemma BelongsAfterHandOver(k: Kernel, k': Kernel, m: int, n: int, rest: seq<int>, x: int)
    requires Inherit(k, k', m, n) && ListsMoved(k, k', m, n, rest) && IsMaster(k, m) && m in k.threads && k.threads[m] == [n] + rest
    requires x in k'.tasks && BelongsTo(k, x, k.tasks[x].master) && BelongsTo(k, n, m)
    ensures BelongsTo(k', x, k'.tasks[x].master)
  {
  }

  lemma InheritedIsLed(k: Kernel, k': Kernel, m: int, n: int, rest: seq<int>)
    requires Led(k) && Inherit(k, k', m, n) && ListsMoved(k, k', m, n, rest)
    requires IsMaster(k, m) && m != k.idle && m in k.threads && k.threads[m] == [n] + rest
    ensures Led(k')
  {
    forall x
      ensures x in k'.tasks.Keys <==> x in k'.threads.Keys
    {
      assert x in k'.tasks <==> x in k.tasks.Keys && x != m;
    }
    assert IsMaster(k', k'.idle) by {
      assert k.tasks[k.idle].master == k.idle;
    }
    forall x | x in k'.tasks
      ensures BelongsTo(k', x, k'.tasks[x].master)
    {
      assert BelongsTo(k, x, k.tasks[x].master) && BelongsTo(k, n, k.tasks[n].master);
      BelongsAfterHandOver(k, k', m, n, rest, x);
    }
    hide BelongsTo, Inherit, ListsMoved;
  }

  lemma HandedOverIsLed(k: Kernel)
    requires Led(k) && Listed(k) && CanHandOver(k)
    ensures Led(HandedOver(k))
  {
    hide HandedOver, Led, Listed, Inherit, ListsMoved;
    var m := k.current;
    var n, rest := k.threads[m][0], k.threads[m][1..];
    assert k.threads[m] == [n] + rest;
    HandOverInherits(k);
    HeirIsNamed(k);
    HandOverMovesLists(k);
    InheritedIsLed(k, HandedOver(k), m, n, rest);
  }

  lemma ListAfterHandOver(k: Kernel, k': Kernel, m: int, n: int, rest: seq<int>, p: int)
    requires Inherit(k, k', m, n) && ListsMoved(k, k', m, n, rest) && IsMaster(k, m) && m in k.threads && k.threads[m] == [n] + rest
    requires Names(k, m, n, rest) && Listed(k) && p in k'.threads && n !in rest
    ensures NoDuplicates(k'.threads[p])
    ensures IsMaster(k', p) ==> k'.tasks[p].threadCount == 1 + |k'.threads[p]|
    ensures forall x :: x in k'.threads[p] ==> x in k'.tasks && x != p && k'.tasks[x].master == p
  {
    if p == n {
      assert forall x :: x in rest ==> x in k.threads[m];
      TailHasNoDuplicates(k.threads[m]);
      assert k.threads[m][1..] == rest;
    } else {
      hide NoDuplicates, Names;
      assert p in k.threads && k'.threads[p] == k.threads[p];
    }
  }

  lemma TailHasNoDuplicates(s: seq<int>)
    requires NoDuplicates(s) && s != []
    ensures NoDuplicates(s[1..]) && s[0] !in s[1..]
  {
  }

  lemma InheritedIsListed(k: Kernel, k': Kernel, m: int, n: int, rest: seq<int>)
    requires Listed(k) && Inherit(k, k', m, n) && ListsMoved(k, k', m, n, rest) && Names(k, m, n, rest)
    requires IsMaster(k, m) && m != k.idle && m in k.threads && k.threads[m] == [n] + rest && n !in rest && n != k.idle
    ensures Listed(k')
  {
    hide NoDuplicates, Names;
    forall p | p in k'.threads
      ensures NoDuplicates(k'.threads[p])
      ensures IsMaster(k', p) ==> k'.tasks[p].threadCount == 1 + |k'.threads[p]|
      ensures forall x :: x in k'.threads[p] ==> x in k'.tasks && x != p && k'.tasks[x].master == p
    {
      ListAfterHandOver(k, k', m, n, rest, p);
    }
    assert k'.idle == k.idle && k.idle in k'.threads && k'.threads[k.idle] == [];
    hide Inherit, ListsMoved;
  }

  lemma HandedOverIsListed(k: Kernel)
    requires Led(k) && Listed(k) && CanHandOver(k)
    ensures Listed(HandedOver(k))
  {
    hide HandedOver, Inherit, ListsMoved, Names;
    var m := k.current;
    var n, rest := k.threads[m][0], k.threads[m][1..];
    assert k.threads[m] == [n] + rest;
    HandOverInherits(k);
    HeirIsNamed(k);
    TailHasNoDuplicates(k.threads[m]);
    assert n != m && n != k.idle by {
      assert n in k.threads[m];
    }
    hide Led, Listed, NoDuplicates;
    HandOverMovesLists(k);
    InheritedIsListed(k, HandedOver(k), m, n, rest);
  }

  /** The masters of k' are the heir and the other masters of k. */
  lemma MastersAfterHandOver(k: Kernel, k': Kernel, m: int, n: int)
    requires Led(k) && Inherit(k, k', m, n) && IsMaster(k, m) && m != k.idle
    ensures forall p :: IsMaster(k', p) <==> p == n || (p != m && IsMaster(k, p))
    ensures k'.tasks[n].pid == k.tasks[m].pid
    ensures forall x :: x in k.tasks ==> k.tasks[x].master == m || k.tasks[x].master in k'.tasks
  {
    assert BelongsTo(k, n, m);
    forall x | x in k.tasks
      ensures k.tasks[x].master == m || k.tasks[x].master in k'.tasks
      ensures IsMaster(k', x) <==> x == n || (x != m && IsMaster(k, x))
    {
      assert BelongsTo(k, x, k.tasks[x].master);
    }
  }

  lemma HandOverKeepsNumbered(k: Kernel, k': Kernel, m: int, n: int)
    requires Led(k) && Numbered(k) && Inherit(k, k', m, n) && IsMaster(k, m) && m != k.idle
    ensures Numbered(k')
  {
    MastersAfterHandOver(k, k', m, n);
    hide Led;
  }

  lemma HandOverKeepsStacked(k: Kernel, k': Kernel, m: int, n: int)
    requires Led(k) && Stacked(k) && Inherit(k, k', m, n) && IsMaster(k, m)
    ensures Stacked(k')
  {
    forall x, u | x in k'.tasks && u in k'.tasks && x != u && k'.tasks[x].master == k'.tasks[u].master
      ensures k.tasks[x].master == k.tasks[u].master
    {
      assert BelongsTo(k, x, k.tasks[x].master) && BelongsTo(k, u, k.tasks[u].master);
    }
  }

  lemma OwnsAfterHandOver(k: Kernel, k': Kernel, m: int, n: int, x: int)
    requires Inherit(k, k', m, n) && x in k'.tasks && k.tasks[x].master in k.tasks && IsMaster(k, m)
    requires OwnsSlot(k, x, k.tasks[x].master) && OwnsSlot(k, m, m)
    requires k.tasks[x].master == m || (k.tasks[x].master in k'.tasks && k.tasks[k.tasks[x].master].master != m)
    requires k.tasks[x].master == m ==> k'.tasks[n].pid == k.tasks[m].pid && SlotOf(k.tasks[x]) != SlotOf(k.tasks[m])
    ensures OwnsSlot(k', x, k'.tasks[x].master)
  {
  }

  lemma OwnedAfterHandOver(k: Kernel, k': Kernel, m: int, n: int, p: int, i: int)
    requires Inherit(k, k', m, n) && IsMaster(k, m) && SlotOwned(k, if p == n then m else p, i) && p != m
    requires p == n ==> i != SlotOf(k.tasks[m])
    ensures SlotOwned(k', p, i)
  {
    var q := if p == n then m else p;
    var x :| x in k.tasks && k.tasks[x].master == q && SlotOf(k.tasks[x]) == i;
    assert x in k'.tasks && k'.tasks[x].master == p && SlotOf(k'.tasks[x]) == i;
  }

  lemma SlotAfterHandOver(k: Kernel, k': Kernel, m: int, n: int, x: int)
    requires Led(k) && Slotted(k) && Inherit(k, k', m, n) && IsMaster(k, m) && m != k.idle && x in k'.tasks && x != k.idle
    ensures OwnsSlot(k', x, k'.tasks[x].master)
  {
    MastersAfterHandOver(k, k', m, n);
    assert BelongsTo(k, n, m) && OwnsSlot(k, m, m);
    assert OwnsSlot(k, x, k.tasks[x].master) && BelongsTo(k, x, k.tasks[x].master);
    OwnsAfterHandOver(k, k', m, n, x);
  }

  lemma OwnerAfterHandOver(k: Kernel, k': Kernel, m: int, n: int, p: int, i: int)
    requires Led(k) && Slotted(k) && Inherit(k, k', m, n) && IsMaster(k, m) && m != k.idle
    requires IsMaster(k', p) && p != k.idle && 0 <= i < |k'.tasks[p].slots| && k'.tasks[p].slots[i]
    ensures SlotOwned(k', p, i)
  {
    MastersAfterHandOver(k, k', m, n);
    assert IsMaster(k, if p == n then m else p) && BelongsTo(k, n, m);
    OwnedAfterHandOver(k, k', m, n, p, i);
  }

  lemma HandOverKeepsSlotted(k: Kernel, k': Kernel, m: int, n: int)
    requires Led(k) && Slotted(k) && Inherit(k, k', m, n) && IsMaster(k, m) && m != k.idle
    ensures Slotted(k')
  {
    assert k'.idle == k.idle;
    hide Led, Inherit, OwnsSlot, SlotOwned;
    forall x | x in k'.tasks && x != k.idle
      ensures OwnsSlot(k', x, k'.tasks[x].master)
    {
      SlotAfterHandOver(k, k', m, n, x);
    }
    forall p, i | IsMaster(k', p) && p != k.idle && 0 <= i < |k'.tasks[p].slots| && k'.tasks[p].slots[i]
      ensures SlotOwned(k', p, i)
    {
      OwnerAfterHandOver(k, k', m, n, p, i);
    }
    HandOverKeepsSlotsApart(k, k', m, n);
  }

  lemma HandOverKeepsSlotsApart(k: Kernel, k': Kernel, m: int, n: int)
    requires Led(k) && Slotted(k) && Inherit(k, k', m, n) && IsMaster(k, m)
    ensures forall t, u ::
              t in k'.tasks && u in k'.tasks && t != u && t != k.idle && k'.tasks[t].master == k'.tasks[u].master ==>
              SlotOf(k'.tasks[t]) != SlotOf(k'.tasks[u])
  {
    hide Led, Slotted, Inherit;
    forall x, u | x in k'.tasks && u in k'.tasks && x != u && x != k.idle && k'.tasks[x].master == k'.tasks[u].master
      ensures SlotOf(k'.tasks[x]) != SlotOf(k'.tasks[u])
    {
      HandOverKeepsPairApart(k, k', m, n, x, u);
    }
  }

  lemma HandOverKeepsPairApart(k: Kernel, k': Kernel, m: int, n: int, x: int, u: int)
    requires Led(k) && Slotted(k) && Inherit(k, k', m, n) && IsMaster(k, m)
    requires x in k'.tasks && u in k'.tasks && x != u && x != k.idle && k'.tasks[x].master == k'.tasks[u].master
    ensures SlotOf(k'.tasks[x]) != SlotOf(k'.tasks[u])
  {
    hide OwnsSlot, SlotOwned;
    assert BelongsTo(k, x, k.tasks[x].master) && BelongsTo(k, u, k.tasks[u].master);
  }

  lemma HandedOverIsOrganised(k: Kernel)
    requires Organised(k) && CanHandOver(k)
    ensures Organised(HandedOver(k))
  {
    hide Led, Listed, Slotted, Numbered, Stacked, HandedOver, Inherit;
    HandedOverIsLed(k);
    HandedOverIsListed(k);
    HandOverInherits(k);
    var k', m, n := HandedOver(k), k.current, k.threads[k.current][0];
    HandOverKeepsNumbered(k, k', m, n);
    HandOverKeepsStacked(k, k', m, n);
    HandOverKeepsSlotted(k, k', m, n);
  }
}
