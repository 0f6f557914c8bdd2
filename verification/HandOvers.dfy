/**
 Who cannot hand a process over: exactly those who got it by a hand-over themselves. The first hand-over
 unlinks the heir's list entry for good, and the second one would unlink it again.
 */
module HandOvers {
  import opened Sequences
  import opened Links
  import opened KernelModel
  import opened Placement
  import opened Processes
  import opened Lifecycle
  import opened Endings
  import opened KernelRuns
  import opened KernelCode
  import opened KernelCalls
  import opened KernelMachine

  /** Who is alive after one more step and got its process by a hand-over. */
  ghost function HeirsNext(k: Kernel, step: Step, heirs: set<int>): set<int>
    requires Inv(k) && Enabled(k, step)
  {
    (if HandsOver(k, step) then heirs + {k.threads[k.current][0]} else heirs) * Next(k, step).tasks.Keys
  }

  /** Who is alive after a run and got its process by a hand-over. */
  ghost function Heirs(k: Kernel, steps: seq<Step>, heirs: set<int>): set<int>
    requires Inv(k) && Runs(k, steps)
    decreases |steps|
  {
    hide Inv, Next, HeirsNext;
    if steps == [] then heirs else Heirs(Next(k, steps[0]), steps[1..], HeirsNext(k, steps[0], heirs))
  }

  /** The list entries of exactly these masters are unlinked. */
  ghost predicate Tracks(k: Kernel, heirs: set<int>) {
    heirs <= k.tasks.Keys && k.linked == k.tasks.Keys - heirs && forall t :: t in heirs ==> IsMaster(k, t)
  }

  // Steps

  lemma RescheduleTracks(k: Kernel, k': Kernel, heirs: set<int>)
    requires Reschedules(k, k') && Tracks(k, heirs)
    ensures Tracks(k', heirs) && heirs * k'.tasks.Keys == heirs
  {
  }

  lemma ForkTracks(k: Kernel, memory: ForkMemory, heirs: set<int>)
    requires k.current in k.tasks && Accounted(k) && Tracks(k, heirs)
    ensures Tracks(Fork(k, memory), heirs * Fork(k, memory).tasks.Keys)
  {
    if k.free != [] {
      FirstFreeIsNotLive(k);
    }
  }

  lemma CreateTracks(k: Kernel, mapped: bool, heirs: set<int>)
    requires k.current in k.tasks && HasProcess(k, k.tasks[k.current].master) && Accounted(k) && Tracks(k, heirs)
    ensures Tracks(CreateThread(k, mapped), heirs * CreateThread(k, mapped).tasks.Keys)
  {
    hide FindRegion, FirstClear;
    if k.free != [] {
      FirstFreeIsNotLive(k);
    }
  }

  lemma EndTracks(k: Kernel, heirs: set<int>)
    requires k.current in k.threads && Tracks(k, heirs)
    ensures Tracks(Ended(k), heirs * Ended(k).tasks.Keys)
  {
    hide MinusAll;
  }

  lemma ThreadEndTracks(k: Kernel, heirs: set<int>)
    requires CanLeave(k) && Tracks(k, heirs)
    ensures Tracks(ThreadEnded(k), heirs * ThreadEnded(k).tasks.Keys)
  {
    hide Minus, FreeSlot;
  }

  lemma HandOverTracks(k: Kernel, heirs: set<int>)
    requires Organised(k) && CanHandOver(k) && Tracks(k, heirs)
    ensures Tracks(HandedOver(k), (heirs + {k.threads[k.current][0]}) * HandedOver(k).tasks.Keys)
  {
    hide Led, Listed, Numbered, Slotted, Stacked, HandedOver, Inherit, Names;
    HeirIsNamed(k);
    HandOverInherits(k);
    HeirDiffers(k);
    HandOverMovesLists(k);
    InheritTracks(k, HandedOver(k), k.current, k.threads[k.current][0], k.threads[k.current][1..], heirs);
  }

  lemma HeirDiffers(k: Kernel)
    requires CanHandOver(k) && Names(k, k.current, k.threads[k.current][0], k.threads[k.current][1..])
    ensures k.threads[k.current][0] != k.current
  {
  }

  lemma InheritTracks(k: Kernel, k': Kernel, m: int, n: int, rest: seq<int>, heirs: set<int>)
    requires Inherit(k, k', m, n) && ListsMoved(k, k', m, n, rest) && IsMaster(k, m) && n != m && Tracks(k, heirs)
    ensures Tracks(k', (heirs + {n}) * k'.tasks.Keys)
  {
    forall x
      ensures x in k'.tasks.Keys <==> x in k.tasks.Keys && x != m
    {
      assert x in k'.tasks <==> x in k.tasks && x != m;
    }
  }

  lemma DispatchTracks(k: Kernel, heirs: set<int>)
    requires Vacant(k) && Tracks(k, heirs)
    ensures SchedNext.requires(k) && Tracks(SchedNext(k), heirs) && SchedNext(k).tasks.Keys == k.tasks.Keys
  {
    VacantCanDispatch(k);
    hide Vacant;
    SchedNextReschedules(k);
    hide SchedNext;
    RescheduleTracks(k, SchedNext(k), heirs);
  }

  lemma ExitTracks(k: Kernel, heirs: set<int>)
    requires Inv(k) && IsMaster(k, k.current) && k.current != k.idle && Tracks(k, heirs)
    ensures k.current in k.threads && SchedNext.requires(Ended(k))
    ensures Tracks(SchedNext(Ended(k)), heirs * SchedNext(Ended(k)).tasks.Keys)
  {
    hide Inv, Tracks, Ended, SchedNext;
    ExitKeepsInv(k);
    EndTracks(k, heirs);
    DispatchTracks(Ended(k), heirs * Ended(k).tasks.Keys);
  }

  lemma LeavingTracks(k: Kernel, heirs: set<int>)
    requires Inv(k) && k.current != k.idle && !IsMaster(k, k.current) && Tracks(k, heirs)
    ensures CanLeave(k) && SchedNext.requires(ThreadEnded(k))
    ensures Tracks(SchedNext(ThreadEnded(k)), heirs * SchedNext(ThreadEnded(k)).tasks.Keys)
  {
    hide Inv, Tracks, ThreadEnded, SchedNext;
    ThreadEndKeepsInv(k);
    ThreadEndTracks(k, heirs);
    DispatchTracks(ThreadEnded(k), heirs * ThreadEnded(k).tasks.Keys);
  }

  lemma HandingOnTracks(k: Kernel, heirs: set<int>)
    requires Inv(k) && HandsOver(k, ExitThreadCall) && k.current != k.idle && Tracks(k, heirs)
    ensures CanHandOver(k) && SchedNext.requires(HandedOver(k))
    ensures Tracks(SchedNext(HandedOver(k)), (heirs + {k.threads[k.current][0]}) * SchedNext(HandedOver(k)).tasks.Keys)
  {
    HandOverKeepsInv(k);
    hide Dispatched, Accounted, Organised, Tracks, HandedOver, SchedNext, Vacant;
    HandOverTracks(k, heirs);
    DispatchTracks(HandedOver(k), (heirs + {k.threads[k.current][0]}) * HandedOver(k).tasks.Keys);
  }

  lemma ExitThreadTracks(k: Kernel, heirs: set<int>)
    requires Inv(k) && Enabled(k, ExitThreadCall) && Tracks(k, heirs)
    ensures Tracks(Next(k, ExitThreadCall), HeirsNext(k, ExitThreadCall, heirs))
  {
    hide Inv, Tracks, Ended, ThreadEnded, HandedOver, SchedNext, ExitThread;
    assert Next(k, ExitThreadCall) == ExitThread(k);
    hide Next;
    ExitThreadCases(k);
    if !IsMaster(k, k.current) {
      LeavingTracks(k, heirs);
    } else if HandsOver(k, ExitThreadCall) {
      HandingOnTracks(k, heirs);
    } else {
      ExitTracks(k, heirs);
    }
  }

  lemma NobodyInherits(k: Kernel, step: Step, heirs: set<int>)
    requires Inv(k) && Enabled(k, step) && step != ExitThreadCall
    ensures HeirsNext(k, step, heirs) == heirs * Next(k, step).tasks.Keys
  {
    hide Inv, Next, Enabled;
  }

  lemma QuietStepTracks(k: Kernel, step: Step, heirs: set<int>)
    requires Inv(k) && Enabled(k, step) && Tracks(k, heirs)
    requires step == ClockTick || step == BlockCall || step == WaitForTickCall || step.UnblockCall?
    ensures Tracks(Next(k, step), HeirsNext(k, step, heirs))
  {
    hide Inv, Next, Enabled, HeirsNext, Reschedules, Tracks;
    StepReschedules(k, step);
    RescheduleTracks(k, Next(k, step), heirs);
    NobodyInherits(k, step, heirs);
  }

  lemma SpawningFacts(k: Kernel)
    requires Inv(k) && k.current != k.idle
    ensures k.current in k.tasks && HasProcess(k, k.tasks[k.current].master) && Accounted(k)
  {
    CurrentIsLive(k);
    ProcessOf(k, k.current);
  }

  lemma SpawningTracks(k: Kernel, step: Step, heirs: set<int>)
    requires Inv(k) && Enabled(k, step) && Tracks(k, heirs) && (step.ForkCall? || step.CreateThreadCall?)
    ensures Tracks(Next(k, step), HeirsNext(k, step, heirs))
  {
    hide Inv, Next, HeirsNext, Tracks, Fork, CreateThread, Accounted;
    SpawningFacts(k);
    NobodyInherits(k, step, heirs);
    match step {
      case ForkCall(memory) =>
        NextOfFork(k, memory);
        ForkTracks(k, memory, heirs);
      case CreateThreadCall(mapped) =>
        NextOfCreation(k, mapped);
        CreateTracks(k, mapped, heirs);
    }
  }

  lemma StepTracks(k: Kernel, step: Step, heirs: set<int>)
    requires Inv(k) && Enabled(k, step) && Tracks(k, heirs)
    ensures Tracks(Next(k, step), HeirsNext(k, step, heirs))
  {
    hide Inv, Tracks, Ended, SchedNext, ExitThread, Fork, CreateThread, Scheduler, Block, Unblock, WaitForTick;
    if step == ExitThreadCall {
      ExitThreadTracks(k, heirs);
    } else if step == ExitCall {
      ExitTracks(k, heirs);
    } else if step.ForkCall? || step.CreateThreadCall? {
      SpawningTracks(k, step, heirs);
    } else {
      QuietStepTracks(k, step, heirs);
    }
  }

  // Runs

  lemma {:induction false} RunTracks(k: Kernel, steps: seq<Step>, heirs: set<int>)
    requires Inv(k) && Runs(k, steps) && Tracks(k, heirs)
    ensures Tracks(After(k, steps), Heirs(k, steps, heirs))
    decreases |steps|
  {
    hide Inv, Next, Enabled, Tracks, HeirsNext;
    if steps != [] {
      StepTracks(k, steps[0], heirs);
      RunTracks(Next(k, steps[0]), steps[1..], HeirsNext(k, steps[0], heirs));
    }
  }

  /**
   After every run from boot: a live task is unlinked exactly if it got its process by a hand-over, and the
   end of the running thread is possible exactly if it is not such an heir with threads of its own.
   */
  lemma HeirsCannotHandOver(free: seq<int>, steps: seq<Step>)
    requires NoDuplicates(free) && 0 !in free && 1 !in free
    requires Inv(Boot(free)) && Runs(Boot(free), steps)
    ensures var k, heirs := After(Boot(free), steps), Heirs(Boot(free), steps, {});
            && (forall t :: t in k.tasks ==> (t !in k.linked <==> t in heirs))
            && (forall t :: t in heirs ==> IsMaster(k, t))
            && (Enabled(k, ExitThreadCall) <==>
                  k.current != k.idle && !(k.current in heirs && k.current in k.threads && k.threads[k.current] != []))
  {
    BootTracks(free);
    hide Inv, Runs, After, Heirs, Boot;
    RunTracks(Boot(free), steps, {});
    ExitOfHeirs(After(Boot(free), steps), Heirs(Boot(free), steps, {}));
  }

  lemma BootTracks(free: seq<int>)
    ensures Tracks(Boot(free), {})
  {
    assert Boot(free).tasks.Keys == {0, 1};
  }

  lemma ExitOfHeirs(k: Kernel, heirs: set<int>)
    requires Inv(k) && Tracks(k, heirs)
    ensures Enabled(k, ExitThreadCall) <==>
              k.current != k.idle && !(k.current in heirs && k.current in k.threads && k.threads[k.current] != [])
  {
    CurrentIsLive(k);
    LedMeansSameKeys(k);
    hide Dispatched, Accounted, Organised;
  }

  // What the code asks for

  /** On the links, a live task is linked exactly if its list entry can be unlinked. */
  lemma LinkedMeansUnlinkable(r: Memory, t: int)
    requires Shaped(r) && Live(r, t)
    ensures t in ViewOf(r).linked <==> exists h, k: nat :: Unlinks(r.members, t, h, k)
  {
    if t in r.members {
      assert Unlinks(r.members, t, 0, 0);
    } else if Member(r.members, t) {
      var h :| h in r.members && t in r.members[h];
      var k :| 0 <= k < |r.members[h]| && r.members[h][k] == t;
      assert Unlinks(r.members, t, h, k);
    }
    if h, k: nat :| Unlinks(r.members, t, h, k) {
      if h in r.members && k < |r.members[h]| && r.members[h][k] == t {
        assert t in r.members[h];
      }
    }
  }

  lemma UnlinkingNeedsNoHeir(s: KernelState, heirs: set<int>, t: int)
    requires Whole(s) && t in s.View().tasks && Tracks(s.View(), heirs)
    ensures (exists h, k: nat :: Unlinks(s.members.lists, t, h, k)) <==> t !in heirs
  {
    MemoryIsShaped(s, t);
    hide Whole, ViewOf, Shaped, Live;
    LinkedMeansUnlinkable(s.Contents(), t);
  }

  lemma MemoryIsShaped(s: KernelState, t: int)
    requires Whole(s) && t in s.View().tasks
    ensures Shaped(s.Contents()) && Live(s.Contents(), t) && s.View() == ViewOf(s.Contents()) && s.Contents().members == s.members.lists
  {
    hide Tidy, HeadsReady, QueueShape, MemberShape, Disjoint, LinkedTasks, ThreadLists;
  }

  /** The list entry of an unlinked task has null links. */
  lemma UnlinkedIsBlank(s: KernelState, t: int)
    requires Whole(s) && t in s.View().tasks && t !in s.View().linked && t !in s.members.copied
    ensures Blank(s.members.next[..], s.members.prev[..], t)
  {
    MemoryIsShaped(s, t);
    hide Tidy, HeadsReady, QueueShape, MemberShape, Disjoint, ThreadLists, Records, WellFormed, Blank;
    assert !Linked(s.members.lists, t);
    assert s.members.Valid();
  }

  /** The entry of an heir cannot be unlinked, since both its links are null; the entries of all others can. */
  ghost predicate Faults(s: KernelState, heirs: set<int>, t: int)
    reads s, s.members, s.members.next, s.members.prev
  {
    && ((exists h, k: nat :: Unlinks(s.members.lists, t, h, k)) <==> t !in heirs)
    && (t in heirs ==> Blank(s.members.next[..], s.members.prev[..], t))
  }

  lemma HeirsFault(s: KernelState, heirs: set<int>, t: int)
    requires Whole(s) && t in s.View().tasks && Garbled(s) == {} && Tracks(s.View(), heirs)
    ensures Faults(s, heirs, t)
  {
    hide Whole, ViewOf, Blank;
    UnlinkingNeedsNoHeir(s, heirs, t);
    if t in heirs {
      assert t in s.members.copied ==> t in Garbled(s);
      UnlinkedIsBlank(s, t);
    }
  }

  /** After every run on the links from boot, exactly the heirs have an entry that cannot be unlinked, with null links. */
  method RunWithHeirs(n: nat, steps: seq<Step>) returns (s: KernelState)
    requires n >= 2 && NoDuplicates(UpTo(n)[2..]) && Inv(Boot(UpTo(n)[2..])) && Runs(Boot(UpTo(n)[2..]), steps)
    ensures s.View() == After(Boot(UpTo(n)[2..]), steps)
    ensures forall t :: t in s.View().tasks ==> Faults(s, Heirs(Boot(UpTo(n)[2..]), steps, {}), t)
  {
    hide Inv, Runs, After, Heirs, Boot, Whole, UpTo, Faults, Garbled;
    s := RunFromBoot(n, steps);
    BootTracks(UpTo(n)[2..]);
    RunTracks(Boot(UpTo(n)[2..]), steps, {});
    forall t | t in s.View().tasks
      ensures Faults(s, Heirs(Boot(UpTo(n)[2..]), steps, {}), t)
    {
      HeirsFault(s, Heirs(Boot(UpTo(n)[2..]), steps, {}), t);
    }
  }
}
