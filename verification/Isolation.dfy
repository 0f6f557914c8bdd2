/**
 The base kernel's memory refines a machine in which every process owns its memory outright.

 The reference machine has no frames, tables or translation cache: fork copies a value, exit drops
 one, a store changes one byte of the running process.
 */
module Isolation {
  import opened Frames
  import opened CopyData
  import opened BaseModel
  import opened BaseKernel
  import opened Sequences

  datatype Reference = Reference(base: Base, memory: map<int, seq<seq<Byte>>>)

  datatype Action = DoFork | DoExit(next: nat) | DoSwitch(next: nat) | DoStore(page: nat, off: nat, b: Byte) | DoLoad(page: nat, off: nat)

  ghost predicate Shaped(space: seq<seq<Byte>>) {
    |space| == NUM_PAG_DATA && forall i :: 0 <= i < NUM_PAG_DATA ==> |space[i]| == PAGE_SIZE
  }

  ghost predicate Ok(r: Reference) {
    Inv(r.base) && r.memory.Keys == r.base.data.Keys && forall p :: p in r.memory ==> Shaped(r.memory[p])
  }

  ghost predicate Possible(r: Reference, a: Action) {
    match a
    case DoFork => Enabled(r.base, ForkStep)
    case DoExit(next) => Enabled(r.base, ExitStep(next))
    case DoSwitch(next) => Enabled(r.base, SwitchStep(next))
    case DoStore(page, off, _) => r.base.current in r.base.data && page < NUM_PAG_DATA && off < PAGE_SIZE
    case DoLoad(page, off) => r.base.current in r.base.data && page < NUM_PAG_DATA && off < PAGE_SIZE
  }

  ghost function StepOf(a: Action): Step
    requires a.DoFork? || a.DoExit? || a.DoSwitch?
  {
    match a
    case DoFork => ForkStep
    case DoExit(next) => ExitStep(next)
    case DoSwitch(next) => SwitchStep(next)
  }

  ghost function MemoryAfter(r: Reference, a: Action): map<int, seq<seq<Byte>>>
    requires Ok(r) && Possible(r, a)
  {
    match a
    case DoFork => if r.base.free == [] then r.memory else r.memory[r.base.free[0] := r.memory[r.base.current]]
    case DoExit(_) => if r.base.current == r.base.init then r.memory else r.memory - {r.base.current}
    case DoStore(page, off, b) =>
      var space := r.memory[r.base.current];
      r.memory[r.base.current := space[page := space[page][off := b]]]
    case _ => r.memory
  }

  ghost function BaseAfter(r: Reference, a: Action): (s: Base)
    requires Ok(r) && Possible(r, a)
    ensures Inv(s)
  {
    match a
    case DoStore(_, _, _) => r.base
    case DoLoad(_, _) => r.base
    case _ => BaseModel.Next(r.base, StepOf(a))
  }

  ghost function Next(r: Reference, a: Action): (r': Reference)
    requires Ok(r) && Possible(r, a)
    ensures Ok(r')
  {
    hide Count, FramesN, AllocatedN, ReleasedAll, FramesOk;
    if a.DoFork? && r.base.free != [] then
      ForkNeverRunsOut(r.base);
      Reference(BaseAfter(r, a), MemoryAfter(r, a))
    else
      Reference(BaseAfter(r, a), MemoryAfter(r, a))
  }

  /** What the action reports to the process. */
  ghost function Loaded(r: Reference, a: Action): seq<Byte>
    requires Ok(r) && Possible(r, a)
  {
    if a.DoLoad? then [r.memory[r.base.current][a.page][a.off]] else []
  }

  ghost predicate Runs(r: Reference, actions: seq<Action>)
    requires Ok(r)
    decreases |actions|
  {
    actions == [] || (Possible(r, actions[0]) && Runs(Next(r, actions[0]), actions[1..]))
  }

  ghost function After(r: Reference, actions: seq<Action>): (r': Reference)
    requires Ok(r) && Runs(r, actions)
    ensures Ok(r')
    decreases |actions|
  {
    if actions == [] then r else After(Next(r, actions[0]), actions[1..])
  }

  ghost function AllLoaded(r: Reference, actions: seq<Action>): seq<Byte>
    requires Ok(r) && Runs(r, actions)
    decreases |actions|
  {
    if actions == [] then [] else Loaded(r, actions[0]) + AllLoaded(Next(r, actions[0]), actions[1..])
  }

  /** Process q never runs. */
  ghost predicate NeverRuns(r: Reference, actions: seq<Action>, q: int)
    requires Ok(r) && Runs(r, actions)
    decreases |actions|
  {
    actions == [] || (r.base.current != q && NeverRuns(Next(r, actions[0]), actions[1..], q))
  }

  /** Whatever the others do, a process finds its memory as it left it. */
  lemma {:induction false} NobodyElseWrites(r: Reference, actions: seq<Action>, q: int)
    requires Ok(r) && Runs(r, actions) && NeverRuns(r, actions, q) && q in r.memory
    ensures var r' := After(r, actions); q in r'.memory && r'.memory[q] == r.memory[q]
    decreases |actions|
  {
    hide Inv;
    if actions != [] {
      OneStepKeeps(r, actions[0], q);
      NobodyElseWrites(Next(r, actions[0]), actions[1..], q);
    }
  }

  lemma OneStepKeeps(r: Reference, a: Action, q: int)
    requires Ok(r) && Possible(r, a) && r.base.current != q && q in r.memory
    ensures var r' := Next(r, a); q in r'.memory && r'.memory[q] == r.memory[q]
  {
    hide Count, FramesN, AllocatedN, ReleasedAll, FramesOk;
    if a.DoFork? && r.base.free != [] {
      var child := r.base.free[0];
      assert child in r.base.free;
    }
  }

  /** Every byte a process can see is the one the reference machine gives it. */
  ghost predicate Represents(k: Kernel, r: Reference)
    reads k, k.machine, k.machine.mem, k.machine.tables, k.frames.used, k.pids
  {
    && k.Valid() && Ok(r) && k.View() == r.base
    && forall p, i, o :: p in k.data && 0 <= i < NUM_PAG_DATA && 0 <= o < PAGE_SIZE ==>
         k.machine.mem[k.data[p][i], o] == r.memory[p][i][o]
  }

  lemma NextOfFork(r: Reference)
    requires Ok(r) && Possible(r, DoFork)
    ensures r.base.free == [] ==> Next(r, DoFork) == r && Fork(r.base) == r.base
    ensures r.base.free != [] ==>
              Next(r, DoFork) == Reference(Fork(r.base), r.memory[r.base.free[0] := r.memory[r.base.current]]) &&
              -1 !in FramesN(r.base.used, NUM_PAG_DATA)
  {
    hide Count, FramesN, AllocatedN, FramesOk;
    if r.base.free != [] {
      ForkNeverRunsOut(r.base);
    }
  }

  /** After a fork everyone still sees their own bytes, and the child sees the parent's. */
  method PerformFork(k: Kernel, ghost r: Reference)
    requires Represents(k, r) && Possible(r, DoFork)
    modifies k, k.machine, k.machine.mem, k.machine.tables, k.frames.used, k.pids
    ensures Represents(k, Next(r, DoFork))
  {
    hide Count, FramesN, AllocatedN, FramesOk, Fork, Next;
    NextOfFork(r);
    var pid := k.SysFork();
    if pid >= 0 {
      forall p, i, o | p in k.data && 0 <= i < NUM_PAG_DATA && 0 <= o < PAGE_SIZE
        ensures k.machine.mem[k.data[p][i], o] == Next(r, DoFork).memory[p][i][o]
      {
        if p != r.base.free[0] {
          ApartFrom(k.View(), p, r.base.free[0], i);
        }
      }
    }
  }

  lemma ApartFrom(s: Base, p: int, q: int, i: nat)
    requires FramesOk(s) && p in s.data && q in s.data && p != q && i < NUM_PAG_DATA
    ensures s.data[p][i] !in s.data[q]
  {
    hide Count, NoDuplicates, Owned;
    var f := s.data[p][i];
    assert f in s.data[p];
    assert f in s.data[q] ==> p == q;
  }

  method PerformStore(k: Kernel, page: nat, off: nat, b: Byte, ghost r: Reference)
    requires Represents(k, r) && Possible(r, DoStore(page, off, b))
    modifies k.machine, k.machine.mem
    ensures Represents(k, Next(r, DoStore(page, off, b)))
  {
    hide Count, FramesOk;
    k.Store(page, off, b);
  }

  method PerformLoad(k: Kernel, page: nat, off: nat, ghost r: Reference) returns (loaded: seq<Byte>)
    requires Represents(k, r) && Possible(r, DoLoad(page, off))
    modifies k.machine
    ensures Represents(k, Next(r, DoLoad(page, off))) && loaded == Loaded(r, DoLoad(page, off))
  {
    hide Count, FramesOk;
    var b := k.Load(page, off);
    loaded := [b];
  }

  method Perform(k: Kernel, a: Action, ghost r: Reference) returns (loaded: seq<Byte>)
    requires Represents(k, r) && Possible(r, a)
    modifies k, k.machine, k.machine.mem, k.machine.tables, k.frames.used, k.pids
    ensures Represents(k, Next(r, a)) && loaded == Loaded(r, a)
  {
    hide Count, FramesN, AllocatedN, ReleasedAll, FramesOk;
    loaded := [];
    match a
    case DoFork => PerformFork(k, r);
    case DoExit(next) => k.SysExit(next);
    case DoSwitch(next) => k.Switch(next);
    case DoStore(page, off, b) => PerformStore(k, page, off, b, r);
    case DoLoad(page, off) => loaded := PerformLoad(k, page, off, r);
  }

  /** Over any run, every load returns what the reference machine says and every byte stays represented. */
  method PerformAll(k: Kernel, actions: seq<Action>, ghost r: Reference) returns (loaded: seq<Byte>)
    requires Ok(r) && Represents(k, r) && Runs(r, actions)
    modifies k, k.machine, k.machine.mem, k.machine.tables, k.frames.used, k.pids
    ensures Represents(k, After(r, actions)) && loaded == AllLoaded(r, actions)
  {
    hide Represents, Next, Loaded, Possible, Ok;
    assert actions[0..] == actions;
    ghost var r' := r;
    loaded := [];
    for i := 0 to |actions|
      invariant Ok(r') && Represents(k, r') && Runs(r', actions[i..])
      invariant After(r, actions) == After(r', actions[i..])
      invariant AllLoaded(r, actions) == loaded + AllLoaded(r', actions[i..])
    {
      assert actions[i..][1..] == actions[i + 1..];
      var out := Perform(k, actions[i], r');
      r' := Next(r', actions[i]);
      loaded := loaded + out;
    }
  }

  /** The kernel as booted, with empty memory. */
  ghost function Booted(): (r: Reference)
    ensures Ok(r)
  {
    hide Filled, Boot, Inv;
    BootIsGood();
    var base := Boot(TOTAL_PAGES, NUM_PAG_CODE, NUM_PAG_DATA);
    OnlyInit();
    Reference(base, map[1 := Filled(NUM_PAG_DATA, Filled(PAGE_SIZE, 0))])
  }

  lemma OnlyInit()
    ensures Boot(TOTAL_PAGES, NUM_PAG_CODE, NUM_PAG_DATA).data.Keys == {1}
  {
    hide FramesN, AllocatedN, InitialFrames;
  }

  /** Everything that processes ever load, in any run from boot, is what the reference machine gives them. */
  method RunFromBoot(actions: seq<Action>) returns (loaded: seq<Byte>)
    requires Runs(Booted(), actions)
    ensures loaded == AllLoaded(Booted(), actions)
  {
    hide Filled, Boot, Inv;
    OnlyInit();
    var k := new Kernel();
    loaded := PerformAll(k, actions, Booted());
  }
}
