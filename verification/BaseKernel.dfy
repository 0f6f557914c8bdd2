/**
 Fork and exit of the base kernel, on page tables, physical memory and the translation cache.
 */
module BaseKernel {
  import opened Frames
  import opened CopyData
  import opened Paging
  import opened BaseModel

  const DATA_PAGE: nat := 256
  const CODE_PAGE: nat := DATA_PAGE + NUM_PAG_DATA
  /** First page of the window through which fork reaches the child's frames. */
  const WINDOW_PAGE: nat := NUM_PAG_KERNEL + NUM_PAG_CODE + NUM_PAG_DATA

  const ENOMEM := 12
  const EAGAIN := 11

  /** Freeing what was just allocated restores the map, given that the first user frame is held. */
  lemma RollbackRestores(used: seq<bool>, n: nat)
    requires |used| == TOTAL_PAGES && used[NUM_PAG_KERNEL] && -1 !in FramesN(used, n)
    ensures ReleasedAll(AllocatedN(used, n), FramesN(used, n)) == used
  {
    hide Count;
    AllocatesDifferentFrames(used, n);
    var fs, used' := FramesN(used, n), AllocatedN(used, n);
    hide FramesN, AllocatedN;
    ReleasesFrames(used', fs);
  }

  lemma {:induction false} FirstFrameStays(used: seq<bool>, frames: seq<int>)
    requires |used| == TOTAL_PAGES && used[NUM_PAG_KERNEL]
    ensures ReleasedAll(used, frames)[NUM_PAG_KERNEL]
  {
    if frames != [] {
      FirstFrameStays(used, frames[..|frames| - 1]);
    }
  }

  /** The rollback of fork restores the map exactly when the first user frame was held, or nothing was taken. */
  lemma RollbackRestoresExactly(used: seq<bool>, n: nat)
    requires |used| == TOTAL_PAGES && -1 !in FramesN(used, n)
    ensures ReleasedAll(AllocatedN(used, n), FramesN(used, n)) == used <==> used[NUM_PAG_KERNEL] || n == 0
  {
    if used[NUM_PAG_KERNEL] {
      RollbackRestores(used, n);
    } else if n > 0 {
      FirstCodeFrame(used, n);
      AllocatesDifferentFrames(used, n);
      FirstFrameStays(AllocatedN(used, n), FramesN(used, n));
    }
  }

  lemma {:induction false} FramesArePrefix(used: seq<bool>, m: nat, n: nat)
    requires m <= n
    ensures FramesN(used, m) == FramesN(used, n)[..m]
  {
    if m < n {
      FramesArePrefix(used, m, n - 1);
    }
  }

  /** The frames that fork allocates are different and belong to no process; the slot it takes is no process. */
  lemma NewFramesFit(s: Base)
    requires Inv(s) && s.free != [] && -1 !in FramesN(s.used, NUM_PAG_DATA)
    ensures s.free[0] !in s.data && s.free[0] != s.current && s.free[0] != s.init
    ensures var fs := FramesN(s.used, NUM_PAG_DATA);
            && (forall i, j :: 0 <= i < j < NUM_PAG_DATA ==> fs[i] != fs[j])
            && (forall i :: 0 <= i < NUM_PAG_DATA ==> 0 <= fs[i] < TOTAL_PAGES)
            && (forall p, i :: p in s.data && 0 <= i < NUM_PAG_DATA ==> fs[i] !in s.data[p])
  {
    hide FramesN, AllocatedN, Count;
    var fs, child := FramesN(s.used, NUM_PAG_DATA), s.free[0];
    assert child in s.free;
    AllocatesDifferentFrames(s.used, NUM_PAG_DATA);
    NewFramesAreApart(s, fs);
    assert forall i :: 0 <= i < NUM_PAG_DATA ==> fs[i] in fs;
  }

  lemma FirstFrameHeld(s: Base)
    requires Inv(s)
    ensures s.used[NUM_PAG_KERNEL]
  {
    hide Count;
    assert Owned(s, NUM_PAG_KERNEL);
  }

  lemma ForkCases(s: Base)
    ensures s.free == [] ==> Fork(s) == s
    ensures s.free != [] && -1 in FramesN(s.used, NUM_PAG_DATA) ==> Fork(s) == s.(free := s.free[1..] + [s.free[0]])
    ensures s.free != [] && -1 !in FramesN(s.used, NUM_PAG_DATA) ==>
              Fork(s) == s.(used := AllocatedN(s.used, NUM_PAG_DATA), data := s.data[s.free[0] := FramesN(s.used, NUM_PAG_DATA)],
                            free := s.free[1..])
  {
    hide FramesN, AllocatedN;
  }

  /** There are frames for the first process. */
  lemma BootFrames()
    ensures -1 !in FramesN(InitialFrames(TOTAL_PAGES), NUM_PAG_CODE)
    ensures -1 !in FramesN(AllocatedN(InitialFrames(TOTAL_PAGES), NUM_PAG_CODE), NUM_PAG_DATA)
  {
    hide FramesN, AllocatedN, InitialFrames, Count;
    var used := InitialFrames(TOTAL_PAGES);
    InitialCount(TOTAL_PAGES);
    FramesLast(used, NUM_PAG_CODE);
    AllocatesDifferentFrames(used, NUM_PAG_CODE);
    FramesLast(AllocatedN(used, NUM_PAG_CODE), NUM_PAG_DATA);
  }

  lemma NextFrame(used: seq<bool>, i: nat, n: nat)
    requires i < n && -1 !in FramesN(used, n)
    ensures FramesN(used, n)[i] == FirstFree(AllocatedN(used, i), NUM_PAG_KERNEL) >= 0
  {
    FramesArePrefix(used, i + 1, n);
    assert FramesN(used, n)[i] in FramesN(used, n);
  }

  class Kernel {
    const machine: Machine
    const frames: FrameTable
    const pids: array<int>
    var free: seq<int>
    var current: nat
    var nextPid: int
    ghost var data: map<int, seq<int>>
    ghost var code: seq<int>

    ghost function View(): Base
      reads this, frames.used
    {
      Base(frames.used[..], code, data, free, 0, 1, current)
    }

    /** Boot: idle takes the first task structure and init the second; only init has user pages. */
    constructor ()
      ensures Valid() && View() == Boot(TOTAL_PAGES, NUM_PAG_CODE, NUM_PAG_DATA)
      ensures fresh(machine) && fresh(machine.mem) && fresh(machine.tables) && fresh(frames) && fresh(frames.used) && fresh(pids)
      ensures forall f, o :: 0 <= f < TOTAL_PAGES && 0 <= o < PAGE_SIZE ==> machine.mem[f, o] == 0
    {
      machine := new Machine(NR_TASKS, 0);
      frames := new FrameTable();
      pids := new int[NR_TASKS](i => i);
      free, current, nextPid := [2, 3, 4, 5, 6, 7, 8, 9], 1, 1;
      code, data := [], map[];
      new;
      InitMemory();
    }

    /** The memory part of boot: kernel pages for every task, user pages for init. */
    method InitMemory()
      requires machine.Valid() && machine.tasks == NR_TASKS && frames.used.Length == TOTAL_PAGES
      requires forall i :: 0 <= i < TOTAL_PAGES ==> frames.used[i] == (i < NUM_PAG_KERNEL)
      requires forall t, p :: 0 <= t < NR_TASKS && 0 <= p < TOTAL_PAGES ==> machine.tables[t, p] == NO_ENTRY
      requires pids.Length == NR_TASKS && pids[1] == 1 && nextPid == 1 && current == 1 && free == [2, 3, 4, 5, 6, 7, 8, 9]
      modifies this`code, this`data, machine, machine.tables, frames.used
      ensures Valid() && View() == Boot(TOTAL_PAGES, NUM_PAG_CODE, NUM_PAG_DATA)
    {
      hide FramesN, AllocatedN, Count, Inv, InitialFrames, WindowClosed;
      BootIsGood();
      BootFrames();
      assert frames.used[..] == InitialFrames(TOTAL_PAGES);
      InitTablePages();
      code := SetUserPages(CODE_PAGE, NUM_PAG_CODE);
      ghost var dataFrames := SetUserPages(DATA_PAGE, NUM_PAG_DATA);
      data := map[1 := dataFrames];
      machine.SetCr3(1);
      assert View() == Boot(TOTAL_PAGES, NUM_PAG_CODE, NUM_PAG_DATA);
      NothingInWindow();
      assert Mapped(1, dataFrames) && CodeMapped(1);
      hide Boot, Mapped, CodeMapped;
    }

    lemma NothingInWindow()
      requires machine.Valid() && machine.tasks == NR_TASKS
      requires forall t, p :: 0 <= t < NR_TASKS && CODE_PAGE + NUM_PAG_CODE <= p < TOTAL_PAGES ==> machine.tables[t, p] == NO_ENTRY
      ensures forall t :: 0 <= t < NR_TASKS ==> WindowClosed(t)
    {
    }

    method InitTablePages()
      requires machine.Valid() && machine.tasks == NR_TASKS
      requires forall t, p :: 0 <= t < NR_TASKS && 0 <= p < TOTAL_PAGES ==> machine.tables[t, p] == NO_ENTRY
      modifies machine.tables
      ensures machine.Valid()
      ensures forall t, p :: 0 <= t < NR_TASKS && 0 <= p < TOTAL_PAGES ==>
                machine.tables[t, p] == if 1 <= p < NUM_PAG_KERNEL then Entry(p, true) else NO_ENTRY
    {
      for j := 0 to NR_TASKS
        invariant machine.Valid()
        invariant forall t, p :: 0 <= t < NR_TASKS && 0 <= p < TOTAL_PAGES ==>
                    machine.tables[t, p] == if t < j && 1 <= p < NUM_PAG_KERNEL then Entry(p, true) else NO_ENTRY
      {
        for i := 1 to NUM_PAG_KERNEL
          invariant machine.Valid()
          invariant forall t, p :: 0 <= t < NR_TASKS && 0 <= p < TOTAL_PAGES ==>
                      machine.tables[t, p] ==
                      if (t < j && 1 <= p < NUM_PAG_KERNEL) || (t == j && 1 <= p < i) then Entry(p, true) else NO_ENTRY
        {
          machine.SetSsPag(j, i, i);
        }
      }
    }

    /** Maps newly allocated frames into init. */
    method SetUserPages(first: nat, count: nat) returns (ghost fs: seq<int>)
      requires machine.Valid() && machine.tasks == NR_TASKS && frames.used.Length == TOTAL_PAGES && first + count <= TOTAL_PAGES
      requires -1 !in FramesN(frames.used[..], count)
      modifies machine.tables, frames.used
      ensures machine.Valid() && fs == FramesN(old(frames.used[..]), count)
      ensures frames.used[..] == AllocatedN(old(frames.used[..]), count)
      ensures forall i :: 0 <= i < count ==> fs[i] >= 0 && machine.tables[1, first + i] == Entry(fs[i], true)
      ensures forall t, p :: 0 <= t < NR_TASKS && 0 <= p < TOTAL_PAGES && !(t == 1 && first <= p < first + count) ==>
                machine.tables[t, p] == old(machine.tables[t, p])
    {
      ghost var used := frames.used[..];
      fs := FramesN(used, count);
      hide FramesN, Allocated;
      for page := 0 to count
        invariant machine.Valid() && frames.used[..] == AllocatedN(used, page)
        invariant forall i :: 0 <= i < page ==> fs[i] >= 0 && machine.tables[1, first + i] == Entry(fs[i], true)
        invariant forall t, p :: 0 <= t < NR_TASKS && 0 <= p < TOTAL_PAGES && !(t == 1 && first <= p < first + page) ==>
                    machine.tables[t, p] == old(machine.tables[t, p])
      {
        NextFrame(used, page, count);
        var frame := frames.AllocFrame();
        machine.SetSsPag(1, first + page, frame);
      }
    }

    ghost predicate Mapped(p: int, frames: seq<int>)
      reads machine, machine.mem, machine.tables
      requires machine.Valid()
    {
      0 <= p < machine.tasks && |frames| == NUM_PAG_DATA &&
      forall i :: 0 <= i < NUM_PAG_DATA ==> frames[i] >= 0 && machine.tables[p, DATA_PAGE + i] == Entry(frames[i], true)
    }

    ghost predicate WindowClosed(t: int)
      reads machine, machine.mem, machine.tables
      requires machine.Valid() && 0 <= t < machine.tasks
    {
      forall p :: WINDOW_PAGE <= p < WINDOW_PAGE + NUM_PAG_DATA ==> machine.tables[t, p] == NO_ENTRY
    }

    ghost predicate CodeMapped(p: int)
      reads this`code, machine, machine.mem, machine.tables
      requires machine.Valid() && 0 <= p < machine.tasks
    {
      |code| == NUM_PAG_CODE &&
      forall i :: 0 <= i < NUM_PAG_CODE ==> code[i] >= 0 && machine.tables[p, CODE_PAGE + i] == Entry(code[i], true)
    }

    /** The table of every process maps its own data frames and the shared code, and nothing is mapped in the window. */
    ghost predicate Spaces()
      reads this`data, this`code, machine, machine.mem, machine.tables
      requires machine.Valid() && machine.tasks == NR_TASKS
    {
      && (forall p :: p in data ==> Mapped(p, data[p]) && CodeMapped(p))
      && (forall t :: 0 <= t < NR_TASKS ==> WindowClosed(t))
    }

    /** Only init has process identifier one. */
    ghost predicate Pids()
      reads this`data, this`nextPid, pids
    {
      pids.Length == NR_TASKS && nextPid >= 1 && pids[1] == 1 &&
      forall p :: p in data && 0 <= p < NR_TASKS && p != 1 ==> pids[p] > 1
    }

    ghost predicate Valid()
      reads this, machine, machine.mem, machine.tables, frames.used, pids
    {
      && machine.Valid() && machine.tasks == NR_TASKS && frames.used.Length == TOTAL_PAGES
      && Inv(View()) && machine.cr3 == current && (forall t :: t in free ==> 0 <= t < NR_TASKS)
      && Pids() && Spaces() && machine.Coherent()
    }

    /** Allocates the data frames of a child, or none. */
    method AllocDataFrames(newFrames: array<int>) returns (ok: bool)
      requires frames.used.Length == TOTAL_PAGES && frames.used[NUM_PAG_KERNEL] && newFrames.Length == NUM_PAG_DATA
      modifies frames.used, newFrames
      ensures ok <==> -1 !in FramesN(old(frames.used[..]), NUM_PAG_DATA)
      ensures ok ==> newFrames[..] == FramesN(old(frames.used[..]), NUM_PAG_DATA)
      ensures frames.used[..] == if ok then AllocatedN(old(frames.used[..]), NUM_PAG_DATA) else old(frames.used[..])
    {
      ghost var used := frames.used[..];
      for i := 0 to NUM_PAG_DATA
        invariant -1 !in FramesN(used, i) && newFrames[..i] == FramesN(used, i)
        invariant frames.used[..] == AllocatedN(used, i)
      {
        ghost var fs := FramesN(used, i);
        var frame := frames.AllocFrame();
        newFrames[i] := frame;
        assert newFrames[..i] == fs;
        assert newFrames[..i + 1] == fs + [frame];
        if frame < 0 {
          FramesArePrefix(used, i + 1, NUM_PAG_DATA);
          assert frame in FramesN(used, i + 1);
          Rollback(newFrames, i, used);
          return false;
        }
      }
      return true;
    }

    method Rollback(newFrames: array<int>, n: nat, ghost used: seq<bool>)
      requires |used| == frames.used.Length == TOTAL_PAGES && used[NUM_PAG_KERNEL] && n <= newFrames.Length
      requires -1 !in FramesN(used, n) && newFrames[..n] == FramesN(used, n) && frames.used[..] == AllocatedN(used, n)
      modifies frames.used
      ensures frames.used[..] == used
    {
      ghost var fs := FramesN(used, n);
      RollbackRestores(used, n);
      for j := 0 to n
        invariant frames.used[..] == ReleasedAll(AllocatedN(used, n), fs[..j])
      {
        assert fs[..j + 1][..j] == fs[..j];
        frames.FreeFrame(newFrames[j]);
      }
      assert fs[..n] == fs;
    }

    /** Shares the parent's kernel and code pages with the child. */
    method ShareKernelAndCode(child: nat)
      requires machine.Valid() && child < machine.tasks && current < machine.tasks && child != current
      modifies machine.tables
      ensures machine.Valid()
      ensures forall p :: (0 <= p < NUM_PAG_KERNEL || CODE_PAGE <= p < CODE_PAGE + NUM_PAG_CODE) ==>
                machine.tables[child, p] == Entry(machine.tables[current, p].frame, true)
      ensures forall t, p :: 0 <= t < machine.tasks && 0 <= p < TOTAL_PAGES ==>
                t != child || NUM_PAG_KERNEL <= p < CODE_PAGE || CODE_PAGE + NUM_PAG_CODE <= p ==>
                machine.tables[t, p] == old(machine.tables[t, p])
    {
      SharePages(child, 0, NUM_PAG_KERNEL);
      SharePages(child, CODE_PAGE, NUM_PAG_CODE);
    }

    method SharePages(child: nat, first: nat, count: nat)
      requires machine.Valid() && child < machine.tasks && current < machine.tasks && child != current
      requires first + count <= TOTAL_PAGES
      modifies machine.tables
      ensures machine.Valid()
      ensures forall p :: first <= p < first + count ==> machine.tables[child, p] == Entry(machine.tables[current, p].frame, true)
      ensures forall t, p :: 0 <= t < machine.tasks && 0 <= p < TOTAL_PAGES && (t != child || p < first || first + count <= p) ==>
                machine.tables[t, p] == old(machine.tables[t, p])
    {
      for page := 0 to count
        invariant machine.Valid()
        invariant forall p :: first <= p < first + page ==> machine.tables[child, p] == Entry(machine.tables[current, p].frame, true)
        invariant forall t, p :: 0 <= t < machine.tasks && 0 <= p < TOTAL_PAGES && (t != child || p < first || first + page <= p) ==>
                    machine.tables[t, p] == old(machine.tables[t, p])
      {
        machine.SetSsPag(child, first + page, machine.GetFrame(current, first + page));
      }
    }

    /** All cached translations outside the window pages below `top` agree with the current table. */
    ghost predicate CoherentBut(top: int)
      reads machine, machine.mem, machine.tables
      requires machine.Valid()
    {
      forall e :: e in machine.tlb && !(WINDOW_PAGE <= e.0 < top) ==>
        e.0 < TOTAL_PAGES && machine.tables[machine.cr3, e.0] == Entry(e.1, true)
    }

    /** Maps one new frame into the child and copies the parent's page into it through the window. */
    method CopyDataPage(child: nat, page: nat, frame: nat, ghost source: nat)
      requires machine.Valid() && child < machine.tasks && child != machine.cr3 && machine.cr3 == current
      requires page < NUM_PAG_DATA && frame < TOTAL_PAGES && frame != source
      requires machine.tables[current, DATA_PAGE + page] == Entry(source, true)
      requires WindowClosed(current) && CoherentBut(WINDOW_PAGE + page)
      modifies machine`tlb, machine.mem, machine.tables
      ensures machine.Valid() && CoherentBut(WINDOW_PAGE + page + 1)
      ensures machine.tlb == old(machine.tlb) + {(DATA_PAGE + page, source), (WINDOW_PAGE + page, frame)}
      ensures forall t, p :: 0 <= t < machine.tasks && 0 <= p < TOTAL_PAGES ==>
                machine.tables[t, p] == if t == child && p == DATA_PAGE + page then Entry(frame, true) else old(machine.tables[t, p])
      ensures forall f, o :: 0 <= f < TOTAL_PAGES && 0 <= o < PAGE_SIZE ==>
                machine.mem[f, o] == old(machine.mem[if f == frame then source else f, o])
    {
      MapInChild(child, page, frame);
      CopyThroughWindow(page, frame, source);
    }

    method MapInChild(child: nat, page: nat, frame: nat)
      requires machine.Valid() && child < machine.tasks && child != machine.cr3
      requires page < NUM_PAG_DATA && frame < TOTAL_PAGES && CoherentBut(WINDOW_PAGE + page)
      modifies machine.tables
      ensures machine.Valid() && CoherentBut(WINDOW_PAGE + page) && machine.tables[child, DATA_PAGE + page] == Entry(frame, true)
      ensures forall t, p :: 0 <= t < machine.tasks && 0 <= p < TOTAL_PAGES && !(t == child && p == DATA_PAGE + page) ==>
                machine.tables[t, p] == old(machine.tables[t, p])
    {
      machine.SetSsPag(child, DATA_PAGE + page, frame);
    }

    /** Opens the window on a frame, copies one page of the running task into it, and closes the window. */
    method CopyThroughWindow(page: nat, frame: nat, ghost source: nat)
      requires machine.Valid() && machine.cr3 == current
      requires page < NUM_PAG_DATA && frame < TOTAL_PAGES && frame != source
      requires machine.tables[current, DATA_PAGE + page] == Entry(source, true)
      requires machine.tables[current, WINDOW_PAGE + page] == NO_ENTRY && CoherentBut(WINDOW_PAGE + page)
      modifies machine`tlb, machine.mem, machine.tables
      ensures machine.Valid() && CoherentBut(WINDOW_PAGE + page + 1)
      ensures machine.tlb == old(machine.tlb) + {(DATA_PAGE + page, source), (WINDOW_PAGE + page, frame)}
      ensures forall t, p :: 0 <= t < machine.tasks && 0 <= p < TOTAL_PAGES ==> machine.tables[t, p] == old(machine.tables[t, p])
      ensures forall f, o :: 0 <= f < TOTAL_PAGES && 0 <= o < PAGE_SIZE ==>
                machine.mem[f, o] == old(machine.mem[if f == frame then source else f, o])
    {
      hide Machine.Block, Machine.OnlyFrame, WordCopy;
      OpenWindow(page, frame, source);
      machine.CopyPage(DATA_PAGE + page, WINDOW_PAGE + page, source, frame);
      machine.DelSsPag(current, WINDOW_PAGE + page);
    }

    method OpenWindow(page: nat, frame: nat, ghost source: nat)
      requires machine.Valid() && machine.cr3 == current
      requires page < NUM_PAG_DATA && frame < TOTAL_PAGES
      requires machine.tables[current, DATA_PAGE + page] == Entry(source, true)
      requires machine.tables[current, WINDOW_PAGE + page] == NO_ENTRY && CoherentBut(WINDOW_PAGE + page)
      modifies machine.tables
      ensures machine.Valid() && machine.Resolves(DATA_PAGE + page, source) && machine.Resolves(WINDOW_PAGE + page, frame)
      ensures CoherentBut(WINDOW_PAGE + page + 1)
      ensures forall t, p :: 0 <= t < machine.tasks && 0 <= p < TOTAL_PAGES && !(t == current && p == WINDOW_PAGE + page) ==>
                machine.tables[t, p] == old(machine.tables[t, p])
    {
      machine.SetSsPag(current, WINDOW_PAGE + page, frame);
    }

    method CopyDataPages(child: nat, newFrames: array<int>, ghost sources: seq<int>)
      requires machine.Valid() && child < machine.tasks && child != machine.cr3 && machine.cr3 == current
      requires newFrames.Length == NUM_PAG_DATA
      requires forall i, j :: 0 <= i < j < NUM_PAG_DATA ==> newFrames[i] != newFrames[j]
      requires forall i :: 0 <= i < NUM_PAG_DATA ==> 0 <= newFrames[i] < TOTAL_PAGES && newFrames[i] !in sources
      requires Mapped(current, sources) && WindowClosed(current) && machine.Coherent()
      modifies machine`tlb, machine.mem, machine.tables
      ensures machine.Valid()
      ensures forall t, p :: 0 <= t < machine.tasks && 0 <= p < TOTAL_PAGES ==>
                machine.tables[t, p] ==
                if t == child && DATA_PAGE <= p < CODE_PAGE then Entry(newFrames[p - DATA_PAGE], true) else old(machine.tables[t, p])
      ensures forall i, o :: 0 <= i < NUM_PAG_DATA && 0 <= o < PAGE_SIZE ==> machine.mem[newFrames[i], o] == old(machine.mem[sources[i], o])
      ensures forall f, o :: 0 <= f < TOTAL_PAGES && 0 <= o < PAGE_SIZE && f !in newFrames[..] ==> machine.mem[f, o] == old(machine.mem[f, o])
      ensures CoherentBut(WINDOW_PAGE + NUM_PAG_DATA)
      ensures forall i :: 0 <= i < NUM_PAG_DATA ==> (WINDOW_PAGE + i, newFrames[i]) in machine.tlb
    {
      for page := 0 to NUM_PAG_DATA
        invariant machine.Valid()
        invariant forall t, p :: 0 <= t < machine.tasks && 0 <= p < TOTAL_PAGES ==>
                    machine.tables[t, p] ==
                    if t == child && DATA_PAGE <= p < DATA_PAGE + page then Entry(newFrames[p - DATA_PAGE], true) else old(machine.tables[t, p])
        invariant forall i, o :: 0 <= i < page && 0 <= o < PAGE_SIZE ==> machine.mem[newFrames[i], o] == old(machine.mem[sources[i], o])
        invariant forall f, o :: 0 <= f < TOTAL_PAGES && 0 <= o < PAGE_SIZE && f !in newFrames[..page] ==> machine.mem[f, o] == old(machine.mem[f, o])
        invariant CoherentBut(WINDOW_PAGE + page)
        invariant forall i :: 0 <= i < page ==> (WINDOW_PAGE + i, newFrames[i]) in machine.tlb
      {
        var frame := newFrames[page];
        CopyDataPage(child, page, frame, sources[page]);
      }
      assert newFrames[..NUM_PAG_DATA] == newFrames[..];
    }

    /** Gives the child the shared pages and copies of the parent's data pages, then empties the translation cache. */
    method BuildAddressSpace(child: nat, newFrames: array<int>, ghost sources: seq<int>)
      requires machine.Valid() && child < machine.tasks && child != machine.cr3 && machine.cr3 == current
      requires newFrames.Length == NUM_PAG_DATA
      requires forall i, j :: 0 <= i < j < NUM_PAG_DATA ==> newFrames[i] != newFrames[j]
      requires forall i :: 0 <= i < NUM_PAG_DATA ==> 0 <= newFrames[i] < TOTAL_PAGES && newFrames[i] !in sources
      requires Mapped(current, sources) && CodeMapped(current) && WindowClosed(current) && machine.Coherent()
      modifies machine, machine.mem, machine.tables
      ensures machine.Valid() && machine.cr3 == current && machine.tlb == {}
      ensures Mapped(child, newFrames[..]) && CodeMapped(child)
      ensures forall t, p :: 0 <= t < machine.tasks && 0 <= p < TOTAL_PAGES ==>
                t != child || CODE_PAGE + NUM_PAG_CODE <= p ==> machine.tables[t, p] == old(machine.tables[t, p])
      ensures forall p :: 0 <= p < NUM_PAG_KERNEL ==> machine.tables[child, p] == Entry(machine.tables[current, p].frame, true)
      ensures forall i, o :: 0 <= i < NUM_PAG_DATA && 0 <= o < PAGE_SIZE ==> machine.mem[newFrames[i], o] == old(machine.mem[sources[i], o])
      ensures forall f, o :: 0 <= f < TOTAL_PAGES && 0 <= o < PAGE_SIZE && f !in newFrames[..] ==> machine.mem[f, o] == old(machine.mem[f, o])
    {
      ShareKernelAndCode(child);
      CopyDataPages(child, newFrames, sources);
      machine.SetCr3(current);
    }

    /** The part of fork that cannot fail: the child becomes a process of its own. */
    method Spawn(child: nat, newFrames: array<int>) returns (pid: int)
      requires machine.Valid() && machine.tasks == NR_TASKS && machine.cr3 == current && current in data
      requires Pids() && Spaces() && machine.Coherent()
      requires child < NR_TASKS && child != 1 && child != current && child !in data
      requires newFrames.Length == NUM_PAG_DATA && newFrames != pids
      requires forall i, j :: 0 <= i < j < NUM_PAG_DATA ==> newFrames[i] != newFrames[j]
      requires forall i :: 0 <= i < NUM_PAG_DATA ==> 0 <= newFrames[i] < TOTAL_PAGES && newFrames[i] !in data[current]
      modifies this`nextPid, this`data, machine, machine.mem, machine.tables, pids
      ensures machine.Valid() && machine.cr3 == current && Pids() && Spaces() && machine.Coherent()
      ensures data == old(data)[child := newFrames[..]] && newFrames[..] == old(newFrames[..])
      ensures pid == pids[child] == nextPid == old(nextPid) + 1
      ensures forall i, o :: 0 <= i < NUM_PAG_DATA && 0 <= o < PAGE_SIZE ==> machine.mem[newFrames[i], o] == old(machine.mem[data[current][i], o])
      ensures forall f, o :: 0 <= f < TOTAL_PAGES && 0 <= o < PAGE_SIZE && f !in newFrames[..] ==> machine.mem[f, o] == old(machine.mem[f, o])
      ensures forall t, p :: 0 <= t < NR_TASKS && 0 <= p < TOTAL_PAGES && t != child ==> machine.tables[t, p] == old(machine.tables[t, p])
    {
      BuildAddressSpace(child, newFrames, data[current]);
      forall t | 0 <= t < NR_TASKS
        ensures WindowClosed(t)
      {
        assert old(WindowClosed(t));
      }
      forall p | p in data
        ensures Mapped(p, data[p]) && CodeMapped(p)
      {
        assert old(Mapped(p, data[p]) && CodeMapped(p));
      }
      nextPid := nextPid + 1;
      pids[child] := nextPid;
      data := data[child := newFrames[..]];
      return nextPid;
    }

    /**
     Fork. The child's data pages start out as copies of the parent's; no other frame, no other table and no
     other process is touched, and the parent keeps no way to reach the child's frames.
     */
    method SysFork() returns (pid: int)
      requires Valid() && current in data
      modifies this, machine, machine.mem, machine.tables, frames.used, pids
      ensures Valid() && View() == Fork(old(View()))
      ensures pid == -ENOMEM <==> old(free) == []
      ensures pid == -EAGAIN <==> old(free) != [] && -1 in FramesN(old(frames.used[..]), NUM_PAG_DATA)
      ensures pid < 0 ==> (pid == -ENOMEM || pid == -EAGAIN) && unchanged(machine, machine.mem, machine.tables, pids)
      ensures pid >= 0 ==> old(free) != [] && old(free[0]) in data && pid == pids[old(free[0])] == nextPid == old(nextPid) + 1
      ensures pid >= 0 ==> forall i, o :: 0 <= i < NUM_PAG_DATA && 0 <= o < PAGE_SIZE ==>
                machine.mem[data[old(free[0])][i], o] == old(machine.mem[data[current][i], o])
      ensures pid >= 0 ==> forall f, o :: 0 <= f < TOTAL_PAGES && 0 <= o < PAGE_SIZE && f !in data[old(free[0])] ==>
                machine.mem[f, o] == old(machine.mem[f, o])
      ensures pid >= 0 ==> forall t, p :: 0 <= t < NR_TASKS && 0 <= p < TOTAL_PAGES && t != old(free[0]) ==>
                machine.tables[t, p] == old(machine.tables[t, p])
    {
      hide FramesN, AllocatedN, Count, Inv, Fork, Spaces, Pids, Machine.Coherent;
      if |free| == 0 {
        ForkCases(View());
        return -ENOMEM;
      }
      ghost var s := View();
      ForkKeepsInv(s);
      ForkCases(s);
      FirstFrameHeld(s);
      var child := free[0];
      assert child in free;
      free := free[1..];
      assert forall t :: t in free ==> t in s.free;
      var newFrames := new int[NUM_PAG_DATA];
      var ok := AllocDataFrames(newFrames);
      if !ok {
        free := free + [child];
        assert View() == Fork(s);
        return -EAGAIN;
      }
      NewFramesFit(s);
      pid := Spawn(child, newFrames);
      assert View() == Fork(s);
    }

    /** Frees and unmaps the data pages of the current process. */
    method FreeDataPages(ghost fs: seq<int>)
      requires machine.Valid() && current < machine.tasks && frames.used.Length == TOTAL_PAGES && Mapped(current, fs)
      modifies machine.tables, frames.used
      ensures machine.Valid() && frames.used[..] == ReleasedAll(old(frames.used[..]), fs)
      ensures forall t, p :: 0 <= t < machine.tasks && 0 <= p < TOTAL_PAGES ==>
                machine.tables[t, p] == if t == current && DATA_PAGE <= p < CODE_PAGE then NO_ENTRY else old(machine.tables[t, p])
    {
      for page := 0 to NUM_PAG_DATA
        invariant machine.Valid() && frames.used[..] == ReleasedAll(old(frames.used[..]), fs[..page])
        invariant forall t, p :: 0 <= t < machine.tasks && 0 <= p < TOTAL_PAGES ==>
                    machine.tables[t, p] == if t == current && DATA_PAGE <= p < DATA_PAGE + page then NO_ENTRY else old(machine.tables[t, p])
      {
        var frame := machine.GetFrame(current, DATA_PAGE + page);
        assert fs[..page + 1][..page] == fs[..page];
        frames.FreeFrame(frame);
        machine.DelSsPag(current, DATA_PAGE + page);
      }
      assert fs[..NUM_PAG_DATA] == fs;
    }

    /** Exit of the current process, after which next runs. Init does not end. */
    method SysExit(next: nat)
      requires Valid() && current in data
      requires (next in data && next != current) || next == 0
      modifies this, machine, machine.tables, frames.used
      ensures Valid() && View() == Exit(old(View()), next)
    {
      hide ReleasedAll, Count, Inv;
      if pids[current] == 1 {
        return;
      }
      ExitKeepsInv(View(), next);
      FreeDataPages(data[current]);
      free := free + [current];
      data := data - {current};
      Dispatch(next);
      forall t | 0 <= t < NR_TASKS
        ensures WindowClosed(t)
      {
        assert old(WindowClosed(t));
      }
      forall p | p in data
        ensures Mapped(p, data[p]) && CodeMapped(p)
      {
        assert old(Mapped(p, data[p]) && CodeMapped(p));
      }
      assert View() == Exit(old(View()), next);
    }

    method Dispatch(next: nat)
      requires machine.Valid() && next < machine.tasks
      modifies this`current, machine
      ensures machine.Valid() && machine.cr3 == current == next && machine.tlb == {}
    {
      current := next;
      machine.SetCr3(next);
    }

    /** A change of task, which loads the page-table base of the next one. */
    method Switch(next: nat)
      requires Valid() && (next in data || next == 0)
      modifies this`current, machine
      ensures Valid() && View() == old(View()).(current := next)
    {
      hide Count;
      SwitchKeepsFrames(View(), next);
      Dispatch(next);
      KeepsSpaces();
    }

    /** The running process stores a byte through its own logical address. */
    method Store(page: nat, off: nat, b: Byte)
      requires Valid() && current in data && page < NUM_PAG_DATA && off < PAGE_SIZE
      modifies machine`tlb, machine.mem
      ensures Valid() && View() == old(View())
      ensures forall p, i, o :: p in data && 0 <= i < NUM_PAG_DATA && 0 <= o < PAGE_SIZE ==>
                machine.mem[data[p][i], o] ==
                if p == current && i == page && o == off then b else old(machine.mem[data[p][i], o])
    {
      hide Count;
      ghost var frame := data[current][page];
      machine.WriteByte(DATA_PAGE + page, off, b, frame);
      KeepsSpaces();
      forall p, i | p in data && 0 <= i < NUM_PAG_DATA
        ensures data[p][i] == frame <==> p == current && i == page
      {
        assert data[p][i] in data[p] && frame in data[current];
      }
    }

    method Load(page: nat, off: nat) returns (b: Byte)
      requires Valid() && current in data && page < NUM_PAG_DATA && off < PAGE_SIZE
      modifies machine`tlb
      ensures Valid() && View() == old(View()) && b == machine.mem[data[current][page], off]
    {
      hide Count;
      b := machine.ReadByte(DATA_PAGE + page, off, data[current][page]);
      KeepsSpaces();
    }

    /** Accesses that follow the tables leave the address spaces as they are. */
    twostate lemma KeepsSpaces()
      requires old(machine.Valid()) && machine.Valid() && machine.tasks == NR_TASKS && old(Spaces())
      requires unchanged(this`data, this`code) && unchanged(machine.tables)
      ensures Spaces()
    {
      forall t | 0 <= t < NR_TASKS
        ensures WindowClosed(t)
      {
        assert old(WindowClosed(t));
      }
      forall p | p in data
        ensures Mapped(p, data[p]) && CodeMapped(p)
      {
        assert old(Mapped(p, data[p]) && CodeMapped(p));
      }
    }
  }
}
