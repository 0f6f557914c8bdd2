/**
 User stacks of the threads of one process: a region of eight pages each, mapped from the top,
 that grows down by one page for every fault just below the mapped part.
 */
module ThreadStacks {
  import opened Frames
  import opened Paging
  import opened BaseModel
  import KernelModel

  const BASE: nat := KernelModel.STACK_BASE_PAGE
  const REGION: nat := KernelModel.REGION_PAGES
  /** End of the regions that threads can get; the next region would reach the page of the keyboard stack. */
  const LIMIT: nat := 1014
  const INITIAL_PAGES: nat := 1

  const EFAULT := 14
  const ENOMEM := 12
  const EAGAIN := 11

  /** The stack fields of a thread: the first page of its region, the first mapped page and how many pages are mapped. */
  datatype Stack = Stack(start: nat, first: nat, mapped: nat) {
    /** The mapped pages are one block that ends at the top of the region. */
    predicate Ok() {
      && BASE <= start && start + REGION <= LIMIT && (start - BASE) % REGION == 0
      && 1 <= mapped <= REGION && first + mapped == start + REGION
    }

    function Grown(page: nat): Stack {
      Stack(start, page, mapped + 1)
    }
  }

  function NewStack(start: nat): Stack {
    Stack(start, start + REGION - INITIAL_PAGES, INITIAL_PAGES)
  }

  /** Page belongs to the mapped part of a stack. */
  ghost predicate Covers(s: Stack, page: int) {
    s.first <= page < s.first + s.mapped
  }

  ghost predicate Covered(stacks: map<nat, Stack>, page: int) {
    exists t :: t in stacks && Covers(stacks[t], page)
  }

  ghost predicate Apart(s: Stack, u: Stack) {
    s.start + REGION <= u.start || u.start + REGION <= s.start
  }

  /** Frame f holds a stack page. */
  ghost predicate Backs(pages: map<int, int>, f: int) {
    exists p :: p in pages && pages[p] == f
  }

  ghost predicate Injective(pages: map<int, int>) {
    forall p, q :: p in pages && q in pages && p != q ==> pages[p] != pages[q]
  }

  /** Some stack region overlaps the region that starts at page. */
  predicate InUse(stacks: map<nat, Stack>, page: int) {
    exists t :: t in stacks && !(page + REGION <= stacks[t].start || page >= stacks[t].start + REGION)
  }

  ghost predicate Layout(stacks: map<nat, Stack>) {
    && (forall t :: t in stacks ==> stacks[t].Ok())
    && (forall t, u :: t in stacks && u in stacks && t != u ==> Apart(stacks[t], stacks[u]))
  }

  /** The frames in use are those held elsewhere and one for every mapped stack page. */
  ghost predicate FramesUsed(used: seq<bool>, pages: map<int, int>, held: set<int>) {
    && |used| == TOTAL_PAGES && NUM_PAG_KERNEL in held && Injective(pages)
    && (forall p :: p in pages ==> UserFrame(pages[p]) && pages[p] !in held)
    && (forall f :: 0 <= f < TOTAL_PAGES ==> (used[f] <==> f in held || Backs(pages, f)))
  }

  lemma FrameTaken(used: seq<bool>, pages: map<int, int>, held: set<int>, page: int)
    requires FramesUsed(used, pages, held) && page !in pages && FirstFree(used, NUM_PAG_KERNEL) != -1
    ensures FramesUsed(Allocated(used), pages[page := FirstFree(used, NUM_PAG_KERNEL)], held)
    ensures 0 <= FirstFree(used, NUM_PAG_KERNEL) < TOTAL_PAGES
  {
    var f := FirstFree(used, NUM_PAG_KERNEL);
    var pages' := pages[page := f];
    assert !Backs(pages, f) && f !in held;
    forall g
      ensures Backs(pages', g) <==> Backs(pages, g) || g == f
    {
      if Backs(pages, g) {
        var p :| p in pages && pages[p] == g;
        assert pages'[p] == g;
      }
      assert pages'[page] == f;
    }
  }

  /** The page below a stack that can grow belongs to no stack. */
  lemma BelowIsFree(stacks: map<nat, Stack>, t: nat)
    requires Layout(stacks) && t in stacks && stacks[t].mapped < REGION
    ensures BASE <= stacks[t].first - 1 < LIMIT && stacks[t].Grown(stacks[t].first - 1).Ok()
    ensures !Covered(stacks, stacks[t].first - 1)
  {
    var s := stacks[t];
    assert s.Ok();
    forall u | u in stacks
      ensures !Covers(stacks[u], s.first - 1)
    {
      assert stacks[u].Ok() && (u != t ==> Apart(stacks[u], s));
    }
  }

  lemma ReplaceKeepsLayout(stacks: map<nat, Stack>, t: nat, s: Stack)
    requires Layout(stacks) && t in stacks && s.Ok() && s.start == stacks[t].start
    ensures Layout(stacks[t := s])
  {
    var stacks' := stacks[t := s];
    forall u, v | u in stacks' && v in stacks' && u != v
      ensures Apart(stacks'[u], stacks'[v])
    {
      assert Apart(stacks[u], stacks[v]);
    }
  }

  /** Growing a stack covers the page below it and nothing else. */
  lemma GrowCovers(stacks: map<nat, Stack>, t: nat)
    requires Layout(stacks) && t in stacks && stacks[t].mapped < REGION
    ensures var s := stacks[t];
            && BASE <= s.first - 1 < LIMIT && Layout(stacks[t := s.Grown(s.first - 1)]) && !Covered(stacks, s.first - 1)
            && (forall p :: Covered(stacks[t := s.Grown(s.first - 1)], p) <==> Covered(stacks, p) || p == s.first - 1)
  {
    hide Layout;
    var s := stacks[t];
    BelowIsFree(stacks, t);
    var stacks' := stacks[t := s.Grown(s.first - 1)];
    ReplaceKeepsLayout(stacks, t, s.Grown(s.first - 1));
    forall p
      ensures Covered(stacks', p) <==> Covered(stacks, p) || p == s.first - 1
    {
      if Covered(stacks, p) {
        var u :| u in stacks && Covers(stacks[u], p);
        assert Covers(stacks'[u], p);
      }
      if p == s.first - 1 {
        assert Covers(stacks'[t], p);
      }
    }
  }

  lemma FrameReturned(used: seq<bool>, pages: map<int, int>, held: set<int>, page: int)
    requires FramesUsed(used, pages, held) && page in pages
    ensures FramesUsed(Released(used, pages[page]), pages - {page}, held)
  {
    var f, pages' := pages[page], pages - {page};
    forall g
      ensures Backs(pages', g) <==> Backs(pages, g) && g != f
    {
      if Backs(pages, g) && g != f {
        var p :| p in pages && pages[p] == g;
        assert p in pages' && pages'[p] == g;
      }
    }
  }

  /** The used frames are determined by the mapped pages and the frames held elsewhere. */
  lemma FramesDetermined(used: seq<bool>, used': seq<bool>, pages: map<int, int>, held: set<int>)
    requires FramesUsed(used, pages, held) && FramesUsed(used', pages, held)
    ensures used == used'
  {
    assert forall f :: 0 <= f < TOTAL_PAGES ==> used[f] == used'[f];
  }

  /** Releasing a stack uncovers its pages and no others. */
  lemma ReleaseCovers(stacks: map<nat, Stack>, t: nat)
    requires Layout(stacks) && t in stacks
    ensures Layout(stacks - {t}) && forall p :: Covers(stacks[t], p) ==> Covered(stacks, p)
    ensures forall p :: Covered(stacks - {t}, p) <==> Covered(stacks, p) && !Covers(stacks[t], p)
  {
    forall p
      ensures Covered(stacks - {t}, p) <==> Covered(stacks, p) && !Covers(stacks[t], p)
    {
      if Covered(stacks, p) && !Covers(stacks[t], p) {
        var u :| u in stacks && Covers(stacks[u], p);
        assert u in stacks - {t};
      }
      if Covered(stacks - {t}, p) {
        var u :| u in stacks - {t} && Covers(stacks[u], p);
        assert Apart(stacks[u], stacks[t]);
      }
    }
  }

  /** A new stack covers the top page of its region only. */
  lemma CreateCovers(stacks: map<nat, Stack>, t: nat, s: Stack)
    requires Layout(stacks) && t !in stacks && s.Ok() && s == NewStack(s.start) && !InUse(stacks, s.start)
    ensures Layout(stacks[t := s]) && !Covered(stacks, s.first)
    ensures forall p :: Covered(stacks[t := s], p) <==> Covered(stacks, p) || p == s.first
  {
    var stacks' := stacks[t := s];
    assert forall u :: u in stacks ==> Apart(stacks[u], s);
    forall p
      ensures Covered(stacks', p) <==> Covered(stacks, p) || p == s.first
    {
      if Covered(stacks, p) {
        var u :| u in stacks && Covers(stacks[u], p);
        assert u in stacks' && Covers(stacks'[u], p);
      }
      if p == s.first {
        assert t in stacks' && Covers(stacks'[t], p);
      }
    }
  }

  lemma {:induction false} NoMoreFrames(used: seq<bool>, i: nat, n: nat)
    requires i < n && FirstFree(AllocatedN(used, i), NUM_PAG_KERNEL) == -1
    ensures -1 in FramesN(used, n)
    decreases n
  {
    if i == n - 1 {
      assert FramesN(used, n)[i] == -1;
    } else {
      NoMoreFrames(used, i, n - 1);
      var k :| 0 <= k < n - 1 && FramesN(used, n - 1)[k] == -1;
      assert FramesN(used, n)[k] == -1;
    }
  }

  lemma StacksAreOk(stacks: map<nat, Stack>)
    requires Layout(stacks)
    ensures forall t :: t in stacks ==> stacks[t].Ok()
  {
  }

  lemma BlocksAtTop(stacks: map<nat, Stack>)
    requires Layout(stacks)
    ensures forall t :: t in stacks ==> stacks[t].first + stacks[t].mapped == stacks[t].start + REGION
  {
    StacksAreOk(stacks);
  }

  lemma NothingMapped(stacks: map<nat, Stack>, pages: map<int, int>)
    requires stacks == map[] && forall p :: p in pages <==> Covered(stacks, p)
    ensures pages == map[]
  {
    assert forall p :: p !in pages;
  }

  lemma SameMap(m: map<int, int>, n: map<int, int>)
    requires (forall p :: p in m <==> p in n) && forall p :: p in n ==> m[p] == n[p]
    ensures m == n
  {
    forall p: int
      ensures p in m.Keys <==> p in n.Keys
    {
    }
    assert m.Keys == n.Keys;
    assert forall p :: p in m.Keys ==> m[p] == n[p];
  }

  /** A region that overlaps the one at a position starts there. */
  lemma StartsAt(start: int, i: int)
    requires (start - BASE) % REGION == 0 && Position(i) < start + REGION && start < Position(i) + REGION
    ensures start == Position(i)
  {
  }

  ghost predicate Owned(stacks: map<nat, Stack>, i: int) {
    exists t :: t in stacks && stacks[t].start == Position(i)
  }

  lemma InUseIsOwned(stacks: map<nat, Stack>, i: int)
    requires (forall t :: t in stacks ==> stacks[t].Ok()) && InUse(stacks, Position(i))
    ensures Owned(stacks, i)
  {
    hide Position;
    var t :| t in stacks && !(Position(i) + REGION <= stacks[t].start || Position(i) >= stacks[t].start + REGION);
    assert stacks[t].Ok();
    StartsAt(stacks[t].start, i);
  }

  /** Every used region below the first free one belongs to a thread of its own. */
  lemma RegionsNeedThreads(stacks: map<nat, Stack>, n: nat)
    requires forall t :: t in stacks ==> stacks[t].Ok()
    requires forall i :: 0 <= i < n ==> InUse(stacks, Position(i))
    ensures n <= |stacks|
  {
    forall i | 0 <= i < n
      ensures Owned(stacks, i)
    {
      InUseIsOwned(stacks, i);
    }
    OwnersAreMany(stacks, n);
  }

  lemma {:induction false} OwnersAreMany(stacks: map<nat, Stack>, n: nat)
    requires forall i :: 0 <= i < n ==> Owned(stacks, i)
    ensures n <= |stacks|
    decreases n
  {
    if n > 0 {
      assert Owned(stacks, n - 1);
      var t :| t in stacks && stacks[t].start == Position(n - 1);
      var rest := stacks - {t};
      forall i | 0 <= i < n - 1
        ensures Owned(rest, i)
      {
        assert Owned(stacks, i);
        var u :| u in stacks && stacks[u].start == Position(i);
        assert u in rest;
      }
      OwnersAreMany(rest, n - 1);
      assert rest.Keys == stacks.Keys - {t};
    }
  }

  function Position(i: int): int {
    BASE + i * REGION
  }

  datatype Event = Fault(t: nat, page: nat) | Create(t: nat) | Release(t: nat)

  class StackMemory {
    const machine: Machine
    const frames: FrameTable
    /** The table of the process. */
    const task: nat
    var stacks: map<nat, Stack>
    /** The frame of every mapped stack page. */
    ghost var pages: map<int, int>
    /** The frames in use elsewhere. */
    ghost var held: set<int>

    /** A process without thread stacks. */
    constructor (m: Machine, f: FrameTable, t: nat)
      requires m.Valid() && t < m.tasks && f.used.Length == TOTAL_PAGES && f.used[NUM_PAG_KERNEL]
      requires forall p :: BASE <= p < LIMIT ==> m.tables[t, p] == NO_ENTRY
      requires m.cr3 == t ==> m.Coherent()
      ensures Valid() && machine == m && frames == f && task == t && stacks == map[]
    {
      machine, frames, task := m, f, t;
      stacks, pages := map[], map[];
      held := set i | 0 <= i < TOTAL_PAGES && f.used[i];
    }

    /** The table of the process maps exactly the given stack pages. */
    ghost predicate Maps()
      reads this`pages, machine, machine.mem, machine.tables
    {
      && machine.Valid() && task < machine.tasks
      && (forall p :: p in pages ==> 0 <= pages[p])
      && (forall p :: BASE <= p < LIMIT ==> machine.tables[task, p] == if p in pages then Entry(pages[p], true) else NO_ENTRY)
    }

    ghost predicate Tables()
      reads this`pages, machine, machine.mem, machine.tables
    {
      Maps() && (machine.cr3 == task ==> machine.Coherent())
    }

    /** Nothing outside the stack area of the process changes in any table. */
    twostate predicate OthersKept()
      reads machine.tables
    {
      forall t, p :: 0 <= t < machine.tables.Length0 && 0 <= p < machine.tables.Length1 && !(t == task && BASE <= p < LIMIT) ==>
        machine.tables[t, p] == old(machine.tables[t, p])
    }

    ghost predicate Valid()
      reads this, machine, machine.mem, machine.tables, frames.used
    {
      && Layout(stacks) && (forall p :: p in pages <==> Covered(stacks, p))
      && Tables() && FramesUsed(frames.used[..], pages, held)
    }

    /** A page fault of thread t at the given page. */
    method Grow(t: nat, page: nat) returns (r: int)
      requires Valid() && machine.cr3 == task
      modifies this, machine, machine.tables, frames.used
      ensures Valid() && held == old(held) && machine.cr3 == task && OthersKept()
      ensures r == 0 <==> && t in old(stacks) && page == old(stacks)[t].first - 1 >= old(stacks)[t].start
                          && old(FirstFree(frames.used[..], NUM_PAG_KERNEL)) != -1
      ensures r == -ENOMEM ==> t in stacks && stacks[t].mapped == REGION
      ensures r != 0 ==> unchanged(this, machine, machine.tables) && frames.used[..] == old(frames.used[..])
      ensures r == 0 ==> stacks == old(stacks)[t := old(stacks)[t].Grown(page)]
      ensures r == 0 ==> page !in old(pages) && pages == old(pages)[page := old(FirstFree(frames.used[..], NUM_PAG_KERNEL))]
    {
      hide FramesUsed, Covered, Tables;
      if t !in stacks {
        return -EFAULT;
      }
      var s := stacks[t];
      assert s.Ok();
      hide Layout;
      if page < s.start || page >= s.start + REGION {
        return -EFAULT;
      }
      if s.mapped >= REGION {
        return -ENOMEM;
      }
      if page != s.first - 1 {
        return -EFAULT;
      }
      var frame := frames.AllocFrame();
      if frame < 0 {
        return frame;
      }
      GrowCovers(stacks, t);
      FrameTaken(old(frames.used[..]), pages, held, page);
      AddPage(page, frame);
      stacks := stacks[t := s.Grown(page)];
      return 0;
    }

    /** Maps one more stack page and makes the processor forget the old table. */
    method AddPage(page: nat, frame: nat)
      requires Tables() && machine.cr3 == task && BASE <= page < LIMIT && frame < TOTAL_PAGES
      modifies this`pages, machine, machine.tables
      ensures Tables() && machine.cr3 == task && pages == old(pages)[page := frame] && OthersKept()
    {
      machine.SetSsPag(task, page, frame);
      pages := pages[page := frame];
      machine.SetCr3(task);
    }

    /** Frees the frame of a stack page and unmaps it. */
    method DropPage(page: nat)
      requires Maps() && FramesUsed(frames.used[..], pages, held) && page in pages && BASE <= page < LIMIT
      modifies this`pages, machine.tables, frames.used
      ensures Maps() && FramesUsed(frames.used[..], pages, held) && pages == old(pages) - {page} && OthersKept()
    {
      FrameReturned(frames.used[..], pages, held, page);
      frames.FreeFrame(machine.GetFrame(task, page));
      machine.DelSsPag(task, page);
      pages := pages - {page};
    }

    method DropPages(first: nat, n: nat)
      requires Maps() && FramesUsed(frames.used[..], pages, held) && BASE <= first && first + n <= LIMIT
      requires forall p :: first <= p < first + n ==> p in pages
      modifies this`pages, machine.tables, frames.used
      ensures Maps() && FramesUsed(frames.used[..], pages, held)
      ensures (forall p :: p in pages <==> p in old(pages) && !(first <= p < first + n)) && OthersKept() && SubMapping()
    {
      hide FramesUsed;
      for i := 0 to n
        invariant Maps() && FramesUsed(frames.used[..], pages, held)
        invariant (forall p :: p in pages <==> p in old(pages) && !(first <= p < first + i)) && OthersKept() && SubMapping()
      {
        DropPage(first + i);
      }
    }

    /** Frees the frames of all mapped pages of a thread's stack, and no others. */
    method ReleaseThreadStack(t: nat)
      requires Valid()
      modifies this, machine, machine.tables, frames.used
      ensures Valid() && held == old(held) && stacks == old(stacks) - {t} && OthersKept()
      ensures t in old(stacks) ==> machine.cr3 == task
      ensures SubMapping()
      ensures t !in old(stacks) ==> unchanged(this, machine, machine.tables, frames.used)
    {
      if t !in stacks {
        return;
      }
      var s := stacks[t];
      ReleaseCovers(stacks, t);
      assert s.Ok();
      assert forall p :: s.first <= p < s.first + s.mapped ==> Covers(s, p);
      hide FramesUsed, Covered, Layout, Tables, Machine.Coherent;
      DropPages(s.first, s.mapped);
      stacks := stacks - {t};
      Forget();
    }

    /** Pages that are still mapped kept their frames. */
    twostate predicate SubMapping()
      reads this`pages
    {
      forall p :: p in pages ==> p in old(pages) && pages[p] == old(pages)[p]
    }

    /** The mapped pages are the old ones and n more from first on. */
    twostate predicate Extended(first: int, n: int)
      reads this`pages
    {
      && (forall p :: p in pages <==> p in old(pages) || first <= p < first + n)
      && (forall p :: p in old(pages) ==> p in pages && pages[p] == old(pages)[p])
    }

    /** Maps count new pages or, if frames run out, leaves tables and frames as they were. */
    method MapStackPages(first: nat, count: nat) returns (r: int)
      requires Maps() && FramesUsed(frames.used[..], pages, held) && BASE <= first && first + count <= LIMIT
      requires forall p :: first <= p < first + count ==> p !in pages
      modifies this`pages, machine.tables, frames.used
      ensures Maps() && FramesUsed(frames.used[..], pages, held) && OthersKept()
      ensures r == 0 || r == -EAGAIN
      ensures r == 0 <==> -1 !in FramesN(old(frames.used[..]), count)
      ensures r == 0 ==> Extended(first, count)
      ensures r != 0 ==> pages == old(pages) && frames.used[..] == old(frames.used[..])
    {
      hide FramesUsed;
      ghost var used := frames.used[..];
      for i := 0 to count
        invariant Maps() && FramesUsed(frames.used[..], pages, held) && OthersKept() && Extended(first, i)
        invariant frames.used[..] == AllocatedN(used, i) && -1 !in FramesN(used, i)
      {
        var ok := MapNextPage(first + i);
        if !ok {
          NoMoreFrames(used, i, count);
          RollBack(first, i, old(pages), used);
          return -EAGAIN;
        }
      }
      return 0;
    }

    method MapNextPage(page: nat) returns (ok: bool)
      requires Maps() && FramesUsed(frames.used[..], pages, held) && BASE <= page < LIMIT && page !in pages
      modifies this`pages, machine.tables, frames.used
      ensures Maps() && FramesUsed(frames.used[..], pages, held) && OthersKept()
      ensures ok <==> old(FirstFree(frames.used[..], NUM_PAG_KERNEL)) != -1
      ensures frames.used[..] == Allocated(old(frames.used[..]))
      ensures if ok then Extended(page, 1) else pages == old(pages)
    {
      hide FramesUsed;
      var frame := frames.AllocFrame();
      if frame < 0 {
        return false;
      }
      FrameTaken(old(frames.used[..]), pages, held, page);
      machine.SetSsPag(task, page, frame);
      pages := pages[page := frame];
      return true;
    }

    /** Unmaps the pages in the opposite order, which restores the earlier pages and frames. */
    method RollBack(first: nat, n: nat, ghost before: map<int, int>, ghost used: seq<bool>)
      requires Maps() && FramesUsed(frames.used[..], pages, held) && BASE <= first && first + n <= LIMIT
      requires FramesUsed(used, before, held)
      requires forall p :: p in pages <==> p in before || first <= p < first + n
      requires forall p :: p in before ==> !(first <= p < first + n) && p in pages && pages[p] == before[p]
      modifies this`pages, machine.tables, frames.used
      ensures Maps() && FramesUsed(frames.used[..], pages, held) && OthersKept()
      ensures pages == before && frames.used[..] == used
    {
      hide FramesUsed;
      var i := n;
      while i > 0
        invariant 0 <= i <= n && Maps() && FramesUsed(frames.used[..], pages, held) && OthersKept()
        invariant forall p :: p in pages <==> p in before || first <= p < first + i
        invariant forall p :: p in before ==> p in pages && pages[p] == before[p]
      {
        i := i - 1;
        DropPage(first + i);
      }
      SameMap(pages, before);
      FramesDetermined(frames.used[..], used, pages, held);
    }

    /** The first page of the lowest unused region; with fewer threads than thread identifiers there is one. */
    method FindFreeStackRegion() returns (r: int)
      requires Valid()
      ensures r == -1 || (r >= BASE && !InUse(stacks, r))
      ensures |stacks| < KernelModel.MAX_TIDS ==> r >= BASE && NewStack(r).Ok() && !InUse(stacks, r)
    {
      StacksAreOk(stacks);
      hide InUse, Layout, FramesUsed, Tables;
      var page := BASE;
      ghost var n := 0;
      while page + REGION <= TOTAL_PAGES
        invariant n >= 0 && page == Position(n)
        invariant forall i :: 0 <= i < n ==> InUse(stacks, Position(i))
      {
        if !InUse(stacks, page) {
          RegionsNeedThreads(stacks, n);
          return page;
        }
        page, n := page + REGION, n + 1;
      }
      RegionsNeedThreads(stacks, n);
      return -1;
    }

    /** The stack part of thread creation; t is the new thread. */
    method CreateStack(t: nat) returns (r: int)
      requires Valid() && t !in stacks && |stacks| < KernelModel.MAX_TIDS && machine.cr3 == task
      modifies this, machine, machine.tables, frames.used
      ensures Valid() && held == old(held) && machine.cr3 == task && OthersKept()
      ensures r == 0 || r == -EAGAIN
      ensures r == 0 ==> t in stacks && stacks[t] == NewStack(stacks[t].start) && stacks == old(stacks)[t := stacks[t]]
      ensures r == 0 ==> Extended(stacks[t].first, INITIAL_PAGES)
      ensures r == 0 <==> old(FirstFree(frames.used[..], NUM_PAG_KERNEL)) != -1
      ensures r != 0 ==> stacks == old(stacks) && pages == old(pages) && frames.used[..] == old(frames.used[..])
    {
      var region := FindFreeStackRegion();
      r := MapNewStack(t, region);
    }

    method MapNewStack(t: nat, region: nat) returns (r: int)
      requires Valid() && t !in stacks && machine.cr3 == task
      requires NewStack(region).Ok() && !InUse(stacks, region)
      modifies this, machine, machine.tables, frames.used
      ensures Valid() && held == old(held) && machine.cr3 == task && OthersKept()
      ensures r == 0 || r == -EAGAIN
      ensures r == 0 ==> stacks == old(stacks)[t := NewStack(region)] && Extended(region + REGION - INITIAL_PAGES, INITIAL_PAGES)
      ensures r == 0 <==> old(FirstFree(frames.used[..], NUM_PAG_KERNEL)) != -1
      ensures r != 0 ==> stacks == old(stacks) && pages == old(pages) && frames.used[..] == old(frames.used[..])
    {
      hide FramesUsed, Covered, Layout, InUse, Maps, Machine.Coherent;
      CreateCovers(stacks, t, NewStack(region));
      r := MapStackPages(region + REGION - INITIAL_PAGES, INITIAL_PAGES);
      if r == 0 {
        Forget();
        stacks := stacks[t := NewStack(region)];
      } else {
        KeepsTables();
      }
    }

    /** Writes the page-table base, after which the tables are all that counts. */
    method Forget()
      requires Maps()
      modifies machine`cr3, machine`tlb
      ensures Tables() && machine.cr3 == task
    {
      machine.SetCr3(task);
    }

    /** If no stack page changed, neither did the table. */
    twostate lemma KeepsTables()
      requires old(Tables()) && Maps() && pages == old(pages) && OthersKept() && unchanged(machine)
      ensures Tables()
    {
    }

    /**
     Any run of faults, creations and releases: the mapped part of every stack stays one block that ends at
     the top of its region, and once all stacks are released no frame is lost.
     */
    method Run(events: seq<Event>)
      requires Valid() && machine.cr3 == task
      modifies this, machine, machine.tables, frames.used
      ensures Valid() && held == old(held) && OthersKept()
      ensures forall t :: t in stacks ==> stacks[t].first + stacks[t].mapped == stacks[t].start + REGION
      ensures old(stacks) == map[] && stacks == map[] ==> frames.used[..] == old(frames.used[..])
    {
      hide FramesUsed, Layout, Covered, Tables;
      for i := 0 to |events|
        invariant Valid() && machine.cr3 == task && held == old(held) && OthersKept()
      {
        match events[i]
        case Fault(t, page) => var _ := Grow(t, page);
        case Release(t) => ReleaseThreadStack(t);
        case Create(t) =>
          if t !in stacks && |stacks| < KernelModel.MAX_TIDS {
            var _ := CreateStack(t);
          }
      }
      BlocksAtTop(stacks);
      if old(stacks) == map[] && stacks == map[] {
        NothingMapped(stacks, pages);
        NothingMapped(stacks, old(pages));
        FramesDetermined(frames.used[..], old(frames.used[..]), pages, held);
      }
    }
  }
}
