/**
 Which process owns which frames under any run of forks and exits of the base kernel.
 */
module BaseModel {
  import opened Frames
  import opened Sequences

  const NUM_PAG_CODE: nat := 8
  const NUM_PAG_DATA: nat := 20
  const NR_TASKS: nat := 10

  /**
   `code` are the frames of the shared user code, `data` the data frames of every live process
   except idle, `free` the free task structures.
   */
  datatype Base = Base(
    used: seq<bool>, code: seq<int>, data: map<int, seq<int>>, free: seq<int>,
    idle: int, init: int, current: int)

  // Allocating several frames

  function AllocatedN(used: seq<bool>, n: nat): (r: seq<bool>)
    ensures |r| == |used|
  {
    if n == 0 then used else Allocated(AllocatedN(used, n - 1))
  }

  /** The results of n allocations in a row. */
  function FramesN(used: seq<bool>, n: nat): (fs: seq<int>)
    ensures |fs| == n
  {
    if n == 0 then [] else FramesN(used, n - 1) + [FirstFree(AllocatedN(used, n - 1), NUM_PAG_KERNEL)]
  }

  function ReleasedAll(used: seq<bool>, frames: seq<int>): (r: seq<bool>)
    ensures |r| == |used|
  {
    if frames == [] then used else Released(ReleasedAll(used, frames[..|frames| - 1]), frames[|frames| - 1])
  }

  // Steps

  function Fork(s: Base): Base {
    var frames := FramesN(s.used, NUM_PAG_DATA);
    if s.free == [] then s
    else if -1 in frames then s.(free := s.free[1..] + [s.free[0]])
    else s.(used := AllocatedN(s.used, NUM_PAG_DATA), data := s.data[s.free[0] := frames], free := s.free[1..])
  }

  /** The current process ends and next is dispatched; init cannot end. */
  function Exit(s: Base, next: int): Base
    requires s.current in s.data
  {
    if s.current == s.init then s
    else s.(used := ReleasedAll(s.used, s.data[s.current]), data := s.data - {s.current},
            free := s.free + [s.current], current := next)
  }

  // Counting

  function Count(s: seq<bool>): nat {
    if s == [] then 0 else Count(s[..|s| - 1]) + (if s[|s| - 1] then 1 else 0)
  }

  lemma {:induction false} CountUpdate(s: seq<bool>, i: nat, b: bool)
    requires i < |s|
    ensures Count(s[i := b]) == Count(s) - (if s[i] then 1 else 0) + (if b then 1 else 0)
  {
    var front := s[..|s| - 1];
    if i == |s| - 1 {
      assert s[i := b][..|s| - 1] == front;
    } else {
      CountUpdate(front, i, b);
      assert s[i := b][..|s| - 1] == front[i := b];
    }
  }

  lemma {:induction false} CountAllTrue(s: seq<bool>)
    requires forall i :: 0 <= i < |s| ==> s[i]
    ensures Count(s) == |s|
  {
    if s != [] {
      CountAllTrue(s[..|s| - 1]);
    }
  }

  /** If every even frame above the kernel is used, more than half of all frames above it are. */
  lemma {:induction false} EvenFramesCount(used: seq<bool>, j: nat)
    requires NUM_PAG_KERNEL + 2 * j <= |used|
    requires forall i :: 0 <= i < NUM_PAG_KERNEL ==> used[i]
    requires forall i :: NUM_PAG_KERNEL <= i < |used| && (i - NUM_PAG_KERNEL) % 2 == 0 ==> used[i]
    ensures Count(used[..NUM_PAG_KERNEL + 2 * j]) >= NUM_PAG_KERNEL + j
  {
    if j == 0 {
      CountAllTrue(used[..NUM_PAG_KERNEL]);
    } else {
      EvenFramesCount(used, j - 1);
      var n := NUM_PAG_KERNEL + 2 * (j - 1);
      assert used[..n + 1][..n] == used[..n];
      assert used[..n + 2][..n + 1] == used[..n + 1];
    }
  }

  /** While fewer than 640 frames are used, allocation succeeds, although odd frames are skipped. */
  lemma AllocationSucceeds(used: seq<bool>)
    requires |used| == TOTAL_PAGES && forall i :: 0 <= i < NUM_PAG_KERNEL ==> used[i]
    requires Count(used) < 640
    ensures FirstFree(used, NUM_PAG_KERNEL) != -1
  {
    if FirstFree(used, NUM_PAG_KERNEL) == -1 {
      assert used[..TOTAL_PAGES] == used;
      EvenFramesCount(used, 384);
    }
  }

  /** The frames that user memory may live in. */
  predicate UserFrame(f: int) {
    NUM_PAG_KERNEL <= f < TOTAL_PAGES && f % 2 == 0
  }

  ghost predicate KernelHeld(used: seq<bool>) {
    |used| == TOTAL_PAGES && forall i :: 0 <= i < NUM_PAG_KERNEL ==> used[i]
  }

  /** What n allocations in a row yield as long as frames last: different free even frames, and exactly those are marked. */
  ghost predicate Took(used: seq<bool>, fs: seq<int>, used': seq<bool>) {
    && NoDuplicates(fs) && |used'| == |used| == TOTAL_PAGES
    && (forall f :: f in fs ==> UserFrame(f) && !used[f])
    && (forall f :: 0 <= f < TOTAL_PAGES ==> used'[f] == (used[f] || f in fs))
    && Count(used') == Count(used) + |fs|
  }

  lemma TookOneMore(used: seq<bool>, fs: seq<int>, used': seq<bool>)
    requires Took(used, fs, used') && FirstFree(used', NUM_PAG_KERNEL) != -1
    ensures Took(used, fs + [FirstFree(used', NUM_PAG_KERNEL)], Allocated(used'))
  {
    hide Count;
    var f := FirstFree(used', NUM_PAG_KERNEL);
    CountUpdate(used', f, true);
    assert f !in fs;
  }

  lemma {:induction false} AllocatesDifferentFrames(used: seq<bool>, n: nat)
    requires |used| == TOTAL_PAGES && -1 !in FramesN(used, n)
    ensures Took(used, FramesN(used, n), AllocatedN(used, n))
  {
    if n > 0 {
      var fs := FramesN(used, n - 1);
      var f := FirstFree(AllocatedN(used, n - 1), NUM_PAG_KERNEL);
      assert FramesN(used, n) == fs + [f];
      assert f in FramesN(used, n);
      AllocatesDifferentFrames(used, n - 1);
      TookOneMore(used, fs, AllocatedN(used, n - 1));
    }
  }

  lemma {:induction false} FramesLast(used: seq<bool>, n: nat)
    requires KernelHeld(used) && Count(used) + n <= 640
    ensures -1 !in FramesN(used, n)
  {
    if n > 0 {
      FramesLast(used, n - 1);
      AllocatesDifferentFrames(used, n - 1);
      AllocationSucceeds(AllocatedN(used, n - 1));
    }
  }

  /** Releasing different used frames marks exactly those free. */
  lemma {:induction false} ReleasesFrames(used: seq<bool>, frames: seq<int>)
    requires |used| == TOTAL_PAGES && NoDuplicates(frames)
    requires forall f :: f in frames ==> NUM_PAG_KERNEL < f < TOTAL_PAGES && used[f]
    ensures var used' := ReleasedAll(used, frames);
            && (forall f :: 0 <= f < TOTAL_PAGES ==> used'[f] == (used[f] && f !in frames))
            && Count(used') == Count(used) - |frames|
  {
    if frames != [] {
      var front, last := frames[..|frames| - 1], frames[|frames| - 1];
      assert frames == front + [last];
      assert last in frames && last !in front;
      assert forall f :: f in front ==> f in frames;
      ReleasesFrames(used, front);
      CountUpdate(ReleasedAll(used, front), last, false);
    }
  }

  // The invariant

  /** f belongs to the kernel, to the code or to a process. */
  ghost predicate Owned(s: Base, f: int) {
    f < NUM_PAG_KERNEL || f in s.code || exists p :: p in s.data && f in s.data[p]
  }

  ghost predicate FramesOk(s: Base) {
    && |s.used| == TOTAL_PAGES
    && (forall f :: 0 <= f < TOTAL_PAGES ==> (s.used[f] <==> Owned(s, f)))
    && NUM_PAG_KERNEL in s.code && |s.code| == NUM_PAG_CODE
    && (forall p :: p in s.data ==> |s.data[p]| == NUM_PAG_DATA && NoDuplicates(s.data[p]))
    && (forall p, f :: p in s.data && f in s.data[p] ==> UserFrame(f) && f !in s.code)
    && (forall p, q, f :: p in s.data && q in s.data && f in s.data[p] && f in s.data[q] ==> p == q)
    && Count(s.used) == NUM_PAG_KERNEL + NUM_PAG_CODE + NUM_PAG_DATA * |s.data|
  }

  ghost predicate TasksOk(s: Base) {
    && NoDuplicates(s.free) && s.idle !in s.free && s.idle !in s.data
    && (forall t :: t in s.free ==> t !in s.data)
    && |s.free| + |s.data| + 1 == NR_TASKS
    && s.init in s.data && (s.current in s.data || s.current == s.idle)
  }

  ghost predicate Inv(s: Base) {
    FramesOk(s) && TasksOk(s)
  }

  /** With at most ten tasks the branch of fork that runs out of frames is dead. */
  lemma ForkNeverRunsOut(s: Base)
    requires Inv(s) && s.free != []
    ensures -1 !in FramesN(s.used, NUM_PAG_DATA)
    ensures Count(s.used) + NUM_PAG_DATA <= 640 && KernelHeld(s.used)
  {
    hide FramesN, AllocatedN, Count;
    assert forall f :: 0 <= f < NUM_PAG_KERNEL ==> Owned(s, f);
    FramesLast(s.used, NUM_PAG_DATA);
  }

  lemma ForkKeepsInv(s: Base)
    requires Inv(s)
    ensures Inv(Fork(s))
  {
    hide FramesN, AllocatedN, Count;
    if s.free != [] {
      ForkNeverRunsOut(s);
      AllocatesDifferentFrames(s.used, NUM_PAG_DATA);
      var child, fs := s.free[0], FramesN(s.used, NUM_PAG_DATA);
      assert child in s.free;
      NewFramesAreApart(s, fs);
      var s' := Fork(s);
      assert s'.data == s.data[child := fs];
      ForkKeepsFrames(s, s', child, fs);
      assert TasksOk(s') by {
        assert s.free == [child] + s.free[1..];
      }
    }
  }

  /** Free frames belong to nobody. */
  lemma NewFramesAreApart(s: Base, fs: seq<int>)
    requires FramesOk(s) && forall f :: f in fs ==> UserFrame(f) && !s.used[f]
    ensures forall f :: f in fs ==> f !in s.code
    ensures forall p, f :: p in s.data && f in fs ==> f !in s.data[p]
  {
    forall f | f in fs
      ensures f !in s.code
      ensures forall p :: p in s.data ==> f !in s.data[p]
    {
      assert !Owned(s, f);
    }
  }

  lemma ForkKeepsFrames(s: Base, s': Base, child: int, fs: seq<int>)
    requires FramesOk(s) && child !in s.data && |fs| == NUM_PAG_DATA && NoDuplicates(fs)
    requires s'.data == s.data[child := fs] && s'.code == s.code && |s'.used| == TOTAL_PAGES
    requires forall f :: f in fs ==> UserFrame(f) && f !in s.code
    requires forall p, f :: p in s.data && f in fs ==> f !in s.data[p]
    requires forall f :: 0 <= f < TOTAL_PAGES ==> s'.used[f] == (s.used[f] || f in fs)
    requires Count(s'.used) == Count(s.used) + NUM_PAG_DATA
    ensures FramesOk(s')
  {
    hide Count;
    forall f | 0 <= f < TOTAL_PAGES
      ensures s'.used[f] <==> Owned(s', f)
    {
      assert s.used[f] <==> Owned(s, f);
      if Owned(s, f) && f >= NUM_PAG_KERNEL && f !in s.code {
        var p :| p in s.data && f in s.data[p];
        assert p in s'.data && f in s'.data[p];
      }
      if f in fs {
        assert child in s'.data && f in s'.data[child];
      }
    }
    assert |s'.data| == |s.data| + 1;
  }

  lemma ExitKeepsInv(s: Base, next: int)
    requires Inv(s) && s.current in s.data
    requires s.current != s.init ==> (next in s.data && next != s.current) || next == s.idle
    ensures Inv(Exit(s, next))
  {
    hide ReleasedAll, Count;
    if s.current != s.init {
      var s', fs := Exit(s, next), s.data[s.current];
      FramesAreReleasable(s, s.current);
      ReleasesFrames(s.used, fs);
      ExitKeepsFrames(s, s', s.current);
      assert |s'.data| == |s.data| - 1;
    }
  }

  lemma FramesAreReleasable(s: Base, p: int)
    requires FramesOk(s) && p in s.data
    ensures NoDuplicates(s.data[p]) && forall f :: f in s.data[p] ==> NUM_PAG_KERNEL < f < TOTAL_PAGES && s.used[f]
  {
    hide Count;
    forall f | f in s.data[p]
      ensures NUM_PAG_KERNEL < f < TOTAL_PAGES && s.used[f]
    {
      assert UserFrame(f) && f !in s.code;
      assert Owned(s, f);
    }
  }

  lemma OwnedAfterExit(s: Base, s': Base, p: int, f: int)
    requires p in s.data && s'.data == s.data - {p} && s'.code == s.code
    requires forall q :: q in s.data && f in s.data[q] && f in s.data[p] ==> q == p
    requires f in s.data[p] ==> NUM_PAG_KERNEL <= f && f !in s.code
    ensures Owned(s', f) <==> Owned(s, f) && f !in s.data[p]
  {
    if q :| q in s.data && f in s.data[q] && q != p {
      assert q in s'.data && f in s'.data[q];
    }
    if q :| q in s'.data && f in s'.data[q] {
      assert q in s.data && f in s.data[q];
    }
  }

  lemma UsedAfterExit(s: Base, s': Base, p: int, f: int)
    requires FramesOk(s) && p in s.data && s'.data == s.data - {p} && s'.code == s.code && 0 <= f < TOTAL_PAGES
    ensures Owned(s', f) <==> s.used[f] && f !in s.data[p]
  {
    hide Count, Owned, NoDuplicates;
    if f in s.data[p] {
      assert UserFrame(f) && f !in s.code;
    }
    OwnedAfterExit(s, s', p, f);
  }

  lemma ExitKeepsFrames(s: Base, s': Base, p: int)
    requires FramesOk(s) && p in s.data
    requires s'.data == s.data - {p} && s'.code == s.code && |s'.used| == TOTAL_PAGES
    requires forall f :: 0 <= f < TOTAL_PAGES ==> s'.used[f] == (s.used[f] && f !in s.data[p])
    requires Count(s'.used) == Count(s.used) - NUM_PAG_DATA
    ensures FramesOk(s')
  {
    hide Count, Owned, NoDuplicates, UserFrame;
    forall f | 0 <= f < TOTAL_PAGES
      ensures s'.used[f] <==> Owned(s', f)
    {
      UsedAfterExit(s, s', p, f);
    }
    assert |s'.data| == |s.data| - 1;
  }

  // Runs

  datatype Step = ForkStep | ExitStep(next: int) | SwitchStep(next: int)

  ghost predicate Enabled(s: Base, step: Step) {
    match step
    case ForkStep => s.current in s.data
    case ExitStep(next) => s.current in s.data && ((next in s.data && next != s.current) || next == s.idle)
    case SwitchStep(next) => next in s.data || next == s.idle
  }

  ghost function Next(s: Base, step: Step): (s': Base)
    requires Inv(s) && Enabled(s, step)
    ensures Inv(s')
  {
    match step
    case ForkStep => ForkKeepsInv(s); Fork(s)
    case ExitStep(next) => ExitKeepsInv(s, next); Exit(s, next)
    case SwitchStep(next) =>
      assert FramesOk(s.(current := next)) by { SwitchKeepsFrames(s, next); }
      s.(current := next)
  }

  lemma SwitchKeepsFrames(s: Base, next: int)
    requires FramesOk(s)
    ensures FramesOk(s.(current := next))
  {
    hide Count;
    assert forall f :: Owned(s.(current := next), f) <==> Owned(s, f);
  }

  ghost predicate Runs(s: Base, steps: seq<Step>)
    requires Inv(s)
    decreases |steps|
  {
    steps == [] || (Enabled(s, steps[0]) && Runs(Next(s, steps[0]), steps[1..]))
  }

  ghost function After(s: Base, steps: seq<Step>): (s': Base)
    requires Inv(s) && Runs(s, steps)
    ensures Inv(s')
    decreases |steps|
  {
    if steps == [] then s else After(Next(s, steps[0]), steps[1..])
  }

  /**
   After any run of forks, exits and switches: every live process has its own twenty data frames, all of
   them marked used; exactly 264 frames and twenty for each process are used; and a fork finds its frames.
   */
  lemma FramesAfterAnyRun(s: Base, steps: seq<Step>, p: int, q: int, f: int)
    requires Inv(s) && Runs(s, steps)
    ensures var s' := After(s, steps);
            && Count(s'.used) == 264 + 20 * |s'.data|
            && (p in s'.data && f in s'.data[p] ==>
                  && 0 <= f < |s'.used| && s'.used[f] && f % 2 == 0
                  && (q in s'.data && q != p ==> f !in s'.data[q]))
            && (s'.free != [] ==> -1 !in FramesN(s'.used, NUM_PAG_DATA))
  {
    hide FramesN, Count, Runs, After;
    var s' := After(s, steps);
    if p in s'.data {
      FramesAreReleasable(s', p);
      assert f in s'.data[p] ==> UserFrame(f);
    }
    if s'.free != [] {
      ForkNeverRunsOut(s');
    }
  }

  /** A fork with a structure left gives the child twenty different frames that nobody had, and changes nobody else. */
  lemma ForkMeans(s: Base)
    requires Inv(s) && Enabled(s, ForkStep)
    ensures var s' := Next(s, ForkStep);
            if s.free == [] then s' == s
            else
              var child := s.free[0];
              && s'.data.Keys == s.data.Keys + {child} && child !in s.data && (forall p :: p in s.data ==> s'.data[p] == s.data[p])
              && |s'.data[child]| == 20 && NoDuplicates(s'.data[child])
              && (forall f :: f in s'.data[child] ==> 0 <= f < |s.used| && !s.used[f])
              && |s'.used| == |s.used| && (forall f :: 0 <= f < |s.used| ==> s'.used[f] == (s.used[f] || f in s'.data[child]))
              && s'.free == s.free[1..] && s'.code == s.code && s'.current == s.current && s'.idle == s.idle && s'.init == s.init
  {
    hide FramesN, AllocatedN, Count;
    if s.free != [] {
      ForkNeverRunsOut(s);
      AllocatesDifferentFrames(s.used, NUM_PAG_DATA);
    }
  }

  /** The end of a process other than init frees exactly its frames and its structure; the next one runs. */
  lemma ExitMeans(s: Base, next: int)
    requires Inv(s) && Enabled(s, ExitStep(next))
    ensures var s' := Next(s, ExitStep(next));
            if s.current == s.init then s' == s
            else
              && s'.data.Keys == s.data.Keys - {s.current} && (forall p :: p in s'.data ==> s'.data[p] == s.data[p])
              && |s'.used| == |s.used| && (forall f :: 0 <= f < |s.used| ==> s'.used[f] == (s.used[f] && f !in s.data[s.current]))
              && s'.free == s.free + [s.current] && s'.code == s.code && s'.current == next && s'.idle == s.idle && s'.init == s.init
  {
    hide Count, ReleasedAll;
    FramesAreReleasable(s, s.current);
    ReleasesFrames(s.used, s.data[s.current]);
  }

  // Boot

  /** Only the kernel's frames are used. */
  function InitialFrames(n: nat): (used: seq<bool>)
    ensures |used| == n && forall i :: 0 <= i < n ==> used[i] == (i < NUM_PAG_KERNEL)
  {
    if n == 0 then [] else InitialFrames(n - 1) + [n - 1 < NUM_PAG_KERNEL]
  }

  lemma {:induction false} InitialCount(n: nat)
    ensures Count(InitialFrames(n)) == if n < NUM_PAG_KERNEL then n else NUM_PAG_KERNEL
  {
    if n > 0 {
      InitialCount(n - 1);
      assert InitialFrames(n)[..n - 1] == InitialFrames(n - 1);
    }
  }

  /** Init owns the first code and data frames, idle owns none. */
  function Boot(total: nat, code: nat, data: nat): Base {
    var used := InitialFrames(total);
    var withCode := AllocatedN(used, code);
    Base(AllocatedN(withCode, data), FramesN(used, code), map[1 := FramesN(withCode, data)],
         [2, 3, 4, 5, 6, 7, 8, 9], 0, 1, 1)
  }

  lemma BootIsGood()
    ensures Inv(Boot(TOTAL_PAGES, NUM_PAG_CODE, NUM_PAG_DATA))
  {
    hide FramesN, AllocatedN, InitialFrames, Count, Took, FramesOk;
    var used := InitialFrames(TOTAL_PAGES);
    InitialCount(TOTAL_PAGES);
    FramesLast(used, NUM_PAG_CODE);
    AllocatesDifferentFrames(used, NUM_PAG_CODE);
    FramesLast(AllocatedN(used, NUM_PAG_CODE), NUM_PAG_DATA);
    AllocatesDifferentFrames(AllocatedN(used, NUM_PAG_CODE), NUM_PAG_DATA);
    FirstCodeFrame(used, NUM_PAG_CODE);
    var s := Boot(TOTAL_PAGES, NUM_PAG_CODE, NUM_PAG_DATA);
    assert s.data == map[1 := s.data[1]] && s.data.Keys == {1};
    TookForInit(s, used, AllocatedN(used, NUM_PAG_CODE));
  }

  /** Only init owns data frames, taken after the code frames. */
  lemma TookForInit(s: Base, used: seq<bool>, withCode: seq<bool>)
    requires s.data.Keys == {1} && Took(used, s.code, withCode) && Took(withCode, s.data[1], s.used)
    requires forall i :: 0 <= i < TOTAL_PAGES ==> used[i] == (i < NUM_PAG_KERNEL)
    requires Count(used) == NUM_PAG_KERNEL && NUM_PAG_KERNEL in s.code && |s.code| == NUM_PAG_CODE && |s.data[1]| == NUM_PAG_DATA
    ensures FramesOk(s)
  {
    hide Count, NoDuplicates;
    assert 1 in s.data && forall p :: p in s.data ==> p == 1;
    forall f | 0 <= f < TOTAL_PAGES
      ensures s.used[f] <==> Owned(s, f)
    {
      assert f in s.data[1] ==> Owned(s, f);
    }
    assert |s.data| == |s.data.Keys|;
  }

  lemma {:induction false} FirstCodeFrame(used: seq<bool>, n: nat)
    requires |used| == TOTAL_PAGES && !used[NUM_PAG_KERNEL] && n > 0
    ensures NUM_PAG_KERNEL in FramesN(used, n)
  {
    if n == 1 {
      assert FramesN(used, 1) == [FirstFree(used, NUM_PAG_KERNEL)];
    } else {
      FirstCodeFrame(used, n - 1);
      assert FramesN(used, n)[..n - 1] == FramesN(used, n - 1);
      var f := NUM_PAG_KERNEL;
      assert f in FramesN(used, n - 1);
    }
  }
}
