/**
 The frame allocator of both kernels: a map of used frames that is searched in steps of two, so
 that only even frames are ever handed out. Frames up to and including the first one above the
 kernel are never freed.
 */
module Frames {

  const TOTAL_PAGES: nat := 1024
  const NUM_PAG_KERNEL: nat := 256
  const PAGE_SIZE: nat := 4096

  /** The first free frame among i, i + 2, i + 4, ..., or -1. */
  function FirstFree(used: seq<bool>, i: nat): (r: int)
    ensures r == -1 || (i <= r < |used| && (r - i) % 2 == 0 && !used[r])
    ensures r == -1 ==> forall j :: i <= j < |used| && (j - i) % 2 == 0 ==> used[j]
    ensures r != -1 ==> forall j :: i <= j < r && (j - i) % 2 == 0 ==> used[j]
    decreases |used| - i
  {
    if i >= |used| then -1 else if !used[i] then i else FirstFree(used, i + 2)
  }

  function Allocated(used: seq<bool>): seq<bool> {
    var f := FirstFree(used, NUM_PAG_KERNEL);
    if f < 0 then used else used[f := true]
  }

  function Released(used: seq<bool>, frame: int): seq<bool> {
    if NUM_PAG_KERNEL < frame < TOTAL_PAGES && frame < |used| then used[frame := false] else used
  }

  class FrameTable {
    const used: array<bool>

    constructor ()
      ensures used.Length == TOTAL_PAGES && fresh(used)
      ensures forall i :: 0 <= i < TOTAL_PAGES ==> used[i] == (i < NUM_PAG_KERNEL)
    {
      used := new bool[TOTAL_PAGES](_ => false);
      new;
      for i := 0 to NUM_PAG_KERNEL
        invariant forall j :: 0 <= j < TOTAL_PAGES ==> used[j] == (j < i)
      {
        used[i] := true;
      }
    }

    method AllocFrame() returns (frame: int)
      modifies used
      ensures frame == FirstFree(old(used[..]), NUM_PAG_KERNEL)
      ensures used[..] == Allocated(old(used[..]))
    {
      var i := NUM_PAG_KERNEL;
      while i < used.Length
        invariant NUM_PAG_KERNEL <= i && used[..] == old(used[..])
        invariant FirstFree(used[..], NUM_PAG_KERNEL) == FirstFree(used[..], i)
      {
        if !used[i] {
          used[i] := true;
          return i;
        }
        i := i + 2;
      }
      return -1;
    }

    method FreeFrame(frame: int)
      requires used.Length == TOTAL_PAGES
      modifies used
      ensures used[..] == Released(old(used[..]), frame)
    {
      if frame > NUM_PAG_KERNEL && frame < TOTAL_PAGES {
        used[frame] := false;
      }
    }
  }
}
