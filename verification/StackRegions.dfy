/**
 The search for a free stack region never fails and never leaves the first ten regions:
 a process has a free thread slot, hence at most nine threads, each with one region.
 */
module StackRegions {
  import opened KernelModel
  import opened Processes
  import opened Sequences

  // Counting

  lemma {:induction false} ElementsAreNoMore(s: seq<int>)
    ensures |Elements(s)| <= |s|
    ensures NoDuplicates(s) ==> |Elements(s)| == |s|
  {
    if s == [] {
      assert Elements(s) == {};
    } else {
      var front, last := s[..|s| - 1], s[|s| - 1];
      ElementsAreNoMore(front);
      assert Elements(s) == Elements(front) + {last};
      if NoDuplicates(s) {
        assert last !in front;
      }
    }
  }

  // The members of a process

  function Members(k: Kernel, m: int): seq<int>
    requires m in k.threads
  {
    [m] + k.threads[m]
  }

  lemma MembersAreTheProcess(k: Kernel, m: int)
    requires Led(k) && Listed(k) && IsMaster(k, m) && m in k.threads
    ensures NoDuplicates(Members(k, m))
    ensures forall t :: t in Members(k, m) <==> t in k.tasks && k.tasks[t].master == m
  {
    forall t | t in k.tasks && k.tasks[t].master == m
      ensures t in Members(k, m)
    {
      assert BelongsTo(k, t, m);
    }
  }

  /** The slots of the members of a process, in the order of the list. */
  function Slots(k: Kernel, members: seq<int>): (s: seq<int>)
    ensures |s| == |members|
    ensures forall i :: 0 <= i < |members| && members[i] in k.tasks ==> s[i] == SlotOf(k.tasks[members[i]])
  {
    seq(|members|, i requires 0 <= i < |members| =>
      if members[i] in k.tasks then SlotOf(k.tasks[members[i]]) else -1)
  }

  /** A clear slot leaves room for at most nine members. */
  lemma AtMostNineMembers(k: Kernel, m: int, slot: int)
    requires Led(k) && Listed(k) && Slotted(k) && IsMaster(k, m) && m in k.threads && m != k.idle
    requires |k.tasks[m].slots| == MAX_TIDS && 0 <= slot < MAX_TIDS && !k.tasks[m].slots[slot]
    ensures |Members(k, m)| <= 9
  {
    MembersAreTheProcess(k, m);
    MembersHaveDifferentSlots(k, m);
    FewerFit(Slots(k, Members(k, m)), MAX_TIDS, slot);
  }

  lemma FewerFit(s: seq<int>, n: nat, slot: int)
    requires NoDuplicates(s) && 0 <= slot < n
    requires forall i :: i in s ==> i in Below(n) && i != slot
    ensures |s| < n
  {
    ElementsAreNoMore(s);
    SubsetIsSmaller(Elements(s), Below(n) - {slot});
  }

  lemma SomeIsMissing(s: seq<int>, n: nat) returns (j: int)
    requires |s| < n
    ensures 0 <= j < n && j !in s
  {
    ElementsAreNoMore(s);
    if Below(n) <= Elements(s) {
      SubsetIsSmaller(Below(n), Elements(s));
      assert false;
    }
    j :| j in Below(n) && j !in Elements(s);
  }

  lemma MembersHaveDifferentSlots(k: Kernel, m: int)
    requires Led(k) && Listed(k) && Slotted(k) && IsMaster(k, m) && m in k.threads && m != k.idle
    requires NoDuplicates(Members(k, m))
    requires forall t :: t in Members(k, m) <==> t in k.tasks && k.tasks[t].master == m
    ensures NoDuplicates(Slots(k, Members(k, m)))
    ensures forall i :: i in Slots(k, Members(k, m)) ==> i in Below(MAX_TIDS) && k.tasks[m].slots[i]
  {
    hide BelongsTo;
    var members := Members(k, m);
    var slots := Slots(k, members);
    assert k.idle !in members by {
      assert IsMaster(k, k.idle);
    }
    forall i | 0 <= i < |slots|
      ensures slots[i] in Below(MAX_TIDS) && k.tasks[m].slots[slots[i]]
    {
      var t := members[i];
      assert t in members;
      assert OwnsSlot(k, t, m);
    }
    forall i, j | 0 <= i < j < |slots|
      ensures slots[i] != slots[j]
    {
      var t, u := members[i], members[j];
      assert t in members && u in members && t != u;
    }
  }

  // Regions

  function RegionNumber(t: Task): int {
    if t.regionPages == 0 then -1 else (t.regionStart - STACK_BASE_PAGE) / REGION_PAGES
  }

  /** Regions of the ten are either the same or apart. */
  lemma OverlapIsEquality(t: Task, j: int)
    requires 0 <= j <= 9
    requires t.regionPages != 0 ==> t.regionPages == REGION_PAGES && IsRegion(t.regionStart)
    ensures RegionOverlaps(t, STACK_BASE_PAGE + j * REGION_PAGES, REGION_PAGES) <==> RegionNumber(t) == j
    ensures RegionNumber(t) == j <==> t.regionPages != 0 && t.regionStart == STACK_BASE_PAGE + j * REGION_PAGES
  {
  }

  lemma SomeRegionIsUnused(k: Kernel, m: int) returns (j: int)
    requires m in k.threads && |Members(k, m)| <= 9
    ensures 0 <= j <= 9 && forall t :: t in Members(k, m) && t in k.tasks ==> RegionNumber(k.tasks[t]) != j
  {
    var members := Members(k, m);
    var numbers := seq(|members|, i requires 0 <= i < |members| =>
      if members[i] in k.tasks then RegionNumber(k.tasks[members[i]]) else -1);
    j := SomeIsMissing(numbers, 10);
    forall t | t in members && t in k.tasks
      ensures RegionNumber(k.tasks[t]) != j
    {
      var i :| 0 <= i < |members| && members[i] == t;
      assert numbers[i] in numbers;
    }
  }

  lemma {:induction false} SearchStopsAtUnused(k: Kernel, m: int, i: nat, j: nat)
    requires HasProcess(k, m) && i <= j <= 9
    requires !RegionInUse(k, m, STACK_BASE_PAGE + j * REGION_PAGES)
    ensures var r := FindRegion(k, m, STACK_BASE_PAGE + i * REGION_PAGES);
            r != -1 && r <= STACK_BASE_PAGE + j * REGION_PAGES && IsRegion(r)
    decreases j - i
  {
    var start := STACK_BASE_PAGE + i * REGION_PAGES;
    if RegionInUse(k, m, start) {
      SearchStopsAtUnused(k, m, i + 1, j);
    }
  }

  /** Whenever a thread slot is clear, the search yields one of the ten regions, unused in the process. */
  lemma FreeRegionExists(k: Kernel, m: int, slot: int)
    requires Led(k) && Listed(k) && Slotted(k) && Stacked(k) && HasProcess(k, m) && IsMaster(k, m) && m != k.idle
    requires |k.tasks[m].slots| == MAX_TIDS && 0 <= slot < MAX_TIDS && !k.tasks[m].slots[slot]
    ensures var r := FindRegion(k, m, STACK_BASE_PAGE);
            && r != -1 && IsRegion(r)
            && forall t :: t in k.tasks && k.tasks[t].master == m && k.tasks[t].regionPages != 0 ==>
                 k.tasks[t].regionStart != r
  {
    AtMostNineMembers(k, m, slot);
    MembersAreTheProcess(k, m);
    var j := SomeRegionIsUnused(k, m);
    var start := STACK_BASE_PAGE + j * REGION_PAGES;
    assert !RegionInUse(k, m, start) by {
      forall t | t in Members(k, m)
        ensures !RegionOverlaps(k.tasks[t], start, REGION_PAGES)
      {
        OverlapIsEquality(k.tasks[t], j);
      }
    }
    SearchStopsAtUnused(k, m, 0, j);
    FoundIsUnused(k, m, FindRegion(k, m, STACK_BASE_PAGE));
  }

  lemma FoundIsUnused(k: Kernel, m: int, r: int)
    requires Led(k) && Listed(k) && HasProcess(k, m) && IsMaster(k, m) && !RegionInUse(k, m, r)
    requires Stacked(k)
    ensures forall t :: t in k.tasks && k.tasks[t].master == m && k.tasks[t].regionPages != 0 ==>
              k.tasks[t].regionStart != r
  {
    MembersAreTheProcess(k, m);
    forall t | t in k.tasks && k.tasks[t].master == m && k.tasks[t].regionPages != 0
      ensures k.tasks[t].regionStart != r
    {
      assert t in Members(k, m);
      assert !RegionOverlaps(k.tasks[t], r, REGION_PAGES);
    }
  }
}
