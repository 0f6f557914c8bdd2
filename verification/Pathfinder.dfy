/**
 The weighted path search: Dijkstra over the grid with the bounded heap.
 */
module Pathfinder {
  import opened Grid
  import opened PriorityQueues
  import opened SearchTheory
  import opened Sequences

  function NodeFor(k: Knowledge, p: Position): Node
    requires p in k.labels
  {
    Node(p, k.labels[p].dir, k.labels[p].cost)
  }

  /** The heap holds exactly one node per open cell, and it agrees with the tables. */
  ghost predicate HeapMatches(heap: multiset<Node>, k: Knowledge) {
    && k.open <= k.labels.Keys
    && |heap| == |k.open|
    && (forall n :: n in heap ==> n.pos in k.open && n == NodeFor(k, n.pos) && heap[n] == 1)
    && (forall p :: p in k.open ==> NodeFor(k, p) in heap)
  }

  lemma TakeFromHeap(heap: multiset<Node>, k: Knowledge, n: Node)
    requires HeapMatches(heap, k) && n in heap
    ensures n.pos in k.open && n == NodeFor(k, n.pos)
    ensures HeapMatches(heap - multiset{n}, Taken(k, n.pos))
  {
    var k', heap' := Taken(k, n.pos), heap - multiset{n};
    forall q | q in heap'
      ensures q.pos in k'.open && q == NodeFor(k', q.pos) && heap'[q] == 1
    {
      assert q in heap;
    }
    forall p | p in k'.open
      ensures NodeFor(k', p) in heap'
    {
      assert NodeFor(k, p) in heap;
    }
  }

  lemma TakenKeepsLossy(k: Knowledge, u: Position)
    requires u in k.open && u in k.labels
    ensures Lossy(Taken(k, u)) <==> Lossy(k)
    ensures |Taken(k, u).open| < |k.open|
  {
    assert Taken(k, u).done + Taken(k, u).open == k.done + k.open;
  }

  lemma CheapestOpen(heap: multiset<Node>, k: Knowledge, n: Node)
    requires HeapMatches(heap, k) && n in heap
    requires forall other :: other in heap ==> n.cost <= other.cost
    ensures n.pos in k.open && n == NodeFor(k, n.pos) && k.open <= k.labels.Keys
    ensures forall p :: p in k.open ==> k.labels[n.pos].cost <= k.labels[p].cost
  {
    forall p | p in k.open
      ensures k.labels[n.pos].cost <= k.labels[p].cost
    {
      assert NodeFor(k, p) in heap;
    }
  }

  lemma TakeCheapest(pr: Problem, heap: multiset<Node>, k: Knowledge, n: Node)
    requires pr.Valid() && Sound(pr, k) && (!Lossy(k) ==> Complete(pr, k)) && HeapMatches(heap, k)
    requires n in heap && forall other :: other in heap ==> n.cost <= other.cost
    requires pr.start in k.open ==> k.open == {pr.start}
    ensures n.pos in k.open && n.pos in k.labels && n == NodeFor(k, n.pos) && pr.m.InBounds(n.pos)
    ensures k.open <= k.labels.Keys && forall p :: p in k.open ==> n.cost <= k.labels[p].cost
    ensures var k' := Taken(k, n.pos);
            && Sound(pr, k') && HeapMatches(heap - multiset{n}, k') && n == NodeFor(k', n.pos)
            && (Lossy(k') <==> Lossy(k)) && (!Lossy(k') ==> CompleteExcept(pr, k', n.pos))
            && |k'.open| < |k.open| && pr.start !in k'.open
  {
    hide Sound, HeapMatches, CompleteExcept, Complete, Lossy;
    CheapestOpen(heap, k, n);
    TakeFromHeap(heap, k, n);
    TakenIsSound(pr, k, n.pos);
    OpenInBounds(pr, k, n.pos);
    if !Lossy(k) {
      TakenIsComplete(pr, k, n.pos);
    }
    TakenKeepsLossy(k, n.pos);
  }

  lemma AddToHeap(heap: multiset<Node>, m: TileMap, k: Knowledge, u: Position, d: Direction)
    requires m.Valid() && u in k.labels && HeapMatches(heap, k)
    requires Move(u, d) !in k.labels
    ensures var k' := Discovered(m, k, u, d, true);
            HeapMatches(heap + multiset{NodeFor(k', Move(u, d))}, k')
  {
    var v := Move(u, d);
    var k' := Discovered(m, k, u, d, true);
    var heap' := heap + multiset{NodeFor(k', v)};
    assert k'.open == k.open + {v};
    forall p | p in k'.open
      ensures NodeFor(k', p) in heap'
    {
      if p != v {
        assert NodeFor(k, p) in heap;
      }
    }
  }

  lemma DropFromHeap(heap: multiset<Node>, m: TileMap, k: Knowledge, u: Position, d: Direction)
    requires m.Valid() && u in k.labels && HeapMatches(heap, k)
    requires Move(u, d) !in k.labels
    ensures HeapMatches(heap, Discovered(m, k, u, d, false))
  {
  }

  function Cells(m: TileMap): (cells: set<Position>)
    ensures forall p :: p in cells <==> m.InBounds(p)
  {
    set x, y | 0 <= x < m.width && 0 <= y < m.height :: Position(x, y)
  }

  /** Where the search can go, apart from its start. */
  function Territory(pr: Problem): set<Position>
    requires pr.m.Valid()
  {
    set p | p in Cells(pr.m) && p != pr.start && pr.m.Passable(pr.ghostMode, p)
  }

  /** A condition on the heap that callers can check and that rules out dropped pushes. */
  ghost predicate Roomy(pr: Problem, capacity: nat)
    requires pr.m.Valid()
  {
    1 <= capacity && |Territory(pr)| <= capacity
  }

  /** Labelled cells other than the start lie in the territory, so a heap as large as that never fills up. */
  lemma RoomForOneMore(pr: Problem, k: Knowledge, v: Position)
    requires pr.Valid() && Sound(pr, k) && pr.start !in k.open
    requires v !in k.labels && pr.m.Passable(pr.ghostMode, v)
    ensures |k.open| < |Territory(pr)|
  {
    forall p | p in k.open + {v}
      ensures p in Territory(pr)
    {
      if p in k.open {
        assert Witnessed(pr, p, k.labels[p]);
      }
    }
    SubsetIsSmaller(k.open + {v}, Territory(pr));
  }

  lemma EmptyHeap(k: Knowledge)
    requires HeapMatches(multiset{}, k)
    ensures k.open == {}
  {
  }

  lemma LabelsAreCells(pr: Problem, k: Knowledge)
    requires pr.Valid() && Sound(pr, k)
    ensures k.labels.Keys <= Cells(pr.m)
  {
    forall p | p in k.labels
      ensures p in Cells(pr.m)
    {
      assert Witnessed(pr, p, k.labels[p]);
    }
  }

  lemma OpenInBounds(pr: Problem, k: Knowledge, p: Position)
    requires pr.Valid() && Sound(pr, k) && p in k.open
    ensures pr.m.InBounds(p)
  {
    assert Witnessed(pr, p, k.labels[p]);
  }

  lemma InitialHeap(pr: Problem)
    requires pr.Valid()
    ensures HeapMatches(multiset{NodeFor(Initial(pr), pr.start)}, Initial(pr))
    ensures HeapMatches(multiset{}, Initial(pr).(open := {}))
    ensures Sound(pr, Initial(pr).(open := {}))
  {
    InitialIsGood(pr);
  }

  lemma FullMeansCramped(pr: Problem, k: Knowledge, v: Position, heap: multiset<Node>, capacity: nat)
    requires pr.Valid() && Sound(pr, k) && pr.start !in k.open && HeapMatches(heap, k)
    requires v !in k.labels && pr.m.Passable(pr.ghostMode, v)
    requires capacity <= |heap|
    ensures !Roomy(pr, capacity)
  {
    RoomForOneMore(pr, k, v);
  }

  /** k' is what the search knows after it labelled the neighbour of u in direction d. */
  ghost predicate Discovers(pr: Problem, k: Knowledge, u: Position, d: Direction, k': Knowledge)
    requires pr.Valid()
  {
    var v := Move(u, d);
    && d != DirNone && u in k.labels && v !in k.labels && pr.m.Passable(pr.ghostMode, v)
    && Offer(pr.m, k, u, d).cost < INFINITY
    && k' == Discovered(pr.m, k, u, d, v in k'.open)
  }

  // Runs of the search

  /** What the search knows at first. The start is refused only by a heap without any room. */
  function Start(pr: Problem, capacity: nat): Knowledge {
    Initial(pr).(open := if capacity == 0 then {} else {pr.start})
  }

  /** Takes a cheapest waiting cell, once all finished cells have been expanded. */
  ghost predicate Takes(pr: Problem, k: Knowledge, u: Position, k': Knowledge)
    requires pr.Valid()
  {
    && u in k.open && k.open <= k.labels.Keys && (forall p :: p in k.open ==> k.labels[u].cost <= k.labels[p].cost)
    && AllExpanded(pr, k) && k' == Taken(k, u)
  }

  /** Labels the next neighbour of the cell taken last, in the order of the loop; it waits unless the heap is full. */
  ghost predicate Labels(pr: Problem, capacity: nat, k: Knowledge, u: Position, d: Direction, k': Knowledge)
    requires pr.Valid()
  {
    && u in k.done && Discovers(pr, k, u, d, k') && k.last == k.labels[u].cost
    && ExpandedBut(pr, k, u) && RelaxedFirst(pr, k, u, Turn(d))
    && k' == Discovered(pr.m, k, u, d, |k.open| < capacity)
  }

  ghost predicate SearchStep(pr: Problem, capacity: nat, k: Knowledge, k': Knowledge)
    requires pr.Valid()
  {
    (exists u :: Takes(pr, k, u, k')) || (exists u, d :: Labels(pr, capacity, k, u, d, k'))
  }

  /** A run of the search up to k. */
  ghost predicate Searched(pr: Problem, capacity: nat, trace: seq<Knowledge>, k: Knowledge)
    requires pr.Valid()
  {
    && trace != [] && trace[0] == Start(pr, capacity) && trace[|trace| - 1] == k
    && forall i :: 0 < i < |trace| ==> SearchStep(pr, capacity, trace[i - 1], trace[i])
  }

  lemma SearchOn(pr: Problem, capacity: nat, trace: seq<Knowledge>, k: Knowledge, k': Knowledge)
    requires pr.Valid() && Searched(pr, capacity, trace, k) && SearchStep(pr, capacity, k, k')
    ensures Searched(pr, capacity, trace + [k'], k')
  {
    hide SearchStep, Start;
  }

  lemma TakeOn(pr: Problem, capacity: nat, trace: seq<Knowledge>, k: Knowledge, u: Position)
    requires pr.Valid() && Searched(pr, capacity, trace, k)
    requires u in k.open && k.open <= k.labels.Keys && forall p :: p in k.open ==> k.labels[u].cost <= k.labels[p].cost
    requires AllExpanded(pr, k)
    ensures Searched(pr, capacity, trace + [Taken(k, u)], Taken(k, u))
  {
    hide Searched;
    hide AllExpanded;
    assert Takes(pr, k, u, Taken(k, u));
    SearchOn(pr, capacity, trace, k, Taken(k, u));
  }

  lemma LabelOn(pr: Problem, capacity: nat, trace: seq<Knowledge>, k: Knowledge, u: Position, d: Direction)
    requires pr.Valid() && Searched(pr, capacity, trace, k) && u in k.done && u in k.labels && k.last == k.labels[u].cost
    requires d != DirNone && Move(u, d) !in k.labels && Move(u, d) !in k.open && pr.m.Passable(pr.ghostMode, Move(u, d))
    requires Offer(pr.m, k, u, d).cost < INFINITY && ExpandedBut(pr, k, u) && RelaxedFirst(pr, k, u, Turn(d))
    ensures var k' := Discovered(pr.m, k, u, d, |k.open| < capacity); Searched(pr, capacity, trace + [k'], k')
  {
    hide Searched, ExpandedBut, RelaxedFirst;
    var k' := Discovered(pr.m, k, u, d, |k.open| < capacity);
    assert Labels(pr, capacity, k, u, d, k');
    SearchOn(pr, capacity, trace, k, k');
  }

  /** A step that labels a cell while the heap is full. */
  predicate Refuses(capacity: nat, k: Knowledge, k': Knowledge) {
    k'.labels.Keys != k.labels.Keys && |k.open| >= capacity
  }

  lemma StepKeepsLossy(pr: Problem, capacity: nat, k: Knowledge, k': Knowledge)
    requires pr.Valid() && SearchStep(pr, capacity, k, k') && k.done <= k.labels.Keys && k.open <= k.labels.Keys
    ensures k'.done <= k'.labels.Keys && k'.open <= k'.labels.Keys
    ensures Lossy(k') <==> Lossy(k) || Refuses(capacity, k, k')
  {
    hide AllExpanded, ExpandedBut, RelaxedFirst;
    if u :| Takes(pr, k, u, k') {
      TakenKeepsLossy(k, u);
    } else {
      var u, d :| Labels(pr, capacity, k, u, d, k');
      var v := Move(u, d);
      assert k'.labels.Keys == k.labels.Keys + {v} && v !in k.done + k.open;
      if Lossy(k) {
        var p :| p in k.labels.Keys && p !in k.done + k.open;
        assert p in k'.labels.Keys && p !in k'.done + k'.open;
      }
    }
  }

  /** Whatever is refused, what a run has found is real. */
  lemma {:induction false} SearchedIsSound(pr: Problem, capacity: nat, trace: seq<Knowledge>, k: Knowledge)
    requires pr.Valid() && Searched(pr, capacity, trace, k)
    ensures Sound(pr, k)
    decreases |trace|
  {
    if |trace| == 1 {
      InitialIsGood(pr);
      InitialHeap(pr);
    } else {
      LastStep(pr, capacity, trace, k);
      hide Searched, Sound, AllExpanded, ExpandedBut, RelaxedFirst;
      var n := |trace| - 1;
      SearchedIsSound(pr, capacity, trace[..n], trace[n - 1]);
      StepIsSound(pr, capacity, trace[n - 1], trace[n]);
    }
  }

  lemma StepIsSound(pr: Problem, capacity: nat, k: Knowledge, k': Knowledge)
    requires pr.Valid() && SearchStep(pr, capacity, k, k') && Sound(pr, k)
    ensures Sound(pr, k')
  {
    hide Sound, AllExpanded, ExpandedBut, RelaxedFirst;
    if u :| Takes(pr, k, u, k') {
      TakenIsSound(pr, k, u);
    } else {
      var u, d :| Labels(pr, capacity, k, u, d, k');
      DiscoveredIsSound(pr, k, u, d, |k.open| < capacity);
    }
  }

  /** The cell was labelled and refused: it will never be taken. */
  ghost predicate Missed(k: Knowledge, p: Position) {
    p in k.labels && p !in k.open && p !in k.done
  }

  lemma StaysMissed(pr: Problem, capacity: nat, k: Knowledge, k': Knowledge, p: Position)
    requires pr.Valid() && SearchStep(pr, capacity, k, k') && Missed(k, p)
    ensures Missed(k', p)
  {
    hide AllExpanded, ExpandedBut, RelaxedFirst;
  }

  /** Some push of the run met a full heap. */
  ghost predicate AnyRefused(capacity: nat, trace: seq<Knowledge>) {
    exists i :: 0 < i < |trace| && Refuses(capacity, trace[i - 1], trace[i])
  }

  lemma LastStep(pr: Problem, capacity: nat, trace: seq<Knowledge>, k: Knowledge)
    requires pr.Valid() && Searched(pr, capacity, trace, k) && |trace| > 1
    ensures var n := |trace| - 1;
            Searched(pr, capacity, trace[..n], trace[n - 1]) && SearchStep(pr, capacity, trace[n - 1], trace[n])
  {
    hide SearchStep, Start;
  }

  lemma LastRefused(capacity: nat, trace: seq<Knowledge>)
    requires |trace| > 1
    ensures var n := |trace| - 1;
            AnyRefused(capacity, trace) <==> AnyRefused(capacity, trace[..n]) || Refuses(capacity, trace[n - 1], trace[n])
  {
    hide Refuses;
    var before := trace[..|trace| - 1];
    if AnyRefused(capacity, before) {
      var i :| 0 < i < |before| && Refuses(capacity, before[i - 1], before[i]);
      assert Refuses(capacity, trace[i - 1], trace[i]);
    }
    if i :| 0 < i < |before| && Refuses(capacity, trace[i - 1], trace[i]) {
      assert Refuses(capacity, before[i - 1], before[i]);
    }
  }

  /** Knowledge is lossy exactly if some push of the run met a full heap. */
  lemma {:induction false} LossyMeansRefused(pr: Problem, capacity: nat, trace: seq<Knowledge>, k: Knowledge)
    requires pr.Valid() && Searched(pr, capacity, trace, k)
    ensures k.done <= k.labels.Keys && k.open <= k.labels.Keys
    ensures Lossy(k) <==> capacity == 0 || AnyRefused(capacity, trace)
    decreases |trace|
  {
    if |trace| == 1 {
      assert pr.start in k.labels.Keys;
    } else {
      LastStep(pr, capacity, trace, k);
      LastRefused(capacity, trace);
      hide Searched, SearchStep, Refuses, AnyRefused, Lossy, Start;
      var n := |trace| - 1;
      LossyMeansRefused(pr, capacity, trace[..n], trace[n - 1]);
      StepKeepsLossy(pr, capacity, trace[n - 1], trace[n]);
    }
  }

  lemma AfterDiscovery(pr: Problem, k: Knowledge, u: Position, d: Direction, k': Knowledge, n: nat)
    requires pr.Valid() && Sound(pr, k) && u in k.done && u in k.labels && k.last == k.labels[u].cost
    requires Discovers(pr, k, u, d, k') && n <= 4
    requires RelaxedFirst(pr, k, u, n)
    ensures k.labels.Keys < k'.labels.Keys && k'.labels[u] == k.labels[u]
    ensures pr.start in k'.open ==> pr.start in k.open
    ensures RelaxedFirst(pr, k', u, n)
    ensures ExpandedBut(pr, k, u) ==> ExpandedBut(pr, k', u)
    ensures Lossy(k) ==> Lossy(k')
    ensures CompleteExcept(pr, k, u) && !Lossy(k') ==> CompleteExcept(pr, k', u)
  {
    var v := Move(u, d);
    assert v in k'.labels.Keys && v !in k.done;
    if Lossy(k) {
      var p :| p in k.labels.Keys && p !in k.done + k.open;
      assert p in k'.labels.Keys && p !in k'.done + k'.open;
    }
    forall j | 0 <= j < n
      ensures Relaxed(pr, k', u, FOUR_WAYS[j])
    {
      DiscoveredKeepsRelaxed(pr, k, u, d, v in k'.open, u, FOUR_WAYS[j]);
    }
    if ExpandedBut(pr, k, u) {
      DiscoveredKeepsExpanded(pr, k, u, d, v in k'.open);
    }
    if CompleteExcept(pr, k, u) && v in k'.open {
      DiscoveredIsComplete(pr, k, u, d);
    }
  }

  /** Some affordable way to target starts with dir. */
  ghost predicate HasPath(pr: Problem, target: Position, dir: Direction)
    requires pr.Valid()
  {
    target != pr.start && exists path :: StartsTowards(pr, target, dir, path) && Cost(pr.m, pr.start, path) < INFINITY
  }

  ghost predicate StartsTowards(pr: Problem, target: Position, dir: Direction, path: Path)
    requires pr.Valid()
  {
    Leads(pr.m, pr.ghostMode, pr.start, target, path) && path != [] && path[0] == dir
  }

  /** Some cheapest way to target starts with dir. */
  ghost predicate HasCheapestPath(pr: Problem, target: Position, dir: Direction)
    requires pr.Valid()
  {
    exists path :: StartsTowards(pr, target, dir, path) && Cheapest(pr, target, path)
  }

  ghost predicate Cheapest(pr: Problem, target: Position, path: Path)
    requires pr.Valid()
  {
    forall other :: Leads(pr.m, pr.ghostMode, pr.start, target, other) ==>
      Cost(pr.m, pr.start, path) <= Cost(pr.m, pr.start, other)
  }

  /** What the tables say about a taken cell. */
  lemma Answer(pr: Problem, k: Knowledge, target: Position)
    requires pr.Valid() && Sound(pr, k) && target in k.done
    requires !Lossy(k) ==> CompleteExcept(pr, k, target)
    ensures var dir := k.labels[target].dir;
            && (dir == DirNone <==> target == pr.start)
            && (dir != DirNone ==> HasPath(pr, target, dir) && !OutOfReach(pr, target))
            && (dir != DirNone && !Lossy(k) ==> HasCheapestPath(pr, target, dir))
  {
    var l := k.labels[target];
    assert Witnessed(pr, target, l);
    if l.dir != DirNone {
      assert StartsTowards(pr, target, l.dir, l.path);
      if !Lossy(k) {
        assert Optimal(pr, k, target);
        assert Cheapest(pr, target, l.path);
      }
    }
  }

  /** The search ended in k with this answer: the label of the target just taken, or none when all is expanded and nothing waits. */
  ghost predicate Answers(pr: Problem, k: Knowledge, target: Position, dir: Direction)
    requires pr.Valid()
  {
    if target in k.done then target in k.labels && dir == k.labels[target].dir && ExpandedBut(pr, k, target)
    else k.open == {} && dir == DirNone && AllExpanded(pr, k)
  }

  class Search {
    const pr: Problem
    const cost: array2<int>
    const firstDir: array2<Direction>
    const pq: PriorityQueue
    ghost var k: Knowledge
    ghost var trace: seq<Knowledge>

    ghost predicate Shaped() {
      && cost.Length0 == firstDir.Length0 == pr.m.height
      && cost.Length1 == firstDir.Length1 == pr.m.width
    }

    /** The two tables show exactly the labels; unlabelled cells cost infinity. */
    ghost predicate TablesShow(labels: map<Position, Label>)
      requires Shaped()
      reads cost, firstDir
    {
      forall x, y :: 0 <= x < pr.m.width && 0 <= y < pr.m.height ==>
           var p := Position(x, y);
           && cost[y, x] == (if p in labels then labels[p].cost else INFINITY)
           && firstDir[y, x] == (if p in labels then labels[p].dir else DirNone)
    }

    ghost predicate Steady()
      reads this`k, cost, firstDir, pq, pq.nodes
    {
      && pr.Valid() && Sound(pr, k) && Shaped() && TablesShow(k.labels)
      && pq.Valid() && HeapMatches(pq.Contents(), k)
      && (Lossy(k) ==> !Roomy(pr, pq.nodes.Length))
    }

    /** Tables and heap show what the search knows, and it got there by a run. */
    ghost predicate Valid()
      reads this, cost, firstDir, pq, pq.nodes
    {
      Steady() && Searched(pr, pq.nodes.Length, trace, k)
    }

    constructor (m: TileMap, ghostMode: bool, start: Position, capacity: nat)
      ensures pr == Problem(m, ghostMode, start) && Shaped() && TablesShow(map[])
      ensures pq.Valid() && pq.IsEmpty() && pq.nodes.Length == capacity
      ensures fresh(cost) && fresh(firstDir) && fresh(pq) && fresh(pq.nodes)
    {
      pr := Problem(m, ghostMode, start);
      cost := new int[m.height, m.width]((_, _) => INFINITY);
      firstDir := new Direction[m.height, m.width]((_, _) => DirNone);
      pq := new PriorityQueue(capacity);
    }

    /** Pushes the start, which is dropped only if the heap has no room at all. */
    method Begin()
      requires pr.Valid() && Shaped() && TablesShow(map[]) && pq.Valid() && pq.IsEmpty()
      modifies this, cost, firstDir, pq, pq.nodes
      ensures Valid() && k.open <= {pr.start} && k.done == {}
      ensures AllExpanded(pr, k) && (!Lossy(k) ==> Complete(pr, k))
    {
      hide Sound, AllWitnessed, InOrder, HeapMatches, HeapOrdered, Complete, TablesShow, SearchStep;
      k := Initial(pr).(open := if pq.IsFull() then {} else {pr.start});
      trace := [k];
      InitialIsGood(pr);
      InitialHeap(pr);
      assert pq.Contents() == multiset{};
      pq.Push(Node(pr.start, DirNone, 0));
      Write(pr.start, DirNone, 0, map[], Label(0, DirNone, []));
      assert k.labels == map[][pr.start := Label(0, DirNone, [])];
      assert multiset{} + multiset{Node(pr.start, DirNone, 0)} == multiset{Node(pr.start, DirNone, 0)};
    }

    /** The main loop. */
    method Run(target: Position) returns (dir: Direction)
      requires Valid()
      requires k.open <= {pr.start} && k.done == {} && AllExpanded(pr, k) && (!Lossy(k) ==> Complete(pr, k))
      modifies this, cost, firstDir, pq, pq.nodes
      ensures Valid()
      ensures dir != DirNone ==> HasPath(pr, target, dir)
      ensures !Lossy(k) ==> (dir == DirNone <==> target == pr.start || OutOfReach(pr, target))
      ensures !Lossy(k) && dir != DirNone ==> HasCheapestPath(pr, target, dir)
      ensures Answers(pr, k, target, dir)
    {
      hide Sound, AllWitnessed, InOrder, HeapMatches, HeapOrdered, CompleteExcept, Complete, Roomy, TablesShow, Searched;
      hide ExpandedBut, AllExpanded;
      hide HasPath, HasCheapestPath, OutOfReach;
      while !pq.IsEmpty()
        invariant Valid()
        invariant pr.start in k.open ==> k.open == {pr.start}
        invariant target !in k.done
        invariant !Lossy(k) ==> Complete(pr, k)
        invariant AllExpanded(pr, k)
        decreases Cells(pr.m) - k.labels.Keys, |k.open|
      {
        ghost var before := k;
        var current := Take();
        if current.pos == target {
          dir := firstDir[target.y, target.x];
          Answer(pr, k, target);
          return;
        }
        if current.cost > cost[current.pos.y, current.pos.x] {
          assert false; // a node in the heap is never stale
        }
        Expand(current);
        LabelsAreCells(pr, k);
      }
      dir := DirNone;
      assert pq.Contents() == multiset{};
      EmptyHeap(k);
      if !Lossy(k) {
        ExhaustedMeansExpensive(pr, k, target);
      }
    }

    /** Takes the cheapest node off the heap. */
    method Take() returns (current: Node)
      requires Valid() && !pq.IsEmpty() && (pr.start in k.open ==> k.open == {pr.start})
      requires AllExpanded(pr, k) && (!Lossy(k) ==> Complete(pr, k))
      modifies this, cost, firstDir, pq, pq.nodes
      ensures Valid() && k.labels == old(k.labels)
      ensures current.pos in old(k.open) && current.pos in k.labels && k == Taken(old(k), current.pos) && current == NodeFor(k, current.pos)
      ensures pr.start !in k.open && pr.m.InBounds(current.pos)
      ensures |k.open| < |old(k.open)|
      ensures cost[current.pos.y, current.pos.x] == current.cost
      ensures firstDir[current.pos.y, current.pos.x] == current.firstDir
      ensures ExpandedBut(pr, k, current.pos) && (!Lossy(k) ==> CompleteExcept(pr, k, current.pos))
    {
      hide Searched, Steady, Lossy, Complete, CompleteExcept, AllExpanded, ExpandedBut;
      current := TakeNode();
      TakenIsExpanded(pr, old(k), current.pos);
      TakeOn(pr, pq.nodes.Length, trace, old(k), current.pos);
      trace := trace + [k];
    }

    method TakeNode() returns (current: Node)
      requires Steady() && !pq.IsEmpty() && (pr.start in k.open ==> k.open == {pr.start})
      requires !Lossy(k) ==> Complete(pr, k)
      modifies this`k, pq, pq.nodes
      ensures pr.Valid() && Steady() && k.labels == old(k.labels)
      ensures current.pos in old(k.open) && current.pos in k.labels && k == Taken(old(k), current.pos) && current == NodeFor(k, current.pos)
      ensures old(k).open <= old(k).labels.Keys && forall p :: p in old(k).open ==> current.cost <= old(k).labels[p].cost
      ensures pr.start !in k.open && pr.m.InBounds(current.pos)
      ensures |k.open| < |old(k.open)|
      ensures Shaped() && cost[current.pos.y, current.pos.x] == current.cost
      ensures firstDir[current.pos.y, current.pos.x] == current.firstDir
      ensures !Lossy(k) ==> CompleteExcept(pr, k, current.pos)
    {
      hide Sound, HeapMatches, HeapOrdered, PriorityQueue.Contents, TablesShow, Roomy, CompleteExcept, Complete, Lossy;
      ghost var heap := pq.Contents();
      current := pq.Pop();
      TakeCheapest(pr, heap, k, current);
      k := Taken(k, current.pos);
      Lookup(current.pos);
    }

    lemma Lookup(p: Position)
      requires Steady() && p in k.labels && pr.m.InBounds(p)
      ensures cost[p.y, p.x] == k.labels[p].cost && firstDir[p.y, p.x] == k.labels[p].dir
    {
      assert p == Position(p.x, p.y);
    }

    /** The neighbour loop. */
    method Expand(current: Node)
      requires Valid() && ExpandedBut(pr, k, current.pos) && (!Lossy(k) ==> CompleteExcept(pr, k, current.pos))
      requires current.pos in k.labels && current.pos in k.done && pr.start !in k.open
      requires current == NodeFor(k, current.pos) && k.last == current.cost
      modifies this, cost, firstDir, pq, pq.nodes
      ensures Valid() && pr.start !in k.open && k.done == old(k.done)
      ensures AllExpanded(pr, k) && (!Lossy(k) ==> Complete(pr, k))
      ensures old(k.labels).Keys < k.labels.Keys || (old(k.labels).Keys == k.labels.Keys && k.open == old(k.open))
    {
      hide Sound, AllWitnessed, InOrder, HeapMatches, HeapOrdered, TablesShow, Roomy, CompleteExcept, Complete, Searched;
      hide ExpandedBut, AllExpanded, Relaxed;
      for i := 0 to 4
        invariant Valid()
        invariant current.pos in k.labels && current.pos in k.done && pr.start !in k.open && k.done == old(k.done)
        invariant current == NodeFor(k, current.pos) && k.last == current.cost
        invariant !Lossy(k) ==> CompleteExcept(pr, k, current.pos)
        invariant ExpandedBut(pr, k, current.pos) && RelaxedFirst(pr, k, current.pos, i)
        invariant old(k.labels).Keys < k.labels.Keys || k == old(k)
      {
        ghost var before := k;
        var d := FOUR_WAYS[i];
        Relax(current, d);
        if k != before {
          AfterDiscovery(pr, before, current.pos, d, k, i);
        }
      }
      FourWaysExpand(pr, k, current.pos);
      ExpandedAll(pr, k, current.pos);
    }

    /** The body of the neighbour loop. */
    method Relax(current: Node, d: Direction)
      requires Valid() && d != DirNone
      requires current.pos in k.labels && current.pos in k.done && pr.start !in k.open
      requires current == NodeFor(k, current.pos) && k.last == current.cost
      requires ExpandedBut(pr, k, current.pos) && RelaxedFirst(pr, k, current.pos, Turn(d))
      modifies this, cost, firstDir, pq, pq.nodes
      ensures Valid()
      ensures k == old(k) || Discovers(pr, old(k), current.pos, d, k)
      ensures k == old(k) || k == Discovered(pr.m, old(k), current.pos, d, !old(pq.IsFull()))
      ensures Relaxed(pr, k, current.pos, d)
    {
      hide Sound, AllWitnessed, InOrder, HeapMatches, PriorityQueue.Valid, Searched, ExpandedBut, RelaxedFirst;
      var next := Move(current.pos, d);
      if !pr.m.InBounds(next) {
        return;
      }
      var moveCost := 1;
      if pr.ghostMode {
        if !pr.m.Walkable(next) {
          moveCost := 10;
        }
      } else {
        if !pr.m.Walkable(next) {
          return;
        }
      }
      var newCost := current.cost + moveCost;
      LabelledOnce(pr, k, current.pos, d);
      assert newCost == Offer(pr.m, k, current.pos, d).cost;
      if newCost < cost[next.y, next.x] {
        Record(current, d, next, newCost);
      }
    }

    lemma OpenCount()
      requires Steady()
      ensures |k.open| == pq.size <= pq.nodes.Length && k.open <= k.labels.Keys && pr.Valid()
    {
      hide Sound, TablesShow, HeapOrdered;
    }

    method Record(current: Node, d: Direction, next: Position, newCost: int)
      requires Valid() && d != DirNone
      requires current.pos in k.labels && current.pos in k.done && pr.start !in k.open
      requires current == NodeFor(k, current.pos) && k.last == current.cost == k.labels[current.pos].cost
      requires next == Move(current.pos, d) && next !in k.labels && pr.m.Passable(pr.ghostMode, next)
      requires newCost == Offer(pr.m, k, current.pos, d).cost < INFINITY
      requires ExpandedBut(pr, k, current.pos) && RelaxedFirst(pr, k, current.pos, Turn(d))
      modifies this, cost, firstDir, pq, pq.nodes
      ensures Valid()
      ensures Discovers(pr, old(k), current.pos, d, k)
      ensures k == Discovered(pr.m, old(k), current.pos, d, !old(pq.IsFull()))
    {
      hide Searched, Steady, Offer, Discovered, Discovers, NodeFor, ExpandedBut, RelaxedFirst;
      OpenCount();
      LabelOn(pr, pq.nodes.Length, trace, k, current.pos, d);
      RecordNode(current, d, next, newCost);
      trace := trace + [k];
    }

    method RecordNode(current: Node, d: Direction, next: Position, newCost: int)
      requires Steady() && d != DirNone
      requires current.pos in k.labels && current.pos in k.done && pr.start !in k.open
      requires current == NodeFor(k, current.pos) && k.last == current.cost
      requires next == Move(current.pos, d) && next !in k.labels && pr.m.Passable(pr.ghostMode, next)
      requires newCost == Offer(pr.m, k, current.pos, d).cost < INFINITY
      modifies this`k, cost, firstDir, pq, pq.nodes
      ensures pr.Valid() && Steady()
      ensures Discovers(pr, old(k), current.pos, d, k)
      ensures k == Discovered(pr.m, old(k), current.pos, d, !old(pq.IsFull()))
    {
      hide Sound, AllWitnessed, InOrder, HeapMatches, HeapOrdered, Roomy, TablesShow;
      ghost var kept := !pq.IsFull();
      DiscoveredIsSound(pr, k, current.pos, d, kept);
      if !kept {
        FullMeansCramped(pr, k, next, pq.Contents(), pq.nodes.Length);
      }
      var dirToUse := if current.firstDir == DirNone then d else current.firstDir;
      assert Offer(pr.m, k, current.pos, d).dir == dirToUse;
      Write(next, dirToUse, newCost, k.labels, Offer(pr.m, k, current.pos, d));
      PushNode(current.pos, d, Node(next, dirToUse, newCost));
    }

    method Write(p: Position, dir: Direction, c: int, ghost labels: map<Position, Label>, ghost l: Label)
      requires Shaped() && TablesShow(labels) && pr.m.InBounds(p) && l.cost == c && l.dir == dir
      modifies cost, firstDir
      ensures TablesShow(labels[p := l])
    {
      cost[p.y, p.x] := c;
      firstDir[p.y, p.x] := dir;
    }

    method PushNode(ghost u: Position, ghost d: Direction, n: Node)
      requires pr.Valid() && pq.Valid() && HeapMatches(pq.Contents(), k)
      requires u in k.labels && Move(u, d) !in k.labels
      requires n == Node(Move(u, d), Offer(pr.m, k, u, d).dir, Offer(pr.m, k, u, d).cost)
      modifies this`k, pq, pq.nodes
      ensures pq.Valid() && HeapMatches(pq.Contents(), k)
      ensures k == Discovered(pr.m, old(k), u, d, !old(pq.IsFull()))
    {
      hide HeapMatches, HeapOrdered;
      if pq.IsFull() {
        DropFromHeap(pq.Contents(), pr.m, k, u, d);
      } else {
        AddToHeap(pq.Contents(), pr.m, k, u, d);
      }
      k := Discovered(pr.m, k, u, d, !pq.IsFull());
      pq.Push(n);
    }
  }

  /**
   The search as callers see it, with the run it took. Whatever was refused, a returned move starts
   a real way to the target. If nothing was, it starts a cheapest one, and no move is returned
   exactly when there is nowhere to go.
   */
  method FindPath(m: TileMap, start: Position, target: Position, ghostMode: bool, capacity: nat)
    returns (dir: Direction, ghost trace: seq<Knowledge>, ghost k: Knowledge)
    requires m.Valid() && m.InBounds(start)
    ensures dir != DirNone ==> HasPath(Problem(m, ghostMode, start), target, dir)
    ensures Roomy(Problem(m, ghostMode, start), capacity) ==> Exact(Problem(m, ghostMode, start), target, dir)
    ensures Searched(Problem(m, ghostMode, start), capacity, trace, k) && Answers(Problem(m, ghostMode, start), k, target, dir)
    ensures !Lossy(k) ==> Exact(Problem(m, ghostMode, start), target, dir)
    ensures Roomy(Problem(m, ghostMode, start), capacity) ==> !Lossy(k)
  {
    hide Sound, AllWitnessed, InOrder, HeapMatches, HeapOrdered, CompleteExcept, Complete, Roomy, Searched, Answers, Lossy, AllExpanded;
    hide HasPath, HasCheapestPath, OutOfReach;
    var search := new Search(m, ghostMode, start, capacity);
    search.Begin();
    dir := search.Run(target);
    trace, k := search.trace, search.k;
  }

  /** The best answer: a first move of a cheapest way, or none if there is nowhere to go. */
  ghost predicate Exact(pr: Problem, target: Position, dir: Direction)
    requires pr.Valid()
  {
    && (dir == DirNone <==> target == pr.start || OutOfReach(pr, target))
    && (dir != DirNone ==> HasCheapestPath(pr, target, dir))
  }
}
