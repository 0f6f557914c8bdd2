/**
 What the path search knows at any moment, as a value, and why it is right.

 A label records the cost and first move of a cell together with a path that witnesses both.
 `done` are the cells whose node was taken from the heap, `open` those whose node is in it.
 `last` is the cost of the node taken most recently.
 */
module SearchTheory {
  import opened Grid
  import opened PriorityQueues

  datatype Label = Label(cost: int, dir: Direction, path: Path)

  datatype Problem = Problem(m: TileMap, ghostMode: bool, start: Position) {
    ghost predicate Valid() {
      m.Valid() && m.InBounds(start)
    }
  }

  datatype Knowledge = Knowledge(labels: map<Position, Label>, done: set<Position>, open: set<Position>, last: int)

  /** Some labelled cell has no node: a full heap refused it. */
  ghost predicate Lossy(k: Knowledge) {
    k.labels.Keys != k.done + k.open
  }

  const FOUR_WAYS: seq<Direction> := [Up, Down, Left, Right]

  ghost predicate Witnessed(pr: Problem, p: Position, l: Label)
    requires pr.Valid()
  {
    && pr.m.InBounds(p)
    && Leads(pr.m, pr.ghostMode, pr.start, p, l.path)
    && Cost(pr.m, pr.start, l.path) == l.cost < INFINITY
    && if p == pr.start then l.path == [] && l.dir == DirNone
       else l.path != [] && l.path[0] == l.dir != DirNone
  }

  ghost predicate AllWitnessed(pr: Problem, labels: map<Position, Label>)
    requires pr.Valid()
  {
    pr.start in labels && forall p :: p in labels ==> Witnessed(pr, p, labels[p])
  }

  /** Taken nodes cost at most `last`, waiting nodes at least `last`, and no label exceeds `last` by more than one step. */
  ghost predicate InOrder(pr: Problem, k: Knowledge)
    requires pr.Valid()
  {
    && k.done !! k.open
    && k.done <= k.labels.Keys
    && k.open <= k.labels.Keys
    && (forall p :: p in k.done ==> k.labels[p].cost <= k.last)
    && (forall p :: p in k.open ==> k.last <= k.labels[p].cost)
    && (forall p :: p in k.labels && p != pr.start ==> k.labels[p].cost <= k.last + pr.m.EntryCost(p))
  }

  /** Holds at every moment, whatever the heap has dropped. */
  ghost predicate Sound(pr: Problem, k: Knowledge)
    requires pr.Valid()
  {
    AllWitnessed(pr, k.labels) && InOrder(pr, k)
  }

  /** The neighbour of u in direction d has been taken into account. */
  ghost predicate Relaxed(pr: Problem, k: Knowledge, u: Position, d: Direction)
    requires pr.Valid() && u in k.labels
  {
    var v := Move(u, d);
    pr.m.Passable(pr.ghostMode, v) ==>
      var c := k.labels[u].cost + pr.m.EntryCost(v);
      if v in k.labels then k.labels[v].cost <= c else c >= INFINITY
  }

  ghost predicate Expanded(pr: Problem, k: Knowledge, u: Position)
    requires pr.Valid() && u in k.labels
  {
    forall d :: d != DirNone ==> Relaxed(pr, k, u, d)
  }

  /** Every finished cell but possibly u has been expanded, whatever the heap has dropped. */
  ghost predicate ExpandedBut(pr: Problem, k: Knowledge, u: Position)
    requires pr.Valid()
  {
    forall w :: w in k.done && w != u ==> w in k.labels && Expanded(pr, k, w)
  }

  ghost predicate AllExpanded(pr: Problem, k: Knowledge)
    requires pr.Valid()
  {
    forall w :: w in k.done ==> w in k.labels && Expanded(pr, k, w)
  }

  /** The place of a direction in the neighbour loop. */
  function Turn(d: Direction): nat {
    match d case Up => 0 case Down => 1 case Left => 2 case Right => 3 case DirNone => 4
  }

  /** The first n neighbours of u have been taken into account. */
  ghost predicate RelaxedFirst(pr: Problem, k: Knowledge, u: Position, n: nat)
    requires pr.Valid() && u in k.labels
  {
    forall j :: 0 <= j < n && j < 4 ==> Relaxed(pr, k, u, FOUR_WAYS[j])
  }

  ghost predicate Optimal(pr: Problem, k: Knowledge, u: Position)
    requires pr.Valid() && u in k.labels
  {
    forall path :: Leads(pr.m, pr.ghostMode, pr.start, u, path) ==> k.labels[u].cost <= Cost(pr.m, pr.start, path)
  }

  /** All cells of `done` are settled, and all but possibly u have been expanded. */
  ghost predicate CompleteExcept(pr: Problem, k: Knowledge, u: Position)
    requires pr.Valid()
  {
    && k.labels.Keys == k.done + k.open
    && (forall w :: w in k.done ==> Optimal(pr, k, w))
    && (forall w :: w in k.done && w != u ==> Expanded(pr, k, w))
  }

  /** Holds between two turns of the main loop as long as the heap has dropped nothing. */
  ghost predicate Complete(pr: Problem, k: Knowledge)
    requires pr.Valid()
  {
    && k.labels.Keys == k.done + k.open
    && forall u :: u in k.done ==> Expanded(pr, k, u) && Optimal(pr, k, u)
  }

  function Initial(pr: Problem): Knowledge {
    Knowledge(map[pr.start := Label(0, DirNone, [])], {}, {pr.start}, 0)
  }

  lemma InitialIsGood(pr: Problem)
    requires pr.Valid()
    ensures Sound(pr, Initial(pr)) && Complete(pr, Initial(pr))
  {
    assert Witnessed(pr, pr.start, Label(0, DirNone, []));
  }

  function Taken(k: Knowledge, u: Position): Knowledge
    requires u in k.labels
  {
    k.(done := k.done + {u}, open := k.open - {u}, last := k.labels[u].cost)
  }

  /** The label that a relaxation from u in direction d would write. */
  function Offer(m: TileMap, k: Knowledge, u: Position, d: Direction): Label
    requires m.Valid() && u in k.labels
  {
    var l := k.labels[u];
    Label(l.cost + m.EntryCost(Move(u, d)), if l.dir == DirNone then d else l.dir, l.path + [d])
  }

  function Discovered(m: TileMap, k: Knowledge, u: Position, d: Direction, kept: bool): Knowledge
    requires m.Valid() && u in k.labels
  {
    var v := Move(u, d);
    k.(labels := k.labels[v := Offer(m, k, u, d)], open := if kept then k.open + {v} else k.open)
  }

  lemma TakenIsSound(pr: Problem, k: Knowledge, u: Position)
    requires pr.Valid() && Sound(pr, k) && u in k.open
    requires forall p :: p in k.open ==> k.labels[u].cost <= k.labels[p].cost
    ensures Sound(pr, Taken(k, u))
  {
  }

  /**
   A cell is labelled once: since the price of a step depends on its end only and nodes leave
   the heap in order of cost, no later offer is cheaper.
   */
  lemma LabelledOnce(pr: Problem, k: Knowledge, u: Position, d: Direction)
    requires pr.Valid() && Sound(pr, k) && u in k.labels && k.last == k.labels[u].cost
    ensures Move(u, d) in k.labels ==> k.labels[Move(u, d)].cost <= Offer(pr.m, k, u, d).cost
  {
    var v := Move(u, d);
    if v == pr.start {
      assert Witnessed(pr, v, k.labels[v]);
      assert Witnessed(pr, u, k.labels[u]);
      assert Cost(pr.m, pr.start, []) == 0;
    }
  }

  lemma OfferIsWitnessed(pr: Problem, k: Knowledge, u: Position, d: Direction)
    requires pr.Valid() && Sound(pr, k) && u in k.labels && d != DirNone
    requires pr.m.Passable(pr.ghostMode, Move(u, d)) && Move(u, d) != pr.start
    requires Offer(pr.m, k, u, d).cost < INFINITY
    ensures Witnessed(pr, Move(u, d), Offer(pr.m, k, u, d))
  {
    assert Witnessed(pr, u, k.labels[u]);
    Extend(pr.m, pr.ghostMode, pr.start, k.labels[u].path, d);
  }

  lemma AddWitness(pr: Problem, labels: map<Position, Label>, v: Position, l: Label)
    requires pr.Valid() && AllWitnessed(pr, labels) && v !in labels && Witnessed(pr, v, l)
    ensures AllWitnessed(pr, labels[v := l])
  {
    var labels' := labels[v := l];
    forall p | p in labels'
      ensures Witnessed(pr, p, labels'[p])
    {
      if p == v {
        assert labels'[p] == l;
      } else {
        assert labels'[p] == labels[p];
      }
    }
  }

  lemma DiscoveredIsInOrder(pr: Problem, k: Knowledge, u: Position, d: Direction, kept: bool)
    requires pr.Valid() && InOrder(pr, k) && u in k.done && k.last == k.labels[u].cost
    requires Move(u, d) !in k.labels
    ensures InOrder(pr, Discovered(pr.m, k, u, d, kept))
  {
    var k' := Discovered(pr.m, k, u, d, kept);
    assert k'.labels.Keys == k.labels.Keys + {Move(u, d)};
    assert k'.open <= k.open + {Move(u, d)};
  }

  lemma DiscoveredIsSound(pr: Problem, k: Knowledge, u: Position, d: Direction, kept: bool)
    requires pr.Valid() && Sound(pr, k) && u in k.done && k.last == k.labels[u].cost && d != DirNone
    requires pr.m.Passable(pr.ghostMode, Move(u, d)) && Move(u, d) !in k.labels
    requires Offer(pr.m, k, u, d).cost < INFINITY
    ensures Sound(pr, Discovered(pr.m, k, u, d, kept))
  {
    OfferIsWitnessed(pr, k, u, d);
    AddWitness(pr, k.labels, Move(u, d), Offer(pr.m, k, u, d));
    DiscoveredIsInOrder(pr, k, u, d, kept);
  }

  lemma DiscoveredKeepsRelaxed(pr: Problem, k: Knowledge, u: Position, d: Direction, kept: bool, w: Position, e: Direction)
    requires pr.Valid() && Sound(pr, k) && u in k.done && k.last == k.labels[u].cost && d != DirNone
    requires pr.m.Passable(pr.ghostMode, Move(u, d)) && Move(u, d) !in k.labels
    requires Offer(pr.m, k, u, d).cost < INFINITY
    requires w in k.done && e != DirNone && Relaxed(pr, k, w, e)
    ensures Relaxed(pr, Discovered(pr.m, k, u, d, kept), w, e)
  {
  }

  lemma TakenIsComplete(pr: Problem, k: Knowledge, u: Position)
    requires pr.Valid() && Sound(pr, k) && Complete(pr, k) && u in k.open
    requires forall p :: p in k.open ==> k.labels[u].cost <= k.labels[p].cost
    ensures CompleteExcept(pr, Taken(k, u), u)
  {
    OpenIsOptimal(pr, k, u);
    var k' := Taken(k, u);
    forall w | w in k'.done
      ensures Optimal(pr, k', w)
      ensures w != u ==> Expanded(pr, k', w)
    {
      assert w != u ==> Optimal(pr, k, w) && Expanded(pr, k, w);
      forall d | w != u && d != DirNone
        ensures Relaxed(pr, k', w, d)
      {
        assert Relaxed(pr, k, w, d);
      }
    }
  }

  lemma TakenIsExpanded(pr: Problem, k: Knowledge, u: Position)
    requires pr.Valid() && AllExpanded(pr, k) && u in k.labels
    ensures ExpandedBut(pr, Taken(k, u), u)
  {
    forall w, d | w in k.done && d != DirNone
      ensures Relaxed(pr, Taken(k, u), w, d)
    {
      assert Expanded(pr, k, w) && Relaxed(pr, k, w, d);
    }
  }

  lemma DiscoveredKeepsExpanded(pr: Problem, k: Knowledge, u: Position, d: Direction, kept: bool)
    requires pr.Valid() && Sound(pr, k) && u in k.done && k.last == k.labels[u].cost && d != DirNone
    requires pr.m.Passable(pr.ghostMode, Move(u, d)) && Move(u, d) !in k.labels
    requires Offer(pr.m, k, u, d).cost < INFINITY
    requires ExpandedBut(pr, k, u)
    ensures ExpandedBut(pr, Discovered(pr.m, k, u, d, kept), u)
  {
    var k' := Discovered(pr.m, k, u, d, kept);
    forall w, e | w in k'.done && w != u && e != DirNone
      ensures Relaxed(pr, k', w, e)
    {
      assert Expanded(pr, k, w);
      DiscoveredKeepsRelaxed(pr, k, u, d, kept, w, e);
    }
  }

  lemma FourWaysExpand(pr: Problem, k: Knowledge, u: Position)
    requires pr.Valid() && u in k.labels && RelaxedFirst(pr, k, u, 4)
    ensures Expanded(pr, k, u)
  {
    forall d: Direction | d != DirNone
      ensures Relaxed(pr, k, u, d)
    {
      assert FOUR_WAYS[Turn(d)] == d;
    }
  }

  /** Expanding the last cell leaves none unexpanded. */
  lemma ExpandedAll(pr: Problem, k: Knowledge, u: Position)
    requires pr.Valid() && ExpandedBut(pr, k, u) && u in k.labels && Expanded(pr, k, u)
    ensures AllExpanded(pr, k) && (CompleteExcept(pr, k, u) ==> Complete(pr, k))
  {
  }

  lemma DiscoveredIsComplete(pr: Problem, k: Knowledge, u: Position, d: Direction)
    requires pr.Valid() && Sound(pr, k) && u in k.done && k.last == k.labels[u].cost && d != DirNone
    requires pr.m.Passable(pr.ghostMode, Move(u, d)) && Move(u, d) !in k.labels
    requires Offer(pr.m, k, u, d).cost < INFINITY
    requires CompleteExcept(pr, k, u)
    ensures CompleteExcept(pr, Discovered(pr.m, k, u, d, true), u)
  {
    var k' := Discovered(pr.m, k, u, d, true);
    assert k'.labels.Keys == k.labels.Keys + {Move(u, d)};
    forall w | w in k'.done
      ensures Optimal(pr, k', w)
      ensures w != u ==> Expanded(pr, k', w)
    {
      assert Optimal(pr, k, w);
      assert k'.labels[w] == k.labels[w];
      forall e | w != u && e != DirNone
        ensures Relaxed(pr, k', w, e)
      {
        assert Expanded(pr, k, w);
        DiscoveredKeepsRelaxed(pr, k, u, d, true, w, e);
      }
    }
  }

  /**
   The heart of the search: a path that ends outside `done` is at least as expensive as
   every bound c on the open nodes, because it has to leave `done` through an open cell.
   */
  lemma {:induction false} LeavingIsExpensive(pr: Problem, k: Knowledge, c: int, path: Path)
    requires pr.Valid() && Sound(pr, k) && Complete(pr, k) && pr.start !in k.open
    requires forall p :: p in k.open ==> c <= k.labels[p].cost
    requires c <= INFINITY
    requires Legal(pr.m, pr.ghostMode, pr.start, path) && End(pr.start, path) !in k.done
    ensures c <= Cost(pr.m, pr.start, path)
    decreases |path|
  {
    if path != [] {
      var front := path[..|path| - 1];
      var u := End(pr.start, front);
      if u !in k.done {
        LeavingIsExpensive(pr, k, c, front);
      } else {
        assert Leads(pr.m, pr.ghostMode, pr.start, u, front);
        assert Optimal(pr, k, u) && Expanded(pr, k, u);
        assert Relaxed(pr, k, u, path[|path| - 1]);
      }
    }
  }

  /** The same bound while the start itself is still waiting, when nothing has been taken yet. */
  lemma OpenIsOptimal(pr: Problem, k: Knowledge, u: Position)
    requires pr.Valid() && Sound(pr, k) && Complete(pr, k) && u in k.open
    requires forall p :: p in k.open ==> k.labels[u].cost <= k.labels[p].cost
    ensures Optimal(pr, k, u)
  {
    assert Witnessed(pr, u, k.labels[u]);
    if pr.start in k.open {
      assert Witnessed(pr, pr.start, k.labels[pr.start]);
      assert Cost(pr.m, pr.start, []) == 0;
      assert k.labels[u].cost <= 0;
    } else {
      forall path | Leads(pr.m, pr.ghostMode, pr.start, u, path)
        ensures k.labels[u].cost <= Cost(pr.m, pr.start, path)
      {
        LeavingIsExpensive(pr, k, k.labels[u].cost, path);
      }
    }
  }

  /** Every way to target costs at least the search's infinity. */
  ghost predicate OutOfReach(pr: Problem, target: Position)
    requires pr.Valid()
  {
    forall path :: Leads(pr.m, pr.ghostMode, pr.start, target, path) ==> INFINITY <= Cost(pr.m, pr.start, path)
  }

  lemma ExhaustedMeansExpensive(pr: Problem, k: Knowledge, target: Position)
    requires pr.Valid() && Sound(pr, k) && Complete(pr, k) && k.open == {} && target !in k.done
    ensures OutOfReach(pr, target)
  {
    forall path | Leads(pr.m, pr.ghostMode, pr.start, target, path)
      ensures INFINITY <= Cost(pr.m, pr.start, path)
    {
      LeavingIsExpensive(pr, k, INFINITY, path);
    }
  }
}
