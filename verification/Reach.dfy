/**
 The search's infinity of 9999 is larger than any cost that matters on the game's map:
 a ghost needs at most one wall per step of the Manhattan distance, and a walker needs
 no cell twice.
 */
module Reach {
  import opened Grid
  import opened PriorityQueues
  import opened SearchTheory
  import opened Pathfinder
  import opened Sequences

  const QUEUE_SIZE := 256

  ghost predicate Unreachable(pr: Problem, target: Position)
    requires pr.Valid()
  {
    forall path :: !Leads(pr.m, pr.ghostMode, pr.start, target, path)
  }

  // Ghosts

  /** A ghost can walk straight to any cell of the map. */
  lemma {:induction false} GhostPath(pr: Problem, target: Position) returns (path: Path)
    requires pr.Valid() && pr.ghostMode && pr.m.InBounds(target)
    ensures Leads(pr.m, true, pr.start, target, path)
    ensures Cost(pr.m, pr.start, path) <= 10 * Distance(pr.start, target)
    decreases Distance(pr.start, target)
  {
    if target == pr.start {
      path := [];
    } else {
      var d := if target.x < pr.start.x then Left else if target.x > pr.start.x then Right
               else if target.y < pr.start.y then Up else Down;
      var back := if d == Left then Right else if d == Right then Left else if d == Up then Down else Up;
      var before := Move(target, back);
      path := GhostPath(pr, before);
      Extend(pr.m, true, pr.start, path, d);
      path := path + [d];
    }
  }

  // Walkers

  lemma {:induction false} EndOfSum(start: Position, p: Path, q: Path)
    ensures End(start, p + q) == End(End(start, p), q)
    decreases |q|
  {
    if q == [] {
      assert p + q == p;
    } else {
      var front := q[..|q| - 1];
      EndOfSum(start, p, front);
      assert (p + q)[..|p + q| - 1] == p + front;
    }
  }

  lemma {:induction false} LegalSum(m: TileMap, ghostMode: bool, start: Position, p: Path, q: Path)
    requires m.Valid()
    ensures Legal(m, ghostMode, start, p + q) <==> Legal(m, ghostMode, start, p) && Legal(m, ghostMode, End(start, p), q)
    decreases |q|
  {
    if q == [] {
      assert p + q == p;
    } else {
      var front := q[..|q| - 1];
      LegalSum(m, ghostMode, start, p, front);
      EndOfSum(start, p, q);
      assert (p + q)[..|p + q| - 1] == p + front;
    }
  }

  /** How many of the cells that a path enters are dirt or wall. */
  ghost function Buried(m: TileMap, start: Position, path: Path): nat
    requires m.Valid()
  {
    if path == [] then 0
    else Buried(m, start, path[..|path| - 1]) + (if m.TileAt(End(start, path)) in {Dirt, Wall} then 1 else 0)
  }

  /** Every step costs one, and nine more where it enters dirt or wall. */
  lemma {:induction false} CostCountsCells(m: TileMap, start: Position, path: Path)
    requires m.Valid()
    ensures Cost(m, start, path) == |path| + 9 * Buried(m, start, path)
    decreases |path|
  {
    if path != [] {
      CostCountsCells(m, start, path[..|path| - 1]);
      SolidOrWalkable(m, End(start, path));
    }
  }

  /** Who cannot pass walls enters neither dirt nor walls, so that cost is length. */
  lemma {:induction false} WalkerCost(m: TileMap, start: Position, path: Path)
    requires m.Valid() && Legal(m, false, start, path)
    ensures Buried(m, start, path) == 0 && Cost(m, start, path) == |path|
    decreases |path|
  {
    if path != [] {
      WalkerCost(m, start, path[..|path| - 1]);
    }
  }

  /** No other way to the target has fewer cells, dirt and walls counted ten times. */
  ghost predicate Shortest(pr: Problem, target: Position, path: Path)
    requires pr.Valid()
  {
    forall other :: Leads(pr.m, pr.ghostMode, pr.start, target, other) ==>
      |path| + 9 * Buried(pr.m, pr.start, path) <= |other| + 9 * Buried(pr.m, pr.start, other)
  }

  /** What a cheapest way is, in cells. */
  lemma CheapestMeansShortest(pr: Problem, target: Position, path: Path)
    requires pr.Valid()
    ensures Cheapest(pr, target, path) <==> Shortest(pr, target, path)
  {
    hide Cost, Buried, Leads;
    forall other
      ensures Cost(pr.m, pr.start, other) == |other| + 9 * Buried(pr.m, pr.start, other)
    {
      CostCountsCells(pr.m, pr.start, other);
    }
  }

  lemma {:induction false} StaysInBounds(pr: Problem, path: Path, i: nat)
    requires pr.Valid() && Legal(pr.m, pr.ghostMode, pr.start, path) && i <= |path|
    ensures pr.m.InBounds(End(pr.start, path[..i])) && Legal(pr.m, pr.ghostMode, pr.start, path[..i])
  {
    assert path == path[..i] + path[i..];
    LegalSum(pr.m, pr.ghostMode, pr.start, path[..i], path[i..]);
  }

  /** The cells a path has visited after i moves. */
  ghost function Visited(start: Position, path: Path, i: nat): set<Position>
    requires i <= |path|
  {
    set j | 0 <= j <= i :: End(start, path[..j])
  }

  lemma OneMoreVisited(start: Position, path: Path, i: nat)
    requires 0 < i <= |path|
    ensures Visited(start, path, i) == Visited(start, path, i - 1) + {End(start, path[..i])}
  {
    hide End;
  }

  lemma {:induction false} VisitsOrRepeats(start: Position, path: Path, i: nat)
    requires i <= |path|
    requires forall a, b :: 0 <= a < b <= i ==> End(start, path[..a]) != End(start, path[..b])
    ensures |Visited(start, path, i)| == i + 1
  {
    hide End;
    if i == 0 {
      assert Visited(start, path, 0) == {End(start, path[..0])};
    } else {
      VisitsOrRepeats(start, path, i - 1);
      OneMoreVisited(start, path, i);
      assert End(start, path[..i]) !in Visited(start, path, i - 1);
    }
  }

  function Row(y: int, width: nat): set<Position> {
    set x | 0 <= x < width :: Position(x, y)
  }

  lemma {:induction false} RowSize(y: int, width: nat)
    ensures |Row(y, width)| == width
  {
    if width > 0 {
      RowSize(y, width - 1);
      assert Row(y, width) == Row(y, width - 1) + {Position(width - 1, y)};
    }
  }

  lemma CellsGrowByRow(m: TileMap, shorter: TileMap)
    requires 0 < m.height && shorter == m.(height := m.height - 1)
    ensures |Cells(m)| == |Cells(shorter)| + |Row(m.height - 1, m.width)|
  {
    assert Cells(m) == Cells(shorter) + Row(m.height - 1, m.width);
    assert Cells(shorter) !! Row(m.height - 1, m.width);
  }

  lemma {:induction false} CellCount(m: TileMap)
    ensures |Cells(m)| == m.width * m.height
    decreases m.height
  {
    if m.height == 0 {
      assert Cells(m) == {};
    } else {
      var shorter := m.(height := m.height - 1);
      CellCount(shorter);
      RowSize(m.height - 1, m.width);
      CellsGrowByRow(m, shorter);
      assert m.width * m.height == m.width * (m.height - 1) + m.width;
    }
  }

  /** Cutting out a loop leaves a shorter legal path with the same end. */
  lemma CutLoop(pr: Problem, path: Path, a: nat, b: nat) returns (shorter: Path)
    requires pr.Valid() && Legal(pr.m, pr.ghostMode, pr.start, path)
    requires a < b <= |path| && End(pr.start, path[..a]) == End(pr.start, path[..b])
    ensures Legal(pr.m, pr.ghostMode, pr.start, shorter) && End(pr.start, shorter) == End(pr.start, path)
    ensures |shorter| < |path|
  {
    var head, loop, tail := path[..a], path[..b], path[b..];
    assert path == loop + tail;
    LegalSum(pr.m, pr.ghostMode, pr.start, loop, tail);
    EndOfSum(pr.start, loop, tail);
    StaysInBounds(pr, path, a);
    shorter := head + tail;
    LegalSum(pr.m, pr.ghostMode, pr.start, head, tail);
    EndOfSum(pr.start, head, tail);
  }

  /** Wherever a path leads, one with fewer moves than there are cells leads there too. */
  lemma {:induction false} LoopFreePath(pr: Problem, path: Path) returns (short: Path)
    requires pr.Valid() && Legal(pr.m, pr.ghostMode, pr.start, path)
    ensures Legal(pr.m, pr.ghostMode, pr.start, short) && End(pr.start, short) == End(pr.start, path)
    ensures |short| < pr.m.width * pr.m.height
    decreases |path|
  {
    if a, b :| 0 <= a < b <= |path| && End(pr.start, path[..a]) == End(pr.start, path[..b]) {
      short := CutLoop(pr, path, a, b);
      short := LoopFreePath(pr, short);
    } else {
      short := path;
      VisitsOrRepeats(pr.start, path, |path|);
      forall p | p in Visited(pr.start, path, |path|)
        ensures p in Cells(pr.m)
      {
        var j :| 0 <= j <= |path| && p == End(pr.start, path[..j]);
        StaysInBounds(pr, path, j);
      }
      SubsetIsSmaller(Visited(pr.start, path, |path|), Cells(pr.m));
      CellCount(pr.m);
    }
  }

  /** On maps of moderate size the search's infinity is never the reason to give up. */
  lemma InfinityIsLargeEnough(pr: Problem, target: Position)
    requires pr.Valid()
    requires if pr.ghostMode then 10 * (pr.m.width + pr.m.height) < INFINITY else pr.m.width * pr.m.height <= INFINITY
    ensures OutOfReach(pr, target) <==> Unreachable(pr, target)
  {
    if path :| Leads(pr.m, pr.ghostMode, pr.start, target, path) {
      if pr.ghostMode {
        StaysInBounds(pr, path, |path|);
        assert path[..|path|] == path;
        var straight := GhostPath(pr, target);
      } else {
        var short := LoopFreePath(pr, path);
        WalkerCost(pr.m, pr.start, short);
      }
    }
  }

  /** A first move of a cheapest way, or none exactly if the target is the start or no way leads there. */
  ghost predicate Best(pr: Problem, target: Position, dir: Direction)
    requires pr.Valid()
  {
    && (dir == DirNone <==> target == pr.start || Unreachable(pr, target))
    && (dir != DirNone ==> HasCheapestPath(pr, target, dir))
  }

  /**
   The search on the game's own map with its own heap: a returned move starts a real way to
   the target; if the run refused no push, the answer is the best one. With at most 256 cells
   to walk on, no push is refused.
   */
  method FindPathOnGameMap(m: TileMap, start: Position, target: Position, ghostMode: bool)
    returns (dir: Direction, ghost trace: seq<Knowledge>, ghost k: Knowledge)
    requires m.Valid() && m.width == MAP_WIDTH && m.height == MAP_HEIGHT && m.InBounds(start)
    ensures dir != DirNone ==> HasPath(Problem(m, ghostMode, start), target, dir)
    ensures |Territory(Problem(m, ghostMode, start))| <= QUEUE_SIZE ==> Best(Problem(m, ghostMode, start), target, dir)
    ensures Searched(Problem(m, ghostMode, start), QUEUE_SIZE, trace, k) && Answers(Problem(m, ghostMode, start), k, target, dir)
    ensures !Lossy(k) ==> Best(Problem(m, ghostMode, start), target, dir)
  {
    hide HasPath, HasCheapestPath, OutOfReach, Unreachable, Searched, Answers, Lossy;
    dir, trace, k := FindPath(m, start, target, ghostMode, QUEUE_SIZE);
    InfinityIsLargeEnough(Problem(m, ghostMode, start), target);
  }

  /** The i-th move is a real one that stays on the map and, unless a ghost makes it, out of earth and walls. */
  predicate Allowed(m: TileMap, ghostMode: bool, start: Position, path: Path, i: nat)
    requires m.Valid() && 0 < i <= |path|
  {
    var p := End(start, path[..i]);
    path[i - 1] != DirNone && 0 <= p.x < m.width && 0 <= p.y < m.height && (ghostMode || m.TileAt(p) !in {Dirt, Wall})
  }

  lemma {:induction false} LegalMeans(m: TileMap, ghostMode: bool, start: Position, path: Path)
    requires m.Valid()
    ensures Legal(m, ghostMode, start, path) <==> forall i :: 0 < i <= |path| ==> Allowed(m, ghostMode, start, path, i)
    decreases |path|
  {
    if path != [] {
      var n := |path|;
      var shorter := path[..n - 1];
      LegalMeans(m, ghostMode, start, shorter);
      forall i | 0 < i < n
        ensures Allowed(m, ghostMode, start, shorter, i) <==> Allowed(m, ghostMode, start, path, i)
      {
        assert shorter[..i] == path[..i];
      }
      assert path[..n] == path;
      SolidOrWalkable(m, End(start, path));
      assert Allowed(m, ghostMode, start, path, n) <==> path[n - 1] != DirNone && m.Passable(ghostMode, End(start, path));
    }
  }
}
