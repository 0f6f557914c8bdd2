/**
 A full heap loses targets, for every capacity: on a comb the search grows one lane per tooth, and when
 all slots are taken by lanes, the next cell of the spine is refused for good.

 The comb has its spine in the top row and a tooth below every other cell of it. The start is the left
 end of the spine, the target its right end.
 */
module Cramped {
  import opened Grid
  import opened SearchTheory
  import opened Pathfinder
  import opened Sequences

  const START := Position(0, 0)

  /** From here on the far end of a comb costs as much as the search's infinity. */
  const TOO_LARGE := 5000

  function Teeth(n: nat): (row: seq<Tile>)
    ensures |row| == n && forall i :: 0 <= i < n ==> row[i] == if i % 2 == 0 then Empty else Dirt
  {
    if n == 0 then [] else Teeth(n - 1) + [if n % 2 == 1 then Empty else Dirt]
  }

  predicate OnComb(c: nat, p: Position) {
    0 <= p.x < 2 * c && 0 <= p.y < 2 * c && (p.y == 0 || p.x % 2 == 0)
  }

  function Comb(c: nat): (m: TileMap)
    requires c >= 1
    ensures m.Valid() && m.width == m.height == 2 * c
    ensures forall p :: m.Walkable(p) <==> OnComb(c, p)
  {
    TileMap(2 * c, 2 * c, [Filled(2 * c, Empty)] + Filled(2 * c - 1, Teeth(2 * c)))
  }

  function CombProblem(c: nat): (pr: Problem)
    requires c >= 1
    ensures pr.Valid()
  {
    Problem(Comb(c), false, START)
  }

  function Target(c: nat): Position {
    Position(2 * c - 1, 0)
  }

  /** The cell before p on the only way from the start. */
  function Back(p: Position): Position {
    if p.y > 0 then Position(p.x, p.y - 1) else Position(p.x - 1, 0)
  }

  /** A label lies on the comb and hangs on a finished cell; a cell of the spine is labelled after the tooth before it. */
  ghost predicate Grown(c: nat, k: Knowledge, p: Position) {
    && p in k.labels && OnComb(c, p) && k.labels[p].cost == p.x + p.y
    && (p != START ==> Back(p) in k.done)
    && (p.y == 0 && p.x % 2 == 1 ==> Position(p.x - 1, 1) in k.labels)
  }

  /** As long as the target has not been labelled, nothing was refused and all labels grow along the comb. */
  ghost predicate Growing(c: nat, k: Knowledge) {
    && k.labels.Keys == k.done + k.open && k.done !! k.open
    && START in k.labels && Target(c) !in k.labels
    && (forall p {:trigger Grown(c, k, p)} :: p in k.labels ==> Grown(c, k, p))
    && (forall p :: p in k.done ==> k.labels[p].cost <= k.last)
  }

  // Labels along the comb

  lemma {:induction false} SpineBefore(c: nat, k: Knowledge, x: int, p: Position)
    requires Growing(c, k) && p in k.labels && p.y == 0 && 0 <= x < p.x
    ensures Position(x, 0) in k.done
    decreases p.x
  {
    assert Grown(c, k, p);
    if x < p.x - 1 {
      SpineBefore(c, k, x, Back(p));
    }
  }

  lemma {:induction false} ToothAbove(c: nat, k: Knowledge, y: int, p: Position)
    requires Growing(c, k) && p in k.labels && 0 <= y < p.y
    ensures Position(p.x, y) in k.done
    decreases p.y
  {
    assert Grown(c, k, p);
    if y < p.y - 1 {
      ToothAbove(c, k, y, Back(p));
    }
  }

  /** The tooth a cell is on; the spine counts as the tooth before the first. */
  function Lane(p: Position): int {
    if p.y == 0 then -1 else p.x / 2
  }

  lemma LaneHasOne(c: nat, k: Knowledge, p: Position, q: Position)
    requires Growing(c, k) && p in k.open && q in k.open && Lane(p) == Lane(q)
    ensures p == q
  {
    assert Grown(c, k, p) && Grown(c, k, q);
    if p.y == 0 {
      if p.x < q.x {
        SpineBefore(c, k, p.x, q);
      } else if q.x < p.x {
        SpineBefore(c, k, q.x, p);
      }
    } else if p.y < q.y {
      ToothAbove(c, k, p.y, q);
    } else if q.y < p.y {
      ToothAbove(c, k, q.y, p);
    }
  }

  // Counting waiting cells by lane

  ghost predicate Occupied(cells: set<Position>, lane: int) {
    exists p :: p in cells && Lane(p) == lane
  }

  lemma {:induction false} ManyLanes(cells: set<Position>, n: nat)
    requires forall l :: 0 <= l < n ==> Occupied(cells, l)
    ensures n <= |cells|
    decreases n
  {
    if n > 0 {
      assert Occupied(cells, n - 1);
      var p :| p in cells && Lane(p) == n - 1;
      forall l | 0 <= l < n - 1
        ensures Occupied(cells - {p}, l)
      {
        assert Occupied(cells, l);
        var q :| q in cells && Lane(q) == l;
        assert q in cells - {p};
      }
      ManyLanes(cells - {p}, n - 1);
    }
  }

  lemma OpenFits(c: nat, k: Knowledge, lanes: set<int>)
    requires Growing(c, k) && forall p :: p in k.open ==> Lane(p) in lanes
    ensures |k.open| <= |lanes|
  {
    forall p, q | p in k.open && q in k.open && Lane(p) == Lane(q)
      ensures p == q
    {
      LaneHasOne(c, k, p, q);
    }
    PlacesSuffice(k.open, Lane, lanes);
  }

  /** Waiting cells of a tooth hang on a finished cell of the spine. */
  lemma ToothHasRoot(c: nat, k: Knowledge, p: Position)
    requires Growing(c, k) && p in k.labels && p.y > 0
    ensures Position(p.x, 0) in k.done && Position(p.x, 0) in k.labels && 0 <= p.x == 2 * Lane(p) < 2 * c
  {
    assert Grown(c, k, p);
    ToothAbove(c, k, 0, p);
  }

  /** Nothing waits on the spine, nor behind it, while its next cell is not labelled. */
  lemma SpineIsDone(c: nat, k: Knowledge, u: Position, p: Position)
    requires Growing(c, k) && u in k.done && u.y == 0 && Position(u.x + 1, 0) !in k.labels && p in k.open
    ensures p.y > 0 && p.x <= u.x
  {
    assert Grown(c, k, p) && Grown(c, k, u);
    var root := Position(p.x, 0);
    assert root in k.labels by {
      if p.y > 0 {
        ToothHasRoot(c, k, p);
      }
    }
    if root.x > u.x + 1 {
      SpineBefore(c, k, u.x + 1, root);
    } else if p.y == 0 && p.x < u.x {
      SpineBefore(c, k, p.x, u);
    }
  }

  // Room for every step but one

  /** A finished cell has labelled its neighbours, unless it is the one being expanded. */
  lemma NextIsLabelled(c: nat, k: Knowledge, u: Position, w: Position, d: Direction)
    requires 1 <= c < TOO_LARGE && Growing(c, k) && ExpandedBut(CombProblem(c), k, u)
    requires w in k.done && w != u && d != DirNone && OnComb(c, Move(w, d)) && w.x + w.y < 2 * c - 1
    ensures Move(w, d) in k.labels
  {
    assert Grown(c, k, w);
    hide Comb;
    assert Expanded(CombProblem(c), k, w);
    assert Relaxed(CombProblem(c), k, w, d);
  }

  /** While a tooth is expanded, the spine has not got past its last corner. */
  lemma CornerIsAhead(c: nat, k: Knowledge, u: Position, x: int)
    requires 1 <= c < TOO_LARGE && Growing(c, k) && ExpandedBut(CombProblem(c), k, u) && u.y > 0
    requires Position(x, 0) in k.done && x % 2 == 0
    ensures 0 <= x / 2 < c - 1
  {
    var corner := Position(x, 0);
    assert Grown(c, k, corner);
    if x == 2 * c - 2 {
      NextIsLabelled(c, k, u, corner, Right);
    }
  }

  lemma OtherTooth(c: nat, k: Knowledge, u: Position, p: Position)
    requires Growing(c, k) && u in k.done && u.y > 0 && Position(u.x, u.y + 1) !in k.labels && p in k.open && p.y > 0
    ensures p.x != u.x
  {
    if p.x == u.x {
      if p.y < u.y {
        ToothAbove(c, k, p.y, u);
      } else if p.y > u.y + 1 {
        ToothAbove(c, k, u.y + 1, p);
      }
    }
  }

  lemma RoomInTooth(c: nat, k: Knowledge, u: Position)
    requires 1 <= c < TOO_LARGE && Growing(c, k) && ExpandedBut(CombProblem(c), k, u)
    requires u in k.done && u.y > 0 && Position(u.x, u.y + 1) !in k.labels
    ensures |k.open| < c
  {
    hide ExpandedBut, Comb;
    ToothHasRoot(c, k, u);
    CornerIsAhead(c, k, u, u.x);
    var lanes := Below(c - 1) + {-1};
    forall p | p in k.open
      ensures Lane(p) in lanes - {Lane(u)}
    {
      assert Grown(c, k, p);
      if p.y > 0 {
        ToothHasRoot(c, k, p);
        CornerIsAhead(c, k, u, p.x);
        OtherTooth(c, k, u, p);
      }
    }
    OpenFits(c, k, lanes - {Lane(u)});
  }

  /** What waits when the spine has been finished up to u are teeth up to there. */
  lemma RoomOnSpine(c: nat, k: Knowledge, u: Position, n: nat)
    requires Growing(c, k) && u in k.done && u.y == 0 && Position(u.x + 1, 0) !in k.labels
    requires forall p :: p in k.open ==> p.x < 2 * n
    ensures |k.open| <= n
  {
    forall p | p in k.open
      ensures Lane(p) in Below(n)
    {
      SpineIsDone(c, k, u, p);
      ToothHasRoot(c, k, p);
    }
    OpenFits(c, k, Below(n));
  }

  /** The frontier of a tooth waits, since the tooth is longer than the spine so far. */
  lemma {:induction false} ToothWaits(c: nat, k: Knowledge, u: Position, x: int, y: int) returns (p: Position)
    requires 1 <= c < TOO_LARGE && Growing(c, k) && ExpandedBut(CombProblem(c), k, u) && u.y == 0 && k.last == 2 * c - 2
    requires Position(x, y) in k.labels && x % 2 == 0 && y >= 1
    ensures p in k.open && p.y > 0 && p.x == x
    decreases 2 * c - y
  {
    hide ExpandedBut, Comb;
    p := Position(x, y);
    assert Grown(c, k, p);
    if p !in k.open {
      NextIsLabelled(c, k, u, p, Down);
      p := ToothWaits(c, k, u, x, y + 1);
    }
  }

  /** At the last corner of the spine every slot is taken by a tooth. */
  lemma FullAtCorner(c: nat, k: Knowledge, u: Position)
    requires 1 <= c < TOO_LARGE && Growing(c, k) && ExpandedBut(CombProblem(c), k, u)
    requires u == Position(2 * c - 2, 0) && u in k.done && k.last == 2 * c - 2 && Position(u.x, 1) in k.labels
    ensures |k.open| >= c
  {
    hide ExpandedBut, Comb;
    forall l | 0 <= l < c
      ensures Occupied(k.open, l)
    {
      if l < c - 1 {
        SpineBefore(c, k, 2 * l, u);
        NextIsLabelled(c, k, u, Position(2 * l, 0), Down);
      }
      var p := ToothWaits(c, k, u, 2 * l, 1);
      assert Lane(p) == l;
    }
    ManyLanes(k.open, c);
  }

  // Steps

  /** On the comb a new label is one step further along the spine or down a tooth. */
  lemma OnlyForward(c: nat, k: Knowledge, u: Position, d: Direction)
    requires c >= 1 && Growing(c, k) && u in k.done && d != DirNone
    requires Move(u, d) !in k.labels && OnComb(c, Move(u, d))
    ensures d == Down || (d == Right && u.y == 0)
  {
    assert Grown(c, k, u);
    assert u != START ==> Back(u) in k.labels;
  }

  /** Before it goes on along the spine, a cell has labelled its tooth. */
  lemma ToothComesFirst(c: nat, k: Knowledge, u: Position)
    requires 1 <= c < TOO_LARGE && Growing(c, k) && u in k.labels && u.y == 0 && u.x % 2 == 0
    requires RelaxedFirst(CombProblem(c), k, u, Turn(Right))
    ensures Position(u.x, 1) in k.labels
  {
    hide Comb;
    assert Grown(c, k, u);
    assert Relaxed(CombProblem(c), k, u, FOUR_WAYS[1]);
  }

  lemma StaysGrown(c: nat, k: Knowledge, u: Position, d: Direction, p: Position)
    requires c >= 1 && Growing(c, k) && u in k.labels && p in k.labels && Move(u, d) !in k.labels
    ensures Grown(c, Discovered(Comb(c), k, u, d, true), p)
  {
    hide Comb;
    assert Grown(c, k, p);
  }

  lemma GrowsOn(c: nat, k: Knowledge, u: Position, d: Direction)
    requires 1 <= c < TOO_LARGE && Growing(c, k) && u in k.done && (d == Down || (d == Right && u.y == 0)) && Move(u, d) != Target(c)
    requires Move(u, d) !in k.labels && OnComb(c, Move(u, d))
    requires d == Right && u.x % 2 == 0 ==> Position(u.x, 1) in k.labels
    ensures Growing(c, Discovered(Comb(c), k, u, d, true))
  {
    hide Comb;
    var v, k' := Move(u, d), Discovered(Comb(c), k, u, d, true);
    assert k'.labels.Keys == k.labels.Keys + {v};
    assert Grown(c, k', v) by {
      assert Grown(c, k, u);
    }
    forall p | p in k'.labels
      ensures Grown(c, k', p)
    {
      if p != v {
        StaysGrown(c, k, u, d, p);
      }
    }
    hide Grown;
  }

  /** Below the corner there is room for the next cell of the spine or of a tooth; at the corner there is none. */
  lemma RoomForLabel(c: nat, k: Knowledge, u: Position, d: Direction)
    requires 1 <= c < TOO_LARGE && Growing(c, k) && ExpandedBut(CombProblem(c), k, u)
    requires u in k.done && u in k.labels && k.last == k.labels[u].cost && (d == Down || (d == Right && u.y == 0))
    requires RelaxedFirst(CombProblem(c), k, u, Turn(d))
    requires Move(u, d) !in k.labels && OnComb(c, Move(u, d))
    ensures |k.open| < c <==> Move(u, d) != Target(c)
  {
    hide ExpandedBut, Comb;
    assert Grown(c, k, u);
    if u.y > 0 {
      RoomInTooth(c, k, u);
    } else if d == Down {
      RoomAtTooth(c, k, u);
    } else if u.x < 2 * c - 2 {
      RoomBeforeCorner(c, k, u);
    } else {
      ToothComesFirst(c, k, u);
      FullAtCorner(c, k, u);
    }
  }

  /** The tooth comes before the next cell of the spine. */
  lemma RoomAtTooth(c: nat, k: Knowledge, u: Position)
    requires c >= 1 && Growing(c, k) && u in k.done && u.y == 0 && u.x % 2 == 0 && Position(u.x, 1) !in k.labels
    ensures |k.open| < c
  {
    var next := Position(u.x + 1, 0);
    assert Grown(c, k, u);
    assert next in k.labels ==> Grown(c, k, next);
    forall p | p in k.open
      ensures p.x < 2 * (u.x / 2)
    {
      SpineIsDone(c, k, u, p);
      ToothHasRoot(c, k, p);
      if p.x == u.x && p.y > 1 {
        ToothAbove(c, k, 1, p);
      }
    }
    RoomOnSpine(c, k, u, u.x / 2);
  }

  lemma RoomBeforeCorner(c: nat, k: Knowledge, u: Position)
    requires c >= 1 && Growing(c, k) && u in k.done && u.y == 0 && u.x < 2 * c - 2 && Position(u.x + 1, 0) !in k.labels
    ensures |k.open| < c
  {
    forall p | p in k.open
      ensures p.x < 2 * (c - 1)
    {
      SpineIsDone(c, k, u, p);
    }
    RoomOnSpine(c, k, u, c - 1);
  }

  lemma LabelStep(c: nat, k: Knowledge, u: Position, d: Direction, k': Knowledge)
    requires 1 <= c < TOO_LARGE && Growing(c, k) && Labels(CombProblem(c), c, k, u, d, k')
    ensures Growing(c, k') || Missed(k', Target(c))
  {
    hide Growing, ExpandedBut, RelaxedFirst, Comb;
    OnlyForward(c, k, u, d);
    RoomForLabel(c, k, u, d);
    if Move(u, d) != Target(c) {
      if d == Right && u.x % 2 == 0 {
        ToothComesFirst(c, k, u);
      }
      GrowsOn(c, k, u, d);
    } else {
      GrowingParts(c, k);
    }
  }

  lemma GrowingParts(c: nat, k: Knowledge)
    requires Growing(c, k)
    ensures k.labels.Keys == k.done + k.open && k.done !! k.open && Target(c) !in k.labels
  {
  }

  lemma TakeStep(c: nat, k: Knowledge, u: Position, k': Knowledge)
    requires 1 <= c < TOO_LARGE && Growing(c, k) && Sound(CombProblem(c), k) && Takes(CombProblem(c), k, u, k')
    ensures Growing(c, k')
  {
    hide AllExpanded, Comb, AllWitnessed;
    assert k'.done + k'.open == k.done + k.open;
    forall p | p in k'.labels
      ensures Grown(c, k', p)
    {
      assert Grown(c, k, p);
    }
  }

  /** Every run on the comb is about to lose its target or has lost it. */
  lemma {:induction false} NeverTaken(c: nat, trace: seq<Knowledge>, k: Knowledge)
    requires 1 <= c < TOO_LARGE && Searched(CombProblem(c), c, trace, k)
    ensures Growing(c, k) || Missed(k, Target(c))
    decreases |trace|
  {
    if |trace| == 1 {
      assert forall p :: p in k.labels ==> p == START;
      assert Grown(c, k, START);
    } else {
      LastStep(CombProblem(c), c, trace, k);
      hide Searched, Growing, Missed, Comb, Takes, Labels, Sound;
      var n := |trace| - 1;
      var before := trace[n - 1];
      NeverTaken(c, trace[..n], before);
      SearchedIsSound(CombProblem(c), c, trace[..n], before);
      if Missed(before, Target(c)) {
        StaysMissed(CombProblem(c), c, before, k, Target(c));
      } else if u :| Takes(CombProblem(c), before, u, k) {
        TakeStep(c, before, u, k);
      } else {
        var u, d :| Labels(CombProblem(c), c, before, u, d, k);
        LabelStep(c, before, u, d, k);
      }
    }
  }

  // The answer

  /** The target is at the end of the spine. */
  lemma {:induction false} AlongSpine(c: nat, x: nat) returns (path: Path)
    requires 1 <= c && x < 2 * c
    ensures Leads(Comb(c), false, START, Position(x, 0), path) && Cost(Comb(c), START, path) == x
  {
    hide Comb;
    if x == 0 {
      path := [];
    } else {
      path := AlongSpine(c, x - 1);
      Extend(Comb(c), false, START, path, Right);
      path := path + [Right];
    }
  }

  /** For every capacity there is a map on which the search does not find a target that can be reached. */
  method LosesTarget(c: nat) returns (dir: Direction)
    requires 1 <= c < TOO_LARGE
    ensures dir == DirNone && !Exact(CombProblem(c), Target(c), dir)
  {
    hide Comb, Searched, HasPath, HasCheapestPath, Roomy, ExpandedBut, AllExpanded, Lossy;
    ghost var trace, k;
    dir, trace, k := FindPath(Comb(c), START, Target(c), false, c);
    NeverTaken(c, trace, k);
    ghost var path := AlongSpine(c, 2 * c - 1);
    assert Leads(Comb(c), false, START, Target(c), path);
  }
}
