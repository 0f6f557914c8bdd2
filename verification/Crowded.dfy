/**
 A full heap loses a target in the game itself: on a map of the game's size and with the game's own heap.

 Around the start there is an open room, and every third row is dug from end to end. Along such a row a
 ghost looks at the dirt above and below it. That dirt is dear and waits, so each row leaves more and more
 cells in the heap. When the search stands 23 steps away from the start, 256 cells wait, and the next cell
 of every row is refused for good.
 */
module Crowded {
  import opened Grid
  import opened SearchTheory
  import opened Pathfinder
  import opened Sequences
  import Reach

  const START := Position(40, 10)
  const TARGET := Position(63, 11)
  /** The cell before the target. */
  const GATE := Position(62, 11)
  /** How far the room reaches. */
  const ROOM := 14
  /** How far away the search stands when the heap is full; dirt next to the room is dearer than that. */
  const BRIM := 23

  function Far(p: Position): nat {
    Distance(START, p)
  }

  predicate OnMap(p: Position) {
    0 <= p.x < MAP_WIDTH && 0 <= p.y < MAP_HEIGHT
  }

  predicate Dug(p: Position) {
    OnMap(p) && (Far(p) <= ROOM || p.y % 3 == 2)
  }

  function Burrow(): (m: TileMap)
    ensures m.Valid() && m.width == MAP_WIDTH && m.height == MAP_HEIGHT
    ensures forall p :: m.Walkable(p) <==> Dug(p)
  {
    TileMap(MAP_WIDTH, MAP_HEIGHT, seq(MAP_HEIGHT, y => seq(MAP_WIDTH, x => if Dug(Position(x, y)) then Empty else Dirt)))
  }

  function Hunt(): (pr: Problem)
    ensures pr.Valid() && pr.m == Burrow() && pr.ghostMode && pr.start == START
  {
    Problem(Burrow(), true, START)
  }

  // What is known until the target is labelled

  predicate Beside(p: Position, q: Position) {
    q == Move(p, Up) || q == Move(p, Down) || q == Move(p, Left) || q == Move(p, Right)
  }

  ghost predicate NextTo(cells: set<Position>, p: Position) {
    exists q :: q in cells && Beside(p, q)
  }

  /** A label hangs on a finished cell; a dug cell costs its distance, dirt more than the search has spent. */
  ghost predicate Sited(k: Knowledge, p: Position) {
    && p in k.labels && OnMap(p) && (p != START ==> NextTo(k.done, p))
    && (if Dug(p) then k.labels[p].cost == Far(p) else k.labels[p].cost > BRIM)
  }

  /** Only dug cells have been taken, and none that lies nearer than the brim has been refused. */
  ghost predicate Spreading(k: Knowledge) {
    && 0 <= k.last && START in k.labels && TARGET !in k.labels
    && k.done !! k.open && k.done <= k.labels.Keys && k.open <= k.labels.Keys
    && (forall p {:trigger Sited(k, p)} :: p in k.labels ==> Sited(k, p))
    && (forall p :: p in k.done ==> Dug(p) && Far(p) <= k.last)
    && (forall p :: p in k.labels && Dug(p) && Far(p) <= BRIM ==> p in k.done || p in k.open)
  }

  /** Before the search stands at the brim, nothing at all has been refused. */
  ghost predicate Calm(k: Knowledge) {
    Spreading(k) && k.last < BRIM && k.labels.Keys == k.done + k.open
  }

  /** Every finished cell at the brim has labelled the dirt above it. */
  ghost predicate LookedUp(k: Knowledge) {
    forall p :: p in k.done && Far(p) == BRIM ==> Move(p, Up) in k.labels
  }

  /** At the brim the heap is full, except while a slot that was just freed waits for its next cell. */
  ghost predicate Packed(k: Knowledge) {
    Spreading(k) && k.last == BRIM && |k.open| >= Reach.QUEUE_SIZE - 1 && (LookedUp(k) ==> |k.open| >= Reach.QUEUE_SIZE)
  }

  // Cells nearer than the cheapest waiting one

  /** The direction in which a cell is entered on a straight way from the start. */
  function Outward(p: Position): Direction {
    if p.x < START.x then Left else if p.x > START.x then Right else if p.y < START.y then Up else Down
  }

  function Back(p: Position): (q: Position)
    ensures Move(q, Outward(p)) == p
    ensures p != START ==> Far(q) == Far(p) - 1 && (Dug(p) ==> Dug(q))
  {
    match Outward(p)
    case Left => Move(p, Right)
    case Right => Move(p, Left)
    case Up => Move(p, Down)
    case _ => Move(p, Up)
  }

  /** All finished cells nearer than c have been expanded, and waiting cells cost at least c. */
  ghost predicate Cleared(k: Knowledge, c: int) {
    && (forall w :: w in k.done && Far(w) < c ==> w in k.labels && Expanded(Hunt(), k, w))
    && (forall p :: p in k.open ==> p in k.labels && c <= k.labels[p].cost)
  }

  /** An expanded cell has labelled its neighbours. */
  lemma NeighbourIsLabelled(k: Knowledge, w: Position, d: Direction)
    requires w in k.labels && Relaxed(Hunt(), k, w, d) && OnMap(Move(w, d)) && k.labels[w].cost <= BRIM
    ensures Move(w, d) in k.labels
  {
    hide Burrow;
  }

  lemma {:induction false} Reached(k: Knowledge, c: int, p: Position)
    requires Spreading(k) && Cleared(k, c) && Dug(p) && Far(p) < c && Far(p) <= BRIM
    ensures p in k.done
    decreases Far(p)
  {
    hide Burrow;
    if p != START {
      var q := Back(p);
      Reached(k, c, q);
      assert Sited(k, q) && Expanded(Hunt(), k, q);
      NeighbourIsLabelled(k, q, Outward(p));
    }
    assert Sited(k, p);
  }

  // The cells that wait at the brim

  /** The dug row that a row of dirt lies next to. */
  function DugRow(y: int): int {
    if y % 3 == 1 then y + 1 else y - 1
  }

  /** The columns of the first and the last cell that wait in a row, counted from the start. */
  function First(y: int): int {
    (if y % 3 == 2 then BRIM else ROOM + 1) - Away(y, START.y)
  }

  function Last(y: int): int {
    if y % 3 == 2 || y == 0 then First(y) else BRIM - 1 - Away(DugRow(y), START.y)
  }

  predicate Waits(p: Position) {
    OnMap(p) && First(p.y) <= Away(p.x, START.x) <= Last(p.y)
  }

  function Side(y: int, a: int, b: int): (cells: set<Position>)
    requires a <= b
    ensures |cells| == b - a && forall p :: p in cells <==> p.y == y && a <= p.x < b
    decreases b - a
  {
    if a == b then {} else Side(y, a, b - 1) + {Position(b - 1, y)}
  }

  /** In every row some cells wait on either side of the room, all of them on the map. */
  lemma RowFits(y: int)
    requires 0 <= y < MAP_HEIGHT
    ensures 1 <= First(y) <= Last(y) < START.x && START.x + Last(y) < MAP_WIDTH
    ensures 2 * (Last(y) - First(y) + 1) == Total(y + 1) - Total(y)
  {
  }

  /** How many cells wait in the first n rows: 9, 1 and 7 on each side of three rows, or 7, 1 and 9 below the start. */
  function Total(n: nat): int {
    if n == 0 then 0 else
    var side := if n <= 10 then 9 else 7;
    2 * (1 + 17 * ((n - 1) / 3) + (match (n - 1) % 3 case 0 => 0 case 1 => side case _ => side + 1))
  }

  ghost function Row(y: nat): (cells: set<Position>)
    requires y < MAP_HEIGHT
    ensures |cells| == Total(y + 1) - Total(y) && forall p :: p in cells <==> Waits(p) && p.y == y
  {
    RowFits(y);
    hide First, Last, Total;
    var left := Side(y, START.x - Last(y), START.x - First(y) + 1);
    var right := Side(y, START.x + First(y), START.x + Last(y) + 1);
    assert left !! right;
    left + right
  }

  ghost function Rows(n: nat): (cells: set<Position>)
    requires n <= MAP_HEIGHT
    ensures |cells| == Total(n) && forall p :: p in cells <==> Waits(p) && p.y < n
  {
    hide First, Last;
    if n == 0 then {} else
    assert Rows(n - 1) !! Row(n - 1);
    Rows(n - 1) + Row(n - 1)
  }

  /** These cells are as many as the heap has slots. */
  lemma AllWait()
    ensures |Rows(MAP_HEIGHT)| == Reach.QUEUE_SIZE
  {
    hide Rows;
  }

  // Room for every label before the brim

  /** Along a dug row at most one cell waits; it takes the place of the one that waits there at the brim. */
  function Place(p: Position): Position {
    if !Dug(p) then p
    else if p.x < START.x then Position(START.x - First(p.y), p.y)
    else Position(START.x + First(p.y), p.y)
  }

  lemma DirtByRoom(p: Position)
    requires OnMap(p) && !Dug(p) && Far(p) == ROOM + 1
    ensures Waits(p)
  {
    RowFits(p.y);
  }

  lemma DirtWaits(p: Position, q: Position)
    requires OnMap(p) && !Dug(p) && Dug(q) && Far(q) < BRIM
    requires Beside(p, q)
    ensures Waits(p)
  {
    if Far(q) <= ROOM {
      DirtByRoom(p);
    } else {
      assert q == Position(p.x, DugRow(p.y));
    }
  }

  /** In an order of distance, a waiting dug cell is one step ahead at most. */
  lemma WaitingIsNear(k: Knowledge, p: Position)
    requires Spreading(k) && InOrder(Hunt(), k) && p in k.open && Dug(p)
    ensures k.last <= Far(p) <= k.last + 1
  {
    hide Burrow;
    assert Sited(k, p);
  }

  lemma PlaceWaits(k: Knowledge, p: Position)
    requires Spreading(k) && InOrder(Hunt(), k) && ROOM < k.last < BRIM && p in k.open
    ensures Waits(Place(p))
  {
    hide Burrow, InOrder;
    assert Sited(k, p);
    if Dug(p) {
      WaitingIsNear(k, p);
    } else {
      var q :| q in k.done && Beside(p, q);
      hide Waits;
      DirtWaits(p, q);
    }
  }

  /** Outside the room only the cell before it labels a cell of a dug row. */
  lemma LabelledFromBack(k: Knowledge, p: Position)
    requires Spreading(k) && p in k.labels && Dug(p) && ROOM + 1 < Far(p) && k.last < Far(p)
    ensures Back(p) in k.done
  {
    assert Sited(k, p) && p != START;
    hide Far, Dug;
    var q :| q in k.done && Beside(p, q);
    OnlyFromBack(p, q);
  }

  lemma OnlyFromBack(p: Position, q: Position)
    requires Dug(p) && ROOM + 1 < Far(p) && Dug(q) && Far(q) < Far(p)
    requires Beside(p, q)
    ensures q == Back(p)
  {
    DugRowsAreApart(p.y);
    assert Far(q) >= Far(p) - 1;
  }

  lemma DugRowsAreApart(y: int)
    requires y % 3 == 2
    ensures (y - 1) % 3 != 2 && (y + 1) % 3 != 2
  {
  }

  /** Cells of dug rows with the same place are on the same side of the same row, and dirt is elsewhere. */
  lemma SamePlace(p: Position, q: Position)
    requires Dug(p) && ROOM < Far(p) && OnMap(q) && (Dug(q) ==> ROOM < Far(q)) && Place(p) == Place(q)
    ensures Dug(q) && (Far(p) == Far(q) ==> p == q) && (Far(q) == Far(p) + 1 ==> Back(q) == p)
  {
  }

  lemma PlacesDiffer(k: Knowledge, p: Position, q: Position)
    requires Spreading(k) && InOrder(Hunt(), k) && ROOM < k.last < BRIM && p in k.open && q in k.open
    requires Place(p) == Place(q) && Dug(p)
    requires Dug(q) ==> Far(p) <= Far(q)
    ensures p == q
  {
    hide InOrder, Place, Hunt;
    WaitingIsNear(k, p);
    assert Sited(k, q);
    if Dug(q) {
      WaitingIsNear(k, q);
    }
    SamePlace(p, q);
    if Far(p) < Far(q) {
      LabelledFromBack(k, q);
    }
  }

  lemma FitsOutside(k: Knowledge)
    requires Spreading(k) && InOrder(Hunt(), k) && ROOM < k.last < BRIM
    ensures |k.open| <= Reach.QUEUE_SIZE
  {
    hide Spreading, InOrder, First, Last, Rows, Dug, Far;
    forall p | p in k.open
      ensures Place(p) in Rows(MAP_HEIGHT)
    {
      PlaceWaits(k, p);
    }
    forall p, q | p in k.open && q in k.open && Place(p) == Place(q)
      ensures p == q
    {
      if Dug(p) && (Dug(q) ==> Far(p) <= Far(q)) {
        PlacesDiffer(k, p, q);
      } else if Dug(q) {
        PlacesDiffer(k, q, p);
      }
    }
    AllWait();
    PlacesSuffice(k.open, Place, Rows(MAP_HEIGHT));
  }

  /** Within the room the waiting cells form a ring, with at most two cells on either side of a row. */
  function Bucket(p: Position): int {
    4 * p.y + (if p.x < START.x then 0 else 2) + Far(p) % 2
  }

  lemma RingIsNear(k: Knowledge, p: Position)
    requires Spreading(k) && InOrder(Hunt(), k) && k.last <= ROOM && p in k.open
    ensures OnMap(p) && k.last <= Far(p) <= k.last + 1
  {
    hide Burrow, InOrder;
    assert Sited(k, p);
    if Dug(p) {
      WaitingIsNear(k, p);
    }
  }

  lemma SameBucket(p: Position, q: Position, n: int)
    requires OnMap(p) && OnMap(q) && Bucket(p) == Bucket(q) && n <= Far(p) <= n + 1 && n <= Far(q) <= n + 1
    ensures p == q
  {
    assert p.y == q.y && (p.x < START.x <==> q.x < START.x) && Far(p) % 2 == Far(q) % 2;
  }

  lemma FitsInside(k: Knowledge)
    requires Spreading(k) && InOrder(Hunt(), k) && k.last <= ROOM
    ensures |k.open| <= 4 * MAP_HEIGHT
  {
    hide Spreading, InOrder, Burrow;
    forall p | p in k.open
      ensures Bucket(p) in Below(4 * MAP_HEIGHT)
    {
      RingIsNear(k, p);
    }
    forall p, q | p in k.open && q in k.open && Bucket(p) == Bucket(q)
      ensures p == q
    {
      RingIsNear(k, p);
      RingIsNear(k, q);
      SameBucket(p, q, k.last);
    }
    hide Bucket;
    PlacesSuffice(k.open, Bucket, Below(4 * MAP_HEIGHT));
  }

  // Steps

  /** A new label of a dug cell lies one step further out; dirt is met at the edge of the room or beyond. */
  lemma LabelsOutward(k: Knowledge, u: Position, d: Direction)
    requires Spreading(k) && InOrder(Hunt(), k) && k.last <= BRIM && u in k.done && k.last == k.labels[u].cost
    requires ExpandedBut(Hunt(), k, u) && d != DirNone && Move(u, d) !in k.labels && OnMap(Move(u, d))
    ensures Dug(u) && Far(u) == k.last && if Dug(Move(u, d)) then Far(Move(u, d)) == k.last + 1 else k.last >= ROOM
  {
    hide Burrow;
    assert Sited(k, u);
    var v := Move(u, d);
    if Dug(v) && Far(v) < k.last {
      assert forall w :: w in k.done && Far(w) < k.last ==> Sited(k, w) && w != u;
      Reached(k, k.last, v);
    }
  }

  lemma NewIsSited(k: Knowledge, u: Position, d: Direction, kept: bool)
    requires Spreading(k) && InOrder(Hunt(), k) && k.last <= BRIM && u in k.done && k.last == k.labels[u].cost
    requires ExpandedBut(Hunt(), k, u) && d != DirNone && Move(u, d) !in k.labels && OnMap(Move(u, d))
    ensures Sited(Discovered(Burrow(), k, u, d, kept), Move(u, d)) && (Dug(Move(u, d)) ==> Far(Move(u, d)) == k.last + 1)
  {
    LabelsOutward(k, u, d);
    hide Burrow, InOrder, ExpandedBut, Spreading, Far;
    assert Beside(Move(u, d), u);
  }

  lemma SpreadsOn(k: Knowledge, u: Position, d: Direction, kept: bool)
    requires Spreading(k) && InOrder(Hunt(), k) && k.last <= BRIM && u in k.done && k.last == k.labels[u].cost
    requires ExpandedBut(Hunt(), k, u) && d != DirNone && Move(u, d) !in k.labels && OnMap(Move(u, d))
    requires Move(u, d) != TARGET && (k.last < BRIM ==> kept)
    ensures Spreading(Discovered(Burrow(), k, u, d, kept))
  {
    hide Burrow, InOrder, ExpandedBut, Sited, Far, Dug;
    NewIsSited(k, u, d, kept);
    var v, k' := Move(u, d), Discovered(Burrow(), k, u, d, kept);
    assert k'.labels.Keys == k.labels.Keys + {v};
    forall p | p in k'.labels
      ensures Sited(k', p)
    {
      if p != v {
        StaysSited(k, u, d, kept, p);
      }
    }
  }

  lemma StaysSited(k: Knowledge, u: Position, d: Direction, kept: bool, p: Position)
    requires Spreading(k) && u in k.labels && p in k.labels && Move(u, d) !in k.labels
    ensures Sited(Discovered(Burrow(), k, u, d, kept), p)
  {
    hide Burrow, Far, NextTo;
    assert Sited(k, p);
  }

  /** Before the brim no label is refused. */
  lemma CalmLabel(k: Knowledge, u: Position, d: Direction, k': Knowledge)
    requires Calm(k) && Sound(Hunt(), k) && Labels(Hunt(), Reach.QUEUE_SIZE, k, u, d, k')
    ensures Calm(k')
  {
    hide Burrow, AllWitnessed, ExpandedBut, RelaxedFirst, Spreading, InOrder;
    assert Move(u, d) != TARGET by {
      LabelsOutward(k, u, d);
    }
    SpreadsOn(k, u, d, true);
    DiscoveredIsSound(Hunt(), k, u, d, true);
    var more := Discovered(Burrow(), k, u, d, true);
    if k.last <= ROOM {
      FitsInside(more);
    } else {
      FitsOutside(more);
    }
    assert |more.open| == |k.open| + 1;
    assert more.labels.Keys == more.done + more.open;
  }

  /** A finished cell has labelled its neighbours. */
  lemma DoneLabels(k: Knowledge, c: int, q: Position, d: Direction)
    requires Spreading(k) && Cleared(k, c) && Dug(q) && Far(q) < c && Far(q) <= BRIM && d != DirNone && OnMap(Move(q, d))
    ensures Move(q, d) in k.labels
  {
    Reached(k, c, q);
    assert Sited(k, q) && Expanded(Hunt(), k, q);
    hide Burrow;
    NeighbourIsLabelled(k, q, d);
  }

  /** The dug cell that labels a cell that waits at the brim, and the way from there. */
  function Source(p: Position): (Position, Direction) {
    if p.y % 3 == 2 || Away(p.x, START.x) == First(p.y) then (Back(p), Outward(p))
    else (Position(p.x, DugRow(p.y)), if p.y % 3 == 1 then Up else Down)
  }

  lemma SourceIsDug(p: Position)
    requires Waits(p)
    ensures var (q, d) := Source(p); Dug(q) && Far(q) < BRIM && d != DirNone && Move(q, d) == p
    ensures Dug(p) ==> Far(p) == BRIM
  {
  }

  /** When only cells at the brim and beyond are left, all those cells wait. */
  lemma FullAtBrim(k: Knowledge)
    requires Calm(k) && Cleared(k, BRIM)
    ensures |k.open| >= Reach.QUEUE_SIZE
  {
    hide Rows, Source, Cleared, First, Last;
    forall p | p in Rows(MAP_HEIGHT)
      ensures p in k.open
    {
      SourceIsDug(p);
      var (q, d) := Source(p);
      DoneLabels(k, BRIM, q, d);
    }
    AllWait();
    SubsetIsSmaller(Rows(MAP_HEIGHT), k.open);
  }

  /** Nobody has looked at the dirt above a cell at the brim before that cell is taken. */
  lemma DirtAboveIsNew(k: Knowledge, w: Position)
    requires Spreading(k) && Dug(w) && Far(w) == BRIM && w !in k.done
    ensures Move(w, Up) !in k.labels
  {
    var v := Move(w, Up);
    forall q | q in k.done && Beside(v, q)
      ensures q == w
    {
      OnlyFromBelow(w, q);
    }
    assert v != START && (v in k.labels ==> Sited(k, v));
    hide Far, Dug;
  }

  lemma OnlyFromBelow(w: Position, q: Position)
    requires Dug(w) && Far(w) == BRIM && Dug(q) && Beside(Move(w, Up), q)
    ensures q == w
  {
    DugRowsAreApart(w.y);
  }

  /** The next cell taken is not beyond the brim, because the gate has not been taken. */
  lemma TakesWithinBrim(k: Knowledge, u: Position)
    requires Spreading(k) && k.last <= BRIM && AllExpanded(Hunt(), k) && u in k.open
    requires forall p :: p in k.open ==> p in k.labels && k.labels[u].cost <= k.labels[p].cost
    ensures k.labels[u].cost <= BRIM
  {
    if k.labels[u].cost > BRIM {
      DoneLabels(k, k.labels[u].cost, GATE, Right);
      assert false;
    }
  }

  lemma TakenSpreads(k: Knowledge, u: Position)
    requires Spreading(k) && u in k.open && k.last <= k.labels[u].cost <= BRIM
    ensures Dug(u) && Far(u) == k.labels[u].cost && Spreading(Taken(k, u))
  {
    var k' := Taken(k, u);
    assert Sited(k, u);
    forall p | p in k'.labels
      ensures Sited(k', p)
    {
      assert Sited(k, p);
    }
  }

  lemma AllLookedUp(k: Knowledge)
    requires Spreading(k) && AllExpanded(Hunt(), k)
    ensures LookedUp(k)
  {
    hide Burrow;
    forall p | p in k.done && Far(p) == BRIM
      ensures Move(p, Up) in k.labels
    {
      assert Sited(k, p) && Expanded(Hunt(), k, p);
      NeighbourIsLabelled(k, p, Up);
    }
  }

  /** Before a cell at the brim is taken, the heap is full. */
  lemma FullBeforeTake(k: Knowledge, u: Position)
    requires (Calm(k) || Packed(k)) && AllExpanded(Hunt(), k) && u in k.open && k.labels[u].cost == BRIM
    requires forall p :: p in k.open ==> p in k.labels && k.labels[u].cost <= k.labels[p].cost
    ensures |k.open| >= Reach.QUEUE_SIZE
  {
    hide Spreading, Burrow;
    if Calm(k) {
      FullAtBrim(k);
    } else {
      AllLookedUp(k);
    }
  }

  lemma TakeAtBrim(k: Knowledge, u: Position)
    requires Spreading(k) && u in k.open && k.last <= k.labels[u].cost == BRIM && |k.open| >= Reach.QUEUE_SIZE
    ensures Packed(Taken(k, u))
  {
    hide Sited, Far;
    TakenSpreads(k, u);
    DirtAboveIsNew(k, u);
    var k' := Taken(k, u);
    assert |k'.open| == |k.open| - 1;
    assert !LookedUp(k') by {
      assert u in k'.done;
    }
    hide Spreading;
  }

  lemma TakeStep(k: Knowledge, u: Position, k': Knowledge)
    requires (Calm(k) || Packed(k)) && Sound(Hunt(), k) && Takes(Hunt(), k, u, k')
    ensures Calm(k') || Packed(k')
  {
    hide Spreading, Burrow, AllWitnessed, AllExpanded, LookedUp;
    TakesWithinBrim(k, u);
    if k.labels[u].cost == BRIM {
      FullBeforeTake(k, u);
      TakeAtBrim(k, u);
    } else {
      TakenSpreads(k, u);
      assert k'.done + k'.open == k.done + k.open;
    }
  }

  /** At the brim the heap stays full, and the target is refused. */
  lemma PackedLabel(k: Knowledge, u: Position, d: Direction, k': Knowledge)
    requires Packed(k) && Sound(Hunt(), k) && Labels(Hunt(), Reach.QUEUE_SIZE, k, u, d, k')
    ensures Packed(k') || Missed(k', TARGET)
  {
    hide Spreading, Burrow, AllWitnessed, ExpandedBut, RelaxedFirst, LookedUp;
    if Move(u, d) == TARGET {
      GateLooksUpFirst(k, u, d);
    } else {
      SpreadsOn(k, u, d, |k.open| < Reach.QUEUE_SIZE);
      LooksOn(k, u, d, |k.open| < Reach.QUEUE_SIZE);
    }
  }

  lemma GateLooksUpFirst(k: Knowledge, u: Position, d: Direction)
    requires Spreading(k) && k.last == BRIM && u in k.done && k.last == k.labels[u].cost && d != DirNone && Move(u, d) == TARGET
    requires ExpandedBut(Hunt(), k, u) && RelaxedFirst(Hunt(), k, u, Turn(d))
    ensures LookedUp(k) && TARGET !in k.open && TARGET !in k.done
  {
    hide Burrow;
    assert Sited(k, u);
    assert u == GATE && d == Right;
    assert Relaxed(Hunt(), k, u, FOUR_WAYS[0]);
    NeighbourIsLabelled(k, u, Up);
    forall p | p in k.done && Far(p) == BRIM
      ensures Move(p, Up) in k.labels
    {
      assert Sited(k, p);
      if p != u {
        assert Expanded(Hunt(), k, p);
        NeighbourIsLabelled(k, p, Up);
      }
    }
  }

  /** A slot that was freed is taken by the first cell looked at. */
  lemma LooksOn(k: Knowledge, u: Position, d: Direction, kept: bool)
    requires Packed(k) && u in k.labels && Move(u, d) !in k.labels && kept == (|k.open| < Reach.QUEUE_SIZE)
    ensures var k' := Discovered(Burrow(), k, u, d, kept);
            |k'.open| >= Reach.QUEUE_SIZE
  {
    hide Burrow, LookedUp;
    assert Move(u, d) !in k.open;
  }

  lemma CalmAtFirst()
    ensures Calm(Start(Hunt(), Reach.QUEUE_SIZE))
  {
    hide Burrow;
    var k := Start(Hunt(), Reach.QUEUE_SIZE);
    assert forall p :: p in k.labels ==> p == START;
    assert Sited(k, START);
  }

  lemma {:induction false} CalmPackedOrMissed(trace: seq<Knowledge>, k: Knowledge)
    requires Searched(Hunt(), Reach.QUEUE_SIZE, trace, k)
    ensures Calm(k) || Packed(k) || Missed(k, TARGET)
    decreases |trace|
  {
    hide Calm, Packed, Missed, Start, Sound, Takes, Labels;
    if |trace| == 1 {
      CalmAtFirst();
    } else {
      LastStep(Hunt(), Reach.QUEUE_SIZE, trace, k);
      hide Searched;
      var before := trace[|trace| - 2];
      CalmPackedOrMissed(trace[..|trace| - 1], before);
      SearchedIsSound(Hunt(), Reach.QUEUE_SIZE, trace[..|trace| - 1], before);
      Step(before, k);
    }
  }

  lemma Step(k: Knowledge, k': Knowledge)
    requires (Calm(k) || Packed(k) || Missed(k, TARGET)) && Sound(Hunt(), k) && SearchStep(Hunt(), Reach.QUEUE_SIZE, k, k')
    ensures Calm(k') || Packed(k') || Missed(k', TARGET)
  {
    hide Calm, Packed, Missed, Sound, Takes, Labels;
    if Missed(k, TARGET) {
      StaysMissed(Hunt(), Reach.QUEUE_SIZE, k, k', TARGET);
    } else if u :| Takes(Hunt(), k, u, k') {
      TakeStep(k, u, k');
    } else {
      var u, d :| Labels(Hunt(), Reach.QUEUE_SIZE, k, u, d, k');
      if Calm(k) {
        CalmLabel(k, u, d, k');
      } else {
        PackedLabel(k, u, d, k');
      }
    }
  }

  /** No run of the search takes the target. */
  lemma NeverTaken(trace: seq<Knowledge>, k: Knowledge)
    requires Searched(Hunt(), Reach.QUEUE_SIZE, trace, k)
    ensures TARGET !in k.done
  {
    CalmPackedOrMissed(trace, k);
    hide Searched, Hunt, Burrow, Sited;
  }

  /** On this map the game's search does not find a target 24 steps away. */
  method LosesTarget() returns (dir: Direction)
    ensures dir == DirNone && !Reach.Best(Hunt(), TARGET, dir)
  {
    hide Burrow, Searched, HasPath, HasCheapestPath, Roomy, AllExpanded, ExpandedBut, Lossy, Territory;
    ghost var trace, k;
    dir, trace, k := Reach.FindPathOnGameMap(Burrow(), START, TARGET, true);
    NeverTaken(trace, k);
    ghost var path := Reach.GhostPath(Hunt(), TARGET);
  }
}
