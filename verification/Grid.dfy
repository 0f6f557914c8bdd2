/**
 The tile map of the game and the paths that walk on it.

 A map is a rectangle of tiles. Reading outside it yields a wall, as the source does.
 The cost of a step depends only on the cell that is entered and on whether the
 walker may pass through walls.
 */
module Grid {

  const MAP_WIDTH: nat := 80
  const MAP_HEIGHT: nat := 24

  datatype Direction = DirNone | Up | Down | Left | Right

  datatype Tile = Empty | Dirt | Sky | Wall | Gem | Bonus | Border

  datatype Position = Position(x: int, y: int)

  function Away(a: int, b: int): nat {
    if a < b then b - a else a - b
  }

  /** How many steps apart two cells are. */
  function Distance(a: Position, b: Position): nat {
    Away(a.x, b.x) + Away(a.y, b.y)
  }

  datatype TileMap = TileMap(width: nat, height: nat, tiles: seq<seq<Tile>>) {

    ghost predicate Valid() {
      && |tiles| == height
      && forall y :: 0 <= y < height ==> |tiles[y]| == width
    }

    predicate InBounds(p: Position) {
      0 <= p.x < width && 0 <= p.y < height
    }

    /** Outside the map everything is a wall. */
    function TileAt(p: Position): Tile
      requires Valid()
    {
      if InBounds(p) then tiles[p.y][p.x] else Wall
    }

    predicate Walkable(p: Position)
      requires Valid()
    {
      TileAt(p) in {Empty, Gem, Bonus, Sky, Border}
    }

    predicate Solid(p: Position)
      requires Valid()
    {
      TileAt(p) in {Dirt, Wall}
    }

    /** Who can enter p: everybody a walkable cell, ghosts any cell of the map. */
    predicate Passable(ghostMode: bool, p: Position)
      requires Valid()
    {
      InBounds(p) && (ghostMode || Walkable(p))
    }

    /** The price of entering p. */
    function EntryCost(p: Position): (c: int)
      requires Valid()
      ensures 1 <= c <= 10
    {
      if Walkable(p) then 1 else 10
    }
  }

  /** There are seven kinds of tiles, and two of them are solid. */
  lemma SolidOrWalkable(m: TileMap, p: Position)
    requires m.Valid()
    ensures m.Walkable(p) <==> m.TileAt(p) !in {Dirt, Wall}
    ensures m.Walkable(p) <==> !m.Solid(p)
  {
    match m.TileAt(p)
    case Empty =>
    case _ =>
  }

  function Move(p: Position, d: Direction): Position {
    match d
    case DirNone => p
    case Up => Position(p.x, p.y - 1)
    case Down => Position(p.x, p.y + 1)
    case Left => Position(p.x - 1, p.y)
    case Right => Position(p.x + 1, p.y)
  }

  /** A path is the sequence of moves made from its starting point. */
  type Path = seq<Direction>

  function End(start: Position, path: Path): Position {
    if path == [] then start else Move(End(start, path[..|path| - 1]), path[|path| - 1])
  }

  ghost predicate Legal(m: TileMap, ghostMode: bool, start: Position, path: Path)
    requires m.Valid()
  {
    path != [] ==>
      && path[|path| - 1] != DirNone
      && m.Passable(ghostMode, End(start, path))
      && Legal(m, ghostMode, start, path[..|path| - 1])
  }

  ghost function Cost(m: TileMap, start: Position, path: Path): (c: nat)
    requires m.Valid()
    ensures |path| <= c <= 10 * |path|
  {
    if path == [] then 0
    else Cost(m, start, path[..|path| - 1]) + m.EntryCost(End(start, path))
  }

  /** path is a legal way from start to target. */
  ghost predicate Leads(m: TileMap, ghostMode: bool, start: Position, target: Position, path: Path)
    requires m.Valid()
  {
    Legal(m, ghostMode, start, path) && End(start, path) == target
  }

  lemma Extend(m: TileMap, ghostMode: bool, start: Position, path: Path, d: Direction)
    requires m.Valid() && Legal(m, ghostMode, start, path) && d != DirNone
    requires m.Passable(ghostMode, Move(End(start, path), d))
    ensures var longer := path + [d];
            && Leads(m, ghostMode, start, Move(End(start, path), d), longer)
            && Cost(m, start, longer) == Cost(m, start, path) + m.EntryCost(Move(End(start, path), d))
  {
    assert (path + [d])[..|path|] == path;
  }
}
