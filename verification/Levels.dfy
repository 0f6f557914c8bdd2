/**
 Level generation: borders, sky, solid ground, and the tunnels of the five levels.
 */
module Levels {
  import opened Grid
  import opened GameModel
  import opened Sequences

  datatype Spawn = Spawn(pos: Position, fygar: bool)

  datatype Tunnel = Tunnel(x1: int, y1: int, x2: int, y2: int)

  datatype Level = Level(start: Position, enemies: seq<Spawn>, rocks: seq<Position>, tunnels: seq<Tunnel>, bonuses: seq<Position>)

  const NUM_LEVELS := 5

  function Pooka(x: int, y: int): Spawn {
    Spawn(Position(x, y), false)
  }

  function Fygar(x: int, y: int): Spawn {
    Spawn(Position(x, y), true)
  }

  function LevelOf(round: int): Level {
    if round <= 1 then
      Level(Position(10, 2), [Pooka(60, 8)],
            [Position(30, 10), Position(50, 8), Position(20, 15), Position(65, 12)],
            [Tunnel(5, 2, 15, 2), Tunnel(58, 7, 62, 7), Tunnel(60, 7, 60, 9)],
            if round == 1 then [Position(20, 10), Position(40, 15), Position(65, 12)]
            else [Position(25, 10), Position(50, 16), Position(65, 18)])
    else if round == 2 then
      Level(Position(10, 2), [Pooka(60, 6), Fygar(30, 14)],
            [Position(25, 7), Position(45, 13), Position(15, 18), Position(70, 10)],
            [Tunnel(5, 2, 15, 2), Tunnel(58, 5, 62, 5), Tunnel(60, 5, 60, 7), Tunnel(28, 13, 32, 13), Tunnel(30, 13, 30, 15)],
            [Position(15, 8), Position(45, 11), Position(70, 16)])
    else if round == 3 then
      Level(Position(10, 2), [Pooka(50, 6), Pooka(70, 12), Fygar(35, 18)],
            [Position(20, 8), Position(55, 15), Position(40, 10), Position(65, 20)],
            [Tunnel(5, 2, 20, 2), Tunnel(48, 5, 52, 5), Tunnel(50, 5, 50, 7), Tunnel(68, 11, 72, 11), Tunnel(70, 11, 70, 13),
             Tunnel(33, 17, 37, 17), Tunnel(35, 17, 35, 19)],
            [Position(25, 9), Position(40, 14), Position(60, 19)])
    else if round == 4 then
      Level(Position(40, 2), [Pooka(15, 8), Pooka(65, 8), Fygar(25, 16), Fygar(55, 16)],
            [Position(20, 10), Position(60, 10), Position(40, 18), Position(30, 14)],
            [Tunnel(35, 2, 45, 2), Tunnel(13, 7, 17, 7), Tunnel(15, 7, 15, 9), Tunnel(63, 7, 67, 7), Tunnel(65, 7, 65, 9),
             Tunnel(23, 15, 27, 15), Tunnel(25, 15, 25, 17), Tunnel(53, 15, 57, 15), Tunnel(55, 15, 55, 17)],
            [Position(20, 11), Position(45, 13), Position(55, 18)])
    else
      Level(Position(40, 2), [Pooka(10, 8), Pooka(70, 8), Pooka(40, 14), Fygar(20, 20), Fygar(60, 20)],
            [Position(25, 10), Position(55, 10), Position(35, 17), Position(45, 17)],
            [Tunnel(35, 2, 45, 2), Tunnel(8, 7, 12, 7), Tunnel(10, 7, 10, 9), Tunnel(68, 7, 72, 7), Tunnel(70, 7, 70, 9),
             Tunnel(38, 13, 42, 13), Tunnel(40, 13, 40, 15), Tunnel(18, 19, 22, 19), Tunnel(20, 19, 20, 21),
             Tunnel(58, 19, 62, 19), Tunnel(60, 19, 60, 21)],
            [Position(25, 10), Position(50, 16), Position(65, 18)])
  }

  predicate Between(a: int, v: int, b: int) {
    a <= v <= b || b <= v <= a
  }

  /** First along the row, then along the column. */
  predicate OnTunnel(t: Tunnel, p: Position) {
    (p.y == t.y1 && Between(t.x1, p.x, t.x2)) || (p.x == t.x2 && Between(t.y1, p.y, t.y2))
  }

  predicate InGround(p: Position) {
    1 <= p.x <= MAP_WIDTH - 2 && ROW_SKY_END < p.y < ROW_BORDER
  }

  /** Every enemy starts in a tunnel of its own, the player in the sky, and nothing is put into a wall. */
  ghost predicate LevelOk(l: Level) {
    && InPlay(l.start) && l.start.y == ROW_SKY_END
    && |l.enemies| <= 8 && |l.rocks| <= 10 && |l.tunnels| == 2 * |l.enemies| + 1 <= 16
    && (forall i :: 0 <= i < |l.enemies| ==> InGround(l.enemies[i].pos) && OnTunnel(l.tunnels[2 * i + 2], l.enemies[i].pos))
    && (forall i :: 0 <= i < |l.rocks| ==> InGround(l.rocks[i]))
    && (forall i :: 0 <= i < |l.bonuses| ==> InGround(l.bonuses[i]))
  }

  lemma LevelsAreOk(round: int)
    ensures LevelOk(LevelOf(round))
  {
    hide LevelOk, LevelOf;
    if round <= 1 {
      FirstIsOk(round);
    } else if round <= 3 {
      SecondAndThirdAreOk();
    } else if round == 4 {
      FourthIsOk();
    } else {
      LastIsOk(round);
    }
  }

  lemma FirstIsOk(round: int)
    requires round <= 1
    ensures LevelOk(LevelOf(round))
  {
  }

  lemma SecondAndThirdAreOk()
    ensures LevelOk(LevelOf(2)) && LevelOk(LevelOf(3))
  {
  }

  lemma FourthIsOk()
    ensures LevelOk(LevelOf(4))
  {
  }

  lemma LastIsOk(round: int)
    requires round >= 5
    ensures LevelOk(LevelOf(round))
  {
  }

  /** The map before any tunnel is dug. */
  function GroundTile(p: Position): Tile {
    if p.y == ROW_BORDER then Border
    else if p.y == 0 || p.x == 0 || p.x == MAP_WIDTH - 1 then Wall
    else if p.y <= ROW_SKY_END then Sky
    else Dirt
  }

  ghost predicate Generated(m: TileMap) {
    && m.Valid() && m.width == MAP_WIDTH && m.height == MAP_HEIGHT
    && forall p :: m.InBounds(p) ==> m.TileAt(p) == GroundTile(p)
  }

  ghost predicate GameSized(m: TileMap) {
    m.Valid() && m.width == MAP_WIDTH && m.height == MAP_HEIGHT
  }

  method MapClear() returns (m: TileMap)
    ensures GameSized(m) && forall p :: m.InBounds(p) ==> m.TileAt(p) == Empty
  {
    hide Filled;
    m := TileMap(MAP_WIDTH, MAP_HEIGHT, Filled(MAP_HEIGHT, Filled(MAP_WIDTH, Empty)));
  }

  method MapCreateBorders(m0: TileMap) returns (m: TileMap)
    requires GameSized(m0) && forall p :: m0.InBounds(p) ==> m0.TileAt(p) == Empty
    ensures GameSized(m)
    ensures forall p :: m.InBounds(p) ==> m.TileAt(p) == if GroundTile(p) == Wall || GroundTile(p) == Border then GroundTile(p) else Empty
  {
    m := m0;
    for x := 0 to MAP_WIDTH
      invariant GameSized(m)
      invariant forall p :: m.InBounds(p) ==> m.TileAt(p) == if p.x < x && (p.y == 0 || p.y == MAP_HEIGHT - 1) then Wall else Empty
    {
      m := SetTile(m, Position(x, 0), Wall);
      m := SetTile(m, Position(x, MAP_HEIGHT - 1), Wall);
    }
    for y := 0 to MAP_HEIGHT
      invariant GameSized(m)
      invariant forall p :: m.InBounds(p) ==>
                  m.TileAt(p) ==
                  if p.y == 0 || p.y == MAP_HEIGHT - 1 || (p.y < y && (p.x == 0 || p.x == MAP_WIDTH - 1)) then Wall else Empty
    {
      m := SetTile(m, Position(0, y), Wall);
      m := SetTile(m, Position(MAP_WIDTH - 1, y), Wall);
    }
    for x := 0 to MAP_WIDTH
      invariant GameSized(m)
      invariant forall p :: m.InBounds(p) ==>
                  m.TileAt(p) ==
                  if p.y == ROW_BORDER && p.x < x then Border
                  else if p.y == 0 || p.y == MAP_HEIGHT - 1 || p.x == 0 || p.x == MAP_WIDTH - 1 then Wall else Empty
    {
      m := SetTile(m, Position(x, ROW_BORDER), Border);
    }
  }

  /** Sky above, dirt everywhere else inside the borders. */
  method PlaceDirt(m0: TileMap) returns (m: TileMap)
    requires GameSized(m0)
    requires forall p :: m0.InBounds(p) ==> m0.TileAt(p) == if GroundTile(p) == Wall || GroundTile(p) == Border then GroundTile(p) else Empty
    ensures Generated(m)
  {
    m := m0;
    for y := 1 to MAP_HEIGHT - 1
      invariant GameSized(m)
      invariant forall p :: m.InBounds(p) ==> m.TileAt(p) == if p.y < y then GroundTile(p) else m0.TileAt(p)
    {
      for x := 1 to MAP_WIDTH - 1
        invariant GameSized(m)
        invariant forall p :: m.InBounds(p) ==>
                    m.TileAt(p) == if p.y < y || (p.y == y && p.x < x) then GroundTile(p) else m0.TileAt(p)
      {
        if m.TileAt(Position(x, y)) != Wall {
          if y <= ROW_SKY_END {
            m := SetTile(m, Position(x, y), Sky);
          } else {
            m := SetTile(m, Position(x, y), Dirt);
          }
        }
      }
    }
  }

  method MapGenerate() returns (m: TileMap)
    ensures Generated(m)
  {
    m := MapClear();
    m := MapCreateBorders(m);
    m := PlaceDirt(m);
    for y := 1 to ROW_SKY_END + 1
      invariant Generated(m)
    {
      for x := 1 to 6
        invariant Generated(m)
      {
        m := SetTile(m, Position(x, y), Sky);
      }
    }
  }

  /** What has been dug when the digger stands at (x, y). */
  ghost predicate Visited(t: Tunnel, x: int, y: int, p: Position) {
    (p.y == t.y1 && Between(t.x1, p.x, x)) || (x == t.x2 && p.x == t.x2 && Between(t.y1, p.y, y))
  }

  /** Digs exactly the dirt on the tunnel. */
  method DigTunnel(m0: TileMap, t: Tunnel) returns (m: TileMap)
    requires GameSized(m0)
    ensures GameSized(m)
    ensures forall p :: m.TileAt(p) == if OnTunnel(t, p) && m0.TileAt(p) == Dirt then Empty else m0.TileAt(p)
  {
    m := m0;
    var x, y := t.x1, t.y1;
    while true
      invariant GameSized(m) && Between(t.x1, x, t.x2) && Between(t.y1, y, t.y2) && (x != t.x2 ==> y == t.y1)
      invariant forall p :: m.TileAt(p) == if Visited(t, x, y, p) && p != Position(x, y) && m0.TileAt(p) == Dirt then Empty else m0.TileAt(p)
      decreases Distance(Position(x, y), Position(t.x2, t.y2))
    {
      var here := Position(x, y);
      if m.InBounds(here) {
        m := Dig(m, here);
      }
      if x == t.x2 && y == t.y2 {
        break;
      }
      if x != t.x2 {
        x := if t.x2 > t.x1 then x + 1 else x - 1;
      } else {
        y := if t.y2 > t.y1 then y + 1 else y - 1;
      }
    }
  }

  ghost predicate OnSome(tunnels: seq<Tunnel>, p: Position) {
    exists i :: 0 <= i < |tunnels| && OnTunnel(tunnels[i], p)
  }

  lemma OneMoreTunnel(tunnels: seq<Tunnel>, i: nat, p: Position)
    requires i < |tunnels|
    ensures OnSome(tunnels[..i + 1], p) <==> OnSome(tunnels[..i], p) || OnTunnel(tunnels[i], p)
  {
    assert tunnels[..i + 1] == tunnels[..i] + [tunnels[i]];
    if OnSome(tunnels[..i], p) {
      var j :| 0 <= j < i && OnTunnel(tunnels[..i][j], p);
      assert OnTunnel(tunnels[..i + 1][j], p);
    }
    if OnTunnel(tunnels[i], p) {
      assert OnTunnel(tunnels[..i + 1][i], p);
    }
  }

  /** Opens exactly the dirt on the tunnels. */
  method CreateTunnels(m0: TileMap, tunnels: seq<Tunnel>) returns (m: TileMap)
    requires GameSized(m0)
    ensures GameSized(m)
    ensures forall p :: m.TileAt(p) == if OnSome(tunnels, p) && m0.TileAt(p) == Dirt then Empty else m0.TileAt(p)
  {
    hide OnTunnel, OnSome;
    m := m0;
    assert forall p :: !OnSome(tunnels[..0], p) by {
      NoTunnels(tunnels[..0]);
    }
    for i := 0 to |tunnels|
      invariant GameSized(m)
      invariant forall p :: m.TileAt(p) == if OnSome(tunnels[..i], p) && m0.TileAt(p) == Dirt then Empty else m0.TileAt(p)
    {
      m := DigTunnel(m, tunnels[i]);
      forall p {
        OneMoreTunnel(tunnels, i, p);
      }
    }
    assert tunnels[..|tunnels|] == tunnels;
  }

  lemma NoTunnels(tunnels: seq<Tunnel>)
    requires tunnels == []
    ensures forall p :: !OnSome(tunnels, p)
  {
  }

  /** Puts an item into exactly the given cells. */
  method PlaceBonuses(m0: TileMap, bonuses: seq<Position>) returns (m: TileMap)
    requires GameSized(m0)
    ensures GameSized(m)
    ensures forall p :: m.TileAt(p) == if m0.InBounds(p) && p in bonuses then Bonus else m0.TileAt(p)
  {
    m := m0;
    for i := 0 to |bonuses|
      invariant GameSized(m)
      invariant forall p :: m.TileAt(p) == if m0.InBounds(p) && p in bonuses[..i] then Bonus else m0.TileAt(p)
    {
      assert bonuses[..i + 1] == bonuses[..i] + [bonuses[i]];
      m := SetTile(m, bonuses[i], Bonus);
    }
    assert bonuses[..|bonuses|] == bonuses;
  }

  /** What the map of a level shows in a cell. */
  ghost function LevelTile(l: Level, p: Position): Tile {
    if p in l.bonuses then Bonus else if GroundTile(p) == Dirt && OnSome(l.tunnels, p) then Empty else GroundTile(p)
  }

  lemma LevelMapIsOk(l: Level, m: TileMap)
    requires LevelOk(l) && GameSized(m) && forall p :: m.InBounds(p) ==> m.TileAt(p) == LevelTile(l, p)
    ensures MapOk(m) && PlayerOk(m, l.start)
    ensures forall i :: 0 <= i < |l.enemies| ==> m.InBounds(l.enemies[i].pos) && m.Walkable(l.enemies[i].pos)
  {
    forall i | 0 <= i < |l.enemies|
      ensures m.InBounds(l.enemies[i].pos) && m.Walkable(l.enemies[i].pos)
    {
      assert OnTunnel(l.tunnels[2 * i + 2], l.enemies[i].pos);
    }
  }

  /** The map of a level, cell by cell; the player and all enemies of the level stand on free cells. */
  method LoadMap(l: Level) returns (m: TileMap)
    requires LevelOk(l)
    ensures GameSized(m) && forall p :: m.InBounds(p) ==> m.TileAt(p) == LevelTile(l, p)
    ensures MapOk(m) && PlayerOk(m, l.start)
    ensures forall i :: 0 <= i < |l.enemies| ==> m.InBounds(l.enemies[i].pos) && m.Walkable(l.enemies[i].pos)
  {
    hide LevelOk, OnSome, GroundTile, MapOk;
    var ground := MapGenerate();
    var dug := CreateTunnels(ground, l.tunnels);
    m := PlaceBonuses(dug, l.bonuses);
    LevelMapIsOk(l, m);
  }
}
