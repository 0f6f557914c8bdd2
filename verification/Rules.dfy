/**
 The rules of the game on values: what one tick, one key and one collision do.

 A world is all that the rules speak of. The relations below say how it changes; the game machine keeps to them.
 */
module Rules {
  import opened Grid
  import opened GameModel
  import opened Rocks
  import opened Levels
  import opened SearchTheory
  import opened Pathfinder
  import Reach

  const MAX_ENEMIES: nat := 8
  const MAX_ROCKS: nat := 10
  const PLAYER_SPEED := 6
  const ATTACK_RANGE_V := 2
  const ATTACK_RANGE_H := 3
  const ATTACK_DISPLAY_TIME := 20
  const MAX_PUMP_LENGTH := 4
  const INFLATE_LEVELS := 4
  const RESPAWN_DELAY := 40
  const LEVEL_CLEAR_DELAY := 80
  const CLEARED_WAIT := 3 * 320
  const GHOST_MODE_THRESHOLD := 12 * 320
  const FIRE_RANGE := 2
  const FIRE_DURATION := 80
  const FIRE_COOLDOWN := 2 * 320
  const MAX_ROUNDS := 5
  const ROCK_KILL_MULTIPLIER := 2

  datatype Scene = Playing | RoundClear | Victory | GameOver

  /** The keys of a frame, and what the clock shows at the turn of each enemy and at the end. */
  datatype Input = Input(dir: Direction, pumping: bool, attack: bool, attackHeld: bool, devKill: bool, now: int, clock: seq<int>)

  /** A frame of play, or the load of a round between two scenes. */
  datatype Step = Play(input: Input) | Start(round: int)

  /** The cell i steps away. */
  function Ahead(p: Position, d: Direction, i: int): Position {
    match d
    case DirNone => p
    case Up => Position(p.x, p.y - i)
    case Down => Position(p.x, p.y + i)
    case Left => Position(p.x - i, p.y)
    case Right => Position(p.x + i, p.y)
  }

  function Stricken(e: Enemy, hit: bool): Enemy {
    if e.active && e.state != Paralyzed && hit then e.(state := Paralyzed, blinkCount := 10, paralyzedTimer := 5) else e
  }

  ghost predicate Reached(p: Position, d: Direction, n: int, q: Position) {
    exists i :: 1 <= i <= n && q == Ahead(p, d, i)
  }

  lemma ReachedNext(p: Position, d: Direction, n: nat)
    ensures forall q :: Reached(p, d, n + 1, q) <==> Reached(p, d, n, q) || q == Ahead(p, d, n + 1)
  {
    forall q
      ensures Reached(p, d, n + 1, q) <==> Reached(p, d, n, q) || q == Ahead(p, d, n + 1)
    {
      if Reached(p, d, n, q) {
        var i :| 1 <= i <= n && q == Ahead(p, d, i);
        assert 1 <= i <= n + 1 && q == Ahead(p, d, i);
      }
    }
  }

  lemma ReachedNone(p: Position, d: Direction)
    ensures forall q :: !Reached(p, d, 0, q)
  {
  }

  lemma NobodyStricken(es: seq<Enemy>)
    ensures forall i :: 0 <= i < |es| ==> Stricken(es[i], false) == es[i]
  {
  }

  lemma StrickenTwice()
    ensures forall e, h, g :: Stricken(Stricken(e, h), g) == Stricken(e, h || g) && Stricken(e, h).pos == e.pos
  {
  }

  /** Dead enemies stay as they are. */
  ghost predicate DeadStay(es: seq<Enemy>, es': seq<Enemy>) {
    |es'| == |es| && forall i :: 0 <= i < |es| && !es[i].active ==> es'[i] == es[i]
  }

  lemma DeadStayHere(es: seq<Enemy>)
    ensures DeadStay(es, es)
  {
  }

  lemma DeadStayBut(es: seq<Enemy>, i: nat, e: Enemy)
    requires i < |es| && es[i].active
    ensures DeadStay(es, es[i := e])
  {
  }

  /** One more stroke of the pump; the last one kills. */
  function Inflated(e: Enemy): Enemy {
    if e.inflate + 1 >= INFLATE_LEVELS then e.(state := Dead, active := false, inflate := e.inflate + 1)
    else e.(state := Inflating, inflate := e.inflate + 1)
  }

  function AttackRange(d: Direction): nat {
    if d == DirNone then 0 else if d == Up || d == Down then ATTACK_RANGE_V else ATTACK_RANGE_H
  }

  // Fire and sight

  /** The next cells in this direction are free, as far as fire reaches. */
  ghost predicate FireWay(m: TileMap, p: Position, d: Direction)
    requires m.Valid()
  {
    forall i :: 1 <= i <= FIRE_RANGE ==> m.Walkable(Ahead(p, d, i))
  }

  /** On the same row or column, with free cells only from one to the other, both ends included. */
  ghost predicate Sees(m: TileMap, p: Position, q: Position)
    requires m.Valid()
  {
    || (p.y == q.y && forall x :: Between(p.x, x, q.x) ==> m.Walkable(Position(x, p.y)))
    || (p.y != q.y && p.x == q.x && forall y :: Between(p.y, y, q.y) ==> m.Walkable(Position(p.x, y)))
  }

  /** Taking the next step clears at most the cell that is stepped on. */
  ghost predicate Entered(m: TileMap, m': TileMap, p: Position)
    requires m.Valid() && m'.Valid()
  {
    forall q :: m'.TileAt(q) == if q == p && m.TileAt(q) in {Dirt, Gem} then Empty else m.TileAt(q)
  }

  function ClockAt(clock: seq<int>, i: nat): int {
    if i < |clock| then clock[i] else 0
  }

  /** A rock at `at` is about to pass over p. */
  predicate Under(at: Position, p: Position) {
    p == at || p == Move(at, Down)
  }

  function Crushed(e: Enemy, at: Position): Enemy {
    if e.active && Under(at, e.pos) then e.(state := Dead, active := false) else e
  }

  predicate Blocked(m: TileMap, p: Position)
    requires m.Valid()
  {
    !m.InBounds(Move(p, Down)) || m.Solid(Move(p, Down))
  }

  /** A rock keeps its column, does not rise and does not go back to an earlier state. */
  ghost predicate RockForward(r: Rock, r': Rock) {
    r'.pos.x == r.pos.x && r.pos.y <= r'.pos.y && Rank(r.state) <= Rank(r'.state) && (!r.active ==> !r'.active)
  }

  /** An enemy as a level starts; beyond the defined levels it gets faster. */
  function Spawned(s: Spawn, round: int): Enemy {
    var limit := if s.fygar then 12 else 16;
    var faster := if round > NUM_LEVELS then limit - (round - NUM_LEVELS) else limit;
    Enemy(s.pos, true, Normal, s.fygar, 0, 0, false, 0, 0, 0, if round > NUM_LEVELS && faster < 2 then 2 else faster,
          DirNone, false, 0, 0)
  }

  lemma {:induction false} AllActive(es: seq<Enemy>)
    ensures (forall i :: 0 <= i < |es| ==> es[i].active) ==> ActiveCount(es) == |es|
  {
    if es != [] {
      AllActive(es[..|es| - 1]);
    }
  }

  lemma FreshRound(m: TileMap, es: seq<Enemy>, level: Level, r: int, score: int)
    requires MapOk(m) && |es| == |level.enemies| && 0 <= score <= MAX_SCORE
    requires forall i :: 0 <= i < |es| ==> m.InBounds(level.enemies[i].pos) && m.Walkable(level.enemies[i].pos)
    requires forall i :: 0 <= i < |es| ==> es[i] == Spawned(level.enemies[i], r)
    ensures CrowdOk(m, es) && AccountsOk(es, |es|, score, score, [])
  {
    AllActive(es);
  }

  // Worlds

  datatype World = World(
    tiles: TileMap, player: Player, enemies: seq<Enemy>, rocks: seq<Rock>, lives: int, timer: int,
    clearedAt: int, time: int, round: int, scene: Scene, ledger: seq<Award>)

  /** A rock that has not started to fall blocks the cell. */
  predicate RockRests(rocks: seq<Rock>, p: Position) {
    exists i :: 0 <= i < |rocks| && rocks[i].active && rocks[i].pos == p && (rocks[i].state == Stable || rocks[i].state == Wobbling)
  }

  /** Some rock is in the cell, in whatever state. */
  predicate RockLies(rocks: seq<Rock>, p: Position) {
    exists i :: 0 <= i < |rocks| && rocks[i].active && rocks[i].pos == p
  }

  predicate LivesAt(e: Enemy, p: Position) {
    e.active && e.state != Dead && e.pos == p
  }

  /** Enemy i is the first living one in the cell. */
  ghost predicate FirstEnemy(es: seq<Enemy>, p: Position, i: int) {
    0 <= i < |es| && LivesAt(es[i], p) && forall j :: 0 <= j < i ==> !LivesAt(es[j], p)
  }

  predicate LiesAt(r: Rock, p: Position) {
    r.active && r.pos == p
  }

  ghost predicate FirstRock(rocks: seq<Rock>, p: Position, i: int) {
    0 <= i < |rocks| && LiesAt(rocks[i], p) && forall j :: 0 <= j < i ==> !LiesAt(rocks[j], p)
  }

  /** The player dies n times; a life that is left starts after a wait. */
  function Dying(w: World, n: nat): World {
    if n == 0 then w
    else w.(player := w.player.(state := Lost, pumping := false, pumpLength := 0), lives := w.lives - n,
            timer := if w.lives > 1 then RESPAWN_DELAY else w.timer)
  }

  function DeadEnemy(e: Enemy): Enemy {
    e.(state := Dead, active := false)
  }

  // A tick of the player

  /** Where the player can go: below the sky and above the border row, not into a wall or a resting rock. */
  predicate Diggable(w: World, p: Position)
    requires w.tiles.Valid()
  {
    2 <= p.y < 23 && w.tiles.TileAt(p) != Wall && !RockRests(w.rocks, p)
  }

  /** The map after the player has tried to step: what lies in the player's cell is dug or taken. */
  ghost predicate Cleared(m: TileMap, m': TileMap, at: Position, moved: bool)
    requires m.Valid()
  {
    && m'.Valid() && m'.width == m.width && m'.height == m.height
    && forall q :: m'.TileAt(q) ==
         if q == at && (m.TileAt(q) == Bonus || (moved && m.TileAt(q) in {Dirt, Gem})) then Empty else m.TileAt(q)
  }

  /** A wanted step is taken if the cell can be entered; a bonus there is paid. */
  ghost predicate Stepped(w: World, w': World)
    requires w.tiles.Valid()
  {
    var p := w.player;
    var to := Move(p.pos, p.dir);
    var moved := Diggable(w, to);
    var at := if moved then to else p.pos;
    && Cleared(w.tiles, w'.tiles, at, moved)
    && w' == w.(tiles := w'.tiles,
                player := p.(pos := at, facing := p.dir, speedCounter := 6,
                             state := if !moved then p.state else if w.tiles.TileAt(to) == Dirt then Digging else Walking),
                ledger := if w.tiles.TileAt(at) == Bonus then w.ledger + [BonusItem] else w.ledger)
  }

  /** A wanted step is tried every sixth tick, and forgotten in any case. */
  ghost predicate Walked(w: World, w': World)
    requires w.tiles.Valid()
  {
    if w.player.dir == DirNone then w' == w
    else if w.player.speedCounter > 0 then w' == w.(player := w.player.(dir := DirNone))
    else exists mid :: Stepped(w, mid) && w' == mid.(player := mid.player.(dir := DirNone))
  }

  /** The delay and the attack run down. */
  ghost predicate CountedDown(w: World, w': World) {
    var p := w.player;
    var slower := p.(speedCounter := if p.speedCounter > 0 then p.speedCounter - 1 else p.speedCounter);
    w' == w.(player := if !p.attacking then slower
                       else if p.attackTimer > 0 then slower.(attackTimer := p.attackTimer - 1)
                       else slower.(attacking := false, state := if p.state == Attacking then Idle else p.state))
  }

  /** The pump reaches the player's own cell: the first enemy there is blown up by one level, and bursts at the fourth. */
  ghost predicate Pumps(w: World, w': World) {
    && (forall i :: w.player.pumpLength >= 1 && FirstEnemy(w.enemies, w.player.pos, i) ==>
          var e := w.enemies[i].(state := Inflating, inflate := w.enemies[i].inflate + 1);
          w' == if e.inflate < 4 then w.(enemies := w.enemies[i := e])
                else w.(enemies := w.enemies[i := DeadEnemy(e)], ledger := w.ledger + [Kill(i, Points(e.pos.y))]))
    && (w.player.pumpLength < 1 || (forall i :: 0 <= i < |w.enemies| ==> !LivesAt(w.enemies[i], w.player.pos)) ==> w' == w)
  }

  ghost predicate Stroke(w: World, w': World) {
    var p := w.player;
    if !p.pumping then w' == w
    else
      Pumps(w.(player := p.(state := Pumping, pumpDir := DirNone, pumpLength := if p.pumpLength < 4 then p.pumpLength + 1 else p.pumpLength)), w')
  }

  /** The first enemy in the player's cell is neither pumped up nor paralysed. */
  ghost predicate Caught(w: World) {
    exists i :: FirstEnemy(w.enemies, w.player.pos, i) && w.enemies[i].state != Inflating && w.enemies[i].state != Paralyzed
  }

  /** The first rock in the player's cell is falling. */
  ghost predicate Hit(w: World) {
    exists i :: FirstRock(w.rocks, w.player.pos, i) && w.rocks[i].state == Falling
  }

  lemma DyingKeepsPlace(w: World, n: nat)
    ensures Dying(w, n).player.pos == w.player.pos && (Hit(Dying(w, n)) <==> Hit(w))
  {
  }

  ghost predicate Collided(w: World, w': World) {
    w' == Dying(w, (if Caught(w) then 1 else 0) + (if Hit(w) then 1 else 0))
  }

  ghost predicate PlayerTick(w: World, w': World)
    requires w.tiles.Valid()
  {
    if w.player.state == Lost then w' == w
    else exists a, b, c :: Walked(w, a) && CountedDown(a, b) && Stroke(b, c) && Collided(c, w')
  }

  lemma StepIsTaken(w: World, m: TileMap, w': World)
    requires w.tiles.Valid() && m.Valid()
    requires var p := w.player;
             var to := Move(p.pos, p.dir);
             var moved := Diggable(w, to);
             var at := if moved then to else p.pos;
             && m.width == w.tiles.width && m.height == w.tiles.height && (if moved then Entered(w.tiles, m, at) else m == w.tiles)
             && w'.tiles.Valid() && w'.tiles.width == m.width && w'.tiles.height == m.height
             && (if m.TileAt(at) == Bonus then forall q :: w'.tiles.TileAt(q) == if q == at then Empty else m.TileAt(q) else w'.tiles == m)
             && w' == w.(tiles := w'.tiles,
                         player := p.(pos := at, facing := p.dir, speedCounter := 6,
                                      state := if !moved then p.state else if w.tiles.TileAt(to) == Dirt then Digging else Walking),
                         ledger := if m.TileAt(at) == Bonus then w.ledger + [BonusItem] else w.ledger)
    ensures Stepped(w, w')
  {
    hide Diggable;
  }

  lemma PumpHits(w: World, w': World, i: int)
    requires w.player.pumpLength >= 1 && FirstEnemy(w.enemies, w.player.pos, i) && w.enemies[i].active
    requires var e := Inflated(w.enemies[i]);
             w' == w.(enemies := w.enemies[i := e], ledger := if e.active then w.ledger else w.ledger + [Kill(i, Points(w.enemies[i].pos.y))])
    ensures Pumps(w, w')
  {
    assert forall j :: FirstEnemy(w.enemies, w.player.pos, j) ==> j == i;
  }

  lemma PumpMisses(w: World)
    requires w.player.pumpLength >= 1 ==> forall i :: 0 <= i < |w.enemies| ==> !LivesAt(w.enemies[i], w.player.pos)
    ensures Pumps(w, w)
  {
  }

  lemma NoStroke(w: World)
    ensures !w.player.pumping ==> Stroke(w, w)
  {
  }

  // A tick of an enemy

  /** What the search answers. */
  ghost predicate Finds(m: TileMap, ghostMode: bool, start: Position, target: Position, dir: Direction) {
    exists trace, k :: SearchEnds(Problem(m, ghostMode, start), target, dir, trace, k)
  }

  /** A run of the search ends with this answer: a real first step, and the best one if nothing was refused. */
  ghost predicate SearchEnds(pr: Problem, target: Position, dir: Direction, trace: seq<Knowledge>, k: Knowledge) {
    && pr.Valid() && Searched(pr, Reach.QUEUE_SIZE, trace, k) && Answers(pr, k, target, dir)
    && (dir != DirNone ==> HasPath(pr, target, dir)) && (!Lossy(k) ==> Reach.Best(pr, target, dir))
  }

  /** Where an enemy in the tunnels can go: a free cell above the border row that no resting rock blocks. */
  predicate Open(w: World, p: Position)
    requires w.tiles.Valid()
  {
    w.tiles.InBounds(p) && p.y < 23 && w.tiles.TileAt(p) !in {Dirt, Wall} && !RockRests(w.rocks, p)
  }

  /** Where an enemy without a way can stroll: such a cell without any rock. */
  predicate Strollable(w: World, p: Position)
    requires w.tiles.Valid()
  {
    w.tiles.InBounds(p) && p.y < 23 && w.tiles.TileAt(p) !in {Dirt, Wall} && !RockLies(w.rocks, p)
  }

  /** The i-th direction tried by an enemy without a way; position and time decide where it starts. */
  function Try(e: Enemy, i: nat): Direction {
    FOUR_WAYS[(e.pos.x + 79 * e.pos.y + e.ghostTimer + i) % 4]
  }

  lemma TryMeans(e: Enemy, i: nat)
    ensures Try(e, i) == FOUR_WAYS[((e.pos.x + e.pos.y * 79 + e.ghostTimer) % 4 + i) % 4] && Try(e, i) != DirNone
  {
    var n := e.pos.x + e.pos.y * 79 + e.ghostTimer;
    assert (n % 4 + i) % 4 == (n + i) % 4;
  }

  /** The first of the four directions in which it can stroll, or none. */
  ghost predicate Strolls(w: World, e: Enemy, dir: Direction)
    requires w.tiles.Valid()
  {
    if dir == DirNone then forall i :: 0 <= i < 4 ==> !Strollable(w, Move(e.pos, Try(e, i)))
    else exists i :: 0 <= i < 4 && dir == Try(e, i) && Strollable(w, Move(e.pos, dir))
                     && forall j :: 0 <= j < i ==> !Strollable(w, Move(e.pos, Try(e, j)))
  }

  /** In the tunnels: the first step of a way to the player that is free now, else a stroll. */
  ghost predicate Walks(w: World, e: Enemy, e': Enemy)
    requires w.tiles.Valid()
  {
    exists dir, stroll :: Finds(w.tiles, false, e.pos, w.player.pos, dir) && WalkTaken(w, e, e', dir, stroll)
  }

  ghost predicate WalkTaken(w: World, e: Enemy, e': Enemy, dir: Direction, stroll: Direction)
    requires w.tiles.Valid()
  {
    if dir != DirNone && Open(w, Move(e.pos, dir)) then e' == e.(pos := Move(e.pos, dir), dir := dir, ghostTimer := 0)
    else
      && Strolls(w, e, stroll)
      && e' == if stroll == DirNone then e else e.(pos := Move(e.pos, stroll), dir := stroll)
  }

  /** Through the ground: the first step of a way to the player, until a tunnel is reached after leaving one. */
  ghost predicate Haunts(w: World, e: Enemy, e': Enemy)
    requires w.tiles.Valid()
  {
    if e.leftTunnel && w.tiles.TileAt(e.pos) !in {Dirt, Wall} then e' == e.(state := Normal, ghostTimer := 0, leftTunnel := false)
    else exists dir :: Finds(w.tiles, true, e.pos, w.player.pos, dir) && HauntTaken(w, e, e', dir)
  }

  ghost predicate HauntTaken(w: World, e: Enemy, e': Enemy, dir: Direction)
    requires w.tiles.Valid()
  {
    var out, p := e.leftTunnel || w.tiles.TileAt(e.pos) in {Dirt, Wall}, Move(e.pos, dir);
    e' == if dir == DirNone || !w.tiles.InBounds(p) then e.(leftTunnel := out)
          else if out && w.tiles.TileAt(p) !in {Dirt, Wall} then e.(pos := p, dir := dir, state := Normal, ghostTimer := 0, leftTunnel := false)
          else e.(pos := p, dir := dir, leftTunnel := out)
  }

  /** After its move an enemy waits; one that has been stuck for twelve seconds and does not see the player becomes a ghost. */
  ghost function Rested(w: World, e: Enemy): Enemy
    requires w.tiles.Valid()
  {
    var late := e.(speedCounter := e.speedLimit, ghostTimer := e.ghostTimer + 1);
    if late.ghostTimer > 3840 && e.state == Normal && !Sees(w.tiles, e.pos, w.player.pos) then late.(state := Ghost, leftTunnel := false) else late
  }

  /** A paralysed enemy blinks in its place and dies after the last blink. */
  ghost predicate Blinks(w: World, w': World, i: int)
    requires 0 <= i < |w.enemies|
  {
    var e := w.enemies[i];
    w' == if e.paralyzedTimer > 0 then w.(enemies := w.enemies[i := e.(paralyzedTimer := e.paralyzedTimer - 1)])
          else if e.blinkCount > 1 then w.(enemies := w.enemies[i := e.(blinkCount := e.blinkCount - 1, paralyzedTimer := 5)])
          else w.(enemies := w.enemies[i := DeadEnemy(e.(blinkCount := e.blinkCount - 1))], ledger := w.ledger + [Kill(i, Points(e.pos.y))])
  }

  /** A Fygar that does not burn could burn towards the player, or else away from it. */
  ghost predicate Ignites(w: World, e: Enemy, now: int, dir: Direction)
    requires w.tiles.Valid()
  {
    var ahead := if w.player.pos.x >= e.pos.x then Right else Left;
    && (e.fireEnd <= 0 || now - e.fireEnd >= 640)
    && (if FireWay(w.tiles, e.pos, ahead) then dir == ahead
        else dir == (if ahead == Right then Left else Right) && FireWay(w.tiles, e.pos, dir))
  }

  /** The player is in one of the two cells in front of the fire. */
  predicate Scorched(e: Enemy, p: Position) {
    p.y == e.pos.y && ((e.dir == Right && 1 <= p.x - e.pos.x <= 2) || (e.dir == Left && 1 <= e.pos.x - p.x <= 2))
  }

  /** A fire starts if it can. */
  ghost predicate Ignited(w: World, w': World, i: int, now: int)
    requires w.tiles.Valid() && 0 <= i < |w.enemies|
  {
    var e := w.enemies[i];
    w' == if Ignites(w, e, now, Left) then w.(enemies := w.enemies[i := e.(fireActive := true, fireStart := now, dir := Left)])
          else if Ignites(w, e, now, Right) then w.(enemies := w.enemies[i := e.(fireActive := true, fireStart := now, dir := Right)])
          else w
  }

  /** It burns for eighty ticks and costs a player within two cells a life at each of its turns. */
  ghost predicate BurnsOn(w: World, w': World, i: int, now: int)
    requires 0 <= i < |w.enemies|
  {
    var e, p := w.enemies[i], w.player.pos;
    if now - e.fireStart >= 80 then w' == w.(enemies := w.enemies[i := e.(fireActive := false, fireEnd := now)])
    else
      w' == Dying(w, if Scorched(e, p) then 1 else 0)
  }

  ghost predicate Steps(w: World, e: Enemy, e': Enemy)
    requires w.tiles.Valid()
  {
    if e.state == Ghost then Haunts(w, e, e') else Walks(w, e, e')
  }

  /** One turn of enemy i. */
  ghost predicate TakesTurn(w: World, w': World, i: int, now: int)
    requires w.tiles.Valid() && 0 <= i < |w.enemies|
  {
    var e := w.enemies[i];
    if !e.active || e.state == Dead then w' == w
    else if e.state == Paralyzed then Blinks(w, w', i)
    else if e.state == Inflating then
      w' == if w.player.pumping then w
            else w.(enemies := w.enemies[i := if e.inflate > 1 then e.(inflate := e.inflate - 1) else e.(state := Normal, inflate := 0)])
    else if e.speedCounter > 0 then w' == w.(enemies := w.enemies[i := e.(speedCounter := e.speedCounter - 1)])
    else if e.fygar && e.fireActive then BurnsOn(w, w', i, now)
    else if e.fygar && (Ignites(w, e, now, Left) || Ignites(w, e, now, Right)) then Ignited(w, w', i, now)
    else exists moved :: Steps(w, e, moved) && w' == w.(enemies := w.enemies[i := Rested(w, moved)])
  }

  /** A turn leaves the dead alone, keeps the map, the rocks and the player's place, and adds awards at most. */
  lemma TurnKeeps(w: World, w': World, i: int, now: int)
    requires w.tiles.Valid() && 0 <= i < |w.enemies| && TakesTurn(w, w', i, now)
    ensures DeadStay(w.enemies, w'.enemies) && w.ledger <= w'.ledger && w'.player.pos == w.player.pos
    ensures w'.tiles == w.tiles && w'.rocks == w.rocks
  {
    hide Steps, Rested, Ignites;
  }

  /** The first enemies have taken one turn each, in order. */
  ghost predicate TakeTurns(ws: seq<World>, clock: seq<int>, n: nat) {
    |ws| == n + 1 && forall i :: 0 <= i < n ==>
      ws[i].tiles.Valid() && i < |ws[i].enemies| && TakesTurn(ws[i], ws[i + 1], i, ClockAt(clock, i))
  }

  /** All enemies take one turn each. */
  ghost predicate EnemyTick(w: World, w': World, clock: seq<int>) {
    exists ws :: TakeTurns(ws, clock, |w.enemies|) && ws[0] == w && ws[|w.enemies|] == w'
  }

  lemma NoTurnYet(w: World, clock: seq<int>)
    ensures TakeTurns([w], clock, 0)
  {
  }

  lemma NextTurn(ws: seq<World>, clock: seq<int>, n: nat, w': World)
    requires TakeTurns(ws, clock, n) && ws[n].tiles.Valid() && n < |ws[n].enemies| && TakesTurn(ws[n], w', n, ClockAt(clock, n))
    ensures TakeTurns(ws + [w'], clock, n + 1)
  {
    hide TakesTurn;
  }

  lemma {:induction false} TurnsKeep(ws: seq<World>, clock: seq<int>, n: nat)
    requires TakeTurns(ws, clock, n)
    ensures DeadStay(ws[0].enemies, ws[n].enemies) && ws[0].ledger <= ws[n].ledger && ws[n].player.pos == ws[0].player.pos
    ensures ws[n].tiles == ws[0].tiles && ws[n].rocks == ws[0].rocks
    decreases n
  {
    if n > 0 {
      TurnsKeep(ws[..n], clock, n - 1);
      TurnKeeps(ws[n - 1], ws[n], n - 1, ClockAt(clock, n - 1));
      hide TakesTurn;
    }
  }

  // A tick of the rocks

  /** The awards for the enemies among the first n that a rock at `at` passes over, at twice their points. */
  ghost function Crushings(es: seq<Enemy>, at: Position, n: nat): seq<Award>
    requires n <= |es|
  {
    if n == 0 then [] else
    Crushings(es, at, n - 1) + (if es[n - 1].active && Under(at, es[n - 1].pos) then [Kill(n - 1, 2 * Points(es[n - 1].pos.y))] else [])
  }

  /** Who is in the cell of a falling rock or in the one below dies. */
  ghost predicate Crushes(w: World, w': World, at: Position) {
    var mid := Dying(w, if Under(at, w.player.pos) then 1 else 0);
    && |w'.enemies| == |w.enemies|
    && (forall i :: 0 <= i < |w.enemies| ==>
          w'.enemies[i] == if w.enemies[i].active && Under(at, w.enemies[i].pos) then DeadEnemy(w.enemies[i]) else w.enemies[i])
    && w' == mid.(enemies := w'.enemies, ledger := w.ledger + Crushings(w.enemies, at, |w.enemies|))
  }

  /** One update of rock i: it is updated for the map as it is, and crushes what it falls through. */
  ghost predicate RockTurn(w: World, w': World, i: int)
    requires w.tiles.Valid() && 0 <= i < |w.rocks|
  {
    var r := w.rocks[i];
    var below := Move(r.pos, Down);
    var blocked := !w.tiles.InBounds(below) || w.tiles.TileAt(below) in {Dirt, Wall};
    exists mid :: (if r.active && r.state == Falling && !blocked then Crushes(w, mid, r.pos) else mid == w)
                  && w' == mid.(rocks := w.rocks[i := After(r, [blocked])])
  }

  lemma CrushesAll(w: World, mid: World, w': World, at: Position)
    requires mid == Dying(w, if Under(at, w.player.pos) then 1 else 0)
    requires |w'.enemies| == |w.enemies| && forall i :: 0 <= i < |w.enemies| ==> w'.enemies[i] == Crushed(w.enemies[i], at)
    requires w' == mid.(enemies := w'.enemies, ledger := w.ledger + Crushings(w.enemies, at, |w.enemies|))
    ensures Crushes(w, w', at)
  {
    hide Crushings;
  }

  lemma OneAfter(r: Rock, blocked: bool)
    ensures After(r, [blocked]) == Updated(r, blocked)
  {
    assert After(r, [blocked]) == After(Updated(r, blocked), []);
  }

  lemma RockTurned(w: World, mid: World, w': World, i: int)
    requires w.tiles.Valid() && 0 <= i < |w.rocks|
    requires var r := w.rocks[i];
             && (if r.active && r.state == Falling && !Blocked(w.tiles, r.pos) then Crushes(w, mid, r.pos) else mid == w)
             && w' == mid.(rocks := w.rocks[i := After(r, [Blocked(w.tiles, r.pos)])])
    ensures RockTurn(w, w', i)
  {
    hide After, Crushes;
  }

  /** The update of a rock leaves the dead alone, keeps the map, the other rocks and the player's place, and adds awards at most. */
  lemma RockTurnKeeps(w: World, w': World, i: int)
    requires w.tiles.Valid() && 0 <= i < |w.rocks| && RockTurn(w, w', i)
    ensures DeadStay(w.enemies, w'.enemies) && w.ledger <= w'.ledger && w'.player.pos == w.player.pos && w'.tiles == w.tiles
    ensures w'.rocks == w.rocks[i := Updated(w.rocks[i], Blocked(w.tiles, w.rocks[i].pos))]
  {
    hide After, Crushings, Updated;
    OneAfter(w.rocks[i], Blocked(w.tiles, w.rocks[i].pos));
  }

  /** The first rocks have been updated, in order. */
  ghost predicate RockTurns(ws: seq<World>, n: nat) {
    |ws| == n + 1 && forall i :: 0 <= i < n ==> ws[i].tiles.Valid() && i < |ws[i].rocks| && RockTurn(ws[i], ws[i + 1], i)
  }

  /** All rocks are updated once. */
  ghost predicate RockTick(w: World, w': World) {
    exists ws :: RockTurns(ws, |w.rocks|) && ws[0] == w && ws[|w.rocks|] == w'
  }

  lemma NoRockYet(w: World)
    ensures RockTurns([w], 0)
  {
  }

  lemma NextRock(ws: seq<World>, n: nat, w': World)
    requires RockTurns(ws, n) && ws[n].tiles.Valid() && n < |ws[n].rocks| && RockTurn(ws[n], w', n)
    ensures RockTurns(ws + [w'], n + 1)
  {
    hide RockTurn;
  }

  lemma {:induction false} RockTurnsKeep(ws: seq<World>, n: nat)
    requires RockTurns(ws, n)
    ensures DeadStay(ws[0].enemies, ws[n].enemies) && ws[0].ledger <= ws[n].ledger && ws[n].player.pos == ws[0].player.pos
    ensures ws[n].tiles == ws[0].tiles && |ws[n].rocks| == |ws[0].rocks| && n <= |ws[0].rocks|
    ensures ws[0].tiles.Valid() || n == 0
    ensures forall j :: 0 <= j < |ws[0].rocks| ==>
              ws[n].rocks[j] == if j < n then Updated(ws[0].rocks[j], Blocked(ws[0].tiles, ws[0].rocks[j].pos)) else ws[0].rocks[j]
    decreases n
  {
    if n > 0 {
      RockTurnsKeep(ws[..n], n - 1);
      RockTurnKeeps(ws[n - 1], ws[n], n - 1);
      hide RockTurn, Updated, Blocked;
    }
  }

  // Frames

  ghost predicate Waited(w: World, w': World) {
    w' == w.(timer := w.timer - 1,
             player := if w.timer == 1 && w.player.state == Lost && w.lives > 0 then NewPlayer(PLAYER_START) else w.player)
  }

  /** Three seconds after the last enemy is gone the round is over; without lives the game is. */
  ghost predicate Judged(w: World, w': World, now: int) {
    var none := forall i :: 0 <= i < |w.enemies| ==> !w.enemies[i].active;
    var until := if none && w.clearedAt == 0 then now + 960 else w.clearedAt;
    var over := none && until <= now;
    w' == w.(clearedAt := until,
             timer := if over && w.round < 5 then 80 else w.timer,
             scene := if w.lives <= 0 then GameOver else if !over then w.scene else if w.round < 5 then RoundClear else Victory)
  }

  /** One update: while the timer runs nothing else happens; else player, enemies and rocks, in this order. */
  ghost predicate Updates(w: World, w': World, now: int, clock: seq<int>)
    requires w.tiles.Valid()
  {
    if w.timer > 0 then Waited(w, w')
    else exists a, b, c :: PlayerTick(w.(time := w.time + 1), a) && EnemyTick(a, b, clock) && RockTick(b, c) && Judged(c, w', now)
  }

  /** The development key kills the first active enemy. */
  ghost predicate DevKills(w: World, w': World) {
    && (forall i :: 0 <= i < |w.enemies| && w.enemies[i].active && (forall j :: 0 <= j < i ==> !w.enemies[j].active) ==>
          w' == w.(enemies := w.enemies[i := DeadEnemy(w.enemies[i])], ledger := w.ledger + [Kill(i, Points(w.enemies[i].pos.y))]))
    && ((forall i :: 0 <= i < |w.enemies| ==> !w.enemies[i].active) ==> w' == w)
  }

  lemma FirstIsKilled(w: World, w': World, i: int)
    requires 0 <= i < |w.enemies| && w.enemies[i].active && forall j :: 0 <= j < i ==> !w.enemies[j].active
    requires w' == w.(enemies := w.enemies[i := DeadEnemy(w.enemies[i])], ledger := w.ledger + [Kill(i, Points(w.enemies[i].pos.y))])
    ensures DevKills(w, w')
  {
    assert forall k :: 0 <= k < |w.enemies| && w.enemies[k].active && (forall j :: 0 <= j < k ==> !w.enemies[j].active) ==> k == i;
  }

  lemma NobodyIsKilled(w: World)
    requires forall i :: 0 <= i < |w.enemies| ==> !w.enemies[i].active
    ensures DevKills(w, w)
  {
  }

  /** The harpoon flies n cells: all that are free, up to its range. */
  ghost predicate Flies(w: World, n: nat)
    requires w.tiles.Valid()
  {
    var p := w.player;
    var range := match p.facing case DirNone => 0 case Up => 2 case Down => 2 case _ => 3;
    && n <= range && (forall i :: 1 <= i <= n ==> w.tiles.TileAt(Ahead(p.pos, p.facing, i)) !in {Dirt, Wall})
    && (n < range ==> w.tiles.TileAt(Ahead(p.pos, p.facing, n + 1)) in {Dirt, Wall})
  }

  lemma HarpoonFlies(w: World, n: nat)
    requires w.tiles.Valid() && n <= AttackRange(w.player.facing)
    requires forall i :: 1 <= i <= n ==> w.tiles.Walkable(Ahead(w.player.pos, w.player.facing, i))
    requires n < AttackRange(w.player.facing) ==> !w.tiles.Walkable(Ahead(w.player.pos, w.player.facing, n + 1))
    ensures Flies(w, n)
  {
    forall i
      ensures w.tiles.Walkable(Ahead(w.player.pos, w.player.facing, i)) <==>
                w.tiles.TileAt(Ahead(w.player.pos, w.player.facing, i)) !in {Dirt, Wall}
    {
      SolidOrWalkable(w.tiles, Ahead(w.player.pos, w.player.facing, i));
    }
  }

  /** It paralyses the active enemies in these cells, for ten blinks. */
  ghost predicate Attacks(w: World, w': World)
    requires w.tiles.Valid()
  {
    if w.player.state == Lost then w' == w else exists n :: Flies(w, n) && Strikes(w, w', n)
  }

  ghost predicate Strikes(w: World, w': World, n: nat) {
    if n == 0 then w' == w
    else
      && |w'.enemies| == |w.enemies|
      && (forall i :: 0 <= i < |w.enemies| ==>
            var e := w.enemies[i];
            w'.enemies[i] == if e.active && e.state != Paralyzed && Reached(w.player.pos, w.player.facing, n, e.pos)
                             then e.(state := Paralyzed, blinkCount := 10, paralyzedTimer := 5) else e)
      && w' == w.(enemies := w'.enemies, player := w.player.(attacking := true, attackTimer := 20, state := Attacking))
  }

  /** The keys of a frame: development kill, direction, pump and attack. */
  ghost predicate Keyed(w: World, w': World, input: Input)
    requires w.tiles.Valid()
  {
    exists a, b :: KeyByKey(w, a, b, w', input)
  }

  ghost predicate KeyByKey(w: World, a: World, b: World, w': World, input: Input)
    requires w.tiles.Valid()
  {
    && (if input.devKill then DevKills(w, a) else a == w)
    && b == a.(player := a.player.(dir := if input.dir != DirNone then input.dir else a.player.dir, pumping := input.pumping))
    && b.tiles.Valid()
    && if input.attack then Attacks(b, w')
       else w' == b.(player := if input.attackHeld && b.player.attacking then b.player.(attackTimer := 20) else b.player)
  }

  ghost predicate FrameTick(w: World, w': World, input: Input)
    requires w.tiles.Valid()
  {
    exists a :: Keyed(w, a, input) && a.tiles.Valid() && Updates(a, w', input.now, input.clock)
  }

  // Games

  /** The world of a level as it starts. */
  ghost predicate Fresh(w: World, r: int) {
    && w.tiles.Valid() && (forall p :: w.tiles.InBounds(p) ==> w.tiles.TileAt(p) == LevelTile(LevelOf(r), p))
    && w.tiles.width == MAP_WIDTH && w.tiles.height == MAP_HEIGHT && w.player == NewPlayer(LevelOf(r).start)
    && |w.enemies| == |LevelOf(r).enemies| && (forall i :: 0 <= i < |w.enemies| ==> w.enemies[i] == Spawned(LevelOf(r).enemies[i], r))
    && |w.rocks| == |LevelOf(r).rocks| && (forall i :: 0 <= i < |w.rocks| ==> w.rocks[i] == NewRock(LevelOf(r).rocks[i]))
    && w.round == r && w.ledger == [] && w.timer == 0 && w.scene == Playing
  }

  /** A level is loaded; lives, time and the moment of the last victory are kept. */
  ghost predicate Loaded(w: World, w': World, r: int) {
    Fresh(w', r) && w'.lives == w.lives && w'.clearedAt == w.clearedAt && w'.time == w.time
  }

  ghost predicate FirstRound(w: World) {
    Fresh(w, 1) && w.lives == 5 && w.clearedAt == 0 && w.time == 0
  }

  /** What a step of a game does: a frame is played only in play. */
  ghost predicate Happens(w: World, w': World, step: Step) {
    match step
    case Start(r) => Loaded(w, w', r)
    case Play(input) => w.tiles.Valid() && if w.scene == Playing then FrameTick(w, w', input) else w' == w
  }
}
