/**
 Values of the game: tiles that are only ever dug, enemies, the player and the score ledger.
 */
module GameModel {
  import opened Grid

  const ROW_SKY_END := 2
  const ROW_BORDER := 23
  const MAX_SCORE := 99999
  const PLAYER_START := Position(40, 2)

  // Tiles

  function SetTile(m: TileMap, p: Position, t: Tile): (m': TileMap)
    requires m.Valid()
    ensures m'.Valid() && m'.width == m.width && m'.height == m.height
    ensures forall q :: m'.TileAt(q) == if q == p && m.InBounds(p) then t else m.TileAt(q)
  {
    if m.InBounds(p) then m.(tiles := m.tiles[p.y := m.tiles[p.y][p.x := t]]) else m
  }

  function Dig(m: TileMap, p: Position): TileMap
    requires m.Valid()
  {
    if m.TileAt(p) == Dirt then SetTile(m, p, Empty) else m
  }

  /** m' is m after some dirt was dug and some items were taken. */
  ghost predicate Dug(m: TileMap, m': TileMap)
    requires m.Valid()
  {
    && m'.Valid() && m'.width == m.width && m'.height == m.height
    && forall p :: m'.TileAt(p) == m.TileAt(p) || (m'.TileAt(p) == Empty && m.TileAt(p) in {Dirt, Gem, Bonus})
  }

  lemma NothingDug(m: TileMap)
    requires m.Valid()
    ensures Dug(m, m)
  {
  }

  lemma DugTwice(a: TileMap, b: TileMap, c: TileMap)
    requires a.Valid() && Dug(a, b) && Dug(b, c)
    ensures Dug(a, c)
  {
  }

  /** The walls at both sides reach down to the border row, and the start is free. */
  ghost predicate MapOk(m: TileMap) {
    && m.Valid() && m.width == MAP_WIDTH && m.height == MAP_HEIGHT && m.Walkable(PLAYER_START)
    && forall y :: 0 <= y < ROW_BORDER ==> m.TileAt(Position(0, y)) == Wall && m.TileAt(Position(MAP_WIDTH - 1, y)) == Wall
  }

  /** Digging never takes away ground to stand on, nor the walls. */
  lemma DiggingKeeps(m: TileMap, m': TileMap)
    requires MapOk(m) && Dug(m, m')
    ensures MapOk(m') && forall p :: m.Walkable(p) ==> m'.Walkable(p)
  {
  }

  // Entities

  datatype PlayerState = Idle | Walking | Digging | Pumping | Attacking | Lost

  datatype Player = Player(
    pos: Position, dir: Direction, facing: Direction, state: PlayerState, speedCounter: int,
    pumping: bool, pumpLength: int, pumpDir: Direction, attacking: bool, attackTimer: int)

  function NewPlayer(pos: Position): Player {
    Player(pos, DirNone, Right, Idle, 0, false, 0, DirNone, false, 0)
  }

  predicate InPlay(p: Position) {
    1 <= p.x <= MAP_WIDTH - 2 && ROW_SKY_END <= p.y < ROW_BORDER
  }

  ghost predicate PlayerOk(m: TileMap, p: Position)
    requires m.Valid()
  {
    InPlay(p) && m.Walkable(p)
  }

  /** Whoever is not in a wall between the sky and the border row is inside the field. */
  lemma AwayFromWalls(m: TileMap, p: Position)
    requires MapOk(m) && m.InBounds(p) && ROW_SKY_END <= p.y < ROW_BORDER && m.TileAt(p) != Wall
    ensures InPlay(p)
  {
    assert m.TileAt(Position(0, p.y)) == Wall && m.TileAt(Position(MAP_WIDTH - 1, p.y)) == Wall;
  }

  datatype EnemyState = Normal | Ghost | Inflating | Paralyzed | Dead

  datatype Enemy = Enemy(
    pos: Position, active: bool, state: EnemyState, fygar: bool, inflate: int, ghostTimer: int, leftTunnel: bool,
    paralyzedTimer: int, blinkCount: int, speedCounter: int, speedLimit: int,
    dir: Direction, fireActive: bool, fireStart: int, fireEnd: int)

  ghost predicate EnemyOk(m: TileMap, e: Enemy)
    requires m.Valid()
  {
    && m.InBounds(e.pos) && (e.active <==> e.state != Dead) && 0 <= e.ghostTimer
    && (e.active && e.state != Ghost ==> m.Walkable(e.pos))
  }

  ghost predicate CrowdOk(m: TileMap, es: seq<Enemy>)
    requires m.Valid()
  {
    forall i :: 0 <= i < |es| ==> EnemyOk(m, es[i])
  }

  lemma DiggingKeepsCrowd(m: TileMap, m': TileMap, es: seq<Enemy>)
    requires MapOk(m) && Dug(m, m') && CrowdOk(m, es)
    ensures CrowdOk(m', es)
  {
    DiggingKeeps(m, m');
  }

  // Scores

  function Layer(y: int): int {
    if 3 <= y <= 7 then 1 else if 8 <= y <= 12 then 2 else if 13 <= y <= 17 then 3 else if 18 <= y <= 22 then 4 else 0
  }

  function Points(y: int): (points: int)
    ensures 200 <= points <= 500
  {
    match Layer(y)
    case 2 => 300
    case 3 => 400
    case 4 => 500
    case _ => 200
  }

  /** Every five rows of ground are worth a hundred points more; elsewhere a kill is worth as much as in the first ones. */
  lemma DeeperPaysMore(y: int)
    ensures Points(y) == if 3 <= y <= 22 then 200 + 100 * ((y - 3) / 5) else 200
  {
    if 3 <= y <= 22 {
      assert (y - 3) / 5 == Layer(y) - 1;
    }
  }

  function Capped(n: int): int {
    if n > MAX_SCORE then MAX_SCORE else n
  }

  /** What was awarded in a round, in order. */
  datatype Award = Kill(enemy: nat, points: int) | BonusItem {
    function Worth(): int {
      if Kill? then points else 100
    }
  }

  ghost function Total(ledger: seq<Award>): int {
    if ledger == [] then 0 else Total(ledger[..|ledger| - 1]) + ledger[|ledger| - 1].Worth()
  }

  /** How often enemy i was scored. */
  ghost function Kills(ledger: seq<Award>, i: int): nat {
    if ledger == [] then 0
    else Kills(ledger[..|ledger| - 1], i) + (if ledger[|ledger| - 1].Kill? && ledger[|ledger| - 1].enemy == i then 1 else 0)
  }

  lemma LedgerGrows(ledger: seq<Award>, a: Award, i: int)
    ensures Total(ledger + [a]) == Total(ledger) + a.Worth()
    ensures Kills(ledger + [a], i) == Kills(ledger, i) + (if a.Kill? && a.enemy == i then 1 else 0)
  {
    assert (ledger + [a])[..|ledger|] == ledger;
  }

  lemma {:induction false} TotalOfSum(earlier: seq<Award>, ledger: seq<Award>)
    ensures Total(earlier + ledger) == Total(earlier) + Total(ledger)
    decreases |ledger|
  {
    if ledger == [] {
      assert earlier + ledger == earlier;
    } else {
      TotalOfSum(earlier, ledger[..|ledger| - 1]);
      assert (earlier + ledger)[..|earlier + ledger| - 1] == earlier + ledger[..|ledger| - 1];
    }
  }

  /** What a round starts with is the capped total of all awards before it. */
  ghost predicate CarriedOver(earlier: seq<Award>, carried: int) {
    Total(earlier) >= 0 && carried == Capped(Total(earlier))
  }

  /** Capping after every award, or once for the whole game, is the same. */
  lemma ScoreOfGame(es: seq<Enemy>, remaining: int, score: int, earlier: seq<Award>, carried: int, ledger: seq<Award>)
    requires AccountsOk(es, remaining, score, carried, ledger) && CarriedOver(earlier, carried)
    ensures score == Capped(Total(earlier + ledger)) && CarriedOver(earlier + ledger, score)
  {
    TotalOfSum(earlier, ledger);
  }

  ghost function ActiveCount(es: seq<Enemy>): nat {
    if es == [] then 0 else ActiveCount(es[..|es| - 1]) + (if es[|es| - 1].active then 1 else 0)
  }

  lemma {:induction false} ActiveCountUpdate(es: seq<Enemy>, i: nat, e: Enemy)
    requires i < |es|
    ensures ActiveCount(es[i := e]) == ActiveCount(es) - (if es[i].active then 1 else 0) + (if e.active then 1 else 0)
  {
    var front := es[..|es| - 1];
    if i < |es| - 1 {
      ActiveCountUpdate(front, i, e);
      assert es[i := e][..|es| - 1] == front[i := e];
    } else {
      assert es[i := e][..|es| - 1] == front;
    }
  }

  lemma {:induction false} NoneActive(es: seq<Enemy>)
    ensures ActiveCount(es) == 0 <==> forall i :: 0 <= i < |es| ==> !es[i].active
  {
    if es != [] {
      NoneActive(es[..|es| - 1]);
      var last := es[|es| - 1];
      if ActiveCount(es) == 0 {
        assert forall i :: 0 <= i < |es| - 1 ==> es[i] == es[..|es| - 1][i];
      }
    }
  }

  /** Every kill was paid by the layer in which the enemy lies dead, or twice that. */
  ghost predicate Priced(es: seq<Enemy>, ledger: seq<Award>) {
    forall k :: 0 <= k < |ledger| && ledger[k].Kill? ==>
      && ledger[k].enemy < |es| && !es[ledger[k].enemy].active
      && (ledger[k].points == Points(es[ledger[k].enemy].pos.y) || ledger[k].points == 2 * Points(es[ledger[k].enemy].pos.y))
  }

  /** The books balance: every dead enemy was scored once, the others not yet, and the score is the capped total. */
  ghost predicate AccountsOk(es: seq<Enemy>, remaining: int, score: int, carried: int, ledger: seq<Award>) {
    && remaining == ActiveCount(es) && 0 <= carried <= MAX_SCORE
    && score == Capped(carried + Total(ledger)) && Total(ledger) >= 0 && Priced(es, ledger)
    && forall i :: 0 <= i < |es| ==> Kills(ledger, i) == if es[i].active then 0 else 1
  }

  lemma KillIsBooked(es: seq<Enemy>, remaining: int, score: int, carried: int, ledger: seq<Award>, i: nat, e: Enemy, points: int)
    requires AccountsOk(es, remaining, score, carried, ledger) && i < |es| && es[i].active && !e.active
    requires points == Points(e.pos.y) || points == 2 * Points(e.pos.y)
    ensures AccountsOk(es[i := e], remaining - 1, Capped(score + points), carried, ledger + [Kill(i, points)])
  {
    ActiveCountUpdate(es, i, e);
    LedgerGrows(ledger, Kill(i, points), i);
    forall j | 0 <= j < |es|
      ensures Kills(ledger + [Kill(i, points)], j) == if es[i := e][j].active then 0 else 1
    {
      LedgerGrows(ledger, Kill(i, points), j);
    }
  }

  lemma BonusIsBooked(es: seq<Enemy>, remaining: int, score: int, carried: int, ledger: seq<Award>)
    requires AccountsOk(es, remaining, score, carried, ledger)
    ensures AccountsOk(es, remaining, Capped(score + 100), carried, ledger + [BonusItem])
  {
    LedgerGrows(ledger, BonusItem, 0);
    forall j | 0 <= j < |es|
      ensures Kills(ledger + [BonusItem], j) == Kills(ledger, j)
    {
      LedgerGrows(ledger, BonusItem, j);
    }
  }

  lemma OthersAreBooked(es: seq<Enemy>, remaining: int, score: int, carried: int, ledger: seq<Award>, i: nat, e: Enemy)
    requires AccountsOk(es, remaining, score, carried, ledger) && i < |es| && es[i].active && e.active
    ensures AccountsOk(es[i := e], remaining, score, carried, ledger)
  {
    ActiveCountUpdate(es, i, e);
  }
}
