/**
 The game machine of one round: what one tick does to the player, the enemies, the rocks, the map
 and the score.
 */
module Game {
  import opened Grid
  import opened GameModel
  import opened Rocks
  import opened Levels
  import opened SearchTheory
  import opened Pathfinder
  import Reach
  import opened Rules

  class GameState {
    var tiles: TileMap
    var player: Player
    const enemies: array<Enemy>
    var enemyCount: nat
    var remaining: int
    const rocks: array<Rock>
    var rockCount: nat
    var score: int
    var lives: int
    var timer: int
    var clearedAt: int
    var time: int
    var round: int
    var scene: Scene
    /** The awards of earlier rounds, the score they left, and the awards of this round. */
    ghost var earlier: seq<Award>
    ghost var carried: int
    ghost var ledger: seq<Award>

    constructor ()
      ensures enemies.Length == MAX_ENEMIES && rocks.Length == MAX_ROCKS && enemyCount == rockCount == 0
      ensures score == 0 && lives == 5 && clearedAt == 0 && timer == 0 && time == 0 && scene == Playing && fresh(enemies) && fresh(rocks)
      ensures earlier == ledger == []
    {
      var nobody := Enemy(PLAYER_START, false, Dead, false, 0, 0, false, 0, 0, 0, 0, DirNone, false, 0, 0);
      enemies := new Enemy[MAX_ENEMIES](_ => nobody);
      rocks := new Rock[MAX_ROCKS](_ => NewRock(PLAYER_START).(active := false));
      tiles := TileMap(0, 0, []);
      player := NewPlayer(PLAYER_START);
      enemyCount, remaining, rockCount, score, lives := 0, 0, 0, 0, 5;
      timer, clearedAt, time, round, scene := 0, 0, 0, 1, Playing;
      earlier, carried, ledger := [], 0, [];
    }

    ghost function Crowd(): seq<Enemy>
      requires enemyCount <= enemies.Length
      reads this`enemyCount, enemies
    {
      enemies[..enemyCount]
    }

    /** What the rules speak of. */
    ghost function Look(): World
      requires Sized()
      reads this, enemies, rocks
    {
      World(tiles, player, Crowd(), Pile(), lives, timer, clearedAt, time, round, scene, ledger)
    }

    ghost function Pile(): seq<Rock>
      requires rockCount <= rocks.Length
      reads this`rockCount, rocks
    {
      rocks[..rockCount]
    }

    ghost predicate Sized()
      reads this`enemyCount, this`rockCount
    {
      enemies.Length == MAX_ENEMIES && enemyCount <= MAX_ENEMIES && rocks.Length == MAX_ROCKS && rockCount <= MAX_ROCKS
    }

    ghost predicate Booked()
      requires Sized()
      reads this`enemyCount, this`rockCount, this`remaining, this`score, this`carried, this`ledger, enemies
    {
      AccountsOk(Crowd(), remaining, score, carried, ledger)
    }

    ghost predicate RocksOk()
      requires Sized()
      reads this`enemyCount, this`rockCount, rocks
    {
      forall i :: 0 <= i < rockCount ==> Rocks.Ok(rocks[i])
    }

    ghost predicate Placed()
      requires Sized()
      reads this`enemyCount, this`rockCount, this`tiles, this`player, enemies
    {
      MapOk(tiles) && PlayerOk(tiles, player.pos) && CrowdOk(tiles, Crowd())
    }

    ghost predicate Valid()
      reads this, enemies, rocks
    {
      Sized() && Placed() && Booked() && RocksOk()
    }

    // Scores and deaths

    method AddScore(points: int)
      modifies this`score
      ensures score == Capped(old(score) + points)
    {
      score := score + points;
      if score > MAX_SCORE {
        score := MAX_SCORE;
      }
    }

    /** What all four ways to kill an enemy do. */
    method KillEnemy(i: nat, points: int)
      requires Sized() && MapOk(tiles) && CrowdOk(tiles, Crowd()) && Booked() && i < enemyCount && enemies[i].active
      requires points == Points(enemies[i].pos.y) || points == 2 * Points(enemies[i].pos.y)
      modifies enemies, this`remaining, this`score, this`ledger
      ensures CrowdOk(tiles, Crowd()) && Booked()
      ensures Crowd() == old(Crowd())[i := old(enemies[i]).(state := Dead, active := false)]
      ensures ledger == old(ledger) + [Kill(i, points)] && remaining == old(remaining) - 1
    {
      var e := enemies[i].(state := Dead, active := false);
      KillIsBooked(Crowd(), remaining, score, carried, ledger, i, e, points);
      enemies[i] := e;
      assert Crowd() == old(Crowd())[i := e];
      remaining := remaining - 1;
      AddScore(points);
      ledger := ledger + [Kill(i, points)];
    }

    /** Changes an enemy that stays alive. */
    method PutEnemy(i: nat, e: Enemy)
      requires Sized() && MapOk(tiles) && CrowdOk(tiles, Crowd()) && Booked() && i < enemyCount
      requires EnemyOk(tiles, e) && enemies[i].active && e.active
      modifies enemies
      ensures CrowdOk(tiles, Crowd()) && Booked() && Crowd() == old(Crowd())[i := e]
    {
      OthersAreBooked(Crowd(), remaining, score, carried, ledger, i, e);
      enemies[i] := e;
      assert Crowd() == old(Crowd())[i := e];
    }

    method PlayerDie()
      modifies this`player, this`lives, this`timer
      ensures player == old(player).(state := Lost, pumping := false, pumpLength := 0) && lives == old(lives) - 1
      ensures timer == if lives > 0 then RESPAWN_DELAY else old(timer)
    {
      player := player.(state := Lost, pumping := false, pumpLength := 0);
      lives := lives - 1;
      if lives > 0 {
        timer := RESPAWN_DELAY;
      }
    }

    // The player

    predicate RockAt(p: Position)
      requires Sized()
      reads this`enemyCount, this`rockCount, rocks
    {
      exists i :: 0 <= i < rockCount && rocks[i].active && rocks[i].pos == p && (rocks[i].state == Stable || rocks[i].state == Wobbling)
    }

    /** Where the player can go: between the sky and the border row, through dirt, but not through resting rocks. */
    predicate CanDigInto(p: Position)
      requires Sized() && MapOk(tiles)
      reads this`enemyCount, this`rockCount, this`tiles, rocks
    {
      ROW_SKY_END <= p.y < ROW_BORDER && !RockAt(p) && (tiles.TileAt(p) == Dirt || tiles.Walkable(p))
    }

    lemma DiggableMeans(p: Position)
      requires Sized() && MapOk(tiles)
      ensures CanDigInto(p) <==> Diggable(Look(), p)
    {
      SolidOrWalkable(tiles, p);
      RockAtMeans(p);
    }

    lemma RockAtMeans(p: Position)
      requires Sized()
      ensures RockAt(p) <==> RockRests(Pile(), p)
    {
      if RockAt(p) {
        var i :| 0 <= i < rockCount && rocks[i].active && rocks[i].pos == p && (rocks[i].state == Stable || rocks[i].state == Wobbling);
        assert Pile()[i] == rocks[i];
      }
    }

    /** The player takes one step, digging where there is dirt, or stays if that is not possible. */
    method PlayerMove(dir: Direction)
      requires Sized() && MapOk(tiles) && PlayerOk(tiles, player.pos)
      modifies this`tiles, this`player
      ensures Dug(old(tiles), tiles) && MapOk(tiles) && PlayerOk(tiles, player.pos)
      ensures if dir != DirNone && old(CanDigInto(Move(player.pos, dir)))
              then player.pos == Move(old(player.pos), dir) && Entered(old(tiles), tiles, player.pos)
              else player.pos == old(player.pos) && tiles == old(tiles)
      ensures player.facing == if dir == DirNone then old(player.facing) else dir
      ensures player == old(player).(pos := player.pos, facing := player.facing, state := player.state)
      ensures player.state == if dir == DirNone || !old(CanDigInto(Move(player.pos, dir))) then old(player.state)
                              else if old(tiles).TileAt(player.pos) == Dirt then Digging else Walking
    {
      if dir == DirNone {
        return;
      }
      var p := Move(player.pos, dir);
      player := player.(facing := dir);
      if !tiles.InBounds(p) {
        return;
      }
      if p.y < ROW_SKY_END {
        return;
      }
      if p.y >= ROW_BORDER {
        return;
      }
      if RockAt(p) {
        return;
      }
      if tiles.TileAt(p) == Dirt {
        player := player.(state := Digging);
      } else if tiles.Walkable(p) {
        player := player.(state := Walking);
      } else {
        return;
      }
      AwayFromWalls(tiles, p);
      Enter(p);
    }

    /** Digs the cell if need be, moves the player there and takes a gem. */
    method Enter(p: Position)
      requires MapOk(tiles) && InPlay(p) && (tiles.TileAt(p) == Dirt || tiles.Walkable(p))
      modifies this`tiles, this`player
      ensures Dug(old(tiles), tiles) && MapOk(tiles) && PlayerOk(tiles, p) && player == old(player).(pos := p)
      ensures Entered(old(tiles), tiles, p)
    {
      tiles := Dig(tiles, p);
      player := player.(pos := p);
      if tiles.TileAt(p) == Gem {
        tiles := SetTile(tiles, p, Empty);
      }
      DiggingKeeps(old(tiles), tiles);
    }

    // The harpoon

    /** How many of the next cells are free. */
    method AttackPathClear(p: Position, dir: Direction, range: nat) returns (k: nat)
      requires MapOk(tiles)
      ensures k <= range && forall i :: 1 <= i <= k ==> tiles.Walkable(Ahead(p, dir, i))
      ensures k < range && dir != DirNone ==> !tiles.Walkable(Ahead(p, dir, k + 1))
    {
      k := 0;
      if dir == DirNone {
        return;
      }
      while k < range
        invariant k <= range && forall i :: 1 <= i <= k ==> tiles.Walkable(Ahead(p, dir, i))
      {
        var q := Ahead(p, dir, k + 1);
        SolidOrWalkable(tiles, q);
        if !tiles.InBounds(q) {
          return;
        }
        if tiles.Solid(q) {
          return;
        }
        k := k + 1;
      }
    }

    method StrikeEnemy(e: nat, cell: Position)
      requires Sized() && MapOk(tiles) && CrowdOk(tiles, Crowd()) && Booked() && tiles.Walkable(cell) && e < enemyCount
      modifies enemies
      ensures CrowdOk(tiles, Crowd()) && Booked()
      ensures Crowd() == old(Crowd())[e := Stricken(old(enemies[e]), old(enemies[e]).pos == cell)]
    {
      var enemy := enemies[e];
      assert EnemyOk(tiles, Crowd()[e]);
      if enemy.active && enemy.state != Paralyzed && enemy.pos == cell {
        PutEnemy(e, Stricken(enemy, true));
      }
    }

    /** Paralyses the enemies in one cell. */
    method Strike(cell: Position)
      requires Sized() && MapOk(tiles) && CrowdOk(tiles, Crowd()) && Booked() && tiles.Walkable(cell)
      modifies enemies
      ensures CrowdOk(tiles, Crowd()) && Booked()
      ensures forall e :: 0 <= e < enemyCount ==> Crowd()[e] == Stricken(old(Crowd())[e], old(Crowd())[e].pos == cell)
    {
      hide CrowdOk, Booked, Stricken;
      for e := 0 to enemyCount
        invariant CrowdOk(tiles, Crowd()) && Booked()
        invariant forall i :: 0 <= i < enemyCount ==>
                    Crowd()[i] == if i < e then Stricken(old(Crowd())[i], old(Crowd())[i].pos == cell) else old(Crowd())[i]
      {
        assert enemies[e] == Crowd()[e];
        StrikeEnemy(e, cell);
      }
    }

    /**
     The attack: exactly the active enemies in the free cells ahead are paralysed. These cells can be walked
     on, so a ghost inside the ground is out of reach.
     */
    method PlayerAttack() returns (struck: bool, ghost clear: nat)
      requires Sized() && MapOk(tiles) && CrowdOk(tiles, Crowd()) && Booked()
      modifies this`player, enemies
      ensures CrowdOk(tiles, Crowd()) && Booked()
      ensures struck <==> clear > 0
      ensures clear <= AttackRange(player.facing) && (old(player.state) == Lost ==> clear == 0)
      ensures clear < AttackRange(player.facing) && old(player.state) != Lost ==> !tiles.Walkable(Ahead(player.pos, player.facing, clear + 1))
      ensures player == if struck then old(player).(attacking := true, attackTimer := ATTACK_DISPLAY_TIME, state := Attacking) else old(player)
      ensures forall i :: 1 <= i <= clear ==> tiles.Walkable(Ahead(player.pos, player.facing, i))
      ensures forall e :: 0 <= e < enemyCount ==>
                Crowd()[e] == Stricken(old(Crowd())[e], Reached(player.pos, player.facing, clear, old(Crowd())[e].pos))
      ensures old(player.state) != Lost ==> clear < AttackRange(player.facing) ==> !tiles.Walkable(Ahead(player.pos, player.facing, clear + 1))
    {
      hide CrowdOk, Booked, Stricken;
      ReachedNone(player.pos, player.facing);
      if player.state == Lost || player.facing == DirNone {
        NobodyStricken(Crowd());
        return false, 0;
      }
      var dir, pos := player.facing, player.pos;
      var k := AttackPathClear(pos, dir, AttackRange(dir));
      NobodyStricken(Crowd());
      if k == 0 {
        return false, 0;
      }
      player := player.(attacking := true, attackTimer := ATTACK_DISPLAY_TIME, state := Attacking);
      ghost var attacker := player;
      for i := 0 to k
        invariant CrowdOk(tiles, Crowd()) && Booked() && player == attacker
        invariant forall e :: 0 <= e < enemyCount ==> Crowd()[e] == Stricken(old(Crowd())[e], Reached(pos, dir, i, old(Crowd())[e].pos))
      {
        ReachedNext(pos, dir, i);
        StrickenTwice();
        Strike(Ahead(pos, dir, i + 1));
      }
      return true, k;
    }

    method Attack()
      requires Sized() && MapOk(tiles) && CrowdOk(tiles, Crowd()) && Booked()
      modifies this`player, enemies
      ensures CrowdOk(tiles, Crowd()) && Booked() && DeadStay(old(Crowd()), Crowd()) && player.pos == old(player.pos)
      ensures Attacks(old(Look()), Look())
    {
      hide AccountsOk, CrowdOk, Reached;
      ghost var w := Look();
      var struck, clear := PlayerAttack();
      ReachedNone(player.pos, player.facing);
      if !struck {
        NobodyStricken(old(Crowd()));
        assert Crowd() == old(Crowd());
      }
      if w.player.state != Lost {
        HarpoonFlies(w, clear);
        assert Strikes(w, Look(), clear);
      }
    }

    // The pump

    /** The pump gets as far as the i-th cell. */
    ghost predicate Pumped(i: int)
      requires MapOk(tiles)
      reads this`tiles, this`player
    {
      1 <= i <= player.pumpLength && forall j :: 1 <= j < i ==> tiles.Walkable(Ahead(player.pos, player.pumpDir, j))
    }

    ghost predicate NobodyAt(p: Position)
      requires Sized()
      reads this`enemyCount, this`rockCount, enemies
    {
      forall i :: 0 <= i < enemyCount ==> !EnemyAt(p, i)
    }

    ghost predicate FirstAt(p: Position, hit: int)
      requires Sized()
      reads this`enemyCount, this`rockCount, enemies
    {
      0 <= hit < enemyCount && EnemyAt(p, hit) && forall i :: 0 <= i < hit ==> !EnemyAt(p, i)
    }

    /** The first enemy in a cell, or -1. */
    method FirstEnemyAt(p: Position) returns (hit: int)
      requires Sized()
      ensures if hit == -1 then NobodyAt(p) else FirstAt(p, hit)
    {
      for i := 0 to enemyCount
        invariant forall j :: 0 <= j < i ==> !EnemyAt(p, j)
      {
        if enemies[i].active && enemies[i].state != Dead && enemies[i].pos == p {
          return i;
        }
      }
      return -1;
    }

    /** The first enemy in the nearest cell with one that the pump gets to, or -1. */
    method CheckPumpHit() returns (hit: int, ghost cell: int)
      requires Sized() && MapOk(tiles)
      ensures hit == -1 || (player.pumping && Pumped(cell) && FirstAt(Ahead(player.pos, player.pumpDir, cell), hit))
      ensures hit != -1 ==> forall i :: 1 <= i < cell ==> NobodyAt(Ahead(player.pos, player.pumpDir, i))
      ensures hit == -1 && player.pumping ==> forall i :: Pumped(i) ==> NobodyAt(Ahead(player.pos, player.pumpDir, i))
    {
      hide NobodyAt, FirstAt;
      cell := 0;
      if !player.pumping {
        return -1, cell;
      }
      var pump := player.pos;
      var i := 1;
      while i <= player.pumpLength
        invariant 1 <= i && pump == Ahead(player.pos, player.pumpDir, i - 1)
        invariant forall j :: 1 <= j < i ==> tiles.Walkable(Ahead(player.pos, player.pumpDir, j))
        invariant forall j :: 1 <= j < i ==> NobodyAt(Ahead(player.pos, player.pumpDir, j))
      {
        pump := Move(pump, player.pumpDir);
        hit := FirstEnemyAt(pump);
        if hit != -1 {
          return hit, i;
        }
        if !tiles.Walkable(pump) {
          assert !tiles.Walkable(Ahead(player.pos, player.pumpDir, i));
          return -1, cell;
        }
        i := i + 1;
      }
      return -1, cell;
    }

    method EnemyInflate(i: nat)
      requires Sized() && MapOk(tiles) && CrowdOk(tiles, Crowd()) && Booked()
      requires i < enemyCount && enemies[i].active && tiles.Walkable(enemies[i].pos)
      modifies enemies, this`remaining, this`score, this`ledger
      ensures CrowdOk(tiles, Crowd()) && Booked()
      ensures Crowd() == old(Crowd())[i := Inflated(old(enemies[i]))]
      ensures ledger == if Inflated(old(enemies[i])).active then old(ledger) else old(ledger) + [Kill(i, Points(old(enemies[i]).pos.y))]
    {
      var e := enemies[i];
      assert EnemyOk(tiles, Crowd()[i]);
      PutEnemy(i, e.(state := Inflating, inflate := e.inflate + 1));
      assert enemies[i] == Crowd()[i];
      if enemies[i].inflate >= INFLATE_LEVELS {
        KillEnemy(i, Points(enemies[i].pos.y));
      }
    }

    /** The direction has been used up before, so the pump only works on the player's own cell. */
    method PlayerPump()
      requires Sized() && Placed() && Booked() && player.dir == DirNone && player.pumping
      modifies this`player, enemies, this`remaining, this`score, this`ledger
      ensures Placed() && Booked() && DeadStay(old(Crowd()), Crowd()) && old(ledger) <= ledger
      ensures player.pos == old(player.pos) && Stroke(old(Look()), Look())
    {
      hide AccountsOk, CrowdOk, Pumps, DeadStay;
      player := player.(pumping := true, state := Pumping, pumpDir := player.dir);
      if player.pumpLength < MAX_PUMP_LENGTH {
        player := player.(pumpLength := player.pumpLength + 1);
      }
      PumpCell();
    }

    method PumpCell()
      requires Sized() && Placed() && Booked() && player.pumpDir == DirNone && player.pumping
      modifies enemies, this`remaining, this`score, this`ledger
      ensures Placed() && Booked() && DeadStay(old(Crowd()), Crowd()) && old(ledger) <= ledger && Pumps(old(Look()), Look())
    {
      hide AccountsOk, CrowdOk, Pumps, FirstEnemy, NobodyAt, DeadStay;
      DeadStayHere(Crowd());
      var first, _ := CheckPumpHit();
      assert player.pumpLength >= 1 ==> Pumped(1);
      FirstMeans(player.pos, first);
      if first >= 0 {
        EnemyInflate(first);
        DeadStayBut(old(Crowd()), first, Inflated(old(enemies[first])));
        PumpHits(old(Look()), Look(), first);
      } else {
        PumpMisses(Look());
      }
    }

    // A tick of the player

    /** One step in the wanted direction, and the bonus that may lie there. */
    method StepOnce()
      requires Valid() && player.dir != DirNone
      modifies this`tiles, this`player, this`score, this`ledger
      ensures Valid() && Dug(old(tiles), tiles) && old(ledger) <= ledger
      ensures player.pumping == old(player.pumping) && Stepped(old(Look()), Look())
    {
      hide AccountsOk, CrowdOk, Stepped, CanDigInto, Diggable, Dug, Entered;
      DiggableMeans(Move(player.pos, player.dir));
      PlayerMove(player.dir);
      DiggingKeepsCrowd(old(tiles), tiles, Crowd());
      ghost var entered := tiles;
      player := player.(speedCounter := PLAYER_SPEED);
      TakeBonusIfAny();
      DugTwice(old(tiles), entered, tiles);
      StepIsTaken(old(Look()), entered, Look());
    }

    /** A step in the wanted direction, if the player is not too fast; the direction is used up. */
    method Walk()
      requires Valid()
      modifies this`tiles, this`player, this`score, this`ledger
      ensures Valid() && Dug(old(tiles), tiles) && old(ledger) <= ledger
      ensures player.dir == DirNone && player.pumping == old(player.pumping) && Walked(old(Look()), Look())
    {
      hide AccountsOk, CrowdOk, Stepped, Dug;
      NothingDug(tiles);
      if player.dir != DirNone {
        if player.speedCounter <= 0 {
          StepOnce();
        }
        player := player.(dir := DirNone);
      }
    }

    method TakeBonusIfAny()
      requires Valid()
      modifies this`tiles, this`score, this`ledger
      ensures Valid() && Dug(old(tiles), tiles)
      ensures if old(tiles).TileAt(player.pos) == Bonus
              then ledger == old(ledger) + [BonusItem] && forall q :: tiles.TileAt(q) == if q == player.pos then Empty else old(tiles).TileAt(q)
              else ledger == old(ledger) && tiles == old(tiles)
    {
      hide AccountsOk, CrowdOk, Dug;
      NothingDug(tiles);
      if tiles.TileAt(player.pos) == Bonus {
        TakeBonus();
      }
    }

    method TakeBonus()
      requires Valid() && tiles.TileAt(player.pos) == Bonus
      modifies this`tiles, this`score, this`ledger
      ensures Valid() && Dug(old(tiles), tiles) && ledger == old(ledger) + [BonusItem]
      ensures forall q :: tiles.TileAt(q) == if q == player.pos then Empty else old(tiles).TileAt(q)
    {
      hide AccountsOk;
      tiles := SetTile(tiles, player.pos, Empty);
      DiggingKeeps(old(tiles), tiles);
      DiggingKeepsCrowd(old(tiles), tiles, Crowd());
      BonusIsBooked(Crowd(), remaining, score, carried, ledger);
      AddScore(100);
      ledger := ledger + [BonusItem];
    }

    method CheckPlayerRockCollision() returns (hit: int)
      requires Sized()
      ensures hit == -1 || (0 <= hit < rockCount && AnyRockAt(player.pos, hit))
      ensures forall i :: 0 <= i < (if hit == -1 then rockCount else hit) ==> !AnyRockAt(player.pos, i)
    {
      for i := 0 to rockCount
        invariant forall j :: 0 <= j < i ==> !AnyRockAt(player.pos, j)
      {
        if rocks[i].active && rocks[i].pos == player.pos {
          return i;
        }
      }
      return -1;
    }

    /** Counts down the step delay and the attack, which ends when its time is up. */
    method CountDown()
      requires Sized()
      modifies this`player
      ensures CountedDown(old(Look()), Look())
      ensures var p := old(player);
              && player.speedCounter == (if p.speedCounter > 0 then p.speedCounter - 1 else p.speedCounter)
              && player.attacking == (p.attacking && p.attackTimer > 0)
              && player.attackTimer == (if p.attacking && p.attackTimer > 0 then p.attackTimer - 1 else p.attackTimer)
              && player.state == (if p.attacking && p.attackTimer <= 0 && p.state == Attacking then Idle else p.state)
              && player == p.(speedCounter := player.speedCounter, attacking := player.attacking,
                              attackTimer := player.attackTimer, state := player.state)
    {
      if player.speedCounter > 0 {
        player := player.(speedCounter := player.speedCounter - 1);
      }
      if player.attacking {
        if player.attackTimer > 0 {
          player := player.(attackTimer := player.attackTimer - 1);
        } else {
          player := player.(attacking := false);
          if player.state == Attacking {
            player := player.(state := Idle);
          }
        }
      }
    }

    ghost predicate EnemyAt(p: Position, i: int)
      requires Sized() && 0 <= i < enemyCount
      reads this`enemyCount, this`rockCount, enemies
    {
      enemies[i].active && enemies[i].state != Dead && enemies[i].pos == p
    }

    /** The first enemy in cell p is neither pumped up nor paralysed. */
    ghost predicate EnemyCatches(p: Position)
      requires Sized()
      reads this`enemyCount, this`rockCount, enemies
    {
      exists i :: FirstAt(p, i) && enemies[i].state != Inflating && enemies[i].state != Paralyzed
    }

    ghost predicate AnyRockAt(p: Position, i: int)
      requires Sized() && 0 <= i < rockCount
      reads this`enemyCount, this`rockCount, rocks
    {
      rocks[i].active && rocks[i].pos == p
    }

    /** The first rock in cell p is falling. */
    ghost predicate RockHits(p: Position)
      requires Sized()
      reads this`enemyCount, this`rockCount, rocks
    {
      exists i :: 0 <= i < rockCount && AnyRockAt(p, i) && (forall j :: 0 <= j < i ==> !AnyRockAt(p, j)) && rocks[i].state == Falling
    }

    lemma CaughtMeans()
      requires Sized()
      ensures EnemyCatches(player.pos) <==> Caught(Look())
    {
      forall i
        ensures FirstAt(player.pos, i) <==> FirstEnemy(Crowd(), player.pos, i)
      {
        FirstMeans(player.pos, i);
      }
    }

    lemma FirstMeans(p: Position, i: int)
      requires Sized()
      ensures FirstAt(p, i) <==> FirstEnemy(Crowd(), p, i)
      ensures NobodyAt(p) <==> forall j :: 0 <= j < |Crowd()| ==> !LivesAt(Crowd()[j], p)
    {
      assert forall j :: 0 <= j < enemyCount ==> (EnemyAt(p, j) <==> LivesAt(Crowd()[j], p));
    }

    lemma HitMeans()
      requires Sized()
      ensures RockHits(player.pos) <==> Hit(Look())
    {
      var rs := Pile();
      assert forall i :: 0 <= i < rockCount ==> rs[i] == rocks[i] && (AnyRockAt(player.pos, i) <==> LiesAt(rs[i], player.pos));
      if RockHits(player.pos) {
        var i :| 0 <= i < rockCount && AnyRockAt(player.pos, i) && (forall j :: 0 <= j < i ==> !AnyRockAt(player.pos, j)) && rocks[i].state == Falling;
        assert FirstRock(rs, player.pos, i);
      }
      if Hit(Look()) {
        var i :| FirstRock(rs, player.pos, i) && rs[i].state == Falling;
        assert AnyRockAt(player.pos, i);
      }
    }

    method CollideWithEnemy()
      requires Sized()
      modifies this`player, this`lives, this`timer
      ensures Look() == Dying(old(Look()), if Caught(old(Look())) then 1 else 0)
    {
      CaughtMeans();
      hide Caught;
      var enemy := FirstEnemyAt(player.pos);
      var caught := enemy >= 0 && enemies[enemy].state != Inflating && enemies[enemy].state != Paralyzed;
      assert EnemyCatches(player.pos) <==> caught;
      if caught {
        PlayerDie();
      }
    }

    method CollideWithRock()
      requires Sized()
      modifies this`player, this`lives, this`timer
      ensures Look() == Dying(old(Look()), if Hit(old(Look())) then 1 else 0)
    {
      HitMeans();
      hide Hit;
      var rock := CheckPlayerRockCollision();
      var hit := rock >= 0 && rocks[rock].state == Falling;
      assert RockHits(player.pos) <==> hit;
      if hit {
        PlayerDie();
      }
    }

    /** Enemies, unless they are pumped up or paralysed, and falling rocks cost the player a life. */
    method Collide()
      requires Sized()
      modifies this`player, this`lives, this`timer
      ensures player.pos == old(player.pos) && Collided(old(Look()), Look())
    {
      hide Caught, Hit;
      CollideWithEnemy();
      DyingKeepsPlace(old(Look()), 1);
      assert player.pos == Look().player.pos;
      CollideWithRock();
    }

    method UpdatePlayer()
      requires Valid()
      modifies this`tiles, this`player, this`score, this`ledger, this`remaining, this`lives, this`timer, enemies
      ensures Valid() && Dug(old(tiles), tiles) && old(ledger) <= ledger && DeadStay(old(Crowd()), Crowd())
      ensures PlayerTick(old(Look()), Look())
    {
      hide AccountsOk, CrowdOk, EnemyCatches, RockHits, Dug, DeadStay, Walked, CountedDown, Stroke, Collided;
      DeadStayHere(Crowd());
      NothingDug(tiles);
      if player.state == Lost {
        return;
      }
      var action := player.pumping;
      Walk();
      ghost var walked := Look();
      CountDown();
      ghost var counted := Look();
      PumpIf(action);
      ghost var pumped := Look();
      Collide();
      assert Walked(old(Look()), walked) && CountedDown(walked, counted) && Stroke(counted, pumped) && Collided(pumped, Look());
    }

    method PumpIf(action: bool)
      requires Sized() && Placed() && Booked() && player.dir == DirNone && action == player.pumping
      modifies this`player, enemies, this`remaining, this`score, this`ledger
      ensures Placed() && Booked() && DeadStay(old(Crowd()), Crowd()) && old(ledger) <= ledger
      ensures player.pos == old(player.pos) && Stroke(old(Look()), Look())
    {
      hide AccountsOk, CrowdOk, Stroke, DeadStay;
      DeadStayHere(Crowd());
      NoStroke(Look());
      if action {
        PlayerPump();
      }
    }

    // A tick of the enemies

    method EnemyDeflate(i: nat)
      requires Sized() && MapOk(tiles) && CrowdOk(tiles, Crowd()) && Booked() && i < enemyCount && enemies[i].state == Inflating
      modifies enemies
      ensures CrowdOk(tiles, Crowd()) && Booked()
      ensures var e := old(enemies[i]);
              Crowd() == old(Crowd())[i := if e.inflate > 1 then e.(inflate := e.inflate - 1) else e.(state := Normal, inflate := 0)]
    {
      var e := enemies[i];
      assert EnemyOk(tiles, Crowd()[i]);
      var level := e.inflate - 1;
      if level <= 0 {
        PutEnemy(i, e.(state := Normal, inflate := 0));
      } else {
        PutEnemy(i, e.(inflate := level));
      }
    }

    /** Where an enemy in the tunnels can go: a free cell above the border row that no resting rock blocks. */
    predicate CanEnter(p: Position)
      requires Sized() && MapOk(tiles)
      reads this`enemyCount, this`rockCount, this`tiles, rocks
    {
      tiles.InBounds(p) && !RockAt(p) && p.y < ROW_BORDER && tiles.Walkable(p)
    }

    method TryEnemyMove(i: nat, dir: Direction) returns (moved: bool)
      requires Sized() && MapOk(tiles) && CrowdOk(tiles, Crowd()) && Booked() && i < enemyCount && enemies[i].active
      modifies enemies
      ensures CrowdOk(tiles, Crowd()) && Booked()
      ensures moved <==> dir != DirNone && CanEnter(Move(old(enemies[i]).pos, dir))
      ensures Crowd() == if moved then old(Crowd())[i := old(enemies[i]).(pos := Move(old(enemies[i]).pos, dir), dir := dir)] else old(Crowd())
    {
      if dir == DirNone {
        return false;
      }
      var p := Move(enemies[i].pos, dir);
      if !tiles.InBounds(p) {
        return false;
      }
      if RockAt(p) {
        return false;
      }
      if p.y >= ROW_BORDER {
        return false;
      }
      if tiles.Walkable(p) {
        assert EnemyOk(tiles, Crowd()[i]);
        PutEnemy(i, enemies[i].(pos := p, dir := dir));
        return true;
      }
      return false;
    }

    method AnyRock(p: Position) returns (found: bool)
      requires Sized()
      ensures found <==> RockLies(Pile(), p)
    {
      for i := 0 to rockCount
        invariant forall j :: 0 <= j < i ==> !(rocks[j].active && rocks[j].pos == p)
      {
        if rocks[i].active && rocks[i].pos == p {
          assert Pile()[i] == rocks[i];
          return true;
        }
      }
      return false;
    }

    /** The first of the four directions, from one that depends on place and time, in which the enemy can stroll. */
    method GetRandomDirection(i: nat) returns (dir: Direction)
      requires Sized() && MapOk(tiles) && i < enemyCount && EnemyOk(tiles, enemies[i])
      ensures Strolls(Look(), enemies[i], dir)
    {
      hide Strollable, Try;
      var e := enemies[i];
      var start := (e.pos.x + e.pos.y * 79 + e.ghostTimer) % 4;
      for k := 0 to 4
        invariant forall j :: 0 <= j < k ==> !Strollable(Look(), Move(e.pos, Try(e, j)))
      {
        dir := FOUR_WAYS[(start + k) % 4];
        TryMeans(e, k);
        var free := CanStroll(Move(e.pos, dir));
        if free {
          return dir;
        }
      }
      return DirNone;
    }

    method CanStroll(p: Position) returns (free: bool)
      requires Sized() && MapOk(tiles)
      ensures free <==> Strollable(Look(), p)
    {
      hide RockLies;
      SolidOrWalkable(tiles, p);
      var blocked := AnyRock(p);
      return tiles.InBounds(p) && tiles.Walkable(p) && p.y < ROW_BORDER && !blocked;
    }

    lemma OpenMeans(p: Position)
      requires Sized() && MapOk(tiles)
      ensures CanEnter(p) <==> Open(Look(), p)
    {
      SolidOrWalkable(tiles, p);
      RockAtMeans(p);
    }

    /**
     In the tunnels: the first step of a cheapest path to the player if no rock is in the way, or else a stroll.
     */
    method MoveTowardsPlayer(i: nat)
      requires Sized() && MapOk(tiles) && CrowdOk(tiles, Crowd()) && Booked() && i < enemyCount && enemies[i].active
      modifies enemies
      ensures CrowdOk(tiles, Crowd()) && Booked() && Crowd() == old(Crowd())[i := enemies[i]]
      ensures enemies[i].active && enemies[i].state == old(enemies[i].state) && enemies[i].speedLimit == old(enemies[i].speedLimit)
      ensures Walks(old(Look()), old(enemies[i]), enemies[i])
    {
      hide HasPath, AccountsOk, Reach.Best, Territory, Searched, Answers, Lossy, Strolls, Open, CanEnter;
      assert EnemyOk(tiles, Crowd()[i]);
      var e := enemies[i];
      var best: Direction;
      ghost var trace, k;
      best, trace, k := Reach.FindPathOnGameMap(tiles, e.pos, player.pos, false);
      assert SearchEnds(Problem(tiles, false, e.pos), player.pos, best, trace, k);
      OpenMeans(Move(e.pos, best));
      var moved := TryEnemyMove(i, best);
      assert enemies[i] == Crowd()[i];
      if moved {
        PutEnemy(i, enemies[i].(ghostTimer := 0));
        assert enemies[i] == Crowd()[i];
        assert WalkTaken(old(Look()), e, enemies[i], best, DirNone);
      } else {
        assert Look() == old(Look());
        var stroll := GetRandomDirection(i);
        if stroll != DirNone {
          StrollIsOpen(e, stroll);
        }
        var _ := TryEnemyMove(i, stroll);
        assert enemies[i] == Crowd()[i];
        assert WalkTaken(old(Look()), e, enemies[i], best, stroll);
      }
    }

    /** Where an enemy strolls, it can go. */
    lemma StrollIsOpen(e: Enemy, dir: Direction)
      requires Sized() && MapOk(tiles) && Strolls(Look(), e, dir) && dir != DirNone
      ensures CanEnter(Move(e.pos, dir))
    {
      OpenMeans(Move(e.pos, dir));
    }

    /** Through the ground towards the player, until a tunnel is reached after leaving one. */
    method GhostMode(i: nat)
      requires Sized() && MapOk(tiles) && CrowdOk(tiles, Crowd()) && Booked() && i < enemyCount && enemies[i].state == Ghost
      modifies enemies
      ensures CrowdOk(tiles, Crowd()) && Booked() && Crowd() == old(Crowd())[i := enemies[i]] && enemies[i].active
      ensures enemies[i].state == Ghost || (enemies[i].state == Normal && tiles.Walkable(enemies[i].pos))
      ensures Haunts(old(Look()), old(enemies[i]), enemies[i])
    {
      hide HasPath, AccountsOk, CrowdOk, Reach.Best, Territory, Searched, Answers, Lossy;
      InhabitantOk(i);
      var e := enemies[i];
      SolidOrWalkable(tiles, e.pos);
      var onTunnel := tiles.Walkable(e.pos);
      if onTunnel && e.leftTunnel {
        PutEnemy(i, e.(state := Normal, ghostTimer := 0, leftTunnel := false));
        assert enemies[i] == Crowd()[i];
        return;
      }
      if !onTunnel && !e.leftTunnel {
        e := e.(leftTunnel := true);
      }
      var best: Direction;
      ghost var trace, k;
      best, trace, k := Reach.FindPathOnGameMap(tiles, e.pos, player.pos, true);
      assert SearchEnds(Problem(tiles, true, e.pos), player.pos, best, trace, k);
      e := GhostStep(e, best);
      assert HauntTaken(old(Look()), old(enemies[i]), e, best);
      PutEnemy(i, e);
      assert enemies[i] == Crowd()[i];
    }

    /** The step of a ghost, which turns normal where it comes out of the ground. */
    method GhostStep(e: Enemy, best: Direction) returns (r: Enemy)
      requires Sized() && MapOk(tiles) && EnemyOk(tiles, e) && e.state == Ghost
      requires !tiles.Walkable(e.pos) ==> e.leftTunnel
      ensures HauntTaken(Look(), e, r, best) && EnemyOk(tiles, r)
      ensures r.state == Ghost || (r.state == Normal && tiles.Walkable(r.pos))
    {
      SolidOrWalkable(tiles, e.pos);
      SolidOrWalkable(tiles, Move(e.pos, best));
      r := e;
      if best != DirNone {
        var p := Move(e.pos, best);
        if tiles.InBounds(p) {
          r := r.(pos := p, dir := best);
          if tiles.Walkable(p) && r.leftTunnel {
            r := r.(state := Normal, ghostTimer := 0, leftTunnel := false);
          }
        }
      }
    }

    /** A paralysed enemy blinks ten times and then dies. */
    method Blink(i: nat)
      requires Sized() && MapOk(tiles) && CrowdOk(tiles, Crowd()) && Booked() && i < enemyCount && enemies[i].state == Paralyzed
      modifies enemies, this`remaining, this`score, this`ledger
      ensures CrowdOk(tiles, Crowd()) && Booked() && Blinks(old(Look()), Look(), i)
    {
      hide AccountsOk, CrowdOk;
      InhabitantOk(i);
      var e := enemies[i];
      if e.paralyzedTimer > 0 {
        PutEnemy(i, e.(paralyzedTimer := e.paralyzedTimer - 1));
      } else if e.blinkCount - 1 <= 0 {
        PutEnemy(i, e.(blinkCount := e.blinkCount - 1));
        InhabitantOk(i);
        KillEnemy(i, Points(e.pos.y));
        assert old(Crowd())[i := e.(blinkCount := e.blinkCount - 1)][i := DeadEnemy(e.(blinkCount := e.blinkCount - 1))]
            == old(Crowd())[i := DeadEnemy(e.(blinkCount := e.blinkCount - 1))];
      } else {
        PutEnemy(i, e.(blinkCount := e.blinkCount - 1, paralyzedTimer := 5));
      }
    }

    /** Looks along the row or the column to the player. */
    method CanSeePlayer(i: nat) returns (seen: bool)
      requires Sized() && MapOk(tiles) && i < enemyCount
      ensures seen <==> Sees(tiles, enemies[i].pos, player.pos)
    {
      var e, p := enemies[i].pos, player.pos;
      if e.y == p.y {
        var x, end := if e.x < p.x then e.x else p.x, if e.x < p.x then p.x else e.x;
        while x <= end
          invariant forall z :: Between(e.x, z, p.x) && z < x ==> tiles.Walkable(Position(z, e.y))
        {
          if !tiles.Walkable(Position(x, e.y)) {
            return false;
          }
          x := x + 1;
        }
        return true;
      }
      if e.x == p.x {
        var y, end := if e.y < p.y then e.y else p.y, if e.y < p.y then p.y else e.y;
        while y <= end
          invariant forall z :: Between(e.y, z, p.y) && z < y ==> tiles.Walkable(Position(e.x, z))
        {
          if !tiles.Walkable(Position(e.x, y)) {
            return false;
          }
          y := y + 1;
        }
        return true;
      }
      return false;
    }

    // A Fygar's fire

    method FireWayClear(p: Position, d: Direction) returns (clear: bool)
      requires MapOk(tiles)
      ensures clear <==> FireWay(tiles, p, d)
    {
      var empty := 0;
      while empty < FIRE_RANGE
        invariant 0 <= empty <= FIRE_RANGE && forall i :: 1 <= i <= empty ==> tiles.Walkable(Ahead(p, d, i))
      {
        var cell := Ahead(p, d, empty + 1);
        if !tiles.InBounds(cell) || !tiles.Walkable(cell) {
          return false;
        }
        empty := empty + 1;
      }
      return true;
    }

    method CheckFireCollision(e: Enemy) returns (hit: bool)
      ensures hit <==> e.fireActive && Scorched(e, player.pos)
    {
      var p := player.pos;
      hit := e.fireActive && e.pos.y == p.y
             && ((e.dir == Right && e.pos.x < p.x <= e.pos.x + FIRE_RANGE) || (e.dir == Left && e.pos.x - FIRE_RANGE <= p.x < e.pos.x));
    }

    method FygarFire(i: nat, now: int)
      requires Sized() && MapOk(tiles) && CrowdOk(tiles, Crowd()) && Booked() && i < enemyCount && enemies[i].active
      modifies enemies, this`player, this`lives, this`timer
      ensures CrowdOk(tiles, Crowd()) && Booked()
      ensures old(enemies[i].fireActive) ==> BurnsOn(old(Look()), Look(), i, now)
      ensures !old(enemies[i].fireActive) ==> Ignited(old(Look()), Look(), i, now)
    {
      hide AccountsOk, FireWay;
      assert EnemyOk(tiles, Crowd()[i]);
      var e := enemies[i];
      if e.fireActive {
        if now - e.fireStart >= FIRE_DURATION {
          PutEnemy(i, e.(fireActive := false, fireEnd := now));
        } else {
          var hit := CheckFireCollision(e);
          if hit {
            PlayerDie();
          }
        }
        return;
      }
      if e.fireEnd > 0 && now - e.fireEnd < FIRE_COOLDOWN {
        return;
      }
      var dir := if player.pos.x - e.pos.x >= 0 then Right else Left;
      var clear := FireWayClear(e.pos, dir);
      if !clear {
        dir := if dir == Right then Left else Right;
        clear := FireWayClear(e.pos, dir);
      }
      if clear {
        PutEnemy(i, e.(fireActive := true, fireStart := now, dir := dir));
      }
    }

    method EnemyAi(i: nat)
      requires Sized() && MapOk(tiles) && CrowdOk(tiles, Crowd()) && Booked() && i < enemyCount && Due(i)
      modifies enemies
      ensures CrowdOk(tiles, Crowd()) && Booked() && Crowd() == old(Crowd())[i := enemies[i]]
      ensures enemies[i].active && (enemies[i].state == Normal || (enemies[i].state == Ghost && old(enemies[i].state) == Ghost))
      ensures Steps(old(Look()), old(enemies[i]), enemies[i])
    {
      hide AccountsOk, Haunts, Walks;
      assert EnemyOk(tiles, Crowd()[i]);
      if enemies[i].state == Ghost {
        GhostMode(i);
      } else {
        MoveTowardsPlayer(i);
      }
    }

    /** Moves an enemy that is due, and turns it into a ghost if it has been stuck for too long. */
    method EnemyTurn(i: nat) returns (ghost moved: Enemy)
      requires Sized() && MapOk(tiles) && CrowdOk(tiles, Crowd()) && Booked() && i < enemyCount && Due(i)
      modifies enemies
      ensures CrowdOk(tiles, Crowd()) && Booked() && enemies[i].active
      ensures Steps(old(Look()), old(enemies[i]), moved)
      ensures Look() == old(Look()).(enemies := old(Crowd())[i := Rested(old(Look()), moved)])
    {
      hide AccountsOk, Sees, Steps;
      EnemyAi(i);
      assert EnemyOk(tiles, Crowd()[i]);
      var e := enemies[i];
      moved := e;
      e := e.(speedCounter := e.speedLimit, ghostTimer := e.ghostTimer + 1);
      if e.ghostTimer > GHOST_MODE_THRESHOLD && e.state == Normal {
        var seen := CanSeePlayer(i);
        if !seen {
          e := e.(state := Ghost, leftTunnel := false);
        }
      }
      PutEnemy(i, e);
    }

    /** The enemy walks or haunts. */
    ghost predicate Due(i: nat)
      requires Sized() && i < enemyCount
      reads this`enemyCount, this`rockCount, enemies
    {
      enemies[i].state == Normal || enemies[i].state == Ghost
    }

    method UpdateEnemy(i: nat, now: int)
      requires Sized() && MapOk(tiles) && CrowdOk(tiles, Crowd()) && Booked() && i < enemyCount
      modifies enemies, this`remaining, this`score, this`ledger, this`player, this`lives, this`timer
      ensures CrowdOk(tiles, Crowd()) && Booked() && TakesTurn(old(Look()), Look(), i, now)
    {
      hide AccountsOk, Ignites, Steps, Rested, Blinks, BurnsOn;
      assert EnemyOk(tiles, Crowd()[i]) && Crowd()[i] == enemies[i];
      var e := enemies[i];
      if !e.active || e.state == Dead {
        return;
      }
      if e.state == Paralyzed {
        Blink(i);
        return;
      }
      if e.state == Inflating {
        if !player.pumping {
          EnemyDeflate(i);
        }
        return;
      }
      if e.speedCounter > 0 {
        PutEnemy(i, e.(speedCounter := e.speedCounter - 1));
        return;
      }
      if e.fygar {
        FygarFire(i, now);
        assert enemies[i] == Look().enemies[i];
        if e.fireActive || enemies[i].fireActive {
          return;
        }
      }
      ghost var _ := EnemyTurn(i);
    }

    method UpdateEnemies(clock: seq<int>)
      requires Sized() && MapOk(tiles) && CrowdOk(tiles, Crowd()) && Booked()
      modifies enemies, this`remaining, this`score, this`ledger, this`player, this`lives, this`timer
      ensures CrowdOk(tiles, Crowd()) && Booked() && DeadStay(old(Crowd()), Crowd()) && old(ledger) <= ledger
      ensures player.pos == old(player.pos)
      ensures EnemyTick(old(Look()), Look(), clock)
    {
      hide AccountsOk, CrowdOk, TakeTurns, TakesTurn, DeadStay;
      ghost var ws := [Look()];
      NoTurnYet(Look(), clock);
      for i := 0 to enemyCount
        invariant CrowdOk(tiles, Crowd()) && Booked()
        invariant |ws| == i + 1 && ws[0] == old(Look()) && ws[i] == Look() && TakeTurns(ws, clock, i)
      {
        UpdateEnemy(i, ClockAt(clock, i));
        NextTurn(ws, clock, i, Look());
        ws := ws + [Look()];
      }
      TurnsKeep(ws, clock, enemyCount);
    }

    // A tick of the rocks

    /** Everybody under a falling rock: the player loses a life, enemies die for twice their points. */
    method RockCrush(at: Position)
      requires Sized() && MapOk(tiles) && CrowdOk(tiles, Crowd()) && Booked()
      modifies enemies, this`remaining, this`score, this`ledger, this`player, this`lives, this`timer
      ensures CrowdOk(tiles, Crowd()) && Booked() && Crushes(old(Look()), Look(), at)
    {
      hide AccountsOk, CrowdOk, Crushes, Crushings;
      if player.pos == at {
        PlayerDie();
      }
      if player.pos == Move(at, Down) {
        PlayerDie();
      }
      ghost var mid := Look();
      CrushEnemies(at);
      CrushesAll(old(Look()), mid, Look(), at);
    }

    method CrushEnemies(at: Position)
      requires Sized() && MapOk(tiles) && CrowdOk(tiles, Crowd()) && Booked()
      modifies enemies, this`remaining, this`score, this`ledger
      ensures CrowdOk(tiles, Crowd()) && Booked() && ledger == old(ledger) + Crushings(old(Crowd()), at, |old(Crowd())|)
      ensures forall i :: 0 <= i < enemyCount ==> Crowd()[i] == Crushed(old(Crowd())[i], at)
    {
      hide AccountsOk, CrowdOk, Crushed, Under;
      for i := 0 to enemyCount
        invariant CrowdOk(tiles, Crowd()) && Booked() && ledger == old(ledger) + Crushings(old(Crowd()), at, i)
        invariant forall j :: 0 <= j < enemyCount ==> Crowd()[j] == if j < i then Crushed(old(Crowd())[j], at) else old(Crowd())[j]
      {
        assert enemies[i] == Crowd()[i] == old(Crowd())[i];
        CrushEnemy(i, at);
      }
    }

    method CrushEnemy(i: nat, at: Position)
      requires Sized() && MapOk(tiles) && CrowdOk(tiles, Crowd()) && Booked() && i < enemyCount
      modifies enemies, this`remaining, this`score, this`ledger
      ensures CrowdOk(tiles, Crowd()) && Booked() && Crowd() == old(Crowd())[i := Crushed(old(enemies[i]), at)]
      ensures ledger == if old(enemies[i].active) && Under(at, old(enemies[i].pos))
                        then old(ledger) + [Kill(i, 2 * Points(old(enemies[i]).pos.y))] else old(ledger)
    {
      assert EnemyOk(tiles, Crowd()[i]);
      if enemies[i].active && enemies[i].state != Dead && Under(at, enemies[i].pos) {
        KillEnemy(i, Points(enemies[i].pos.y) * ROCK_KILL_MULTIPLIER);
      }
    }

    method UpdateRock(i: nat)
      requires Sized() && MapOk(tiles) && CrowdOk(tiles, Crowd()) && Booked() && i < rockCount
      modifies rocks, enemies, this`remaining, this`score, this`ledger, this`player, this`lives, this`timer
      ensures CrowdOk(tiles, Crowd()) && Booked() && RockTurn(old(Look()), Look(), i)
      ensures rocks[i] == Updated(old(rocks[i]), Blocked(tiles, old(rocks[i].pos)))
    {
      hide AccountsOk, CrowdOk, Crushes;
      var rock := rocks[i];
      OneAfter(rock, Blocked(tiles, rock.pos));
      ghost var w, mid := Look(), Look();
      if !rock.active {
        RockTurned(w, mid, Look(), i);
        return;
      }
      match rock.state
      case Stable =>
        var below := Move(rock.pos, Down);
        if tiles.InBounds(below) && !tiles.Solid(below) {
          rocks[i] := rock.(state := Wobbling, wobble := ROCK_WOBBLE_TICKS);
        }
      case Wobbling =>
        rocks[i] := rock.(wobble := rock.wobble - 1);
        if rocks[i].wobble <= 0 {
          rocks[i] := rocks[i].(state := Falling);
        }
      case Falling =>
        var below := Move(rock.pos, Down);
        if !tiles.InBounds(below) || tiles.Solid(below) {
          rocks[i] := rock.(state := Blinking, blinkCount := ROCK_BLINK_COUNT, blinkTimer := ROCK_BLINK_DURATION);
        } else {
          RockCrush(rock.pos);
          mid := Look();
          rocks[i] := rocks[i].(pos := below);
        }
      case Blinking =>
        rocks[i] := rock.(blinkTimer := rock.blinkTimer - 1);
        if rocks[i].blinkTimer <= 0 {
          rocks[i] := rocks[i].(blinkCount := rocks[i].blinkCount - 1);
          if rocks[i].blinkCount <= 0 {
            rocks[i] := rocks[i].(state := Landed, active := false);
          } else {
            rocks[i] := rocks[i].(blinkTimer := ROCK_BLINK_DURATION);
          }
        }
      case Landed =>
        rocks[i] := rock.(active := false);
      RockTurned(w, mid, Look(), i);
    }

    /** Every rock takes exactly one update, for the map as it is. */
    method UpdateRocks()
      requires Sized() && MapOk(tiles) && CrowdOk(tiles, Crowd()) && Booked() && RocksOk()
      modifies rocks, enemies, this`remaining, this`score, this`ledger, this`player, this`lives, this`timer
      ensures CrowdOk(tiles, Crowd()) && Booked() && RocksOk() && DeadStay(old(Crowd()), Crowd()) && old(ledger) <= ledger
      ensures player.pos == old(player.pos) && RockTick(old(Look()), Look())
      ensures forall i :: 0 <= i < rockCount ==> rocks[i] == Updated(old(rocks[i]), Blocked(tiles, old(rocks[i].pos)))
    {
      hide AccountsOk, CrowdOk, Updated, RockTurns, RockTurn, DeadStay, Blocked;
      ghost var ws := [Look()];
      NoRockYet(Look());
      for i := 0 to rockCount
        invariant CrowdOk(tiles, Crowd()) && Booked()
        invariant |ws| == i + 1 && ws[0] == old(Look()) && ws[i] == Look() && RockTurns(ws, i)
      {
        UpdateRock(i);
        NextRock(ws, i, Look());
        ws := ws + [Look()];
      }
      RockTurnsKeep(ws, rockCount);
      forall i | 0 <= i < rockCount
        ensures Rocks.Ok(rocks[i]) && rocks[i] == Updated(old(rocks[i]), Blocked(tiles, old(rocks[i].pos)))
      {
        assert rocks[i] == Look().rocks[i] && old(rocks[i]) == ws[0].rocks[i];
        UpdateIsOk(old(rocks[i]));
      }
    }

    lemma UpdateIsOk(r: Rock)
      requires MapOk(tiles) && Rocks.Ok(r)
      ensures Rocks.Ok(Updated(r, Blocked(tiles, r.pos)))
    {
      OneUpdate(r, Blocked(tiles, r.pos));
    }

    // Rounds

    /** The round ends, after a wait, only when no enemy is left. */
    method CheckRoundComplete(now: int)
      requires Sized() && Booked()
      modifies this`clearedAt, this`scene, this`timer
      ensures scene != old(scene) ==> forall i :: 0 <= i < enemyCount ==> !enemies[i].active
      ensures clearedAt == if remaining <= 0 && old(clearedAt) == 0 then now + CLEARED_WAIT else old(clearedAt)
      ensures scene == if remaining > 0 || clearedAt > now then old(scene) else if round >= MAX_ROUNDS then Victory else RoundClear
      ensures timer == if remaining > 0 || clearedAt > now || round >= MAX_ROUNDS then old(timer) else LEVEL_CLEAR_DELAY
      ensures remaining > 0 <==> exists i :: 0 <= i < enemyCount && Crowd()[i].active
    {
      NoneActive(Crowd());
      if remaining <= 0 {
        assert forall i :: 0 <= i < enemyCount ==> enemies[i] == Crowd()[i];
        if clearedAt == 0 {
          clearedAt := now + CLEARED_WAIT;
        }
        if clearedAt - now <= 0 {
          if round >= MAX_ROUNDS {
            scene := Victory;
          } else {
            scene := RoundClear;
            timer := LEVEL_CLEAR_DELAY;
          }
        }
      }
    }

    method CheckGameOver()
      modifies this`scene
      ensures scene == if lives <= 0 then GameOver else old(scene)
    {
      if lives <= 0 {
        scene := GameOver;
      }
    }

    lemma RemainingMeans()
      requires Sized() && Booked()
      ensures remaining >= 0 && (remaining == 0 <==> forall i :: 0 <= i < |Crowd()| ==> !Crowd()[i].active)
    {
      NoneActive(Crowd());
    }

    method FirstActive() returns (i: int)
      requires Sized() && MapOk(tiles) && CrowdOk(tiles, Crowd())
      ensures -1 <= i < enemyCount && (i >= 0 ==> enemies[i].active)
      ensures forall j :: 0 <= j < (if i == -1 then |Crowd()| else i) ==> !Crowd()[j].active
    {
      for k := 0 to enemyCount
        invariant forall j :: 0 <= j < k ==> !Crowd()[j].active
      {
        assert EnemyOk(tiles, Crowd()[k]);
        if enemies[k].active && enemies[k].state != Dead {
          return k;
        }
      }
      return -1;
    }

    /** The development key: the first active enemy dies and is paid. */
    method DevKillEnemy() returns (killed: bool)
      requires Sized() && MapOk(tiles) && CrowdOk(tiles, Crowd()) && Booked()
      modifies enemies, this`remaining, this`score, this`ledger
      ensures CrowdOk(tiles, Crowd()) && Booked() && DeadStay(old(Crowd()), Crowd()) && old(ledger) <= ledger
      ensures killed <==> old(remaining) > 0
      ensures remaining == if killed then old(remaining) - 1 else old(remaining)
      ensures DevKills(old(Look()), Look())
    {
      hide DevKills, CrowdOk, AccountsOk;
      RemainingMeans();
      var i := FirstActive();
      killed := i >= 0;
      if killed {
        assert Crowd()[i] == enemies[i];
        KillEnemy(i, Points(enemies[i].pos.y));
        FirstIsKilled(old(Look()), Look(), i);
      } else {
        NobodyIsKilled(Look());
      }
    }

    lemma InhabitantOk(i: nat)
      requires Sized() && MapOk(tiles) && CrowdOk(tiles, Crowd()) && i < enemyCount
      ensures EnemyOk(tiles, enemies[i]) && Crowd()[i] == enemies[i]
    {
      assert EnemyOk(tiles, Crowd()[i]);
    }

    /** Gone is gone: the map is only dug, dead enemies stay dead, awards are kept and rocks go forward. */
    twostate predicate Onward()
      requires old(Valid())
      reads this, enemies, rocks
    {
      && Dug(old(tiles), tiles) && old(ledger) <= ledger && carried == old(carried) && earlier == old(earlier)
      && Sized() && enemyCount == old(enemyCount) && rockCount == old(rockCount) && DeadStay(old(Crowd()), Crowd())
      && forall i :: 0 <= i < rockCount ==> RockForward(old(rocks[i]), rocks[i])
    }

    /** The player waits to come back; nothing else moves. */
    method Wait()
      requires Valid()
      modifies this`timer, this`player
      ensures Valid() && timer == old(timer) - 1
      ensures player == if timer == 0 && old(player.state) == Lost && lives > 0 then NewPlayer(PLAYER_START) else old(player)
      ensures Waited(old(Look()), Look())
    {
      hide AccountsOk, CrowdOk;
      timer := timer - 1;
      if timer == 0 {
        if player.state == Lost && lives > 0 {
          player := NewPlayer(PLAYER_START);
        }
      }
    }

    method MoveEverybody(clock: seq<int>) returns (ghost walked: World, ghost met: World)
      requires Valid()
      modifies this`tiles, this`player, this`score, this`ledger, this`remaining, this`lives, this`timer, enemies, rocks
      ensures Valid() && Onward()
      ensures PlayerTick(old(Look()), walked) && EnemyTick(walked, met, clock) && RockTick(met, Look())
    {
      hide AccountsOk, CrowdOk, Dug, Updated, RockForward, PlayerTick, EnemyTick, RockTick;
      UpdatePlayer();
      walked := Look();
      UpdateEnemies(clock);
      met := Look();
      UpdateRocks();
      RocksForward();
    }

    /** One update of the running game. */
    method LogicUpdate(now: int, clock: seq<int>)
      requires Valid() && scene == Playing
      modifies this, enemies, rocks
      ensures Valid() && Onward()
      ensures scene == RoundClear || scene == Victory ==> forall i :: 0 <= i < enemyCount ==> !enemies[i].active
      ensures Updates(old(Look()), Look(), now, clock)
    {
      hide AccountsOk, CrowdOk, Dug, RockForward, Waited, PlayerTick, EnemyTick, RockTick, Judged;
      if timer > 0 {
        Wait();
        SameRocks();
        NothingDug(tiles);
        return;
      }
      time := time + 1;
      ghost var walked, met := MoveEverybody(clock);
      Judge(now);
    }

    method Judge(now: int)
      requires Sized() && Booked() && scene == Playing
      modifies this`clearedAt, this`scene, this`timer
      ensures Judged(old(Look()), Look(), now)
      ensures scene == RoundClear || scene == Victory ==> forall i :: 0 <= i < enemyCount ==> !enemies[i].active
    {
      hide AccountsOk;
      CheckRoundComplete(now);
      CheckGameOver();
    }

    twostate lemma SameRocks()
      requires old(Sized()) && rockCount == old(rockCount) && unchanged(rocks)
      ensures forall i :: 0 <= i < rockCount ==> RockForward(old(rocks[i]), rocks[i])
    {
    }

    twostate lemma RocksForward()
      requires old(Sized()) && Sized() && rockCount == old(rockCount) && old(RocksOk()) && tiles.Valid() && tiles.height == MAP_HEIGHT
      requires forall i :: 0 <= i < rockCount ==> rocks[i] == Updated(old(rocks[i]), Blocked(tiles, old(rocks[i].pos)))
      ensures forall i :: 0 <= i < rockCount ==> RockForward(old(rocks[i]), rocks[i])
    {
      forall i | 0 <= i < rockCount
        ensures RockForward(old(rocks[i]), rocks[i])
      {
        OneUpdate(old(rocks[i]), Blocked(tiles, old(rocks[i].pos)));
      }
    }

    // Levels and runs

    /** Loads a level; the score and the time at which the last round was cleared stay. */
    method LoadLevel(r: int)
      requires enemies.Length == MAX_ENEMIES && rocks.Length == MAX_ROCKS && 0 <= score <= MAX_SCORE
      modifies this`tiles, this`player, this`enemyCount, this`remaining, this`rockCount, this`round, this`earlier, this`carried, this`ledger, enemies, rocks
      ensures Valid() && carried == score && ledger == [] && earlier == old(earlier + ledger) && round == r && remaining == enemyCount == |LevelOf(r).enemies|
      ensures player == NewPlayer(LevelOf(r).start) && rockCount == |LevelOf(r).rocks|
      ensures forall p :: tiles.InBounds(p) ==> tiles.TileAt(p) == LevelTile(LevelOf(r), p)
      ensures forall i :: 0 <= i < enemyCount ==> enemies[i] == Spawned(LevelOf(r).enemies[i], r)
      ensures forall i :: 0 <= i < rockCount ==> rocks[i] == NewRock(LevelOf(r).rocks[i])
    {
      LevelsAreOk(r);
      hide LevelOf, AccountsOk, CrowdOk, LevelTile, MapOk, PlayerOk, Spawned, NewRock, Rocks.Ok;
      var level := LevelOf(r);
      tiles := LoadMap(level);
      player := NewPlayer(level.start);
      SpawnEnemies(level, r);
      SpawnRocks(level);
      enemyCount, remaining, rockCount, round := |level.enemies|, |level.enemies|, |level.rocks|, r;
      earlier, carried, ledger := earlier + ledger, score, [];
      FreshRound(tiles, Crowd(), level, r, score);
    }

    method SpawnEnemies(level: Level, r: int)
      requires enemies.Length == MAX_ENEMIES && |level.enemies| <= MAX_ENEMIES
      modifies enemies
      ensures forall i :: 0 <= i < |level.enemies| ==> enemies[i] == Spawned(level.enemies[i], r)
      ensures forall i :: |level.enemies| <= i < MAX_ENEMIES ==> !enemies[i].active
    {
      for i := 0 to |level.enemies|
        invariant forall j :: 0 <= j < i ==> enemies[j] == Spawned(level.enemies[j], r)
      {
        enemies[i] := Spawned(level.enemies[i], r);
      }
      for i := |level.enemies| to MAX_ENEMIES
        invariant forall j :: 0 <= j < |level.enemies| ==> enemies[j] == Spawned(level.enemies[j], r)
        invariant forall j :: |level.enemies| <= j < i ==> !enemies[j].active
      {
        enemies[i] := enemies[i].(active := false);
      }
    }

    method SpawnRocks(level: Level)
      requires rocks.Length == MAX_ROCKS && |level.rocks| <= MAX_ROCKS
      requires forall i :: 0 <= i < |level.rocks| ==> InGround(level.rocks[i])
      modifies rocks
      ensures forall i :: 0 <= i < |level.rocks| ==> rocks[i] == NewRock(level.rocks[i]) && Rocks.Ok(rocks[i])
    {
      for i := 0 to |level.rocks|
        invariant forall j :: 0 <= j < i ==> rocks[j] == NewRock(level.rocks[j])
      {
        rocks[i] := NewRock(level.rocks[i]);
      }
      for i := |level.rocks| to MAX_ROCKS
        invariant forall j :: 0 <= j < |level.rocks| ==> rocks[j] == NewRock(level.rocks[j])
      {
        rocks[i] := rocks[i].(active := false);
      }
    }

    /** One frame of play. */
    method Frame(input: Input)
      requires Valid() && scene == Playing
      modifies this, enemies, rocks
      ensures Valid() && Onward()
      ensures scene == RoundClear || scene == Victory ==> forall i :: 0 <= i < enemyCount ==> !enemies[i].active
      ensures FrameTick(old(Look()), Look(), input)
    {
      hide AccountsOk, CrowdOk, Dug, RockForward, Keyed, Updates;
      NothingDug(tiles);
      Prepare(input);
      LogicUpdate(input.now, input.clock);
    }

    /** The keys: development kill, direction, pump and attack. */
    method Prepare(input: Input)
      requires Valid()
      modifies this`player, this`remaining, this`score, this`ledger, enemies
      ensures Valid() && DeadStay(old(Crowd()), Crowd()) && old(ledger) <= ledger && carried == old(carried)
      ensures Keyed(old(Look()), Look(), input)
    {
      hide AccountsOk, CrowdOk, DevKills, Attacks;
      if input.devKill {
        var _ := DevKillEnemy();
      }
      ghost var killed := Look();
      Steer(input);
      ghost var steered := Look();
      if input.attack {
        Attack();
      } else if input.attackHeld && player.attacking {
        player := player.(attackTimer := ATTACK_DISPLAY_TIME);
      }
      assert KeyByKey(old(Look()), killed, steered, Look(), input);
    }

    method Steer(input: Input)
      requires Sized()
      modifies this`player
      ensures player == old(player).(dir := if input.dir != DirNone then input.dir else old(player.dir), pumping := input.pumping)
    {
      if input.dir != DirNone {
        player := player.(dir := input.dir);
      }
      player := player.(pumping := input.pumping);
    }

    /** Between two rounds the score stays and the awards move to the earlier ones. */
    method NextLevel(r: int)
      requires Valid() && CarriedOver(earlier, carried)
      modifies this, enemies, rocks
      ensures Valid() && CarriedOver(earlier, carried) && earlier + ledger == old(earlier + ledger)
      ensures Loaded(old(Look()), Look(), r)
    {
      hide AccountsOk, CrowdOk, CarriedOver, PlayerOk, LevelOf, Spawned, NewRock, LevelTile;
      Meaning();
      ScoreOfGame(Crowd(), remaining, score, earlier, carried, ledger);
      LoadLevel(r);
      timer, scene := 0, Playing;
    }

    method Advance(step: Step)
      requires Valid() && CarriedOver(earlier, carried)
      modifies this, enemies, rocks
      ensures Valid() && CarriedOver(earlier, carried)
      ensures old(earlier + ledger) <= earlier + ledger && Happens(old(Look()), Look(), step)
    {
      hide AccountsOk, CrowdOk, CarriedOver, PlayerOk, Rocks.Ok, FrameTick, Loaded;
      match step
      case Start(r) =>
        NextLevel(r);
      case Play(input) =>
        if scene == Playing {
          Frame(input);
        }
    }

    lemma Meaning()
      requires Valid()
      ensures InPlay(player.pos) && tiles.Walkable(player.pos)
      ensures forall i :: 0 <= i < enemyCount ==>
                && tiles.InBounds(enemies[i].pos) && (enemies[i].active <==> enemies[i].state != Dead)
                && (enemies[i].active ==> enemies[i].state == Ghost || tiles.Walkable(enemies[i].pos))
                && Kills(ledger, i) == if enemies[i].active then 0 else 1
      ensures remaining == ActiveCount(Crowd()) && 0 <= score == Capped(carried + Total(ledger)) <= MAX_SCORE
    {
      assert forall i :: 0 <= i < enemyCount ==> enemies[i] == Crowd()[i];
    }
  }

  /**
   Every game from the first round on goes by the rules, step by step. In it the player is inside the field on free
   ground, every enemy is on the map and, unless it is a ghost or dead, on free ground; the counter counts the
   active enemies, each dead one was paid once, and the score is the capped sum of all awards.
   */
  method PlayGame(steps: seq<Step>) returns (g: GameState, ghost history: seq<World>)
    ensures g.Valid() && InPlay(g.player.pos) && g.tiles.Walkable(g.player.pos)
    ensures forall i :: 0 <= i < g.enemyCount ==>
              && g.tiles.InBounds(g.enemies[i].pos) && (g.enemies[i].active <==> g.enemies[i].state != Dead)
              && (g.enemies[i].active ==> g.enemies[i].state == Ghost || g.tiles.Walkable(g.enemies[i].pos))
              && Kills(g.ledger, i) == if g.enemies[i].active then 0 else 1
    ensures g.remaining == ActiveCount(g.Crowd()) && g.score == Capped(Total(g.earlier + g.ledger)) <= MAX_SCORE
    ensures steps == [] ==> g.earlier == g.ledger == []
    ensures |history| == |steps| + 1 && FirstRound(history[0]) && history[|steps|] == g.Look()
    ensures forall i :: 0 <= i < |steps| ==> Happens(history[i], history[i + 1], steps[i])
  {
    hide AccountsOk, CrowdOk, MapOk, Happens, FirstRound;
    g := StartGame();
    history := [g.Look()];
    for i := 0 to |steps|
      invariant g.Valid() && fresh(g) && fresh(g.enemies) && fresh(g.rocks)
      invariant CarriedOver(g.earlier, g.carried) && (i == 0 ==> g.earlier == g.ledger == [])
      invariant |history| == i + 1 && FirstRound(history[0]) && history[i] == g.Look()
      invariant forall j :: 0 <= j < i ==> Happens(history[j], history[j + 1], steps[j])
    {
      g.Advance(steps[i]);
      history := history + [g.Look()];
    }
    g.Meaning();
    ScoreOfGame(g.Crowd(), g.remaining, g.score, g.earlier, g.carried, g.ledger);
  }

  method StartGame() returns (g: GameState)
    ensures fresh(g) && fresh(g.enemies) && fresh(g.rocks) && g.Valid() && CarriedOver(g.earlier, g.carried)
    ensures g.earlier == g.ledger == [] && FirstRound(g.Look())
  {
    hide AccountsOk, CrowdOk, LevelOf, LevelTile, Spawned, NewRock;
    g := new GameState();
    g.LoadLevel(1);
  }
}
