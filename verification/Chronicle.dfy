/**
 What the rules amount to over many frames of a game.

 The laws here are about histories: worlds in which each follows from the one before by a step of the game, as the
 game machine plays it.
 */
module Chronicle {
  import opened Grid
  import opened GameModel
  import opened Rocks
  import opened Rules

  /** Frames played one after the other, without loading a level in between. */
  ghost predicate Plays(ws: seq<World>, inputs: seq<Input>) {
    |ws| == |inputs| + 1 && forall k :: 0 <= k < |inputs| ==> Happens(ws[k], ws[k + 1], Play(inputs[k]))
  }

  /** Something moves in the frame: the game is on and the timer does not run. */
  predicate Moves(w: World) {
    w.scene == Playing && w.timer <= 0
  }

  /** How many of the first n frames move. */
  function Moving(ws: seq<World>, n: nat): (r: nat)
    requires n <= |ws|
    ensures r <= n
  {
    if n == 0 then 0 else Moving(ws, n - 1) + if Moves(ws[n - 1]) then 1 else 0
  }

  lemma {:induction false} MovingInPrefix(ws: seq<World>, m: nat, n: nat)
    requires n <= m <= |ws|
    ensures Moving(ws[..m], n) == Moving(ws, n)
  {
    if n > 0 {
      MovingInPrefix(ws, m, n - 1);
    }
  }

  // One frame

  /** The keys change the player's wishes and the enemies that are hit, and nothing else. */
  lemma KeysKeep(w: World, a: World, input: Input)
    requires w.tiles.Valid() && Keyed(w, a, input)
    ensures a.tiles == w.tiles && a.rocks == w.rocks && a.lives == w.lives && a.timer == w.timer && a.time == w.time
    ensures a.scene == w.scene && a.round == w.round && a.clearedAt == w.clearedAt && a.player.pos == w.player.pos
    ensures a.player.pumping == input.pumping && a.player.speedCounter == w.player.speedCounter
    ensures a.player.state == Lost <==> w.player.state == Lost
    ensures DeadStay(w.enemies, a.enemies) && w.ledger <= a.ledger
    ensures forall i :: 0 <= i < |w.enemies| && w.enemies[i].state == Paralyzed ==>
              a.enemies[i] == w.enemies[i] || a.enemies[i] == DeadEnemy(w.enemies[i])
    ensures w.player.state == Lost && !input.devKill ==> a.enemies == w.enemies && a.ledger == w.ledger
  {
    hide Flies, Reached;
    var b, c :| KeyByKey(w, b, c, a, input);
    if input.devKill {
      DevKillKeeps(w, b);
    }
    assert DeadStay(w.enemies, b.enemies) && w.ledger <= b.ledger;
  }

  lemma DevKillKeeps(w: World, w': World)
    requires DevKills(w, w')
    ensures w' == w.(enemies := w'.enemies, ledger := w'.ledger) && |w'.enemies| == |w.enemies| && w.ledger <= w'.ledger
    ensures forall i :: 0 <= i < |w.enemies| ==> w'.enemies[i] == w.enemies[i] || (w.enemies[i].active && w'.enemies[i] == DeadEnemy(w.enemies[i]))
  {
    if exists i :: 0 <= i < |w.enemies| && w.enemies[i].active {
      var i := FirstActive(w.enemies, 0);
    }
  }

  lemma FirstActive(es: seq<Enemy>, from: nat) returns (i: nat)
    requires exists j :: from <= j < |es| && es[j].active
    requires forall j :: 0 <= j < from <= |es| ==> !es[j].active
    ensures i < |es| && es[i].active && forall j :: 0 <= j < i ==> !es[j].active
    decreases |es| - from
  {
    i := from;
    if !es[from].active {
      i := FirstActive(es, from + 1);
    }
  }

  /** A turn is the enemy's own: it changes no other enemy. */
  lemma TurnIsOwn(w: World, w': World, i: int, now: int)
    requires w.tiles.Valid() && 0 <= i < |w.enemies| && TakesTurn(w, w', i, now)
    ensures |w'.enemies| == |w.enemies| && forall j :: 0 <= j < |w.enemies| && j != i ==> w'.enemies[j] == w.enemies[j]
    ensures w'.timer == w.timer || (w'.timer == RESPAWN_DELAY && w.lives > 1 && w'.lives == w.lives - 1)
    ensures w' == w.(player := w'.player, enemies := w'.enemies, lives := w'.lives, timer := w'.timer, ledger := w'.ledger)
    ensures w'.player.speedCounter == w.player.speedCounter
  {
    hide Steps, Rested, Ignites;
  }

  /** At its turn an enemy is as the tick found it, and the turns after it leave it as its own turn left it. */
  lemma {:induction false} TurnsAreOwn(ws: seq<World>, clock: seq<int>, n: nat, j: nat)
    requires TakeTurns(ws, clock, n) && j < |ws[0].enemies|
    ensures |ws[n].enemies| == |ws[0].enemies| && (n <= j ==> ws[n].enemies[j] == ws[0].enemies[j])
    ensures j < n ==> j < |ws[j].enemies| && j < |ws[j + 1].enemies| && ws[j].enemies[j] == ws[0].enemies[j] && ws[j + 1].enemies[j] == ws[n].enemies[j]
    decreases n
  {
    hide TakesTurn;
    if n > 0 {
      var before := ws[..n];
      TurnsAreOwn(before, clock, n - 1, j);
      TurnIsOwn(ws[n - 1], ws[n], n - 1, ClockAt(clock, n - 1));
    }
  }

  /** In a tick every enemy takes exactly one turn, from the state the tick found it in to the one the tick leaves it in. */
  lemma OneTurnEach(w: World, w': World, clock: seq<int>, i: int) returns (u: World, u': World)
    requires EnemyTick(w, w', clock) && 0 <= i < |w.enemies|
    ensures u.tiles.Valid() && i < |u.enemies| && TakesTurn(u, u', i, ClockAt(clock, i))
    ensures |w'.enemies| == |w.enemies| && i < |u'.enemies| && u.enemies[i] == w.enemies[i] && u'.enemies[i] == w'.enemies[i]
    ensures u.tiles == w.tiles == w'.tiles && u.rocks == w.rocks == w'.rocks && u.player.pos == w.player.pos == w'.player.pos
  {
    hide TakesTurn;
    var ws :| TakeTurns(ws, clock, |w.enemies|) && ws[0] == w && ws[|w.enemies|] == w';
    TurnsAreOwn(ws, clock, |w.enemies|, i);
    TurnsKeep(ws, clock, |w.enemies|);
    TakeTurnsPrefix(ws, clock, |w.enemies|, i);
    TurnsKeep(ws[..i + 1], clock, i);
    u, u' := ws[i], ws[i + 1];
  }

  lemma TakeTurnsPrefix(ws: seq<World>, clock: seq<int>, n: nat, m: nat)
    requires TakeTurns(ws, clock, n) && m <= n
    ensures TakeTurns(ws[..m + 1], clock, m)
  {
    hide TakesTurn;
  }

  /** The player's tick changes enemies only by the pump, and keeps the rocks. */
  lemma PlayerKeeps(w: World, w': World)
    requires w.tiles.Valid() && PlayerTick(w, w')
    ensures w'.tiles.Valid() && w'.rocks == w.rocks && w'.scene == w.scene && DeadStay(w.enemies, w'.enemies) && w.ledger <= w'.ledger
    ensures !w.player.pumping ==> w'.enemies == w.enemies
    ensures w.player.speedCounter > 0 && w.player.state != Lost ==> w'.player.pos == w.player.pos && w'.player.speedCounter == w.player.speedCounter - 1
  {
    hide Walked, Stroke, Caught, Hit;
    if w.player.state != Lost {
      var a, b, c :| Walked(w, a) && CountedDown(a, b) && Stroke(b, c) && Collided(c, w');
      WalkKeeps(w, a);
      StrokeKeeps(b, c);
    }
  }

  lemma WalkKeeps(w: World, w': World)
    requires w.tiles.Valid() && Walked(w, w')
    ensures w'.tiles.Valid() && w.ledger <= w'.ledger && w'.player.pumping == w.player.pumping
    ensures w' == w.(tiles := w'.tiles, player := w'.player, ledger := w'.ledger)
    ensures w.player.speedCounter > 0 ==> w'.player.pos == w.player.pos && w'.player.speedCounter == w.player.speedCounter
  {
    hide Diggable;
  }

  lemma StrokeKeeps(w: World, w': World)
    requires Stroke(w, w')
    ensures w'.player == w.player.(state := w'.player.state, pumpDir := w'.player.pumpDir, pumpLength := w'.player.pumpLength)
    ensures w' == w.(player := w'.player, enemies := w'.enemies, ledger := w'.ledger) && w.ledger <= w'.ledger
    ensures DeadStay(w.enemies, w'.enemies) && (!w.player.pumping ==> w'.enemies == w.enemies)
  {
    var p := w.player;
    if p.pumping {
      var u := w.(player := p.(state := Pumping, pumpDir := DirNone, pumpLength := if p.pumpLength < 4 then p.pumpLength + 1 else p.pumpLength));
      PumpKeeps(u, w');
    }
  }

  lemma PumpKeeps(w: World, w': World)
    requires Pumps(w, w')
    ensures w' == w.(enemies := w'.enemies, ledger := w'.ledger) && w.ledger <= w'.ledger && DeadStay(w.enemies, w'.enemies)
  {
    if exists i :: 0 <= i < |w.enemies| && LivesAt(w.enemies[i], w.player.pos) {
      var i := FirstHere(w.enemies, w.player.pos, 0);
    }
  }

  lemma FirstHere(es: seq<Enemy>, p: Position, from: nat) returns (i: nat)
    requires exists j :: from <= j < |es| && LivesAt(es[j], p)
    requires forall j :: 0 <= j < from <= |es| ==> !LivesAt(es[j], p)
    ensures FirstEnemy(es, p, i)
    decreases |es| - from
  {
    i := from;
    if !LivesAt(es[from], p) {
      i := FirstHere(es, p, from + 1);
    }
  }

  /** Rocks spare an enemy or kill it. */
  lemma {:induction false} RocksSpareOrKill(ws: seq<World>, n: nat, i: nat)
    requires RockTurns(ws, n) && i < |ws[0].enemies|
    ensures |ws[n].enemies| == |ws[0].enemies| && ws[n].scene == ws[0].scene
    ensures ws[n].enemies[i] == ws[0].enemies[i] || !ws[n].enemies[i].active
    decreases n
  {
    hide After, Crushings;
    if n > 0 {
      RocksSpareOrKill(ws[..n], n - 1, i);
      assert RockTurn(ws[n - 1], ws[n], n - 1);
    }
  }

  /** The parts of a frame: the keys, then the wait or the ticks of player, enemies and rocks. */
  lemma FrameParts(w: World, w': World, input: Input) returns (keyed: World, player: World, enemies: World, rocks: World)
    requires w.tiles.Valid() && FrameTick(w, w', input)
    ensures Keyed(w, keyed, input) && keyed.timer == w.timer && keyed.tiles.Valid()
    ensures w.timer > 0 ==> Waited(keyed, w')
    ensures w.timer <= 0 ==> PlayerTick(keyed.(time := w.time + 1), player) && EnemyTick(player, enemies, input.clock)
                             && RockTick(enemies, rocks) && Judged(rocks, w', input.now)
  {
    hide PlayerTick, EnemyTick, RockTick, Judged, Keyed, Waited;
    var a :| Keyed(w, a, input) && a.tiles.Valid() && Updates(a, w', input.now, input.clock);
    KeysKeep(w, a, input);
    keyed, player, enemies, rocks := a, a, a, a;
    if w.timer <= 0 {
      var p, e, r :| PlayerTick(a.(time := a.time + 1), p) && EnemyTick(p, e, input.clock) && RockTick(e, r) && Judged(r, w', input.now);
      player, enemies, rocks := p, e, r;
    }
  }

  // What a frame does to a paralysed enemy, to a rock and to a lost player

  /** The turns a paralysed enemy has left: six for each blink. */
  function Fuse(e: Enemy): int {
    6 * (e.blinkCount - 1) + e.paralyzedTimer + 1
  }

  predicate Blinking(e: Enemy) {
    e.active && e.state == Paralyzed && e.blinkCount >= 1 && e.paralyzedTimer >= 0
  }

  /** It is dead, or where it was with that many turns left. */
  predicate BurntDown(e: Enemy, e': Enemy, turns: int) {
    !e'.active || (Blinking(e') && e'.pos == e.pos && Fuse(e') == Fuse(e) - turns)
  }

  lemma BlinkTurn(w: World, w': World, i: int, now: int)
    requires w.tiles.Valid() && 0 <= i < |w.enemies| && Blinking(w.enemies[i]) && TakesTurn(w, w', i, now)
    ensures |w'.enemies| == |w.enemies| && BurntDown(w.enemies[i], w'.enemies[i], 1)
    ensures Fuse(w.enemies[i]) == 1 <==> !w'.enemies[i].active
  {
  }

  /** Unless it is pumped up, a frame that moves takes one turn from a paralysed enemy, and a waiting frame none. */
  lemma BlinkFrame(w: World, w': World, input: Input, i: nat)
    requires w.tiles.Valid() && FrameTick(w, w', input) && i < |w.enemies| && Blinking(w.enemies[i]) && !input.pumping
    ensures |w'.enemies| == |w.enemies| && BurntDown(w.enemies[i], w'.enemies[i], if w.timer > 0 then 0 else 1)
  {
    hide FrameTick, Keyed, PlayerTick, EnemyTick, TakesTurn, RockTurn;
    var a, p, e, r := FrameParts(w, w', input);
    KeysKeep(w, a, input);
    if w.timer <= 0 {
      PlayerKeeps(a.(time := w.time + 1), p);
      var u, u' := OneTurnEach(p, e, input.clock, i);
      if a.enemies[i].active {
        BlinkTurn(u, u', i, ClockAt(input.clock, i));
      } else {
        EnemyTickKeeps(p, e, input.clock);
      }
      var ws :| RockTurns(ws, |e.rocks|) && ws[0] == e && ws[|e.rocks|] == r;
      RocksSpareOrKill(ws, |e.rocks|, i);
    }
  }

  lemma EnemyTickKeeps(w: World, w': World, clock: seq<int>)
    requires EnemyTick(w, w', clock)
    ensures DeadStay(w.enemies, w'.enemies) && w.ledger <= w'.ledger && w'.tiles == w.tiles && w'.rocks == w.rocks
  {
    hide TakesTurn;
    var ws :| TakeTurns(ws, clock, |w.enemies|) && ws[0] == w && ws[|w.enemies|] == w';
    TurnsKeep(ws, clock, |w.enemies|);
  }

  lemma RockTickKeeps(w: World, w': World)
    requires w.tiles.Valid() && RockTick(w, w')
    ensures DeadStay(w.enemies, w'.enemies) && w.ledger <= w'.ledger && w'.tiles == w.tiles && |w'.rocks| == |w.rocks|
    ensures forall j :: 0 <= j < |w.rocks| ==> w'.rocks[j] == After(w.rocks[j], [Blocked(w.tiles, w.rocks[j].pos)])
  {
    hide RockTurn, After, Updated, Blocked;
    var ws :| RockTurns(ws, |w.rocks|) && ws[0] == w && ws[|w.rocks|] == w';
    RockTurnsKeep(ws, |w.rocks|);
    forall j | 0 <= j < |w.rocks|
      ensures w'.rocks[j] == After(w.rocks[j], [Blocked(w.tiles, w.rocks[j].pos)])
    {
      OneAfter(w.rocks[j], Blocked(w.tiles, w.rocks[j].pos));
    }
  }

  /** A frame leaves the dead alone and takes no award back; each rock is updated once in a frame that moves, for the map it leaves. */
  lemma FrameKeeps(w: World, w': World, input: Input)
    requires w.tiles.Valid() && FrameTick(w, w', input)
    ensures w'.tiles.Valid() && DeadStay(w.enemies, w'.enemies) && w.ledger <= w'.ledger && |w'.rocks| == |w.rocks|
    ensures forall j :: 0 <= j < |w.rocks| ==>
              w'.rocks[j] == if w.timer > 0 then w.rocks[j] else After(w.rocks[j], [Blocked(w'.tiles, w.rocks[j].pos)])
  {
    hide FrameTick, Keyed, PlayerTick, EnemyTick, RockTick, After, Blocked;
    var a, p, e, r := FrameParts(w, w', input);
    KeysKeep(w, a, input);
    if w.timer <= 0 {
      PlayerKeeps(a.(time := w.time + 1), p);
      EnemyTickKeeps(p, e, input.clock);
      RockTickKeeps(e, r);
    }
  }

  // Histories

  /**
   A struck enemy has ten blinks of six turns each: while the player does not pump, it stays in its place and is dead
   after exactly sixty frames that move, however many frames wait in between; only a rock or the development key ends it
   before.
   */
  lemma {:induction false} StruckEnemyDies(ws: seq<World>, inputs: seq<Input>, i: nat)
    requires Plays(ws, inputs) && i < |ws[0].enemies| && Blinking(ws[0].enemies[i])
    requires forall k :: 0 <= k < |inputs| ==> !inputs[k].pumping
    ensures |ws[|inputs|].enemies| == |ws[0].enemies| && BurntDown(ws[0].enemies[i], ws[|inputs|].enemies[i], Moving(ws, |inputs|))
    ensures Moving(ws, |inputs|) >= Fuse(ws[0].enemies[i]) ==> !ws[|inputs|].enemies[i].active
    decreases |inputs|
  {
    hide FrameTick;
    var n := |inputs|;
    if n > 0 {
      StruckEnemyDies(ws[..n], inputs[..n - 1], i);
      MovingInPrefix(ws, n, n - 1);
      assert Happens(ws[n - 1], ws[n], Play(inputs[n - 1]));
      if ws[n - 1].scene == Playing {
        if Blinking(ws[n - 1].enemies[i]) {
          BlinkFrame(ws[n - 1], ws[n], inputs[n - 1], i);
        } else {
          FrameKeeps(ws[n - 1], ws[n], inputs[n - 1]);
        }
      }
    }
  }

  /** The harpoon lights a fuse of sixty turns in every enemy it newly hits. */
  lemma StrikeLightsFuse(w: World, w': World, i: nat)
    requires w.tiles.Valid() && Attacks(w, w') && i < |w.enemies|
    ensures |w'.enemies| == |w.enemies| && (w'.enemies[i] == w.enemies[i] || (Blinking(w'.enemies[i]) && Fuse(w'.enemies[i]) == 60))
  {
    hide Flies, Reached;
  }

  /** The dead stay dead and awards stay paid; maps and rocks stay what they are. */
  lemma {:induction false} HistoryKeeps(ws: seq<World>, inputs: seq<Input>, n: nat)
    requires Plays(ws, inputs) && ws[0].tiles.Valid() && n <= |inputs|
    ensures ws[n].tiles.Valid() && DeadStay(ws[0].enemies, ws[n].enemies) && ws[0].ledger <= ws[n].ledger && |ws[n].rocks| == |ws[0].rocks|
  {
    hide FrameTick;
    if n > 0 {
      HistoryKeeps(ws, inputs, n - 1);
      assert Happens(ws[n - 1], ws[n], Play(inputs[n - 1]));
      if ws[n - 1].scene == Playing {
        FrameKeeps(ws[n - 1], ws[n], inputs[n - 1]);
      }
    }
  }

  /** Below the cell is the end of the map, earth or a wall. */
  predicate Grounded(m: TileMap, p: Position)
    requires m.Valid()
  {
    p.y + 1 < 0 || p.y + 1 >= m.height || p.x < 0 || p.x >= m.width || m.TileAt(Position(p.x, p.y + 1)) in {Dirt, Wall}
  }

  lemma BlockedMeans(m: TileMap, p: Position)
    requires m.Valid()
    ensures Blocked(m, p) <==> Grounded(m, p)
  {
    SolidOrWalkable(m, Move(p, Down));
  }

  /** What lies below a rock in the frames that move, on the map as the frame leaves it. */
  ghost function Floors(ws: seq<World>, n: nat, j: nat): seq<bool>
    requires n < |ws| && forall k :: 0 <= k <= n ==> ws[k].tiles.Valid() && j < |ws[k].rocks|
  {
    if n == 0 then [] else
    Floors(ws, n - 1, j) + if Moves(ws[n - 1]) then [Grounded(ws[n].tiles, ws[n - 1].rocks[j].pos)] else []
  }

  /** In a game every rock lives the life that the ground below it gives it, one update for each frame that moves. */
  lemma {:induction false} RocksFollowTheGround(ws: seq<World>, inputs: seq<Input>, n: nat, j: nat)
    requires Plays(ws, inputs) && n <= |inputs| && ws[0].tiles.Valid() && j < |ws[0].rocks|
    ensures forall k :: 0 <= k <= n ==> ws[k].tiles.Valid() && j < |ws[k].rocks|
    ensures |Floors(ws, n, j)| == Moving(ws, n) && ws[n].rocks[j] == After(ws[0].rocks[j], Floors(ws, n, j))
  {
    hide FrameTick, Updated, Blocked, Grounded;
    if n > 0 {
      RocksFollowTheGround(ws, inputs, n - 1, j);
      HistoryKeeps(ws, inputs, n);
      assert Happens(ws[n - 1], ws[n], Play(inputs[n - 1]));
      assert !Moves(ws[n - 1]) ==> Floors(ws, n, j) == Floors(ws, n - 1, j);
      if ws[n - 1].scene == Playing {
        FrameKeeps(ws[n - 1], ws[n], inputs[n - 1]);
        BlockedMeans(ws[n].tiles, ws[n - 1].rocks[j].pos);
        if ws[n - 1].timer <= 0 {
          AfterSum(ws[0].rocks[j], Floors(ws, n - 1, j), [Grounded(ws[n].tiles, ws[n - 1].rocks[j].pos)]);
        }
      }
    }
  }

  /** A player with a life left waits as long as the timer says and then stands at the start; the world stands still. */
  lemma {:induction false} LostPlayerReturns(ws: seq<World>, inputs: seq<Input>, n: nat)
    requires Plays(ws, inputs) && n <= |inputs| && n <= ws[0].timer
    requires ws[0].scene == Playing && ws[0].player.state == Lost && ws[0].lives > 0 && ws[0].timer > 0
    ensures ws[n].scene == Playing && ws[n].timer == ws[0].timer - n && ws[n].lives == ws[0].lives
    ensures ws[n].tiles == ws[0].tiles && ws[n].rocks == ws[0].rocks && ws[n].time == ws[0].time
    ensures if n < ws[0].timer then ws[n].player.state == Lost else ws[n].player == NewPlayer(PLAYER_START)
    ensures (forall k :: 0 <= k < n ==> !inputs[k].devKill) ==> ws[n].enemies == ws[0].enemies && ws[n].ledger == ws[0].ledger
  {
    hide FrameTick, Keyed;
    if n > 0 {
      LostPlayerReturns(ws, inputs, n - 1);
      assert Happens(ws[n - 1], ws[n], Play(inputs[n - 1]));
      var a, p, e, r := FrameParts(ws[n - 1], ws[n], inputs[n - 1]);
      KeysKeep(ws[n - 1], a, inputs[n - 1]);
    }
  }

  // The player's pace

  /** Where the player wants to go in a frame. */
  function Wish(w: World, input: Input): Direction {
    if input.dir != DirNone then input.dir else w.player.dir
  }

  lemma WalkMoves(w: World, w': World)
    requires w.tiles.Valid() && PlayerTick(w, w') && w.player.state != Lost
    ensures var d, c := w.player.dir, w.player.speedCounter;
            && w'.player.pos == (if d == DirNone || c > 0 || !Diggable(w, Move(w.player.pos, d)) then w.player.pos else Move(w.player.pos, d))
            && w'.player.speedCounter == (if d != DirNone && c <= 0 then 5 else if c > 0 then c - 1 else c)
            && w'.player.dir == DirNone
  {
    hide Walked, Diggable, Caught, Hit, Stroke;
    var a, b, c :| Walked(w, a) && CountedDown(a, b) && Stroke(b, c) && Collided(c, w');
    WalkPace(w, a);
    StrokeKeeps(b, c);
  }

  lemma WalkPace(w: World, w': World)
    requires w.tiles.Valid() && Walked(w, w')
    ensures var d, c := w.player.dir, w.player.speedCounter;
            && w'.player.pos == (if d == DirNone || c > 0 || !Diggable(w, Move(w.player.pos, d)) then w.player.pos else Move(w.player.pos, d))
            && w'.player.speedCounter == (if d != DirNone && c <= 0 then 6 else c) && w'.player.dir == DirNone
  {
    hide Diggable, Cleared;
  }

  lemma {:induction false} TurnsKeepPace(ws: seq<World>, clock: seq<int>, n: nat)
    requires TakeTurns(ws, clock, n)
    ensures ws[n].player.pos == ws[0].player.pos && ws[n].player.speedCounter == ws[0].player.speedCounter && ws[n].player.dir == ws[0].player.dir
    decreases n
  {
    hide TakesTurn;
    if n > 0 {
      TurnsKeepPace(ws[..n], clock, n - 1);
      TurnKeepsPace(ws[n - 1], ws[n], n - 1, ClockAt(clock, n - 1));
    }
  }

  lemma TurnKeepsPace(w: World, w': World, i: int, now: int)
    requires w.tiles.Valid() && 0 <= i < |w.enemies| && TakesTurn(w, w', i, now)
    ensures w'.player.pos == w.player.pos && w'.player.speedCounter == w.player.speedCounter && w'.player.dir == w.player.dir
  {
    hide Steps, Rested, Ignites;
  }

  lemma {:induction false} RocksKeepPace(ws: seq<World>, n: nat)
    requires RockTurns(ws, n)
    ensures ws[n].player.pos == ws[0].player.pos && ws[n].player.speedCounter == ws[0].player.speedCounter && ws[n].player.dir == ws[0].player.dir
    decreases n
  {
    hide After, Crushings;
    if n > 0 {
      RocksKeepPace(ws[..n], n - 1);
      assert RockTurn(ws[n - 1], ws[n], n - 1);
    }
  }

  /** In a frame that moves the player takes the wanted step if the delay is over and the cell can be entered, and else stays. */
  lemma PlayerSteps(w: World, w': World, input: Input)
    requires w.tiles.Valid() && FrameTick(w, w', input) && w.timer <= 0 && w.player.state != Lost
    ensures var d, c := Wish(w, input), w.player.speedCounter;
            && w'.player.pos == (if d == DirNone || c > 0 || !Diggable(w, Move(w.player.pos, d)) then w.player.pos else Move(w.player.pos, d))
            && w'.player.speedCounter == (if d != DirNone && c <= 0 then 5 else if c > 0 then c - 1 else c)
            && w'.player.dir == DirNone
  {
    hide FrameTick, Keyed, PlayerTick, TakesTurn, RockTurn;
    var a, p, e, r := FrameParts(w, w', input);
    KeysKeep(w, a, input);
    KeysWish(w, a, input);
    WalkMoves(a.(time := w.time + 1), p);
    var us :| TakeTurns(us, input.clock, |p.enemies|) && us[0] == p && us[|p.enemies|] == e;
    TurnsKeepPace(us, input.clock, |p.enemies|);
    var vs :| RockTurns(vs, |e.rocks|) && vs[0] == e && vs[|e.rocks|] == r;
    RocksKeepPace(vs, |e.rocks|);
  }

  lemma KeysWish(w: World, a: World, input: Input)
    requires w.tiles.Valid() && Keyed(w, a, input)
    ensures a.player.dir == Wish(w, input)
  {
    hide Flies, Reached;
    var b, c :| KeyByKey(w, b, c, a, input);
    if input.devKill {
      DevKillKeeps(w, b);
    }
  }

  /** After a step the player stays for five frames that move, whatever the keys. */
  lemma {:induction false} StepsAreSpaced(ws: seq<World>, inputs: seq<Input>, n: nat)
    requires Plays(ws, inputs) && n <= |inputs| && forall k :: 0 <= k < n ==> ws[k].timer <= 0 && ws[k].player.state != Lost
    requires n <= ws[0].player.speedCounter
    ensures ws[n].player.pos == ws[0].player.pos && ws[n].player.speedCounter == ws[0].player.speedCounter - Moving(ws, n)
  {
    hide FrameTick;
    if n > 0 {
      StepsAreSpaced(ws, inputs, n - 1);
      assert Happens(ws[n - 1], ws[n], Play(inputs[n - 1]));
      if ws[n - 1].scene == Playing {
        PlayerSteps(ws[n - 1], ws[n], inputs[n - 1]);
      }
    }
  }

  // Lives

  lemma TurnCosts(w: World, w': World, i: int, now: int)
    requires w.tiles.Valid() && 0 <= i < |w.enemies| && TakesTurn(w, w', i, now)
    ensures w.lives - 1 <= w'.lives <= w.lives && (w'.lives < w.lives || w.player.state == Lost ==> w'.player.state == Lost)
    ensures !w.enemies[i].active ==> w' == w
  {
    hide Steps, Rested, Ignites;
  }

  lemma {:induction false} TurnsCost(ws: seq<World>, clock: seq<int>, n: nat)
    requires TakeTurns(ws, clock, n)
    ensures ws[n].lives <= ws[0].lives && (ws[n].lives < ws[0].lives || ws[0].player.state == Lost ==> ws[n].player.state == Lost)
    ensures (forall i :: 0 <= i < |ws[0].enemies| ==> !ws[0].enemies[i].active) ==> ws[n] == ws[0]
    decreases n
  {
    hide TakesTurn;
    if n > 0 {
      TurnsCost(ws[..n], clock, n - 1);
      TurnCosts(ws[n - 1], ws[n], n - 1, ClockAt(clock, n - 1));
    }
  }

  lemma {:induction false} RocksCost(ws: seq<World>, n: nat)
    requires RockTurns(ws, n)
    ensures ws[n].lives <= ws[0].lives && (ws[n].lives < ws[0].lives || ws[0].player.state == Lost ==> ws[n].player.state == Lost)
    ensures (forall j :: 0 <= j < |ws[0].rocks| ==> ws[0].rocks[j].state != Falling) ==> ws[n] == ws[0].(rocks := ws[n].rocks)
    decreases n
  {
    hide After, Crushings, Updated, Blocked;
    if n > 0 {
      RocksCost(ws[..n], n - 1);
      RockTurnsKeep(ws[..n], n - 1);
      assert RockTurn(ws[n - 1], ws[n], n - 1);
    }
  }

  /** Without a key pressed, a player whose cell an enemy shares loses a life in a frame that moves, unless the first one there cannot move. */
  lemma TouchCostsALife(w: World, w': World, input: Input, i: int)
    requires w.tiles.Valid() && FrameTick(w, w', input) && w.timer <= 0 && w.player.state != Lost && w.player.dir == DirNone
    requires input.dir == DirNone && !input.pumping && !input.attack && !input.devKill
    requires FirstEnemy(w.enemies, w.player.pos, i)
    ensures w.enemies[i].state != Inflating && w.enemies[i].state != Paralyzed ==> w'.lives < w.lives && w'.player.state == Lost
  {
    hide TakesTurn, RockTurn;
    var a, p, e, r := FrameParts(w, w', input);
    StandingStill(w, a, p, input);
    var us :| TakeTurns(us, input.clock, |p.enemies|) && us[0] == p && us[|p.enemies|] == e;
    TurnsCost(us, input.clock, |p.enemies|);
    var vs :| RockTurns(vs, |e.rocks|) && vs[0] == e && vs[|e.rocks|] == r;
    RocksCost(vs, |e.rocks|);
    if w.enemies[i].state != Inflating && w.enemies[i].state != Paralyzed {
      assert Caught(w);
    }
  }

  lemma StandingStill(w: World, a: World, p: World, input: Input)
    requires w.tiles.Valid() && w.player.state != Lost && w.player.dir == DirNone
    requires input.dir == DirNone && !input.pumping && !input.attack && !input.devKill
    requires Keyed(w, a, input) && a.tiles.Valid() && PlayerTick(a.(time := w.time + 1), p)
    ensures Caught(w) ==> p.lives < w.lives && p.player.state == Lost
    ensures p.lives <= w.lives
  {
    hide FirstEnemy, FirstRock, Cleared, Diggable;
    var b, c :| KeyByKey(w, b, c, a, input);
    var u, v, x :| Walked(a.(time := w.time + 1), u) && CountedDown(u, v) && Stroke(v, x) && Collided(x, p);
    assert x.enemies == w.enemies && x.player.pos == w.player.pos && x.lives == w.lives;
  }

  /** A life is lost only where an enemy lives or a rock falls. */
  lemma NothingHurts(w: World, w': World, input: Input)
    requires w.tiles.Valid() && FrameTick(w, w', input)
    requires forall i :: 0 <= i < |w.enemies| ==> !w.enemies[i].active
    requires forall j :: 0 <= j < |w.rocks| ==> w.rocks[j].state != Falling
    ensures w'.lives == w.lives
  {
    hide FrameTick, Keyed, TakesTurn, RockTurn, PlayerTick;
    var a, p, e, r := FrameParts(w, w', input);
    KeysKeep(w, a, input);
    if w.timer <= 0 {
      NobodyTouches(a.(time := w.time + 1), p);
      var us :| TakeTurns(us, input.clock, |p.enemies|) && us[0] == p && us[|p.enemies|] == e;
      TurnsCost(us, input.clock, |p.enemies|);
      var vs :| RockTurns(vs, |e.rocks|) && vs[0] == e && vs[|e.rocks|] == r;
      RocksCost(vs, |e.rocks|);
    }
  }

  lemma NobodyTouches(w: World, w': World)
    requires w.tiles.Valid() && PlayerTick(w, w')
    requires forall i :: 0 <= i < |w.enemies| ==> !w.enemies[i].active
    requires forall j :: 0 <= j < |w.rocks| ==> w.rocks[j].state != Falling
    ensures w'.lives == w.lives && w'.rocks == w.rocks && forall i :: 0 <= i < |w'.enemies| ==> !w'.enemies[i].active
  {
    hide Walked, Stroke;
    PlayerKeeps(w, w');
    if w.player.state != Lost {
      var a, b, c :| Walked(w, a) && CountedDown(a, b) && Stroke(b, c) && Collided(c, w');
      WalkKeeps(w, a);
      StrokeKeeps(b, c);
    }
  }
}
