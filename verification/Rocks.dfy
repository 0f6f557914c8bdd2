/**
 The life of a falling rock, whatever happens to the map around it.
 */
module Rocks {
  import opened Grid

  const ROCK_WOBBLE_TICKS := 80
  const ROCK_BLINK_COUNT := 3
  const ROCK_BLINK_DURATION := 10

  datatype RockState = Stable | Wobbling | Falling | Blinking | Landed

  datatype Rock = Rock(pos: Position, active: bool, state: RockState, wobble: int, blinkTimer: int, blinkCount: int)

  function NewRock(pos: Position): Rock {
    Rock(pos, true, Stable, 0, 0, 0)
  }

  /** One update of a rock; `blocked` tells whether the cell below is solid or off the map at that time. */
  function Updated(r: Rock, blocked: bool): Rock {
    if !r.active then r else
    match r.state
    case Stable => if blocked then r else r.(state := Wobbling, wobble := ROCK_WOBBLE_TICKS)
    case Wobbling => if r.wobble - 1 <= 0 then r.(wobble := r.wobble - 1, state := Falling) else r.(wobble := r.wobble - 1)
    case Falling =>
      if blocked then r.(state := Blinking, blinkCount := ROCK_BLINK_COUNT, blinkTimer := ROCK_BLINK_DURATION)
      else r.(pos := Move(r.pos, Down))
    case Blinking =>
      if r.blinkTimer - 1 > 0 then r.(blinkTimer := r.blinkTimer - 1)
      else if r.blinkCount - 1 <= 0 then r.(blinkTimer := r.blinkTimer - 1, blinkCount := r.blinkCount - 1, state := Landed, active := false)
      else r.(blinkCount := r.blinkCount - 1, blinkTimer := ROCK_BLINK_DURATION)
    case Landed => r.(active := false)
  }

  /** How far along a rock is. */
  function Rank(s: RockState): nat {
    match s
    case Stable => 0
    case Wobbling => 1
    case Falling => 2
    case Blinking => 3
    case Landed => 4
  }

  ghost predicate Ok(r: Rock) {
    && 0 <= r.pos.y < MAP_HEIGHT
    && (r.state == Wobbling ==> 1 <= r.wobble <= ROCK_WOBBLE_TICKS)
    && (r.state == Blinking ==> 1 <= r.blinkTimer <= ROCK_BLINK_DURATION && 1 <= r.blinkCount <= ROCK_BLINK_COUNT)
    && (r.state == Landed ==> !r.active)
  }

  /** The map ends below its last row. */
  ghost predicate Possible(r: Rock, blocked: bool) {
    r.pos.y + 1 >= MAP_HEIGHT ==> blocked
  }

  /** Updates a rock that has left its rest can still take before it is gone. */
  ghost function Remaining(r: Rock): int {
    if !r.active then 0 else
    match r.state
    case Stable => 0
    case Wobbling => r.wobble + MAP_HEIGHT - r.pos.y + ROCK_BLINK_COUNT * ROCK_BLINK_DURATION
    case Falling => MAP_HEIGHT - r.pos.y + ROCK_BLINK_COUNT * ROCK_BLINK_DURATION
    case Blinking => (r.blinkCount - 1) * ROCK_BLINK_DURATION + r.blinkTimer
    case Landed => 0
  }

  lemma OneUpdate(r: Rock, blocked: bool)
    requires Ok(r) && Possible(r, blocked)
    ensures var r' := Updated(r, blocked);
            && Ok(r') && r'.pos.x == r.pos.x && r.pos.y <= r'.pos.y && Rank(r.state) <= Rank(r'.state)
            && (r.active && r.state != Stable ==> Remaining(r') < Remaining(r))
            && (!r.active ==> r' == r) && (r.state != Stable ==> Remaining(r) >= 0)
  {
  }

  /** A run: before every update the map may have been dug in any way. */
  ghost predicate Runs(r: Rock, blocked: seq<bool>)
    decreases |blocked|
  {
    blocked == [] || (Possible(r, blocked[0]) && Runs(Updated(r, blocked[0]), blocked[1..]))
  }

  ghost function After(r: Rock, blocked: seq<bool>): Rock
    decreases |blocked|
  {
    if blocked == [] then r else After(Updated(r, blocked[0]), blocked[1..])
  }

  /** A rock stays in its column, never rises and never goes back to an earlier state. */
  lemma {:induction false} NeverBack(r: Rock, blocked: seq<bool>)
    requires Ok(r) && Runs(r, blocked)
    ensures var r' := After(r, blocked);
            Ok(r') && r'.pos.x == r.pos.x && r.pos.y <= r'.pos.y && Rank(r.state) <= Rank(r'.state) && (!r.active ==> r' == r)
    decreases |blocked|
  {
    if blocked != [] {
      OneUpdate(r, blocked[0]);
      NeverBack(Updated(r, blocked[0]), blocked[1..]);
    }
  }

  lemma {:induction false} GoneInTime(r: Rock, blocked: seq<bool>)
    requires Ok(r) && Runs(r, blocked) && r.state != Stable && |blocked| >= Remaining(r)
    ensures !After(r, blocked).active
    decreases |blocked|
  {
    if blocked == [] {
      OneUpdate(r, true);
    } else {
      OneUpdate(r, blocked[0]);
      if r.active {
        GoneInTime(Updated(r, blocked[0]), blocked[1..]);
      } else {
        NeverBack(r, blocked);
      }
    }
  }

  /** A rock that starts to wobble in row y is gone after at most 80 + (24 - y) + 3 * 10 further updates. */
  lemma WobblingRockEnds(r: Rock, blocked: seq<bool>)
    requires Ok(r) && r.active && r.state == Stable && Runs(Updated(r, false), blocked)
    requires |blocked| >= ROCK_WOBBLE_TICKS + (MAP_HEIGHT - r.pos.y) + ROCK_BLINK_COUNT * ROCK_BLINK_DURATION
    ensures !After(Updated(r, false), blocked).active
  {
    GoneInTime(Updated(r, false), blocked);
  }

  /** The bound cannot be improved: a rock that falls to the last row needs all of these updates. */
  lemma {:induction false} BoundIsReached(r: Rock, n: nat)
    requires Ok(r) && r.active && r.state != Stable && n < Remaining(r)
    ensures exists blocked :: |blocked| == n && Runs(r, blocked) && After(r, blocked).active
    decreases n
  {
    if n == 0 {
      assert Runs(r, []) && After(r, []).active;
    } else {
      var b := r.pos.y + 1 >= MAP_HEIGHT;
      var r' := Updated(r, b);
      OneUpdate(r, b);
      assert r'.active && Remaining(r') == Remaining(r) - 1;
      BoundIsReached(r', n - 1);
      var rest :| |rest| == n - 1 && Runs(r', rest) && After(r', rest).active;
      var blocked := [b] + rest;
      assert blocked[1..] == rest;
      assert |blocked| == n && Runs(r, blocked) && After(r, blocked).active;
    }
  }

  // What happens when

  lemma {:induction false} AfterSum(r: Rock, first: seq<bool>, second: seq<bool>)
    ensures After(r, first + second) == After(After(r, first), second)
    decreases |first|
  {
    if first == [] {
      assert first + second == second;
    } else {
      assert (first + second)[1..] == first[1..] + second;
      AfterSum(Updated(r, first[0]), first[1..], second);
    }
  }

  ghost predicate Resting(r: Rock) {
    r.active && r.state == Stable
  }

  /** A rock on solid ground stays exactly as it is. */
  lemma {:induction false} RestsOnGround(r: Rock, blocked: seq<bool>)
    requires Resting(r) && forall i :: 0 <= i < |blocked| ==> blocked[i]
    ensures After(r, blocked) == r
    decreases |blocked|
  {
    if blocked != [] {
      RestsOnGround(r, blocked[1..]);
    }
  }

  /** It starts to wobble at the first update with a free cell below, for 80 updates. */
  lemma StartsWhenFree(r: Rock, blocked: seq<bool>)
    requires Resting(r) && (forall i :: 0 <= i < |blocked| ==> blocked[i])
    ensures After(r, blocked + [false]) == Rock(r.pos, true, Wobbling, 80, r.blinkTimer, r.blinkCount)
  {
    RestsOnGround(r, blocked);
    AfterSum(r, blocked, [false]);
    assert After(r, [false]) == After(Updated(r, false), []);
  }

  /** Over any run, a rock is still at rest exactly if the cell below was solid at every update. */
  lemma {:induction false} RestsExactlyOnGround(r: Rock, blocked: seq<bool>)
    requires Ok(r) && Resting(r) && Runs(r, blocked)
    ensures After(r, blocked).state == Stable <==> forall i :: 0 <= i < |blocked| ==> blocked[i]
    ensures After(r, blocked).state == Stable ==> After(r, blocked) == r
    decreases |blocked|
  {
    if blocked != [] {
      OneUpdate(r, blocked[0]);
      if blocked[0] {
        RestsExactlyOnGround(r, blocked[1..]);
        assert forall i :: 0 <= i < |blocked| - 1 ==> blocked[1..][i] == blocked[i + 1];
      } else {
        NeverBack(Updated(r, false), blocked[1..]);
      }
    }
  }

  /** Whatever is below, it wobbles until its time is up, and then falls. */
  lemma {:induction false} WobblesInPlace(r: Rock, blocked: seq<bool>)
    requires Ok(r) && r.active && r.state == Wobbling && |blocked| <= r.wobble
    ensures After(r, blocked) == r.(wobble := r.wobble - |blocked|, state := if |blocked| < r.wobble then Wobbling else Falling)
    decreases |blocked|
  {
    if |blocked| > 1 {
      WobblesInPlace(Updated(r, blocked[0]), blocked[1..]);
    } else if |blocked| == 1 {
      assert After(r, blocked) == After(Updated(r, blocked[0]), []);
    }
  }

  /** It falls one row for every update with a free cell below. */
  lemma {:induction false} FallsRowByRow(r: Rock, blocked: seq<bool>)
    requires r.active && r.state == Falling && forall i :: 0 <= i < |blocked| ==> !blocked[i]
    ensures After(r, blocked) == r.(pos := Position(r.pos.x, r.pos.y + |blocked|))
    decreases |blocked|
  {
    if blocked != [] {
      FallsRowByRow(Updated(r, false), blocked[1..]);
    }
  }

  /** On solid ground it stays in its row and blinks three times ten updates. */
  lemma LandsOnGround(r: Rock)
    requires r.active && r.state == Falling
    ensures After(r, [true]) == r.(state := Blinking, blinkCount := 3, blinkTimer := 10)
  {
    assert After(r, [true]) == After(Updated(r, true), []);
  }

  /** It blinks in its place and is gone exactly when its time is up. */
  lemma {:induction false} BlinksInPlace(r: Rock, blocked: seq<bool>)
    requires Ok(r) && r.active && r.state == Blinking && |blocked| <= 10 * (r.blinkCount - 1) + r.blinkTimer
    ensures After(r, blocked).pos == r.pos
    ensures After(r, blocked).active <==> |blocked| < 10 * (r.blinkCount - 1) + r.blinkTimer
    decreases |blocked|
  {
    if |blocked| > 1 {
      BlinksInPlace(Updated(r, blocked[0]), blocked[1..]);
    } else if |blocked| == 1 {
      assert After(r, blocked) == After(Updated(r, blocked[0]), []);
    }
  }

  lemma UntilItFalls(r: Rock, rest: seq<bool>, wobble: seq<bool>)
    requires Resting(r) && 0 <= r.pos.y < MAP_HEIGHT && |wobble| == 80 && forall i :: 0 <= i < |rest| ==> rest[i]
    ensures After(r, rest + [false] + wobble) == Rock(r.pos, true, Falling, 0, r.blinkTimer, r.blinkCount)
  {
    hide After, Updated;
    StartsWhenFree(r, rest);
    AfterSum(r, rest + [false], wobble);
    WobblesInPlace(After(r, rest + [false]), wobble);
  }

  lemma OnceItFalls(r: Rock, fall: seq<bool>, blink: seq<bool>)
    requires r.active && r.state == Falling && |blink| <= 30 && 0 <= r.pos.y + |fall| < MAP_HEIGHT
    requires forall i :: 0 <= i < |fall| ==> !fall[i]
    ensures var r' := After(r, fall + [true] + blink);
            r'.pos == Position(r.pos.x, r.pos.y + |fall|) && (r'.active <==> |blink| < 30)
  {
    hide After, Updated;
    AfterSum(r, fall, [true]);
    AfterSum(r, fall + [true], blink);
    FallsRowByRow(r, fall);
    LandsOnGround(After(r, fall));
    BlinksInPlace(After(r, fall + [true]), blink);
  }

  /**
   The whole life of a rock: it rests while the cell below is solid, wobbles for 80 updates in its place, falls
   as many rows as there are free cells below it, and blinks there for 30 updates, after which it is gone.
   */
  lemma WholeLife(r: Rock, rest: seq<bool>, wobble: seq<bool>, fall: seq<bool>, blink: seq<bool>)
    requires Resting(r) && 0 <= r.pos.y && r.pos.y + |fall| < MAP_HEIGHT && |wobble| == 80 && |blink| <= 30
    requires (forall i :: 0 <= i < |rest| ==> rest[i]) && forall i :: 0 <= i < |fall| ==> !fall[i]
    ensures var r' := After(r, (rest + [false] + wobble) + (fall + [true] + blink));
            r'.pos == Position(r.pos.x, r.pos.y + |fall|) && (r'.active <==> |blink| < 30)
  {
    hide After, Updated;
    UntilItFalls(r, rest, wobble);
    AfterSum(r, rest + [false] + wobble, fall + [true] + blink);
    OnceItFalls(After(r, rest + [false] + wobble), fall, blink);
  }
}
