/** The per-frame game-state update of the runner: player motion and ground
    clamp, obstacle spawning, scrolling and removal, the bounding-box collision
    test, the score cadence, leveling and the high score.

    The pure part (RunState, Tick, Jumped, Initial) states what one call does;
    the class Game holds the mutable `state` and `highscore` and its methods are
    proved to do exactly that, step by step as the source does. */
module Runner {

  /** The player's fixed fields `x`, `w`, `h` and `jumpPower`, and its start height. */
  const PlayerX: int := 60
  const PlayerW: int := 44
  const PlayerH: int := 44
  const JumpPower: int := 13
  const StartY: real := 200.0
  const Gravity: real := 0.8

  /** The ground strip is 20 pixels high: its top edge is the line `H - 20`. */
  function GroundLine(H: int): real {
    (H - 20) as real
  }

  datatype Obstacle = Obstacle(x: int, y: int, w: int, h: int)

  /** The `Math.random()` draws of one frame: the spawn test, then the height
      and the width of a spawned obstacle. */
  datatype Draws = Draws(spawn: real, height: real, width: real)

  predicate IsDraws(d: Draws) {
    0.0 <= d.spawn < 1.0 && 0.0 <= d.height < 1.0 && 0.0 <= d.width < 1.0
  }

  // ---------------------------------------------------------------------------
  // Leveling, speed and spawning

  /** `1 + Math.floor(score / 400)`: level `l` covers the scores from
      `400 * (l - 1)` up to just below `400 * l`. */
  function LevelFor(score: int): (l: int)
    ensures score >= 0 ==> l >= 1
    ensures 400 * (l - 1) <= score < 400 * l
  {
    1 + score / 400
  }

  /** `6 + Math.floor(level * 1.5)`, the speed set when the level changes. */
  function SpeedFor(level: int): (speed: int)
    ensures (speed - 6) as real <= 1.5 * level as real < (speed - 5) as real
  {
    6 + (3 * level) / 2
  }

  /** The scroll speed a run has at `level`: the start value 6 until the first
      level change, the formula afterwards (which would give 7 at level 1). */
  function SpeedAt(level: int): int {
    if level == 1 then 6 else SpeedFor(level)
  }

  lemma SpeedGrowsWithLevel(l1: int, l2: int)
    requires 1 <= l1 < l2
    ensures SpeedAt(l1) < SpeedAt(l2)
  {
  }

  /** `Math.min(0.02 + level * 0.005, 0.18)` */
  function SpawnProbability(level: int): (p: real)
    ensures p <= 0.18
    ensures level >= 1 ==> p >= 0.025
    ensures level >= 32 ==> p == 0.18
  {
    var q := 0.02 + (level as real) * 0.005;
    if q < 0.18 then q else 0.18
  }

  lemma SpawnProbabilityGrows(l1: int, l2: int)
    requires l1 <= l2
    ensures SpawnProbability(l1) <= SpawnProbability(l2)
  {
  }

  /** `Math.floor(r * n)` for a draw `r` in [0, 1) lies in [0, n - 1]. */
  lemma FloorOfDraw(r: real, n: int)
    requires 0.0 <= r < 1.0
    ensures n > 0 ==> 0 <= (r * n as real).Floor < n
  {
    if n > 0 {
      assert r * n as real < n as real by {
        assert (1.0 - r) * (n as real) > 0.0;
      }
    }
  }

  /** spawnObstacle's new obstacle: its base on the ground line, entering just
      past the right edge, with a size that grows with the level. */
  function NewObstacle(level: int, W: int, H: int, d: Draws): (o: Obstacle)
    requires IsDraws(d)
    ensures o.x == W + 10 && o.y + o.h == H - 20
    ensures level >= 0 ==> 20 <= o.h <= 39 + 3 * level && 18 <= o.w <= 37 + level
  {
    FloorOfDraw(d.height, 20 + level * 3);
    FloorOfDraw(d.width, 20 + level);
    var h := 20 + (d.height * (20 + level * 3) as real).Floor;
    var w := 18 + (d.width * (20 + level) as real).Floor;
    Obstacle(W + 10, H - 20 - h, w, h)
  }

  /** The obstacle list after the spawn test of a frame. */
  function Spawned(obs: seq<Obstacle>, level: int, W: int, H: int, d: Draws): seq<Obstacle>
    requires IsDraws(d)
  {
    if d.spawn < SpawnProbability(level) then obs + [NewObstacle(level, W, H, d)] else obs
  }

  // ---------------------------------------------------------------------------
  // Scrolling and removal

  function Shift(o: Obstacle, speed: int): Obstacle {
    o.(x := o.x - speed)
  }

  /** The trailing edge is more than 50 pixels left of the screen. */
  predicate OffScreen(o: Obstacle) {
    o.x + o.w < -50
  }

  /** Every obstacle moved left by `speed`, those now off screen dropped. */
  function Scrolled(obs: seq<Obstacle>, speed: int): (r: seq<Obstacle>)
    ensures |r| <= |obs|
  {
    if obs == [] then []
    else
      var m := Shift(obs[0], speed);
      (if OffScreen(m) then [] else [m]) + Scrolled(obs[1..], speed)
  }

  lemma ScrolledCons(o: Obstacle, rest: seq<Obstacle>, speed: int)
    ensures Scrolled([o] + rest, speed)
         == (if OffScreen(Shift(o, speed)) then [] else [Shift(o, speed)]) + Scrolled(rest, speed)
  {
    assert ([o] + rest)[1..] == rest;
  }

  /** Scrolling works obstacle by obstacle: the survivors keep their order. */
  lemma {:induction false} ScrolledAppend(a: seq<Obstacle>, b: seq<Obstacle>, speed: int)
    ensures Scrolled(a + b, speed) == Scrolled(a, speed) + Scrolled(b, speed)
  {
    if a == [] {
      assert a + b == b;
    } else {
      var m := Shift(a[0], speed);
      var piece := if OffScreen(m) then [] else [m];
      assert a + b == [a[0]] + (a[1..] + b);
      assert a == [a[0]] + a[1..];
      calc {
        Scrolled(a + b, speed);
        { ScrolledCons(a[0], a[1..] + b, speed); }
        piece + Scrolled(a[1..] + b, speed);
        { ScrolledAppend(a[1..], b, speed); }
        piece + (Scrolled(a[1..], speed) + Scrolled(b, speed));
        (piece + Scrolled(a[1..], speed)) + Scrolled(b, speed);
        { ScrolledCons(a[0], a[1..], speed); }
        Scrolled(a, speed) + Scrolled(b, speed);
      }
    }
  }

  /** An obstacle is in the scrolled list exactly when it is still on screen
      and it stood `speed` pixels further right before the step (so y, w and
      h are unchanged). */
  lemma {:induction false} ScrolledMembers(obs: seq<Obstacle>, speed: int, o: Obstacle)
    ensures o in Scrolled(obs, speed) <==> !OffScreen(o) && o.(x := o.x + speed) in obs
  {
    if obs != [] {
      ScrolledMembers(obs[1..], speed, o);
      assert obs == [obs[0]] + obs[1..];
    }
  }

  // ---------------------------------------------------------------------------
  // Collision

  /** The player's box (at height `py`) and the obstacle's box overlap. */
  predicate Overlaps(py: real, o: Obstacle) {
    && PlayerX < o.x + o.w
    && PlayerX + PlayerW > o.x
    && py < (o.y + o.h) as real
    && py + PlayerH as real > o.y as real
  }

  predicate HitsAny(py: real, obs: seq<Obstacle>) {
    exists j :: 0 <= j < |obs| && Overlaps(py, obs[j])
  }

  /** A player standing on the ground hits an obstacle standing on the ground
      exactly when the two overlap horizontally. */
  lemma GroundedCollision(H: int, o: Obstacle)
    requires o.h > 0 && o.y + o.h == H - 20
    ensures Overlaps(GroundLine(H) - PlayerH as real, o)
        <==> PlayerX < o.x + o.w && PlayerX + PlayerW > o.x
  {
  }

  // ---------------------------------------------------------------------------
  // One frame

  /** The game's module state: the fields of `state` (with the player's
      mutable fields flattened in) and the global `highscore`. */
  datatype RunState = RunState(
    y: real, vy: real, grounded: bool,
    obstacles: seq<Obstacle>,
    scrollSpeed: int, score: int, level: int, running: bool, frames: int,
    highscore: int)

  /** The state after `resetState()`, keeping the high score. */
  function Initial(highscore: int): RunState {
    RunState(StartY, 0.0, false, [], 6, 0, 1, true, 0, highscore)
  }

  /** `jump()` */
  function Jumped(s: RunState): RunState {
    if s.grounded then s.(vy := -(JumpPower as real), grounded := false) else s
  }

  /** The player's part of a frame: move by the old velocity, then add
      gravity, then clamp to the ground line. */
  function Fall(s: RunState, H: int): RunState {
    var y := s.y + s.vy;
    var vy := s.vy + Gravity;
    if y + PlayerH as real >= GroundLine(H) then
      s.(y := GroundLine(H) - PlayerH as real, vy := 0.0, grounded := true)
    else
      s.(y := y, vy := vy)
  }

  /** The end of a frame: a point every fourth frame, the level recomputed,
      the speed reset when the level changed, and the high score raised. */
  function Scoring(s: RunState): RunState {
    var score := if s.frames % 4 == 0 then s.score + 1 else s.score;
    var level := LevelFor(score);
    var leveled :=
      if level != s.level then s.(score := score, level := level, scrollSpeed := SpeedFor(level))
      else s.(score := score);
    if score > s.highscore then leveled.(highscore := score) else leveled
  }

  /** A frame up to the scoring: the frame counter, the spawn test, the
      player's motion, scrolling and the collision test, which leave the
      score, level, speed and high score as they were. */
  function Advance(s: RunState, W: int, H: int, d: Draws): (c: RunState)
    requires IsDraws(d)
    ensures c.frames == s.frames + 1 && c.score == s.score && c.level == s.level
    ensures c.scrollSpeed == s.scrollSpeed && c.highscore == s.highscore
  {
    var spawned := s.(frames := s.frames + 1, obstacles := Spawned(s.obstacles, s.level, W, H, d));
    var moved := Fall(spawned, H);
    var scrolled := moved.(obstacles := Scrolled(moved.obstacles, moved.scrollSpeed));
    scrolled.(running := scrolled.running && !HitsAny(scrolled.y, scrolled.obstacles))
  }

  /** `updatePhysics()` with the frame's random draws `d` on a canvas of
      width `W` and height `H`, stage by stage in the source's order. */
  function Tick(s: RunState, W: int, H: int, d: Draws): RunState
    requires IsDraws(d)
  {
    Scoring(Advance(s, W, H, d))
  }

  /** What holds of every state a run reaches: the score is the number of
      frames over four, the level follows the score, the speed follows the
      level, and a grounded player stands still on the ground line. */
  predicate ValidState(s: RunState, H: int) {
    && s.frames >= 0
    && s.score == s.frames / 4
    && s.level == LevelFor(s.score)
    && s.scrollSpeed == SpeedAt(s.level)
    && (s.grounded ==> s.y + PlayerH as real == GroundLine(H) && s.vy == 0.0)
  }

  lemma InitialIsValid(highscore: int, H: int)
    ensures ValidState(Initial(highscore), H)
  {
  }

  /** After a frame the player's bottom edge is never below the ground line:
      a player whose step would reach it is put on it and stopped; otherwise
      it moves by its old velocity and then gains gravity. */
  lemma TickPlayerMotion(s: RunState, W: int, H: int, d: Draws)
    requires IsDraws(d)
    ensures var t := Tick(s, W, H, d);
      && t.y + PlayerH as real <= GroundLine(H)
      && (s.y + s.vy + PlayerH as real >= GroundLine(H) ==>
            t.y == GroundLine(H) - PlayerH as real && t.vy == 0.0 && t.grounded)
      && (s.y + s.vy + PlayerH as real < GroundLine(H) ==>
            t.y == s.y + s.vy && t.vy == s.vy + Gravity && t.grounded == s.grounded)
  {
  }

  /** Score cadence, leveling, speed and high score over one frame. */
  lemma TickScoring(s: RunState, W: int, H: int, d: Draws)
    requires IsDraws(d)
    ensures var t := Tick(s, W, H, d);
      && t.frames == s.frames + 1
      && t.score == s.score + (if t.frames % 4 == 0 then 1 else 0)
      && t.level == LevelFor(t.score)
      && (t.level == s.level ==> t.scrollSpeed == s.scrollSpeed)
      && (t.level != s.level ==> t.scrollSpeed == SpeedFor(t.level))
      && t.highscore >= s.highscore && t.highscore >= t.score
      && (t.highscore == s.highscore || t.highscore == t.score)
      && (s.level == LevelFor(s.score) ==> t.level >= s.level)
  {
    ScoringStep(Advance(s, W, H, d));
  }

  /** The scoring stage on its own. */
  lemma ScoringStep(c: RunState)
    ensures var t := Scoring(c);
      && t.frames == c.frames
      && t.score == c.score + (if c.frames % 4 == 0 then 1 else 0)
      && t.level == LevelFor(t.score)
      && (t.level == c.level ==> t.scrollSpeed == c.scrollSpeed)
      && (t.level != c.level ==> t.scrollSpeed == SpeedFor(t.level))
      && t.highscore >= c.highscore && t.highscore >= t.score
      && (t.highscore == c.highscore || t.highscore == t.score)
      && (c.level == LevelFor(c.score) ==> t.level >= c.level)
  {
  }

  /** A frame ends the run exactly when a surviving obstacle overlaps the
      player; it never restarts one. */
  lemma TickCollision(s: RunState, W: int, H: int, d: Draws)
    requires IsDraws(d)
    ensures var t := Tick(s, W, H, d);
      && (t.running <==> s.running && !HitsAny(t.y, t.obstacles))
      && (t.running ==> s.running)
  {
  }

  /** The obstacles after a frame: the spawn test appends at most one new
      obstacle at the end, then everything scrolls by the old speed. */
  lemma TickObstacles(s: RunState, W: int, H: int, d: Draws)
    requires IsDraws(d)
    ensures var t := Tick(s, W, H, d);
      var spawn := d.spawn < SpawnProbability(s.level);
      && (spawn ==> t.obstacles == Scrolled(s.obstacles, s.scrollSpeed)
                                   + Scrolled([NewObstacle(s.level, W, H, d)], s.scrollSpeed))
      && (!spawn ==> t.obstacles == Scrolled(s.obstacles, s.scrollSpeed))
  {
    if d.spawn < SpawnProbability(s.level) {
      ScrolledAppend(s.obstacles, [NewObstacle(s.level, W, H, d)], s.scrollSpeed);
    }
  }

  lemma TickKeepsValid(s: RunState, W: int, H: int, d: Draws)
    requires IsDraws(d) && ValidState(s, H)
    ensures ValidState(Tick(s, W, H, d), H)
  {
    var t := Tick(s, W, H, d);
    assert t.score == t.frames / 4;
    assert t.score >= s.score;
    assert t.level >= s.level;
  }

  /** Jumping from the ground: the next frame lifts the player by the jump
      power and leaves it rising at `jumpPower - gravity`. */
  lemma JumpThenTick(s: RunState, W: int, H: int, d: Draws)
    requires IsDraws(d) && ValidState(s, H) && s.grounded
    ensures var t := Tick(Jumped(s), W, H, d);
      && t.y == s.y - JumpPower as real
      && t.vy == Gravity - JumpPower as real
      && !t.grounded
  {
  }

  // ---------------------------------------------------------------------------
  // A run as a sequence of inputs

  /** A jump press (Space or a pointer press) or one animation frame. */
  datatype Input = Tap | NextFrame(d: Draws)

  predicate WellDrawn(inputs: seq<Input>) {
    forall i :: 0 <= i < |inputs| ==> inputs[i].NextFrame? ==> IsDraws(inputs[i].d)
  }

  /** What the input handlers and `loop()` do with one input: both are
      ignored once the run is over. */
  function Step(s: RunState, W: int, H: int, input: Input): RunState
    requires input.NextFrame? ==> IsDraws(input.d)
  {
    if !s.running then s
    else match input
      case Tap => Jumped(s)
      case NextFrame(d) => Tick(s, W, H, d)
  }

  function Play(s: RunState, W: int, H: int, inputs: seq<Input>): RunState
    requires WellDrawn(inputs)
    decreases |inputs|
  {
    if inputs == [] then s else Play(Step(s, W, H, inputs[0]), W, H, inputs[1..])
  }

  /** One input keeps the invariant and never lowers score, level or high
      score; nothing changes once the run is over. */
  lemma StepKeepsInvariants(s: RunState, W: int, H: int, input: Input)
    requires input.NextFrame? ==> IsDraws(input.d)
    requires ValidState(s, H)
    ensures var t := Step(s, W, H, input);
      && ValidState(t, H)
      && t.score >= s.score && t.level >= s.level && t.highscore >= s.highscore
      && t.frames <= s.frames + 1
      && (s.highscore >= s.score ==> t.highscore >= t.score)
      && (!s.running ==> t == s)
  {
    if s.running && input.NextFrame? {
      TickKeepsValid(s, W, H, input.d);
    }
  }

  /** Over any run: the invariant holds throughout (so the score is always the
      frame count over four), score, level and high score never decrease, the
      high score stays at least the score, and a finished run stays frozen. */
  lemma {:induction false} PlayKeepsInvariants(s: RunState, W: int, H: int, inputs: seq<Input>)
    requires WellDrawn(inputs) && ValidState(s, H)
    decreases |inputs|
    ensures var t := Play(s, W, H, inputs);
      && ValidState(t, H)
      && t.score >= s.score && t.level >= s.level && t.highscore >= s.highscore
      && t.frames <= s.frames + |inputs|
      && (s.highscore >= s.score ==> t.highscore >= t.score)
      && (!s.running ==> t == s)
  {
    if inputs != [] {
      var s1 := Step(s, W, H, inputs[0]);
      StepKeepsInvariants(s, W, H, inputs[0]);
      assert WellDrawn(inputs[1..]) by {
        forall i | 0 <= i < |inputs[1..]| ensures inputs[1..][i].NextFrame? ==> IsDraws(inputs[1..][i].d) {
          assert inputs[1..][i] == inputs[i + 1];
        }
      }
      PlayKeepsInvariants(s1, W, H, inputs[1..]);
    }
  }

  // ---------------------------------------------------------------------------
  // The mutable game

  /** `state.player`: the fields the game changes. */
  class Player {
    var y: real
    var vy: real
    var grounded: bool

    constructor ()
      ensures y == StartY && vy == 0.0 && !grounded
    {
      y, vy, grounded := StartY, 0.0, false;
    }
  }

  /** The global `state` and `highscore` of the game, on a `W` by `H` canvas. */
  class Game {
    const W: int
    const H: int
    const player: Player
    var obstacles: seq<Obstacle>
    var scrollSpeed: int
    var score: int
    var level: int
    var running: bool
    var frames: int
    var highscore: int

    ghost function View(): RunState
      reads this, player
    {
      RunState(player.y, player.vy, player.grounded, obstacles,
               scrollSpeed, score, level, running, frames, highscore)
    }

    ghost predicate Valid()
      reads this, player
    {
      ValidState(View(), H)
    }

    /** The initial `state` literal, with `highscore` as read from storage. */
    constructor (width: int, height: int, storedHighscore: int)
      ensures W == width && H == height && fresh(player)
      ensures View() == Initial(storedHighscore)
      ensures Valid()
    {
      W, H := width, height;
      player := new Player();
      obstacles, scrollSpeed, score, level, running, frames := [], 6, 0, 1, true, 0;
      highscore := storedHighscore;
    }

    /** `resetState()` */
    method Reset()
      modifies this, player
      ensures View() == Initial(old(highscore))
      ensures Valid()
    {
      obstacles := [];
      scrollSpeed := 6;
      score := 0;
      level := 1;
      running := true;
      frames := 0;
      player.y := StartY;
      player.vy := 0.0;
      player.grounded := false;
    }

    /** `spawnObstacle()` */
    method SpawnObstacle(d: Draws)
      requires IsDraws(d)
      modifies this`obstacles
      ensures obstacles == old(obstacles) + [NewObstacle(level, W, H, d)]
    {
      var h := 20 + (d.height * (20 + level * 3) as real).Floor;
      var w := 18 + (d.width * (20 + level) as real).Floor;
      var y := H - 20 - h;
      assert NewObstacle(level, W, H, d) == Obstacle(W + 10, y, w, h);
      obstacles := obstacles + [Obstacle(W + 10, y, w, h)];
    }

    /** The spawn test of a frame: `spawnObstacle()` when the draw is below
        the spawn chance. */
    method SpawnTest(d: Draws)
      requires IsDraws(d)
      modifies this`obstacles
      ensures obstacles == Spawned(old(obstacles), level, W, H, d)
    {
      if d.spawn < SpawnProbability(level) {
        SpawnObstacle(d);
      }
    }

    /** The backward loop that moves every obstacle and splices out those
        past the left margin. */
    method ScrollObstacles()
      modifies this`obstacles
      ensures obstacles == Scrolled(old(obstacles), scrollSpeed)
    {
      ghost var before := obstacles;
      var i := |obstacles|;
      while i > 0
        invariant 0 <= i <= |before|
        invariant obstacles == before[..i] + Scrolled(before[i..], scrollSpeed)
      {
        i := i - 1;
        assert obstacles[..i] == before[..i] && obstacles[i] == before[i];
        var moved := Shift(obstacles[i], scrollSpeed);
        ghost var rest := Scrolled(before[i + 1..], scrollSpeed);
        assert before[i..][1..] == before[i + 1..];
        assert obstacles[i + 1..] == rest;
        if OffScreen(moved) {
          obstacles := obstacles[..i] + obstacles[i + 1..];
        } else {
          obstacles := obstacles[..i] + [moved] + obstacles[i + 1..];
        }
      }
      assert before[0..] == before;
    }

    /** The collision loop: any overlapping obstacle ends the run. */
    method CheckCollisions()
      modifies this`running
      ensures running == (old(running) && !HitsAny(player.y, obstacles))
    {
      for i := 0 to |obstacles|
        invariant running == (old(running) && !HitsAny(player.y, obstacles[..i]))
      {
        assert obstacles[..i + 1] == obstacles[..i] + [obstacles[i]];
        if Overlaps(player.y, obstacles[i]) {
          running := false;
        }
      }
      assert obstacles[..|obstacles|] == obstacles;
    }

    /** The player's part of `updatePhysics()`. */
    method MovePlayer()
      modifies player
      ensures View() == Fall(old(View()), H)
    {
      player.y := player.y + player.vy;
      player.vy := player.vy + Gravity;
      if player.y + PlayerH as real >= GroundLine(H) {
        player.y := GroundLine(H) - PlayerH as real;
        player.vy := 0.0;
        player.grounded := true;
      }
    }

    /** The score, level and high-score part of `updatePhysics()`. */
    method UpdateScore()
      modifies this`score, this`level, this`scrollSpeed, this`highscore
      ensures View() == Scoring(old(View()))
    {
      if frames % 4 == 0 {
        score := score + 1;
      }
      var newLevel := LevelFor(score);
      if newLevel != level {
        level := newLevel;
        scrollSpeed := SpeedFor(level);
      }
      if score > highscore {
        highscore := score;
      }
    }

    /** `updatePhysics()` */
    method UpdatePhysics(d: Draws)
      requires IsDraws(d) && Valid()
      modifies this, player
      ensures View() == Tick(old(View()), W, H, d)
      ensures Valid()
    {
      ghost var s := View();
      frames := frames + 1;
      SpawnTest(d);
      assert View() == s.(frames := s.frames + 1, obstacles := Spawned(s.obstacles, s.level, W, H, d));
      MovePlayer();
      ScrollObstacles();
      CheckCollisions();
      assert View() == Advance(s, W, H, d);
      UpdateScore();
      assert View() == Tick(s, W, H, d);
      TickKeepsValid(s, W, H, d);
    }

    /** `jump()` */
    method Jump()
      requires Valid()
      modifies player
      ensures View() == Jumped(old(View()))
      ensures Valid()
      ensures old(player.grounded) ==> player.vy == -(JumpPower as real) && !player.grounded
      ensures !old(player.grounded) ==> unchanged(player)
    {
      if !player.grounded {
        return;
      }
      player.vy := -(JumpPower as real);
      player.grounded := false;
    }

    /** One call of `loop()`: a frame while running, game over otherwise. */
    method Frame(d: Draws) returns (gameOver: bool)
      requires IsDraws(d) && Valid()
      modifies this, player
      ensures gameOver == !old(running)
      ensures View() == Step(old(View()), W, H, NextFrame(d))
      ensures Valid()
    {
      if !running {
        return true;
      }
      UpdatePhysics(d);
      return false;
    }

    /** `restart()`: reset, then the first frame of the new run. */
    method Restart(d: Draws)
      requires IsDraws(d)
      modifies this, player
      ensures View() == Tick(Initial(old(highscore)), W, H, d)
      ensures Valid()
    {
      Reset();
      var _ := Frame(d);
    }

    /** The pointer handler: a jump while running. */
    method OnPointerDown()
      requires Valid()
      modifies player
      ensures View() == Step(old(View()), W, H, Tap)
      ensures Valid()
    {
      if running {
        Jump();
      }
    }

    /** The key handler: Space jumps while running, Enter restarts once the
        run is over; `d` are the draws of the restart's first frame. */
    method OnKeyDown(key: Key, d: Draws)
      requires IsDraws(d) && Valid()
      modifies this, player
      ensures key == Space ==> View() == Step(old(View()), W, H, Tap)
      ensures key == Enter && !old(running) ==> View() == Tick(Initial(old(highscore)), W, H, d)
      ensures key == Enter && old(running) ==> View() == old(View())
      ensures key == OtherKey ==> View() == old(View())
      ensures Valid()
    {
      if key == Space {
        if running {
          Jump();
        }
      }
      if !running && key == Enter {
        Restart(d);
      }
    }
  }

  datatype Key = Space | Enter | OtherKey
}
