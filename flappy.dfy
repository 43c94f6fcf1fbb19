/**
 * The Flappy game's state machine: the game controller's run / game-over /
 * score state, the bird's press handling, the one-shot score gate, the pipe
 * spawner's interval timer and pipe-pair geometry, and the pipe mover.
 *
 * Each MonoBehaviour whose fields the game updates is a class here. The
 * controller's observable state is also given as a value, GameState, with one
 * pure step function per operation; the methods are proved to perform those
 * steps and the lemmas state what the steps promise. Unity's per-frame inputs
 * (Time.deltaTime, whether a key or button went down this frame, the value of
 * UnityEngine.Random.Range, which collider entered a trigger) are parameters.
 */
module Flappy {
  import opened UnityMath
  import opened DecimalText

  // ---------------------------------------------------------------------
  // PipeSpawner: configuration, timer, pipe-pair geometry
  // ---------------------------------------------------------------------

  const SpawnInterval: real := 1.6
  const ScrollSpeed: real := 2.8
  const HorizontalSpawn: real := 8.5
  const VerticalRange: real := 2.4
  const GapSize: real := 2.8
  /** How far each pipe's centre lies beyond its edge of the gap. */
  const PipeOffset: real := 3.5
  /** A pipe's local y scale; its unit box collider is that tall. */
  const PipeHeight: real := 7.2
  /** A pipe pair is destroyed once it has scrolled left of this x. */
  const DespawnX: real := -12.0

  datatype SpawnerState = SpawnerState(active: bool, timer: real)

  /** A spawner that is stopped, or whose accumulated time is still below the interval. */
  predicate TimerInRange(s: SpawnerState)
  {
    0.0 <= s.timer < SpawnInterval
  }

  /**
   * One frame of PipeSpawner.Update with frame time dt: the new spawner state
   * and whether a pipe pair spawns.
   */
  function SpawnerTick(s: SpawnerState, dt: real): (r: (SpawnerState, bool))
    ensures r.0.active == s.active
    ensures r.1 <==> s.active && s.timer + dt >= SpawnInterval
    ensures r.1 ==> r.0.timer == 0.0
    ensures s.active && !r.1 ==> r.0.timer == s.timer + dt
    ensures !s.active ==> r.0 == s
  {
    if !s.active then (s, false)
    else if s.timer + dt >= SpawnInterval then (SpawnerState(true, 0.0), true)
    else (SpawnerState(true, s.timer + dt), false)
  }

  /** With non-negative frame times the timer stays in [0, spawnInterval). */
  lemma TickKeepsTimerInRange(s: SpawnerState, dt: real)
    requires TimerInRange(s) && dt >= 0.0
    ensures TimerInRange(SpawnerTick(s, dt).0)
  {
  }

  /** One frame spawns at most one pair, so a sequence of frames spawns at most one pair per frame. */
  function SpawnCount(s: SpawnerState, dts: seq<real>): (n: nat)
    ensures n <= |dts|
    ensures !s.active ==> n == 0
    decreases |dts|
  {
    if dts == [] then 0
    else
      var (next, spawned) := SpawnerTick(s, dts[0]);
      (if spawned then 1 else 0) + SpawnCount(next, dts[1..])
  }

  /** The state after a sequence of frames. */
  function TickAll(s: SpawnerState, dts: seq<real>): SpawnerState
    decreases |dts|
  {
    if dts == [] then s else TickAll(SpawnerTick(s, dts[0]).0, dts[1..])
  }

  /** The total frame time of a sequence of frames. */
  function Elapsed(dts: seq<real>): real
    decreases |dts|
  {
    if dts == [] then 0.0 else dts[0] + Elapsed(dts[1..])
  }

  predicate NonNegativeFrames(dts: seq<real>)
  {
    forall i :: 0 <= i < |dts| ==> dts[i] >= 0.0
  }

  /**
   * Time is conserved: every spawn consumes at least one interval, so the
   * time left on the timer plus one interval per spawn never exceeds the
   * time the spawner started with plus the elapsed frame time.
   */
  lemma {:induction false} SpawnsAccountForTime(s: SpawnerState, dts: seq<real>)
    requires s.active && TimerInRange(s) && NonNegativeFrames(dts)
    ensures SpawnCount(s, dts) as real * SpawnInterval + TickAll(s, dts).timer <= s.timer + Elapsed(dts)
    decreases |dts|
  {
    if dts != [] {
      var (next, spawned) := SpawnerTick(s, dts[0]);
      assert NonNegativeFrames(dts[1..]) by {
        forall i | 0 <= i < |dts[1..]| ensures dts[1..][i] >= 0.0 {
          assert dts[1..][i] == dts[i + 1];
        }
      }
      SpawnsAccountForTime(next, dts[1..]);
    }
  }

  /** Where SpawnPipePair puts the parts of one pair, for the random centre centerY. */
  datatype PipeLayout = PipeLayout(parentX: real, topY: real, bottomY: real, gateY: real, gateHeight: real, speed: real)

  function Layout(centerY: real): (p: PipeLayout)
    ensures p.topY - p.bottomY == GapSize + 2.0 * PipeOffset
    ensures p.topY + p.bottomY == 2.0 * centerY
    ensures p.gateY == centerY && p.gateHeight == GapSize
    ensures p.parentX == HorizontalSpawn && p.speed == ScrollSpeed
  {
    PipeLayout(HorizontalSpawn, centerY + GapSize * 0.5 + PipeOffset, centerY - GapSize * 0.5 - PipeOffset, centerY, GapSize, ScrollSpeed)
  }

  /**
   * The two pipe colliders leave an open passage around centerY, and the
   * score gate's trigger spans the whole passage: a bird that flies through
   * the pair enters the gate. For a centre drawn from
   * [-verticalRange, verticalRange] the passage lies within [-3.7, 3.7].
   */
  lemma PassageIsOpenAndGated(centerY: real)
    ensures var p := Layout(centerY);
      var passageLow, passageHigh := p.bottomY + PipeHeight / 2.0, p.topY - PipeHeight / 2.0;
      passageLow < centerY < passageHigh &&
      passageHigh - passageLow == GapSize + 2.0 * PipeOffset - PipeHeight &&
      p.gateY - p.gateHeight / 2.0 <= passageLow && passageHigh <= p.gateY + p.gateHeight / 2.0 &&
      (-VerticalRange <= centerY <= VerticalRange ==> -3.7 <= passageLow && passageHigh <= 3.7)
  {
  }

  /** A spawned pair: its layout, its mover and its score gate. */
  datatype PipePair = PipePair(layout: PipeLayout, mover: PipeMover, gate: ScoreGate)

  class PipeSpawner {
    var active: bool
    var timer: real

    function State(): SpawnerState
      reads this
    {
      SpawnerState(active, timer)
    }

    constructor ()
      ensures State() == SpawnerState(false, 0.0)
    {
      active, timer := false, 0.0;
    }

    method Begin()
      modifies this
      ensures State() == SpawnerState(true, 0.0)
    {
      active := true;
      timer := 0.0;
    }

    /** Stop clears the flag and keeps the accumulated time. */
    method Stop()
      modifies this
      ensures State() == SpawnerState(false, old(timer))
    {
      active := false;
    }

    /**
     * One frame of Update, with frame time dt and the value centerY that
     * Random.Range(-verticalRange, verticalRange) returns if a pair spawns.
     */
    method Update(dt: real, centerY: real) returns (pair: Option<PipePair>)
      modifies this
      ensures (State(), pair.Some?) == SpawnerTick(old(State()), dt)
      ensures pair.Some? ==> pair.value.layout == Layout(centerY)
      ensures pair.Some? ==> fresh(pair.value.mover) && fresh(pair.value.gate)
      ensures pair.Some? ==>
        pair.value.mover.position == Vec3(HorizontalSpawn, 0.0, 0.0) &&
        pair.value.mover.speed == ScrollSpeed && !pair.value.mover.destroyed
      ensures pair.Some? ==> !pair.value.gate.scored && pair.value.gate.Valid()
    {
      if !active {
        return None;
      }
      timer := timer + dt;
      if timer >= SpawnInterval {
        timer := 0.0;
        var spawned := SpawnPipePair(centerY);
        return Some(spawned);
      }
      pair := None;
    }

    method SpawnPipePair(centerY: real) returns (pair: PipePair)
      ensures pair.layout == Layout(centerY)
      ensures fresh(pair.mover) && fresh(pair.gate)
      ensures pair.mover.position == Vec3(HorizontalSpawn, 0.0, 0.0) && pair.mover.speed == ScrollSpeed && !pair.mover.destroyed
      ensures !pair.gate.scored && pair.gate.Valid()
    {
      var layout := Layout(centerY);
      var gate := new ScoreGate();
      var mover := new PipeMover(Vec3(HorizontalSpawn, 0.0, 0.0));
      mover.speed := ScrollSpeed;
      pair := PipePair(layout, mover, gate);
    }
  }

  // ---------------------------------------------------------------------
  // PipeMover
  // ---------------------------------------------------------------------

  /** PipeMover.Speed's initial value. */
  const DefaultSpeed: real := 2.8

  /**
   * Where a pipe pair at x is after frames of the given durations, not
   * counting game over or despawning: never to the right of x when the speed
   * and the frame times are non-negative.
   */
  function ScrollX(x: real, speed: real, dts: seq<real>): (r: real)
    ensures speed >= 0.0 && NonNegativeFrames(dts) ==> r <= x
    decreases |dts|
  {
    if dts == [] then x else ScrollX(x - speed * dts[0], speed, dts[1..])
  }

  /** Scrolling is frame-rate independent: the distance covered depends only on the elapsed time. */
  lemma {:induction false} ScrollIsFrameRateIndependent(x: real, speed: real, dts: seq<real>)
    ensures ScrollX(x, speed, dts) == x - speed * Elapsed(dts)
    decreases |dts|
  {
    if dts != [] {
      ScrollIsFrameRateIndependent(x - speed * dts[0], speed, dts[1..]);
      var dt, rest := dts[0], Elapsed(dts[1..]);
      assert Elapsed(dts) == dt + rest;
      assert speed * (dt + rest) == speed * dt + speed * rest;
    }
  }

  class PipeMover {
    var position: Vec3
    var speed: real
    var destroyed: bool

    constructor (position: Vec3)
      ensures this.position == position && speed == DefaultSpeed && !destroyed
    {
      this.position := position;
      speed := DefaultSpeed;
      destroyed := false;
    }

    /** One frame of Update; Unity stops calling it once the object is destroyed. */
    method Update(dt: real, game: FlappyGameController)
      requires !destroyed
      modifies this
      ensures old(game.isGameOver) ==> unchanged(this)
      ensures !old(game.isGameOver) ==>
        position == Vec3(ScrollX(old(position.x), old(speed), [dt]), old(position.y), old(position.z)) &&
        speed == old(speed) && (destroyed <==> position.x < DespawnX)
    {
      if game.isGameOver {
        return;
      }
      position := position.(x := position.x - speed * dt);
      if position.x < DespawnX {
        destroyed := true;
      }
    }
  }

  // ---------------------------------------------------------------------
  // FlappyGameController
  // ---------------------------------------------------------------------

  const StartHint: string := "Tap / Space to fly"
  const GameOverHint: string := "Game Over\nPress R to Restart"

  /** What the controller shows and decides: run flags, score, the two texts, and its spawner. */
  datatype GameState = GameState(running: bool, gameOver: bool, score: int, scoreText: string, hintText: string, spawner: SpawnerState)

  /** The state after the first controller's Awake has built the world and the UI. */
  const Initial: GameState := GameState(false, false, 0, "0", StartHint, SpawnerState(false, 0.0))

  /**
   * The invariant of the game: never running and over at once, the spawner
   * runs exactly while the game runs, the score is a 32-bit int and the score
   * text is its decimal form.
   */
  predicate Consistent(s: GameState)
  {
    !(s.running && s.gameOver) &&
    (s.spawner.active <==> s.running) &&
    TimerInRange(s.spawner) &&
    IsInt32(s.score) &&
    s.scoreText == IntToString(s.score)
  }

  function StartRunStep(s: GameState): (r: GameState)
    ensures s.running || s.gameOver ==> r == s
    ensures !s.running && !s.gameOver ==> r.running && r.hintText == "" && r.spawner == SpawnerState(true, 0.0)
    ensures r.gameOver == s.gameOver && r.score == s.score && r.scoreText == s.scoreText
  {
    if s.running || s.gameOver then s
    else s.(running := true, hintText := "", spawner := SpawnerState(true, 0.0))
  }

  function AddScoreStep(s: GameState, amount: int): (r: GameState)
    ensures s.gameOver ==> r == s
    ensures !s.gameOver ==> r == s.(score := r.score, scoreText := r.scoreText)
    ensures !s.gameOver ==> (r.score - (s.score + amount)) % TwoTo32 == 0
    ensures !s.gameOver ==> IsInt32(r.score) && r.scoreText == IntToString(r.score)
  {
    if s.gameOver then s
    else
      var score := Wrap32(s.score + amount);
      s.(score := score, scoreText := IntToString(score))
  }

  function GameOverStep(s: GameState): (r: GameState)
    ensures r.gameOver
    ensures s.gameOver ==> r == s
    ensures !s.gameOver ==> !r.running && r.spawner == SpawnerState(false, s.spawner.timer) && r.hintText == GameOverHint
    ensures r.score == s.score && r.scoreText == s.scoreText
  {
    if s.gameOver then s
    else s.(gameOver := true, running := false, hintText := GameOverHint, spawner := SpawnerState(false, s.spawner.timer))
  }

  /** A frame of the controller's spawner: only the spawner's timer moves, and only while it runs. */
  function TickStep(s: GameState, dt: real): (r: GameState)
    ensures r.running == s.running && r.gameOver == s.gameOver
    ensures r.score == s.score && r.scoreText == s.scoreText && r.hintText == s.hintText
    ensures r.spawner.active == s.spawner.active
    ensures !s.spawner.active ==> r == s
  {
    s.(spawner := SpawnerTick(s.spawner, dt).0)
  }

  /** The state the first controller starts in is consistent. */
  lemma InitialIsConsistent()
    ensures Consistent(Initial)
  {
    assert IntToString(0) == [DigitChar(0)];
  }

  /** Every operation preserves the invariant (the spawner given a non-negative frame time). */
  lemma StepsPreserveConsistency(s: GameState, amount: int, dt: real)
    requires Consistent(s)
    ensures Consistent(StartRunStep(s))
    ensures Consistent(AddScoreStep(s, amount))
    ensures Consistent(GameOverStep(s))
    ensures dt >= 0.0 ==> Consistent(TickStep(s, dt))
  {
    if dt >= 0.0 {
      TickKeepsTimerInRange(s.spawner, dt);
    }
  }

  /** The score text always reads back as the score. */
  lemma ScoreTextShowsScore(s: GameState)
    requires Consistent(s)
    ensures ParseInt(s.scoreText) == s.score
  {
    IntToStringRoundTrip(s.score);
  }

  /** TriggerGameOver is idempotent. */
  lemma GameOverIsIdempotent(s: GameState)
    ensures GameOverStep(GameOverStep(s)) == GameOverStep(s)
  {
  }

  /** Once the game is over nothing un-sets it, and StartRun, AddScore and TriggerGameOver change nothing. */
  lemma GameOverIsFinal(s: GameState, amount: int, dt: real)
    requires s.gameOver
    ensures StartRunStep(s) == s && AddScoreStep(s, amount) == s && GameOverStep(s) == s
    ensures TickStep(s, dt).gameOver
  {
  }

  /** The score after `gates` gates each add 1. */
  function AddOnes(s: GameState, gates: nat): GameState
    decreases gates
  {
    if gates == 0 then s else AddOnes(AddScoreStep(s, 1), gates - 1)
  }

  /** While the game goes on and the score stays within int range, passing n gates adds exactly n. */
  lemma {:induction false} GatesAddUp(s: GameState, gates: nat)
    requires Consistent(s) && !s.gameOver && IsInt32(s.score + gates)
    ensures AddOnes(s, gates).score == s.score + gates
    ensures AddOnes(s, gates).scoreText == IntToString(s.score + gates)
    ensures Consistent(AddOnes(s, gates))
    decreases gates
  {
    if gates > 0 {
      var next := AddScoreStep(s, 1);
      assert next.score == s.score + 1;
      StepsPreserveConsistency(s, 1, 0.0);
      GatesAddUp(next, gates - 1);
    }
  }

  class FlappyGameController {
    var isRunning: bool
    var isGameOver: bool
    var score: int
    var scoreText: string
    var hintText: string
    var destroyed: bool
    const spawner: PipeSpawner

    function State(): GameState
      reads this, spawner
    {
      GameState(isRunning, isGameOver, score, scoreText, hintText, spawner.State())
    }

    ghost predicate Valid()
      reads this, spawner
    {
      Consistent(State())
    }

    /** A controller with its spawner and UI built, as the first Awake leaves it. */
    constructor ()
      ensures State() == Initial && Valid() && !destroyed
      ensures fresh(spawner)
    {
      isRunning, isGameOver, score := false, false, 0;
      scoreText, hintText := "0", StartHint;
      destroyed := false;
      spawner := new PipeSpawner();
      InitialIsConsistent();
    }

    /** The singleton guard: a second controller destroys itself and the first stays registered. */
    method Awake(registry: GameRegistry)
      modifies registry, this`destroyed
      ensures old(registry.instance) != null ==> registry.instance == old(registry.instance) && destroyed
      ensures old(registry.instance) == null ==> registry.instance == this && destroyed == old(destroyed)
    {
      if registry.instance != null {
        destroyed := true;
        return;
      }
      registry.instance := this;
    }

    method StartRun()
      requires Valid()
      modifies this`isRunning, this`hintText, spawner
      ensures State() == StartRunStep(old(State()))
      ensures Valid()
    {
      StepsPreserveConsistency(State(), 0, 0.0);
      if isRunning || isGameOver {
        return;
      }
      isRunning := true;
      hintText := "";
      spawner.Begin();
    }

    method AddScore(amount: int)
      requires Valid()
      modifies this`score, this`scoreText
      ensures State() == AddScoreStep(old(State()), amount)
      ensures Valid()
    {
      StepsPreserveConsistency(State(), amount, 0.0);
      if isGameOver {
        return;
      }
      score := Wrap32(score + amount);
      scoreText := IntToString(score);
    }

    method TriggerGameOver()
      requires Valid()
      modifies this`isRunning, this`isGameOver, this`hintText, spawner
      ensures State() == GameOverStep(old(State()))
      ensures Valid()
    {
      StepsPreserveConsistency(State(), 0, 0.0);
      if isGameOver {
        return;
      }
      isGameOver := true;
      isRunning := false;
      hintText := GameOverHint;
      spawner.Stop();
    }
  }

  /** FlappyGameController.Instance. */
  class GameRegistry {
    var instance: FlappyGameController?

    constructor ()
      ensures instance == null
    {
      instance := null;
    }
  }

  // ---------------------------------------------------------------------
  // ScoreGate
  // ---------------------------------------------------------------------

  class ScoreGate {
    var scored: bool
    /** How many times this gate has called AddScore. */
    ghost var scoreCalls: nat

    ghost predicate Valid()
      reads this
    {
      scoreCalls == if scored then 1 else 0
    }

    constructor ()
      ensures !scored && scoreCalls == 0 && Valid()
    {
      scored := false;
      scoreCalls := 0;
    }

    /** A collider entered the trigger; otherIsBird says whether it carries a BirdController. */
    method OnTriggerEnter2D(otherIsBird: bool, game: FlappyGameController)
      requires Valid() && game.Valid()
      modifies this, game`score, game`scoreText
      ensures Valid() && scoreCalls <= 1 && game.Valid()
      ensures old(scored) || !otherIsBird ==> scored == old(scored) && scoreCalls == old(scoreCalls) && game.State() == old(game.State())
      ensures !old(scored) && otherIsBird ==> scored && scoreCalls == 1 && game.State() == AddScoreStep(old(game.State()), 1)
    {
      if scored || !otherIsBird {
        return;
      }
      scored := true;
      scoreCalls := scoreCalls + 1;
      game.AddScore(1);
    }
  }

  // ---------------------------------------------------------------------
  // BirdController
  // ---------------------------------------------------------------------

  const FlapVelocity: real := 5.8
  const MaxRotation: real := 30.0
  const MinRotation: real := -70.0

  /** The nose angle the bird turns towards for vertical velocity vy. */
  function TargetRotation(vy: real): (r: real)
    ensures MinRotation <= r <= MaxRotation
    ensures vy <= -8.0 ==> r == MinRotation
    ensures vy >= 8.0 ==> r == MaxRotation
  {
    Lerp(MinRotation, MaxRotation, InverseLerp(-8.0, 8.0, vy))
  }

  /** A bird that climbs faster points its nose higher. */
  lemma TargetRotationMonotone(v1: real, v2: real)
    requires v1 <= v2
    ensures TargetRotation(v1) <= TargetRotation(v2)
  {
    InverseLerpMonotone(-8.0, 8.0, v1, v2);
    LerpMonotone(MinRotation, MaxRotation, InverseLerp(-8.0, 8.0, v1), InverseLerp(-8.0, 8.0, v2));
  }

  class BirdController {
    /** Rigidbody2D.simulated: the body stays frozen until the first press. */
    var simulated: bool
    var velocityX: real
    var velocityY: real

    constructor ()
      ensures !simulated && velocityX == 0.0 && velocityY == 0.0
    {
      simulated, velocityX, velocityY := false, 0.0, 0.0;
    }

    /**
     * One frame of Update; pressed says whether Space or the mouse button went
     * down this frame. Returns the target rotation, or None when the game is
     * over and nothing happens.
     */
    method Update(pressed: bool, game: FlappyGameController) returns (target: Option<real>)
      requires game.Valid()
      modifies this, game`isRunning, game`hintText, game.spawner
      ensures game.Valid()
      ensures old(game.isGameOver) ==> target == None && unchanged(this) && game.State() == old(game.State())
      ensures !old(game.isGameOver) && pressed ==>
        velocityX == 0.0 && velocityY == FlapVelocity &&
        simulated == (old(simulated) || !old(game.isRunning)) &&
        game.State() == (if old(game.isRunning) then old(game.State()) else StartRunStep(old(game.State())))
      ensures !old(game.isGameOver) && !pressed ==>
        unchanged(this) && game.State() == old(game.State())
      ensures !old(game.isGameOver) ==> target == Some(TargetRotation(velocityY))
    {
      if game.isGameOver {
        return None;
      }
      if pressed {
        if !game.isRunning {
          simulated := true;
          game.StartRun();
        }
        velocityX, velocityY := 0.0, FlapVelocity;
      }
      target := Some(TargetRotation(velocityY));
    }

    /** Any collision ends the game. */
    method OnCollisionEnter2D(game: FlappyGameController)
      requires game.Valid()
      modifies game`isRunning, game`isGameOver, game`hintText, game.spawner
      ensures game.State() == GameOverStep(old(game.State()))
      ensures game.Valid()
    {
      game.TriggerGameOver();
    }
  }

  /** A press while idle starts the run immediately, with a fresh spawner timer. */
  lemma FirstPressStartsRun(s: GameState)
    requires Consistent(s) && !s.running && !s.gameOver
    ensures var r := StartRunStep(s); Consistent(r) && r.running && r.spawner == SpawnerState(true, 0.0) && r.hintText == ""
  {
    StepsPreserveConsistency(s, 0, 0.0);
  }
}
