/**
 * The gameplay screen of the Asteroids clone: the player ship, its key
 * handling and movement, the asteroids in the stage, their spawning at a
 * screen edge and their straight-line movement, all with toroidal screen
 * wrap.
 *
 * Floating-point values are modelled as exact reals. The trigonometry of
 * the movement step (cos and sin of an angle given in degrees) is a
 * parameter `heading` of the operations that move things; the random draws
 * of rand() are parameters too.
 */
module Gameplay {

  /** A 2D vector (raylib's Vector2). */
  datatype Vec = Vec(x: real, y: real)

  /**
   * (cos, sin) of an angle given in degrees: the degree-to-radian conversion
   * and the trigonometric functions of the movement step.
   */
  type Heading = real -> Vec

  /** Every component a heading yields lies in [-1, 1], as cos and sin do. */
  ghost predicate UnitBounded(heading: Heading)
  {
    forall t :: -1.0 <= heading(t).x <= 1.0 && -1.0 <= heading(t).y <= 1.0
  }

  /** An asteroid; its sprite and sprite centre are drawing data and left out. */
  datatype Asteroid = Asteroid(position: Vec, rotationDegrees: real, movementSpeed: real, size: int)

  /** The three rand() results one spawned asteroid consumes, in call order. */
  datatype SpawnDraw = SpawnDraw(side: nat, offset: nat, angle: nat)

  /** Which movement keys are held and whether escape was pressed this frame. */
  datatype GameplayKeys = GameplayKeys(
    keyA: bool, keyLeft: bool, keyD: bool, keyRight: bool,
    keyW: bool, keyUp: bool, keyS: bool, keyDown: bool,
    escapePressed: bool)

  const DefaultAsteroidSpeed: real := 5.0
  const SpawnedAsteroidSize := 3
  const PlayerRotationAlpha: real := 10.0
  const PlayerSpeedAlpha: real := 5.0
  const PlayerDecelerationRate: real := 0.1
  /** The player sprite points up, so its forwards is 90 degrees before its heading. */
  const PlayerOffsetDegrees: real := -90.0
  const AsteroidOffsetDegrees: real := 0.0
  /** InitGameplayScreen spawns `rand() % MaxInitialAsteroids + 1` asteroids. */
  const MaxInitialAsteroids := 8

  function Abs(r: real): real
  {
    if r < 0.0 then -r else r
  }

  function Min(a: int, b: int): int
  {
    if a < b then a else b
  }

  /** The closed screen rectangle [0, width] x [0, height]. */
  predicate OnScreen(p: Vec, width: int, height: int)
  {
    0.0 <= p.x <= width as real && 0.0 <= p.y <= height as real
  }

  predicate IsUnitInput(v: real)
  {
    v == -1.0 || v == 0.0 || v == 1.0
  }

  // ---------------------------------------------------------------------------
  // Movement and screen wrap
  // ---------------------------------------------------------------------------

  /**
   * One axis of the wrap in MoveObjectForwards: add the screen size when the
   * coordinate is negative, subtract it when it is strictly greater than the
   * size. A coordinate equal to the size stays where it is.
   */
  function WrapAxis(c: real, size: int): real
  {
    var c' := if c < 0.0 then c + size as real else c;
    if c' > size as real then c' - size as real else c'
  }

  /**
   * What the wrap does to one coordinate: it moves it by 0, +size or -size;
   * it leaves a coordinate in [0, size] alone; a coordinate at most one screen
   * size outside [0, size] lands in [0, size]; a negative one gains size and
   * one above size loses it.
   */
  lemma WrapAxisCases(c: real, size: int)
    ensures var r := WrapAxis(c, size);
      && (r == c || r == c + size as real || r == c - size as real)
      && (0.0 <= c <= size as real ==> r == c)
      && (0 <= size && -(size as real) <= c <= 2.0 * size as real ==> 0.0 <= r <= size as real)
      && (0 < size && c < 0.0 ==> r == c + size as real)
      && (0 <= size && c > size as real ==> r == c - size as real)
  {
  }

  /** The raw displacement of one movement step: speed times (cos, sin) of the angle. */
  function Displacement(rotationDegrees: real, speed: real, offsetDegrees: real, heading: Heading): Vec
  {
    var h := heading(rotationDegrees + offsetDegrees);
    Vec(speed * h.x, speed * h.y)
  }

  /**
   * MoveObjectForwards: advance `pos` by the displacement, then wrap each axis
   * on its own. The source mutates the position through a pointer; here the
   * new position is returned and the caller stores it.
   */
  function MoveObjectForwards(pos: Vec, rotationDegrees: real, speed: real, offsetDegrees: real,
                              heading: Heading, width: int, height: int): Vec
  {
    var d := Displacement(rotationDegrees, speed, offsetDegrees, heading);
    Vec(WrapAxis(pos.x + d.x, width), WrapAxis(pos.y + d.y, height))
  }

  /**
   * The wrap corrects each axis on its own by one screen size at most, and
   * leaves a displaced position that is already on the screen alone.
   */
  lemma MoveWrapsEachAxis(pos: Vec, rotationDegrees: real, speed: real, offsetDegrees: real,
                          heading: Heading, width: int, height: int)
    ensures var r := MoveObjectForwards(pos, rotationDegrees, speed, offsetDegrees, heading, width, height);
      var d := Displacement(rotationDegrees, speed, offsetDegrees, heading);
      && r.x - (pos.x + d.x) in {0.0, width as real, -(width as real)}
      && r.y - (pos.y + d.y) in {0.0, height as real, -(height as real)}
      && (OnScreen(Vec(pos.x + d.x, pos.y + d.y), width, height) ==> r == Vec(pos.x + d.x, pos.y + d.y))
  {
  }

  /** A speed scaled by a value in [-1, 1] is no larger in magnitude than a bound on the speed. */
  lemma ScaledByUnit(s: real, c: real, bound: real)
    requires -1.0 <= c <= 1.0 && Abs(s) <= bound
    ensures -bound <= s * c <= bound
  {
    var a := Abs(s);
    MulNonneg(a, 1.0 - c);
    MulNonneg(a, c + 1.0);
    assert a * (1.0 - c) == a - a * c;
    assert a * (c + 1.0) == a * c + a;
    assert s * c == a * c || s * c == -(a * c);
  }

  /** Under a bounded heading, each component of a step is bounded by any bound on the speed. */
  lemma DisplacementBounded(rotationDegrees: real, speed: real, offsetDegrees: real, heading: Heading, bound: real)
    requires UnitBounded(heading) && Abs(speed) <= bound
    ensures var d := Displacement(rotationDegrees, speed, offsetDegrees, heading);
      -bound <= d.x <= bound && -bound <= d.y <= bound
  {
    var h := heading(rotationDegrees + offsetDegrees);
    assert -1.0 <= h.x <= 1.0 && -1.0 <= h.y <= 1.0;
    ScaledByUnit(speed, h.x, bound);
    ScaledByUnit(speed, h.y, bound);
  }

  /** The thrust step's speed is at most any bound on the thrust speed. */
  lemma ThrustSpeedBounded(speedAlpha: real, input: real, bound: real)
    requires 0.0 <= speedAlpha <= bound && IsUnitInput(input)
    ensures Abs(speedAlpha * input) <= bound
  {
    if input == 1.0 {
      assert speedAlpha * input == speedAlpha;
    } else if input == -1.0 {
      assert speedAlpha * input == -speedAlpha;
    } else {
      assert speedAlpha * input == 0.0;
    }
  }

  lemma MulNonneg(a: real, b: real)
    requires a >= 0.0 && b >= 0.0
    ensures a * b >= 0.0
  {
  }

  /**
   * An object on the screen that moves by at most one screen size per axis
   * is on the screen after the wrap.
   */
  lemma MoveStaysOnScreen(pos: Vec, rotationDegrees: real, speed: real, offsetDegrees: real,
                          heading: Heading, width: int, height: int)
    requires UnitBounded(heading)
    requires OnScreen(pos, width, height)
    requires Abs(speed) <= width as real && Abs(speed) <= height as real
    ensures OnScreen(MoveObjectForwards(pos, rotationDegrees, speed, offsetDegrees, heading, width, height), width, height)
  {
    DisplacementBounded(rotationDegrees, speed, offsetDegrees, heading, width as real);
    DisplacementBounded(rotationDegrees, speed, offsetDegrees, heading, height as real);
    var d := Displacement(rotationDegrees, speed, offsetDegrees, heading);
    WrapStepInRange(pos.x, d.x, width);
    WrapStepInRange(pos.y, d.y, height);
  }

  /** One axis: a coordinate in [0, size] moved by at most size wraps back into [0, size]. */
  lemma WrapStepInRange(c: real, d: real, size: int)
    requires 0.0 <= c <= size as real && -(size as real) <= d <= size as real
    ensures 0.0 <= WrapAxis(c + d, size) <= size as real
  {
  }

  // ---------------------------------------------------------------------------
  // Player input and deceleration
  // ---------------------------------------------------------------------------

  /** The rotation input: left wins over right, nothing held gives 0. */
  function RotationInput(k: GameplayKeys): (r: int)
    ensures r == -1 <==> (k.keyA || k.keyLeft)
    ensures r == 1 <==> !(k.keyA || k.keyLeft) && (k.keyD || k.keyRight)
    ensures r == 0 <==> !(k.keyA || k.keyLeft || k.keyD || k.keyRight)
  {
    if k.keyA || k.keyLeft then -1
    else if k.keyD || k.keyRight then 1
    else 0
  }

  /** The thrust input: forwards wins over backwards, nothing held gives 0. */
  function ThrustInput(k: GameplayKeys): (r: int)
    ensures r == 1 <==> (k.keyW || k.keyUp)
    ensures r == -1 <==> !(k.keyW || k.keyUp) && (k.keyS || k.keyDown)
    ensures r == 0 <==> !(k.keyW || k.keyUp || k.keyS || k.keyDown)
  {
    if k.keyW || k.keyUp then 1
    else if k.keyS || k.keyDown then -1
    else 0
  }

  /**
   * One frame of coasting deceleration: two sequential tests, subtract the
   * rate while positive, then add it while negative. There is no clamp, so
   * a positive speed below the rate overshoots and comes straight back.
   */
  function Decelerate(speed: real, rate: real): (r: real)
    ensures 0.0 <= rate <= speed ==> r == speed - rate
    ensures speed <= -rate <= 0.0 ==> r == speed + rate
    ensures speed == 0.0 ==> r == 0.0
    ensures 0.0 < speed < rate ==> r == speed
    ensures -rate < speed < 0.0 ==> r == speed + rate && 0.0 < r < rate
    ensures 0.0 <= rate ==> Abs(r) <= Abs(speed) || Abs(r) < rate
  {
    var s := if speed > 0.0 then speed - rate else speed;
    if s < 0.0 then s + rate else s
  }

  /** The speed after `frames` consecutive coasting frames. */
  function Coast(speed: real, rate: real, frames: nat): (r: real)
    ensures 0.0 <= rate ==> Abs(r) <= Abs(speed) || Abs(r) < rate
    decreases frames
  {
    if frames == 0 then speed else Coast(Decelerate(speed, rate), rate, frames - 1)
  }

  /** Coasting from a whole multiple m of the rate, either sign, stops exactly at zero after m frames. */
  lemma {:induction false} CoastFromMultipleStops(speed: real, rate: real, m: nat)
    requires rate > 0.0 && speed == m as real * rate
    ensures Coast(speed, rate, m) == 0.0
    ensures Coast(-speed, rate, m) == 0.0
    decreases m
  {
    if m > 0 {
      var t := speed - rate;
      MultipleStep(m - 1, rate);
      assert t == (m - 1) as real * rate;
      MulNonneg((m - 1) as real, rate);
      DecelerateMultiple(t, rate);
      assert Decelerate(speed, rate) == t && Decelerate(-speed, rate) == -t;
      CoastFromMultipleStops(t, rate, m - 1);
    }
  }

  lemma MultipleStep(m: nat, rate: real)
    ensures (m + 1) as real * rate == m as real * rate + rate
  {
  }

  lemma DecelerateMultiple(t: real, rate: real)
    requires rate > 0.0 && t >= 0.0
    ensures Decelerate(t + rate, rate) == t
    ensures Decelerate(-(t + rate), rate) == -t
  {
  }

  /** A stopped ship stays stopped however long it coasts. */
  lemma {:induction false} CoastFromRestStays(rate: real, frames: nat)
    ensures Coast(0.0, rate, frames) == 0.0
  {
    if frames > 0 {
      CoastFromRestStays(rate, frames - 1);
    }
  }

  /** A positive speed below the rate never decays: it is a fixed point of coasting. */
  lemma {:induction false} CoastBelowRateSticks(speed: real, rate: real, frames: nat)
    requires 0.0 < speed < rate
    ensures Coast(speed, rate, frames) == speed
  {
    if frames > 0 {
      CoastBelowRateSticks(speed, rate, frames - 1);
    }
  }

  /** With the game's constants, full thrust either way coasts to rest in 50 frames. */
  lemma FullThrustCoastsToRest()
    ensures Coast(PlayerSpeedAlpha, PlayerDecelerationRate, 50) == 0.0
    ensures Coast(-PlayerSpeedAlpha, PlayerDecelerationRate, 50) == 0.0
  {
    CoastFromMultipleStops(PlayerSpeedAlpha, PlayerDecelerationRate, 50);
  }

  // ---------------------------------------------------------------------------
  // Spawning
  // ---------------------------------------------------------------------------

  /** A spawn point: on the left edge below the corner, or on the top edge right of it. */
  predicate OnSpawnEdge(p: Vec, width: int, height: int)
  {
    (p.x == 0.0 && 1.0 <= p.y <= height as real) || (p.y == 0.0 && 1.0 <= p.x <= width as real)
  }

  /**
   * generateRandomPositionInScreen: an odd first draw picks the left edge at
   * y = offset % height + 1, an even one the top edge at x = offset % width + 1.
   */
  function RandomPositionInScreen(side: nat, offset: nat, width: int, height: int): (p: Vec)
    requires width > 0 && height > 0
    ensures OnSpawnEdge(p, width, height)
    ensures OnScreen(p, width, height)
    ensures side % 2 == 1 <==> p.x == 0.0
  {
    if side % 2 + 1 == 2 then Vec(0.0, (offset % height + 1) as real)
    else Vec((offset % width + 1) as real, 0.0)
  }

  /** generateRandomRotationDegrees: a draw reduced into [1, 360]. */
  function RandomRotationDegrees(draw: nat): (d: int)
    ensures 1 <= d <= 360
    ensures d % 360 == (draw + 1) % 360
  {
    draw % 360 + 1
  }

  /** A big asteroid at a random edge point with a random heading. */
  predicate IsFreshSpawn(a: Asteroid, width: int, height: int)
  {
    && a.size == SpawnedAsteroidSize
    && a.movementSpeed == DefaultAsteroidSpeed
    && OnSpawnEdge(a.position, width, height)
    && 1.0 <= a.rotationDegrees <= 360.0
  }

  /** The asteroid one iteration of generateRandomAsteroid's loop appends. */
  function SpawnAsteroid(draw: SpawnDraw, width: int, height: int): (a: Asteroid)
    requires width > 0 && height > 0
    ensures IsFreshSpawn(a, width, height)
  {
    Asteroid(RandomPositionInScreen(draw.side, draw.offset, width, height),
             RandomRotationDegrees(draw.angle) as real,
             DefaultAsteroidSpeed,
             SpawnedAsteroidSize)
  }

  /** The asteroids generateRandomAsteroid appends, one per draw, in order. */
  function SpawnAsteroids(draws: seq<SpawnDraw>, width: int, height: int): (r: seq<Asteroid>)
    requires width > 0 && height > 0
    ensures |r| == |draws|
    ensures forall i :: 0 <= i < |r| ==> IsFreshSpawn(r[i], width, height)
  {
    seq(|draws|, i requires 0 <= i < |draws| => SpawnAsteroid(draws[i], width, height))
  }

  /** The asteroid after one step of handleAsteroidsMovement. */
  function MoveAsteroid(a: Asteroid, heading: Heading, width: int, height: int): (r: Asteroid)
    ensures r.size == a.size && r.movementSpeed == a.movementSpeed && r.rotationDegrees == a.rotationDegrees
  {
    a.(position := MoveObjectForwards(a.position, a.rotationDegrees, a.movementSpeed, AsteroidOffsetDegrees,
                                      heading, width, height))
  }

  /** Every asteroid moved one step along its own heading; nothing else about it changes. */
  function MoveAsteroids(s: seq<Asteroid>, heading: Heading, width: int, height: int): (r: seq<Asteroid>)
    ensures |r| == |s|
    ensures forall i :: 0 <= i < |s| ==>
      r[i].size == s[i].size && r[i].movementSpeed == s[i].movementSpeed &&
      r[i].rotationDegrees == s[i].rotationDegrees
  {
    seq(|s|, i requires 0 <= i < |s| => MoveAsteroid(s[i], heading, width, height))
  }

  /** Asteroids on the screen stay on it when their speed is at most the screen size. */
  lemma MoveAsteroidsStaysOnScreen(s: seq<Asteroid>, heading: Heading, width: int, height: int)
    requires UnitBounded(heading)
    requires forall a :: a in s ==> OnScreen(a.position, width, height)
    requires forall a :: a in s ==> Abs(a.movementSpeed) <= width as real && Abs(a.movementSpeed) <= height as real
    ensures forall a :: a in MoveAsteroids(s, heading, width, height) ==> OnScreen(a.position, width, height)
  {
    var r := MoveAsteroids(s, heading, width, height);
    forall a | a in r
      ensures OnScreen(a.position, width, height)
    {
      var i :| 0 <= i < |r| && r[i] == a;
      var b := s[i];
      assert b in s;
      MoveStaysOnScreen(b.position, b.rotationDegrees, b.movementSpeed, AsteroidOffsetDegrees, heading, width, height);
    }
  }

  /**
   * Where handlePlayerMovement puts the ship: one step at the thrust speed,
   * and a second step at the coasting speed only while coasting.
   */
  function PlayerStepPosition(pos: Vec, rotationDegrees: real, thrustSpeed: real, coasting: bool, coastSpeed: real,
                              heading: Heading, width: int, height: int): Vec
  {
    var thrustStep := MoveObjectForwards(pos, rotationDegrees, thrustSpeed, PlayerOffsetDegrees, heading, width, height);
    if coasting then MoveObjectForwards(thrustStep, rotationDegrees, coastSpeed, PlayerOffsetDegrees, heading, width, height)
    else thrustStep
  }

  /** Both steps of a frame keep the ship on the screen when neither speed exceeds the screen size. */
  lemma PlayerStepStaysOnScreen(pos: Vec, rotationDegrees: real, thrustSpeed: real, coasting: bool, coastSpeed: real,
                                heading: Heading, width: int, height: int)
    requires UnitBounded(heading) && OnScreen(pos, width, height)
    requires Abs(thrustSpeed) <= Min(width, height) as real && Abs(coastSpeed) <= Min(width, height) as real
    ensures OnScreen(PlayerStepPosition(pos, rotationDegrees, thrustSpeed, coasting, coastSpeed, heading, width, height), width, height)
  {
    var thrustStep := MoveObjectForwards(pos, rotationDegrees, thrustSpeed, PlayerOffsetDegrees, heading, width, height);
    MoveStaysOnScreen(pos, rotationDegrees, thrustSpeed, PlayerOffsetDegrees, heading, width, height);
    MoveStaysOnScreen(thrustStep, rotationDegrees, coastSpeed, PlayerOffsetDegrees, heading, width, height);
  }

  /** The fields of the player struct the game logic reads and writes, as a value. */
  datatype PlayerState = PlayerState(
    position: Vec, currentInput: Vec, rotationDegrees: real, rotationAlpha: real,
    currentSpeed: real, speedAlpha: real, decelerationRate: real)

  /**
   * handlePlayerInputs on the player: left wins over right for the rotation
   * input and forwards over backwards for the thrust input; a thrust key also
   * sets the speed to plus or minus the thrust speed. Nothing else changes.
   */
  function PlayerInputs(p: PlayerState, k: GameplayKeys): (r: PlayerState)
    ensures r.currentInput == Vec(ThrustInput(k) as real, RotationInput(k) as real)
    ensures ThrustInput(k) == 1 ==> r.currentSpeed == p.speedAlpha
    ensures ThrustInput(k) == -1 ==> r.currentSpeed == -p.speedAlpha
    ensures ThrustInput(k) == 0 ==> r.currentSpeed == p.currentSpeed
    ensures r == p.(currentInput := r.currentInput, currentSpeed := r.currentSpeed)
  {
    var rotationInput := if k.keyA || k.keyLeft then -1.0 else if k.keyD || k.keyRight then 1.0 else 0.0;
    if k.keyW || k.keyUp then p.(currentInput := Vec(1.0, rotationInput), currentSpeed := p.speedAlpha)
    else if k.keyS || k.keyDown then p.(currentInput := Vec(-1.0, rotationInput), currentSpeed := -p.speedAlpha)
    else p.(currentInput := Vec(0.0, rotationInput))
  }

  /**
   * handlePlayerMovement on the player: the rotation accumulates, the ship
   * moves by the thrust and, only without thrust, decelerates and moves a
   * second time. The inputs and the constants do not change.
   */
  function PlayerMovement(p: PlayerState, heading: Heading, width: int, height: int): (r: PlayerState)
    ensures r.rotationDegrees == p.rotationDegrees + p.currentInput.y * p.rotationAlpha
    ensures p.currentInput.x == 0.0 ==> r.currentSpeed == Decelerate(p.currentSpeed, p.decelerationRate)
    ensures p.currentInput.x != 0.0 ==> r.currentSpeed == p.currentSpeed
    ensures r == p.(position := r.position, rotationDegrees := r.rotationDegrees, currentSpeed := r.currentSpeed)
  {
    var rotation := p.rotationDegrees + p.currentInput.y * p.rotationAlpha;
    var coasting := p.currentInput.x == 0.0;
    var speed := if coasting then Decelerate(p.currentSpeed, p.decelerationRate) else p.currentSpeed;
    var position := PlayerStepPosition(p.position, rotation, p.speedAlpha * p.currentInput.x, coasting, speed,
                                       heading, width, height);
    p.(position := position, rotationDegrees := rotation, currentSpeed := speed)
  }

  /** The parts handlePlayerMovement computes one by one make up PlayerMovement. */
  lemma PlayerMovementOfParts(p: PlayerState, rotation: real, speed: real, position: Vec,
                              heading: Heading, width: int, height: int)
    requires rotation == p.rotationDegrees + p.currentInput.y * p.rotationAlpha
    requires speed == if p.currentInput.x == 0.0 then Decelerate(p.currentSpeed, p.decelerationRate) else p.currentSpeed
    requires position == PlayerStepPosition(p.position, rotation, p.speedAlpha * p.currentInput.x, p.currentInput.x == 0.0,
                                            speed, heading, width, height)
    ensures PlayerMovement(p, heading, width, height) ==
            p.(position := position, rotationDegrees := rotation, currentSpeed := speed)
  {
  }

  /**
   * handlePlayerMovement keeps the coasting speed within the thrust speed
   * and, on a screen at least that large, keeps the ship on the screen.
   */
  lemma PlayerMovementKeepsBounds(p: PlayerState, heading: Heading, width: int, height: int)
    requires IsUnitInput(p.currentInput.x)
    requires 0.0 <= p.speedAlpha <= PlayerSpeedAlpha && Abs(p.currentSpeed) <= PlayerSpeedAlpha
    requires 0.0 <= p.decelerationRate <= PlayerSpeedAlpha
    ensures Abs(PlayerMovement(p, heading, width, height).currentSpeed) <= PlayerSpeedAlpha
    ensures UnitBounded(heading) && PlayerSpeedAlpha <= Min(width, height) as real && OnScreen(p.position, width, height) ==>
      OnScreen(PlayerMovement(p, heading, width, height).position, width, height)
  {
    var rotation := p.rotationDegrees + p.currentInput.y * p.rotationAlpha;
    var speed := if p.currentInput.x == 0.0 then Decelerate(p.currentSpeed, p.decelerationRate) else p.currentSpeed;
    var position := PlayerStepPosition(p.position, rotation, p.speedAlpha * p.currentInput.x, p.currentInput.x == 0.0, speed,
                                       heading, width, height);
    PlayerMovementOfParts(p, rotation, speed, position, heading, width, height);
    assert Abs(speed) <= PlayerSpeedAlpha;
    if UnitBounded(heading) && PlayerSpeedAlpha <= Min(width, height) as real && OnScreen(p.position, width, height) {
      ThrustSpeedBounded(p.speedAlpha, p.currentInput.x, PlayerSpeedAlpha);
      PlayerStepStaysOnScreen(p.position, rotation, p.speedAlpha * p.currentInput.x, p.currentInput.x == 0.0, speed,
                              heading, width, height);
    }
  }


  /**
   * The player's half of one gameplay frame, handlePlayerInputs followed by
   * handlePlayerMovement: the keys give the inputs (and, with thrust, the
   * speed); the rotation accumulates; the ship moves by the thrust and, only
   * without thrust, decelerates and moves a second time.
   */
  function PlayerFrame(p: PlayerState, k: GameplayKeys, heading: Heading, width: int, height: int): (r: PlayerState)
    ensures r.currentInput == Vec(ThrustInput(k) as real, RotationInput(k) as real)
    ensures r.rotationDegrees == p.rotationDegrees + RotationInput(k) as real * p.rotationAlpha
    ensures ThrustInput(k) == 1 ==> r.currentSpeed == p.speedAlpha
    ensures ThrustInput(k) == -1 ==> r.currentSpeed == -p.speedAlpha
    ensures ThrustInput(k) == 0 ==> r.currentSpeed == Decelerate(p.currentSpeed, p.decelerationRate)
    ensures r.position == PlayerStepPosition(p.position, r.rotationDegrees, p.speedAlpha * r.currentInput.x,
                                             r.currentInput.x == 0.0, r.currentSpeed, heading, width, height)
    ensures r.rotationAlpha == p.rotationAlpha && r.speedAlpha == p.speedAlpha
    ensures r.decelerationRate == p.decelerationRate
  {
    PlayerMovement(PlayerInputs(p, k), heading, width, height)
  }

  /**
   * A frame keeps the ship on the screen, whatever the keys, when the screen
   * is at least as large as the thrust speed and the speeds are in range.
   */
  lemma PlayerFrameStaysOnScreen(p: PlayerState, k: GameplayKeys, heading: Heading, width: int, height: int)
    requires UnitBounded(heading) && OnScreen(p.position, width, height)
    requires 0.0 <= p.speedAlpha <= Min(width, height) as real
    requires Abs(p.currentSpeed) <= Min(width, height) as real
    requires 0.0 <= p.decelerationRate <= Min(width, height) as real
    ensures OnScreen(PlayerFrame(p, k, heading, width, height).position, width, height)
  {
    var r := PlayerFrame(p, k, heading, width, height);
    var bound := Min(width, height) as real;
    ThrustSpeedBounded(p.speedAlpha, r.currentInput.x, bound);
    assert Abs(r.currentSpeed) <= bound;
    PlayerStepStaysOnScreen(p.position, r.rotationDegrees, p.speedAlpha * r.currentInput.x, r.currentInput.x == 0.0,
                            r.currentSpeed, heading, width, height);
  }

  // ---------------------------------------------------------------------------
  // State
  // ---------------------------------------------------------------------------

  /** The global `player` struct; its sprite and sprite centre are drawing data. */
  class Player {
    var position: Vec
    /** x is the thrust input, y the rotation input, each -1, 0 or 1. */
    var currentInput: Vec
    var rotationDegrees: real
    var rotationAlpha: real
    var currentSpeed: real
    var speedAlpha: real
    var decelerationRate: real

    function State(): PlayerState
      reads this
    {
      PlayerState(position, currentInput, rotationDegrees, rotationAlpha, currentSpeed, speedAlpha, decelerationRate)
    }

    /** A global struct starts zero-initialised. */
    constructor ()
      ensures position == Vec(0.0, 0.0) && currentInput == Vec(0.0, 0.0)
      ensures rotationDegrees == 0.0 && rotationAlpha == 0.0 && currentSpeed == 0.0
      ensures speedAlpha == 0.0 && decelerationRate == 0.0
    {
      position := Vec(0.0, 0.0);
      currentInput := Vec(0.0, 0.0);
      rotationDegrees := 0.0;
      rotationAlpha := 0.0;
      currentSpeed := 0.0;
      speedAlpha := 0.0;
      decelerationRate := 0.0;
    }
  }

  /** The gameplay screen's module state: counters, the player and the asteroids in the stage. */
  class GameplayScreen {
    const screenWidth: int
    const screenHeight: int
    var framesCounter: int
    var finishScreen: int
    var asteroidsInStage: seq<Asteroid>
    const player: Player

    /**
     * What every operation keeps: a positive screen, inputs in {-1, 0, 1},
     * player speeds no larger than the thrust speed the game uses, and only
     * big asteroids at the default speed.
     */
    ghost predicate Valid()
      reads this, player
    {
      && screenWidth > 0 && screenHeight > 0
      && IsUnitInput(player.currentInput.x) && IsUnitInput(player.currentInput.y)
      && 0.0 <= player.speedAlpha <= PlayerSpeedAlpha
      && Abs(player.currentSpeed) <= PlayerSpeedAlpha
      && 0.0 <= player.decelerationRate <= PlayerSpeedAlpha
      && forall a :: a in asteroidsInStage ==>
           a.size == SpawnedAsteroidSize && a.movementSpeed == DefaultAsteroidSpeed
    }

    /** The player and every asteroid lie in the closed screen rectangle. */
    ghost predicate AllOnScreen()
      reads this, player
    {
      && OnScreen(player.position, screenWidth, screenHeight)
      && forall a :: a in asteroidsInStage ==> OnScreen(a.position, screenWidth, screenHeight)
    }

    /** The screen is large enough that no step moves anything more than one screen size. */
    predicate RoomToMove()
    {
      PlayerSpeedAlpha <= Min(screenWidth, screenHeight) as real
    }

    /** The module statics before the first InitGameplayScreen. */
    constructor (width: int, height: int)
      requires width > 0 && height > 0
      ensures Valid() && AllOnScreen() && fresh(player)
      ensures screenWidth == width && screenHeight == height
      ensures framesCounter == 0 && finishScreen == 0 && asteroidsInStage == []
    {
      screenWidth := width;
      screenHeight := height;
      framesCounter := 0;
      finishScreen := 0;
      asteroidsInStage := [];
      player := new Player();
    }

    /**
     * generateRandomAsteroid: append one big asteroid per draw, for
     * `instances` iterations (none when it is not positive).
     */
    method GenerateRandomAsteroid(instances: int, draws: seq<SpawnDraw>)
      requires Valid()
      requires instances <= |draws|
      modifies this
      ensures Valid()
      ensures var n := if instances < 0 then 0 else instances;
        asteroidsInStage == old(asteroidsInStage) + SpawnAsteroids(draws[..n], screenWidth, screenHeight)
      ensures old(AllOnScreen()) ==> AllOnScreen()
      ensures framesCounter == old(framesCounter) && finishScreen == old(finishScreen)
    {
      var n := if instances < 0 then 0 else instances;
      ghost var before := asteroidsInStage;
      for i := 0 to n
        invariant framesCounter == old(framesCounter) && finishScreen == old(finishScreen)
        invariant asteroidsInStage == before + SpawnAsteroids(draws[..i], screenWidth, screenHeight)
        invariant Valid()
        invariant old(AllOnScreen()) ==> AllOnScreen()
      {
        var asteroid := SpawnAsteroid(draws[i], screenWidth, screenHeight);
        assert draws[..i + 1] == draws[..i] + [draws[i]];
        asteroidsInStage := asteroidsInStage + [asteroid];
      }
    }

    /**
     * InitGameplayScreen: reset the counters and the player, keep the old
     * speed, and append `rand() % 8 + 1` new asteroids to those already in
     * the stage (the vector is not cleared).
     */
    method Init(countDraw: nat, draws: seq<SpawnDraw>)
      requires Valid()
      requires countDraw % MaxInitialAsteroids + 1 <= |draws|
      modifies this, player
      ensures Valid()
      ensures framesCounter == 0 && finishScreen == 0
      ensures player.position == Vec(screenWidth as real / 2.0, screenHeight as real / 2.0)
      ensures player.rotationDegrees == 0.0 && player.currentInput == Vec(0.0, 0.0)
      ensures player.rotationAlpha == PlayerRotationAlpha && player.speedAlpha == PlayerSpeedAlpha
      ensures player.decelerationRate == PlayerDecelerationRate
      ensures player.currentSpeed == old(player.currentSpeed)
      ensures var n := countDraw % MaxInitialAsteroids + 1;
        asteroidsInStage == old(asteroidsInStage) + SpawnAsteroids(draws[..n], screenWidth, screenHeight)
      ensures old(|asteroidsInStage|) + 1 <= |asteroidsInStage| <= old(|asteroidsInStage|) + MaxInitialAsteroids
      ensures old(forall a :: a in asteroidsInStage ==> OnScreen(a.position, screenWidth, screenHeight)) ==> AllOnScreen()
    {
      framesCounter := 0;
      finishScreen := 0;
      player.position := Vec(screenWidth as real / 2.0, screenHeight as real / 2.0);
      player.rotationDegrees := 0.0;
      player.rotationAlpha := PlayerRotationAlpha;
      player.speedAlpha := PlayerSpeedAlpha;
      player.decelerationRate := PlayerDecelerationRate;
      player.currentInput := Vec(0.0, 0.0);
      GenerateRandomAsteroid(countDraw % MaxInitialAsteroids + 1, draws);
    }

    /** handlePlayerInputs: key flags become the two inputs; thrust also sets the speed; escape finishes. */
    method HandlePlayerInputs(k: GameplayKeys)
      requires Valid()
      modifies this, player
      ensures Valid()
      ensures player.State() == PlayerInputs(old(player.State()), k)
      ensures finishScreen == if k.escapePressed then 1 else old(finishScreen)
      ensures asteroidsInStage == old(asteroidsInStage) && framesCounter == old(framesCounter)
    {
      if k.keyA || k.keyLeft {
        player.currentInput := player.currentInput.(y := -1.0);
      } else if k.keyD || k.keyRight {
        player.currentInput := player.currentInput.(y := 1.0);
      } else {
        player.currentInput := player.currentInput.(y := 0.0);
      }

      if k.keyW || k.keyUp {
        player.currentInput := player.currentInput.(x := 1.0);
        player.currentSpeed := player.speedAlpha;
      } else if k.keyS || k.keyDown {
        player.currentInput := player.currentInput.(x := -1.0);
        player.currentSpeed := -player.speedAlpha;
      } else {
        player.currentInput := player.currentInput.(x := 0.0);
      }

      if k.escapePressed {
        finishScreen := 1;
      }
    }

    /**
     * handlePlayerMovement: accumulate the rotation, move by the thrust, and
     * only when there is no thrust decelerate and move a second time by the
     * coasting speed.
     */
    method HandlePlayerMovement(heading: Heading)
      requires Valid()
      modifies player
      ensures Valid()
      ensures player.State() == PlayerMovement(old(player.State()), heading, screenWidth, screenHeight)
      ensures UnitBounded(heading) && RoomToMove() && old(OnScreen(player.position, screenWidth, screenHeight)) ==>
        OnScreen(player.position, screenWidth, screenHeight)
    {
      ghost var before := player.State();
      var rotation := player.rotationDegrees + player.currentInput.y * player.rotationAlpha;
      var thrustSpeed := player.speedAlpha * player.currentInput.x;
      var coasting := player.currentInput.x == 0.0;
      var position := MoveObjectForwards(player.position, rotation, thrustSpeed, PlayerOffsetDegrees,
                                         heading, screenWidth, screenHeight);
      var speed := player.currentSpeed;
      if coasting {
        speed := Decelerate(speed, player.decelerationRate);
        position := MoveObjectForwards(position, rotation, speed, PlayerOffsetDegrees, heading, screenWidth, screenHeight);
      }
      assert position == PlayerStepPosition(player.position, rotation, thrustSpeed, coasting, speed,
                                            heading, screenWidth, screenHeight);
      PlayerMovementOfParts(before, rotation, speed, position, heading, screenWidth, screenHeight);
      PlayerMovementKeepsBounds(before, heading, screenWidth, screenHeight);
      player.rotationDegrees, player.currentSpeed, player.position := rotation, speed, position;
    }

    /** handleAsteroidsMovement: move every asteroid in place, one step along its own heading. */
    method HandleAsteroidsMovement(heading: Heading)
      requires Valid()
      modifies this
      ensures Valid()
      ensures asteroidsInStage == MoveAsteroids(old(asteroidsInStage), heading, screenWidth, screenHeight)
      ensures framesCounter == old(framesCounter) && finishScreen == old(finishScreen)
      ensures (UnitBounded(heading) && RoomToMove() &&
               old(forall a :: a in asteroidsInStage ==> OnScreen(a.position, screenWidth, screenHeight))) ==>
              forall a :: a in asteroidsInStage ==> OnScreen(a.position, screenWidth, screenHeight)
    {
      ghost var before := asteroidsInStage;
      var i := 0;
      while i < |asteroidsInStage|
        invariant 0 <= i <= |asteroidsInStage| == |before|
        invariant framesCounter == old(framesCounter) && finishScreen == old(finishScreen)
        invariant forall k :: 0 <= k < i ==> asteroidsInStage[k] == MoveAsteroid(before[k], heading, screenWidth, screenHeight)
        invariant forall k :: i <= k < |before| ==> asteroidsInStage[k] == before[k]
      {
        asteroidsInStage := asteroidsInStage[i := MoveAsteroid(asteroidsInStage[i], heading, screenWidth, screenHeight)];
        i := i + 1;
      }
      assert asteroidsInStage == MoveAsteroids(before, heading, screenWidth, screenHeight);
      if UnitBounded(heading) && RoomToMove() && forall a :: a in before ==> OnScreen(a.position, screenWidth, screenHeight) {
        MoveAsteroidsStaysOnScreen(before, heading, screenWidth, screenHeight);
      }
    }

    /** The player's half of a frame: handlePlayerInputs, then handlePlayerMovement. */
    method UpdatePlayer(k: GameplayKeys, heading: Heading)
      requires Valid()
      modifies this, player
      ensures Valid()
      ensures player.State() == PlayerFrame(old(player.State()), k, heading, screenWidth, screenHeight)
      ensures finishScreen == if k.escapePressed then 1 else old(finishScreen)
      ensures framesCounter == old(framesCounter) && asteroidsInStage == old(asteroidsInStage)
    {
      HandlePlayerInputs(k);
      HandlePlayerMovement(heading);
    }

    /** UpdateGameplayScreen: inputs, then the player's movement, then the asteroids'. */
    method Update(k: GameplayKeys, heading: Heading)
      requires Valid()
      modifies this, player
      ensures Valid()
      ensures player.State() == PlayerFrame(old(player.State()), k, heading, screenWidth, screenHeight)
      ensures finishScreen == if k.escapePressed then 1 else old(finishScreen)
      ensures framesCounter == old(framesCounter)
      ensures asteroidsInStage == MoveAsteroids(old(asteroidsInStage), heading, screenWidth, screenHeight)
      ensures UnitBounded(heading) && RoomToMove() && old(AllOnScreen()) ==> AllOnScreen()
    {
      ghost var before := player.State();
      UpdatePlayer(k, heading);
      if UnitBounded(heading) && RoomToMove() && OnScreen(before.position, screenWidth, screenHeight) {
        PlayerFrameStaysOnScreen(before, k, heading, screenWidth, screenHeight);
      }
      HandleAsteroidsMovement(heading);
    }
  }
}
