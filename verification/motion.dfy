/** The target cube and its motion: one animation frame of the updater that
    src/pages/ShootingGame.tsx hands to `setCubePosition`, the spawn of a
    fresh cube at the start of a run, and the teleport after a hit.

    Every `Math.random()` draw is a field of `Frame` or `SpawnDraws`; the
    `Math.sqrt` normalisation of a steered heading is the caller-supplied
    function `normalize`; the time-driven size pulse is `Frame.scale`.
    Coordinates are percentages of the playfield. */
module Motion {
  import opened Geometry

  // Walls: a moved coordinate at or beyond these reflects and is clamped.
  const WallMin: real := 5.0
  const WallMax: real := 95.0
  // Fresh positions are drawn from [SpawnMin, SpawnMin + SpawnSpan).
  const SpawnMin: real := 10.0
  const SpawnSpan: real := 80.0
  // The crosshair sits at the centre of the playfield.
  const Centre: Vec := Vec(50.0, 50.0)
  const CentreScale: real := 50.0

  const InitialSpeed: real := 2.0
  const StartSpeed: real := 2.5
  const MaxSpeed: real := 8.0
  const TickRamp: real := 0.002
  const HitRamp: real := 0.2

  const RotationStep: int := 2
  const FullTurn: int := 360

  // Steering: random wobble, drift toward the centre when far away, and a
  // full homing pulse once the score passes five.
  const JitterChance: real := 0.02
  const JitterSpread: real := 0.3
  const DriftChance: real := 0.1
  const DriftKeep: real := 0.8
  const DriftPull: real := 0.2
  const FarDistance: real := 60.0
  const HomingChance: real := 0.03
  const HomingScore: int := 5

  /** The `CubePosition` record. Rotation is in whole degrees: it starts at 0,
      each frame replaces it by `(rotation + RotationStep) % FullTurn`, and a
      hit copies it. */
  datatype Cube = Cube(x: real, y: real, direction: Vec, speed: real, rotation: int, scale: real)

  /** What one frame draws from `Math.random()`, in the order the updater
      consults them, and the size pulse computed from the clock. */
  datatype Frame = Frame(jitterRoll: real, jitterX: real, jitterY: real,
                         driftRoll: real, homingRoll: real, scale: real)

  /** The four draws of a fresh cube: two coordinates, two heading signs. */
  datatype SpawnDraws = SpawnDraws(x: real, y: real, dirX: real, dirY: real)

  /** A value `Math.random()` can return. */
  predicate IsDraw(r: real) { 0.0 <= r < 1.0 }

  predicate ValidSpawn(d: SpawnDraws) { IsDraw(d.x) && IsDraw(d.y) && IsDraw(d.dirX) && IsDraw(d.dirY) }

  predicate InField(c: Cube) { WallMin <= c.x <= WallMax && WallMin <= c.y <= WallMax }

  predicate InSpawnArea(c: Cube) { SpawnMin <= c.x <= SpawnMin + SpawnSpan && SpawnMin <= c.y <= SpawnMin + SpawnSpan }

  function Min(a: real, b: real): real { if a <= b then a else b }

  // ---------------------------------------------------------------- spawn

  /** A draw scaled onto the spawn range [10, 90). */
  function SpawnCoordinate(r: real): (v: real)
    requires IsDraw(r)
    ensures SpawnMin <= v < SpawnMin + SpawnSpan
  {
    r * SpawnSpan + SpawnMin
  }

  /** A heading component: +1 when the draw exceeds one half, otherwise -1. */
  function Heading(r: real): (h: real)
    ensures h == 1.0 || h == -1.0
    ensures h == 1.0 <==> r > 0.5
  {
    if r > 0.5 then 1.0 else -1.0
  }

  /** A fresh cube at a random spot of the spawn area, moving diagonally,
      upright and at its natural size. */
  function Spawn(d: SpawnDraws, speed: real): (c: Cube)
    requires ValidSpawn(d)
    ensures InSpawnArea(c) && InField(c)
    ensures c.direction.x in {1.0, -1.0} && c.direction.y in {1.0, -1.0}
    ensures c.speed == speed && c.rotation == 0 && c.scale == 1.0
  {
    Cube(SpawnCoordinate(d.x), SpawnCoordinate(d.y),
         Vec(Heading(d.dirX), Heading(d.dirY)), speed, 0, 1.0)
  }

  // ---------------------------------------------------------------- one frame

  /** The speed ramp, capped at `MaxSpeed`: the result is `min(s + inc, MaxSpeed)`. */
  function Ramp(s: real, inc: real): (r: real)
    requires inc >= 0.0
    ensures r <= MaxSpeed && r <= s + inc
    ensures r == s + inc || r == MaxSpeed
    ensures s <= MaxSpeed ==> s <= r
  {
    Min(s + inc, MaxSpeed)
  }

  /** Integer division truncated toward zero, as JavaScript's `%` uses it. */
  function TruncDiv(a: int, n: int): int
    requires n > 0
  {
    if a >= 0 then a / n else -((-a) / n)
  }

  /** JavaScript's `%` on a positive divisor: the remainder takes the sign of
      the dividend (unlike Dafny's `%`, which is never negative). */
  function JsRemainder(a: int, n: int): (r: int)
    requires n > 0
    ensures -n < r < n
    ensures r == a - n * TruncDiv(a, n)
    ensures a >= 0 ==> 0 <= r && r == a % n
    ensures a < 0 ==> r <= 0
  {
    if a >= 0 then a % n else -((-a) % n)
  }

  /** Two more degrees of spin, reduced with JavaScript's remainder by a full turn. */
  function Rotate(rotation: int): (r: int)
    ensures 0 <= rotation < FullTurn ==> 0 <= r < FullTurn
    ensures 0 <= rotation < FullTurn ==>
      r == rotation + RotationStep || r == rotation + RotationStep - FullTurn
  {
    JsRemainder(rotation + RotationStep, FullTurn)
  }

  /** Linear integration: `position + direction * speed`, before any wall. */
  function Moved(c: Cube): Vec
  {
    Vec(c.x + c.direction.x * c.speed, c.y + c.direction.y * c.speed)
  }

  predicate AtWall(v: real) { v <= WallMin || v >= WallMax }

  /** Pins a moved coordinate to the walls. */
  function Clamp(v: real): (r: real)
    ensures WallMin <= r <= WallMax
    ensures !AtWall(v) ==> r == v
    ensures v <= WallMin ==> r == WallMin
    ensures v >= WallMax ==> r == WallMax
  {
    if v <= WallMin then WallMin else if v >= WallMax then WallMax else v
  }

  /** Wall reflection: the heading component of each axis whose moved
      coordinate is at or beyond a wall changes sign. */
  function Reflect(d: Vec, moved: Vec): Vec
  {
    Vec(if AtWall(moved.x) then -d.x else d.x, if AtWall(moved.y) then -d.y else d.y)
  }

  predicate JitterFires(f: Frame) { f.jitterRoll < JitterChance }

  /** Random wobble: each component moves by a draw from [-0.15, 0.15). */
  function Jitter(d: Vec, f: Frame, normalize: Vec -> Vec): Vec
  {
    if JitterFires(f) then
      normalize(Vec(d.x + (f.jitterX - 0.5) * JitterSpread, d.y + (f.jitterY - 0.5) * JitterSpread))
    else d
  }

  /** The guard "more than 60 from the centre", compared on squares. */
  predicate FarFromCentre(p: Vec) { SquaredDistance(p, Centre) > FarDistance * FarDistance }

  /** The pull toward the centre, scaled so that a corner gives about 1. */
  function TowardCentre(p: Vec): Vec
  {
    Vec((Centre.x - p.x) / CentreScale, (Centre.y - p.y) / CentreScale)
  }

  predicate DriftFires(p: Vec, f: Frame) { FarFromCentre(p) && f.driftRoll < DriftChance }

  /** Far from the centre, blend the heading 80/20 with the pull toward it. */
  function Drift(d: Vec, p: Vec, f: Frame, normalize: Vec -> Vec): Vec
  {
    if DriftFires(p, f) then
      normalize(Vec(d.x * DriftKeep + TowardCentre(p).x * DriftPull,
                    d.y * DriftKeep + TowardCentre(p).y * DriftPull))
    else d
  }

  predicate HomingFires(score: int, f: Frame) { score > HomingScore && f.homingRoll < HomingChance }

  /** Once the score passes five, now and then aim straight at the centre. */
  function Home(d: Vec, p: Vec, score: int, f: Frame, normalize: Vec -> Vec): Vec
  {
    if HomingFires(score, f) then normalize(TowardCentre(p)) else d
  }

  /** Whether any random steering changes the heading in this frame. */
  predicate Steered(c: Cube, score: int, f: Frame)
  {
    JitterFires(f) || DriftFires(Moved(c), f) || HomingFires(score, f)
  }

  /** One animation frame. `score` is the score the frame loop was started
      with. The heading is reflected, jittered, drifted and homed in that
      order, all from the moved (unclamped) position; the position is then
      clamped to the walls. */
  function Step(c: Cube, score: int, f: Frame, normalize: Vec -> Vec): (r: Cube)
    ensures InField(r)
    ensures !AtWall(Moved(c).x) ==> r.x == Moved(c).x
    ensures !AtWall(Moved(c).y) ==> r.y == Moved(c).y
    ensures r.x == Clamp(Moved(c).x) && r.y == Clamp(Moved(c).y)
    ensures r.speed <= MaxSpeed && (c.speed <= MaxSpeed ==> c.speed <= r.speed)
    ensures r.speed == Ramp(c.speed, TickRamp)
    ensures r.rotation == Rotate(c.rotation)
    ensures r.scale == f.scale
    ensures !Steered(c, score, f) ==>
      r.direction.x == (if AtWall(Moved(c).x) then -c.direction.x else c.direction.x) &&
      r.direction.y == (if AtWall(Moved(c).y) then -c.direction.y else c.direction.y)
    ensures HomingFires(score, f) ==> r.direction == normalize(TowardCentre(Moved(c)))
  {
    var p := Moved(c);
    var d := Home(Drift(Jitter(Reflect(c.direction, p), f, normalize), p, f, normalize), p, score, f, normalize);
    Cube(Clamp(p.x), Clamp(p.y), d, Ramp(c.speed, TickRamp), Rotate(c.rotation), f.scale)
  }

  /** The teleport after a hit: a fresh spot of the spawn area and a speed
      bump; heading, rotation and scale carry over. */
  function Relocate(c: Cube, rx: real, ry: real): (r: Cube)
    requires IsDraw(rx) && IsDraw(ry)
    ensures InSpawnArea(r) && InField(r)
    ensures r.speed <= MaxSpeed && (c.speed <= MaxSpeed ==> c.speed <= r.speed)
    ensures r.speed == Ramp(c.speed, HitRamp)
    ensures r.direction == c.direction && r.rotation == c.rotation && r.scale == c.scale
  {
    c.(x := SpawnCoordinate(rx), y := SpawnCoordinate(ry), speed := Ramp(c.speed, HitRamp))
  }

  // ---------------------------------------------------------------- many frames

  /** The frame loop run for `|frames|` frames while the score stays put. */
  function Run(c: Cube, score: int, frames: seq<Frame>, normalize: Vec -> Vec): Cube
    decreases |frames|
  {
    if frames == [] then c else Run(Step(c, score, frames[0], normalize), score, frames[1..], normalize)
  }

  /** Whatever the start, once a frame has run the cube is inside the walls,
      and it stays there. */
  lemma {:induction false} RunStaysInField(c: Cube, score: int, frames: seq<Frame>, normalize: Vec -> Vec)
    requires InField(c) || |frames| > 0
    ensures InField(Run(c, score, frames, normalize))
    decreases |frames|
  {
    if frames != [] {
      RunStaysInField(Step(c, score, frames[0], normalize), score, frames[1..], normalize);
    }
  }

  /** The speed ramps by `TickRamp` per frame until it reaches `MaxSpeed`. */
  lemma {:induction false} RunSpeed(c: Cube, score: int, frames: seq<Frame>, normalize: Vec -> Vec)
    requires c.speed <= MaxSpeed
    ensures Run(c, score, frames, normalize).speed == Min(c.speed + TickRamp * |frames| as real, MaxSpeed)
    decreases |frames|
  {
    if frames != [] {
      var next := Step(c, score, frames[0], normalize);
      RunSpeed(next, score, frames[1..], normalize);
    }
  }

  /** Speed never decreases over any number of frames and never passes the cap. */
  lemma {:induction false} RunSpeedMonotone(c: Cube, score: int, frames: seq<Frame>, normalize: Vec -> Vec)
    requires c.speed <= MaxSpeed
    ensures c.speed <= Run(c, score, frames, normalize).speed <= MaxSpeed
  {
    RunSpeed(c, score, frames, normalize);
  }

  /** The rotation after `n` frames is the start rotation plus `2n` degrees,
      reduced to one revolution; it depends on nothing else. */
  lemma {:induction false} RunRotation(c: Cube, score: int, frames: seq<Frame>, normalize: Vec -> Vec)
    requires 0 <= c.rotation < FullTurn
    ensures Run(c, score, frames, normalize).rotation == (c.rotation + RotationStep * |frames|) % FullTurn
    decreases |frames|
  {
    if frames != [] {
      var next := Step(c, score, frames[0], normalize);
      RunRotation(next, score, frames[1..], normalize);
      var k := |frames| - 1;
      assert next.rotation == (c.rotation + RotationStep) % FullTurn;
      TurnAdd(c.rotation + RotationStep, RotationStep * k);
    }
  }

  lemma TurnAdd(a: int, b: int)
    requires a >= 0 && b >= 0
    ensures (a % FullTurn + b) % FullTurn == (a + b) % FullTurn
  {
  }

  /** The homing guard without a square root: for any non-negative
      `dist` whose square is the squared distance to the centre,
      `FarFromCentre` holds exactly when `dist > 60`. */
  lemma FarFromCentreByDistance(p: Vec, dist: real)
    requires dist >= 0.0 && dist * dist == SquaredDistance(p, Centre)
    ensures FarFromCentre(p) <==> dist > FarDistance
  {
    CompareBySquares(dist, FarDistance);
  }
}
