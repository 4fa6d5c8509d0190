# Shooting game engine, modelled in Dafny

A model of the game engine inside `src/pages/ShootingGame.tsx`, a
target-shooting mini-game. A crosshair sits fixed at the centre of the
playfield, and a cube bounces around it. A click is a hit when the two
overlap closely enough; a miss ends the run. The engine has three parts:

- **Target motion** (`motion.dfy`, module `Motion`). One animation frame of
  the cube, as a pure function `Step`. It moves the cube by heading times
  speed and reflects each axis whose moved coordinate is at or past a wall
  (5 % or 95 %). It then applies three kinds of random steering: a
  jitter, a drift toward the centre when the cube is more than 60 away,
  and, once the score passes five, a full homing pulse. Finally it clamps
  the position to the walls, turns the cube by 2 degrees and ramps its
  speed by 0.002, capped at 8. The module also covers the spawn of a fresh cube and the
  teleport after a hit, plus `Run`, which applies any number of frames.
- **Hit resolver** (`hittest.dfy`, module `HitTest`). It takes the two
  bounding boxes measured at the click. It compares the squared distance
  of their centres with the squared hit radius (half the crosshair's width
  plus 90 % of half the cube's width). It classifies a miss as "too far"
  (beyond 1.5 hit radii) or "imprecise".
- **Session state machine** (`session.dfy`, module `Session`). The
  component's state cells `isPlaying`, `failScreen`, `score`, `highScore`,
  `failMessage` and the cube record become the fields of class `Game`.
  The class has four methods:
  - `Start`: start or restart a run.
  - `Tick`: one animation frame, which does nothing unless a run is going.
  - `Shoot`: a click.
  - `UpdateHighScore`: the effect that keeps the high score as a running
    maximum.

  `FiveHitsThenMiss` is a client of the session. It plays five hits, one
  far miss and a restart. Its assertions follow from the method contracts
  alone.
- **Geometry** (`geometry.dfy`, module `Geometry`). Points and squared
  distances. `CompareBySquares` shows that comparing a non-negative
  distance with a bound is the same as comparing the squares. This is
  what lets the model do without `Math.sqrt`.

Modelling choices:
- **Random draws.** Every `Math.random()` draw is an explicit parameter:
  `Frame` holds the draws of one animation frame, `SpawnDraws` the four
  draws of a fresh cube, and `rx`, `ry` the draws of the teleport after a
  hit. Draws lie in [0, 1).
- **Short-circuited draws.** The source draws the drift and homing values
  only when their other guard holds. The model always receives them. For
  independent uniform draws this gives the same distribution.
- **Normalisation.** The square-root normalisation of a steered heading
  is the caller-supplied function `normalize`.
- **Size pulse.** The time-driven size pulse arrives as `Frame.scale`.
- **Arithmetic.** All arithmetic uses exact `real`s.
- **Rotation.** Rotation is an `int`. In the source it starts at 0, each
  frame replaces it by `(rotation + 2) % 360`, and a hit copies it, so it
  is always a whole number in [0, 360).
- **Remainder.** JavaScript's remainder, whose result takes the sign of
  the dividend, is written out as `JsRemainder`.

Three details of the code differ from what a reader of the game might
assume. The model keeps them as written:
- **Heading length.** The starting heading is (±1, ±1), which is not
  unit length. The heading is normalised only after random steering.
- **Initial speed.** The initial state has speed 2; a started run has
  speed 2.5.
- **Restart.** A restart does not clear the last fail message.

## Model

| member | source | states |
|---|---|---|
| `Motion.SpawnCoordinate` | src/pages/ShootingGame.tsx:54-55 | a fresh coordinate lies in [10, 90) for every draw in [0, 1) |
| `Motion.Heading` | src/pages/ShootingGame.tsx:56 | a starting heading component is +1 or -1, and +1 exactly when the draw exceeds 0.5 |
| `Motion.Spawn` | src/pages/ShootingGame.tsx:53-60 | a fresh cube lies in [10, 90] on both axes, has heading components in {1, -1}, the given speed, rotation 0 and scale 1 |
| `Motion.Ramp` | src/pages/ShootingGame.tsx:132 | the ramped speed is min(s + inc, 8): it never exceeds 8, and it is not below the old speed when that was at most 8 |
| `Motion.JsRemainder` | src/pages/ShootingGame.tsx:93 | JavaScript's remainder is exactly a − n·trunc(a / n), with the quotient truncated toward zero; it lies strictly between -n and n, agrees with the mathematical remainder on non-negative dividends and is never positive on negative ones |
| `Motion.Rotate` | src/pages/ShootingGame.tsx:93 | from a rotation in [0, 360), one frame gives a rotation in [0, 360) that is 2 degrees further on, wrapping once past 360 |
| `Motion.Clamp` | src/pages/ShootingGame.tsx:129-130 | a clamped coordinate lies in [5, 95]; it is the moved coordinate when that is strictly inside, and 5 or 95 when that is at or beyond the corresponding wall |
| `Motion.Step` | src/pages/ShootingGame.tsx:68-135 | after any frame, from any position, heading and speed, the cube lies in [5, 95] on both axes; each coordinate is the moved coordinate clamped to the walls (5 when at or below 5, 95 when at or above 95, unchanged strictly inside); the speed is the capped ramp, so it never exceeds 8 and never drops from at most 8; the rotation depends on the old rotation alone; the scale is the frame's pulse; when no jitter, drift or homing draw fires, a heading component changes sign exactly when its moved coordinate is at or past a wall; when the homing pulse fires, the heading is replaced by the normalised pull toward the centre |
| `Motion.Relocate` | src/pages/ShootingGame.tsx:219-224 | after a hit the cube lies in [10, 90] on both axes, its speed is min(old + 0.2, 8), and heading, rotation and scale are unchanged |
| `Motion.RunStaysInField` | src/pages/ShootingGame.tsx:129-130 | after one or more frames, whatever the start, the cube lies in [5, 95] on both axes, and it stays there from a start inside |
| `Motion.RunSpeed` | src/pages/ShootingGame.tsx:132 | after n frames from a speed of at most 8, the speed is exactly min(speed + 0.002 n, 8) |
| `Motion.RunSpeedMonotone` | src/pages/ShootingGame.tsx:132 | over any number of frames the speed never decreases and never passes 8 |
| `Motion.RunRotation` | src/pages/ShootingGame.tsx:93 | after n frames from a rotation in [0, 360), the rotation is (start + 2 n) mod 360, whatever the positions, headings and draws |
| `Motion.FarFromCentreByDistance` | src/pages/ShootingGame.tsx:100-106 | the squared-distance drift guard holds exactly when the Euclidean distance from the centre exceeds 60 |
| `HitTest.CentreDistanceSquared` | src/pages/ShootingGame.tsx:190-199 | the squared distance of the two box centres is never negative |
| `HitTest.Resolve` | src/pages/ShootingGame.tsx:201-203 | a hit is only possible when the hit radius is positive |
| `HitTest.HitByDistance` | src/pages/ShootingGame.tsx:196-203 | for the Euclidean distance of the centres, the shot is a hit exactly when that distance is below crosshair width / 2 + 0.9 × cube width / 2 |
| `HitTest.MissReasonByDistance` | src/pages/ShootingGame.tsx:240-244 | a miss is "too far" exactly when the distance exceeds 1.5 hit radii, and "imprecise" exactly when it lies between one and 1.5 hit radii |
| `HitTest.ResolveIgnoresHeights` | src/pages/ShootingGame.tsx:202 | the verdict depends on the boxes only through their centres and widths |
| `HitTest.SampleHit` | src/pages/ShootingGame.tsx:190-203 | a 100-pixel crosshair and a 44-pixel cube whose centres are 12 pixels apart on each axis give a hit |
| `HitTest.SampleMiss` | src/pages/ShootingGame.tsx:240-241 | the same sizes with the centres at (0, 0) and (500, 500) give a "too far" miss |
| `Session.HighWater` | src/pages/ShootingGame.tsx:149-154 | the new high score is at least the old high score and at least the score, and is one of the two |
| `Session.Game.constructor` | src/pages/ShootingGame.tsx:13-28 | the initial state is idle with score 0, an empty fail message, the saved high score and a cube spawned at speed 2, and the state invariant holds |
| `Session.Game.Start` | src/pages/ShootingGame.tsx:47-61 | a (re)start sets playing, clears the fail screen and sets score 0; it spawns a fresh cube at speed 2.5 with rotation 0, scale 1, position in [10, 90] and heading components in {1, -1}; the high score and fail message are kept |
| `Session.Game.Tick` | src/pages/ShootingGame.tsx:64-68 | while playing, a frame replaces the cube by `Step` of the old cube with the current score; otherwise nothing changes; no other field ever changes, the speed never decreases, and the invariant (position in the walls, speed at most 8, rotation in [0, 360)) is preserved |
| `Session.Game.Shoot` | src/pages/ShootingGame.tsx:181-250 | when not playing, when the fail screen shows, or when either box is missing, nothing changes; on a hit the score grows by exactly 1, play continues, and the cube is teleported into [10, 90] with heading and rotation kept; on a miss play stops, the fail screen shows, the score and cube are kept, and the message names the miss reason; the high score is untouched |
| `Session.Game.UpdateHighScore` | src/pages/ShootingGame.tsx:149-154 | the high score becomes the running maximum: it never decreases, ends at least the score, the state invariant is kept, and nothing else changes |

## Left out

- Rendering, styling, particles and the on-screen readouts (src/pages/ShootingGame.tsx:252-650), and all of `src/pages/Index.tsx`: presentation only.
- Audio cues on hit and miss: a best-effort side effect. A synchronous failure is caught; a rejected playback promise is not caught and surfaces as an unhandled rejection. In neither case does an audio failure affect the game state.
- Persistence of the high score. The constructor takes the saved value as a natural number. The stored-string parse and the write-back on a new record are storage I/O.
- Scheduling: the `requestAnimationFrame` loops and their cancellation, the effect re-subscription on a score change, the autoplay effect that calls `startGame` once on mount, and the `setTimeout` glitch toggles. One call of `Game.Tick` stands for one frame. The driver calls `Game.UpdateHighScore` after every score change.
- The crosshair pulse. On every frame it adds `sin(time / 300) * 5` to the crosshair size, so the changes build up (src/pages/ShootingGame.tsx:160-164). That size is the crosshair's rendered width (src/pages/ShootingGame.tsx:392-393). So the pulse reaches the shot decision only through the measured crosshair box, which the model takes as an arbitrary input. The pulse itself is trigonometric and time-driven.
- The cube's size pulse `1 + sin(time / 500) * 0.05`: trigonometry on the clock; it arrives as the opaque `Frame.scale`.
- The square-root normalisation of a steered heading: it is the caller-supplied `normalize`. So the model does not capture what the source does for a zero-length heading. That happens when the homing pulse fires with the moved position exactly at the centre. The source then divides zero by zero, and the heading becomes NaN. The next frame's moved coordinates are NaN too, and the clamp lets NaN through, because both of its comparisons are false. So in this one case the [5, 95] bounds that `Motion.Step` and `Motion.RunStaysInField` prove hold only in the model; in the source they fail until a restart.
- `Motion.Step`: does not state that a steered heading has unit length, because normalisation is left to the caller and the starting heading (±1, ±1) is not unit length.
- IEEE floating-point rounding and NaN: arithmetic is on exact reals.
- The order in which the source consumes random draws: each draw is a separate parameter whether or not the source would have drawn it.
