# Parabolic motion: the animation core in Dafny

This project models the animation core of the parabolic-motion page, `index.js`.
The page launches a ball with a speed `iv` (m/s) and an angle `ia` (degrees),
and redraws it on a canvas once per interval tick. Each tick computes the
elapsed time from a frame counter, then the closed-form position. It stops the
interval once the ball is back on the ground line. Three buttons drive it:
Start, Pause/Resume and Reset.

The model has three modules:

- `Kinematics` (kinematics.dfy) holds the constants (`frameRate` 30,
  `intervalMs` = floor(1000/30) = 33, `g` 9.8, `xOffset` 10, `yOffset` 580,
  `radius` 10). It also holds the pure functions for the elapsed time of a
  frame, the drawn position and the landing test, with lemmas about the
  trajectory. Cosine and sine are not modelled: the horizontal and vertical
  velocities `vCos` and `vSin` are inputs. All arithmetic is over exact reals.
- `Session` (session.dfy) holds the module-level state (`frame`, the interval
  handle as a boolean, `iv`, `ia`, the Pause/Resume button text) as a
  datatype. It has one pure transition per operation, plus `Step`/`Run` over
  sequences of button clicks and timer firings. Lemmas state what whole runs
  do.
- `Animation` (animation.dfy) holds the class `Animator`. Its fields are the
  module-level variables, and each method performs one operation in place.
  Each method's postcondition ties the new state to the `Session` transition
  of the old state. The object invariant keeps the frame counter in 0..1000.

`Tick` and `Draw` take `cosA`/`sinA`, the cosine and sine of the recorded
angle. The velocities are `iv * cosA` and `iv * sinA`, as in index.js:59-60.

Behaviour of the code that the model keeps as it is written:

- A landing sets `frame` to 0 inside `draw`, and the same `tick` then
  increments it. The run therefore ends idle with `frame = 1`, not 0
  (`Session.Tick`, `Session.LaunchLands`).
- Start does not reset `frame`. Pressing Start while paused continues from the
  current frame with newly read inputs (`Session.Start`).
- Pause/Resume while idle starts the interval again with the inputs recorded
  earlier. This includes after a landing, which resumes from frame 1.
- Neither Reset nor a landing changes the button text. After a pause and a
  reset the button still reads "Resume".
- The frame counter wraps from 1000 to 0. A ball that is still in the air at
  frame 1000 jumps back to the launch marker and flies again, and the
  interval never stops by itself (`Session.NeverLands`).
- The landing test needs `frame > 0`, so it never fires on frame 0. A
  level or downward launch lands on frame 1 (`Kinematics.NotRisingLandsAtOnce`).
- `setupInterval` overwrites the handle `i`. Calling it while an interval runs
  would orphan that interval. Every caller checks `i` first (index.js:81,
  index.js:88). `Session.SetupInterval` therefore requires that no interval is
  active, and the verifier checks that every call meets this. So a second
  interval is never started.

## Model

| member | source | states |
|---|---|---|
| `Kinematics.ElapsedSeconds` | index.js:56 | the time of frame `f` is `f * 0.033` s, because the interval is floor(1000/30) = 33 ms; it is non-negative for non-negative frames |
| `Kinematics.PositionAt` | index.js:62-63 | at frame 0 the drawn position is the launch marker `LaunchMarker()` = `(xOffset + radius, yOffset - radius)` drawn by reset (index.js:44) |
| `Kinematics.Landed` | index.js:68 | the landing test `y + radius >= yOffset && frame > 0` holds exactly when `frame > 0` and the rise `vSin*t - g*t*t/2` is at most 0; so it never holds at frame 0 |
| `Kinematics.XNonDecreasing` | index.js:62 | with `vCos >= 0`, the drawn `x` is non-decreasing in the frame |
| `Kinematics.LandingThreshold` | index.js:68 | for `frame > 0`, landed exactly when `g * t >= 2 * vSin`, i.e. the time of flight has elapsed |
| `Kinematics.LandedPersists` | index.js:68 | once landed at frame f1 > 0, the test also holds at every later frame |
| `Kinematics.NotRisingLandsAtOnce` | index.js:68 | with `vSin <= 0` the test fires on frame 1 |
| `Kinematics.LandsWithin` | index.js:68 | some frame in 1..limit is a landing frame exactly when `2 * vSin <= g * t(limit)` |
| `Kinematics.FirstLanding` | index.js:68 | returns the first landing frame in `from`..limit, or limit + 1 if there is none: the ball has landed there and at no frame before |
| `Session.RemoveInterval` | index.js:24 | afterwards no interval is active and nothing else changes; with no active interval it is a no-op |
| `Session.SetupInterval` | index.js:23 | may only be called with no active interval; afterwards one is active and nothing else changes |
| `Session.Reset` | index.js:40-46 | afterwards no interval is active and `frame = 0`; `iv`, `ia` and the button text are untouched |
| `Session.Draw` | index.js:53-72 | with the velocities `VCos(iv, cosA)` and `VSin(iv, sinA)` of index.js:59-60: when the landing test fires, `frame = 0` and the interval is cleared; otherwise the state is unchanged; `iv`, `ia` and the button text never change |
| `Session.Tick` | index.js:74-78 | keeps `0 <= frame <= 1000`; after a landing, `frame = 1` and no interval is active; otherwise the interval stays active and `frame` becomes `(frame + 1) mod 1001` |
| `Session.Start` | index.js:80-85 | with an active interval it is a no-op; otherwise it records `iv`/`ia` and activates the interval; `frame` and the button text are unchanged |
| `Session.PauseResume` | index.js:87-95 | toggles the interval; the text becomes "Resume" on pause and "Pause" on resume; `frame`, `iv` and `ia` are unchanged, so resume does not re-read inputs |
| `Session.RemoveIntervalIdempotent` | index.js:24 | removing the interval twice equals removing it once |
| `Session.StartTwice` | index.js:80-85 | a second Start changes nothing: no second interval, inputs not re-read |
| `Session.PauseResumeTwice` | index.js:87-95 | two presses restore the state except for the button text, which then matches the interval's activity |
| `Session.Step` | index.js:74-99 | every click or timer firing keeps `0 <= frame <= 1000`; a firing with no active interval changes nothing |
| `Session.Run` | index.js:74-99 | every sequence of clicks and firings keeps `0 <= frame <= 1000` |
| `Session.IdleIgnoresTimer` | index.js:24 | once the interval is cleared, any number of firings leave the state unchanged |
| `Session.FlightAdvances` | index.js:74-78 | while the ball has not landed and no wrap occurs, k firings advance `frame` by exactly k and change nothing else |
| `Session.ResetThenStart` | index.js:40-85 | Reset then Start leaves `frame = 0`, an active interval and the new inputs |
| `Session.LandingTick` | index.js:68-78 | a firing on a landing frame leaves `frame = 1` and no active interval |
| `Session.AirborneTick` | index.js:74-78 | a firing on a frame where the ball is not down only advances `frame` to `(frame + 1) mod 1001`; nothing else changes |
| `Session.NeverLands` | index.js:68-78 | if the flight does not fit in 1000 frames, n firings leave the interval active and `frame` at `(frame + n) mod 1001`: the ball never lands and the counter wraps forever |
| `Session.LaunchLands` | index.js:53-85 | if the flight fits in 1000 frames, then Reset, Start(v, a) and firings up to the first landing frame L end idle with `frame = 1` and the new inputs |
| `Animation.Animator.constructor` | index.js:20-51 | page load: `frame = 0`, no interval, `iv = ia = 0` |
| `Animation.Animator.RemoveInterval` | index.js:24 | performs `Session.RemoveInterval` in place |
| `Animation.Animator.SetupInterval` | index.js:23 | performs `Session.SetupInterval` in place, only when idle |
| `Animation.Animator.Reset` | index.js:40-46 | performs `Session.Reset` in place |
| `Animation.Animator.Draw` | index.js:53-72 | returns the position drawn for the current frame and performs `Session.Draw` in place |
| `Animation.Animator.Tick` | index.js:74-78 | requires an active interval; performs `Session.Tick` in place and keeps `frame` in 0..1000 |
| `Animation.Animator.OnStartClick` | index.js:80-85 | performs `Session.Start` in place |
| `Animation.Animator.OnPauseResumeClick` | index.js:87-95 | performs `Session.PauseResume` in place |
| `Animation.Animator.OnResetClick` | index.js:97-99 | performs `Session.Reset` in place |

## Left out

- Canvas drawing (`drawBaseline`, `drawCircle`, `clearRect`, path and arc calls) has no checkable result. `Animator.Draw` returns the position it would draw instead.
- DOM lookups, event-listener registration and setting the button's text node are left out. The button text is a field. Its initial value comes from the page markup, and index.html is not part of this model.
- The string-to-number coercion of the inputs' `.value` is left out. Start takes two reals.
- The real-time behaviour of `setInterval`/`clearInterval` is left out. The handle is a boolean, and each firing is an explicit `Tick` call or a `TimerFires` event. The handle's truthiness test is modelled as that boolean, because browsers return non-zero handles.
- `toRad`, `Math.cos`, `Math.sin` and `Math.PI` are transcendental. Callers pass the cosine and sine of the angle (`cosA`, `sinA`) or the velocity components. Nothing ties `cosA`/`sinA` to the recorded `ia`, so a `Session.Run` could fire with a different angle at each tick. index.js cannot do that. The lemmas about whole flights (`FlightAdvances`, `LaunchLands`, `NeverLands`) use one `cosA`/`sinA` throughout.
- IEEE-754 rounding of the position arithmetic is not modelled. Positions use exact reals, which is an idealisation.
- The implicit global variables `x`/`y` that `draw` assigns have no effect outside `draw`, so they are not modelled.
