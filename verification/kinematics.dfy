/**
 * The closed-form projectile model of the animation: the layout and physics
 * constants, the elapsed time of a frame, the drawn position of the ball and
 * the landing test. Everything here is pure. The cosine and sine of the launch
 * angle are transcendental, so callers pass the two velocity components
 * `vCos` and `vSin` in directly; arithmetic is over exact reals.
 */
module Kinematics {

  /** Frames per second requested from the interval timer. */
  const FrameRate: int := 30
  /** Milliseconds between two timer ticks: floor(1000 / FrameRate). */
  const IntervalMs: int := 1000 / FrameRate
  /** Gravitational acceleration (m/s^2). */
  const G: real := 9.8
  /** Horizontal canvas offset of the launch point (px). */
  const XOffset: real := 10.0
  /** Canvas y coordinate of the ground line (px; y grows downward). */
  const YOffset: real := 580.0
  /** Radius of the ball (px). */
  const Radius: real := 10.0

  /** Seconds of simulated flight after `frame` ticks. */
  function ElapsedSeconds(frame: int): (t: real)
    ensures t == frame as real * 0.033
    ensures frame >= 0 ==> t >= 0.0
  {
    (frame * IntervalMs) as real / 1000.0
  }

  datatype Position = Position(x: real, y: real)

  /** Where the ball rests before a launch: touching the ground at the left edge. */
  function LaunchMarker(): Position {
    Position(XOffset + Radius, YOffset - Radius)
  }

  /** Height gained above the launch point after `t` seconds, in physical units. */
  function Rise(vSin: real, t: real): real {
    vSin * t - G * t * t / 2.0
  }

  /** Canvas position of the ball's centre at a frame. */
  function PositionAt(frame: int, vCos: real, vSin: real): (p: Position)
    ensures frame == 0 ==> p == LaunchMarker()
  {
    var t := ElapsedSeconds(frame);
    Position(XOffset + Radius + vCos * t, YOffset - Radius - (vSin * t - G * t * t / 2.0))
  }

  /**
   * The landing test: the bottom of the ball has reached the ground line,
   * and at least one frame has gone by.
   */
  predicate Landed(frame: int, vCos: real, vSin: real)
    ensures Landed(frame, vCos, vSin) <==> frame > 0 && Rise(vSin, ElapsedSeconds(frame)) <= 0.0
  {
    PositionAt(frame, vCos, vSin).y + Radius >= YOffset && frame > 0
  }

  /** With a non-negative horizontal velocity the ball never moves left. */
  lemma XNonDecreasing(f1: int, f2: int, vCos: real, vSin: real)
    requires 0 <= f1 <= f2
    requires vCos >= 0.0
    ensures PositionAt(f1, vCos, vSin).x <= PositionAt(f2, vCos, vSin).x
  {
  }

  /**
   * After the first frame, the ball has landed exactly when the elapsed time
   * has reached the time of flight 2 * vSin / G.
   */
  lemma LandingThreshold(frame: int, vCos: real, vSin: real)
    requires frame > 0
    ensures Landed(frame, vCos, vSin) <==> 2.0 * vSin <= G * ElapsedSeconds(frame)
  {
  }

  /** Once the ball has landed it stays landed at every later frame. */
  lemma LandedPersists(f1: int, f2: int, vCos: real, vSin: real)
    requires 0 < f1 <= f2
    requires Landed(f1, vCos, vSin)
    ensures Landed(f2, vCos, vSin)
  {
    LandingThreshold(f1, vCos, vSin);
    LandingThreshold(f2, vCos, vSin);
  }

  /** A ball launched level or downward lands on the very first frame it can. */
  lemma NotRisingLandsAtOnce(vCos: real, vSin: real)
    requires vSin <= 0.0
    ensures Landed(1, vCos, vSin)
  {
  }

  /**
   * The ball lands at some frame in 1..limit exactly when its time of flight
   * fits in `limit` frames. With limit 1000, the frame counter wraps to 0
   * before a ball that does not meet this bound comes down.
   */
  lemma LandsWithin(limit: int, vCos: real, vSin: real)
    requires limit > 0
    ensures (exists f :: 0 < f <= limit && Landed(f, vCos, vSin))
        <==> 2.0 * vSin <= G * ElapsedSeconds(limit)
  {
    LandingThreshold(limit, vCos, vSin);
    if f :| 0 < f <= limit && Landed(f, vCos, vSin) {
      LandedPersists(f, limit, vCos, vSin);
    }
  }

  /**
   * The first frame in `from`..limit at which the ball has landed, or
   * limit + 1 when there is none.
   */
  function FirstLanding(vCos: real, vSin: real, from: int, limit: int): (r: int)
    requires 0 < from <= limit + 1
    ensures from <= r <= limit + 1
    ensures r <= limit ==> Landed(r, vCos, vSin)
    ensures forall f :: from <= f < r ==> !Landed(f, vCos, vSin)
    decreases limit + 1 - from
  {
    if from > limit || Landed(from, vCos, vSin) then from
    else FirstLanding(vCos, vSin, from + 1, limit)
  }
}
