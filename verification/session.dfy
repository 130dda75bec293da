/**
 * The animation's module-level state as a value, and one pure transition per
 * operation that changes it. The class in module Animation performs these
 * transitions in place; the lemmas here are about sequences of them.
 */
module Session {
  import opened Kinematics

  /**
   * `frame` is the frame counter, `timerActive` stands for a non-null
   * interval handle, `iv`/`ia` are the launch speed and angle captured by the
   * last start, and `buttonText` is the text of the Pause/Resume button.
   */
  datatype State = State(frame: int, timerActive: bool, iv: real, ia: real, buttonText: string)

  /** The frame counter wraps to 0 once it passes this value. */
  const MaxFrame: int := 1000

  predicate FrameInRange(s: State) {
    0 <= s.frame <= MaxFrame
  }

  /** Horizontal launch velocity, given the cosine of the recorded angle. */
  function VCos(iv: real, cosA: real): real {
    iv * cosA
  }

  /** Vertical launch velocity, given the sine of the recorded angle. */
  function VSin(iv: real, sinA: real): real {
    iv * sinA
  }

  /** Clears the interval if there is one; a no-op when idle. */
  function RemoveInterval(s: State): (r: State)
    ensures !r.timerActive
    ensures r.(timerActive := s.timerActive) == s
  {
    if !s.timerActive then s else s.(timerActive := false)
  }

  /**
   * Starts the interval. Every caller first checks that no interval is
   * active, so an existing handle is never overwritten and leaked.
   */
  function SetupInterval(s: State): (r: State)
    requires !s.timerActive
    ensures r.timerActive
    ensures r.(timerActive := false) == s
  {
    s.(timerActive := true)
  }

  /** Stops the animation and puts the ball back on the launch marker. */
  function Reset(s: State): (r: State)
    ensures !r.timerActive && r.frame == 0
    ensures r.iv == s.iv && r.ia == s.ia && r.buttonText == s.buttonText
  {
    RemoveInterval(s).(frame := 0)
  }

  /**
   * The state-changing part of drawing a frame: when the ball has landed the
   * counter goes back to 0 and the interval is cleared. `cosA` and `sinA` are
   * the cosine and sine of the launch angle `ia`.
   */
  function Draw(s: State, cosA: real, sinA: real): (r: State)
    ensures r.iv == s.iv && r.ia == s.ia && r.buttonText == s.buttonText
    ensures Landed(s.frame, VCos(s.iv, cosA), VSin(s.iv, sinA)) ==> r.frame == 0 && !r.timerActive
    ensures !Landed(s.frame, VCos(s.iv, cosA), VSin(s.iv, sinA)) ==> r == s
  {
    if Landed(s.frame, VCos(s.iv, cosA), VSin(s.iv, sinA)) then RemoveInterval(s).(frame := 0) else s
  }

  /**
   * One timer tick: draw, then advance the counter, wrapping past MaxFrame.
   * Only the interval calls it, so the interval is active.
   */
  function Tick(s: State, cosA: real, sinA: real): (r: State)
    requires s.timerActive
    ensures r.iv == s.iv && r.ia == s.ia && r.buttonText == s.buttonText
    ensures FrameInRange(s) ==> FrameInRange(r)
    ensures Landed(s.frame, VCos(s.iv, cosA), VSin(s.iv, sinA)) ==> r.frame == 1 && !r.timerActive
    ensures FrameInRange(s) && !Landed(s.frame, VCos(s.iv, cosA), VSin(s.iv, sinA)) ==>
              r.timerActive && r.frame == (s.frame + 1) % (MaxFrame + 1)
  {
    var d := Draw(s, cosA, sinA);
    var f := d.frame + 1;
    d.(frame := if f > MaxFrame then 0 else f)
  }

  /**
   * The Start button: ignored while the interval runs; otherwise records the
   * launch inputs and starts the interval, keeping the frame counter.
   */
  function Start(s: State, v: real, a: real): (r: State)
    ensures s.timerActive ==> r == s
    ensures !s.timerActive ==> r.timerActive && r.iv == v && r.ia == a
    ensures r.frame == s.frame && r.buttonText == s.buttonText
  {
    if s.timerActive then s else SetupInterval(s.(iv := v, ia := a))
  }

  /**
   * The Pause/Resume button: toggles the interval and relabels itself.
   * Resuming reuses the recorded launch inputs.
   */
  function PauseResume(s: State): (r: State)
    ensures r.timerActive == !s.timerActive
    ensures r.buttonText == if s.timerActive then "Resume" else "Pause"
    ensures r.frame == s.frame && r.iv == s.iv && r.ia == s.ia
  {
    if s.timerActive then RemoveInterval(s).(buttonText := "Resume")
    else SetupInterval(s).(buttonText := "Pause")
  }

  lemma RemoveIntervalIdempotent(s: State)
    ensures RemoveInterval(RemoveInterval(s)) == RemoveInterval(s)
  {
  }

  /** A second Start neither restarts nor re-reads the inputs. */
  lemma StartTwice(s: State, v1: real, a1: real, v2: real, a2: real)
    ensures Start(Start(s, v1, a1), v2, a2) == Start(s, v1, a1)
  {
  }

  /** Two presses of Pause/Resume restore everything but possibly the buttonText. */
  lemma PauseResumeTwice(s: State)
    ensures PauseResume(PauseResume(s)) == s.(buttonText := if s.timerActive then "Pause" else "Resume")
  {
  }

  /** A user action or a firing of the interval timer. */
  datatype Event =
    | StartClick(v: real, a: real)
    | PauseResumeClick
    | ResetClick
    | TimerFires(cosA: real, sinA: real)

  /** The effect of one event; a timer that is not active does not fire. */
  function Step(s: State, e: Event): (r: State)
    ensures FrameInRange(s) ==> FrameInRange(r)
    ensures e.TimerFires? && !s.timerActive ==> r == s
  {
    match e
    case StartClick(v, a) => Start(s, v, a)
    case PauseResumeClick => PauseResume(s)
    case ResetClick => Reset(s)
    case TimerFires(cosA, sinA) => if s.timerActive then Tick(s, cosA, sinA) else s
  }

  /** The effect of a sequence of events, in order. */
  function Run(s: State, es: seq<Event>): (r: State)
    ensures FrameInRange(s) ==> FrameInRange(r)
    decreases |es|
  {
    if es == [] then s else Run(Step(s, es[0]), es[1..])
  }

  /** `n` consecutive firings of the interval timer. */
  function Firings(n: nat, cosA: real, sinA: real): (es: seq<Event>)
    ensures |es| == n
    ensures forall k :: 0 <= k < n ==> es[k] == TimerFires(cosA, sinA)
  {
    seq(n, _ => TimerFires(cosA, sinA))
  }

  lemma {:induction false} RunAppend(s: State, a: seq<Event>, b: seq<Event>)
    ensures Run(s, a + b) == Run(Run(s, a), b)
    decreases |a|
  {
    if a != [] {
      assert a + b != [] && (a + b)[0] == a[0];
      assert (a + b)[1..] == a[1..] + b;
      RunAppend(Step(s, a[0]), a[1..], b);
    } else {
      assert a + b == b;
    }
  }

  /** Once the interval is cleared, no further tick has any effect. */
  lemma {:induction false} IdleIgnoresTimer(s: State, n: nat, cosA: real, sinA: real)
    requires !s.timerActive
    ensures Run(s, Firings(n, cosA, sinA)) == s
  {
    if n > 0 {
      var es := Firings(n, cosA, sinA);
      assert es[1..] == Firings(n - 1, cosA, sinA);
      IdleIgnoresTimer(s, n - 1, cosA, sinA);
    }
  }

  /**
   * While the ball has not landed and the counter does not wrap, each firing
   * advances the frame by exactly one and changes nothing else.
   */
  lemma {:induction false} FlightAdvances(s: State, k: nat, cosA: real, sinA: real)
    requires s.timerActive && 0 <= s.frame && s.frame + k <= MaxFrame
    requires forall f :: s.frame <= f < s.frame + k ==> !Landed(f, VCos(s.iv, cosA), VSin(s.iv, sinA))
    ensures Run(s, Firings(k, cosA, sinA)) == s.(frame := s.frame + k)
    decreases k
  {
    if k > 0 {
      var es := Firings(k, cosA, sinA);
      assert es[1..] == Firings(k - 1, cosA, sinA);
      var s' := Tick(s, cosA, sinA);
      assert s' == s.(frame := s.frame + 1);
      FlightAdvances(s', k - 1, cosA, sinA);
    }
  }

  /** Reset followed by Start launches from the marker with the given inputs. */
  lemma ResetThenStart(s: State, v: real, a: real)
    ensures Run(s, [ResetClick, StartClick(v, a)])
         == s.(frame := 0, timerActive := true, iv := v, ia := a)
  {
    var clicks := [ResetClick, StartClick(v, a)];
    assert clicks[1..] == [StartClick(v, a)];
    assert [StartClick(v, a)][1..] == [];
    assert Run(s, clicks) == Run(Reset(s), [StartClick(v, a)]);
    assert Run(Reset(s), [StartClick(v, a)]) == Run(Start(Reset(s), v, a), []);
  }

  /** The tick that finds the ball landed stops the timer and leaves frame 1. */
  lemma LandingTick(s: State, cosA: real, sinA: real)
    requires s.timerActive && Landed(s.frame, VCos(s.iv, cosA), VSin(s.iv, sinA))
    ensures Run(s, [TimerFires(cosA, sinA)]) == s.(frame := 1, timerActive := false)
  {
  }

  /**
   * A full launch: Reset, then Start with speed `v`, then timer firings up to
   * and including the first landing frame L. The run ends idle with the frame
   * counter at 1 (the landing sets it to 0 and the same tick increments it),
   * holding the new launch inputs. This needs the flight to fit in MaxFrame
   * frames; otherwise the counter wraps before the ball lands.
   */
  lemma LaunchLands(s: State, v: real, a: real, cosA: real, sinA: real)
    requires 2.0 * VSin(v, sinA) <= G * ElapsedSeconds(MaxFrame)
    ensures var L := FirstLanding(VCos(v, cosA), VSin(v, sinA), 1, MaxFrame);
      1 <= L <= MaxFrame &&
      Run(s, [ResetClick, StartClick(v, a)] + Firings(L + 1, cosA, sinA))
        == s.(frame := 1, timerActive := false, iv := v, ia := a)
  {
    var vc, vs := VCos(v, cosA), VSin(v, sinA);
    var L := FirstLanding(vc, vs, 1, MaxFrame);
    LandsWithin(MaxFrame, vc, vs);
    var launched := s.(frame := 0, timerActive := true, iv := v, ia := a);
    forall f | 0 <= f < L
      ensures !Landed(f, VCos(launched.iv, cosA), VSin(launched.iv, sinA))
    {
    }
    FlightAdvances(launched, L, cosA, sinA);
    var atL := launched.(frame := L);
    LandingTick(atL, cosA, sinA);
    ResetThenStart(s, v, a);
    var before := Firings(L, cosA, sinA);
    assert Firings(L + 1, cosA, sinA) == before + [TimerFires(cosA, sinA)];
    RunAppend(s, [ResetClick, StartClick(v, a)], Firings(L + 1, cosA, sinA));
    RunAppend(launched, before, [TimerFires(cosA, sinA)]);
  }

  /** Advancing a wrapped counter once and then n - 1 times is advancing it n times. */
  lemma WrapAdd(f: int, n: nat)
    requires 0 <= f <= MaxFrame && n > 0
    ensures ((f + 1) % (MaxFrame + 1) + (n - 1)) % (MaxFrame + 1) == (f + n) % (MaxFrame + 1)
  {
  }

  /** A tick on a frame where the ball is not down only advances the counter. */
  lemma AirborneTick(s: State, cosA: real, sinA: real)
    requires s.timerActive && FrameInRange(s)
    requires !Landed(s.frame, VCos(s.iv, cosA), VSin(s.iv, sinA))
    ensures Tick(s, cosA, sinA) == s.(frame := (s.frame + 1) % (MaxFrame + 1))
  {
  }

  /**
   * A flight that does not come down within MaxFrame frames never lands:
   * the counter wraps back to 0, the ball returns to the launch marker, and
   * the interval keeps firing until Reset or Pause is pressed.
   */
  lemma {:induction false} NeverLands(s: State, n: nat, cosA: real, sinA: real)
    requires s.timerActive && FrameInRange(s)
    requires 2.0 * VSin(s.iv, sinA) > G * ElapsedSeconds(MaxFrame)
    ensures Run(s, Firings(n, cosA, sinA)) == s.(frame := (s.frame + n) % (MaxFrame + 1))
    decreases n
  {
    if n > 0 {
      var vc, vs := VCos(s.iv, cosA), VSin(s.iv, sinA);
      LandsWithin(MaxFrame, vc, vs);
      assert !Landed(s.frame, vc, vs);
      AirborneTick(s, cosA, sinA);
      var s' := s.(frame := (s.frame + 1) % (MaxFrame + 1));
      var es := Firings(n, cosA, sinA);
      assert es[1..] == Firings(n - 1, cosA, sinA);
      NeverLands(s', n - 1, cosA, sinA);
      WrapAdd(s.frame, n);
    }
  }
}
