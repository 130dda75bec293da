/**
 * The animation as the page runs it: module-level variables updated in place
 * by the timer callback and the three button handlers. Each method performs
 * the matching transition of module Session on the object's fields.
 */
module Animation {
  import opened Kinematics
  import Session

  class Animator {
    /** Frame counter; the ball's time of flight is derived from it. */
    var frame: int
    /** Whether the interval handle is set (index.js keeps a handle or null). */
    var timerActive: bool
    /** Launch speed (m/s) recorded by the last start. */
    var iv: real
    /** Launch angle (degrees) recorded by the last start. */
    var ia: real
    /** Text of the Pause/Resume button. */
    var buttonText: string

    /** The fields as a Session value. */
    function State(): Session.State
      reads this
    {
      Session.State(frame, timerActive, iv, ia, buttonText)
    }

    /** The frame counter stays within 0..MaxFrame. */
    ghost predicate Valid()
      reads this
    {
      Session.FrameInRange(State())
    }

    /**
     * Page load: no interval, the initial reset, and both launch inputs 0.
     * The button's initial text comes from the page markup.
     */
    constructor (initialButtonText: string)
      ensures Valid()
      ensures State() == Session.State(0, false, 0.0, 0.0, initialButtonText)
    {
      frame := 0;
      timerActive := false;
      buttonText := initialButtonText;
      iv := 0.0;
      ia := 0.0;
      new;
      Reset();
    }

    method RemoveInterval()
      requires Valid()
      modifies this
      ensures Valid()
      ensures State() == Session.RemoveInterval(old(State()))
    {
      if !timerActive {
        return;
      }
      timerActive := false;
    }

    method SetupInterval()
      requires Valid() && !timerActive
      modifies this
      ensures Valid()
      ensures State() == Session.SetupInterval(old(State()))
    {
      timerActive := true;
    }

    method Reset()
      requires Valid()
      modifies this
      ensures Valid()
      ensures State() == Session.Reset(old(State()))
    {
      RemoveInterval();
      frame := 0;
    }

    /**
     * The state-changing part of drawing: computes the ball's position and,
     * once it has landed, zeroes the counter and clears the interval.
     * `cosA` and `sinA` are the cosine and sine of the angle `ia`.
     */
    method Draw(cosA: real, sinA: real) returns (p: Position)
      requires Valid()
      modifies this
      ensures Valid()
      ensures p == PositionAt(old(frame), Session.VCos(iv, cosA), Session.VSin(iv, sinA))
      ensures State() == Session.Draw(old(State()), cosA, sinA)
    {
      var vCos := iv * cosA;
      var vSin := iv * sinA;
      p := PositionAt(frame, vCos, vSin);
      if p.y + Radius >= YOffset && frame > 0 {
        frame := 0;
        RemoveInterval();
      }
    }

    /** The interval callback: draw, then advance the counter with wrap-around. */
    method Tick(cosA: real, sinA: real)
      requires Valid() && timerActive
      modifies this
      ensures Valid()
      ensures State() == Session.Tick(old(State()), cosA, sinA)
    {
      var _ := Draw(cosA, sinA);
      frame := frame + 1;
      if frame > Session.MaxFrame {
        frame := 0;
      }
    }

    /** The Start button, with launch inputs `v` (speed) and `a` (angle). */
    method OnStartClick(v: real, a: real)
      requires Valid()
      modifies this
      ensures Valid()
      ensures State() == Session.Start(old(State()), v, a)
    {
      if timerActive {
        return;
      }
      iv := v;
      ia := a;
      SetupInterval();
    }

    method OnPauseResumeClick()
      requires Valid()
      modifies this
      ensures Valid()
      ensures State() == Session.PauseResume(old(State()))
    {
      if timerActive {
        RemoveInterval();
        buttonText := "Resume";
      } else {
        SetupInterval();
        buttonText := "Pause";
      }
    }

    method OnResetClick()
      requires Valid()
      modifies this
      ensures Valid()
      ensures State() == Session.Reset(old(State()))
    {
      Reset();
    }
  }
}
