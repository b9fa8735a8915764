/**
 * The shared animation state (lighthousestate.py): the rotation rate and
 * its limit, the frame rate, the pause and termination flags, and the
 * angles object the view is rotated by. The input controller writes it,
 * the output controller reads it.
 */
module State {
  import opened Common
  import opened Builtins
  import opened Geometry

  /** The ZeroDivisionError of a rejected rate change while the rate is 0. */
  datatype StateError = DivisionByZero

  /** The view `reset_rotation_angles_to_default` restores. */
  const DefaultAngles: Angles := Angles(270.0, 180.0, 0.0)

  /** Everything the state holds except the frame rate, as a value. */
  datatype StateValue = StateValue(rate: real, rateMax: real, paused: bool, terminating: bool, angles: Angles)

  function Abs(x: real): real {
    if x < 0.0 then -x else x
  }

  /** The rate respects its limit, as `change_rotation_rate` keeps it. */
  predicate RateWithinLimit(s: StateValue) {
    Abs(s.rate) <= s.rateMax
  }

  datatype RateChange = RateChange(state: StateValue, error: Option<StateError>)

  /** `change_rotation_rate`: the change is taken only when the new rate stays
      within the limit; otherwise nothing changes, and working out the sign
      for the warning divides by zero when the rate is 0. */
  function ChangeRate(s: StateValue, delta: real): (r: RateChange)
    ensures r.state == s.(rate := r.state.rate)
    ensures Abs(s.rate + delta) <= s.rateMax ==> r.state.rate == s.rate + delta && r.error.None?
    ensures Abs(s.rate + delta) > s.rateMax ==> r.state == s
    ensures r.error.Some? <==> Abs(s.rate + delta) > s.rateMax && s.rate == 0.0
    ensures RateWithinLimit(s) ==> RateWithinLimit(r.state)
  {
    var next := s.rate + delta;
    if Abs(next) <= s.rateMax then RateChange(s.(rate := next), None)
    else if Abs(s.rate) == 0.0 then RateChange(s, Some(DivisionByZero))
    else RateChange(s, None)
  }

  /** The ZeroDivisionError can only come from a rate of 0 and a step larger
      than the limit: from a rate of 0, a limit of at least |delta| never
      raises. */
  lemma ChangeRateFailsOnlyFromRest(s: StateValue, delta: real)
    ensures ChangeRate(s, delta).error.Some? <==> s.rate == 0.0 && Abs(delta) > s.rateMax
  {
  }

  /** One angle turned by `deg` and reduced into [0, 360) by Python's float `%`. */
  function Turn(angle: real, deg: real): (r: real)
    ensures 0.0 <= r < 360.0
    ensures IsIntegral((angle + deg - r) / 360.0)
  {
    Mod360(angle + deg)
  }

  /** Turning a reduced angle one way and then back restores it exactly, so
      `w` undoes `s`, `a` undoes `d` and `q` undoes `e`. */
  lemma TurnUndone(angle: real, deg: real)
    requires 0.0 <= angle < 360.0
    ensures Turn(Turn(angle, deg), -deg) == angle
  {
    var r := Turn(angle, deg);
    var k := ((angle + deg - r) / 360.0).Floor;
    assert r + -deg == angle - k as real * 360.0;
    Mod360InPeriod(r + -deg, -k);
  }

  class LighthouseState {
    var rotationRate: real
    const rotationRateMax: real
    const targetFrameRate: int
    const inverseTargetFrameRate: real
    var paused: bool
    var shouldTerminate: bool
    /** `get_rotation_angles`: an object the camera comes to share. */
    var angles: EulerAngles

    ghost predicate Valid()
      reads this
    {
      targetFrameRate != 0 && inverseTargetFrameRate * targetFrameRate as real == 1.0
    }

    function Value(): StateValue
      reads this, angles
    {
      StateValue(rotationRate, rotationRateMax, paused, shouldTerminate, angles.Value())
    }

    /** Running, not terminating, at the default view. The source divides by
        the frame rate here, so a frame rate of 0 raises; callers pass a
        non-zero one. */
    constructor (targetFrameRate: int, rotationRate: real, rotationRateMax: real)
      requires targetFrameRate != 0
      ensures Valid() && this.targetFrameRate == targetFrameRate
      ensures Value() == StateValue(rotationRate, rotationRateMax, false, false, DefaultAngles)
      ensures fresh(angles)
    {
      this.rotationRate := rotationRate;
      this.rotationRateMax := rotationRateMax;
      this.targetFrameRate := targetFrameRate;
      inverseTargetFrameRate := 1.0 / targetFrameRate as real;
      paused := false;
      shouldTerminate := false;
      angles := new EulerAngles(270.0, 180.0, 0.0);
    }

    /** `get_rotation_rate_per_frame`: the degrees to turn per frame, so that
        one second of frames turns by the rate. */
    function RatePerFrame(): (d: real)
      requires Valid()
      reads this
      ensures d * targetFrameRate as real == rotationRate
    {
      assert rotationRate * inverseTargetFrameRate * targetFrameRate as real
          == rotationRate * (inverseTargetFrameRate * targetFrameRate as real);
      rotationRate * inverseTargetFrameRate
    }

    /** `set_rotation_angles`: holds the caller's object from now on. */
    method SetRotationAngles(a: EulerAngles)
      modifies this`angles
      ensures angles == a
    {
      angles := a;
    }

    /** `reset_rotation_angles_to_default`: in place, so every holder of the
        angles object sees the default view. */
    method ResetRotationAnglesToDefault()
      modifies angles
      ensures Value() == old(Value()).(angles := DefaultAngles)
      ensures Normalised(angles.Value())
    {
      angles.alpha := 270.0;
      angles.beta := 180.0;
      angles.gamma := 0.0;
    }

    method ChangeRotationRate(delta: real) returns (err: Option<StateError>)
      modifies this`rotationRate
      ensures RateChange(Value(), err) == ChangeRate(old(Value()), delta)
    {
      var next := rotationRate + delta;
      if Abs(next) <= rotationRateMax {
        rotationRate := rotationRate + delta;
        err := None;
      } else if Abs(rotationRate) == 0.0 {
        err := Some(DivisionByZero);
      } else {
        err := None;
      }
    }

    method TogglePause()
      modifies this`paused
      ensures Value() == old(Value()).(paused := !old(paused))
    {
      paused := !paused;
    }

    method ScheduleTermination()
      modifies this`shouldTerminate
      ensures Value() == old(Value()).(terminating := true)
    {
      shouldTerminate := true;
    }

    method RotateAroundXAxis(deg: real)
      modifies angles
      ensures Value() == old(Value()).(angles := old(angles.Value()).(alpha := Turn(old(angles.alpha), deg)))
    {
      angles.alpha := Mod360(angles.alpha + deg);
    }

    method RotateAroundYAxis(deg: real)
      modifies angles
      ensures Value() == old(Value()).(angles := old(angles.Value()).(beta := Turn(old(angles.beta), deg)))
    {
      angles.beta := Mod360(angles.beta + deg);
    }

    method RotateAroundZAxis(deg: real)
      modifies angles
      ensures Value() == old(Value()).(angles := old(angles.Value()).(gamma := Turn(old(angles.gamma), deg)))
    {
      angles.gamma := Mod360(angles.gamma + deg);
    }
  }
}
