/**
 * The keyboard controller (lighthouseinputcontroller.py): each key press
 * changes the shared state, and `p` alternates between the two polar
 * views.
 */
module InputController {
  import opened Common
  import opened Builtins
  import opened Geometry
  import opened State

  /** Everything a key press can change, as a value. */
  datatype Controls = Controls(state: StateValue, nextPolarViewIsNorth: bool)

  datatype KeyOutcome = KeyOutcome(controls: Controls, error: Option<StateError>)

  const NorthPoleView: Angles := Angles(180.0, 0.0, 0.0)
  const SouthPoleView: Angles := Angles(0.0, 0.0, 0.0)

  /** The degrees one rotation key turns by, and the rate step of `+`/`-`. */
  const RotationStep: real := 2.5
  const RateStep: real := 5.0

  predicate IsHandled(key: string) {
    key in {"esc", "+", "-", "space", "r", "w", "s", "a", "d", "q", "e", "p"}
  }

  datatype Axis = X | Y | Z

  /** What a key asks of the state. */
  datatype Command =
    | Terminate
    | ChangeRotationRate(delta: real)
    | TogglePause
    | ResetView
    | Rotate(axis: Axis, deg: real)
    | PolarView
    | Ignore

  /** The `match` on the key's name. */
  function CommandOf(key: string): (cmd: Command)
    ensures cmd == Terminate <==> key == "esc"
    ensures cmd == TogglePause <==> key == "space"
    ensures cmd == PolarView <==> key == "p"
    ensures cmd.ChangeRotationRate? <==> key == "+" || key == "-"
    ensures cmd == Ignore <==> !IsHandled(key)
    ensures cmd.Rotate? ==> cmd.deg == RotationStep || cmd.deg == -RotationStep
  {
    if key == "esc" then Terminate
    else if key == "+" then ChangeRotationRate(RateStep)
    else if key == "-" then ChangeRotationRate(-RateStep)
    else if key == "space" then TogglePause
    else if key == "r" then ResetView
    else if key == "w" then Rotate(X, -RotationStep)
    else if key == "s" then Rotate(X, RotationStep)
    else if key == "a" then Rotate(Y, -RotationStep)
    else if key == "d" then Rotate(Y, RotationStep)
    else if key == "q" then Rotate(Z, RotationStep)
    else if key == "e" then Rotate(Z, -RotationStep)
    else if key == "p" then PolarView
    else Ignore
  }

  /** The angles turned by `deg` about one axis. */
  function Rotated(a: Angles, axis: Axis, deg: real): (r: Angles)
    ensures Normalised(a) ==> Normalised(r)
  {
    match axis
    case X => a.(alpha := Turn(a.alpha, deg))
    case Y => a.(beta := Turn(a.beta, deg))
    case Z => a.(gamma := Turn(a.gamma, deg))
  }

  /** Turning about an axis and back restores reduced angles. */
  lemma RotatedUndone(a: Angles, axis: Axis, deg: real)
    requires Normalised(a)
    ensures Rotated(Rotated(a, axis, deg), axis, -deg) == a
  {
    match axis
    case X => TurnUndone(a.alpha, deg);
    case Y => TurnUndone(a.beta, deg);
    case Z => TurnUndone(a.gamma, deg);
  }

  /** The effect of one command on the controls. */
  function Apply(c: Controls, cmd: Command): (r: KeyOutcome)
    ensures cmd == Ignore ==> r == KeyOutcome(c, None)
    ensures r.controls.state.terminating <==> c.state.terminating || cmd == Terminate
    ensures r.controls.state.paused <==> (c.state.paused != (cmd == TogglePause))
    ensures r.controls.nextPolarViewIsNorth <==> (c.nextPolarViewIsNorth != (cmd == PolarView))
    ensures r.controls.state.rateMax == c.state.rateMax
    ensures RateWithinLimit(c.state) ==> RateWithinLimit(r.controls.state)
    ensures Normalised(c.state.angles) ==> Normalised(r.controls.state.angles)
    ensures r.error.Some? ==> cmd.ChangeRotationRate? && c.state.rate == 0.0
  {
    var s := c.state;
    match cmd
    case Terminate => KeyOutcome(c.(state := s.(terminating := true)), None)
    case ChangeRotationRate(delta) =>
      var change := ChangeRate(s, delta);
      KeyOutcome(c.(state := change.state), change.error)
    case TogglePause => KeyOutcome(c.(state := s.(paused := !s.paused)), None)
    case ResetView => KeyOutcome(c.(state := s.(angles := DefaultAngles)), None)
    case Rotate(axis, deg) => KeyOutcome(c.(state := s.(angles := Rotated(s.angles, axis, deg))), None)
    case PolarView =>
      var view := if c.nextPolarViewIsNorth then NorthPoleView else SouthPoleView;
      KeyOutcome(Controls(s.(angles := view), !c.nextPolarViewIsNorth), None)
    case Ignore => KeyOutcome(c, None)
  }

  /** The effect of one key press. Termination, once scheduled, stays
      scheduled; only `space` flips the pause and only `p` the polar view;
      the rate limit and reduced angles are kept; the only error is the
      rate change's division by zero; any other key does nothing. */
  function KeyEffect(c: Controls, key: string): (r: KeyOutcome)
    ensures !IsHandled(key) ==> r == KeyOutcome(c, None)
    ensures r.controls.state.terminating <==> c.state.terminating || key == "esc"
    ensures r.controls.state.paused <==> (c.state.paused != (key == "space"))
    ensures r.controls.nextPolarViewIsNorth <==> (c.nextPolarViewIsNorth != (key == "p"))
    ensures r.controls.state.rateMax == c.state.rateMax
    ensures RateWithinLimit(c.state) ==> RateWithinLimit(r.controls.state)
    ensures Normalised(c.state.angles) ==> Normalised(r.controls.state.angles)
    ensures r.error.Some? ==> (key == "+" || key == "-") && c.state.rate == 0.0
  {
    Apply(c, CommandOf(key))
  }

  /** Two presses of `p` show both poles, north first when the flag says so,
      and leave the flag as it was. */
  lemma PolarViewAlternates(c: Controls)
    ensures KeyEffect(c, "p").controls.state.angles == (if c.nextPolarViewIsNorth then NorthPoleView else SouthPoleView)
    ensures KeyEffect(KeyEffect(c, "p").controls, "p").controls.state.angles == (if c.nextPolarViewIsNorth then SouthPoleView else NorthPoleView)
    ensures KeyEffect(KeyEffect(c, "p").controls, "p").controls.nextPolarViewIsNorth == c.nextPolarViewIsNorth
  {
  }

  predicate OppositeKeys(k1: string, k2: string) {
    (k1, k2) in {("w", "s"), ("s", "w"), ("a", "d"), ("d", "a"), ("q", "e"), ("e", "q")}
  }

  /** A rotation key followed by its opposite restores the view exactly,
      once the angles are reduced into [0, 360). */
  lemma OppositeKeysUndo(c: Controls, k1: string, k2: string)
    requires OppositeKeys(k1, k2) && Normalised(c.state.angles)
    ensures KeyEffect(KeyEffect(c, k1).controls, k2) == KeyOutcome(c, None)
  {
    var cmd := CommandOf(k1);
    assert CommandOf(k2) == Rotate(cmd.axis, -cmd.deg);
    RotatedUndone(c.state.angles, cmd.axis, cmd.deg);
  }

  /** `+` followed by `-` restores the rate whenever `+` was taken. */
  lemma RateStepUndone(c: Controls)
    requires RateWithinLimit(c.state) && Abs(c.state.rate + RateStep) <= c.state.rateMax
    ensures KeyEffect(KeyEffect(c, "+").controls, "-") == KeyOutcome(c, None)
  {
    assert c.state.rate + RateStep + -RateStep == c.state.rate;
  }

  class LighthouseInputController {
    const state: LighthouseState
    var nextPolarViewIsNorth: bool

    function Value(): Controls
      reads this, state, state.angles
    {
      Controls(state.Value(), nextPolarViewIsNorth)
    }

    /** Starts with the north pole as the next polar view. Registering the
        handler with the keyboard hook is not part of this model. */
    constructor (state: LighthouseState)
      ensures this.state == state && nextPolarViewIsNorth
    {
      this.state := state;
      nextPolarViewIsNorth := true;
    }

    /** `__on_key_press`: the key's effect on the shared state. `p` gives the
        state a new angles object; every other key keeps the object, and `r`
        and the rotation keys change it in place. */
    method OnKeyPress(key: string) returns (err: Option<StateError>)
      modifies this`nextPolarViewIsNorth, state, state.angles
      ensures KeyOutcome(Value(), err) == KeyEffect(old(Value()), key)
      ensures key == "p" ==> fresh(state.angles)
      ensures key != "p" ==> state.angles == old(state.angles)
    {
      err := None;
      if key == "esc" {
        state.ScheduleTermination();
      } else if key == "+" {
        err := state.ChangeRotationRate(RateStep);
      } else if key == "-" {
        err := state.ChangeRotationRate(-RateStep);
      } else if key == "space" {
        state.TogglePause();
      } else if key == "r" {
        state.ResetRotationAnglesToDefault();
      } else if key == "w" {
        state.RotateAroundXAxis(-RotationStep);
      } else if key == "s" {
        state.RotateAroundXAxis(RotationStep);
      } else if key == "a" {
        state.RotateAroundYAxis(-RotationStep);
      } else if key == "d" {
        state.RotateAroundYAxis(RotationStep);
      } else if key == "q" {
        state.RotateAroundZAxis(RotationStep);
      } else if key == "e" {
        state.RotateAroundZAxis(-RotationStep);
      } else if key == "p" {
        var view: EulerAngles;
        if nextPolarViewIsNorth {
          view := new EulerAngles(180.0, 0.0, 0.0);
        } else {
          view := new EulerAngles(0.0, 0.0, 0.0);
        }
        state.SetRotationAngles(view);
        nextPolarViewIsNorth := !nextPolarViewIsNorth;
      }
    }
  }
}
