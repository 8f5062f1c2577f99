// The angle bookkeeping of a move in rubik.h: the frame delta, the per-frame
// angle change and the completion test of updateAnimation, and the axis and
// sign getRotationMatrix picks for each letter. Angles are in degrees; the
// source's 32-bit floats are modelled as exact reals.

module Animation {
  import opened CubeState

  /** The slack the completion test allows (EPSILON in rubik.h). */
  const Epsilon: real := 0.0001

  /** The largest frame delta updateAnimation accepts, in seconds. */
  const MaxFrameDelta: real := 0.016

  /** The speed AnimationState is constructed with, in degrees per second. */
  const Speed: real := 360.0

  function Abs(x: real): (r: real)
    ensures r >= 0.0 && (r == x || r == -x)
  {
    if x < 0.0 then -x else x
  }

  /** The time since the last frame, capped at MaxFrameDelta. */
  function FrameDelta(currentTime: real, lastFrameTime: real): (dt: real)
    ensures dt <= MaxFrameDelta
    ensures dt == currentTime - lastFrameTime || dt == MaxFrameDelta
    ensures currentTime - lastFrameTime >= MaxFrameDelta ==> dt == MaxFrameDelta
  {
    if currentTime - lastFrameTime < MaxFrameDelta then currentTime - lastFrameTime else MaxFrameDelta
  }

  /** The angle one frame turns by: negative for a clockwise move, positive otherwise. */
  function AngleChange(clockwise: bool, speed: real, dt: real): (change: real)
    ensures speed >= 0.0 && dt >= 0.0 ==> if clockwise then change <= 0.0 else change >= 0.0
    ensures speed >= 0.0 ==> Abs(change) == speed * Abs(dt)
  {
    (if clockwise then -1.0 else 1.0) * speed * dt
  }

  /** The move ends on this frame when what is left to turn is within one frame's change. */
  predicate Completes(targetAngle: real, currentAngle: real, change: real) {
    Abs(targetAngle - currentAngle) <= Abs(change) + Epsilon
  }

  /** A frame that does not end the move brings the angle closer to the target by exactly the
      frame's change, provided time moved forward and the move is heading for its target. */
  lemma FrameApproachesTarget(targetAngle: real, currentAngle: real, dt: real)
    requires dt > 0.0
    requires targetAngle < 0.0 ==> targetAngle <= currentAngle <= 0.0
    requires targetAngle >= 0.0 ==> 0.0 <= currentAngle <= targetAngle
    requires !Completes(targetAngle, currentAngle, AngleChange(targetAngle < 0.0, Speed, dt))
    ensures var next := currentAngle + AngleChange(targetAngle < 0.0, Speed, dt);
      && Abs(targetAngle - next) == Abs(targetAngle - currentAngle) - Speed * dt
      && (targetAngle < 0.0 ==> targetAngle < next <= 0.0)
      && (targetAngle >= 0.0 ==> 0.0 <= next < targetAngle)
  {
  }

  /** With frames at least MaxFrameDelta apart, a quarter turn that starts at angle 0 advances
      for 15 frames and ends on the 16th: after k frames its angle is k frame changes. */
  lemma QuarterTurnFrames(targetAngle: real, k: nat)
    requires targetAngle == 90.0 || targetAngle == -90.0
    ensures var change := AngleChange(targetAngle < 0.0, Speed, MaxFrameDelta);
      && (k < 15 ==> !Completes(targetAngle, k as real * change, change))
      && (k == 15 ==> Completes(targetAngle, k as real * change, change))
  {
  }

  /** The coordinate axis getRotationMatrix turns a layer about. */
  datatype Axis = X | Y | Z

  /** The axis of a layer and whether getRotationMatrix negates the angle for it. */
  function RotationAxis(g: Layer): (Axis, bool) {
    match g
    case U => (Y, false) case D => (Y, true)
    case L => (X, true) case R => (X, false)
    case F => (Z, false) case B => (Z, true)
    case V => (X, false) case H => (Y, false) case S => (Z, false)
  }

  /** Opposite faces turn about the same axis in opposite senses, and each middle slice turns
      about the axis of the faces it lies between, in the sense of R, U and F. */
  lemma RotationAxesPaired()
    ensures forall p: (Layer, Layer) | p in {(U, D), (L, R), (F, B)} ::
      RotationAxis(p.0).0 == RotationAxis(p.1).0 && RotationAxis(p.0).1 != RotationAxis(p.1).1
    ensures RotationAxis(V) == RotationAxis(R)
    ensures RotationAxis(H) == RotationAxis(U)
    ensures RotationAxis(S) == RotationAxis(F)
  {
  }
}
