/**
 * The per-frame motion rules of the bodies, on values: the self-rotation of
 * every sphere (`Sphere.update` / `rotate`), the orbit of a planet
 * (`Planet.update`) and the orbit of a moon (`Moon.update`). The classes in
 * module Entities are proved to follow these rules; module Scene composes them.
 */
module Motion {
  import opened Wrappers
  import opened Vectors

  // ---------------------------------------------------------------------
  // Self-rotation
  // ---------------------------------------------------------------------

  /**
   * `Sphere.update`: when self-rotation is enabled and the period is not 0,
   * rotation.y grows by 360 / period degrees per second of dt; x and z are
   * incremented by 0.
   */
  function Spin(enabled: bool, period: real, rotation: Vec3, dt: real): (r: Vec3)
    ensures r.x == rotation.x && r.z == rotation.z
    ensures !(enabled && period != 0.0) ==> r == rotation
  {
    if enabled && period != 0.0 then
      var speed := 360.0 / period;
      Vec3(rotation.x + 0.0, rotation.y + speed * dt, rotation.z + 0.0)
    else
      rotation
  }

  /** A frame of length 0 does not turn a sphere. */
  lemma SpinZeroDt(enabled: bool, period: real, rotation: Vec3)
    ensures Spin(enabled, period, rotation, 0.0) == rotation
  {
  }

  /**
   * The direction of the spin: with dt > 0 the Y angle grows for a positive
   * period and shrinks for a negative one (a retrograde body, such as Venus).
   */
  lemma SpinDirection(period: real, rotation: Vec3, dt: real)
    requires dt > 0.0
    ensures period > 0.0 ==> Spin(true, period, rotation, dt).y > rotation.y
    ensures period < 0.0 ==> Spin(true, period, rotation, dt).y < rotation.y
  {
    if period != 0.0 {
      var speed := 360.0 / period;
      assert period > 0.0 ==> speed > 0.0;
      assert period < 0.0 ==> speed < 0.0;
    }
  }

  /** Two frames of dt1 and dt2 turn a sphere as far as one frame of dt1 + dt2. */
  lemma SpinAdditive(enabled: bool, period: real, rotation: Vec3, dt1: real, dt2: real)
    ensures Spin(enabled, period, Spin(enabled, period, rotation, dt1), dt2) == Spin(enabled, period, rotation, dt1 + dt2)
  {
    if enabled && period != 0.0 {
      var speed := 360.0 / period;
      assert speed * dt1 + speed * dt2 == speed * (dt1 + dt2);
    }
  }

  /** Over one whole rotation period an enabled sphere turns by exactly 360 degrees. */
  lemma SpinFullTurn(period: real, rotation: Vec3)
    requires period != 0.0
    ensures Spin(true, period, rotation, period).y == rotation.y + 360.0
  {
    assert (360.0 / period) * period == 360.0;
  }

  // ---------------------------------------------------------------------
  // Orbital angle and offset
  // ---------------------------------------------------------------------

  /** The angle an orbit advances per frame: 2 pi / period radians per second of dt. */
  function AngleStep(period: real, dt: real): real
    requires period != 0.0
  {
    (2.0 * PI / period) * dt
  }

  /**
   * The orbital angle after one frame: advanced by AngleStep, then reduced by
   * 2 pi once if it reached 2 pi. There is no loop and no correction below 0.
   */
  function AdvanceAngle(angle: real, period: real, dt: real): (r: real)
    requires period != 0.0
    ensures r == angle + AngleStep(period, dt) || r == angle + AngleStep(period, dt) - TWO_PI
  {
    var a := angle + AngleStep(period, dt);
    if a >= 2.0 * PI then a - 2.0 * PI else a
  }

  /** The subtraction happens exactly when the advanced angle reaches 2 pi. */
  lemma AdvanceWrapsOnce(angle: real, period: real, dt: real)
    requires period != 0.0
    ensures var a := angle + AngleStep(period, dt);
      (AdvanceAngle(angle, period, dt) == a - TWO_PI <==> a >= TWO_PI) &&
      (AdvanceAngle(angle, period, dt) == a <==> a < TWO_PI)
  {
  }

  /** An angle in [0, 2 pi) stays there when the step is in [0, 2 pi). */
  lemma AngleStaysInRange(angle: real, period: real, dt: real)
    requires period != 0.0
    requires 0.0 <= angle < TWO_PI
    requires 0.0 <= AngleStep(period, dt) < TWO_PI
    ensures 0.0 <= AdvanceAngle(angle, period, dt) < TWO_PI
  {
  }

  /**
   * A negative period with dt > 0 turns an in-range angle backwards, and
   * nothing brings it back above 0: a step larger than the angle leaves it
   * below 0.
   */
  lemma NegativePeriodLeavesRange(angle: real, period: real, dt: real)
    requires period < 0.0 && dt > 0.0 && 0.0 <= angle < TWO_PI
    ensures AdvanceAngle(angle, period, dt) == angle + AngleStep(period, dt) < angle
    ensures angle < -AngleStep(period, dt) ==> AdvanceAngle(angle, period, dt) < 0.0
  {
    assert 2.0 * PI / period < 0.0;
  }

  /** A step of exactly one full turn brings an in-range angle back to where it was. */
  lemma FullTurnStepReturns(angle: real, period: real, dt: real)
    requires period != 0.0 && AngleStep(period, dt) == TWO_PI && 0.0 <= angle < TWO_PI
    ensures AdvanceAngle(angle, period, dt) == angle
  {
  }

  /** One subtraction is not enough for a step that carries the angle to 4 pi or beyond. */
  lemma LargeStepLeavesRange(angle: real, period: real, dt: real)
    requires period != 0.0
    requires angle + AngleStep(period, dt) >= 2.0 * TWO_PI
    ensures AdvanceAngle(angle, period, dt) >= TWO_PI
  {
  }

  /** The position of a body on its orbit relative to what it orbits: (R cos a, 0, R sin a). */
  function OrbitOffset(orbitalRadius: real, angle: real, trig: Trig): (v: Vec3)
    ensures v.y == 0.0
  {
    Vec3(orbitalRadius * trig.cos(angle), 0.0, orbitalRadius * trig.sin(angle))
  }

  /** With cos^2 + sin^2 = 1 at the angle, the offset lies on the circle of the orbital radius. */
  lemma OffsetOnCircle(orbitalRadius: real, angle: real, trig: Trig)
    requires trig.cos(angle) * trig.cos(angle) + trig.sin(angle) * trig.sin(angle) == 1.0
    ensures var v := OrbitOffset(orbitalRadius, angle, trig);
      v.x * v.x + v.z * v.z == orbitalRadius * orbitalRadius
  {
    var c, s := trig.cos(angle), trig.sin(angle);
    calc {
      (orbitalRadius * c) * (orbitalRadius * c) + (orbitalRadius * s) * (orbitalRadius * s);
      orbitalRadius * orbitalRadius * (c * c + s * s);
      orbitalRadius * orbitalRadius;
    }
  }

  // ---------------------------------------------------------------------
  // Body states
  // ---------------------------------------------------------------------

  /**
   * The orbit-specific part of a body. A plain sphere has none. A planet keeps
   * its orbital radius (already increased by 2), period, angle and the offset
   * from what it orbits; a moon keeps its radius, period and angle.
   */
  datatype Orbit =
    | Fixed
    | PlanetOrbit(orbitalRadius: real, orbitalPeriod: real, angle: real, offset: Vec3)
    | MoonOrbit(orbitalRadius: real, orbitalPeriod: real, angle: real)

  /** What an update reads and writes of one body. */
  datatype BodyState = BodyState(selfRotation: bool, rotationPeriod: real, rotation: Vec3, position: Vec3, orbit: Orbit)

  /** `Sphere.update`, the first thing every update does. */
  function SpinBody(b: BodyState, dt: real): BodyState
  {
    b.(rotation := Spin(b.selfRotation, b.rotationPeriod, b.rotation, dt))
  }

  /**
   * `Planet.update` after the rotation: with a nonzero period the angle
   * advances and the offset is the orbit offset at the new angle, otherwise
   * the offset is reset to zero; then the position is the parent's position,
   * or the origin when there is no parent, plus the offset.
   */
  function PlanetOrbitStep(b: BodyState, parent: Option<Vec3>, dt: real, trig: Trig): BodyState
    requires b.orbit.PlanetOrbit?
  {
    var o := b.orbit;
    var angle := if o.orbitalPeriod != 0.0 then AdvanceAngle(o.angle, o.orbitalPeriod, dt) else o.angle;
    var offset := if o.orbitalPeriod != 0.0 then OrbitOffset(o.orbitalRadius, angle, trig) else Origin;
    // with no parent the position is the origin plus the offset, which is the offset
    var position := if parent.Some? then Add(parent.value, offset) else offset;
    b.(position := position, orbit := o.(angle := angle, offset := offset))
  }

  /**
   * `Moon.update` after the rotation: with a nonzero period and a parent the
   * angle advances and the position is the parent's plus the orbit offset;
   * with period 0 and a parent the position is a copy of the parent's.
   */
  function MoonOrbitStep(b: BodyState, parent: Option<Vec3>, dt: real, trig: Trig): BodyState
    requires b.orbit.MoonOrbit?
  {
    var o := b.orbit;
    if o.orbitalPeriod != 0.0 && parent.Some? then
      var angle := AdvanceAngle(o.angle, o.orbitalPeriod, dt);
      b.(position := Add(parent.value, OrbitOffset(o.orbitalRadius, angle, trig)), orbit := o.(angle := angle))
    else if parent.Some? then
      b.(position := parent.value)
    else
      b
  }

  /**
   * One update of a body, given the position of what it orbits at the moment
   * of the update: the rotation rule first, then the orbit rule of its kind.
   */
  function StepBody(b: BodyState, parent: Option<Vec3>, dt: real, trig: Trig): (r: BodyState)
    ensures r.rotation == Spin(b.selfRotation, b.rotationPeriod, b.rotation, dt)
    ensures r.selfRotation == b.selfRotation && r.rotationPeriod == b.rotationPeriod
    ensures r.orbit.Fixed? == b.orbit.Fixed? && r.orbit.PlanetOrbit? == b.orbit.PlanetOrbit? && r.orbit.MoonOrbit? == b.orbit.MoonOrbit?
  {
    var spun := SpinBody(b, dt);
    match b.orbit
    case Fixed => spun
    case PlanetOrbit(_, _, _, _) => PlanetOrbitStep(spun, parent, dt, trig)
    case MoonOrbit(_, _, _) => MoonOrbitStep(spun, parent, dt, trig)
  }

  /** The orbital radius and period of a body never change. */
  lemma StepKeepsOrbitConstants(b: BodyState, parent: Option<Vec3>, dt: real, trig: Trig)
    requires !b.orbit.Fixed?
    ensures var r := StepBody(b, parent, dt, trig);
      r.orbit.orbitalRadius == b.orbit.orbitalRadius && r.orbit.orbitalPeriod == b.orbit.orbitalPeriod
  {
  }

  /** A plain sphere only turns: its position never changes. */
  lemma FixedStaysPut(b: BodyState, parent: Option<Vec3>, dt: real, trig: Trig)
    requires b.orbit.Fixed?
    ensures StepBody(b, parent, dt, trig) == SpinBody(b, dt)
    ensures StepBody(b, parent, dt, trig).position == b.position
  {
  }

  /**
   * An orbiting planet or moon with a parent ends the update on its orbit
   * around the parent's position: at the orbit offset of its new angle, which
   * is the old angle advanced once; so it is level with the parent.
   */
  lemma OrbitAroundParent(b: BodyState, parent: Vec3, dt: real, trig: Trig)
    requires !b.orbit.Fixed? && b.orbit.orbitalPeriod != 0.0
    ensures var r := StepBody(b, Some(parent), dt, trig);
      r.orbit.angle == AdvanceAngle(b.orbit.angle, b.orbit.orbitalPeriod, dt) &&
      r.position == Add(parent, OrbitOffset(b.orbit.orbitalRadius, r.orbit.angle, trig)) &&
      r.position.y == parent.y
  {
  }

  /**
   * A planet with no parent orbits the origin: its position is its offset, whose
   * distance from the origin is the orbital radius when cos^2 + sin^2 = 1.
   */
  lemma ParentlessPlanetOrbitsOrigin(b: BodyState, dt: real, trig: Trig)
    requires b.orbit.PlanetOrbit? && b.orbit.orbitalPeriod != 0.0
    requires var a := AdvanceAngle(b.orbit.angle, b.orbit.orbitalPeriod, dt);
      trig.cos(a) * trig.cos(a) + trig.sin(a) * trig.sin(a) == 1.0
    ensures var r := StepBody(b, None, dt, trig);
      r.position == r.orbit.offset &&
      r.position.x * r.position.x + r.position.z * r.position.z == b.orbit.orbitalRadius * b.orbit.orbitalRadius
  {
    var a := AdvanceAngle(b.orbit.angle, b.orbit.orbitalPeriod, dt);
    OffsetOnCircle(b.orbit.orbitalRadius, a, trig);
  }

  /** A planet with period 0 keeps its angle, resets its offset, and sits on its parent (or the origin). */
  lemma StillPlanet(b: BodyState, parent: Option<Vec3>, dt: real, trig: Trig)
    requires b.orbit.PlanetOrbit? && b.orbit.orbitalPeriod == 0.0
    ensures var r := StepBody(b, parent, dt, trig);
      r.orbit.angle == b.orbit.angle && r.orbit.offset == Origin &&
      r.position == (if parent.Some? then parent.value else Origin)
  {
  }

  /** A moon with period 0 keeps its angle and snaps onto its parent's position. */
  lemma StillMoonSnaps(b: BodyState, parent: Vec3, dt: real, trig: Trig)
    requires b.orbit.MoonOrbit? && b.orbit.orbitalPeriod == 0.0
    ensures var r := StepBody(b, Some(parent), dt, trig);
      r.orbit.angle == b.orbit.angle && r.position == parent
  {
  }

  /**
   * With dt = 0 the angle and rotation stay, but the position of an orbiting
   * body with a parent is computed anew: it is put on its orbit, at the
   * parent's position plus the offset of its current angle.
   */
  lemma ZeroDtPlacesOnOrbit(b: BodyState, parent: Vec3, trig: Trig)
    requires !b.orbit.Fixed? && b.orbit.orbitalPeriod != 0.0 && 0.0 <= b.orbit.angle < TWO_PI
    ensures var r := StepBody(b, Some(parent), 0.0, trig);
      r.orbit.angle == b.orbit.angle && r.rotation == b.rotation &&
      r.position == Add(parent, OrbitOffset(b.orbit.orbitalRadius, b.orbit.angle, trig))
  {
    assert AngleStep(b.orbit.orbitalPeriod, 0.0) == 0.0;
    OrbitAroundParent(b, parent, 0.0, trig);
    SpinZeroDt(b.selfRotation, b.rotationPeriod, b.rotation);
  }

  /** With dt = 0, a body already on its orbit around its parent is left exactly as it was. */
  lemma ZeroDtKeepsBodyOnOrbit(b: BodyState, parent: Vec3, trig: Trig)
    requires !b.orbit.Fixed? && b.orbit.orbitalPeriod != 0.0 && 0.0 <= b.orbit.angle < TWO_PI
    requires b.position == Add(parent, OrbitOffset(b.orbit.orbitalRadius, b.orbit.angle, trig))
    requires b.orbit.PlanetOrbit? ==> b.orbit.offset == OrbitOffset(b.orbit.orbitalRadius, b.orbit.angle, trig)
    ensures StepBody(b, Some(parent), 0.0, trig) == b
  {
    ZeroDtPlacesOnOrbit(b, parent, trig);
  }

  /**
   * With dt = 0 a body not yet on its orbit still moves: Mercury as `init`
   * builds it (at the origin, angle 0, orbital radius 0.715 + 2) jumps to
   * (2.715, 0, 0) around a sun at the origin when cos 0 = 1 and sin 0 = 0.
   */
  lemma ZeroDtMovesNewPlanet(trig: Trig)
    requires trig.cos(0.0) == 1.0 && trig.sin(0.0) == 0.0
    ensures var b := BodyState(true, 293.0, Origin, Origin, PlanetOrbit(2.715, 4.82, 0.0, Origin));
      var r := StepBody(b, Some(Origin), 0.0, trig);
      r.position == Vec3(2.715, 0.0, 0.0) && r.position != b.position
  {
    var b := BodyState(true, 293.0, Origin, Origin, PlanetOrbit(2.715, 4.82, 0.0, Origin));
    ZeroDtPlacesOnOrbit(b, Origin, trig);
  }

  /** A moon without a parent only turns; a planet without one is placed relative to the origin. */
  lemma OrphanMoonOnlyTurns(b: BodyState, dt: real, trig: Trig)
    requires b.orbit.MoonOrbit?
    ensures StepBody(b, None, dt, trig) == SpinBody(b, dt)
  {
  }

  /**
   * The rotation rule and the orbit rule are independent: the rotation after
   * the update depends only on the rotation before, and the position and
   * orbit after it do not depend on the rotation at all.
   */
  lemma RotationIndependentOfOrbit(b: BodyState, rotation: Vec3, parent: Option<Vec3>, dt: real, trig: Trig)
    ensures var r1, r2 := StepBody(b, parent, dt, trig), StepBody(b.(rotation := rotation), parent, dt, trig);
      r1.position == r2.position && r1.orbit == r2.orbit
  {
  }
}
