/**
 * The bodies of the solar system: `Sphere`, which every body is, and its two
 * subclasses `Planet` and `Moon`. Java's `extends Sphere` becomes a `const
 * sphere: Sphere` that a planet or moon owns, and the `CelestialBody` interface
 * becomes a datatype over the three classes. Each update is proved to perform
 * the matching rule of module Motion on the object's fields.
 */
module Entities {
  import opened Wrappers
  import opened Vectors
  import opened SphereMesh
  import opened Motion

  /** The colour a sphere gets when it is given none. */
  const DEFAULT_COLOR: Vec3 := Vec3(0.5, 0.5, 0.5)

  /** A sphere: the mesh, position and rotation every body has. */
  class Sphere {
    /** The GPU mesh; `createMesh` sets it in the constructor and nothing clears it. */
    const mesh: Option<Mesh>
    var position: Vec3
    const radius: real
    /** Rotation in degrees about the X, Y and Z axes. */
    var rotation: Vec3
    const scale: real
    const baseColor: Vec3
    /** Seconds per full turn about the Y axis; 0 turns self-rotation off. */
    const rotationPeriod: real
    const enableSelfRotation: bool
    /** How many times the mesh's GPU buffers have been released. */
    var meshReleases: nat

    /**
     * `new Sphere(position, radius, baseColor, rotationPeriod)`: rotation 0,
     * scale 1, the grey default when no colour is given, self-rotation exactly
     * when the period is not 0, and the mesh built by `createMesh`.
     */
    constructor(position: Vec3, radius: real, baseColor: Option<Vec3>, rotationPeriod: real, trig: Trig)
      ensures this.position == position && this.radius == radius
      ensures rotation == Origin && scale == 1.0
      ensures this.baseColor == (if baseColor.Some? then baseColor.value else DEFAULT_COLOR)
      ensures this.rotationPeriod == rotationPeriod && enableSelfRotation == (rotationPeriod != 0.0)
      ensures mesh == Some(MeshOf(radius, this.baseColor, trig)) && meshReleases == 0
    {
      this.position := position;
      this.radius := radius;
      rotation := Vec3(0.0, 0.0, 0.0);
      scale := 1.0;
      var color := if baseColor.Some? then baseColor.value else DEFAULT_COLOR;
      this.baseColor := color;
      this.rotationPeriod := rotationPeriod;
      enableSelfRotation := rotationPeriod != 0.0;
      var m := CreateMesh(radius, color, trig);
      mesh := Some(m);
      meshReleases := 0;
    }

    /** `getPosition()`. */
    function GetPosition(): Vec3
      reads this
    {
      position
    }

    /** This sphere's fields as a body state, with the orbit part of the body it belongs to. */
    function StateWith(orbit: Orbit): BodyState
      reads this
    {
      BodyState(enableSelfRotation, rotationPeriod, rotation, position, orbit)
    }

    /** `setPosition(p)`: replaces the position and nothing else. */
    method SetPosition(p: Vec3)
      modifies this
      ensures position == p
      ensures rotation == old(rotation) && meshReleases == old(meshReleases)
    {
      position := p;
    }

    /** `rotate(dx, dy, dz)`: adds the three increments, in degrees, to the rotation. */
    method Rotate(dx: real, dy: real, dz: real)
      modifies this
      ensures rotation == Vec3(old(rotation.x) + dx, old(rotation.y) + dy, old(rotation.z) + dz)
      ensures position == old(position) && meshReleases == old(meshReleases)
    {
      rotation := rotation.(x := rotation.x + dx);
      rotation := rotation.(y := rotation.y + dy);
      rotation := rotation.(z := rotation.z + dz);
    }

    /** `update(dt)`: the self-rotation rule; the position is not touched. */
    method Update(dt: real)
      modifies this
      ensures rotation == Spin(enableSelfRotation, rotationPeriod, old(rotation), dt)
      ensures position == old(position) && meshReleases == old(meshReleases)
    {
      if enableSelfRotation && rotationPeriod != 0.0 {
        var rotationSpeed := 360.0 / rotationPeriod;
        Rotate(0.0, rotationSpeed * dt, 0.0);
      }
    }

    /** `cleanup()`: releases the mesh when there is one. */
    method Cleanup()
      modifies this
      ensures meshReleases == old(meshReleases) + (if mesh.Some? then 1 else 0)
      ensures position == old(position) && rotation == old(rotation)
    {
      if mesh.Some? {
        meshReleases := meshReleases + 1;
      }
    }
  }

  /** A planet: a sphere on a circular orbit around an optional parent body. */
  class Planet {
    const sphere: Sphere
    const orbitalRadius: real
    const orbitalPeriod: real
    var orbitalPositionAngle: real
    const orbitsAround: Option<CelestialBody>
    var relativePositionToParent: Vec3

    /**
     * `new Planet(...)`: the sphere first, then an orbital radius 2 larger than
     * the one given, angle 0 and a zero offset.
     */
    constructor(initialPosition: Vec3, radius: real, orbitalRadiusParam: real, orbitalPeriod: real,
                rotationPeriod: real, color: Option<Vec3>, orbitsAround: Option<CelestialBody>, trig: Trig)
      ensures fresh(sphere)
      ensures sphere.position == initialPosition && sphere.radius == radius && sphere.rotation == Origin
      ensures sphere.rotationPeriod == rotationPeriod && sphere.enableSelfRotation == (rotationPeriod != 0.0)
      ensures sphere.baseColor == (if color.Some? then color.value else DEFAULT_COLOR)
      ensures sphere.mesh == Some(MeshOf(radius, sphere.baseColor, trig)) && sphere.meshReleases == 0
      ensures this.orbitalRadius == orbitalRadiusParam + 2.0 && this.orbitalPeriod == orbitalPeriod
      ensures this.orbitsAround == orbitsAround
      ensures orbitalPositionAngle == 0.0 && relativePositionToParent == Origin
    {
      sphere := new Sphere(initialPosition, radius, color, rotationPeriod, trig);
      this.orbitalRadius := orbitalRadiusParam + 2.0;
      this.orbitalPeriod := orbitalPeriod;
      this.orbitsAround := orbitsAround;
      orbitalPositionAngle := 0.0;
      relativePositionToParent := Vec3(0.0, 0.0, 0.0);
    }

    function State(): BodyState
      reads this, sphere
    {
      sphere.StateWith(PlanetOrbit(orbitalRadius, orbitalPeriod, orbitalPositionAngle, relativePositionToParent))
    }

    /** The objects the position of the parent is read from. */
    function ParentFrame(): set<object>
    {
      if orbitsAround.Some? then {orbitsAround.value.Base()} else {}
    }

    /** The parent's position, when there is a parent. */
    function ParentPosition(): Option<Vec3>
      reads ParentFrame()
    {
      if orbitsAround.Some? then Some(orbitsAround.value.Position()) else None
    }

    /**
     * `update(dt)`: the sphere turns, then the planet moves by the planet rule,
     * reading the parent's position after its own rotation. Only the planet and
     * its sphere change, so the parent is not written to.
     */
    method Update(dt: real, trig: Trig)
      modifies this, sphere
      ensures State() == StepBody(old(State()), old(ParentPosition()), dt, trig)
      ensures sphere.meshReleases == old(sphere.meshReleases)
    {
      ghost var spun := SpinBody(State(), dt);
      sphere.Update(dt);
      assert State() == spun;

      if orbitalPeriod != 0.0 {
        var orbitalSpeed := 2.0 * PI / orbitalPeriod;
        orbitalPositionAngle := orbitalPositionAngle + orbitalSpeed * dt;
        if orbitalPositionAngle >= 2.0 * PI {
          orbitalPositionAngle := orbitalPositionAngle - 2.0 * PI;
        }
        assert orbitalPositionAngle == AdvanceAngle(spun.orbit.angle, orbitalPeriod, dt);
        relativePositionToParent := relativePositionToParent.(x := orbitalRadius * trig.cos(orbitalPositionAngle));
        relativePositionToParent := relativePositionToParent.(y := 0.0);
        relativePositionToParent := relativePositionToParent.(z := orbitalRadius * trig.sin(orbitalPositionAngle));
        assert relativePositionToParent == OrbitOffset(orbitalRadius, orbitalPositionAngle, trig);
      } else {
        relativePositionToParent := Vec3(0.0, 0.0, 0.0);
      }

      var parentPosition := Vec3(0.0, 0.0, 0.0);
      if orbitsAround.Some? {
        parentPosition := orbitsAround.value.Position();
        assert Some(parentPosition) == old(ParentPosition());
      }

      sphere.SetPosition(Add(parentPosition, relativePositionToParent));
    }
  }

  /** A moon: a sphere on a circular orbit around a parent body it must have. */
  class Moon {
    const sphere: Sphere
    const orbitalRadius: real
    const orbitalPeriod: real
    var orbitalPositionAngle: real
    const orbitsAround: Option<CelestialBody>

    /**
     * The part of `new Moon(...)` before the parent check: the sphere at the
     * origin, then the orbital radius as given (no +2, unlike a planet), angle 0.
     */
    constructor(radius: real, orbitalRadius: real, orbitalPeriod: real, rotationPeriod: real,
                color: Option<Vec3>, orbitsAround: Option<CelestialBody>, trig: Trig)
      ensures fresh(sphere)
      ensures sphere.position == Origin && sphere.radius == radius && sphere.rotation == Origin
      ensures sphere.rotationPeriod == rotationPeriod && sphere.enableSelfRotation == (rotationPeriod != 0.0)
      ensures sphere.baseColor == (if color.Some? then color.value else DEFAULT_COLOR)
      ensures sphere.mesh == Some(MeshOf(radius, sphere.baseColor, trig)) && sphere.meshReleases == 0
      ensures this.orbitalRadius == orbitalRadius && this.orbitalPeriod == orbitalPeriod
      ensures this.orbitsAround == orbitsAround && orbitalPositionAngle == 0.0
    {
      sphere := new Sphere(Vec3(0.0, 0.0, 0.0), radius, color, rotationPeriod, trig);
      this.orbitalRadius := orbitalRadius;
      this.orbitalPeriod := orbitalPeriod;
      this.orbitsAround := orbitsAround;
      orbitalPositionAngle := 0.0;
    }

    function State(): BodyState
      reads this, sphere
    {
      sphere.StateWith(MoonOrbit(orbitalRadius, orbitalPeriod, orbitalPositionAngle))
    }

    function ParentFrame(): set<object>
    {
      if orbitsAround.Some? then {orbitsAround.value.Base()} else {}
    }

    function ParentPosition(): Option<Vec3>
      reads ParentFrame()
    {
      if orbitsAround.Some? then Some(orbitsAround.value.Position()) else None
    }

    /**
     * `update(dt)`: the sphere turns, then the moon orbits its parent, or snaps
     * onto it when the period is 0. Only the moon and its sphere change.
     */
    method Update(dt: real, trig: Trig)
      modifies this, sphere
      ensures State() == StepBody(old(State()), old(ParentPosition()), dt, trig)
      ensures sphere.meshReleases == old(sphere.meshReleases)
    {
      ghost var spun := SpinBody(State(), dt);
      sphere.Update(dt);
      assert State() == spun;

      if orbitalPeriod != 0.0 && orbitsAround.Some? {
        var orbitalSpeed := 2.0 * PI / orbitalPeriod;
        orbitalPositionAngle := orbitalPositionAngle + orbitalSpeed * dt;
        if orbitalPositionAngle >= 2.0 * PI {
          orbitalPositionAngle := orbitalPositionAngle - 2.0 * PI;
        }
        assert orbitalPositionAngle == AdvanceAngle(spun.orbit.angle, orbitalPeriod, dt);

        var relativePositionToParent := Vec3(0.0, 0.0, 0.0);
        relativePositionToParent := relativePositionToParent.(x := orbitalRadius * trig.cos(orbitalPositionAngle));
        relativePositionToParent := relativePositionToParent.(y := 0.0);
        relativePositionToParent := relativePositionToParent.(z := orbitalRadius * trig.sin(orbitalPositionAngle));
        assert relativePositionToParent == OrbitOffset(orbitalRadius, orbitalPositionAngle, trig);

        var parentPosition := orbitsAround.value.Position();
        assert Some(parentPosition) == old(ParentPosition());
        sphere.SetPosition(Add(parentPosition, relativePositionToParent));
      } else if orbitsAround.Some? {
        assert Some(orbitsAround.value.Position()) == old(ParentPosition());
        sphere.SetPosition(orbitsAround.value.Position());
      }
    }
  }

  /** Why a body could not be built. */
  datatype ConstructionError = IllegalArgument(message: string)

  /**
   * `new Moon(...)`: the sphere and its mesh are built first (`built`); then a
   * missing parent throws `IllegalArgumentException` and the moon is never
   * returned, while the mesh it built stays allocated and is never released.
   */
  method CreateMoon(radius: real, orbitalRadius: real, orbitalPeriod: real, rotationPeriod: real,
                    color: Option<Vec3>, orbitsAround: Option<CelestialBody>, trig: Trig)
    returns (r: Result<Moon, ConstructionError>, built: Sphere)
    ensures fresh(built)
    ensures built.position == Origin && built.radius == radius && built.rotation == Origin
    ensures built.rotationPeriod == rotationPeriod && built.enableSelfRotation == (rotationPeriod != 0.0)
    ensures built.baseColor == (if color.Some? then color.value else DEFAULT_COLOR)
    ensures built.mesh == Some(MeshOf(radius, built.baseColor, trig)) && built.meshReleases == 0
    ensures r.Failure? <==> orbitsAround.None?
    ensures r.Failure? ==> r.error == IllegalArgument("Moon must orbit a CelestialBody (Planet).")
    ensures r.Success? ==> var m := r.value;
      fresh(m) && m.sphere == built &&
      m.orbitalRadius == orbitalRadius && m.orbitalPeriod == orbitalPeriod &&
      m.orbitsAround == orbitsAround && m.orbitalPositionAngle == 0.0
  {
    var moon := new Moon(radius, orbitalRadius, orbitalPeriod, rotationPeriod, color, orbitsAround, trig);
    built := moon.sphere;
    if orbitsAround.None? {
      return Failure(IllegalArgument("Moon must orbit a CelestialBody (Planet).")), built;
    }
    return Success(moon), built;
  }

  /** The `CelestialBody` interface: one of the three kinds of body. */
  datatype CelestialBody = SphereBody(s: Sphere) | PlanetBody(p: Planet) | MoonBody(m: Moon)
  {
    /** The sphere that holds the body's position, rotation and mesh. */
    function Base(): (s: Sphere)
      ensures s in Footprint()
    {
      match this
      case SphereBody(s) => s
      case PlanetBody(p) => p.sphere
      case MoonBody(m) => m.sphere
    }

    /** The objects an update of the body writes. */
    function Footprint(): set<object>
    {
      match this
      case SphereBody(s) => {s}
      case PlanetBody(p) => {p, p.sphere}
      case MoonBody(m) => {m, m.sphere}
    }

    /** The body this one orbits; a plain sphere orbits nothing. */
    function Parent(): Option<CelestialBody>
    {
      match this
      case SphereBody(_) => None
      case PlanetBody(p) => p.orbitsAround
      case MoonBody(m) => m.orbitsAround
    }

    /** `getPosition()`. */
    function Position(): Vec3
      reads Base()
    {
      Base().GetPosition()
    }

    /** `getMesh()`. */
    function GetMesh(): Option<Mesh>
    {
      Base().mesh
    }

    /** The body's fields as a body state. */
    function State(): (b: BodyState)
      reads Footprint()
      ensures b.position == Position() && b.rotation == Base().rotation
      ensures b.orbit.Fixed? <==> SphereBody?
    {
      match this
      case SphereBody(s) => s.StateWith(Fixed)
      case PlanetBody(p) => p.State()
      case MoonBody(m) => m.State()
    }

    /** The parent's position at this moment, when there is a parent. */
    function ParentPosition(): Option<Vec3>
      reads if Parent().Some? then {Parent().value.Base()} else {}
    {
      if Parent().Some? then Some(Parent().value.Position()) else None
    }

    /** `update(dt)`, dispatched on the kind of body. It writes only the body's own objects. */
    method Update(dt: real, trig: Trig)
      modifies Footprint()
      ensures State() == StepBody(old(State()), old(ParentPosition()), dt, trig)
      ensures Base().meshReleases == old(Base().meshReleases)
    {
      match this
      case SphereBody(s) => s.Update(dt);
      case PlanetBody(p) => p.Update(dt, trig);
      case MoonBody(m) => m.Update(dt, trig);
    }

    /** `cleanup()`: every kind of body releases its sphere's mesh. */
    method Cleanup()
      modifies Base()
      ensures Base().meshReleases == old(Base().meshReleases) + (if GetMesh().Some? then 1 else 0)
      ensures Base().position == old(Base().position) && Base().rotation == old(Base().rotation)
    {
      Base().Cleanup();
    }
  }
}
