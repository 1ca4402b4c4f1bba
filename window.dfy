/**
 * The application window's model: the list of bodies `init` builds, the frame
 * loop that measures the frame time, updates every body in list order and then
 * draws every body, and the final cleanup. GLFW, OpenGL, the camera and the
 * shader are outside the model; a draw is described by the values it uses.
 */
module SolarWindow {
  import opened Wrappers
  import opened Vectors
  import opened SphereMesh
  import opened Motion
  import opened Entities
  import opened Scene

  /** The frame time in seconds between two clock readings in milliseconds. */
  function DeltaTime(last: int, now: int): real
  {
    (now - last) as real / 1000.0
  }

  /** A clock that does not run backwards gives no negative frame time. */
  lemma DeltaTimeNonNegative(last: int, now: int)
    requires last <= now
    ensures DeltaTime(last, now) >= 0.0
  {
  }

  /** A frame time is 0 exactly when the clock has not advanced. */
  lemma DeltaTimeZero(last: int, now: int)
    ensures DeltaTime(last, now) == 0.0 <==> last == now
  {
  }

  /** Frame times add up: two frames take as long as their combined interval. */
  lemma DeltaTimeAdds(t0: int, t1: int, t2: int)
    ensures DeltaTime(t0, t1) + DeltaTime(t1, t2) == DeltaTime(t0, t2)
  {
  }

  /** The frame times of a run whose frames read the clock at `times`, after a last reading `last`. */
  function FrameDeltas(last: int, times: seq<int>): (r: seq<real>)
    ensures |r| == |times|
  {
    seq(|times|, i requires 0 <= i < |times| => DeltaTime(if i == 0 then last else times[i - 1], times[i]))
  }

  /** The frame times of a run add up to the time between the first and the last reading. */
  lemma {:induction false} FrameDeltasTelescope(last: int, times: seq<int>)
    requires |times| > 0
    ensures Total(FrameDeltas(last, times)) == DeltaTime(last, times[|times| - 1])
    decreases |times|
  {
    var n := |times|;
    if n > 1 {
      FrameDeltasTelescope(last, times[..n - 1]);
      assert FrameDeltas(last, times)[..n - 1] == FrameDeltas(last, times[..n - 1]);
      DeltaTimeAdds(last, times[n - 2], times[n - 1]);
    } else {
      assert FrameDeltas(last, times)[..0] == [];
    }
  }

  /** One more clock reading adds one more update pass, of the frame time since the reading before. */
  lemma RunOneMoreFrame(bodies: seq<BodyState>, parents: seq<Option<nat>>, last: int, times: seq<int>, i: nat, trig: Trig)
    requires |parents| == |bodies| && i < |times|
    ensures RunFrames(bodies, parents, FrameDeltas(last, times[..i + 1]), trig) ==
      StepScene(RunFrames(bodies, parents, FrameDeltas(last, times[..i]), trig), parents,
                DeltaTime(if i == 0 then last else times[i - 1], times[i]), trig)
  {
    assert FrameDeltas(last, times[..i + 1])[..i] == FrameDeltas(last, times[..i]);
  }

  /** The clock readings never run backwards. */
  predicate Monotone(last: int, times: seq<int>)
  {
    (|times| > 0 ==> last <= times[0]) && forall i :: 0 < i < |times| ==> times[i - 1] <= times[i]
  }

  /** With a clock that never runs backwards, every frame time is at least 0. */
  lemma FrameDeltasNonNegative(last: int, times: seq<int>)
    requires Monotone(last, times)
    ensures forall i :: 0 <= i < |times| ==> FrameDeltas(last, times)[i] >= 0.0
  {
    forall i | 0 <= i < |times|
      ensures FrameDeltas(last, times)[i] >= 0.0
    {
      DeltaTimeNonNegative(if i == 0 then last else times[i - 1], times[i]);
    }
  }

  /** What `Renderer.render` draws for a body: the model transform's inputs and the index count. */
  datatype DrawCall = DrawCall(position: Vec3, rotation: Vec3, scale: real, indexCount: nat)

  function DrawOf(body: CelestialBody): DrawCall
    requires body.GetMesh().Some?
    reads body.Base()
  {
    DrawCall(body.Position(), body.Base().rotation, body.Base().scale, body.GetMesh().value.VertexCount())
  }

  /** The body at index `parent`, if there is one. */
  function ParentOf(bodies: seq<CelestialBody>, parent: Option<nat>): Option<CelestialBody>
  {
    if parent.Some? && parent.value < |bodies| then Some(bodies[parent.value]) else None
  }

  /** No two bodies share an object. */
  predicate Apart(bodies: seq<CelestialBody>)
  {
    forall k, l {:trigger bodies[k].Footprint(), bodies[l].Footprint()} ::
      0 <= k < |bodies| && 0 <= l < |bodies| && k != l ==> bodies[k].Footprint() !! bodies[l].Footprint()
  }

  /** The parent indices of the bodies `init` builds: the sun, planets of the sun, and moons. */
  const INITIAL_PARENTS: seq<Option<nat>> :=
    [None, Some(0), Some(0), Some(0)] + [Some(3), Some(0), Some(5), Some(5)] + [Some(0), Some(0), Some(0), Some(0)]

  /** The state of a planet as its constructor leaves it, at the origin. */
  function NewPlanet(orbitalRadiusParam: real, orbitalPeriod: real, rotationPeriod: real): BodyState
  {
    BodyState(rotationPeriod != 0.0, rotationPeriod, Origin, Origin, PlanetOrbit(orbitalRadiusParam + 2.0, orbitalPeriod, 0.0, Origin))
  }

  /** The state of a moon as its constructor leaves it, at the origin. */
  function NewMoon(orbitalRadius: real, orbitalPeriod: real, rotationPeriod: real): BodyState
  {
    BodyState(rotationPeriod != 0.0, rotationPeriod, Origin, Origin, MoonOrbit(orbitalRadius, orbitalPeriod, 0.0))
  }

  /** The sun, Mercury, Venus and Earth as `init` builds them. */
  const SUN_AND_INNER_PLANETS: seq<BodyState> := [
    BodyState(true, 60.0, Origin, Origin, Fixed),
    NewPlanet(0.715, 4.82, 293.0),
    NewPlanet(1.320, 12.30, -1215.0),
    NewPlanet(1.833, 20.0, 5.0)]

  /** The Moon, Mars, Phobos and Deimos as `init` builds them. */
  const MARS_AND_MOONS: seq<BodyState> := [
    NewMoon(0.3, 2.0, 27.3),
    NewPlanet(2.787, 37.62, 5.13),
    NewMoon(0.15, 0.8, 0.318),
    NewMoon(0.25, 1.5, 1.262)]

  /** Jupiter, Saturn, Uranus and Neptune as `init` builds them. */
  const GIANT_PLANETS: seq<BodyState> := [
    NewPlanet(9.533, 237.27, 2.07),
    NewPlanet(17.563, 589.13, 2.22),
    NewPlanet(35.237, 1680.64, -3.59),
    NewPlanet(55.092, 3295.54, 3.36)]

  /** The scene `init` builds, in list order. */
  const INITIAL_SCENE: seq<BodyState> := SUN_AND_INNER_PLANETS + MARS_AND_MOONS + GIANT_PLANETS

  /** A body's radius and colour, the two things its mesh is built from. */
  datatype Shape = Shape(radius: real, color: Vec3)

  const SUN_AND_INNER_SHAPES: seq<Shape> := [
    Shape(2.0, Vec3(1.0, 0.9, 0.2)),
    Shape(0.045, Vec3(0.6, 0.6, 0.6)),
    Shape(0.112, Vec3(0.9, 0.8, 0.6)),
    Shape(0.117, Vec3(0.2, 0.5, 0.8))]

  const MARS_AND_MOONS_SHAPES: seq<Shape> := [
    Shape(0.03, Vec3(0.7, 0.7, 0.7)),
    Shape(0.062, Vec3(0.8, 0.3, 0.1)),
    Shape(0.01, Vec3(0.5, 0.45, 0.4)),
    Shape(0.008, Vec3(0.55, 0.5, 0.45))]

  const GIANT_SHAPES: seq<Shape> := [
    Shape(1.282, Vec3(0.8, 0.7, 0.5)),
    Shape(1.067, Vec3(0.9, 0.85, 0.6)),
    Shape(0.465, Vec3(0.6, 0.8, 0.9)),
    Shape(0.452, Vec3(0.3, 0.4, 0.9))]

  /** The radii and colours of the bodies `init` builds, in list order. */
  const INITIAL_SHAPES: seq<Shape> := SUN_AND_INNER_SHAPES + MARS_AND_MOONS_SHAPES + GIANT_SHAPES

  /** A body built with `shape`: that radius and colour, and its mesh built from the two. */
  ghost predicate HasShape(body: CelestialBody, shape: Shape, trig: Trig)
  {
    body.Base().radius == shape.radius && body.Base().baseColor == shape.color &&
    body.GetMesh() == Some(MeshOf(shape.radius, shape.color, trig))
  }

  /** A body as its constructor leaves it: built with `shape`, and the mesh not yet released. */
  ghost predicate FreshlyBuilt(body: CelestialBody, shape: Shape, trig: Trig)
    reads body.Base()
  {
    HasShape(body, shape, trig) && body.Base().meshReleases == 0
  }

  /**
   * The scene `init` builds has every parent before its children, so the
   * update pass never lags; the sun is fixed, the planets orbit the sun and
   * the moons orbit Earth and Mars.
   */
  lemma InitialSceneOrdered()
    ensures |INITIAL_PARENTS| == |INITIAL_SCENE| == 12
    ensures ParentsFirst(INITIAL_PARENTS)
    ensures forall k :: 0 <= k < 12 ==> (INITIAL_SCENE[k].orbit.Fixed? <==> INITIAL_PARENTS[k].None?)
    ensures forall k :: 0 <= k < 12 && INITIAL_SCENE[k].orbit.MoonOrbit? ==>
      INITIAL_PARENTS[k].Some? && INITIAL_SCENE[INITIAL_PARENTS[k].value].orbit.PlanetOrbit?
  {
  }

  /**
   * In the scene `init` builds, each frame moves every planet and moon to its
   * parent's position of the same frame plus its orbit offset.
   */
  lemma InitialSceneFollows(bodies: seq<BodyState>, k: nat, dt: real, trig: Trig)
    requires |bodies| == 12 && 0 < k < 12
    requires forall l :: 0 <= l < 12 ==> bodies[l].orbit.Fixed? == (l == 0)
    requires !bodies[k].orbit.Fixed? && bodies[k].orbit.orbitalPeriod != 0.0
    ensures var after := StepScene(bodies, INITIAL_PARENTS, dt, trig);
      var p := INITIAL_PARENTS[k].value;
      !after[k].orbit.Fixed? &&
      after[k].position == Add(after[p].position, OrbitOffset(bodies[k].orbit.orbitalRadius, after[k].orbit.angle, trig))
  {
    InitialSceneOrdered();
    ChildFollowsParent(bodies, INITIAL_PARENTS, k, dt, trig);
  }

  /** The application window, reduced to the scene it owns and its frame clock. */
  class Window {
    /** `objects`: the bodies, in the order they are updated and drawn. */
    var objects: seq<CelestialBody>
    /** For each body, the index in `objects` of the body it orbits. */
    ghost var parents: seq<Option<nat>>
    var lastFrameTime: int
    var deltaTime: real

    /**
     * The list is consistent: each body's parent is an earlier body of the
     * list, no two bodies share an object, and every body has its mesh.
     */
    ghost predicate Valid()
      reads this`objects, this`parents
    {
      |parents| == |objects| && ParentsFirst(parents) && Apart(objects) && this !in Repr() &&
      (forall k {:trigger objects[k].Parent()} :: 0 <= k < |objects| ==> objects[k].Parent() == ParentOf(objects, parents[k])) &&
      (forall k :: 0 <= k < |objects| ==> objects[k].GetMesh().Some? && |objects[k].GetMesh().value.indices| == NUM_INDICES)
    }

    /** The objects of all bodies. */
    ghost function Repr(): set<object>
      reads this`objects
    {
      set k, o | 0 <= k < |objects| && o in objects[k].Footprint() :: o
    }

    /** The bodies' states, in list order. */
    ghost function View(): (v: seq<BodyState>)
      reads this`objects, Repr()
      ensures |v| == |objects|
    {
      var bodies := objects;
      seq(|bodies|, k requires 0 <= k < |bodies| reads if 0 <= k < |bodies| then bodies[k].Footprint() else {} => bodies[k].State())
    }

    /** `new Window(width, height)`: no bodies yet. */
    constructor()
      ensures Valid() && objects == [] && parents == []
      ensures lastFrameTime == 0 && deltaTime == 0.0
    {
      objects := [];
      parents := [];
      lastFrameTime := 0;
      deltaTime := 0.0;
    }

    /** Appends a body whose parent is the body at index `parent`. */
    method Append(body: CelestialBody, ghost parent: Option<nat>)
      requires Valid()
      requires parent.Some? ==> parent.value < |objects|
      requires body.Parent() == ParentOf(objects, parent)
      requires body.GetMesh().Some? && |body.GetMesh().value.indices| == NUM_INDICES
      requires body.Footprint() !! Repr() && this !in body.Footprint()
      modifies this
      ensures Valid() && objects == old(objects) + [body] && parents == old(parents) + [parent]
      ensures View() == old(View()) + [body.State()]
      ensures lastFrameTime == old(lastFrameTime) && deltaTime == old(deltaTime)
    {
      objects := objects + [body];
      parents := parents + [parent];
      forall k, l | 0 <= k < |objects| && 0 <= l < |objects| && k != l
        ensures objects[k].Footprint() !! objects[l].Footprint()
      {
        if k == |objects| - 1 || l == |objects| - 1 {
          var other := if k == |objects| - 1 then l else k;
          forall o | o in objects[other].Footprint()
            ensures o in old(Repr())
          {
          }
        }
      }
      assert forall k :: 0 <= k < |old(objects)| ==> View()[k] == old(View()[k]);
    }

    /** `new Sphere(...)` at the origin, then `objects.add`. */
    method AddSphere(radius: real, color: Vec3, rotationPeriod: real, trig: Trig)
      requires Valid()
      modifies this
      ensures |objects| == |old(objects)| + 1 && objects[|old(objects)|].SphereBody?
      ensures Valid() && parents == old(parents) + [None]
      ensures View() == old(View()) + [BodyState(rotationPeriod != 0.0, rotationPeriod, Origin, Origin, Fixed)]
      ensures FreshlyBuilt(objects[|old(objects)|], Shape(radius, color), trig) && fresh(objects[|old(objects)|].Footprint())
      ensures forall k :: 0 <= k < |old(objects)| ==> objects[k] == old(objects[k])
      ensures lastFrameTime == old(lastFrameTime) && deltaTime == old(deltaTime)
    {
      ghost var before := Repr();
      var sphere := new Sphere(Vec3(0.0, 0.0, 0.0), radius, Some(color), rotationPeriod, trig);
      assert SphereBody(sphere).Footprint() !! before;
      Append(SphereBody(sphere), None);
    }

    /** `new Planet(...)` at the origin around the body at index `parent`, then `objects.add`. */
    method AddPlanet(radius: real, orbitalRadiusParam: real, orbitalPeriod: real, rotationPeriod: real,
                     color: Vec3, parent: nat, trig: Trig)
      requires Valid() && parent < |objects|
      modifies this
      ensures |objects| == |old(objects)| + 1 && objects[|old(objects)|].PlanetBody?
      ensures Valid() && parents == old(parents) + [Some(parent)]
      ensures View() == old(View()) + [NewPlanet(orbitalRadiusParam, orbitalPeriod, rotationPeriod)]
      ensures FreshlyBuilt(objects[|old(objects)|], Shape(radius, color), trig) && fresh(objects[|old(objects)|].Footprint())
      ensures forall k :: 0 <= k < |old(objects)| ==> objects[k] == old(objects[k])
      ensures lastFrameTime == old(lastFrameTime) && deltaTime == old(deltaTime)
    {
      ghost var before := Repr();
      var planet := new Planet(Vec3(0.0, 0.0, 0.0), radius, orbitalRadiusParam, orbitalPeriod, rotationPeriod,
                               Some(color), Some(objects[parent]), trig);
      assert PlanetBody(planet).Footprint() !! before;
      Append(PlanetBody(planet), Some(parent));
    }

    /** `new Moon(...)` around the body at index `parent`, then `objects.add`; the parent check passes. */
    method AddMoon(radius: real, orbitalRadius: real, orbitalPeriod: real, rotationPeriod: real,
                   color: Vec3, parent: nat, trig: Trig)
      requires Valid() && parent < |objects|
      modifies this
      ensures |objects| == |old(objects)| + 1 && objects[|old(objects)|].MoonBody?
      ensures Valid() && parents == old(parents) + [Some(parent)]
      ensures View() == old(View()) + [NewMoon(orbitalRadius, orbitalPeriod, rotationPeriod)]
      ensures FreshlyBuilt(objects[|old(objects)|], Shape(radius, color), trig) && fresh(objects[|old(objects)|].Footprint())
      ensures forall k :: 0 <= k < |old(objects)| ==> objects[k] == old(objects[k])
      ensures lastFrameTime == old(lastFrameTime) && deltaTime == old(deltaTime)
    {
      ghost var before := Repr();
      var r, _ := CreateMoon(radius, orbitalRadius, orbitalPeriod, rotationPeriod, Some(color), Some(objects[parent]), trig);
      assert MoonBody(r.value).Footprint() !! before;
      Append(MoonBody(r.value), Some(parent));
    }

    /** The first four bodies of `init`: the sun, Mercury, Venus and Earth. */
    method AddSunAndInnerPlanets(trig: Trig)
      requires Valid()
      modifies this
      ensures Valid() && parents == old(parents) + [None, Some(|old(objects)|), Some(|old(objects)|), Some(|old(objects)|)]
      ensures View() == old(View()) + SUN_AND_INNER_PLANETS
      ensures |objects| == |old(objects)| + 4
      ensures forall k :: |old(objects)| <= k < |objects| ==>
        FreshlyBuilt(objects[k], SUN_AND_INNER_SHAPES[k - |old(objects)|], trig) && fresh(objects[k].Footprint())
      ensures forall k :: 0 <= k < |old(objects)| ==> objects[k] == old(objects[k])
      ensures lastFrameTime == old(lastFrameTime) && deltaTime == old(deltaTime)
    {
      var sun := |objects|;
      AddSphere(2.0, Vec3(1.0, 0.9, 0.2), 60.0, trig);
      ghost var after1 := objects;
      AddPlanet(0.045, 0.715, 4.82, 293.0, Vec3(0.6, 0.6, 0.6), sun, trig);
      ghost var after2 := objects;
      AddPlanet(0.112, 1.320, 12.30, -1215.0, Vec3(0.9, 0.8, 0.6), sun, trig);
      ghost var after3 := objects;
      AddPlanet(0.117, 1.833, 20.0, 5.0, Vec3(0.2, 0.5, 0.8), sun, trig);
      forall k | sun <= k < |objects|
        ensures FreshlyBuilt(objects[k], SUN_AND_INNER_SHAPES[k - sun], trig) && fresh(objects[k].Footprint())
      {
        if k == sun {
          assert objects[k] == after3[k] == after2[k] == after1[k];
        } else if k == sun + 1 {
          assert objects[k] == after3[k] == after2[k];
        } else if k == sun + 2 {
          assert objects[k] == after3[k];
        }
      }
    }

    /** The next four bodies of `init`: the Moon around Earth, then Mars with Phobos and Deimos. */
    method AddMarsAndMoons(sun: nat, earth: nat, trig: Trig)
      requires Valid() && sun < |objects| && earth < |objects|
      modifies this
      ensures Valid()
      ensures parents == old(parents) + [Some(earth), Some(sun), Some(|old(objects)| + 1), Some(|old(objects)| + 1)]
      ensures View() == old(View()) + MARS_AND_MOONS
      ensures |objects| == |old(objects)| + 4
      ensures forall k :: |old(objects)| <= k < |objects| ==>
        FreshlyBuilt(objects[k], MARS_AND_MOONS_SHAPES[k - |old(objects)|], trig) && fresh(objects[k].Footprint())
      ensures forall k :: 0 <= k < |old(objects)| ==> objects[k] == old(objects[k])
      ensures lastFrameTime == old(lastFrameTime) && deltaTime == old(deltaTime)
    {
      ghost var n := |objects|;
      AddMoon(0.03, 0.3, 2.0, 27.3, Vec3(0.7, 0.7, 0.7), earth, trig);
      ghost var after1 := objects;
      var mars := |objects|;
      AddPlanet(0.062, 2.787, 37.62, 5.13, Vec3(0.8, 0.3, 0.1), sun, trig);
      ghost var after2 := objects;
      AddMoon(0.01, 0.15, 0.8, 0.318, Vec3(0.5, 0.45, 0.4), mars, trig);
      ghost var after3 := objects;
      AddMoon(0.008, 0.25, 1.5, 1.262, Vec3(0.55, 0.5, 0.45), mars, trig);
      forall k | n <= k < |objects|
        ensures FreshlyBuilt(objects[k], MARS_AND_MOONS_SHAPES[k - n], trig) && fresh(objects[k].Footprint())
      {
        if k == n {
          assert objects[k] == after3[k] == after2[k] == after1[k];
        } else if k == n + 1 {
          assert objects[k] == after3[k] == after2[k];
        } else if k == n + 2 {
          assert objects[k] == after3[k];
        }
      }
    }

    /** The last four bodies of `init`: Jupiter, Saturn, Uranus and Neptune. */
    method AddGiantPlanets(sun: nat, trig: Trig)
      requires Valid() && sun < |objects|
      modifies this
      ensures Valid() && parents == old(parents) + [Some(sun), Some(sun), Some(sun), Some(sun)]
      ensures View() == old(View()) + GIANT_PLANETS
      ensures |objects| == |old(objects)| + 4
      ensures forall k :: |old(objects)| <= k < |objects| ==>
        FreshlyBuilt(objects[k], GIANT_SHAPES[k - |old(objects)|], trig) && fresh(objects[k].Footprint())
      ensures forall k :: 0 <= k < |old(objects)| ==> objects[k] == old(objects[k])
      ensures lastFrameTime == old(lastFrameTime) && deltaTime == old(deltaTime)
    {
      ghost var n := |objects|;
      AddPlanet(1.282, 9.533, 237.27, 2.07, Vec3(0.8, 0.7, 0.5), sun, trig);
      ghost var after1 := objects;
      AddPlanet(1.067, 17.563, 589.13, 2.22, Vec3(0.9, 0.85, 0.6), sun, trig);
      ghost var after2 := objects;
      AddPlanet(0.465, 35.237, 1680.64, -3.59, Vec3(0.6, 0.8, 0.9), sun, trig);
      ghost var after3 := objects;
      AddPlanet(0.452, 55.092, 3295.54, 3.36, Vec3(0.3, 0.4, 0.9), sun, trig);
      forall k | n <= k < |objects|
        ensures FreshlyBuilt(objects[k], GIANT_SHAPES[k - n], trig) && fresh(objects[k].Footprint())
      {
        if k == n {
          assert objects[k] == after3[k] == after2[k] == after1[k];
        } else if k == n + 1 {
          assert objects[k] == after3[k] == after2[k];
        } else if k == n + 2 {
          assert objects[k] == after3[k];
        }
      }
    }

    /**
     * The bodies of `init`, in its order: the sun, Mercury, Venus, Earth, the
     * Moon, Mars, Phobos, Deimos, Jupiter, Saturn, Uranus and Neptune; then
     * the first clock reading.
     */
    method Init(now: int, trig: Trig)
      requires Valid() && objects == []
      modifies this
      ensures Valid() && parents == INITIAL_PARENTS && View() == INITIAL_SCENE
      ensures |objects| == 12 && forall k :: 0 <= k < 12 ==> FreshlyBuilt(objects[k], INITIAL_SHAPES[k], trig)
      ensures fresh(Repr())
      ensures lastFrameTime == now
    {
      AddSunAndInnerPlanets(trig);
      assert View() == SUN_AND_INNER_PLANETS;
      ghost var sunAndInner := objects;
      AddMarsAndMoons(0, 3, trig);
      ghost var upToDeimos := objects;
      AddGiantPlanets(0, trig);
      lastFrameTime := now;
      forall k | 0 <= k < 12
        ensures FreshlyBuilt(objects[k], INITIAL_SHAPES[k], trig) && fresh(objects[k].Footprint())
      {
        if k < 4 {
          assert objects[k] == upToDeimos[k] == sunAndInner[k];
          assert INITIAL_SHAPES[k] == SUN_AND_INNER_SHAPES[k];
        } else if k < 8 {
          assert objects[k] == upToDeimos[k];
          assert INITIAL_SHAPES[k] == MARS_AND_MOONS_SHAPES[k - 4];
        } else {
          assert INITIAL_SHAPES[k] == GIANT_SHAPES[k - 8];
        }
      }
      FreshBodies();
    }

    /** When every body's objects are new, all of the list's objects are. */
    twostate lemma FreshBodies()
      requires forall k :: 0 <= k < |objects| ==> fresh(objects[k].Footprint())
      ensures fresh(Repr())
    {
    }

    /** `body.update(deltaTime)` for every body, in list order. */
    method UpdatePass(dt: real, trig: Trig)
      requires Valid()
      modifies Repr()
      ensures Valid() && objects == old(objects) && parents == old(parents)
      ensures View() == StepScene(old(View()), parents, dt, trig)
      ensures forall k :: 0 <= k < |objects| ==> objects[k].Base().meshReleases == old(objects[k].Base().meshReleases)
    {
      ghost var start := View();
      for k := 0 to |objects|
        invariant Valid() && objects == old(objects) && parents == old(parents)
        invariant View() == UpdateUpTo(start, parents, k, dt, trig)
        invariant forall k :: 0 <= k < |objects| ==> objects[k].Base().meshReleases == old(objects[k].Base().meshReleases)
      {
        UpdateReadsParent(k, View());
        UpdateBody(k, dt, trig);
      }
    }

    /** `body.update(deltaTime)` for the body at index k: no other body changes. */
    method UpdateBody(k: nat, dt: real, trig: Trig)
      requires Valid() && k < |objects|
      modifies objects[k].Footprint()
      ensures Valid() && objects == old(objects) && parents == old(parents)
      ensures View() == old(View())[k := StepBody(old(View()[k]), old(objects[k].ParentPosition()), dt, trig)]
      ensures forall k :: 0 <= k < |objects| ==> objects[k].Base().meshReleases == old(objects[k].Base().meshReleases)
    {
      ghost var before := View();
      objects[k].Update(dt, trig);
      forall l | 0 <= l < |objects| && l != k
        ensures View()[l] == before[l] && objects[l].Base().meshReleases == old(objects[l].Base().meshReleases)
      {
        assert objects[l].Footprint() !! objects[k].Footprint();
      }
    }

    /** The parent position body k reads is the one of the scene state `s` it sees. */
    lemma UpdateReadsParent(k: nat, s: seq<BodyState>)
      requires Valid() && k < |objects| && |s| == |objects|
      requires s == View()
      ensures objects[k].ParentPosition() == Scene.ParentPosition(s, parents[k])
    {
      if parents[k].Some? {
        assert objects[parents[k].value].State() == s[parents[k].value];
      }
    }

    /** `renderer.render(body, view)` for every body, in list order. */
    method RenderPass() returns (draws: seq<DrawCall>)
      requires Valid()
      ensures View() == old(View())
      ensures |draws| == |objects|
      ensures forall k :: 0 <= k < |objects| ==>
        draws[k] == DrawOf(objects[k]) && draws[k].indexCount == NUM_INDICES
      ensures forall k :: 0 <= k < |objects| ==>
        draws[k].position == View()[k].position && draws[k].rotation == View()[k].rotation
    {
      draws := [];
      for k := 0 to |objects|
        invariant |draws| == k
        invariant forall l :: 0 <= l < k ==> draws[l] == DrawOf(objects[l]) && draws[l].indexCount == NUM_INDICES
      {
        draws := draws + [DrawOf(objects[k])];
      }
      forall k | 0 <= k < |objects|
        ensures draws[k].position == View()[k].position && draws[k].rotation == View()[k].rotation
      {
        assert View()[k] == objects[k].State();
      }
    }

    /**
     * One pass of the frame loop: the frame time from the clock reading `now`,
     * the update pass, then the render pass, which draws every body where the
     * update pass left it.
     */
    method Frame(now: int, trig: Trig) returns (draws: seq<DrawCall>)
      requires Valid()
      modifies this`deltaTime, this`lastFrameTime, Repr()
      ensures Valid() && objects == old(objects) && parents == old(parents)
      ensures deltaTime == DeltaTime(old(lastFrameTime), now) && lastFrameTime == now
      ensures View() == StepScene(old(View()), parents, deltaTime, trig)
      ensures forall k :: 0 <= k < |objects| ==> objects[k].Base().meshReleases == old(objects[k].Base().meshReleases)
      ensures |draws| == |objects|
      ensures forall k :: 0 <= k < |objects| ==>
        draws[k].position == View()[k].position && draws[k].rotation == View()[k].rotation &&
        draws[k].scale == objects[k].Base().scale && draws[k].indexCount == NUM_INDICES
    {
      ghost var start := View();
      var currentTime := now;
      deltaTime := (currentTime - lastFrameTime) as real / 1000.0;
      lastFrameTime := currentTime;
      ghost var dt := deltaTime;
      assert View() == start;
      UpdatePass(deltaTime, trig);
      assert View() == StepScene(start, parents, dt, trig);
      assert deltaTime == dt;
      draws := RenderPass();
    }

    /** The frame loop, for a run whose frames read the clock at `times`. */
    method Loop(times: seq<int>, trig: Trig) returns (frames: seq<seq<DrawCall>>)
      requires Valid()
      modifies this`deltaTime, this`lastFrameTime, Repr()
      ensures Valid() && objects == old(objects) && parents == old(parents)
      ensures View() == RunFrames(old(View()), parents, FrameDeltas(old(lastFrameTime), times), trig)
      ensures lastFrameTime == if |times| == 0 then old(lastFrameTime) else times[|times| - 1]
      ensures forall k :: 0 <= k < |objects| ==> objects[k].Base().meshReleases == old(objects[k].Base().meshReleases)
      ensures |frames| == |times| && forall i :: 0 <= i < |times| ==> |frames[i]| == |objects|
    {
      ghost var start := View();
      ghost var last := lastFrameTime;
      frames := [];
      for i := 0 to |times|
        invariant Valid() && objects == old(objects) && parents == old(parents)
        invariant View() == RunFrames(start, parents, FrameDeltas(last, times[..i]), trig)
        invariant lastFrameTime == if i == 0 then last else times[i - 1]
        invariant forall k :: 0 <= k < |objects| ==> objects[k].Base().meshReleases == old(objects[k].Base().meshReleases)
        invariant |frames| == i && forall j :: 0 <= j < i ==> |frames[j]| == |objects|
      {
        RunOneMoreFrame(start, parents, last, times, i, trig);
        var draws := Frame(times[i], trig);
        frames := frames + [draws];
      }
      assert times[..|times|] == times;
    }

    /** `body.cleanup()` for every body: each mesh is released once more; nothing moves. */
    method Cleanup()
      requires Valid()
      modifies Repr()
      ensures Valid() && objects == old(objects) && parents == old(parents) && View() == old(View())
      ensures forall k :: 0 <= k < |objects| ==>
        objects[k].Base().meshReleases == old(objects[k].Base().meshReleases) + 1
    {
      for k := 0 to |objects|
        invariant forall l :: 0 <= l < |objects| ==> objects[l].State() == old(objects[l].State())
        invariant forall l :: 0 <= l < |objects| ==>
          objects[l].Base().meshReleases == old(objects[l].Base().meshReleases) + (if l < k then 1 else 0)
      {
        label before:
        objects[k].Cleanup();
        forall l | 0 <= l < |objects| && l != k
          ensures objects[l].State() == old@before(objects[l].State())
          ensures objects[l].Base().meshReleases == old@before(objects[l].Base().meshReleases)
        {
          assert objects[l].Footprint() !! objects[k].Footprint();
        }
      }
    }

    /**
     * `run()`: `init`, the frame loop over the clock readings `times`, then
     * `cleanup`. The scene ends where the frames of the run take it, and every
     * body's mesh has been released exactly once.
     */
    method Run(now: int, times: seq<int>, trig: Trig) returns (frames: seq<seq<DrawCall>>)
      requires Valid() && objects == []
      modifies this
      ensures Valid() && parents == INITIAL_PARENTS && |objects| == 12
      ensures View() == RunFrames(INITIAL_SCENE, INITIAL_PARENTS, FrameDeltas(now, times), trig)
      ensures |frames| == |times| && forall i :: 0 <= i < |times| ==> |frames[i]| == 12
      ensures forall k :: 0 <= k < 12 ==>
        objects[k].Base().radius == INITIAL_SHAPES[k].radius && objects[k].Base().baseColor == INITIAL_SHAPES[k].color &&
        objects[k].GetMesh() == Some(MeshOf(INITIAL_SHAPES[k].radius, INITIAL_SHAPES[k].color, trig)) &&
        objects[k].Base().meshReleases == 1
    {
      Init(now, trig);
      frames := Loop(times, trig);
      Cleanup();
    }
  }
}
