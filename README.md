# Solar system (LWJGL) — a Dafny model of its core

The program draws a small solar system: a sun, eight planets and three moons.
Every body is a UV sphere (`Sphere`). A `Planet` orbits an optional parent body
and a `Moon` orbits a mandatory one; both also spin about their own Y axis.
`Window.init` builds the bodies in a fixed order, parents before children. Each
pass of `Window.loop` does three things in order:

1. It measures the frame time from the millisecond clock.
2. It updates every body in list order.
3. It draws every body.

`Window.cleanup` releases every body's mesh.

The model has seven modules:

- `Wrappers` holds `Option` and `Result`, which stand for Java's nulls and for the one exception the core throws.
- `Vectors` holds JOML's `Vector3f` as a value datatype over the reals, together with `Math.PI`. `Math.cos` and `Math.sin` are a pair of functions passed in (`Trig`); nothing is assumed about them.
- `SphereMesh` models `Sphere.createMesh`:
  - imperative methods fill a vertex array and an index array with running cursors, as the Java loops do;
  - each method is proved against the pure description `MeshOf`;
  - lemmas prove the buffer sizes, the slot layout, the triangles emitted per stack, index ranges and the zero padding.
- `Motion` gives the per-frame rules for a single body, on values: the self-rotation rule, the planet orbit rule and the moon orbit rule (`StepBody`), with their properties.
- `Entities` holds the classes `Sphere`, `Planet` and `Moon`:
  - Java's `extends Sphere` becomes a `const sphere` that the planet or moon owns;
  - the `CelestialBody` interface becomes a datatype over the three classes;
  - every `update` is proved to apply the matching `Motion` rule to the object's fields.
- `Scene` describes the update pass on values: an ordered list of body states with parent indices, updated one after the other. It proves that the pass does not lag and that children follow their parents.
- `SolarWindow` holds the class `Window`:
  - `objects` is the list `init` builds;
  - `Valid` is the list invariant;
  - `View` is the list's states as a `Scene` value;
  - one frame (`Frame`), the frame loop over a sequence of clock readings (`Loop`), `Cleanup`, and `Run`, which chains `init`, the loop and `cleanup`.

## Model

| member | source | states |
|---|---|---|
| SphereMesh.Sizes | entities/Sphere.java:57-63 | The vertex count is (STACKS + 1)(SECTORS + 1) = 1225, the vertex array has six floats per vertex, and the index array is allocated with STACKS·SECTORS·6 entries. The loops write 6·SECTORS fewer than that. |
| SphereMesh.Clamp01 | entities/Sphere.java:101-103 | `max(0, min(1, x))` is in [0, 1], equals x inside that range, and is 0 below it and 1 above it. |
| SphereMesh.VertexAt | entities/Sphere.java:69-103 | Vertex (i, j) is at (r cos s cos t, r cos s sin t, r sin s), with s = pi/2 − i·pi/STACKS and t = j·2pi/SECTORS. Its colour channels are in [0, 1] whatever the base colour. |
| SphereMesh.StackOf | entities/Sphere.java:109-127 | Each written index entry belongs to exactly one stack, the one whose index budget contains it. |
| SphereMesh.MeshOf | entities/Sphere.java:60-63 | A sphere mesh has 7350 vertex floats and an index array of 6912 entries. That length is also its draw count, `m.VertexCount() == NUM_INDICES` (`glDrawElements` with the array's length, rendering/Mesh.java:34). The first 6624 entries are the emitted triangles; the rest are zeros. |
| SphereMesh.WriteVertex | entities/Sphere.java:80-103 | The six writes of one vertex put x, y, z, r, g, b after the cursor, and the cursor advances by 6. |
| SphereMesh.FillStackLine | entities/Sphere.java:74-104 | The inner vertex loop appends the SECTORS + 1 vertices of stack line i. |
| SphereMesh.FillVertices | entities/Sphere.java:68-105 | The vertex loops write the whole vertex array, row by row, and the cursor ends exactly at the array's length. |
| SphereMesh.EmitSector | entities/Sphere.java:115-125 | One sector appends its top triangle unless i is the first stack, then its bottom triangle unless i is the last stack. Entries after the cursor are untouched. |
| SphereMesh.FillStack | entities/Sphere.java:110-126 | The inner index loop, with k1 and k2 advancing together, appends the triangles of every sector of stack i in order. |
| SphereMesh.FillIndices | entities/Sphere.java:108-127 | The index loops write exactly 6624 entries, the triangles of every stack in row-major order. Every entry after the cursor stays 0. |
| SphereMesh.CreateMesh | entities/Sphere.java:56-129 | `createMesh` builds exactly `MeshOf(radius, baseColor)`. |
| SphereMesh.FilledMesh | entities/Sphere.java:62-63 | Full vertex data, plus the emitted indices followed by zeros, is the sphere mesh. |
| SphereMesh.GridPrefix | entities/Sphere.java:68-105 | The first n stack lines of the vertex data are a prefix of the first m. |
| SphereMesh.RowPrefix | entities/Sphere.java:74-104 | Within a stack line, the first n vertices are a prefix of the first m. |
| SphereMesh.StackLineLayout | entities/Sphere.java:68-105 | Stack line i fills slots 294·i to 294·(i + 1) of the vertex array. |
| SphereMesh.SectorLayout | entities/Sphere.java:74-104 | Within its stack line, vertex j fills slots 6·j to 6·j + 5. |
| SphereMesh.VertexLayout | entities/Sphere.java:68-104 | Vertex (i, j) fills slots 6·(i(SECTORS + 1) + j) to that + 5, in the order x, y, z, r, g, b. |
| SphereMesh.VertexSlot | entities/Sphere.java:80-103 | Reading the array slot by slot: slots 0-2 of vertex (i, j) hold its spherical position, and slots 3-5 hold colours in [0, 1]. |
| SphereMesh.SeamVerticesCoincide | entities/Sphere.java:74-78 | When cos and sin agree at 0 and 2pi, the duplicated seam vertices (sector 0 and sector SECTORS) are identical. |
| SphereMesh.TrianglesEmitted | entities/Sphere.java:113-125 | The top triangle (k1, k2, k1 + 1) is emitted iff i ≠ 0, and the bottom triangle (k1 + 1, k2, k2 + 1) iff i ≠ STACKS − 1. |
| SphereMesh.IndicesPrefix | entities/Sphere.java:109-127 | The first n stacks emit a prefix of what the first m stacks emit. |
| SphereMesh.RowIndicesPrefix | entities/Sphere.java:113-126 | Within a stack, the first n sectors emit a prefix of what the first m emit. |
| SphereMesh.TriangleLayout | entities/Sphere.java:109-127 | Row-major emission: the triangles of (i, j) come right after those of every earlier stack and every earlier sector of stack i. They are the TrianglesPerSector(i) entries at offset IndexCount(i) + RowIndexCount(i, j) of the emitted indices. |
| SphereMesh.TrianglesInRange | entities/Sphere.java:110-125 | The triangles of stack i use only vertices of stack lines i and i + 1. |
| SphereMesh.RowIndicesInRange | entities/Sphere.java:110-126 | Every index a stack emits is below the vertex count. |
| SphereMesh.IndicesUpToInRange | entities/Sphere.java:109-127 | Every index emitted is below the vertex count. |
| SphereMesh.IndicesInRange | entities/Sphere.java:60-63 | Every entry of the index array, written or padding, is below NUM_VERTICES and below the number of vertices in the vertex array. |
| SphereMesh.PaddingTrianglesDegenerate | entities/Sphere.java:61-63 | The draw count (`VertexCount`, the whole array, as rendering/Mesh.java:34 draws it) includes the unwritten tail: 2·SECTORS = 96 triangles, each of them (0, 0, 0). |
| Motion.Spin | entities/Sphere.java:203-210 | Self-rotation changes only rotation.y. Otherwise the rotation is left as it is unless self-rotation is on and the period is not 0. |
| Motion.SpinZeroDt | entities/Sphere.java:203-210 | dt = 0 does not turn a sphere. |
| Motion.SpinDirection | entities/Sphere.java:206-208 | With dt > 0, a positive period increases the Y angle and a negative period decreases it. |
| Motion.SpinAdditive | entities/Sphere.java:206-208 | Two frames turn a sphere as far as one frame of their combined length. |
| Motion.SpinFullTurn | entities/Sphere.java:206 | One rotation period turns a sphere by exactly 360 degrees. |
| Motion.AdvanceAngle | entities/Planet.java:101-105 | The new angle is the old angle plus 2pi/period·dt, with 2pi subtracted at most once. |
| Motion.AdvanceWrapsOnce | entities/Planet.java:103-105 | 2pi is subtracted exactly when the advanced angle reaches 2pi. |
| Motion.AngleStaysInRange | entities/Planet.java:101-105 | An angle in [0, 2pi) stays in that range when the step is in [0, 2pi). |
| Motion.NegativePeriodLeavesRange | entities/Planet.java:101-105 | With a negative period and dt > 0, an angle in [0, 2pi) only decreases, with no wrap. A step larger than the angle takes it below 0, and nothing corrects it. |
| Motion.FullTurnStepReturns | entities/Planet.java:101-105 | A step of exactly 2pi brings an angle in [0, 2pi) back to itself. |
| Motion.LargeStepLeavesRange | entities/Planet.java:103-105 | One subtraction does not bring a step reaching 4pi back below 2pi. |
| Motion.OrbitOffset | entities/Planet.java:107-111 | The orbit offset lies in the horizontal plane: its y is exactly 0. |
| Motion.OffsetOnCircle | entities/Planet.java:107-111 | When cos² + sin² = 1, the offset lies on the circle of the orbital radius. |
| Motion.StepBody | entities/Planet.java:97-122 | An update applies the rotation rule first, then the orbit rule of the body's kind. It keeps the body's kind and its rotation settings. |
| Motion.StepKeepsOrbitConstants | entities/Planet.java:97-122 | The orbital radius and period never change. |
| Motion.FixedStaysPut | entities/Sphere.java:203-210 | A plain sphere only turns; its position never changes. |
| Motion.OrbitAroundParent | entities/Moon.java:70-87 | An orbiting planet or moon ends at its parent's position plus the offset at its once-advanced angle. It is level with the parent. |
| Motion.ParentlessPlanetOrbitsOrigin | entities/Planet.java:116-121 | A planet with no parent and a nonzero period is placed at its offset, and so orbits the origin at its orbital radius. |
| Motion.StillPlanet | entities/Planet.java:112-121 | With period 0, the angle is kept, the offset is reset to zero, and the planet sits on its parent, or at the origin. |
| Motion.StillMoonSnaps | entities/Moon.java:88-89 | With period 0, a moon keeps its angle and takes exactly its parent's position. |
| Motion.OrphanMoonOnlyTurns | entities/Moon.java:71-90 | A moon without a parent only turns. |
| Motion.ZeroDtPlacesOnOrbit | entities/Planet.java:97-122 | With dt = 0, an orbiting planet or moon with a parent keeps its angle and rotation, but its position is recomputed as the parent's position plus the offset of its angle. |
| Motion.ZeroDtKeepsBodyOnOrbit | entities/Moon.java:68-91 | With dt = 0, a body already on its orbit around its parent is left exactly as it was. |
| Motion.ZeroDtMovesNewPlanet | entities/Planet.java:107-121 | With dt = 0, Mercury as it is built (at the origin, angle 0, radius 2.715) is still moved, to (2.715, 0, 0) around a sun at the origin, given cos 0 = 1 and sin 0 = 0. |
| Motion.RotationIndependentOfOrbit | entities/Planet.java:97-122 | Position and orbit after an update do not depend on the rotation. |
| Entities.Sphere.constructor | entities/Sphere.java:37-53 | Rotation starts at (0, 0, 0) and scale at 1. A missing colour becomes (0.5, 0.5, 0.5). Self-rotation is on iff the period is not 0. The mesh is the one `createMesh` builds. |
| Entities.Sphere.SetPosition | entities/Sphere.java:157-159 | The position is replaced; nothing else changes. |
| Entities.Sphere.Rotate | entities/Sphere.java:188-192 | The three increments are added to the rotation, and the position is kept. |
| Entities.Sphere.Update | entities/Sphere.java:203-210 | The rotation becomes `Spin` of the old one, and the position is untouched. |
| Entities.Sphere.Cleanup | entities/Sphere.java:217-221 | The mesh is released once if there is one; the position and rotation are kept. |
| Entities.Planet.constructor | entities/Planet.java:38-53 | The sphere is built first. The stored orbital radius is the parameter + 2, the angle is 0 and the offset is zero. |
| Entities.Planet.Update | entities/Planet.java:97-122 | The new state is `StepBody` of the old state and the parent's position; only the planet and its sphere are written. |
| Entities.Moon.constructor | entities/Moon.java:37-49 | The sphere is at the origin, the orbital radius is stored as given (no + 2), and the angle is 0. |
| Entities.Moon.Update | entities/Moon.java:68-91 | The new state is `StepBody` of the old state and the parent's position; the parent is only read. |
| Entities.CreateMoon | entities/Moon.java:37-56 | The constructor fails iff there is no parent, with the IllegalArgumentException message. In both cases the sphere `built` is new, with the given radius and colour (or the default one) and the mesh `MeshOf` of the two, and that mesh is not released. |
| Entities.CelestialBody.Base | entities/CelestialBody.java:16-63 | The sphere holding a body's position and mesh is one of the body's own objects. |
| Entities.CelestialBody.State | entities/CelestialBody.java:16-63 | A body's state carries its position and rotation, and it is fixed iff the body is a plain sphere. |
| Entities.CelestialBody.Update | entities/CelestialBody.java:24 | `update`, dispatched on the body's kind to `Sphere.update` (entities/Sphere.java:203-210), `Planet.update` (entities/Planet.java:97-122) or `Moon.update` (entities/Moon.java:68-91): `StepBody`, with the mesh untouched. |
| Entities.CelestialBody.Cleanup | entities/Sphere.java:217-221 | `cleanup` releases the body's mesh once, and the body does not move. |
| Scene.UpdateUpTo | core/Window.java:295-297 | Updating the first n bodies leaves the others as they were. |
| Scene.UpdatedOnce | core/Window.java:295-297 | A body, once updated, is not touched again during the pass. |
| Scene.UpdateOfBody | core/Window.java:295-297 | Body k is updated once, from its start-of-frame state, using the parent position left by the bodies before it. |
| Scene.SameFrameParent | core/Window.java:295-297 | With parents first, every body reads its parent's end-of-frame position: there is no lag. |
| Scene.ChildBeforeParentLags | core/Window.java:295-297 | A child listed before its parent reads the parent's start-of-frame position, one frame late. |
| Scene.ChildFollowsParent | core/Window.java:295-297 | Hierarchy propagation: an orbiting child ends the frame at its parent's same-frame position plus its offset, level with the parent. |
| Scene.UpdateUpToKeepsKinds | core/Window.java:295-297 | A pass keeps every body's kind. |
| Scene.FixedBodyStaysPut | core/Window.java:138-144 | The sun never moves over any number of frames, and it turns as far as the run's total time turns it. |
| SolarWindow.DeltaTimeNonNegative | core/Window.java:290-291 | A clock that does not run backwards gives a frame time of at least 0. |
| SolarWindow.DeltaTimeZero | core/Window.java:290-291 | The frame time is 0 iff the clock has not advanced. |
| SolarWindow.DeltaTimeAdds | core/Window.java:290-292 | Consecutive frame times add up to the time between the first and the last reading. |
| SolarWindow.FrameDeltas | core/Window.java:289-292 | A run has one frame time per clock reading. |
| SolarWindow.FrameDeltasTelescope | core/Window.java:289-292 | A run's frame times add up to the time from the first reading to the last. |
| SolarWindow.RunOneMoreFrame | core/Window.java:289-307 | One more clock reading adds one more update pass, of the time since the reading before. |
| SolarWindow.FrameDeltasNonNegative | core/Window.java:289-292 | With a monotone clock, every frame time is at least 0. |
| SolarWindow.InitialSceneOrdered | core/Window.java:138-262 | The initial list has 12 bodies with every parent before its children. The sun is the only fixed body and has no parent. Every moon orbits a planet. |
| SolarWindow.InitialSceneFollows | core/Window.java:138-262 | In the initial scene, every orbiting body ends each frame at its parent's same-frame position plus its offset. |
| SolarWindow.Window.constructor | core/Window.java:62-67 | A new window has no bodies. |
| SolarWindow.Window.Append | core/Window.java:144 | `objects.add` appends the body, and the list invariant is kept. |
| SolarWindow.Window.AddSphere | core/Window.java:138-144 | This appends a new sphere at the origin, with no parent. It is built with the given radius and colour and its mesh is unreleased. |
| SolarWindow.Window.AddPlanet | core/Window.java:146-155 | This appends a new planet at the origin, around an earlier body. It is built with the given radius and colour and its mesh is unreleased. |
| SolarWindow.Window.AddMoon | core/Window.java:179-187 | This appends a new moon around an earlier body, and the parent check passes. It is built with the given radius and colour and its mesh is unreleased. |
| SolarWindow.Window.AddSunAndInnerPlanets | core/Window.java:138-177 | The sun, then Mercury, Venus and Earth around it, with the radii and colours of `init`. |
| SolarWindow.Window.AddMarsAndMoons | core/Window.java:179-218 | The Moon around Earth, Mars around the sun, then Phobos and Deimos around Mars, with the radii and colours of `init`. |
| SolarWindow.Window.AddGiantPlanets | core/Window.java:220-262 | Jupiter, Saturn, Uranus and Neptune around the sun, with the radii and colours of `init`. |
| SolarWindow.Window.Init | core/Window.java:138-264 | `init` leaves exactly the 12 bodies of the initial scene with their parent links, and reads the clock once. Body k has radius and colour `INITIAL_SHAPES[k]` and the mesh `MeshOf` of the two, not yet released. All bodies' objects are new. |
| SolarWindow.Window.UpdatePass | core/Window.java:295-297 | Updating every body in list order produces `StepScene` of the old scene. The list, its invariant and every mesh's release count are kept. |
| SolarWindow.Window.UpdateBody | core/Window.java:296 | `body.update` changes body k, by `StepBody` with its parent's current position, and no other body. No mesh is released. |
| SolarWindow.Window.UpdateReadsParent | core/Window.java:296 | The parent position a body reads is the one its parent has in the current scene state. |
| SolarWindow.Window.RenderPass | core/Window.java:299-302 | One draw per body, in list order, at the body's updated position and rotation, with all 6912 indices. The render pass changes nothing. |
| SolarWindow.Window.Frame | core/Window.java:289-302 | deltaTime = (now − last)/1000 and last := now. Then every body is updated (`StepScene`) before any is drawn, and each draw uses the updated state. No mesh is released. |
| SolarWindow.Window.Loop | core/Window.java:286-307 | A run of frames at clock readings `times` produces `RunFrames` of the start scene over those frame times. No mesh is released. |
| SolarWindow.Window.Cleanup | core/Window.java:316-319 | Every body's mesh is released exactly once more. No body moves, and the list and its parent links are kept. |
| SolarWindow.Window.Run | core/Window.java:74-83 | `run`: `init`, the loop, then `cleanup`. The scene ends at `RunFrames` of the initial scene over the run's frame times. Body k keeps its radius, colour and mesh from `INITIAL_SHAPES[k]`, and its mesh has been released exactly once. |

## Left out

- GLFW windowing, the callbacks, and mouse and keyboard input are outside the model: `Camera`, `Renderer` and `Shader`, and the GL buffer upload in `rendering/Mesh.java`. They are I/O and foreign library calls. A draw is described by the values it uses (`DrawCall`).
- `Sphere.getModelMatrix` (a JOML matrix product) is not modelled; a draw records the position, rotation and scale that would feed it.
- **Floating point.** All values are reals, so Java's `float` rounding and the `(float)` casts of π, cos and sin are not modelled.
- **Trigonometry.** `Math.cos` and `Math.sin` are arbitrary functions (`Trig`), and `Math.PI` is its decimal value.
- **The clock.** `System.currentTimeMillis` becomes the parameter `now` of `Frame` and `Init`, and the sequence `times` of `Loop`. `glfwWindowShouldClose` becomes the length of `times`.
- **`long` overflow.** The overflow of `currentTime - lastFrameTime` is not modelled.
- **GPU release.** Releasing a GPU mesh is a counter, `meshReleases`. GL resource semantics, such as a double delete in `Mesh.cleanup`, are outside the model.
- **Planet overload.** The six-argument `Planet` constructor is not modelled separately; it is the seven-argument one with no parent.
- **Outside the core.** Neither `Main.java` nor the `planets` list of `Window` (which `init` never fills) is part of this model.
- **Helper splits.**
  - `createMesh` is split into one method per loop level (`FillVertices`, `FillStackLine`, `WriteVertex`, `FillIndices`, `FillStack`, `EmitSector`). The stacks/sectors locals are the constants `STACKS` and `SECTORS`.
  - `init` is split into three methods of four bodies each.
  - The loop body of the update pass is `UpdateBody`.
- **Window.Append:** the Java list is appended without checks. The model adds preconditions: the body's parent is an earlier body of the list, and the body shares no object with the list. `init` meets them.
- **Entities.Moon.constructor:** it models only the part of the Java constructor before the null check. The throwing constructor as a whole is `CreateMoon`.
- **SolarWindow.Window.Init:** it requires an empty list, as `init` is only ever called once on a new window.
- **SolarWindow.Window.Loop:** its `frames` result is stated only as one draw per body per frame. Each frame's draws are described in full by `Frame`.
- **SolarWindow.Window.Run:** its `frames` result is stated only as one draw per body per clock reading, as for `Loop`.
- `Sphere.getMesh` and `getPosition` are plain field reads (`GetMesh`, `GetPosition`); they have no contract of their own.
- `Mesh.VertexCount`, `Motion.SpinBody` and `Sphere.StateWith` are helpers with no contract of their own. What they compute is stated by `MeshOf` and `PaddingTrianglesDegenerate`, by `StepBody` and `FixedStaysPut`, and by `CelestialBody.State` and `Sphere.Update`.
- **Vector aliasing.** The model treats `Vector3f` as a value. In the Java, nobody shares a vector that is mutated: `Window` passes fresh vectors, and `Planet` and `Moon` copy the parent's position before adding to it.

## Notes

- **Index count.** The index array is allocated with STACKS·SECTORS·6 = 6912 entries (entities/Sphere.java:61). The loops skip the top triangle of every sector in the first stack and the bottom triangle of every sector in the last stack, so they write 6624 of those entries. The draw count is the array's whole length (rendering/Mesh.java:34), so the 288 zero entries at the end are drawn as 96 degenerate (0, 0, 0) triangles (`MeshOf`, `PaddingTrianglesDegenerate`).
- **Parentless planet.** The doc comment at `entities/Planet.java:88-92` says a planet without a parent does not orbit. The code places it at origin + offset, so it orbits the origin (`Motion.ParentlessPlanetOrbitsOrigin`). The model follows the code.
- **Moon construction.** A `Moon` builds its sphere and mesh before it checks the parent; `CreateMoon` does the same.
- **Angle wrap.** The orbital angle is wrapped by a single conditional subtraction. Two cases leave the range [0, 2π) (`NegativePeriodLeavesRange`, `LargeStepLeavesRange`): a negative period whose step is larger than the angle, and a step that carries the angle to 4π or beyond. A step of exactly 2π brings the angle back to itself (`FullTurnStepReturns`).
- **Zero frame time.** A frame time of 0 changes nothing only for a plain sphere (`SpinZeroDt`, `FixedStaysPut`). A planet or moon recomputes its position on every update (entities/Planet.java:107-121, entities/Moon.java:78-87). So dt = 0 leaves it in place only if it is already on its orbit (`ZeroDtKeepsBodyOnOrbit`). A body as `init` builds it is at the origin, and its first update moves it onto its orbit even with dt = 0 (`ZeroDtMovesNewPlanet`). The model follows the code.
