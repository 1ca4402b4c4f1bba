/**
 * The UV-sphere geometry every body draws (`Sphere.createMesh`) and the
 * `Mesh` record it is handed to. A mesh is 24 stacks (latitude bands) by
 * 48 sectors (meridians); vertex (i, j) sits on stack line i and sector line j,
 * and its six floats are x, y, z, r, g, b.
 *
 * Arithmetic that multiplies a variable by one of the mesh constants is written
 * with the evaluated numeral (49 = SECTORS + 1, 294 = 6 (SECTORS + 1),
 * 288 = 6 SECTORS, 144 = 3 SECTORS); lemma Sizes ties the numerals to the
 * constants.
 */
module SphereMesh {
  import opened Vectors

  const STACKS: nat := 24
  const SECTORS: nat := 48

  /** Vertices per mesh, (STACKS + 1) (SECTORS + 1): poles and the seam meridian are duplicated, not shared. */
  const NUM_VERTICES: nat := 1225

  /** Length of the vertex array, NUM_VERTICES times six: three position floats and three colour floats per vertex. */
  const VERTEX_FLOATS: nat := 7350

  /** Length the index array is allocated with, STACKS SECTORS 6: two triangles for every stack and sector. */
  const NUM_INDICES: nat := 6912

  /** Entries of the index array the loops write, NUM_INDICES less the 6 SECTORS that stay 0. */
  const WRITTEN_INDICES: nat := 6624

  lemma Sizes()
    ensures NUM_VERTICES == (STACKS + 1) * (SECTORS + 1)
    ensures VERTEX_FLOATS == NUM_VERTICES * 6
    ensures NUM_INDICES == STACKS * SECTORS * 6
    ensures WRITTEN_INDICES == NUM_INDICES - 6 * SECTORS == IndexCount(STACKS)
    ensures 49 == SECTORS + 1 && 294 == 6 * (SECTORS + 1) && 288 == 6 * SECTORS && 144 == 3 * SECTORS
  {
  }

  /**
   * The vertex and index data handed to `rendering.Mesh`. The GPU upload is not
   * modelled; what is kept is the data and the draw count.
   */
  datatype Mesh = Mesh(vertices: seq<real>, indices: seq<int>) {
    /** `getVertexCount()`: the number of indices a draw call submits, the whole index array. */
    function VertexCount(): nat
    {
      |indices|
    }
  }

  datatype Vertex = Vertex(position: Vec3, colour: Vec3)

  /** Latitude of stack line i: pi/2 at the north pole (i = 0), -pi/2 at the south pole (i = STACKS). */
  function StackAngle(i: int): real
  {
    PI / 2.0 - (i as real) * (PI / (STACKS as real))
  }

  /** Longitude of sector line j: 0 at j = 0, 2 pi at j = SECTORS. */
  function SectorAngle(j: int): real
  {
    (j as real) * (2.0 * PI / (SECTORS as real))
  }

  /** `Math.max(0, Math.min(1, x))`. */
  function Clamp01(x: real): (r: real)
    ensures 0.0 <= r <= 1.0
    ensures 0.0 <= x <= 1.0 ==> r == x
    ensures x < 0.0 ==> r == 0.0
    ensures 1.0 < x ==> r == 1.0
  {
    var m := if 1.0 <= x then 1.0 else x;
    if 0.0 >= m then 0.0 else m
  }

  /** One colour channel: the base channel scaled by 0.8 + 0.2 (wave + 1) / 2, then clamped. */
  function Shade(base: real, wave: real): real
  {
    Clamp01(base * (0.8 + 0.2 * (wave + 1.0) / 2.0))
  }

  /**
   * Vertex (i, j) of a sphere of the given radius and base colour: the
   * spherical-to-Cartesian point of stack angle s and sector angle t, and a
   * colour whose channels are each clamped into [0, 1].
   */
  function VertexAt(radius: real, baseColor: Vec3, trig: Trig, i: int, j: int): (v: Vertex)
    ensures v.position.x == radius * trig.cos(StackAngle(i)) * trig.cos(SectorAngle(j))
    ensures v.position.y == radius * trig.cos(StackAngle(i)) * trig.sin(SectorAngle(j))
    ensures v.position.z == radius * trig.sin(StackAngle(i))
    ensures 0.0 <= v.colour.x <= 1.0 && 0.0 <= v.colour.y <= 1.0 && 0.0 <= v.colour.z <= 1.0
  {
    var stackAngle := StackAngle(i);
    var sectorAngle := SectorAngle(j);
    var xy := radius * trig.cos(stackAngle);
    Vertex(
      Vec3(xy * trig.cos(sectorAngle), xy * trig.sin(sectorAngle), radius * trig.sin(stackAngle)),
      Vec3(Shade(baseColor.x, trig.cos(stackAngle)),
           Shade(baseColor.y, trig.cos(sectorAngle)),
           Shade(baseColor.z, trig.sin(stackAngle * 2.0))))
  }

  /** The six floats of a vertex, in slot order. */
  function Floats(v: Vertex): seq<real>
  {
    [v.position.x, v.position.y, v.position.z, v.colour.x, v.colour.y, v.colour.z]
  }

  /** The floats of vertices (i, 0) .. (i, m - 1). */
  function RowFloats(radius: real, baseColor: Vec3, trig: Trig, i: int, m: nat): (r: seq<real>)
    ensures |r| == 6 * m
  {
    if m == 0 then [] else RowFloats(radius, baseColor, trig, i, m - 1) + Floats(VertexAt(radius, baseColor, trig, i, m - 1))
  }

  /** The floats of stack lines 0 .. n - 1, each a whole row of SECTORS + 1 vertices. */
  function GridFloats(radius: real, baseColor: Vec3, trig: Trig, n: nat): (r: seq<real>)
    ensures |r| == 294 * n
  {
    if n == 0 then [] else GridFloats(radius, baseColor, trig, n - 1) + RowFloats(radius, baseColor, trig, n - 1, SECTORS + 1)
  }

  /** The whole vertex array, row-major over stack lines then sector lines. */
  function VertexData(radius: real, baseColor: Vec3, trig: Trig): seq<real>
  {
    GridFloats(radius, baseColor, trig, STACKS + 1)
  }

  /** Indices emitted per sector of stack i: the top triangle unless i is the first stack, the bottom one unless it is the last. */
  function TrianglesPerSector(i: int): nat
  {
    (if i != 0 then 3 else 0) + (if i != STACKS - 1 then 3 else 0)
  }

  /**
   * The indices emitted for stack i, sector j, where k1 = i (SECTORS + 1) + j
   * starts the current stack row and k2 = k1 + SECTORS + 1 the next one.
   */
  function Triangles(i: int, j: int): (r: seq<int>)
    ensures |r| == TrianglesPerSector(i)
  {
    var k1 := 49 * i + j;
    var k2 := k1 + SECTORS + 1;
    (if i != 0 then [k1, k2, k1 + 1] else []) + (if i != STACKS - 1 then [k1 + 1, k2, k2 + 1] else [])
  }

  /** Number of indices sectors 0 .. m - 1 of stack i emit, m times TrianglesPerSector(i). */
  function RowIndexCount(i: int, m: nat): nat
  {
    (if i != 0 then 3 * m else 0) + (if i != STACKS - 1 then 3 * m else 0)
  }

  /**
   * The indices emitted for sectors 0 .. m - 1 of stack i: entry t belongs to
   * sector t / w, where w = TrianglesPerSector(i) is 6 for an inner stack and
   * 3 for the first and the last.
   */
  function RowIndices(i: int, m: nat): (r: seq<int>)
    ensures |r| == RowIndexCount(i, m)
  {
    seq(RowIndexCount(i, m), t requires 0 <= t < RowIndexCount(i, m) =>
      if i != 0 && i != STACKS - 1 then Triangles(i, t / 6)[t % 6] else Triangles(i, t / 3)[t % 3])
  }

  /**
   * Number of indices stacks 0 .. n - 1 emit, 6 SECTORS n less 3 SECTORS for
   * the first stack and 3 SECTORS for the last one.
   */
  function IndexCount(n: nat): int
  {
    288 * n - (if n >= 1 then 144 else 0) - (if n >= STACKS then 144 else 0)
  }

  /**
   * The stack whose indices hold entry t of the emitted index array: the first
   * stack emits 144 entries, every later one 288 (the last stack's 144 entries
   * fall into the same formula).
   */
  function StackOf(t: int): (i: nat)
    requires 0 <= t < WRITTEN_INDICES
    ensures i < STACKS && IndexCount(i) <= t < IndexCount(i + 1)
  {
    if t < 144 then 0 else 1 + (t - 144) / 288
  }

  /**
   * The indices emitted for stacks 0 .. n - 1, in emission order: entry t is
   * entry t - IndexCount(i) of the row of stack i = StackOf(t).
   */
  function IndicesUpTo(n: nat): (r: seq<int>)
    requires n <= STACKS
    ensures |r| == IndexCount(n)
  {
    IndexCountMonotone(n, STACKS);
    seq(IndexCount(n), t requires 0 <= t < IndexCount(n) =>
      var i := StackOf(t);
      IndexBudget(i, 0);
      RowIndices(i, SECTORS)[t - IndexCount(i)])
  }

  /**
   * The mesh of a sphere. Every vertex slot is written; the index array keeps
   * its allocated length NUM_INDICES, the last 6 SECTORS entries are never
   * written and keep Java's default 0, and the draw count is the whole array.
   */
  function MeshOf(radius: real, baseColor: Vec3, trig: Trig): (m: Mesh)
    ensures |m.vertices| == VERTEX_FLOATS
    ensures |m.indices| == NUM_INDICES && m.VertexCount() == NUM_INDICES
    ensures m.indices[..WRITTEN_INDICES] == IndicesUpTo(STACKS)
    ensures m.indices[WRITTEN_INDICES..] == Zeros(NUM_INDICES - WRITTEN_INDICES)
  {
    var written := IndicesUpTo(STACKS);
    AppendSlices(written, Zeros(288));
    Mesh(VertexData(radius, baseColor, trig), written + Zeros(288))
  }

  /** n entries 0, Java's default for an `int[]` entry never written. */
  function Zeros(n: nat): (r: seq<int>)
    ensures |r| == n && forall k :: 0 <= k < n ==> r[k] == 0
  {
    seq(n, _ => 0)
  }

  lemma AppendSlices<T>(a: seq<T>, b: seq<T>)
    ensures (a + b)[..|a|] == a && (a + b)[|a|..] == b
  {
  }

  /** Sector m of stack i emits its triangles right after sectors 0 .. m - 1. */
  lemma RowIndicesStep(i: int, m: nat)
    ensures RowIndices(i, m + 1) == RowIndices(i, m) + Triangles(i, m)
  {
    var before, here, after := RowIndices(i, m), Triangles(i, m), RowIndices(i, m + 1);
    forall t | 0 <= t < |after|
      ensures after[t] == (before + here)[t]
    {
      if t >= |before| {
        if i != 0 && i != STACKS - 1 {
          SectorOf(t, 6, m);
        } else {
          SectorOf(t, 3, m);
        }
      }
    }
  }

  lemma SectorOf(t: int, w: int, m: int)
    requires w == 3 || w == 6
    requires w * m <= t < w * m + w
    ensures t / w == m && t % w == t - w * m
  {
  }

  /** More stacks emit more indices. */
  lemma IndexCountMonotone(n: nat, m: nat)
    requires n <= m
    ensures IndexCount(n) <= IndexCount(m)
    ensures n < m ==> IndexCount(n) < IndexCount(m)
  {
  }

  /** Entry t of the index array belongs to stack n whenever it lies in stack n's range. */
  lemma StackOfIn(t: int, n: nat)
    requires n < STACKS && IndexCount(n) <= t < IndexCount(n + 1)
    ensures 0 <= t < WRITTEN_INDICES && StackOf(t) == n
  {
    IndexCountMonotone(n + 1, STACKS);
    var i := StackOf(t);
    if i < n {
      IndexCountMonotone(i + 1, n);
    } else if i > n {
      IndexCountMonotone(n + 1, i);
    }
  }

  /** Stack n emits its indices right after stacks 0 .. n - 1. */
  lemma IndicesUpToStep(n: nat)
    requires n < STACKS
    ensures IndicesUpTo(n + 1) == IndicesUpTo(n) + RowIndices(n, SECTORS)
  {
    var before, here, after := IndicesUpTo(n), RowIndices(n, SECTORS), IndicesUpTo(n + 1);
    IndexBudget(n, 0);
    forall t | 0 <= t < |after|
      ensures after[t] == (before + here)[t]
    {
      if t >= |before| {
        StackOfIn(t, n);
      }
    }
  }

  /** A sequence whose entries from n on are all 0 is its first n entries padded with zeros. */
  lemma ZeroPadded(a: seq<int>, n: nat)
    requires n <= |a|
    requires forall t :: n <= t < |a| ==> a[t] == 0
    ensures a == a[..n] + Zeros(|a| - n)
  {
    assert a[n..] == Zeros(|a| - n);
    AppendSlices(a[..n], a[n..]);
    assert a == a[..n] + a[n..];
  }

  /** Sectors 0 .. j of stack i stay within the index budget of stacks 0 .. i. */
  lemma IndexBudget(i: nat, j: nat)
    requires i < STACKS && j < SECTORS
    ensures IndexCount(i) + RowIndexCount(i, j + 1) <= IndexCount(i + 1)
    ensures IndexCount(i) + RowIndexCount(i, SECTORS) == IndexCount(i + 1)
    ensures IndexCount(i + 1) <= IndexCount(STACKS)
  {
  }

  // ---------------------------------------------------------------------
  // createMesh
  // ---------------------------------------------------------------------

  /** The six writes of the inner vertex loop: position, then colour, at the running cursor. */
  method WriteVertex(vertices: array<real>, vertexIndex: nat, v: Vertex) returns (next: nat)
    requires vertexIndex + 6 <= vertices.Length
    modifies vertices
    ensures next == vertexIndex + 6
    ensures vertices[..next] == old(vertices[..vertexIndex]) + Floats(v)
  {
    next := vertexIndex;
    vertices[next] := v.position.x;
    next := next + 1;
    vertices[next] := v.position.y;
    next := next + 1;
    vertices[next] := v.position.z;
    next := next + 1;
    vertices[next] := v.colour.x;
    next := next + 1;
    vertices[next] := v.colour.y;
    next := next + 1;
    vertices[next] := v.colour.z;
    next := next + 1;
  }

  /** The inner vertex loop of `createMesh`: the SECTORS + 1 vertices of stack line i at the running cursor. */
  method FillStackLine(vertices: array<real>, radius: real, baseColor: Vec3, trig: Trig, i: nat, vertexIndex: nat) returns (next: nat)
    requires vertices.Length == VERTEX_FLOATS && i <= STACKS
    requires vertexIndex == 294 * i
    modifies vertices
    ensures next == vertexIndex + 294
    ensures vertices[..next] == old(vertices[..vertexIndex]) + RowFloats(radius, baseColor, trig, i, SECTORS + 1)
  {
    var sectors := 48;
    next := vertexIndex;
    for j := 0 to sectors + 1
      invariant next == vertexIndex + 6 * j
      invariant vertices[..next] == old(vertices[..vertexIndex]) + RowFloats(radius, baseColor, trig, i, j)
    {
      var v := VertexAt(radius, baseColor, trig, i, j);
      next := WriteVertex(vertices, next, v);
    }
  }

  /** The vertex loops of `createMesh`: stack line by stack line from the north pole; the cursor ends at the array's end. */
  method FillVertices(vertices: array<real>, radius: real, baseColor: Vec3, trig: Trig) returns (vertexIndex: nat)
    requires vertices.Length == VERTEX_FLOATS
    modifies vertices
    ensures vertexIndex == vertices.Length
    ensures vertices[..] == VertexData(radius, baseColor, trig)
  {
    var stacks := 24;
    vertexIndex := 0;
    for i := 0 to stacks + 1
      invariant vertexIndex == 294 * i
      invariant vertices[..vertexIndex] == GridFloats(radius, baseColor, trig, i)
    {
      vertexIndex := FillStackLine(vertices, radius, baseColor, trig, i, vertexIndex);
    }
    assert vertices[..] == vertices[..vertexIndex];
  }

  /** The body of the inner index loop: the triangles of stack i, sector j at the running cursor. */
  method EmitSector(indices: array<int>, i: nat, j: nat, k1: int, k2: int, indexIndex: nat) returns (next: nat)
    requires i < STACKS && j < SECTORS
    requires k1 == 49 * i + j && k2 == k1 + SECTORS + 1
    requires indexIndex + TrianglesPerSector(i) <= indices.Length
    modifies indices
    ensures next == indexIndex + TrianglesPerSector(i)
    ensures indices[..next] == old(indices[..indexIndex]) + Triangles(i, j)
    ensures forall t :: next <= t < indices.Length ==> indices[t] == old(indices[t])
  {
    var stacks := 24;
    next := indexIndex;
    if i != 0 {
      indices[next] := k1;
      next := next + 1;
      indices[next] := k2;
      next := next + 1;
      indices[next] := k1 + 1;
      next := next + 1;
    }
    if i != stacks - 1 {
      indices[next] := k1 + 1;
      next := next + 1;
      indices[next] := k2;
      next := next + 1;
      indices[next] := k2 + 1;
      next := next + 1;
    }
  }

  /** The inner index loop of `createMesh`: the sectors of stack i, with k1 and k2 advancing with the sector. */
  method FillStack(indices: array<int>, i: nat, indexIndex: nat) returns (next: nat)
    requires indices.Length == NUM_INDICES && i < STACKS
    requires indexIndex == IndexCount(i)
    modifies indices
    ensures next == IndexCount(i + 1)
    ensures indices[..next] == old(indices[..indexIndex]) + RowIndices(i, SECTORS)
    ensures forall t :: next <= t < indices.Length ==> indices[t] == old(indices[t])
  {
    var sectors := 48;
    var k1 := i * (sectors + 1);
    var k2 := k1 + sectors + 1;
    next := indexIndex;
    var j := 0;
    while j < sectors
      invariant 0 <= j <= sectors
      invariant k1 == 49 * i + j && k2 == k1 + 49
      invariant next == indexIndex + RowIndexCount(i, j)
      invariant indices[..next] == old(indices[..indexIndex]) + RowIndices(i, j)
      invariant forall t :: next <= t < indices.Length ==> indices[t] == old(indices[t])
    {
      IndexBudget(i, j);
      next := EmitSector(indices, i, j, k1, k2, next);
      RowIndicesStep(i, j);
      AppendAssociative(old(indices[..indexIndex]), RowIndices(i, j), Triangles(i, j));
      j, k1, k2 := j + 1, k1 + 1, k2 + 1;
    }
    IndexBudget(i, 0);
  }

  /** The index loops of `createMesh`. The array is freshly allocated, so it is all zeros; the entries past the cursor stay zero. */
  method FillIndices(indices: array<int>) returns (indexIndex: nat)
    requires indices.Length == NUM_INDICES
    requires forall t :: 0 <= t < indices.Length ==> indices[t] == 0
    modifies indices
    ensures indexIndex == WRITTEN_INDICES
    ensures indices[..indexIndex] == IndicesUpTo(STACKS)
    ensures forall t :: indexIndex <= t < indices.Length ==> indices[t] == 0
  {
    var stacks := 24;
    indexIndex := 0;
    for i := 0 to stacks
      invariant indexIndex == IndexCount(i)
      invariant indices[..indexIndex] == IndicesUpTo(i)
      invariant forall t :: indexIndex <= t < indices.Length ==> indices[t] == 0
    {
      indexIndex := FillStack(indices, i, indexIndex);
      IndicesUpToStep(i);
    }
    Sizes();
  }

  /**
   * `createMesh`: allocates the vertex array for NUM_VERTICES vertices of six
   * floats and the index array with NUM_INDICES entries, all 0, then fills the
   * first and then the second.
   */
  method CreateMesh(radius: real, baseColor: Vec3, trig: Trig) returns (mesh: Mesh)
    ensures mesh == MeshOf(radius, baseColor, trig)
  {
    var stacks := 24;
    var sectors := 48;
    var numVertices := (stacks + 1) * (sectors + 1);
    var numIndices := stacks * sectors * 6;
    var vertices := new real[numVertices * 6](_ => 0.0);
    var indices := new int[numIndices](_ => 0);
    var vertexIndex := FillVertices(vertices, radius, baseColor, trig);
    var indexIndex := FillIndices(indices);
    mesh := Mesh(vertices[..], indices[..]);
    FilledMesh(radius, baseColor, trig, mesh);
  }

  /** A mesh whose vertex array holds every vertex and whose index array holds the emitted indices, then zeros, is the sphere's mesh. */
  lemma FilledMesh(radius: real, baseColor: Vec3, trig: Trig, mesh: Mesh)
    requires mesh.vertices == VertexData(radius, baseColor, trig)
    requires |mesh.indices| == NUM_INDICES && mesh.indices[..WRITTEN_INDICES] == IndicesUpTo(STACKS)
    requires forall t :: WRITTEN_INDICES <= t < |mesh.indices| ==> mesh.indices[t] == 0
    ensures mesh == MeshOf(radius, baseColor, trig)
  {
    ZeroPadded(mesh.indices, WRITTEN_INDICES);
  }

  // ---------------------------------------------------------------------
  // Properties of the mesh every sphere draws
  // ---------------------------------------------------------------------

  /** Stack lines 0 .. n - 1 are a prefix of stack lines 0 .. m - 1. */
  lemma {:induction false} GridPrefix(radius: real, baseColor: Vec3, trig: Trig, n: nat, m: nat)
    requires n <= m
    ensures GridFloats(radius, baseColor, trig, m)[..294 * n] == GridFloats(radius, baseColor, trig, n)
    decreases m
  {
    if n < m {
      GridPrefix(radius, baseColor, trig, n, m - 1);
      var g := GridFloats(radius, baseColor, trig, m - 1);
      AppendSlices(g, RowFloats(radius, baseColor, trig, m - 1, SECTORS + 1));
      assert GridFloats(radius, baseColor, trig, m)[..|g|] == g;
    }
  }

  /** Sectors 0 .. n - 1 of a stack line are a prefix of sectors 0 .. m - 1. */
  lemma {:induction false} RowPrefix(radius: real, baseColor: Vec3, trig: Trig, i: int, n: nat, m: nat)
    requires n <= m
    ensures RowFloats(radius, baseColor, trig, i, m)[..6 * n] == RowFloats(radius, baseColor, trig, i, n)
    decreases m
  {
    if n < m {
      RowPrefix(radius, baseColor, trig, i, n, m - 1);
      var r := RowFloats(radius, baseColor, trig, i, m - 1);
      AppendSlices(r, Floats(VertexAt(radius, baseColor, trig, i, m - 1)));
    }
  }

  /** Stack line i occupies the 6 (SECTORS + 1) slots from 6 (SECTORS + 1) i on. */
  lemma StackLineLayout(radius: real, baseColor: Vec3, trig: Trig, i: nat)
    requires i <= STACKS
    ensures 294 * (i + 1) <= |VertexData(radius, baseColor, trig)|
    ensures VertexData(radius, baseColor, trig)[294 * i..294 * (i + 1)] == RowFloats(radius, baseColor, trig, i, SECTORS + 1)
  {
    var row := RowFloats(radius, baseColor, trig, i, SECTORS + 1);
    var upTo := GridFloats(radius, baseColor, trig, i);
    GridPrefix(radius, baseColor, trig, i + 1, STACKS + 1);
    AppendSlices(upTo, row);
  }

  /** Sector j of a stack line occupies its six slots from 6 j on. */
  lemma SectorLayout(radius: real, baseColor: Vec3, trig: Trig, i: nat, j: nat)
    requires j <= SECTORS
    ensures RowFloats(radius, baseColor, trig, i, SECTORS + 1)[6 * j..6 * j + 6] == Floats(VertexAt(radius, baseColor, trig, i, j))
  {
    var before := RowFloats(radius, baseColor, trig, i, j);
    RowPrefix(radius, baseColor, trig, i, j + 1, SECTORS + 1);
    AppendSlices(before, Floats(VertexAt(radius, baseColor, trig, i, j)));
  }

  /** A part of a part of a sequence is a part of the sequence. */
  lemma NestedSlice<T>(all: seq<T>, whole: seq<T>, part: seq<T>, lo: nat, lo2: nat)
    requires lo + |whole| <= |all| && all[lo..lo + |whole|] == whole
    requires lo2 + |part| <= |whole| && whole[lo2..lo2 + |part|] == part
    ensures lo + lo2 + |part| <= |all| && all[lo + lo2..lo + lo2 + |part|] == part
  {
    assert forall k :: 0 <= k < |part| ==> part[k] == whole[lo2 + k] == all[lo + lo2 + k];
  }

  /**
   * Vertex (i, j) occupies the six slots from 6 (i (SECTORS + 1) + j) on, in
   * the order x, y, z, r, g, b.
   */
  lemma VertexLayout(radius: real, baseColor: Vec3, trig: Trig, i: nat, j: nat)
    requires i <= STACKS && j <= SECTORS
    ensures 6 * (49 * i + j) + 6 <= |VertexData(radius, baseColor, trig)|
    ensures VertexData(radius, baseColor, trig)[6 * (49 * i + j)..6 * (49 * i + j) + 6] == Floats(VertexAt(radius, baseColor, trig, i, j))
  {
    StackLineLayout(radius, baseColor, trig, i);
    SectorLayout(radius, baseColor, trig, i, j);
    NestedSlice(VertexData(radius, baseColor, trig), RowFloats(radius, baseColor, trig, i, SECTORS + 1),
                Floats(VertexAt(radius, baseColor, trig, i, j)), 294 * i, 6 * j);
  }

  /**
   * The vertex array read back slot by slot: slot 6 (i (SECTORS + 1) + j) + c
   * holds component c of vertex (i, j); the first three of every six are the
   * position of stack angle s and sector angle t, and the last three, the
   * colour channels, are in [0, 1] whatever the base colour.
   */
  lemma VertexSlot(radius: real, baseColor: Vec3, trig: Trig, i: nat, j: nat, c: nat)
    requires i <= STACKS && j <= SECTORS && c < 6
    ensures var s, t := StackAngle(i), SectorAngle(j);
      var data := VertexData(radius, baseColor, trig);
      var k := 6 * (49 * i + j) + c;
      k < |data| &&
      (c == 0 ==> data[k] == radius * trig.cos(s) * trig.cos(t)) &&
      (c == 1 ==> data[k] == radius * trig.cos(s) * trig.sin(t)) &&
      (c == 2 ==> data[k] == radius * trig.sin(s)) &&
      (c >= 3 ==> 0.0 <= data[k] <= 1.0)
  {
    var v := VertexAt(radius, baseColor, trig, i, j);
    VertexLayout(radius, baseColor, trig, i, j);
    SliceEntry(VertexData(radius, baseColor, trig), 6 * (49 * i + j), Floats(v), c);
  }

  lemma SliceEntry<T>(all: seq<T>, lo: nat, part: seq<T>, c: nat)
    requires lo + |part| <= |all| && all[lo..lo + |part|] == part && c < |part|
    ensures all[lo + c] == part[c]
  {
    assert all[lo..lo + |part|][c] == all[lo + c];
  }

  /**
   * Seam: sector lines 0 and SECTORS are the same meridian. When cos and sin
   * agree at 0 and 2 pi, the duplicated vertices are identical, colour included.
   */
  lemma SeamVerticesCoincide(radius: real, baseColor: Vec3, trig: Trig, i: nat)
    requires trig.cos(TWO_PI) == trig.cos(0.0) && trig.sin(TWO_PI) == trig.sin(0.0)
    ensures VertexAt(radius, baseColor, trig, i, SECTORS) == VertexAt(radius, baseColor, trig, i, 0)
  {
    assert SectorAngle(SECTORS) == TWO_PI;
    assert SectorAngle(0) == 0.0;
  }

  /**
   * Stack i, sector j emits the top triangle (k1, k2, k1 + 1) first exactly when
   * i is not the first stack, and ends with the bottom triangle
   * (k1 + 1, k2, k2 + 1) exactly when i is not the last stack; nothing else.
   */
  lemma TrianglesEmitted(i: nat, j: nat)
    requires i < STACKS && j < SECTORS
    ensures var r := Triangles(i, j);
      var k1 := i * (SECTORS + 1) + j;
      var k2 := k1 + SECTORS + 1;
      (|r| == 3 || |r| == 6)
      && ((i != 0) <==> r[..3] == [k1, k2, k1 + 1])
      && ((i != STACKS - 1) <==> r[|r| - 3..] == [k1 + 1, k2, k2 + 1])
  {
    var k1 := 49 * i + j;
    var k2 := k1 + 49;
    var r := Triangles(i, j);
    if i == 0 {
      assert r == [k1 + 1, k2, k2 + 1];
      assert r[..3][0] != k1;
    } else if i == STACKS - 1 {
      assert r == [k1, k2, k1 + 1];
      assert r[|r| - 3..][0] != k1 + 1;
    } else {
      assert r == [k1, k2, k1 + 1, k1 + 1, k2, k2 + 1];
    }
  }

  lemma PrefixOfAppend<T>(a: seq<T>, b: seq<T>, c: seq<T>)
    requires a <= b
    ensures a <= b + c
  {
    assert forall k :: 0 <= k < |a| ==> a[k] == b[k] == (b + c)[k];
  }

  lemma AppendAssociative<T>(a: seq<T>, b: seq<T>, c: seq<T>)
    ensures a + b + c == a + (b + c)
  {
  }

  lemma PrefixTransitive<T>(a: seq<T>, b: seq<T>, c: seq<T>)
    requires a <= b && b <= c
    ensures a <= c
  {
  }

  lemma PrefixUnderAppend<T>(a: seq<T>, b: seq<T>, c: seq<T>)
    requires b <= c
    ensures a + b <= a + c
  {
    assert forall k :: 0 <= k < |a| + |b| ==> (a + b)[k] == (a + c)[k];
  }

  /** Stacks 0 .. n - 1 emit a prefix of what stacks 0 .. m - 1 emit. */
  lemma {:induction false} IndicesPrefix(n: nat, m: nat)
    requires n <= m <= STACKS
    ensures IndicesUpTo(n) <= IndicesUpTo(m)
    decreases m
  {
    if n < m {
      IndicesPrefix(n, m - 1);
      IndicesUpToStep(m - 1);
      PrefixOfAppend(IndicesUpTo(n), IndicesUpTo(m - 1), RowIndices(m - 1, SECTORS));
    }
  }

  /** Sectors 0 .. n - 1 of stack i emit a prefix of what sectors 0 .. m - 1 emit. */
  lemma {:induction false} RowIndicesPrefix(i: int, n: nat, m: nat)
    requires n <= m
    ensures RowIndices(i, n) <= RowIndices(i, m)
    decreases m
  {
    if n < m {
      RowIndicesPrefix(i, n, m - 1);
      RowIndicesStep(i, m - 1);
      PrefixOfAppend(RowIndices(i, n), RowIndices(i, m - 1), Triangles(i, m - 1));
    }
  }

  /**
   * Row-major emission: the triangles of stack i, sector j come right after
   * those of every earlier stack and of every earlier sector of stack i, at
   * offset IndexCount(i) + RowIndexCount(i, j) of the index array.
   */
  lemma TriangleLayout(i: nat, j: nat, n: nat)
    requires i < n <= STACKS && j < SECTORS
    ensures IndicesUpTo(i) + RowIndices(i, j) + Triangles(i, j) <= IndicesUpTo(n)
    ensures IndexCount(i) + RowIndexCount(i, j) + TrianglesPerSector(i) <= |IndicesUpTo(n)|
    ensures IndicesUpTo(n)[IndexCount(i) + RowIndexCount(i, j)..][..TrianglesPerSector(i)] == Triangles(i, j)
  {
    SectorInStack(i, j);
    StackInPrefix(i, n);
    ExtendedPrefix(IndicesUpTo(i), RowIndices(i, j), Triangles(i, j), RowIndices(i, SECTORS), IndicesUpTo(n));
    var before := IndicesUpTo(i) + RowIndices(i, j);
    var off := IndexCount(i) + RowIndexCount(i, j);
    assert |before| == off;
    forall t | 0 <= t < TrianglesPerSector(i)
      ensures IndicesUpTo(n)[off..][..TrianglesPerSector(i)][t] == Triangles(i, j)[t]
    {
      assert IndicesUpTo(n)[off + t] == (before + Triangles(i, j))[off + t];
    }
  }

  lemma SectorInStack(i: nat, j: nat)
    requires j < SECTORS
    ensures RowIndices(i, j) + Triangles(i, j) <= RowIndices(i, SECTORS)
  {
    RowIndicesStep(i, j);
    RowIndicesPrefix(i, j + 1, SECTORS);
  }

  lemma StackInPrefix(i: nat, n: nat)
    requires i < n <= STACKS
    ensures IndicesUpTo(i) + RowIndices(i, SECTORS) <= IndicesUpTo(n)
  {
    IndicesUpToStep(i);
    IndicesPrefix(i + 1, n);
  }

  /** If b + h starts r and u + r starts s, then u + b + h starts s. */
  lemma ExtendedPrefix<T>(u: seq<T>, b: seq<T>, h: seq<T>, r: seq<T>, s: seq<T>)
    requires b + h <= r && u + r <= s
    ensures u + b + h <= s
  {
    PrefixUnderAppend(u, b + h, r);
    AppendAssociative(u, b, h);
  }

  /** The triangles of stack i only use vertices of stack lines i and i + 1. */
  lemma TrianglesInRange(i: nat, j: nat)
    requires i < STACKS && j < SECTORS
    ensures forall x :: x in Triangles(i, j) ==> 49 * i <= x < 49 * (i + 2)
  {
  }

  lemma {:induction false} RowIndicesInRange(i: nat, m: nat)
    requires i < STACKS && m <= SECTORS
    ensures forall x :: x in RowIndices(i, m) ==> 0 <= x < NUM_VERTICES
  {
    if m > 0 {
      RowIndicesInRange(i, m - 1);
      TrianglesInRange(i, m - 1);
    }
  }

  lemma {:induction false} IndicesUpToInRange(n: nat)
    requires n <= STACKS
    ensures forall x :: x in IndicesUpTo(n) ==> 0 <= x < NUM_VERTICES
  {
    if n > 0 {
      IndicesUpToInRange(n - 1);
      RowIndicesInRange(n - 1, SECTORS);
      IndicesUpToStep(n - 1);
    }
  }

  /** A sequence whose first n entries are below a bound and whose other entries are zeros is below the bound throughout. */
  lemma PaddedBounded(a: seq<int>, n: nat, bound: int)
    requires n <= |a| && 0 < bound
    requires forall x :: x in a[..n] ==> 0 <= x < bound
    requires a[n..] == Zeros(|a| - n)
    ensures forall k :: 0 <= k < |a| ==> 0 <= a[k] < bound
  {
    forall k | 0 <= k < |a|
      ensures 0 <= a[k] < bound
    {
      if k < n {
        assert a[..n][k] in a[..n];
      } else {
        assert a[n..][k - n] == a[k];
      }
    }
  }

  /** Every index of a sphere mesh, written or padding, names one of its NUM_VERTICES vertices. */
  lemma IndicesInRange(radius: real, baseColor: Vec3, trig: Trig)
    ensures var m := MeshOf(radius, baseColor, trig);
      forall k :: 0 <= k < |m.indices| ==> 0 <= m.indices[k] < NUM_VERTICES && m.indices[k] < |m.vertices| / 6
  {
    var m := MeshOf(radius, baseColor, trig);
    IndicesUpToInRange(STACKS);
    PaddedBounded(m.indices, WRITTEN_INDICES, NUM_VERTICES);
  }

  /** Past entry n, where n is a multiple of 3, every triple of a zero-padded sequence is (0, 0, 0). */
  lemma PaddedTriangles(a: seq<int>, n: nat)
    requires n <= |a| && a[n..] == Zeros(|a| - n)
    ensures forall q :: n <= 3 * q && 3 * q + 2 < |a| ==> a[3 * q] == 0 && a[3 * q + 1] == 0 && a[3 * q + 2] == 0
  {
    forall t | n <= t < |a|
      ensures a[t] == 0
    {
      assert a[n..][t - n] == a[t];
    }
  }

  /**
   * The over-allocated tail: the draw count is the whole index array, so its
   * last 2 SECTORS triangles are drawn, and each of them is (0, 0, 0).
   */
  lemma PaddingTrianglesDegenerate(radius: real, baseColor: Vec3, trig: Trig)
    ensures var m := MeshOf(radius, baseColor, trig);
      m.VertexCount() - WRITTEN_INDICES == 3 * (2 * SECTORS) &&
      forall q :: WRITTEN_INDICES <= 3 * q && 3 * q + 2 < m.VertexCount() ==>
        m.indices[3 * q] == 0 && m.indices[3 * q + 1] == 0 && m.indices[3 * q + 2] == 0
  {
    var m := MeshOf(radius, baseColor, trig);
    PaddedTriangles(m.indices, WRITTEN_INDICES);
  }
}
