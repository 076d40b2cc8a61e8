/**
 * The model frame the plugin publishes and the mesh data Unity is given for it.
 *
 * A frame is a flat array of ints, 20 per quad: the X, Y and Z coordinates of
 * the quad's four corners, then the U and V texture coordinates of the same
 * four corners. Coordinates and texture coordinates are kept as the raw
 * integers the plugin sends; the division by 1000 and by the texture size
 * that turns them into floats is not modelled.
 *
 * Unity limits the number of vertices in one mesh, so the vertices are split
 * into sub-meshes of at most 64000 vertices, and every quad is drawn as four
 * triangles: two for its front and the same two with reversed winding for
 * its back.
 */
module MeshLayout {

  /**
   * The arithmetic below writes the layout's numbers as literals: 20 ints
   * per quad (4 * 3 coordinates, then 4 * 2 texture coordinates), 12
   * triangle indices per quad, and 64000 vertices or 16000 quads per
   * sub-mesh.
   */
  const VerticesPerQuad: nat := 4
  const MaxVerticesPerSubSphere: nat := 64000
  const MaxSphereSubObjects: nat := 12
  const MaxInt32: int := 0x7fff_ffff

  datatype Vec3 = Vec3(x: int, y: int, z: int)
  datatype Vec2 = Vec2(u: int, v: int)

  /** What a sub-mesh holds once Update has filled it; a cleared mesh holds nothing. */
  datatype SubMesh = SubMesh(vertices: seq<Vec3>, uv: seq<Vec2>, triangles: seq<int>)

  const ClearedMesh: SubMesh := SubMesh([], [], [])

  function Min(a: int, b: int): int { if a < b then a else b }

  // ---------------------------------------------------------------------------
  // Splitting the vertices into sub-meshes
  // ---------------------------------------------------------------------------

  /** The number of sub-meshes used for a frame: 4 * quadCount / 64000, rounded up. */
  function SubMeshCount(quadCount: nat): (n: nat)
    ensures 64000 * n >= 4 * quadCount
    ensures n > 0 ==> 64000 * (n - 1) < 4 * quadCount
  {
    (4 * quadCount + 63999) / 64000
  }

  /** The number of quads in sub-mesh s: a full 16000, or what is left for the last one. */
  function SubMeshQuads(quadCount: nat, s: nat): nat
    requires s < SubMeshCount(quadCount)
  {
    Min(16000, quadCount - 16000 * s)
  }

  /** The number of vertices in sub-mesh s. */
  function SubMeshSize(quadCount: nat, s: nat): nat
    requires s < SubMeshCount(quadCount)
  {
    4 * SubMeshQuads(quadCount, s)
  }

  lemma SubMeshSizeBounds(quadCount: nat, s: nat)
    requires s < SubMeshCount(quadCount)
    ensures SubMeshSize(quadCount, s) == Min(MaxVerticesPerSubSphere, 4 * quadCount - 64000 * s)
    ensures 0 < SubMeshSize(quadCount, s) <= MaxVerticesPerSubSphere
    ensures s + 1 < SubMeshCount(quadCount) ==> SubMeshSize(quadCount, s) == MaxVerticesPerSubSphere
  {
  }

  /** An empty frame uses no sub-mesh, and every one of the twelve is left cleared. */
  lemma NoQuadsNoSubMeshes(data: seq<int>)
    ensures SubMeshCount(0) == 0
    ensures forall s :: 0 <= s < MaxSphereSubObjects ==> FrameMeshes(data, 0)[s] == ClearedMesh
  {
  }

  /** The total number of vertices in the first n sub-meshes. */
  function SizesUpTo(quadCount: nat, n: nat): nat
    requires n <= SubMeshCount(quadCount)
  {
    if n == 0 then 0 else SizesUpTo(quadCount, n - 1) + SubMeshSize(quadCount, n - 1)
  }

  lemma {:induction false} SizesUpToIsPrefix(quadCount: nat, n: nat)
    requires n <= SubMeshCount(quadCount)
    ensures SizesUpTo(quadCount, n) == Min(64000 * n, 4 * quadCount)
  {
    if n > 0 {
      SizesUpToIsPrefix(quadCount, n - 1);
    }
  }

  /** The sub-meshes hold every vertex of the frame, and none twice. */
  lemma SubMeshSizesSum(quadCount: nat)
    ensures SizesUpTo(quadCount, SubMeshCount(quadCount)) == 4 * quadCount
  {
    SizesUpToIsPrefix(quadCount, SubMeshCount(quadCount));
  }

  // ---------------------------------------------------------------------------
  // Where each vertex and texture coordinate comes from
  // ---------------------------------------------------------------------------

  /** Corner k of quad q: the three ints at 20q + 3k, read left to right. */
  function VertexAt(data: seq<int>, q: nat, k: nat): Vec3
    requires k < VerticesPerQuad && 20 * (q + 1) <= |data|
  {
    var p := 20 * q + 3 * k;
    Vec3(data[p], data[p + 1], data[p + 2])
  }

  /** The texture coordinate of corner k of quad q: the two ints at 20q + 12 + 2k. */
  function UvAt(data: seq<int>, q: nat, k: nat): Vec2
    requires k < VerticesPerQuad && 20 * (q + 1) <= |data|
  {
    var p := 20 * q + 4 * 3 + 2 * k;
    Vec2(data[p], data[p + 1])
  }

  function QuadVertices(data: seq<int>, q: nat): seq<Vec3>
    requires 20 * (q + 1) <= |data|
  {
    [VertexAt(data, q, 0), VertexAt(data, q, 1), VertexAt(data, q, 2), VertexAt(data, q, 3)]
  }

  function QuadUvs(data: seq<int>, q: nat): seq<Vec2>
    requires 20 * (q + 1) <= |data|
  {
    [UvAt(data, q, 0), UvAt(data, q, 1), UvAt(data, q, 2), UvAt(data, q, 3)]
  }

  /** The vertices of the n quads starting at quad first, four per quad, in frame order. */
  function QuadsVertices(data: seq<int>, first: nat, n: nat): (r: seq<Vec3>)
    requires 20 * (first + n) <= |data|
    ensures |r| == 4 * n
  {
    if n == 0 then [] else QuadsVertices(data, first, n - 1) + QuadVertices(data, first + n - 1)
  }

  /** The texture coordinates of the n quads starting at quad first, four per quad, in frame order. */
  function QuadsUvs(data: seq<int>, first: nat, n: nat): (r: seq<Vec2>)
    requires 20 * (first + n) <= |data|
    ensures |r| == 4 * n
  {
    if n == 0 then [] else QuadsUvs(data, first, n - 1) + QuadUvs(data, first + n - 1)
  }

  /**
   * Local vertex 4l + k of a run starting at quad first is corner k of global
   * quad first + l: it takes the ints 20(first + l) + 3k .. + 2, and its
   * texture coordinate the ints 20(first + l) + 12 + 2k and the one after.
   */
  lemma {:induction false} VertexSlices(data: seq<int>, first: nat, n: nat, l: nat, k: nat)
    requires 20 * (first + n) <= |data| && l < n && k < VerticesPerQuad
    ensures QuadsVertices(data, first, n)[4 * l + k] == VertexAt(data, first + l, k)
  {
    if l < n - 1 {
      VertexSlices(data, first, n - 1, l, k);
    } else {
      assert QuadsVertices(data, first, n)[4 * l + k] == QuadVertices(data, first + l)[k];
    }
  }

  lemma {:induction false} UvSlices(data: seq<int>, first: nat, n: nat, l: nat, k: nat)
    requires 20 * (first + n) <= |data| && l < n && k < VerticesPerQuad
    ensures QuadsUvs(data, first, n)[4 * l + k] == UvAt(data, first + l, k)
  {
    if l < n - 1 {
      UvSlices(data, first, n - 1, l, k);
    } else {
      assert QuadsUvs(data, first, n)[4 * l + k] == QuadUvs(data, first + l)[k];
    }
  }

  /** The vertices of sub-mesh s: those of its quads, which start at global quad 16000 s. */
  function SubMeshVertices(data: seq<int>, quadCount: nat, s: nat): (r: seq<Vec3>)
    requires 20 * quadCount <= |data| && s < SubMeshCount(quadCount)
    ensures |r| == SubMeshSize(quadCount, s)
  {
    QuadsVertices(data, 16000 * s, SubMeshQuads(quadCount, s))
  }

  /** The texture coordinates of sub-mesh s, one per vertex, from the same quads. */
  function SubMeshUvs(data: seq<int>, quadCount: nat, s: nat): (r: seq<Vec2>)
    requires 20 * quadCount <= |data| && s < SubMeshCount(quadCount)
    ensures |r| == SubMeshSize(quadCount, s)
  {
    QuadsUvs(data, 16000 * s, SubMeshQuads(quadCount, s))
  }

  /** The decoded runs depend on the quads' own ints and on nothing after them. */
  lemma {:induction false} QuadsReadOnlyTheirInts(data: seq<int>, first: nat, n: nat, len: nat)
    requires 20 * (first + n) <= len <= |data|
    ensures QuadsVertices(data, first, n) == QuadsVertices(data[..len], first, n)
    ensures QuadsUvs(data, first, n) == QuadsUvs(data[..len], first, n)
  {
    if n > 0 {
      QuadsReadOnlyTheirInts(data, first, n - 1, len);
    }
  }

  /** Decoding one more quad appends its corners and texture coordinates. */
  lemma QuadsStep(data: seq<int>, first: nat, l: nat)
    requires 20 * (first + l + 1) <= |data|
    ensures QuadsVertices(data, first, l + 1) == QuadsVertices(data, first, l) + QuadVertices(data, first + l)
    ensures QuadsUvs(data, first, l + 1) == QuadsUvs(data, first, l) + QuadUvs(data, first + l)
  {
  }

  /**
   * The first half of one quad's reads: its four corners, three ints each,
   * stored at vertex i onwards.
   */
  method ReadQuadVertices(data: seq<int>, currentDataPos: nat, ghost first: nat, ghost l: nat,
                          verts: array<Vec3>, i: nat)
    returns (nextDataPos: nat)
    requires currentDataPos == 20 * (first + l) && 20 * (first + l + 1) <= |data|
    requires i + 4 <= verts.Length && verts[..i] == QuadsVertices(data, first, l)
    modifies verts
    ensures nextDataPos == currentDataPos + 12
    ensures verts[..i + 4] == QuadsVertices(data, first, l + 1)
    ensures verts[i + 4..] == old(verts[i + 4..])
  {
    ghost var q := first + l;
    ghost var before := verts[..i];
    var pos := currentDataPos;
    verts[i] := Vec3(data[pos], data[pos + 1], data[pos + 2]);
    pos := pos + 3;
    verts[i + 1] := Vec3(data[pos], data[pos + 1], data[pos + 2]);
    pos := pos + 3;
    verts[i + 2] := Vec3(data[pos], data[pos + 1], data[pos + 2]);
    pos := pos + 3;
    verts[i + 3] := Vec3(data[pos], data[pos + 1], data[pos + 2]);
    pos := pos + 3;
    assert verts[..i] == before;
    assert verts[i..i + 4] == QuadVertices(data, q);
    assert verts[..i + 4] == verts[..i] + verts[i..i + 4];
    QuadsStep(data, first, l);
    nextDataPos := pos;
  }

  /**
   * The second half of one quad's reads: the texture coordinates of its four
   * corners, two ints each, stored at index i onwards.
   */
  method ReadQuadUvs(data: seq<int>, currentDataPos: nat, ghost first: nat, ghost l: nat,
                     uvs: array<Vec2>, i: nat)
    returns (nextDataPos: nat)
    requires currentDataPos == 20 * (first + l) + 12 && 20 * (first + l + 1) <= |data|
    requires i + 4 <= uvs.Length && uvs[..i] == QuadsUvs(data, first, l)
    modifies uvs
    ensures nextDataPos == currentDataPos + 8
    ensures uvs[..i + 4] == QuadsUvs(data, first, l + 1)
    ensures uvs[i + 4..] == old(uvs[i + 4..])
  {
    ghost var q := first + l;
    ghost var before := uvs[..i];
    var pos := currentDataPos;
    uvs[i] := Vec2(data[pos], data[pos + 1]);
    pos := pos + 2;
    uvs[i + 1] := Vec2(data[pos], data[pos + 1]);
    pos := pos + 2;
    uvs[i + 2] := Vec2(data[pos], data[pos + 1]);
    pos := pos + 2;
    uvs[i + 3] := Vec2(data[pos], data[pos + 1]);
    pos := pos + 2;
    assert uvs[..i] == before;
    assert uvs[i..i + 4] == QuadUvs(data, q);
    assert uvs[..i + 4] == uvs[..i] + uvs[i..i + 4];
    QuadsStep(data, first, l);
    nextDataPos := pos;
  }

  /** One round of the inner decode loop: quad first + l, all 20 of its ints, stored at index i onwards. */
  method ReadQuad(data: seq<int>, currentDataPos: nat, ghost first: nat, ghost l: nat,
                  verts: array<Vec3>, uvs: array<Vec2>, i: nat)
    returns (nextDataPos: nat)
    requires currentDataPos == 20 * (first + l) && 20 * (first + l + 1) <= |data|
    requires i + 4 <= verts.Length && verts[..i] == QuadsVertices(data, first, l)
    requires i + 4 <= uvs.Length && uvs[..i] == QuadsUvs(data, first, l)
    modifies verts, uvs
    ensures nextDataPos == currentDataPos + 20
    ensures verts[..i + 4] == QuadsVertices(data, first, l + 1)
    ensures uvs[..i + 4] == QuadsUvs(data, first, l + 1)
    ensures verts[i + 4..] == old(verts[i + 4..]) && uvs[i + 4..] == old(uvs[i + 4..])
  {
    var pos := ReadQuadVertices(data, currentDataPos, first, l, verts, i);
    nextDataPos := ReadQuadUvs(data, pos, first, l, uvs, i);
  }

  /**
   * One round of the outer decode loop: sub-mesh s gets arrays of
   * currentCount vertices and texture coordinates, filled quad by quad from
   * the read position. The counter u counts the vertices decoded so far.
   */
  method DecodeSubMesh(data: seq<int>, quadCount: nat, s: nat, currentDataPos: nat, u: nat)
    returns (vertices: seq<Vec3>, uv: seq<Vec2>, nextDataPos: nat, nextU: nat)
    requires 20 * quadCount <= |data| && s < SubMeshCount(quadCount)
    requires u == 64000 * s && currentDataPos == 5 * u
    ensures vertices == SubMeshVertices(data, quadCount, s)
    ensures uv == SubMeshUvs(data, quadCount, s)
    ensures nextU == u + SubMeshSize(quadCount, s) && nextDataPos == 5 * nextU
  {
    var vertCount := quadCount * 4;
    var currentCount := Min(64000, vertCount - u);
    ghost var first := 16000 * s;
    ghost var quads := SubMeshQuads(quadCount, s);
    assert currentCount == 4 * quads == SubMeshSize(quadCount, s) && 20 * (first + quads) <= |data| by {
      SubMeshSizeBounds(quadCount, s);
    }
    var verts := new Vec3[currentCount];
    var uvs := new Vec2[currentCount];
    nextDataPos, nextU := DecodeQuads(data, currentDataPos, first, quads, verts, uvs, currentCount, u);
    vertices, uv := verts[..], uvs[..];
  }

  /**
   * The inner decode loop: fills the arrays of currentCount = 4 * quads
   * vertices and texture coordinates from the quads starting at quad first,
   * which begin at the read position. i and w index the arrays, u counts
   * the vertices decoded so far.
   */
  method DecodeQuads(data: seq<int>, currentDataPos: nat, ghost first: nat, ghost quads: nat,
                     verts: array<Vec3>, uvs: array<Vec2>, currentCount: nat, u: nat)
    returns (nextDataPos: nat, nextU: nat)
    requires currentCount == 4 * quads && verts.Length == currentCount && uvs.Length == currentCount
    requires 20 * (first + quads) <= |data| && currentDataPos == 20 * first
    modifies verts, uvs
    ensures verts[..] == QuadsVertices(data, first, quads)
    ensures uvs[..] == QuadsUvs(data, first, quads)
    ensures nextU == u + currentCount && nextDataPos == currentDataPos + 5 * currentCount
  {
    var pos := currentDataPos;
    var counted := u;
    var i := 0;
    var w := 0;
    ghost var l := 0;
    while w < currentCount
      invariant 0 <= l <= quads && w == 4 * l && i == w
      invariant counted == u + w
      invariant pos == 20 * (first + l)
      invariant verts[..w] == QuadsVertices(data, first, l)
      invariant uvs[..w] == QuadsUvs(data, first, l)
    {
      assert l < quads && i + 4 <= currentCount;
      pos := ReadQuad(data, pos, first, l, verts, uvs, i);
      i := i + 4;
      counted := counted + 4;
      w := w + 4;
      l := l + 1;
    }
    assert l == quads;
    assert verts[..] == verts[..w];
    assert uvs[..] == uvs[..w];
    nextDataPos, nextU := pos, counted;
  }

  /**
   * The decoding half of Update: walks the frame with one read position,
   * filling a vertex array and a texture-coordinate array per sub-mesh.
   * It reads exactly the frame's 20 * quadCount ints.
   */
  method DecodeModel(data: seq<int>, quadCount: nat)
    returns (vertices: seq<seq<Vec3>>, uv: seq<seq<Vec2>>, consumed: nat)
    requires 20 * quadCount <= |data|
    requires 20 * quadCount <= MaxInt32
    ensures consumed == 20 * quadCount
    ensures |vertices| == |uv| == SubMeshCount(quadCount)
    ensures forall s :: 0 <= s < |vertices| ==> vertices[s] == SubMeshVertices(data, quadCount, s)
    ensures forall s :: 0 <= s < |uv| ==> uv[s] == SubMeshUvs(data, quadCount, s)
  {
    var currentDataPos := 0;
    var vertCount := quadCount * 4;
    var activeSphereObjects := SubMeshCount(quadCount);
    vertices, uv := [], [];

    var u := 0;
    for s := 0 to activeSphereObjects
      invariant |vertices| == |uv| == s
      invariant u == Min(64000 * s, vertCount)
      invariant currentDataPos == 5 * u
      invariant forall t :: 0 <= t < s ==> vertices[t] == SubMeshVertices(data, quadCount, t)
      invariant forall t :: 0 <= t < s ==> uv[t] == SubMeshUvs(data, quadCount, t)
    {
      SubMeshSizeBounds(quadCount, s);
      var verts, uvs;
      verts, uvs, currentDataPos, u := DecodeSubMesh(data, quadCount, s, currentDataPos, u);
      vertices := vertices + [verts];
      uv := uv + [uvs];
    }
    consumed := currentDataPos;
  }

  // ---------------------------------------------------------------------------
  // Triangle indices
  // ---------------------------------------------------------------------------

  /** The 12 indices written for the quad whose first vertex is local vertex i. */
  function QuadTriangles(i: int): seq<int>
  {
    FrontFaces(i) + BackFaces(i)
  }

  /** The index array of a sub-mesh of n quads: 12 indices per quad, in quad order. */
  function TriangleIndices(n: nat): (r: seq<int>)
    ensures |r| == 12 * n
  {
    if n == 0 then [] else TriangleIndices(n - 1) + QuadTriangles(4 * (n - 1))
  }

  /** Entry r of quad q's block of the index array is entry r of the block for base vertex 4q. */
  lemma {:induction false} TriangleAt(n: nat, q: nat, r: nat)
    requires q < n && r < 12
    ensures TriangleIndices(n)[12 * q + r] == QuadTriangles(4 * q)[r]
  {
    if q < n - 1 {
      TriangleAt(n - 1, q, r);
    }
  }

  /** Every entry of a quad's block is one of that quad's four corners. */
  lemma QuadTrianglesCorners(i: int)
    ensures forall r :: 0 <= r < 12 ==> i <= QuadTriangles(i)[r] < i + 4
  {
  }

  /** Triangle t (0..3) of quad q: three consecutive entries of the index array. */
  function Triangle(tris: seq<int>, q: nat, t: nat): seq<int>
    requires t < 4 && 12 * (q + 1) <= |tris|
  {
    var b := 12 * q + 3 * t;
    [tris[b], tris[b + 1], tris[b + 2]]
  }

  function Reverse3(t: seq<int>): seq<int>
    requires |t| == 3
  {
    [t[2], t[1], t[0]]
  }

  /** Every index names a vertex of its own sub-mesh. */
  lemma {:induction false} TriangleIndicesInRange(n: nat)
    ensures forall j :: 0 <= j < |TriangleIndices(n)| ==> 0 <= TriangleIndices(n)[j] < 4 * n
  {
    forall j | 0 <= j < |TriangleIndices(n)|
      ensures 0 <= TriangleIndices(n)[j] < 4 * n
    {
      var q := j / 12;
      var r := j - 12 * q;
      assert 12 * q + r == j;
      TriangleAt(n, q, r);
      QuadTrianglesCorners(4 * q);
    }
  }

  /**
   * Quad q with local base i = 4q is drawn as (i, i+1, i+2) and (i+1, i+2, i+3),
   * and then as the same two triangles with reversed winding for the back face.
   */
  lemma {:induction false} TriangleIndicesFaces(n: nat, q: nat)
    requires q < n
    ensures Triangle(TriangleIndices(n), q, 0) == [4 * q, 4 * q + 1, 4 * q + 2]
    ensures Triangle(TriangleIndices(n), q, 1) == [4 * q + 1, 4 * q + 2, 4 * q + 3]
    ensures Triangle(TriangleIndices(n), q, 2) == Reverse3(Triangle(TriangleIndices(n), q, 0))
    ensures Triangle(TriangleIndices(n), q, 3) == Reverse3(Triangle(TriangleIndices(n), q, 1))
  {
    TriangleAt(n, q, 0); TriangleAt(n, q, 1); TriangleAt(n, q, 2);
    TriangleAt(n, q, 3); TriangleAt(n, q, 4); TriangleAt(n, q, 5);
    TriangleAt(n, q, 6); TriangleAt(n, q, 7); TriangleAt(n, q, 8);
    TriangleAt(n, q, 9); TriangleAt(n, q, 10); TriangleAt(n, q, 11);
  }

  /** The two front faces of the quad with local base i, as the triangle loop writes them. */
  function FrontFaces(i: int): seq<int>
  {
    [i, i + 1, i + 2,  i + 1, i + 2, i + 3]
  }

  /** The same two triangles with reversed winding: the back faces. */
  function BackFaces(i: int): seq<int>
  {
    [i + 2, i + 1, i,  i + 3, i + 2, i + 1]
  }

  /** The first six writes of one round of the triangle loop. */
  method WriteFrontFaces(tris: array<int>, j: nat, i: int)
    requires j + 6 <= tris.Length
    modifies tris
    ensures tris[..j + 6] == old(tris[..j]) + FrontFaces(i)
    ensures tris[j + 6..] == old(tris[j + 6..])
  {
    ghost var before := tris[..j];
    tris[j] := i;
    tris[j + 1] := i + 1;
    tris[j + 2] := i + 2;

    tris[j + 3] := i + 1;
    tris[j + 4] := i + 2;
    tris[j + 5] := i + 3;

    assert tris[..j] == before;
    assert tris[j..j + 6] == FrontFaces(i);
    assert tris[..j + 6] == tris[..j] + tris[j..j + 6];
  }

  /** The last six writes of one round of the triangle loop, from j on. */
  method WriteBackFaces(tris: array<int>, j: nat, i: int)
    requires j + 6 <= tris.Length
    modifies tris
    ensures tris[..j + 6] == old(tris[..j]) + BackFaces(i)
    ensures tris[j + 6..] == old(tris[j + 6..])
  {
    ghost var before := tris[..j];
    tris[j] := i + 2;
    tris[j + 1] := i + 1;
    tris[j + 2] := i;

    tris[j + 3] := i + 3;
    tris[j + 4] := i + 2;
    tris[j + 5] := i + 1;

    assert tris[..j] == before;
    assert tris[j..j + 6] == BackFaces(i);
    assert tris[..j + 6] == tris[..j] + tris[j..j + 6];
  }

  /** The twelve writes of one round of the triangle loop: quad base i, written at j. */
  method WriteQuadTriangles(tris: array<int>, j: nat, i: int)
    requires j + 12 <= tris.Length
    modifies tris
    ensures tris[..j + 12] == old(tris[..j]) + QuadTriangles(i)
    ensures tris[j + 12..] == old(tris[j + 12..])
  {
    ghost var before := tris[..j];
    WriteFrontFaces(tris, j, i);
    WriteBackFaces(tris, j + 6, i);
    assert tris[..j + 12] == before + FrontFaces(i) + BackFaces(i);
  }

  /** The triangle half of Update for one sub-mesh of currentCount vertices. */
  method BuildTriangles(currentCount: nat) returns (triangles: seq<int>)
    requires currentCount % VerticesPerQuad == 0 && currentCount <= MaxVerticesPerSubSphere
    ensures |triangles| == 3 * currentCount
    ensures triangles == TriangleIndices(currentCount / VerticesPerQuad)
    ensures forall j :: 0 <= j < |triangles| ==> 0 <= triangles[j] < currentCount
  {
    ghost var quads := currentCount / 4;
    assert currentCount == 4 * quads;
    var tris := new int[currentCount * 3];
    var j := 0;
    var i := 0;
    var w := 0;
    ghost var l := 0;
    while w < currentCount
      invariant 0 <= l <= quads && w == 4 * l && i == w && j == 12 * l
      invariant tris[..j] == TriangleIndices(l)
    {
      WriteQuadTriangles(tris, j, i);
      i := i + 4;
      j := j + 12;
      w := w + 4;
      l := l + 1;
    }
    triangles := tris[..];
    assert triangles == tris[..j];
    TriangleIndicesInRange(quads);
  }

  // ---------------------------------------------------------------------------
  // The meshes after one frame
  // ---------------------------------------------------------------------------

  /** Sub-mesh s after a frame of quadCount quads: its share of the frame, or cleared. */
  function FrameMesh(data: seq<int>, quadCount: nat, s: nat): (m: SubMesh)
    requires 20 * quadCount <= |data|
  {
    if s < SubMeshCount(quadCount) then
      SubMesh(SubMeshVertices(data, quadCount, s), SubMeshUvs(data, quadCount, s),
              TriangleIndices(SubMeshQuads(quadCount, s)))
    else ClearedMesh
  }

  /**
   * What the 12 sub-meshes hold once a frame of quadCount quads has been
   * applied: the first SubMeshCount(quadCount) hold their vertices, texture
   * coordinates and triangles, every other one is cleared.
   */
  function FrameMeshes(data: seq<int>, quadCount: nat): (r: seq<SubMesh>)
    requires 20 * quadCount <= |data|
    ensures |r| == MaxSphereSubObjects
    ensures forall s :: 0 <= s < |r| ==> r[s] == FrameMesh(data, quadCount, s)
  {
    seq(MaxSphereSubObjects, s requires 0 <= s => FrameMesh(data, quadCount, s))
  }

  /** The number of triangles the sub-meshes draw: three indices each. */
  function MeshTriangles(meshes: seq<SubMesh>): nat
  {
    if meshes == [] then 0
    else MeshTriangles(meshes[..|meshes| - 1]) + |meshes[|meshes| - 1].triangles| / 3
  }

  /** Sub-mesh s of a frame draws one triangle per vertex it holds, and a cleared one none. */
  lemma FrameMeshTriangles(data: seq<int>, quadCount: nat, s: nat)
    requires 20 * quadCount <= |data|
    ensures s < SubMeshCount(quadCount) ==>
      |FrameMesh(data, quadCount, s).triangles| / 3 == SubMeshSize(quadCount, s)
    ensures s >= SubMeshCount(quadCount) ==> |FrameMesh(data, quadCount, s).triangles| == 0
  {
  }

  /** The first n meshes of a frame draw one triangle per vertex they hold. */
  lemma {:induction false} FrameTrianglesUpTo(data: seq<int>, quadCount: nat, n: nat)
    requires 20 * quadCount <= |data| && n <= MaxSphereSubObjects
    requires SubMeshCount(quadCount) <= MaxSphereSubObjects
    ensures MeshTriangles(FrameMeshes(data, quadCount)[..n]) == SizesUpTo(quadCount, Min(n, SubMeshCount(quadCount)))
  {
    if n > 0 {
      var all := FrameMeshes(data, quadCount);
      var c := SubMeshCount(quadCount);
      assert all[..n][..n - 1] == all[..n - 1];
      assert MeshTriangles(all[..n]) == MeshTriangles(all[..n - 1]) + |all[n - 1].triangles| / 3;
      FrameTrianglesUpTo(data, quadCount, n - 1);
      FrameMeshTriangles(data, quadCount, n - 1);
      if n - 1 < c {
        assert Min(n, c) == n && Min(n - 1, c) == n - 1;
      } else {
        assert Min(n, c) == c && Min(n - 1, c) == c;
      }
    }
  }

  /** A frame of quadCount quads is drawn as 4 * quadCount triangles: two per side of every quad. */
  lemma FrameTriangleCount(data: seq<int>, quadCount: nat)
    requires 20 * quadCount <= |data| && SubMeshCount(quadCount) <= MaxSphereSubObjects
    ensures MeshTriangles(FrameMeshes(data, quadCount)) == 4 * quadCount
  {
    FrameTrianglesUpTo(data, quadCount, MaxSphereSubObjects);
    assert FrameMeshes(data, quadCount)[..MaxSphereSubObjects] == FrameMeshes(data, quadCount);
    SubMeshSizesSum(quadCount);
  }

  /** The meshes of a frame depend on its 20 * quadCount ints and on nothing after them. */
  lemma FrameMeshesReadOnlyFrame(data: seq<int>, quadCount: nat)
    requires 20 * quadCount <= |data|
    ensures FrameMeshes(data[..20 * quadCount], quadCount) == FrameMeshes(data, quadCount)
  {
    var frame := data[..20 * quadCount];
    forall s | 0 <= s < MaxSphereSubObjects
      ensures FrameMesh(frame, quadCount, s) == FrameMesh(data, quadCount, s)
    {
      if s < SubMeshCount(quadCount) {
        var first, quads := 16000 * s, SubMeshQuads(quadCount, s);
        assert 20 * (first + quads) <= 20 * quadCount;
        QuadsReadOnlyTheirInts(data, first, quads, 20 * quadCount);
      }
    }
  }

  /**
   * One round of the triangle pass: the currentCount vertices of sub-mesh s
   * get their triangle indices, and the sub-mesh its three arrays.
   */
  method AttachSubMesh(data: seq<int>, quadCount: nat, s: nat, vertices: seq<Vec3>, uv: seq<Vec2>, u: nat)
    returns (mesh: SubMesh, nextU: nat)
    requires 20 * quadCount <= |data| && s < SubMeshCount(quadCount) && u == 64000 * s
    requires vertices == SubMeshVertices(data, quadCount, s) && uv == SubMeshUvs(data, quadCount, s)
    ensures mesh == FrameMesh(data, quadCount, s)
    ensures nextU == u + SubMeshSize(quadCount, s)
    ensures s + 1 < SubMeshCount(quadCount) ==> nextU == 64000 * (s + 1)
  {
    var vertCount := quadCount * 4;
    var currentCount := Min(64000, vertCount - u);
    ghost var quads := SubMeshQuads(quadCount, s);
    assert currentCount == 4 * quads && currentCount / 4 == quads by {
      SubMeshSizeBounds(quadCount, s);
    }
    var triangles := BuildTriangles(currentCount);
    mesh := SubMesh(vertices, uv, triangles);
    nextU := u + currentCount;
  }

  /**
   * The triangle pass of Update: the cleared sub-meshes receive, chunk by
   * chunk, the decoded vertices and texture coordinates and the triangle
   * indices built for them.
   */
  method AttachSubMeshes(meshes: seq<SubMesh>, data: seq<int>, quadCount: nat,
                         vertices: seq<seq<Vec3>>, uv: seq<seq<Vec2>>)
    returns (result: seq<SubMesh>)
    requires 20 * quadCount <= |data| && SubMeshCount(quadCount) <= MaxSphereSubObjects
    requires |meshes| == MaxSphereSubObjects
    requires forall t :: 0 <= t < |meshes| ==> meshes[t] == ClearedMesh
    requires |vertices| == |uv| == SubMeshCount(quadCount)
    requires forall t :: 0 <= t < |vertices| ==> vertices[t] == SubMeshVertices(data, quadCount, t)
    requires forall t :: 0 <= t < |uv| ==> uv[t] == SubMeshUvs(data, quadCount, t)
    ensures result == FrameMeshes(data, quadCount)
  {
    var activeSphereObjects := SubMeshCount(quadCount);
    result := meshes;
    var u := 0;
    for s := 0 to activeSphereObjects
      invariant |result| == MaxSphereSubObjects
      invariant s < activeSphereObjects ==> u == 64000 * s
      invariant forall t :: 0 <= t < MaxSphereSubObjects ==>
        result[t] == if t < s then FrameMesh(data, quadCount, t) else ClearedMesh
    {
      var mesh;
      mesh, u := AttachSubMesh(data, quadCount, s, vertices[s], uv[s], u);
      result := result[s := mesh];
    }
    assert forall t :: 0 <= t < MaxSphereSubObjects ==> result[t] == FrameMesh(data, quadCount, t);
  }
}
