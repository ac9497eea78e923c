/** The Cesium-backed Mesh of atlas-cesium: a mesh built from a list of vertices and a
    list of triangles, packed into the two Uint16 buffers Cesium draws from, and the
    Cesium geometry record assembled from them. */
module CesiumMesh {
  import opened PackedBuffers

  datatype Option<T> = None | Some(value: T)

  /** A vertex in model-space coordinates (the `{x, y, z}` objects the constructor takes). */
  datatype Point = Point(x: int, y: int, z: int)

  /** Every coordinate of the vertex fits a Uint16Array element unchanged. */
  predicate IsUint16Point(p: Point) {
    IsUint16(p.x) && IsUint16(p.y) && IsUint16(p.z)
  }

  /** The vertex as the position buffer keeps it: each coordinate reduced modulo 2^16. */
  function StoredPoint(p: Point): (q: Point)
    ensures IsUint16Point(q)
    ensures IsUint16Point(p) ==> q == p
  {
    Point(ToUint16(p.x), ToUint16(p.y), ToUint16(p.z))
  }

  /** The three values one vertex contributes to the position buffer, in x, y, z order. */
  function PointRow(p: Point): seq<int> {
    var q := StoredPoint(p);
    [q.x, q.y, q.z]
  }

  function PointRows(points: seq<Point>): (rows: seq<seq<int>>)
    ensures |rows| == |points| && AllTriples(rows) && AllUint16(rows)
  {
    seq(|points|, i requires 0 <= i < |points| => PointRow(points[i]))
  }

  /** The content of the position buffer the constructor builds from `points`. */
  function PackedPositions(points: seq<Point>): seq<int> {
    Concat(PointRows(points))
  }

  /** Component c of a triangle as the constructor stores it. A triangle is any indexable
      list; reading a component it does not have gives `undefined`, which a Uint16Array
      stores as 0. */
  function Component(t: seq<int>, c: nat): (r: int)
    ensures IsUint16(r)
    ensures c < |t| && IsUint16(t[c]) ==> r == t[c]
    ensures c >= |t| ==> r == 0
  {
    if c < |t| then ToUint16(t[c]) else 0
  }

  /** The three values one triangle contributes to the index buffer, in winding order;
      components past [2] are never read. */
  function TriangleRow(t: seq<int>): seq<int> {
    [Component(t, 0), Component(t, 1), Component(t, 2)]
  }

  function TriangleRows(triangles: seq<seq<int>>): (rows: seq<seq<int>>)
    ensures |rows| == |triangles| && AllTriples(rows) && AllUint16(rows)
  {
    seq(|triangles|, k requires 0 <= k < |triangles| => TriangleRow(triangles[k]))
  }

  /** The content of the index buffer the constructor builds from `triangles`. */
  function PackedIndices(triangles: seq<seq<int>>): seq<int> {
    Concat(TriangleRows(triangles))
  }

  /** A triangle the index buffer keeps exactly: three components, each a Uint16 value.
      Nothing relates the components to the number of vertices. */
  predicate IsUint16Triangle(t: seq<int>) {
    |t| == 3 && IsUint16(t[0]) && IsUint16(t[1]) && IsUint16(t[2])
  }

  /** Reads a position buffer back as vertices, three values per vertex. */
  function UnpackPositions(buf: seq<int>): (points: seq<Point>)
    requires |buf| % 3 == 0
    ensures |points| == |buf| / 3
    ensures forall i :: 0 <= i < |points| ==> points[i] == Point(buf[3 * i], buf[3 * i + 1], buf[3 * i + 2])
  {
    var rows := Chunks(buf);
    ConcatTriplesAt(rows);
    seq(|rows|, i requires 0 <= i < |rows| => Point(rows[i][0], rows[i][1], rows[i][2]))
  }

  /** The position buffer's index relation: it is three values per vertex, element 3*i
      holds vertex i's x, 3*i + 1 its y and 3*i + 2 its z, each stored as a Uint16. */
  lemma PackedPositionsAt(points: seq<Point>)
    ensures |PackedPositions(points)| == 3 * |points|
    ensures forall i :: 0 <= i < |points| ==>
      PackedPositions(points)[3 * i] == ToUint16(points[i].x) &&
      PackedPositions(points)[3 * i + 1] == ToUint16(points[i].y) &&
      PackedPositions(points)[3 * i + 2] == ToUint16(points[i].z)
    ensures forall k :: 0 <= k < |PackedPositions(points)| ==> IsUint16(PackedPositions(points)[k])
  {
    var rows := PointRows(points);
    ConcatTriplesAt(rows);
    ConcatUint16(rows);
    forall i | 0 <= i < |points|
      ensures PackedPositions(points)[3 * i] == ToUint16(points[i].x)
      ensures PackedPositions(points)[3 * i + 1] == ToUint16(points[i].y)
      ensures PackedPositions(points)[3 * i + 2] == ToUint16(points[i].z)
    {
      assert rows[i] == PointRow(points[i]);
      assert Concat(rows)[3 * i + 0] == rows[i][0];
      assert Concat(rows)[3 * i + 1] == rows[i][1];
      assert Concat(rows)[3 * i + 2] == rows[i][2];
    }
  }

  /** The index buffer's index relation: three values per triangle, element 3*k + c holds
      component c of triangle k, so every triangle keeps its winding order. */
  lemma PackedIndicesAt(triangles: seq<seq<int>>)
    ensures |PackedIndices(triangles)| == 3 * |triangles|
    ensures forall k, c :: 0 <= k < |triangles| && 0 <= c < 3 ==>
      PackedIndices(triangles)[3 * k + c] == Component(triangles[k], c)
    ensures forall n :: 0 <= n < |PackedIndices(triangles)| ==> IsUint16(PackedIndices(triangles)[n])
  {
    var rows := TriangleRows(triangles);
    ConcatTriplesAt(rows);
    ConcatUint16(rows);
    forall k, c | 0 <= k < |triangles| && 0 <= c < 3
      ensures PackedIndices(triangles)[3 * k + c] == Component(triangles[k], c)
    {
      assert rows[k] == TriangleRow(triangles[k]);
      assert Concat(rows)[3 * k + c] == rows[k][c];
    }
  }

  /** Round trip of the position buffer: reading it back gives every vertex with its
      coordinates reduced modulo 2^16, so vertices whose coordinates already fit come
      back unchanged. */
  lemma UnpackPackedPositions(points: seq<Point>)
    ensures |PackedPositions(points)| % 3 == 0
    ensures var back := UnpackPositions(PackedPositions(points));
      |back| == |points| && forall i :: 0 <= i < |points| ==> back[i] == StoredPoint(points[i])
    ensures (forall i :: 0 <= i < |points| ==> IsUint16Point(points[i])) ==>
      UnpackPositions(PackedPositions(points)) == points
  {
    var rows := PointRows(points);
    ChunksOfConcat(rows);
    var back := UnpackPositions(PackedPositions(points));
    forall i | 0 <= i < |points|
      ensures back[i] == StoredPoint(points[i])
    {
      assert rows[i] == PointRow(points[i]);
    }
  }

  /** Round trip of the index buffer: grouping it into triples gives, for every triangle,
      its first three components reduced modulo 2^16 (0 for a missing one), so triangles
      of three Uint16 indices come back unchanged, whatever vertex they name. */
  lemma ChunksOfPackedIndices(triangles: seq<seq<int>>)
    ensures |PackedIndices(triangles)| % 3 == 0
    ensures var back := Chunks(PackedIndices(triangles));
      |back| == |triangles| &&
      forall k :: 0 <= k < |triangles| ==>
        back[k] == [Component(triangles[k], 0), Component(triangles[k], 1), Component(triangles[k], 2)]
    ensures (forall k :: 0 <= k < |triangles| ==> IsUint16Triangle(triangles[k])) ==>
      Chunks(PackedIndices(triangles)) == triangles
  {
    var rows := TriangleRows(triangles);
    ChunksOfConcat(rows);
    assert Chunks(PackedIndices(triangles)) == rows;
    if forall k :: 0 <= k < |triangles| ==> IsUint16Triangle(triangles[k]) {
      TriangleRowsOfUint16(triangles);
    }
  }

  /** A list of triangles of three Uint16 indices each is stored row for row as it stands. */
  lemma TriangleRowsOfUint16(triangles: seq<seq<int>>)
    requires forall k :: 0 <= k < |triangles| ==> IsUint16Triangle(triangles[k])
    ensures TriangleRows(triangles) == triangles
  {
    forall k | 0 <= k < |triangles|
      ensures TriangleRows(triangles)[k] == triangles[k]
    {
      TriangleRowOfUint16(triangles[k]);
    }
  }

  /** A triangle of three Uint16 indices is stored exactly as it stands. */
  lemma TriangleRowOfUint16(t: seq<int>)
    requires IsUint16Triangle(t)
    ensures TriangleRow(t) == t
  {
  }

  /** The position buffer determines the vertices exactly up to reduction modulo 2^16:
      two vertex lists give the same buffer if and only if they have the same length and
      agree vertex by vertex once reduced. */
  lemma SamePositionBuffer(ps: seq<Point>, qs: seq<Point>)
    ensures PackedPositions(ps) == PackedPositions(qs) <==>
      |ps| == |qs| && forall i :: 0 <= i < |ps| ==> StoredPoint(ps[i]) == StoredPoint(qs[i])
  {
    UnpackPackedPositions(ps);
    UnpackPackedPositions(qs);
    if |ps| == |qs| && forall i :: 0 <= i < |ps| ==> StoredPoint(ps[i]) == StoredPoint(qs[i]) {
      assert PointRows(ps) == PointRows(qs) by {
        forall i | 0 <= i < |ps|
          ensures PointRows(ps)[i] == PointRows(qs)[i]
        {
          assert StoredPoint(ps[i]) == StoredPoint(qs[i]);
        }
      }
    }
  }

  /** Writing one more vertex appends its row to the position buffer. */
  lemma PackedPositionsAppend(points: seq<Point>, i: nat)
    requires i < |points|
    ensures PackedPositions(points[..i + 1]) == PackedPositions(points[..i]) + PointRow(points[i])
  {
    assert PointRows(points[..i + 1]) == PointRows(points[..i]) + [PointRow(points[i])];
    ConcatAppend(PointRows(points[..i]), PointRow(points[i]));
  }

  /** Writing one more triangle appends its row to the index buffer. */
  lemma PackedIndicesAppend(triangles: seq<seq<int>>, k: nat)
    requires k < |triangles|
    ensures PackedIndices(triangles[..k + 1]) == PackedIndices(triangles[..k]) + TriangleRow(triangles[k])
  {
    assert TriangleRows(triangles[..k + 1]) == TriangleRows(triangles[..k]) + [TriangleRow(triangles[k])];
    ConcatAppend(TriangleRows(triangles[..k]), TriangleRow(triangles[k]));
  }

  lemma ConcatOfThree(r0: seq<int>, r1: seq<int>, r2: seq<int>)
    ensures Concat([r0, r1, r2]) == r0 + r1 + r2
  {
    ConcatAppend([], r0);
    assert [] + [r0] == [r0];
    ConcatAppend([r0], r1);
    assert [r0] + [r1] == [r0, r1];
    ConcatAppend([r0, r1], r2);
    assert [r0, r1] + [r2] == [r0, r1, r2];
  }

  /** The three vertices and one triangle of a unit right triangle pack to the expected
      buffers. */
  lemma UnitTriangleExample()
    ensures PackedPositions([Point(0, 0, 0), Point(1, 0, 0), Point(0, 1, 0)]) == [0, 0, 0, 1, 0, 0, 0, 1, 0]
    ensures PackedIndices([[0, 1, 2]]) == [0, 1, 2]
  {
    assert PointRows([Point(0, 0, 0), Point(1, 0, 0), Point(0, 1, 0)]) == [[0, 0, 0], [1, 0, 0], [0, 1, 0]];
    ConcatOfThree([0, 0, 0], [1, 0, 0], [0, 1, 0]);
    assert TriangleRows([[0, 1, 2]]) == [[0, 1, 2]];
    ConcatAppend([], [0, 1, 2]);
    assert [] + [[0, 1, 2]] == [[0, 1, 2]];
  }

  /** No index is checked against the vertex list: with two vertices, a triangle naming
      vertex 5 is packed as it stands, a negative index wraps round to 65535, a missing
      component becomes 0 and a fourth component is dropped. */
  lemma UncheckedIndicesExample()
    ensures |PackedPositions([Point(0, 0, 0), Point(1, 0, 0)])| == 6
    ensures PackedIndices([[0, 1, 5], [-1, 1], [2, 1, 0, 7]]) == [0, 1, 5, 65535, 1, 0, 2, 1, 0]
  {
    PackedPositionsAt([Point(0, 0, 0), Point(1, 0, 0)]);
    assert TriangleRows([[0, 1, 5], [-1, 1], [2, 1, 0, 7]]) == [[0, 1, 5], [65535, 1, 0], [2, 1, 0]];
    ConcatOfThree([0, 1, 5], [65535, 1, 0], [2, 1, 0]);
  }

  /** The position loop of the constructor: a fresh Uint16 buffer of three values per
      vertex, filled in x, y, z order by a cursor j that is 3*i after vertex i. An empty
      list gives an empty buffer. */
  method PackPositions(points: seq<Point>) returns (pos: array<int>)
    ensures fresh(pos)
    ensures pos[..] == PackedPositions(points)
  {
    pos := new int[0];
    if |points| > 0 {
      pos := new int[3 * |points|];
      var j := 0;
      for i := 0 to |points|
        invariant j == 3 * i
        invariant pos[..j] == PackedPositions(points[..i])
      {
        ghost var done := pos[..j];
        pos[j] := ToUint16(points[i].x);
        j := j + 1;
        pos[j] := ToUint16(points[i].y);
        j := j + 1;
        pos[j] := ToUint16(points[i].z);
        j := j + 1;
        assert pos[..j] == done + PointRow(points[i]);
        PackedPositionsAppend(points, i);
      }
      assert points[..|points|] == points;
      assert pos[..j] == pos[..];
    }
  }

  /** The triangle loop of the constructor: a fresh Uint16 buffer of three values per
      triangle, components [0], [1], [2] in that order, with no check of any index
      against the vertex list. An empty list gives an empty buffer. */
  method PackIndices(triangles: seq<seq<int>>) returns (idx: array<int>)
    ensures fresh(idx)
    ensures idx[..] == PackedIndices(triangles)
  {
    idx := new int[0];
    if |triangles| > 0 {
      idx := new int[3 * |triangles|];
      var j := 0;
      for k := 0 to |triangles|
        invariant j == 3 * k
        invariant idx[..j] == PackedIndices(triangles[..k])
      {
        ghost var done := idx[..j];
        idx[j] := Component(triangles[k], 0);
        j := j + 1;
        idx[j] := Component(triangles[k], 1);
        j := j + 1;
        idx[j] := Component(triangles[k], 2);
        j := j + 1;
        assert idx[..j] == done + TriangleRow(triangles[k]);
        PackedIndicesAppend(triangles, k);
      }
      assert triangles[..|triangles|] == triangles;
      assert idx[..j] == idx[..];
    }
  }

  /** The element types Cesium's ComponentDatatype names. */
  datatype ComponentDatatype = Byte | UnsignedByte | Short | UnsignedShort | Float | Double

  /** The topologies Cesium's PrimitiveType names. */
  datatype PrimitiveType = Points | Lines | LineLoop | LineStrip | Triangles | TriangleStrip | TriangleFan

  /** A Cesium GeometryAttribute: how to read `values` as vertex data. `values` is the
      buffer itself, shared with the mesh, not a copy. */
  datatype GeometryAttribute = GeometryAttribute(
    componentDatatype: ComponentDatatype,
    componentsPerAttribute: nat,
    values: array<int>)

  /** A Cesium GeometryAttributes holding only the position attribute. */
  datatype GeometryAttributes = GeometryAttributes(position: GeometryAttribute)

  /** The bounding sphere Cesium computes from the position buffer. Its geometry is
      Cesium's business: the model keeps only the vertex values it was computed from. */
  datatype BoundingSphere = FromVertices(vertices: seq<int>)

  /** The geometry object a Mesh hands to Cesium. It starts as the empty object `{}` and
      CreateGeometry sets its four fields in place. */
  class Geometry {
    var attributes: Option<GeometryAttributes>
    var indices: Option<array<int>>
    var primitiveType: Option<PrimitiveType>
    var boundingSphere: Option<BoundingSphere>

    constructor ()
      ensures attributes == None && indices == None
      ensures primitiveType == None && boundingSphere == None
    {
      attributes := None;
      indices := None;
      primitiveType := None;
      boundingSphere := None;
    }
  }

  class Mesh {
    /** Vertex positions, three values (x, y, z) per vertex. */
    var positions: array<int>
    /** Triangle vertex indices, three values per triangle in winding order. */
    var indices: array<int>
    var geometry: Geometry

    /** Both buffers are whole triples of Uint16 values. */
    ghost predicate Valid()
      reads this, positions, indices
    {
      positions.Length % 3 == 0 && indices.Length % 3 == 0 &&
      (forall k :: 0 <= k < positions.Length ==> IsUint16(positions[k])) &&
      (forall n :: 0 <= n < indices.Length ==> IsUint16(indices[n]))
    }

    /** The geometry holds the mesh's own buffers: the position buffer read as three
        components per vertex, the index buffer, the triangle-list topology and the
        bounding sphere of the current positions. */
    ghost predicate Assembled()
      reads this, geometry, positions
    {
      geometry.attributes == Some(GeometryAttributes(GeometryAttribute(Double, 3, positions))) &&
      geometry.indices == Some(indices) &&
      geometry.primitiveType == Some(Triangles) &&
      geometry.boundingSphere == Some(FromVertices(positions[..]))
    }

    /** Packs the vertices and the triangles into two fresh Uint16 buffers, each filled
        by a cursor that advances once per value written. An empty list leaves an empty
        buffer. */
    constructor (points: seq<Point>, triangles: seq<seq<int>>)
      ensures Valid()
      ensures fresh(positions) && fresh(indices) && fresh(geometry)
      ensures positions != indices
      ensures positions[..] == PackedPositions(points)
      ensures indices[..] == PackedIndices(triangles)
      ensures geometry.attributes == None && geometry.indices == None
      ensures geometry.primitiveType == None && geometry.boundingSphere == None
    {
      var pos := PackPositions(points);
      var idx := PackIndices(triangles);
      PackedPositionsAt(points);
      PackedIndicesAt(triangles);
      positions := pos;
      indices := idx;
      geometry := new Geometry();
    }

    /** Fills in the geometry record from the mesh's buffers and returns that same
        record. The buffers are left as they are, so a second call writes the same
        values again. */
    method CreateGeometry() returns (g: Geometry)
      requires Valid()
      modifies geometry
      ensures g == geometry
      ensures Valid() && Assembled()
      ensures positions[..] == old(positions[..]) && indices[..] == old(indices[..])
      ensures old(Assembled()) ==> unchanged(geometry)
    {
      geometry.attributes := Some(GeometryAttributes(GeometryAttribute(Double, 3, positions)));
      geometry.indices := Some(indices);
      geometry.primitiveType := Some(Triangles);
      geometry.boundingSphere := Some(FromVertices(positions[..]));
      g := geometry;
    }
  }
}
