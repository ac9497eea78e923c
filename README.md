# atlas-cesium Mesh: geometry packing, modelled in Dafny

atlas-cesium's `Mesh` (model/Mesh.js) turns a list of vertices `{x, y, z}` and a list of
triangles (each indexable as `[0]`, `[1]`, `[2]`) into the two flat buffers Cesium draws
from. `_positions` holds three values per vertex, and `_indices` holds three vertex indices
per triangle in winding order. Both are `Uint16Array`s, filled in place by a write cursor
`j` that advances once per value. `createGeometry` then fills in the mesh's geometry record
in place and returns it. That record holds the position attribute (three components per
vertex, sharing the `_positions` buffer), the index buffer, the `TRIANGLES` topology and a
bounding sphere.

The project has two modules:

- `PackedBuffers` (packed_buffers.dfy) covers the Uint16 store (`ToUint16`, reduction
  modulo 2^16). It also covers flat buffers made of rows of three: `Concat` is what the
  cursor writes and `Chunks` groups a buffer back into triples. It proves the index
  relation (element `3*i + c` is entry `c` of row `i`), that every stored value is a
  Uint16, and that grouping undoes flattening.
- `CesiumMesh` (cesium_mesh.dfy) holds the vertices (`Point`), the specification
  functions `PackedPositions` and `PackedIndices`, and their lemmas. It also holds the
  fill loops `PackPositions` and `PackIndices` proved against those functions, the
  Cesium geometry record as a class (`Geometry`), and the `Mesh` class with its
  constructor and `CreateGeometry`.

Modelling choices:

- Coordinates and indices are integers (`int`). Writing one into a buffer stores
  `v % 65536`, which is ECMAScript's ToUint16 for integers (Dafny's `%` with a positive
  divisor never gives a negative remainder).
- A triangle is a `seq<int>`. A missing component reads as `undefined` and is stored as 0.
  Components past `[2]` are never read.
- The two fill loops of the constructor are written as the methods `PackPositions` and
  `PackIndices`, which the constructor calls. They are the same loops, with the same
  cursor, in the same order.
- The bounding sphere is the symbolic value `FromVertices(positions)`. It records only
  that Cesium computed it from the current position values.
- The code checks no index, so no index is checked here either. An index at or beyond
  the vertex count is packed as it stands, and a negative one wraps round (-1 is stored
  as 65535). The code raises no error for out-of-range indices or for triangles without
  exactly three components, and the model follows the code.

## Model

| member | source | states |
|---|---|---|
| `PackedBuffers.ToUint16` | model/Mesh.js:46-51 | the value a Uint16Array element holds after an integer is assigned: always in [0, 65535], congruent to the input modulo 2^16, and equal to the input when the input already fits |
| `PackedBuffers.ConcatAppend` | model/Mesh.js:47-52 | writing one more row of values at the cursor appends exactly that row to the buffer written so far |
| `PackedBuffers.ConcatTriplesAt` | model/Mesh.js:47-52 | a buffer written three values per row is three times as long as the row list, and its element 3*i + c is entry c of row i |
| `PackedBuffers.ConcatUint16` | model/Mesh.js:46-52 | a buffer written from Uint16 values holds only values in [0, 65535] |
| `PackedBuffers.Chunks` | model/Mesh.js:55-60 | grouping a buffer of length divisible by 3 into consecutive triples gives |buf|/3 rows of three whose concatenation is the buffer again |
| `PackedBuffers.ChunksOfConcat` | model/Mesh.js:55-60 | grouping a buffer written from rows of three gives exactly those rows back (flattening loses nothing) |
| `CesiumMesh.StoredPoint` | model/Mesh.js:49-51 | the vertex as the position buffer keeps it has every coordinate in [0, 65535], and a vertex whose coordinates already fit is kept unchanged |
| `CesiumMesh.Component` | model/Mesh.js:66-68 | component c of a triangle as stored: always in [0, 65535], the component itself when it fits, and 0 when the triangle has no component c |
| `CesiumMesh.UnpackPositions` | model/Mesh.js:38-42 | reading a position buffer back as vertices gives |buf|/3 vertices, vertex i being (buf[3i], buf[3i+1], buf[3i+2]) as x, y, z |
| `CesiumMesh.PackedPositionsAt` | model/Mesh.js:44-53 | the position buffer has length exactly 3n for n vertices (0 for none); elements 3i, 3i+1 and 3i+2 are vertex i's x, y and z stored as Uint16; every element is in [0, 65535] |
| `CesiumMesh.PackedIndicesAt` | model/Mesh.js:61-70 | the index buffer has length exactly 3m for m triangles (0 for none); element 3k+c is component c of triangle k stored as Uint16, preserving winding order; every element is in [0, 65535] |
| `CesiumMesh.TriangleRowOfUint16` | model/Mesh.js:66-68 | a triangle of exactly three Uint16 indices is stored as it stands, whatever vertices it names |
| `CesiumMesh.TriangleRowsOfUint16` | model/Mesh.js:65-69 | a list of triangles of three Uint16 indices each is stored row for row exactly as given |
| `CesiumMesh.UnpackPackedPositions` | model/Mesh.js:38-53 | reading the position buffer back gives one vertex per input vertex, each with its coordinates reduced modulo 2^16; vertices whose coordinates fit come back exactly |
| `CesiumMesh.ChunksOfPackedIndices` | model/Mesh.js:55-70 | grouping the index buffer into triples gives, per triangle, its first three components as stored (0 when missing, later ones dropped); triangles of three Uint16 indices come back exactly, whatever vertices they name |
| `CesiumMesh.SamePositionBuffer` | model/Mesh.js:46-52 | two vertex lists give the same position buffer if and only if they have the same length and agree vertex by vertex modulo 2^16 |
| `CesiumMesh.PackedPositionsAppend` | model/Mesh.js:48-51 | one iteration of the vertex loop appends that vertex's x, y, z (as stored) to the buffer |
| `CesiumMesh.PackedIndicesAppend` | model/Mesh.js:65-68 | one iteration of the triangle loop appends that triangle's components [0], [1], [2] (as stored) to the buffer |
| `CesiumMesh.UnitTriangleExample` | model/Mesh.js:44-70 | vertices (0,0,0), (1,0,0), (0,1,0) pack to [0,0,0,1,0,0,0,1,0] and the triangle (0,1,2) packs to [0,1,2] |
| `CesiumMesh.UncheckedIndicesExample` | model/Mesh.js:61-70 | with two vertices, the triangle (0,1,5) is packed as [0,1,5] rather than rejected; index -1 is stored as 65535, a missing third component as 0, and a fourth component is dropped |
| `CesiumMesh.PackPositions` | model/Mesh.js:44-53 | the vertex loop fills a fresh buffer whose content is exactly PackedPositions of the vertices (empty for no vertices); the cursor is 3i after i vertices |
| `CesiumMesh.PackIndices` | model/Mesh.js:61-70 | the triangle loop fills a fresh buffer whose content is exactly PackedIndices of the triangles (empty for no triangles); the cursor is 3k after k triangles |
| `CesiumMesh.Geometry.constructor` | model/Mesh.js:84 | the geometry record starts as the empty object: none of its four fields is set |
| `CesiumMesh.Mesh.constructor` | model/Mesh.js:37-85 | a new mesh owns fresh, distinct position and index buffers holding PackedPositions and PackedIndices of its inputs, both whole triples of Uint16 values, and an empty geometry record |
| `CesiumMesh.Mesh.CreateGeometry` | model/Mesh.js:122-136 | returns the mesh's own geometry record, now holding the position buffer itself as a DOUBLE-labelled attribute of 3 components, the index buffer itself, TRIANGLES and the bounding sphere of the current positions; the buffers are unchanged, and a second call changes nothing |

## Left out

- `Mesh.prototype.createPrimitive` (model/Mesh.js:89-120) is not modelled. It is scene wiring in Cesium: floating-point ellipsoid and east-north-up transforms, matrix scaling, construction of `GeometryInstance` and `Primitive`, a `console.debug` call, and a change to the scene's primitive collection reached through an ambient widget.
- `BoundingSphere.fromVertices` is Cesium's floating-point geometry. The model keeps its result as an uninterpreted value of the positions it was given.
- Fractional and non-finite coordinates are not modelled: ToUint16's truncation of reals and NaN becoming 0 are floating-point behaviour, so inputs are integers.
- The `ComponentDatatype.DOUBLE` label on a Uint16 buffer (model/Mesh.js:125) is recorded as the constant `Double`. Nothing tries to reconcile it with the buffer's element type.
- `for…in` also enumerates non-index properties of its arrays. The model iterates over the indices 0 to n-1 only.
- Vertices missing one of `x`, `y`, `z` are not modelled: every `Point` has all three.
- For an empty input list the source keeps the plain empty array `[]` rather than a `Uint16Array`. The model uses an empty `array<int>` in both cases.
- The fields `_location` and `_modelMatrix` are set to empty objects and never read by the core, so they are not modelled.
- CesiumMesh.Mesh.CreateGeometry: the source builds new `GeometryAttribute` and `GeometryAttributes` objects on every call. The model treats them as values, so a second call's attributes are equal to the first's rather than being new objects with equal contents.
- The `extend(MeshCore, Mesh)` inheritance wiring (model/Mesh.js:86) is not modelled, nor is model/Feature.js, which only forwards to the Polygon and Mesh classes.
- Gruntfile.js is not modelled: it is build tooling that shells out to bower and ant and copies files.
