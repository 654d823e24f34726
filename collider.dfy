/**
 * `create_collider_for_mesh`: the static triangle-mesh collision geometry
 * built from a loaded mesh's position and index buffers.
 */
module ColliderBuilder {
  import opened Wrappers

  type U16 = n: nat | n < 0x1_0000
  type U32 = n: nat | n < 0x1_0000_0000

  /** One `[f32; 3]` entry of a position buffer. */
  type Vertex = (real, real, real)

  /** The formats a vertex attribute buffer can be stored in. */
  datatype VertexAttributeValues =
    | Float3(vertices: seq<Vertex>)
    | OtherFormat(format: string)  // Float, Float2, Float4, Int*, Uint*, Uchar4Norm

  /** A mesh's index buffer. */
  datatype Indices = U16(u16: seq<U16>) | U32(u32: seq<U32>)

  /** The parts of a mesh the builder reads. */
  datatype Mesh = Mesh(positions: Option<VertexAttributeValues>, indices: Option<Indices>)

  /** nalgebra's `Point3<f32>`. */
  datatype Point3 = Point3(x: real, y: real, z: real)

  /** nalgebra's `Point3<u32>` used as a triangle: three vertex indices. */
  datatype Triangle = Triangle(a: U32, b: U32, c: U32)

  /** The geometry handed to the physics library's trimesh collider. */
  datatype TriMesh = TriMesh(points: seq<Point3>, triangles: seq<Triangle>)

  /** The panics of the builder's `unwrap`s and of indexing a short last chunk. */
  datatype MeshError =
    | MissingPositions
    | PositionsNotFloat3
    | MissingIndices
    | IndicesNotU32
    | IncompleteTriangle

  function PointOf(v: Vertex): Point3 { Point3(v.0, v.1, v.2) }

  /** The position buffer mapped to points, one per vertex, in order. */
  function ToPoints(vertices: seq<Vertex>): (points: seq<Point3>)
    ensures |points| == |vertices|
    ensures forall k :: 0 <= k < |vertices| ==> points[k] == PointOf(vertices[k])
  {
    if vertices == [] then [] else [PointOf(vertices[0])] + ToPoints(vertices[1..])
  }

  /** The coordinates of each point, in order: the inverse of `ToPoints`. */
  function Coordinates(points: seq<Point3>): seq<Vertex>
  {
    if points == [] then [] else [(points[0].x, points[0].y, points[0].z)] + Coordinates(points[1..])
  }

  /** Converting to points loses no coordinate and reorders nothing. */
  lemma {:induction false} PointsRoundTrip(vertices: seq<Vertex>)
    ensures Coordinates(ToPoints(vertices)) == vertices
  {
    if vertices != [] {
      PointsRoundTrip(vertices[1..]);
      assert ToPoints(vertices)[1..] == ToPoints(vertices[1..]);
    }
  }

  /**
   * `chunks(3).map(|tri| Point3::new(tri[0], tri[1], tri[2]))`: consecutive
   * triples of the index buffer, or `None` when a short last chunk is indexed
   * out of bounds.
   */
  function Triangulate(indices: seq<U32>): (r: Option<seq<Triangle>>)
    ensures r.Some? <==> |indices| % 3 == 0
    ensures r.Some? ==> |r.value| * 3 == |indices|
    ensures r.Some? ==> forall k :: 0 <= k < |r.value| ==>
              r.value[k] == Triangle(indices[3 * k], indices[3 * k + 1], indices[3 * k + 2])
    decreases |indices|
  {
    if indices == [] then Some([])
    else if |indices| < 3 then None
    else match Triangulate(indices[3..])
      case None => None
      case Some(rest) =>
        var tris := [Triangle(indices[0], indices[1], indices[2])] + rest;
        assert forall k :: 1 <= k < |tris| ==> tris[k] == rest[k - 1];
        Some(tris)
  }

  /** The index buffer a triangle list is laid out in. */
  function Flatten(triangles: seq<Triangle>): seq<U32>
  {
    if triangles == [] then []
    else [triangles[0].a, triangles[0].b, triangles[0].c] + Flatten(triangles[1..])
  }

  /** Cutting a laid-out triangle list into triples gives back the list. */
  lemma {:induction false} TriangulateFlatten(triangles: seq<Triangle>)
    ensures Triangulate(Flatten(triangles)) == Some(triangles)
  {
    if triangles != [] {
      var flat := Flatten(triangles);
      assert flat[3..] == Flatten(triangles[1..]);
      TriangulateFlatten(triangles[1..]);
      assert triangles == [triangles[0]] + triangles[1..];
    }
  }

  /** Laying out the triangles cut from an index buffer gives back the buffer. */
  lemma {:induction false} FlattenTriangulate(indices: seq<U32>)
    requires Triangulate(indices).Some?
    ensures Flatten(Triangulate(indices).value) == indices
    decreases |indices|
  {
    if indices != [] {
      FlattenTriangulate(indices[3..]);
      assert indices == indices[..3] + indices[3..];
    }
  }

  /** `create_collider_for_mesh`, with its panics as errors. */
  function CreateColliderForMesh(mesh: Mesh): Result<TriMesh, MeshError>
  {
    match mesh.positions
    case None => Err(MissingPositions)
    case Some(OtherFormat(_)) => Err(PositionsNotFloat3)
    case Some(Float3(vertices)) =>
      var points := ToPoints(vertices);
      match mesh.indices
      case None => Err(MissingIndices)
      case Some(U16(_)) => Err(IndicesNotU32)
      case Some(U32(indices)) =>
        match Triangulate(indices)
        case None => Err(IncompleteTriangle)
        case Some(triangles) => Ok(TriMesh(points, triangles))
  }

  /** A mesh the builder accepts: float triples and a whole number of u32 triangles. */
  predicate WellFormed(mesh: Mesh)
  {
    && mesh.positions.Some? && mesh.positions.value.Float3?
    && mesh.indices.Some? && mesh.indices.value.U32?
    && |mesh.indices.value.u32| % 3 == 0
  }

  /** The builder succeeds exactly on well-formed meshes. */
  lemma CreateColliderSucceedsIff(mesh: Mesh)
    ensures CreateColliderForMesh(mesh).Ok? <==> WellFormed(mesh)
  {
  }

  /**
   * The four ways the builder fails, in the order it checks them: positions
   * missing, positions not float triples, indices missing or not u32, and an
   * index count that is not a multiple of three.
   */
  lemma CreateColliderErrors(mesh: Mesh)
    ensures mesh.positions.None? ==> CreateColliderForMesh(mesh) == Err(MissingPositions)
    ensures mesh.positions.Some? && mesh.positions.value.OtherFormat? ==>
              CreateColliderForMesh(mesh) == Err(PositionsNotFloat3)
    ensures mesh.positions.Some? && mesh.positions.value.Float3? ==>
              && (mesh.indices.None? ==> CreateColliderForMesh(mesh) == Err(MissingIndices))
              && (mesh.indices.Some? && mesh.indices.value.U16? ==> CreateColliderForMesh(mesh) == Err(IndicesNotU32))
              && (mesh.indices.Some? && mesh.indices.value.U32? && |mesh.indices.value.u32| % 3 != 0 ==>
                    CreateColliderForMesh(mesh) == Err(IncompleteTriangle))
  {
  }

  /**
   * On success the geometry has one point per vertex and one triangle per
   * index triple, both in input order, and neither is altered: the vertex
   * and index buffers can be read back from it.
   */
  lemma CreateColliderRoundTrip(mesh: Mesh)
    requires WellFormed(mesh)
    ensures CreateColliderForMesh(mesh).Ok?
    ensures var g := CreateColliderForMesh(mesh).value;
      && |g.points| == |mesh.positions.value.vertices|
      && |g.triangles| * 3 == |mesh.indices.value.u32|
      && Coordinates(g.points) == mesh.positions.value.vertices
      && Flatten(g.triangles) == mesh.indices.value.u32
  {
    PointsRoundTrip(mesh.positions.value.vertices);
    FlattenTriangulate(mesh.indices.value.u32);
  }
}
