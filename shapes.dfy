/**
 * The shapes drawable of src/components/drawables/shapes.rs: a manifest list
 * of shapes, each filled or stroked with a colour, turned into one coffee
 * `Mesh`.  A mesh is modelled by the list of drawing operations added to it,
 * in order.
 */
module ShapeDrawables {
  import opened Wrappers
  import opened Load
  import S = Sprites

  const SHAPES_LOAD_ID := "shapes"

  datatype PaintType = Fill | Stroke(width: real)

  /** `Description`: a colour and how it is painted. */
  datatype Description = Description(r: real, g: real, b: real, a: real, paintType: PaintType)

  function GetColor(d: Description): (c: S.Color)
    ensures c.r == d.r && c.g == d.g && c.b == d.b && c.a == d.a
  {
    S.Color(d.r, d.g, d.b, d.a)
  }

  /** `get_stroke_width`: the width exactly when the description strokes. */
  function GetStrokeWidth(d: Description): (r: Option<real>)
    ensures r.Some? <==> d.paintType.Stroke?
    ensures r.Some? ==> r.value == d.paintType.width
  {
    if d.paintType.Stroke? then Some(d.paintType.width) else None
  }

  /** `ShapeJSON`: points are written as pairs. */
  datatype ShapeJson =
    | RectangleJson(x: real, y: real, width: real, height: real)
    | CircleJson(center: (real, real), radius: real)
    | EllipseJson(center: (real, real), horizontalRadius: real, verticalRadius: real, rotation: real)
    | PolylineJson(points: seq<(real, real)>)

  datatype MeshJson = MeshJson(shape: ShapeJson, description: Description)

  datatype ShapesJson = ShapesJson(shapes: seq<MeshJson>)

  /** coffee's `Shape`. */
  datatype Shape =
    | Rectangle(x: real, y: real, width: real, height: real)
    | Circle(center: S.Point, radius: real)
    | Ellipse(center: S.Point, horizontalRadius: real, verticalRadius: real, rotation: real)
    | Polyline(points: seq<S.Point>)

  /** One call on the mesh: `stroke(shape, color, width)` or `fill(shape, color)`. */
  datatype MeshOp = StrokeOp(shape: Shape, color: S.Color, width: real) | FillOp(shape: Shape, color: S.Color)

  /** coffee's `Mesh`, as the operations added to it since `Mesh::new()`. */
  datatype Mesh = Mesh(ops: seq<MeshOp>)

  /** `Point::from([x, y])`. */
  function PointFrom(p: (real, real)): S.Point
  {
    S.Point(p.0, p.1)
  }

  function PointsFrom(ps: seq<(real, real)>): (r: seq<S.Point>)
    ensures |r| == |ps|
    ensures forall i :: 0 <= i < |ps| ==> r[i] == PointFrom(ps[i])
  {
    seq(|ps|, i requires 0 <= i < |ps| => PointFrom(ps[i]))
  }

  /** The `match` on the manifest shape in `From<&ShapesJSON>`. */
  function ShapeFrom(json: ShapeJson): (r: Shape)
    ensures ShapeJsonOf(r) == json
  {
    match json
    case RectangleJson(x, y, w, h) => Rectangle(x, y, w, h)
    case CircleJson(c, radius) => Circle(PointFrom(c), radius)
    case EllipseJson(c, hr, vr, rot) => Ellipse(PointFrom(c), hr, vr, rot)
    case PolylineJson(points) =>
      var shape := Polyline(PointsFrom(points));
      assert ShapeJsonOf(shape).points == points;
      shape
  }

  /** The manifest form of a shape: the inverse of `ShapeFrom`. */
  function ShapeJsonOf(s: Shape): ShapeJson
  {
    match s
    case Rectangle(x, y, w, h) => RectangleJson(x, y, w, h)
    case Circle(c, radius) => CircleJson((c.x, c.y), radius)
    case Ellipse(c, hr, vr, rot) => EllipseJson((c.x, c.y), hr, vr, rot)
    case Polyline(points) => PolylineJson(seq(|points|, i requires 0 <= i < |points| => (points[i].x, points[i].y)))
  }

  /** The conversion keeps the kind of shape and every number in it, so it loses nothing. */
  lemma ShapeRoundTrip(json: ShapeJson, s: Shape)
    ensures ShapeJsonOf(ShapeFrom(json)) == json
    ensures ShapeFrom(ShapeJsonOf(s)) == s
  {
    if json.PolylineJson? {
      assert ShapeJsonOf(ShapeFrom(json)).points == json.points;
    }
    if s.Polyline? {
      assert ShapeFrom(ShapeJsonOf(s)).points == s.points;
    }
  }

  /** The operation one manifest entry adds: a stroke exactly when its paint type strokes. */
  function MeshOpFrom(entry: MeshJson): (op: MeshOp)
    ensures op.StrokeOp? <==> GetStrokeWidth(entry.description).Some?
    ensures op.StrokeOp? ==> op.width == GetStrokeWidth(entry.description).value
    ensures op.shape == ShapeFrom(entry.shape) && op.color == GetColor(entry.description)
  {
    var shape := ShapeFrom(entry.shape);
    match entry.description.paintType
    case Stroke(width) => StrokeOp(shape, GetColor(entry.description), width)
    case Fill => FillOp(shape, GetColor(entry.description))
  }

  /** The operations of the entries, in manifest order. */
  function MeshOps(entries: seq<MeshJson>): (r: seq<MeshOp>)
    ensures |r| == |entries|
    ensures forall i :: 0 <= i < |entries| ==> r[i] == MeshOpFrom(entries[i])
  {
    if entries == [] then [] else MeshOps(entries[..|entries| - 1]) + [MeshOpFrom(entries[|entries| - 1])]
  }

  /** The mesh holds one operation per manifest entry, the `i`th made from the `i`th entry. */
  lemma {:induction false} MeshOpsPointwise(entries: seq<MeshJson>, i: int)
    requires 0 <= i < |entries|
    ensures |MeshOps(entries)| == |entries|
    ensures MeshOps(entries)[i] == MeshOpFrom(entries[i])
  {
    var n := |entries| - 1;
    MeshOpsLength(entries[..n]);
    if i < n {
      MeshOpsPointwise(entries[..n], i);
    }
  }

  lemma {:induction false} MeshOpsLength(entries: seq<MeshJson>)
    ensures |MeshOps(entries)| == |entries|
  {
    if entries != [] {
      MeshOpsLength(entries[..|entries| - 1]);
    }
  }

  /** Shapes listed after others are drawn after them: appending entries appends operations. */
  lemma {:induction false} MeshOpsAppend(xs: seq<MeshJson>, ys: seq<MeshJson>)
    ensures MeshOps(xs + ys) == MeshOps(xs) + MeshOps(ys)
  {
    if ys != [] {
      var n := |ys| - 1;
      assert (xs + ys)[..|xs + ys| - 1] == xs + ys[..n];
      MeshOpsAppend(xs, ys[..n]);
    } else {
      assert xs + ys == xs;
    }
  }

  /** `From<&ShapesJSON> for Shapes`: a new mesh, and one stroke or fill per entry. */
  method ShapesFrom(json: ShapesJson) returns (mesh: Mesh)
    ensures mesh == Mesh(MeshOps(json.shapes))
  {
    mesh := Mesh([]);
    for i := 0 to |json.shapes|
      invariant mesh == Mesh(MeshOps(json.shapes[..i]))
    {
      var entry := json.shapes[i];
      var shape := ShapeFrom(entry.shape);
      var op;
      if entry.description.paintType.Stroke? {
        op := StrokeOp(shape, GetColor(entry.description), entry.description.paintType.width);
      } else {
        op := FillOp(shape, GetColor(entry.description));
      }
      assert json.shapes[..i + 1][..i] == json.shapes[..i];
      mesh := Mesh(mesh.ops + [op]);
    }
    assert json.shapes[..|json.shapes|] == json.shapes;
  }

  /** `ShapesLoader`; `deserialize(value, id)` is `load_deserializable_from_json`. */
  class ShapesLoader {
    var shapesJson: ShapesJson

    /** `from_json` after a successful deserialisation. */
    constructor(shapesJson: ShapesJson)
      ensures this.shapesJson == shapesJson
    {
      this.shapesJson := shapesJson;
    }

    /** `load_component`: the `Shapes` component given to the entity builder. */
    method LoadComponent() returns (mesh: Mesh)
      ensures mesh == Mesh(MeshOps(shapesJson.shapes))
    {
      mesh := ShapesFrom(shapesJson);
    }

    /** `set_value`: a failed deserialisation is passed on and leaves `shapes_json` as it was. */
    method SetValue(newValue: JsonLoad, deserialize: (JsonLoad, string) -> Result<ShapesJson, LoadError>)
      returns (r: Result<(), LoadError>)
      modifies this
      ensures r.Ok? <==> deserialize(newValue, SHAPES_LOAD_ID).Ok?
      ensures r.Ok? ==> shapesJson == deserialize(newValue, SHAPES_LOAD_ID).value
      ensures r.Err? ==> shapesJson == old(shapesJson) && r.error == deserialize(newValue, SHAPES_LOAD_ID).error
    {
      var parsed := deserialize(newValue, SHAPES_LOAD_ID);
      if parsed.Err? {
        return Err(parsed.error);
      }
      shapesJson := parsed.value;
      return Ok(());
    }

    function GetComponentName(): (r: string)
      ensures r == SHAPES_LOAD_ID && r == "shapes"
    {
      SHAPES_LOAD_ID
    }
  }
}
