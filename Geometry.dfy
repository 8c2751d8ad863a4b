/** Plain values shared by the canvas, the touch handler and the trajectory views:
    pixel-space points, line segments, the operations of a drawn path, and an
    optional value for settings that may be absent. */
module Geometry {

  datatype Option<+T> = None | Some(value: T) {
    function GetOr(default: T): T {
      match this
      case Some(v) => v
      case None => default
    }
  }

  /** A 2D point (in pixels unless a caller says otherwise). */
  datatype Pt = Pt(x: real, y: real)

  /** One `drawLine` call: a straight segment from `start` to `end`. */
  datatype Segment = Segment(start: Pt, end: Pt)

  /** One operation recorded in a drawing path: `moveTo` starts a new
      contour at `to`, `lineTo` extends the current contour to `to`. */
  datatype PathOp = MoveTo(to: Pt) | LineTo(to: Pt)

  /** What one `draw` call puts on the canvas: one path and the extra
      segments drawn after it, in drawing order. */
  datatype Drawing = Drawing(path: seq<PathOp>, segments: seq<Segment>)

  /** The path obtained by starting a contour at the first vertex and drawing
      a line to each later vertex in turn; no vertices give the empty path. */
  function Polyline(vs: seq<Pt>): (path: seq<PathOp>)
    ensures |path| == |vs|
    ensures forall k :: 0 <= k < |path| ==> path[k].to == vs[k]
    ensures forall k :: 0 <= k < |path| ==> (path[k].MoveTo? <==> k == 0)
  {
    if vs == [] then []
    else [MoveTo(vs[0])] + seq(|vs| - 1, k requires 0 <= k < |vs| - 1 => LineTo(vs[k + 1]))
  }

  /** The vertices a path visits, in order. */
  function Vertices(path: seq<PathOp>): (vs: seq<Pt>)
    ensures |vs| == |path|
  {
    seq(|path|, k requires 0 <= k < |path| => path[k].to)
  }

  /** A polyline visits exactly the vertices it was built from, and a path
      that starts with one `moveTo` followed only by `lineTo`s is the
      polyline of its own vertices: the two are inverse to each other. */
  lemma PolylineVertices(vs: seq<Pt>)
    ensures Vertices(Polyline(vs)) == vs
  {
  }

  lemma VerticesPolyline(path: seq<PathOp>)
    requires forall k :: 0 <= k < |path| ==> (path[k].MoveTo? <==> k == 0)
    ensures Polyline(Vertices(path)) == path
  {
  }

  /** Adding one more vertex to a non-empty polyline adds exactly one
      `lineTo` at its end and leaves the earlier operations as they were. */
  lemma PolylineSnoc(vs: seq<Pt>, v: Pt)
    requires vs != []
    ensures Polyline(vs + [v]) == Polyline(vs) + [LineTo(v)]
  {
  }
}
