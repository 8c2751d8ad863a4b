/** The trajectory view that draws in pixels: every waypoint is mapped
    through the canvas's coordinate mapper, and sparse "spokes" are drawn
    from sampled waypoints halfway towards the point of interest. */
module EntityView {
  import opened Geometry
  import opened Canvas
  import opened Trajectories

  /** The first sampled index and the distance between samples. */
  const SPOKE_FIRST: nat := 5
  const SPOKE_STRIDE: nat := 25

  /** How many indices 5, 30, 55, ... lie below n. */
  function SpokeCount(n: nat): (c: nat)
    ensures c == 0 <==> n <= SPOKE_FIRST
    ensures c > 0 ==> SPOKE_FIRST + SPOKE_STRIDE * (c - 1) < n <= SPOKE_FIRST + SPOKE_STRIDE * c
  {
    if n <= SPOKE_FIRST then 0 else (n - SPOKE_FIRST - 1) / SPOKE_STRIDE + 1
  }

  /** The waypoint indices that get a spoke, in drawing order. */
  function SpokeIndices(n: nat): seq<nat> {
    seq(SpokeCount(n), k => SPOKE_FIRST + SPOKE_STRIDE * k)
  }

  /** An index gets a spoke exactly when it is a valid index, at least 5,
      and 5 more than a multiple of 25. */
  lemma SpokeIndexIff(n: nat, i: int)
    ensures i in SpokeIndices(n) <==> 5 <= i < n && i % 25 == 5
  {
    var s := SpokeIndices(n);
    if 5 <= i < n && i % 25 == 5 {
      var k := (i - 5) / 25;
      assert i == 5 + 25 * k;
      assert k < SpokeCount(n);
      assert s[k] == i;
    }
  }

  /** The sampled indices for short and for 60-point trajectories. */
  lemma SpokeIndexExamples(n: nat)
    ensures n <= 5 ==> SpokeIndices(n) == []
    ensures SpokeIndices(60) == [5, 30, 55]
    ensures SpokeCount(6) == 1 && SpokeCount(30) == 1 && SpokeCount(31) == 2
  {
  }

  /** The pixel vertices of a trajectory, in trajectory order: vertex k is
      the pixel position whose meter image is waypoint k. */
  function MappedVertices(f: ArenaFrame, points: seq<Waypoint>): (vs: seq<Pt>)
    requires f.Valid()
    ensures |vs| == |points|
    ensures forall k :: 0 <= k < |vs| ==> f.ToMeters(vs[k]) == points[k].Position()
  {
    seq(|points|, k requires 0 <= k < |points| => f.ToPixels(points[k].Position()))
  }

  /** The segment from pixel point p to the midpoint between p and the POI:
      it covers half of the way from p to the POI, its end as far from p as
      from the POI in both coordinates. */
  function Spoke(poi: Pt, p: Pt): (s: Segment)
    ensures s.start == p
    ensures s.end.x - p.x == poi.x - s.end.x
    ensures s.end.y - p.y == poi.y - s.end.y
  {
    Segment(p, Pt((poi.x + p.x) / 2.0, (poi.y + p.y) / 2.0))
  }

  /** Every spoke, in drawing order: one per sampled index. */
  function Spokes(f: ArenaFrame, poi: Pt, points: seq<Waypoint>): (spokes: seq<Segment>)
    requires f.Valid()
    ensures |spokes| == SpokeCount(|points|)
  {
    var c := SpokeCount(|points|);
    seq(c, k requires 0 <= k < c => Spoke(poi, f.ToPixels(points[SPOKE_FIRST + SPOKE_STRIDE * k].Position())))
  }

  /** Each spoke starts on a vertex of the drawn path, the one of its
      sampled waypoint. */
  lemma SpokesStartOnPath(f: ArenaFrame, poi: Pt, points: seq<Waypoint>)
    requires f.Valid()
    ensures forall k :: 0 <= k < |Spokes(f, poi, points)| ==>
      SpokeIndices(|points|)[k] < |points| &&
      Spokes(f, poi, points)[k].start == Polyline(MappedVertices(f, points))[SpokeIndices(|points|)[k]].to
  {
    forall k | 0 <= k < SpokeCount(|points|)
      ensures SpokeIndices(|points|)[k] == SPOKE_FIRST + SPOKE_STRIDE * k
    {
      assert SpokeIndices(|points|)[k] == SPOKE_FIRST + SPOKE_STRIDE * k;
    }
  }

  class TrajectoryView {
    const trajectory: Trajectory
    const poi: Pt
    const drawingCanvas: AbstractCanvas

    constructor (trajectory: Trajectory, poi: Pt, drawingCanvas: AbstractCanvas)
      ensures this.trajectory == trajectory && this.poi == poi && this.drawingCanvas == drawingCanvas
    {
      this.trajectory := trajectory;
      this.poi := poi;
      this.drawingCanvas := drawingCanvas;
    }

    /** The polyline through the pixel images of the waypoints. */
    method ComposePath() returns (path: seq<PathOp>)
      requires drawingCanvas.Valid()
      ensures path == Polyline(MappedVertices(drawingCanvas.Frame(), trajectory.points))
    {
      var pathPoints := trajectory.points;
      ghost var vs := MappedVertices(drawingCanvas.Frame(), pathPoints);
      if |pathPoints| == 0 {
        return [];
      }
      var initial := pathPoints[0];
      path := [MoveTo(Pt(drawingCanvas.Frame().ToPixelsX(initial.x), drawingCanvas.Frame().ToPixelsY(initial.y)))];
      assert vs[..1] == [vs[0]];
      var i := 1;
      while i < |pathPoints|
        invariant 1 <= i <= |pathPoints|
        invariant path == Polyline(vs[..i])
      {
        var p := pathPoints[i];
        path := path + [LineTo(Pt(drawingCanvas.Frame().ToPixelsX(p.x), drawingCanvas.Frame().ToPixelsY(p.y)))];
        PolylineSnoc(vs[..i], vs[i]);
        assert vs[..i + 1] == vs[..i] + [vs[i]];
        i := i + 1;
      }
      assert vs[..i] == vs;
    }

    /** The path, then one spoke for each sampled waypoint. */
    method Draw() returns (d: Drawing)
      requires drawingCanvas.Valid()
      ensures d.path == Polyline(MappedVertices(drawingCanvas.Frame(), trajectory.points))
      ensures d.segments == Spokes(drawingCanvas.Frame(), poi, trajectory.points)
    {
      var path := ComposePath();
      var spokes := DrawSpokes(drawingCanvas.Frame(), trajectory.points);
      d := Drawing(path, spokes);
    }

    /** The spoke loop of `Draw`: indices 5, 30, 55, ... below the number of
        waypoints, each mapped to pixels and joined to the halfway point. */
    method DrawSpokes(f: ArenaFrame, pathPoints: seq<Waypoint>) returns (spokes: seq<Segment>)
      requires f.Valid()
      ensures spokes == Spokes(f, poi, pathPoints)
    {
      ghost var all := Spokes(f, poi, pathPoints);
      spokes := [];
      var i := SPOKE_FIRST;
      while i < |pathPoints|
        invariant i == SPOKE_FIRST + SPOKE_STRIDE * |spokes|
        invariant |spokes| <= |all|
        invariant spokes == all[..|spokes|]
        decreases |pathPoints| - i
      {
        var metersP := pathPoints[i];
        var x := f.ToPixelsX(metersP.x);
        var y := f.ToPixelsY(metersP.y);
        assert all[|spokes|] == Spoke(poi, Pt(x, y));
        spokes := spokes + [Spoke(poi, Pt(x, y))];
        i := i + SPOKE_STRIDE;
      }
    }
  }
}
