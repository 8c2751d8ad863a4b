/** The unmapped trajectory view: it draws the polyline straight from the
    waypoints' meter coordinates, without the coordinate mapper, and draws
    nothing else. Its POI is stored but never read. */
module EntitiyView {
  import opened Geometry
  import opened Canvas
  import opened Trajectories
  import EntityView

  /** The raw (x, y) of every waypoint, in trajectory order. */
  function RawVertices(points: seq<Waypoint>): (vs: seq<Pt>)
    ensures |vs| == |points|
    ensures forall k :: 0 <= k < |vs| ==> vs[k].x == points[k].x && vs[k].y == points[k].y
  {
    seq(|points|, k requires 0 <= k < |points| => points[k].Position())
  }

  /** Only x and y reach the path: trajectories that agree on positions give
      the same path whatever their altitudes and times. */
  lemma RawPathIgnoresAltitudeAndTime(p: seq<Waypoint>, q: seq<Waypoint>)
    requires |p| == |q|
    requires forall k :: 0 <= k < |p| ==> p[k].x == q[k].x && p[k].y == q[k].y
    ensures Polyline(RawVertices(p)) == Polyline(RawVertices(q))
  {
  }

  /** The two views build the same polyline up to the coordinate map: same
      number and kinds of operations, each vertex of the mapped view the
      pixel image of the matching raw vertex. */
  lemma RawAndMappedPathsCorrespond(f: ArenaFrame, points: seq<Waypoint>)
    requires f.Valid()
    ensures |Polyline(RawVertices(points))| == |Polyline(EntityView.MappedVertices(f, points))|
    ensures forall k :: 0 <= k < |points| ==>
      Polyline(RawVertices(points))[k].MoveTo? == Polyline(EntityView.MappedVertices(f, points))[k].MoveTo? &&
      f.ToPixels(Polyline(RawVertices(points))[k].to) == Polyline(EntityView.MappedVertices(f, points))[k].to
  {
  }

  class TrajectoryView {
    const trajectory: Trajectory
    const poi: Pt

    constructor (trajectory: Trajectory, poi: Pt)
      ensures this.trajectory == trajectory && this.poi == poi
    {
      this.trajectory := trajectory;
      this.poi := poi;
    }

    /** The polyline through the waypoints' raw coordinates. */
    method ComposePath() returns (path: seq<PathOp>)
      ensures path == Polyline(RawVertices(trajectory.points))
    {
      var pathPoints := trajectory.points;
      ghost var vs := RawVertices(pathPoints);
      if |pathPoints| == 0 {
        return [];
      }
      var initial := pathPoints[0];
      path := [MoveTo(Pt(initial.x, initial.y))];
      assert vs[..1] == [vs[0]];
      var i := 1;
      while i < |pathPoints|
        invariant 1 <= i <= |pathPoints|
        invariant path == Polyline(vs[..i])
      {
        var p := pathPoints[i];
        path := path + [LineTo(Pt(p.x, p.y))];
        PolylineSnoc(vs[..i], vs[i]);
        assert vs[..i + 1] == vs[..i] + [vs[i]];
        i := i + 1;
      }
      assert vs[..i] == vs;
    }

    /** The path alone: no segments, and nothing taken from the POI. */
    method Draw() returns (d: Drawing)
      ensures d == Drawing(Polyline(RawVertices(trajectory.points)), [])
    {
      var path := ComposePath();
      d := Drawing(path, []);
    }
  }
}
