/** The touch-move strategy that turns a drag into trajectory waypoints:
    every move event is converted from pixels to meters and appended. */
module Controller {
  import opened Geometry
  import opened Canvas
  import opened Trajectories

  /** The waypoint one move event at pixel (px, py) appends, when the
      trajectory's altitude is `altitude`. */
  function TouchPoint(f: ArenaFrame, altitude: real, px: real, py: real): (w: Waypoint)
    requires f.Valid()
    ensures f.ToPixels(w.Position()) == Pt(px, py)
    ensures w.altitude == altitude && w.time == None
  {
    Waypoint(f.ToMetersX(px), f.ToMetersY(py), altitude, None)
  }

  /** The point list after one handled event for each touch, in order,
      starting from `points`. Handling keeps the altitude and the canvas as
      they are, so every step uses the same frame and altitude. */
  function Replay(f: ArenaFrame, altitude: real, points: seq<Waypoint>, touches: seq<Pt>): seq<Waypoint>
    requires f.Valid()
    decreases |touches|
  {
    if touches == [] then points
    else Replay(f, altitude, points + [TouchPoint(f, altitude, touches[0].x, touches[0].y)], touches[1..])
  }

  class DrawingMoveTouchHandler {
    const trajectory: Trajectory

    constructor (trajectory: Trajectory)
      ensures this.trajectory == trajectory
    {
      this.trajectory := trajectory;
    }

    /** Converts the touch to meters and appends it, unconditionally, with
        the trajectory's current altitude. */
    method Handle(pixelX: real, pixelY: real, canvas: AbstractCanvas)
      requires canvas.Valid()
      modifies trajectory
      ensures trajectory.points == old(trajectory.points) + [TouchPoint(canvas.Frame(), old(trajectory.altitude), pixelX, pixelY)]
      ensures trajectory.altitude == old(trajectory.altitude)
    {
      var f := canvas.Frame();
      var meterX := f.ToMetersX(pixelX);
      var meterY := f.ToMetersY(pixelY);
      trajectory.AddPoint(Waypoint(meterX, meterY, trajectory.altitude, None));
    }
  }

  /** The appended waypoint sits at the meter position of the touch, carries
      the trajectory's altitude, and is drawn back exactly under the finger. */
  lemma TouchPointMeaning(f: ArenaFrame, altitude: real, px: real, py: real)
    requires f.Valid()
    ensures TouchPoint(f, altitude, px, py).Position() == f.ToMeters(Pt(px, py))
    ensures TouchPoint(f, altitude, px, py).altitude == altitude
    ensures f.ToPixels(TouchPoint(f, altitude, px, py).Position()) == Pt(px, py)
  {
  }

  /** No clamping: a touch outside the canvas gives a waypoint outside the
      arena, and a touch on the canvas one inside it. */
  lemma TouchPointOutsideArena(f: ArenaFrame, altitude: real, px: real, py: real)
    requires f.Valid()
    ensures var w := TouchPoint(f, altitude, px, py);
      (0.0 <= px <= f.canvasWidth && 0.0 <= py <= f.canvasLength)
      <==>
      (-f.arenaWidth / 2.0 <= w.x <= f.arenaWidth / 2.0 && -f.arenaLength / 2.0 <= w.y <= f.arenaLength / 2.0)
  {
  }

  /** n handled events append exactly n waypoints after the old ones, the
      k-th made from the k-th touch: no deduplication, no reordering. */
  lemma {:induction false} ReplayAppendsInOrder(f: ArenaFrame, altitude: real, points: seq<Waypoint>, touches: seq<Pt>)
    requires f.Valid()
    ensures |Replay(f, altitude, points, touches)| == |points| + |touches|
    ensures Replay(f, altitude, points, touches)[..|points|] == points
    ensures forall k :: 0 <= k < |touches| ==>
      Replay(f, altitude, points, touches)[|points| + k] == TouchPoint(f, altitude, touches[k].x, touches[k].y)
    decreases |touches|
  {
    if touches != [] {
      var t := touches[0];
      var next := points + [TouchPoint(f, altitude, t.x, t.y)];
      ReplayAppendsInOrder(f, altitude, next, touches[1..]);
      var r := Replay(f, altitude, points, touches);
      assert r == Replay(f, altitude, next, touches[1..]);
      assert r[..|points|] == next[..|next|][..|points|];
      forall k | 0 <= k < |touches|
        ensures r[|points| + k] == TouchPoint(f, altitude, touches[k].x, touches[k].y)
      {
        if k > 0 {
          assert r[|next| + (k - 1)] == TouchPoint(f, altitude, touches[1..][k - 1].x, touches[1..][k - 1].y);
        } else {
          assert r[..|next|] == next;
        }
      }
    }
  }

  /** The same touch repeated n times appends n equal waypoints. */
  lemma RepeatedTouchIsNotDeduplicated(f: ArenaFrame, altitude: real, points: seq<Waypoint>, t: Pt, n: nat)
    requires f.Valid()
    ensures Replay(f, altitude, points, seq(n, _ => t)) == points + seq(n, _ => TouchPoint(f, altitude, t.x, t.y))
  {
    var touches := seq(n, _ => t);
    var expected := points + seq(n, _ => TouchPoint(f, altitude, t.x, t.y));
    var r := Replay(f, altitude, points, touches);
    ReplayAppendsInOrder(f, altitude, points, touches);
    assert |r| == |expected|;
    forall k | 0 <= k < |r| ensures r[k] == expected[k] {
      if k < |points| {
        assert r[k] == r[..|points|][k];
      } else {
        assert r[|points| + (k - |points|)] == TouchPoint(f, altitude, touches[k - |points|].x, touches[k - |points|].y);
      }
    }
  }

  /** One more handled event extends the replay by that event's waypoint,
      which is what Handle does to the point list. */
  lemma {:induction false} ReplayStep(f: ArenaFrame, altitude: real, points: seq<Waypoint>, touches: seq<Pt>, t: Pt)
    requires f.Valid()
    ensures Replay(f, altitude, points, touches + [t])
         == Replay(f, altitude, points, touches) + [TouchPoint(f, altitude, t.x, t.y)]
    decreases |touches|
  {
    if touches == [] {
      assert Replay(f, altitude, points, [t]) == Replay(f, altitude, points + [TouchPoint(f, altitude, t.x, t.y)], []);
    } else {
      var next := points + [TouchPoint(f, altitude, touches[0].x, touches[0].y)];
      assert (touches + [t])[1..] == touches[1..] + [t];
      ReplayStep(f, altitude, next, touches[1..], t);
    }
  }
}
