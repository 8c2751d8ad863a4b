/** The trajectory being drawn: an ordered list of waypoints in meters and
    the altitude given to every point appended from now on. */
module Trajectories {
  import opened Geometry

  /** A waypoint in arena meters. Points appended by touch have no time. */
  datatype Waypoint = Waypoint(x: real, y: real, altitude: real, time: Option<real>)
  {
    /** The horizontal position, the only part a path is drawn from. */
    function Position(): Pt {
      Pt(x, y)
    }
  }

  class Trajectory {
    var points: seq<Waypoint>
    var altitude: real

    constructor (altitude: real)
      ensures points == [] && this.altitude == altitude
    {
      points := [];
      this.altitude := altitude;
    }

    /** Appends one waypoint; nothing else changes. */
    method AddPoint(w: Waypoint)
      modifies this
      ensures points == old(points) + [w]
      ensures altitude == old(altitude)
    {
      points := points + [w];
    }
  }
}
