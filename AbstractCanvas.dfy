/** The drawing surface's coordinate mapper and background grid.

    Pixel space has its origin at the top-left corner of the canvas with y
    growing downwards; arena (meter) space has its origin at the centre of
    the canvas with y growing upwards. The four maps between the two are
    affine and depend on the arena's extents in meters and the canvas's
    extents in pixels. Single-precision floats are modelled as reals. */
module Canvas {
  import opened Geometry

  const DEFAULT_WIDTH_PIXELS: int := 1000
  const DEFAULT_HEIGHT_PIXELS: int := 1000
  const DEFAULT_WIDTH_METERS: real := 1.0
  const DEFAULT_LENGTH_METERS: real := 1.0

  /** A snapshot of the four extents the maps depend on. */
  datatype ArenaFrame = ArenaFrame(arenaWidth: real, arenaLength: real, canvasWidth: real, canvasLength: real)
  {
    /** Every map divides by an extent; none of them is defined for a zero one. */
    predicate Valid() {
      arenaWidth > 0.0 && arenaLength > 0.0 && canvasWidth > 0.0 && canvasLength > 0.0
    }

    /** Meters to pixels along x: the point lies the same fraction of the
        way across the canvas, from the left edge, as it lies across the
        arena from the arena's left edge. */
    function ToPixelsX(x: real): (px: real)
      requires Valid()
      ensures px / canvasWidth == (x + arenaWidth / 2.0) / arenaWidth
    {
      (canvasWidth / arenaWidth) * (x + 0.5 * arenaWidth)
    }

    /** Meters to pixels along y: the fraction of the way down from the
        canvas's top edge is the fraction of the way down from the arena's
        top edge (y flipped). */
    function ToPixelsY(y: real): (py: real)
      requires Valid()
      ensures py / canvasLength == (arenaLength / 2.0 - y) / arenaLength
    {
      (-canvasLength / arenaLength) * (y - 0.5 * arenaLength)
    }

    /** Pixels to meters along x: the same fractions, read the other way. */
    function ToMetersX(x: real): (mx: real)
      requires Valid()
      ensures (mx + arenaWidth / 2.0) / arenaWidth == x / canvasWidth
    {
      x * (arenaWidth / canvasWidth) - 0.5 * arenaWidth
    }

    /** Pixels to meters along y: the same fractions, read the other way. */
    function ToMetersY(y: real): (my: real)
      requires Valid()
      ensures (arenaLength / 2.0 - my) / arenaLength == y / canvasLength
    {
      y * (-arenaLength / canvasLength) + 0.5 * arenaLength
    }

    /** A point in meters mapped to pixels, coordinate by coordinate. */
    function ToPixels(p: Pt): Pt
      requires Valid()
    {
      Pt(ToPixelsX(p.x), ToPixelsY(p.y))
    }

    /** A point in pixels mapped to meters, coordinate by coordinate. */
    function ToMeters(p: Pt): Pt
      requires Valid()
    {
      Pt(ToMetersX(p.x), ToMetersY(p.y))
    }
  }

  // ---------------------------------------------------------------------
  // Properties of the four maps
  // ---------------------------------------------------------------------

  /** Pixels to meters and back is the identity on x. */
  lemma PixelsXRoundTrip(f: ArenaFrame, px: real)
    requires f.Valid()
    ensures f.ToPixelsX(f.ToMetersX(px)) == px
  {
  }

  /** Meters to pixels and back is the identity on x. */
  lemma MetersXRoundTrip(f: ArenaFrame, x: real)
    requires f.Valid()
    ensures f.ToMetersX(f.ToPixelsX(x)) == x
  {
  }

  /** Pixels to meters and back is the identity on y. */
  lemma PixelsYRoundTrip(f: ArenaFrame, py: real)
    requires f.Valid()
    ensures f.ToPixelsY(f.ToMetersY(py)) == py
  {
  }

  /** Meters to pixels and back is the identity on y. */
  lemma MetersYRoundTrip(f: ArenaFrame, y: real)
    requires f.Valid()
    ensures f.ToMetersY(f.ToPixelsY(y)) == y
  {
  }

  /** Both point maps are inverse to each other. */
  lemma PointRoundTrip(f: ArenaFrame, p: Pt)
    requires f.Valid()
    ensures f.ToPixels(f.ToMeters(p)) == p
    ensures f.ToMeters(f.ToPixels(p)) == p
  {
  }

  /** The meter origin is the centre of the canvas. */
  lemma OriginAtCentre(f: ArenaFrame)
    requires f.Valid()
    ensures f.ToPixelsX(0.0) == f.canvasWidth / 2.0
    ensures f.ToPixelsY(0.0) == f.canvasLength / 2.0
    ensures f.ToMeters(Pt(f.canvasWidth / 2.0, f.canvasLength / 2.0)) == Pt(0.0, 0.0)
  {
  }

  /** The left and right canvas edges are the arena's x-bounds. */
  lemma EdgesX(f: ArenaFrame)
    requires f.Valid()
    ensures f.ToMetersX(0.0) == -f.arenaWidth / 2.0
    ensures f.ToMetersX(f.canvasWidth) == f.arenaWidth / 2.0
  {
  }

  /** The top canvas edge is the arena's upper y-bound and the bottom edge
      its lower one: the y axis is flipped. */
  lemma EdgesY(f: ArenaFrame)
    requires f.Valid()
    ensures f.ToMetersY(0.0) == f.arenaLength / 2.0
    ensures f.ToMetersY(f.canvasLength) == -f.arenaLength / 2.0
  {
  }

  /** Moving right in meters moves right in pixels, and only then. */
  lemma PixelsXIncreasing(f: ArenaFrame, a: real, b: real)
    requires f.Valid()
    ensures a < b <==> f.ToPixelsX(a) < f.ToPixelsX(b)
  {
  }

  /** Moving up in meters moves up the screen, i.e. to a smaller pixel y,
      and only then. */
  lemma PixelsYDecreasing(f: ArenaFrame, a: real, b: real)
    requires f.Valid()
    ensures a < b <==> f.ToPixelsY(a) > f.ToPixelsY(b)
  {
  }

  /** A touch left of (right of) the canvas lands left of (right of) the
      arena; no map clamps its result to the arena. */
  lemma MetersXOutsideArena(f: ArenaFrame, px: real)
    requires f.Valid()
    ensures px < 0.0 <==> f.ToMetersX(px) < -f.arenaWidth / 2.0
    ensures px > f.canvasWidth <==> f.ToMetersX(px) > f.arenaWidth / 2.0
  {
  }

  /** A touch above (below) the canvas lands above (below) the arena. */
  lemma MetersYOutsideArena(f: ArenaFrame, py: real)
    requires f.Valid()
    ensures py < 0.0 <==> f.ToMetersY(py) > f.arenaLength / 2.0
    ensures py > f.canvasLength <==> f.ToMetersY(py) < -f.arenaLength / 2.0
  {
  }

  /** A 2 m by 2 m arena on a 1000 by 1000 pixel canvas. */
  lemma SquareArenaExample()
    ensures ArenaFrame(2.0, 2.0, 1000.0, 1000.0).Valid()
    ensures ArenaFrame(2.0, 2.0, 1000.0, 1000.0).ToMetersX(500.0) == 0.0
    ensures ArenaFrame(2.0, 2.0, 1000.0, 1000.0).ToMetersX(0.0) == -1.0
    ensures ArenaFrame(2.0, 2.0, 1000.0, 1000.0).ToMetersX(1000.0) == 1.0
    ensures ArenaFrame(2.0, 2.0, 1000.0, 1000.0).ToMetersY(0.0) == 1.0
    ensures ArenaFrame(2.0, 2.0, 1000.0, 1000.0).ToPixelsY(1.0) == 0.0
  {
  }

  // ---------------------------------------------------------------------
  // Gridlines
  // ---------------------------------------------------------------------

  /** The two paints of the grid: 4 px black for the axes through the
      origin, 2 px grey for the whole-meter lines. */
  datatype Pen = BoldBlack | ThinGray

  datatype GridLine = GridLine(seg: Segment, pen: Pen)

  function Abs(i: int): nat {
    if i < 0 then -i else i
  }

  /** The number of whole meters i >= 1 with i < extent / 2: how many times
      a loop `for (i = 1; i < extent / 2; i++)` runs. */
  function GridCount(extent: real): (n: nat)
    ensures n == 0 || (n as real) < extent / 2.0
    ensures extent / 2.0 <= (n + 1) as real
  {
    var h := extent / 2.0;
    if h <= 1.0 then 0
    else if h.Floor as real == h then h.Floor - 1
    else h.Floor
  }

  /** GridCount counts exactly the offsets the loop visits. */
  lemma GridOffsetIff(extent: real, i: int)
    ensures 1 <= i <= GridCount(extent) <==> 1 <= i && (i as real) < extent / 2.0
  {
  }

  /** The full-width horizontal line at `i` meters above the origin. */
  function HorizontalLine(f: ArenaFrame, i: int): (g: GridLine)
    requires f.Valid()
    ensures g.pen == ThinGray
    ensures g.seg.start.y == g.seg.end.y && f.ToMetersY(g.seg.start.y) == i as real
    ensures g.seg.start.x == 0.0 && g.seg.end.x == f.canvasWidth
  {
    var y := f.ToPixelsY(i as real);
    GridLine(Segment(Pt(0.0, y), Pt(f.canvasWidth, y)), ThinGray)
  }

  /** The full-height vertical line at `i` meters right of the origin. */
  function VerticalLine(f: ArenaFrame, i: int): (g: GridLine)
    requires f.Valid()
    ensures g.pen == ThinGray
    ensures g.seg.start.x == g.seg.end.x && f.ToMetersX(g.seg.start.x) == i as real
    ensures g.seg.start.y == 0.0 && g.seg.end.y == f.canvasLength
  {
    var x := f.ToPixelsX(i as real);
    GridLine(Segment(Pt(x, 0.0), Pt(x, f.canvasLength)), ThinGray)
  }

  /** The bold axes, each drawn twice, in drawing order. */
  function OriginLines(f: ArenaFrame): (lines: seq<GridLine>)
    requires f.Valid()
    ensures |lines| == 4
    ensures forall k :: 0 <= k < 2 ==>
      lines[k] == GridLine(Segment(Pt(0.0, f.canvasLength / 2.0), Pt(f.canvasWidth, f.canvasLength / 2.0)), BoldBlack)
    ensures forall k :: 2 <= k < 4 ==>
      lines[k] == GridLine(Segment(Pt(f.canvasWidth / 2.0, 0.0), Pt(f.canvasWidth / 2.0, f.canvasLength)), BoldBlack)
  {
    OriginAtCentre(f);
    var y0 := f.ToPixelsY(0.0);
    var x0 := f.ToPixelsX(0.0);
    var horizontal := GridLine(Segment(Pt(0.0, y0), Pt(f.canvasWidth, y0)), BoldBlack);
    var vertical := GridLine(Segment(Pt(x0, 0.0), Pt(x0, f.canvasLength)), BoldBlack);
    [horizontal, horizontal, vertical, vertical]
  }

  /** The thin horizontal lines for offsets 1..n, each as the pair +i, -i. */
  function HorizontalLines(f: ArenaFrame, n: nat): (lines: seq<GridLine>)
    requires f.Valid()
    ensures |lines| == 2 * n
    ensures forall g :: g in lines ==> g.pen == ThinGray && g.seg.start.y == g.seg.end.y
    ensures forall g :: g in lines ==> g.seg.start.x == 0.0 && g.seg.end.x == f.canvasWidth
  {
    if n == 0 then [] else HorizontalLines(f, n - 1) + [HorizontalLine(f, n), HorizontalLine(f, -(n as int))]
  }

  /** The thin vertical lines for offsets 1..n, each as the pair +i, -i. */
  function VerticalLines(f: ArenaFrame, n: nat): (lines: seq<GridLine>)
    requires f.Valid()
    ensures |lines| == 2 * n
    ensures forall g :: g in lines ==> g.pen == ThinGray && g.seg.start.x == g.seg.end.x
    ensures forall g :: g in lines ==> g.seg.start.y == 0.0 && g.seg.end.y == f.canvasLength
  {
    if n == 0 then [] else VerticalLines(f, n - 1) + [VerticalLine(f, n), VerticalLine(f, -(n as int))]
  }

  /** Everything the background grid draws, in drawing order. */
  function GridLines(f: ArenaFrame): (lines: seq<GridLine>)
    requires f.Valid()
    ensures |lines| == 4 + 2 * GridCount(f.arenaLength) + 2 * GridCount(f.arenaWidth)
    ensures forall k :: 0 <= k < 4 ==> lines[k].pen == BoldBlack
    ensures forall k :: 4 <= k < |lines| ==> lines[k].pen == ThinGray
  {
    OriginLines(f) + HorizontalLines(f, GridCount(f.arenaLength)) + VerticalLines(f, GridCount(f.arenaWidth))
  }

  lemma {:induction false} HorizontalLinesMember(f: ArenaFrame, n: nat, i: int)
    requires f.Valid()
    ensures HorizontalLine(f, i) in HorizontalLines(f, n) <==> 1 <= Abs(i) <= n
  {
    if n > 0 {
      HorizontalLinesMember(f, n - 1, i);
      PixelsYDecreasing(f, i as real, n as real);
      PixelsYDecreasing(f, n as real, i as real);
      PixelsYDecreasing(f, i as real, -(n as int) as real);
      PixelsYDecreasing(f, -(n as int) as real, i as real);
      assert HorizontalLines(f, n) == HorizontalLines(f, n - 1) + [HorizontalLine(f, n), HorizontalLine(f, -(n as int))];
    }
  }

  lemma {:induction false} VerticalLinesMember(f: ArenaFrame, n: nat, i: int)
    requires f.Valid()
    ensures VerticalLine(f, i) in VerticalLines(f, n) <==> 1 <= Abs(i) <= n
  {
    if n > 0 {
      VerticalLinesMember(f, n - 1, i);
      PixelsXIncreasing(f, i as real, n as real);
      PixelsXIncreasing(f, n as real, i as real);
      PixelsXIncreasing(f, i as real, -(n as int) as real);
      PixelsXIncreasing(f, -(n as int) as real, i as real);
      assert VerticalLines(f, n) == VerticalLines(f, n - 1) + [VerticalLine(f, n), VerticalLine(f, -(n as int))];
    }
  }

  /** A thin horizontal line is drawn at `i` meters exactly when
      1 <= |i| < arenaLength / 2. */
  lemma HorizontalGridlineIff(f: ArenaFrame, i: int)
    requires f.Valid()
    ensures HorizontalLine(f, i) in GridLines(f) <==> 1 <= Abs(i) && (Abs(i) as real) < f.arenaLength / 2.0
  {
    var h := HorizontalLine(f, i);
    var nh := GridCount(f.arenaLength);
    var nv := GridCount(f.arenaWidth);
    HorizontalLinesMember(f, nh, i);
    GridOffsetIff(f.arenaLength, Abs(i));
    assert h !in OriginLines(f);
    assert h !in VerticalLines(f, nv);
    assert GridLines(f) == OriginLines(f) + (HorizontalLines(f, nh) + VerticalLines(f, nv));
  }

  /** A thin vertical line is drawn at `i` meters exactly when
      1 <= |i| < arenaWidth / 2. */
  lemma VerticalGridlineIff(f: ArenaFrame, i: int)
    requires f.Valid()
    ensures VerticalLine(f, i) in GridLines(f) <==> 1 <= Abs(i) && (Abs(i) as real) < f.arenaWidth / 2.0
  {
    var v := VerticalLine(f, i);
    var nh := GridCount(f.arenaLength);
    var nv := GridCount(f.arenaWidth);
    VerticalLinesMember(f, nv, i);
    GridOffsetIff(f.arenaWidth, Abs(i));
    assert v !in OriginLines(f);
    assert v !in HorizontalLines(f, nh);
  }

  // ---------------------------------------------------------------------
  // The canvas object
  // ---------------------------------------------------------------------

  class AbstractCanvas {
    var arenaLength: real
    var arenaWidth: real
    var canvasLength: real
    var canvasWidth: real

    /** The extents as they are now; every map reads them afresh. */
    function Frame(): ArenaFrame
      reads this
    {
      ArenaFrame(arenaWidth, arenaLength, canvasWidth, canvasLength)
    }

    predicate Valid()
      reads this
    {
      Frame().Valid()
    }

    /** A 1000 by 1000 pixel canvas over the stored arena extents, each
        falling back to 1 m when no value is stored. */
    constructor (storedArenaWidth: Option<real>, storedArenaLength: Option<real>)
      requires storedArenaWidth.Some? ==> storedArenaWidth.value > 0.0
      requires storedArenaLength.Some? ==> storedArenaLength.value > 0.0
      ensures Valid()
      ensures arenaWidth == (if storedArenaWidth.Some? then storedArenaWidth.value else DEFAULT_WIDTH_METERS)
      ensures arenaLength == (if storedArenaLength.Some? then storedArenaLength.value else DEFAULT_LENGTH_METERS)
      ensures canvasWidth == DEFAULT_WIDTH_PIXELS as real && canvasLength == DEFAULT_HEIGHT_PIXELS as real
    {
      arenaWidth := storedArenaWidth.GetOr(DEFAULT_WIDTH_METERS);
      arenaLength := storedArenaLength.GetOr(DEFAULT_LENGTH_METERS);
      canvasWidth := DEFAULT_WIDTH_PIXELS as real;
      canvasLength := DEFAULT_HEIGHT_PIXELS as real;
    }

    /** A resize replaces the canvas extents and keeps the arena's. */
    method OnSizeChanged(newWidth: int, newHeight: int, oldWidth: int, oldHeight: int)
      requires Valid()
      requires newWidth > 0 && newHeight > 0
      modifies this
      ensures Valid()
      ensures Frame() == ArenaFrame(old(arenaWidth), old(arenaLength), newWidth as real, newHeight as real)
    {
      canvasWidth := newWidth as real;
      canvasLength := newHeight as real;
    }

    /** The background grid: the two axes, then the horizontal and the
        vertical whole-meter lines. */
    method DrawGridlines() returns (lines: seq<GridLine>)
      requires Valid()
      ensures lines == GridLines(Frame())
    {
      var f := Frame();
      var y0 := f.ToPixelsY(0.0);
      var x0 := f.ToPixelsX(0.0);
      lines := [GridLine(Segment(Pt(0.0, y0), Pt(canvasWidth, y0)), BoldBlack)];
      lines := lines + [GridLine(Segment(Pt(0.0, y0), Pt(canvasWidth, y0)), BoldBlack)];
      lines := lines + [GridLine(Segment(Pt(x0, 0.0), Pt(x0, canvasLength)), BoldBlack)];
      lines := lines + [GridLine(Segment(Pt(x0, 0.0), Pt(x0, canvasLength)), BoldBlack)];
      assert lines == OriginLines(f);

      var horizontal := DrawHorizontalGridlines();
      var vertical := DrawVerticalGridlines();
      lines := lines + horizontal + vertical;
    }

    /** The loop over horizontal whole-meter lines, each offset i drawn
        above and then below the origin. */
    method DrawHorizontalGridlines() returns (lines: seq<GridLine>)
      requires Valid()
      ensures lines == HorizontalLines(Frame(), GridCount(arenaLength))
    {
      var f := Frame();
      ghost var nh := GridCount(arenaLength);
      lines := [];
      var i: int := 1;
      while (i as real) < arenaLength / 2.0
        invariant 1 <= i <= nh + 1
        invariant lines == HorizontalLines(f, i - 1)
        decreases nh + 1 - i
      {
        GridOffsetIff(arenaLength, i);
        var above := f.ToPixelsY(i as real);
        var below := f.ToPixelsY((-i) as real);
        lines := lines + [GridLine(Segment(Pt(0.0, above), Pt(canvasWidth, above)), ThinGray)];
        lines := lines + [GridLine(Segment(Pt(0.0, below), Pt(canvasWidth, below)), ThinGray)];
        assert HorizontalLines(f, i) == HorizontalLines(f, i - 1) + [HorizontalLine(f, i), HorizontalLine(f, -i)];
        i := i + 1;
      }
      GridOffsetIff(arenaLength, i);
    }

    /** The loop over vertical whole-meter lines, each offset i drawn
        right and then left of the origin. */
    method DrawVerticalGridlines() returns (lines: seq<GridLine>)
      requires Valid()
      ensures lines == VerticalLines(Frame(), GridCount(arenaWidth))
    {
      var f := Frame();
      ghost var nv := GridCount(arenaWidth);
      lines := [];
      var i: int := 1;
      while (i as real) < arenaWidth / 2.0
        invariant 1 <= i <= nv + 1
        invariant lines == VerticalLines(f, i - 1)
        decreases nv + 1 - i
      {
        GridOffsetIff(arenaWidth, i);
        var right := f.ToPixelsX(i as real);
        var left := f.ToPixelsX((-i) as real);
        lines := lines + [GridLine(Segment(Pt(right, 0.0), Pt(right, canvasLength)), ThinGray)];
        lines := lines + [GridLine(Segment(Pt(left, 0.0), Pt(left, canvasLength)), ThinGray)];
        assert VerticalLines(f, i) == VerticalLines(f, i - 1) + [VerticalLine(f, i), VerticalLine(f, -i)];
        i := i + 1;
      }
      GridOffsetIff(arenaWidth, i);
    }
  }
}
