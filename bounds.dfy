/** The bounding box of everything a nest holds: a min/max scan over the
    start and end points of every primitive and over the reference points of
    the nest's texts, rounded up. Arc centres and curvature are not scanned. */
module Bounds {
  import opened Options
  import opened Entities
  import opened Placement

  /** The four accumulators of the scan. */
  datatype Extent = Extent(minWidth: real, maxWidth: real, minHeight: real, maxHeight: real)

  /** `System.Drawing.Rectangle`. */
  datatype Rectangle = Rectangle(x: int, y: int, width: int, height: int)

  /** One point through the four comparisons. `None` stands for the initial
      `double.MaxValue`/`double.MinValue` sentinels, which the first point
      replaces in every accumulator. */
  function Include(e: Option<Extent>, p: Point): Extent
  {
    match e
    case None => Extent(p.x, p.x, p.y, p.y)
    case Some(b) =>
      Extent(if p.x < b.minWidth then p.x else b.minWidth,
             if p.x > b.maxWidth then p.x else b.maxWidth,
             if p.y < b.minHeight then p.y else b.minHeight,
             if p.y > b.maxHeight then p.y else b.maxHeight)
  }

  /** The accumulators after the points, in order. */
  function Scan(e: Option<Extent>, pts: seq<Point>): Option<Extent>
  {
    if pts == [] then e else Some(Include(Scan(e, pts[..|pts| - 1]), pts[|pts| - 1]))
  }

  /** Start then end of each primitive, in order. */
  function GeometryPoints(gs: seq<Geometry>): (r: seq<Point>)
    ensures |r| == 2 * |gs|
    ensures forall i :: 0 <= i < |gs| ==> r[2 * i] == gs[i].start && r[2 * i + 1] == gs[i].end
  {
    if gs == [] then [] else GeometryPoints(gs[..|gs| - 1]) + [gs[|gs| - 1].start, gs[|gs| - 1].end]
  }

  /** The scanned points of some primitives are exactly their starts and ends. */
  lemma GeometryPointsMembers(gs: seq<Geometry>, p: Point)
    ensures p in GeometryPoints(gs) <==> exists g :: g in gs && (p == g.start || p == g.end)
  {
    var r := GeometryPoints(gs);
    if p in r {
      var k :| 0 <= k < |r| && r[k] == p;
      var j := k / 2;
      if k % 2 == 0 { assert k == 2 * j; } else { assert k == 2 * j + 1; }
      assert gs[j] in gs;
    }
    if exists g :: g in gs && (p == g.start || p == g.end) {
      var g :| g in gs && (p == g.start || p == g.end);
      var j :| 0 <= j < |gs| && gs[j] == g;
      assert r[2 * j] == g.start && r[2 * j + 1] == g.end;
    }
  }

  function TextPoints(ts: seq<TextProfile>): (r: seq<Point>)
    ensures |r| == |ts|
    ensures forall i :: 0 <= i < |ts| ==> r[i] == ts[i].referencePoint
  {
    if ts == [] then [] else TextPoints(ts[..|ts| - 1]) + [ts[|ts| - 1].referencePoint]
  }

  /** Every point the bounding box scans, in the order of the five loops:
      the plate, the remnants, the original remnants, the parts, the texts. */
  function ScannedPoints(plate: Plate, remnants: seq<Remnant>, originals: seq<Remnant>,
                         parts: seq<Part>, texts: seq<TextProfile>): seq<Point>
  {
    GeometryPoints(ProfileGeometry(plate.profiles)) +
    GeometryPoints(ProfileGeometry(RemnantProfiles(remnants))) +
    GeometryPoints(ProfileGeometry(RemnantProfiles(originals))) +
    GeometryPoints(ProfileGeometry(PartProfiles(parts))) +
    TextPoints(texts)
  }

  /** `e` is the tight box of `pts`: every point lies within it, and each of
      its four bounds is a coordinate of some point. */
  ghost predicate Tight(pts: seq<Point>, e: Extent)
  {
    (forall p :: p in pts ==> e.minWidth <= p.x <= e.maxWidth && e.minHeight <= p.y <= e.maxHeight) &&
    (exists p :: p in pts && p.x == e.minWidth) &&
    (exists p :: p in pts && p.x == e.maxWidth) &&
    (exists p :: p in pts && p.y == e.minHeight) &&
    (exists p :: p in pts && p.y == e.maxHeight)
  }

  /** Scanning from the sentinels yields the tight box of the points. */
  lemma {:induction false} ScanIsTight(pts: seq<Point>)
    requires pts != []
    ensures Scan(None, pts).Some? && Tight(pts, Scan(None, pts).value)
  {
    var init, last := pts[..|pts| - 1], pts[|pts| - 1];
    assert pts == init + [last];
    if init == [] {
      assert pts == [last];
    } else {
      ScanIsTight(init);
      IncludeKeepsTight(init, Scan(None, init).value, last);
    }
  }

  /** One more point through the comparisons keeps the box tight. */
  lemma IncludeKeepsTight(init: seq<Point>, b: Extent, last: Point)
    requires Tight(init, b)
    ensures Tight(init + [last], Include(Some(b), last))
  {
    var e, pts := Include(Some(b), last), init + [last];
    assert last in pts;
    assert forall p :: p in init ==> p in pts;
    if e.minWidth != last.x {
      var p :| p in init && p.x == b.minWidth;
      assert p in pts;
    }
    if e.maxWidth != last.x {
      var p :| p in init && p.x == b.maxWidth;
      assert p in pts;
    }
    if e.minHeight != last.y {
      var p :| p in init && p.y == b.minHeight;
      assert p in pts;
    }
    if e.maxHeight != last.y {
      var p :| p in init && p.y == b.maxHeight;
      assert p in pts;
    }
  }

  /** One more point never shrinks the box; a point beyond a bound moves
      that bound onto it; a point inside the box leaves it as it was. */
  lemma ScanGrowsOutward(pts: seq<Point>, p: Point)
    requires pts != []
    ensures Scan(None, pts).Some? && Scan(None, pts + [p]).Some?
    ensures var b, e := Scan(None, pts).value, Scan(None, pts + [p]).value;
      && e.minWidth <= b.minWidth && e.maxWidth >= b.maxWidth
      && e.minHeight <= b.minHeight && e.maxHeight >= b.maxHeight
      && (p.x < b.minWidth ==> e.minWidth == p.x) && (p.x > b.maxWidth ==> e.maxWidth == p.x)
      && (p.y < b.minHeight ==> e.minHeight == p.y) && (p.y > b.maxHeight ==> e.maxHeight == p.y)
      && (b.minWidth <= p.x <= b.maxWidth && b.minHeight <= p.y <= b.maxHeight ==> e == b)
  {
    assert (pts + [p])[..|pts|] == pts;
  }

  /** A tight box is unique. */
  lemma TightUnique(pts: seq<Point>, e1: Extent, e2: Extent)
    requires Tight(pts, e1) && Tight(pts, e2)
    ensures e1 == e2
  {
  }

  /** The scan does not depend on the order, or the repetition, of the points. */
  lemma ScanOrderIndependent(a: seq<Point>, b: seq<Point>)
    requires a != [] && forall p :: p in a <==> p in b
    ensures Scan(None, a) == Scan(None, b)
  {
    ScanIsTight(a);
    assert b != [] by { assert a[0] in b; }
    ScanIsTight(b);
    var ea, eb := Scan(None, a).value, Scan(None, b).value;
    assert Tight(b, ea);
    TightUnique(b, ea, eb);
  }

  /** Consecutive loops continue from where the previous one stopped. */
  lemma {:induction false} ScanAppend(e: Option<Extent>, a: seq<Point>, b: seq<Point>)
    ensures Scan(e, a + b) == Scan(Scan(e, a), b)
  {
    if b == [] {
      assert a + b == a;
    } else {
      var b' := b[..|b| - 1];
      assert (a + b)[..|a + b| - 1] == a + b';
      assert (a + b)[|a + b| - 1] == b[|b| - 1];
      ScanAppend(e, a, b');
    }
  }

  /** The placement pass moves no start or end point, so it leaves the points
      the bounding box scans over the parts unchanged. */
  lemma {:induction false} PlacementKeepsPartPoints(ps: seq<Part>, transform: (Matrix33, Point) -> Point)
    ensures GeometryPoints(ProfileGeometry(PartProfiles(PlaceAll(ps, transform)))) ==
            GeometryPoints(ProfileGeometry(PartProfiles(ps)))
  {
    if ps != [] {
      var init, last := ps[..|ps| - 1], ps[|ps| - 1];
      var placed, placedInit := PlaceAll(ps, transform), PlaceAll(init, transform);
      var q := Place(last, transform);
      assert placed[..|placed| - 1] == placedInit;
      assert PartProfiles(placed) == PartProfiles(placedInit) + q.profiles;
      PlacementKeepsPartPoints(init, transform);
      ProfileGeometryAppend(PartProfiles(placedInit), q.profiles);
      ProfileGeometryAppend(PartProfiles(init), last.profiles);
      GeometryPointsAppend(ProfileGeometry(PartProfiles(placedInit)), ProfileGeometry(q.profiles));
      GeometryPointsAppend(ProfileGeometry(PartProfiles(init)), ProfileGeometry(last.profiles));
      PlaceKeepsPoints(last, transform);
    }
  }

  lemma PlaceKeepsPoints(p: Part, transform: (Matrix33, Point) -> Point)
    ensures GeometryPoints(ProfileGeometry(Place(p, transform).profiles)) == GeometryPoints(ProfileGeometry(p.profiles))
  {
    if Mirrored(p.matrix) {
      ProfilesKeepPoints(FlipProfiles(p.profiles), p.profiles);
    }
  }

  lemma {:induction false} GeometryPointsAppend(a: seq<Geometry>, b: seq<Geometry>)
    ensures GeometryPoints(a + b) == GeometryPoints(a) + GeometryPoints(b)
  {
    if b == [] {
      assert a + b == a;
    } else {
      var b' := b[..|b| - 1];
      assert (a + b)[..|a + b| - 1] == a + b';
      assert (a + b)[|a + b| - 1] == b[|b| - 1];
      GeometryPointsAppend(a, b');
    }
  }

  /** Profiles whose primitives agree on start and end points, one for one,
      yield the same scanned points. */
  lemma {:induction false} ProfilesKeepPoints(a: seq<Profile>, b: seq<Profile>)
    requires |a| == |b|
    requires forall i :: 0 <= i < |a| ==>
               |a[i].geometry| == |b[i].geometry| &&
               forall j :: 0 <= j < |a[i].geometry| ==>
                 a[i].geometry[j].start == b[i].geometry[j].start && a[i].geometry[j].end == b[i].geometry[j].end
    ensures GeometryPoints(ProfileGeometry(a)) == GeometryPoints(ProfileGeometry(b))
  {
    if a != [] {
      var a', b' := a[..|a| - 1], b[..|b| - 1];
      var ga, gb := a[|a| - 1].geometry, b[|b| - 1].geometry;
      ProfilesKeepPoints(a', b');
      GeometryPointsAppend(ProfileGeometry(a'), ga);
      GeometryPointsAppend(ProfileGeometry(b'), gb);
      GeometryKeepsPoints(ga, gb);
    }
  }

  lemma GeometryKeepsPoints(ga: seq<Geometry>, gb: seq<Geometry>)
    requires |ga| == |gb|
    requires forall j :: 0 <= j < |ga| ==> ga[j].start == gb[j].start && ga[j].end == gb[j].end
    ensures GeometryPoints(ga) == GeometryPoints(gb)
  {
    var pa, pb := GeometryPoints(ga), GeometryPoints(gb);
    forall k | 0 <= k < |pa| ensures pa[k] == pb[k] {
      var j := k / 2;
      if k % 2 == 0 { assert k == 2 * j; } else { assert k == 2 * j + 1; }
    }
  }

  /** `(int)Math.Ceiling(r)`: the least integer not below `r`. */
  function Ceil(r: real): (c: int)
    ensures c as real - 1.0 < r <= c as real
  {
    if r.Floor as real == r then r.Floor else r.Floor + 1
  }

  /** The rectangle of a box: origin rounded up, extent rounded up. */
  function BoxOf(e: Extent): (r: Rectangle)
    requires e.minWidth <= e.maxWidth && e.minHeight <= e.maxHeight
    ensures r.width >= 0 && r.height >= 0
    ensures r.x as real - 1.0 < e.minWidth <= r.x as real && r.y as real - 1.0 < e.minHeight <= r.y as real
    ensures r.width as real - 1.0 < e.maxWidth - e.minWidth <= r.width as real
    ensures r.height as real - 1.0 < e.maxHeight - e.minHeight <= r.height as real
  {
    Rectangle(Ceil(e.minWidth), Ceil(e.minHeight), Ceil(e.maxWidth - e.minWidth), Ceil(e.maxHeight - e.minHeight))
  }

  /** One of the four geometry loops: the start and then the end of each
      primitive through the comparisons. */
  method ScanGeometry(e: Option<Extent>, gs: seq<Geometry>) returns (r: Option<Extent>)
    ensures r == Scan(e, GeometryPoints(gs))
  {
    r := e;
    for k := 0 to |gs|
      invariant r == Scan(e, GeometryPoints(gs[..k]))
    {
      var g := gs[k];
      var before := GeometryPoints(gs[..k]);
      assert gs[..k + 1][..k] == gs[..k];
      assert GeometryPoints(gs[..k + 1]) == before + [g.start, g.end];
      assert (before + [g.start, g.end])[..|before| + 1] == before + [g.start];
      assert (before + [g.start])[..|before|] == before;
      r := Some(Include(r, g.start));
      r := Some(Include(r, g.end));
    }
    assert gs[..|gs|] == gs;
  }

  /** The loop over the nest's texts. */
  method ScanTexts(e: Option<Extent>, ts: seq<TextProfile>) returns (r: Option<Extent>)
    ensures r == Scan(e, TextPoints(ts))
  {
    r := e;
    for k := 0 to |ts|
      invariant r == Scan(e, TextPoints(ts[..k]))
    {
      assert ts[..k + 1][..k] == ts[..k];
      assert TextPoints(ts[..k + 1])[..k] == TextPoints(ts[..k]);
      r := Some(Include(r, ts[k].referencePoint));
    }
    assert ts[..|ts|] == ts;
  }
}
