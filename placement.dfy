/** The pass over the resolved parts that follows resolution: arc senses are
    flipped on mirrored placements, and part texts are re-anchored through the
    part's matrix. Geometry coordinates are left untransformed. */
module Placement {
  import opened Options
  import opened Entities

  /** The new sense of a flipped arc: "CW" if it was "CCW", "CCW" otherwise. */
  function FlipDirection(d: string): (r: string)
    ensures r == "CW" <==> d == "CCW"
    ensures r == "CW" || r == "CCW"
  {
    if d == "CCW" then "CW" else "CCW"
  }

  /** A placement is mirrored when its coefficient 8 is negative. */
  predicate Mirrored(m: Matrix33)
  {
    m.m8 < 0.0
  }

  /** One primitive of a mirrored part: arcs change sense, nothing else changes. */
  function FlipArc(g: Geometry): (r: Geometry)
    ensures r.Line? <==> g.Line?
    ensures r.start == g.start && r.end == g.end
    ensures g.Line? ==> r == g
    ensures g.Arc? ==> r.center == g.center && r.direction == FlipDirection(g.direction)
  {
    match g
    case Line(_, _) => g
    case Arc(s, e, c, d) => Arc(s, e, c, FlipDirection(d))
  }

  function FlipArcs(gs: seq<Geometry>): (r: seq<Geometry>)
    ensures |r| == |gs|
    ensures forall i :: 0 <= i < |gs| ==> r[i] == FlipArc(gs[i])
  {
    if gs == [] then [] else FlipArcs(gs[..|gs| - 1]) + [FlipArc(gs[|gs| - 1])]
  }

  /** Every profile of a mirrored part, with its arcs flipped and its
      technology data kept. */
  function FlipProfiles(ps: seq<Profile>): (r: seq<Profile>)
    ensures |r| == |ps|
    ensures forall i :: 0 <= i < |ps| ==> r[i].tech == ps[i].tech && r[i].geometry == FlipArcs(ps[i].geometry)
  {
    if ps == [] then []
    else
      var p := ps[|ps| - 1];
      FlipProfiles(ps[..|ps| - 1]) + [p.(geometry := FlipArcs(p.geometry))]
  }

  /** The texts of a part once placed: each takes the part's matrix, and its
      reference point is the transform of the point it had. */
  function Reanchor(ts: seq<TextProfile>, m: Matrix33, transform: (Matrix33, Point) -> Point): (r: seq<TextProfile>)
    ensures |r| == |ts|
    ensures forall i :: 0 <= i < |ts| ==>
              r[i].matrix == Some(m) && r[i].referencePoint == transform(m, ts[i].referencePoint) &&
              r[i].text == ts[i].text
  {
    if ts == [] then []
    else
      var t := ts[|ts| - 1];
      Reanchor(ts[..|ts| - 1], m, transform) + [t.(matrix := Some(m), referencePoint := transform(m, t.referencePoint))]
  }

  /** One part after the pass. */
  function Place(p: Part, transform: (Matrix33, Point) -> Point): Part
  {
    Part(p.matrix,
         if Mirrored(p.matrix) then FlipProfiles(p.profiles) else p.profiles,
         Reanchor(p.texts, p.matrix, transform),
         p.detailId)
  }

  /** What the pass does to one part: the matrix and detail text are kept;
      profiles keep their number, technology data and primitives one for one;
      every primitive keeps its kind and its start, end and centre; an arc's
      sense is flipped exactly when the placement is mirrored; every text is
      re-anchored once through the part's matrix and keeps its string. */
  lemma PlaceSpec(p: Part, transform: (Matrix33, Point) -> Point)
    ensures var q := Place(p, transform);
      && q.matrix == p.matrix && q.detailId == p.detailId
      && |q.profiles| == |p.profiles|
      && (forall i :: 0 <= i < |p.profiles| ==>
            q.profiles[i].tech == p.profiles[i].tech &&
            |q.profiles[i].geometry| == |p.profiles[i].geometry| &&
            forall j :: 0 <= j < |p.profiles[i].geometry| ==>
              var g, h := p.profiles[i].geometry[j], q.profiles[i].geometry[j];
              && (h.Line? <==> g.Line?) && h.start == g.start && h.end == g.end
              && (g.Line? ==> h == g)
              && (g.Arc? ==> h.center == g.center &&
                             h.direction == if Mirrored(p.matrix) then FlipDirection(g.direction) else g.direction))
      && |q.texts| == |p.texts|
      && (forall l :: 0 <= l < |p.texts| ==>
            q.texts[l].matrix == Some(p.matrix) &&
            q.texts[l].referencePoint == transform(p.matrix, p.texts[l].referencePoint) &&
            q.texts[l].text == p.texts[l].text)
  {
  }

  /** Every part after the pass, each on its own. */
  function PlaceAll(ps: seq<Part>, transform: (Matrix33, Point) -> Point): (r: seq<Part>)
    ensures |r| == |ps|
    ensures forall i :: 0 <= i < |ps| ==> r[i] == Place(ps[i], transform)
  {
    if ps == [] then [] else PlaceAll(ps[..|ps| - 1], transform) + [Place(ps[|ps| - 1], transform)]
  }

  /** Flipping twice restores every primitive whose sense is "CW" or "CCW". */
  lemma FlipArcsTwice(gs: seq<Geometry>)
    requires forall g :: g in gs && g.Arc? ==> g.direction == "CW" || g.direction == "CCW"
    ensures FlipArcs(FlipArcs(gs)) == gs
  {
    var r := FlipArcs(FlipArcs(gs));
    forall i | 0 <= i < |gs|
      ensures r[i] == gs[i]
    {
      assert gs[i] in gs;
      FlipArcTwice(gs[i]);
    }
  }

  lemma FlipArcTwice(g: Geometry)
    requires g.Arc? ==> g.direction == "CW" || g.direction == "CCW"
    ensures FlipArc(FlipArc(g)) == g
  {
  }

  /** A sense that is neither "CW" nor "CCW" does not survive a flip: two
      flips turn it into "CW". */
  lemma FlipNormalisesUnknownSense(d: string)
    requires d != "CW" && d != "CCW"
    ensures FlipDirection(d) == "CCW" && FlipDirection(FlipDirection(d)) == "CW"
  {
  }

  /** The `foreach (var g in ...SelectMany(e => e.Geometry)) if (g is Arc a)
      a.Direction = ...` loop, one profile's primitives at a time. */
  method FlipPrimitives(gs: seq<Geometry>) returns (r: seq<Geometry>)
    ensures r == FlipArcs(gs)
  {
    r := gs;
    for j := 0 to |r|
      invariant |r| == |gs|
      invariant forall k :: 0 <= k < j ==> r[k] == FlipArc(gs[k])
      invariant forall k :: j <= k < |r| ==> r[k] == gs[k]
    {
      if r[j].Arc? {
        r := r[j := r[j].(direction := if r[j].direction == "CCW" then "CW" else "CCW")];
      }
    }
  }

  method FlipPartProfiles(ps: seq<Profile>) returns (r: seq<Profile>)
    ensures r == FlipProfiles(ps)
  {
    r := ps;
    for i := 0 to |r|
      invariant |r| == |ps|
      invariant forall k :: 0 <= k < i ==> r[k].tech == ps[k].tech && r[k].geometry == FlipArcs(ps[k].geometry)
      invariant forall k :: i <= k < |r| ==> r[k] == ps[k]
    {
      var gs := FlipPrimitives(r[i].geometry);
      r := r[i := r[i].(geometry := gs)];
    }
  }

  /** The `for (var l = 0; l < Texts.Count; l++)` loop over one part's texts. */
  method ReanchorTexts(ts: seq<TextProfile>, m: Matrix33, transform: (Matrix33, Point) -> Point) returns (r: seq<TextProfile>)
    ensures r == Reanchor(ts, m, transform)
  {
    r := ts;
    for l := 0 to |r|
      invariant |r| == |ts|
      invariant forall k :: 0 <= k < l ==> r[k] == ts[k].(matrix := Some(m), referencePoint := transform(m, ts[k].referencePoint))
      invariant forall k :: l <= k < |r| ==> r[k] == ts[k]
    {
      r := r[l := r[l].(matrix := Some(m))];
      r := r[l := r[l].(referencePoint := transform(m, r[l].referencePoint))];
    }
  }

  /** The body of the indexed loop over the parts. */
  method PlacePart(p: Part, transform: (Matrix33, Point) -> Point) returns (q: Part)
    ensures q == Place(p, transform)
  {
    var m := p.matrix;
    q := p;
    if m.m8 < 0.0 {
      var ps := FlipPartProfiles(q.profiles);
      q := q.(profiles := ps);
    }
    var ts := ReanchorTexts(q.texts, m, transform);
    q := q.(texts := ts);
  }
}
