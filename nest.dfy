/** The nest: the decoded cutting plan, filled in by `Read` and measured by
    `GetBBox`. */
module NestReader {
  import opened Options
  import opened Xml
  import opened Entities
  import opened Resolution
  import opened Placement
  import opened Counters
  import opened Bounds

  /** `doc.Element("NestFile")?.Element("Nest")`, for the document's root element. */
  function NestElement(root: XNode): Option<XNode>
  {
    if root.name == "NestFile" then Element(root, "Nest") else None
  }

  /** What `Read` dereferences without a null check: the Nest element and,
      within it, the sections below. */
  predicate DocumentWellFormed(root: XNode, rd: Decoders)
  {
    NestElement(root).Some? && SectionsWellFormed(NestElement(root).value, rd)
  }

  /** The OriginalParts, PartInfos, Annotations, Texts and Bridges sections
      are present, and so is the inner structure of the original parts and of
      the instances. */
  predicate SectionsWellFormed(elems: XNode, rd: Decoders)
  {
    && Element(elems, "OriginalParts").Some?
    && OriginalsWellFormed(Element(elems, "OriginalParts").value.children)
    && Element(elems, "PartInfos").Some?
    && InstancesWellFormed(Element(elems, "PartInfos").value.children,
                           TemplatesOf(Element(elems, "OriginalParts").value.children, rd))
    && Element(elems, "Annotations").Some?
    && Element(elems, "Texts").Some?
    && Element(elems, "Bridges").Some?
  }

  /** The Machine element's Name and Technology attributes, each absent when
      the element or the attribute is. */
  function MachineOf(elems: XNode): Machine
  {
    match Element(elems, "Machine")
    case None => Machine(None, None)
    case Some(m) => Machine(Attribute(m, "Name"), Attribute(m, "Technology"))
  }

  /** The plate: a "Plate" under Sheets is preferred over a legacy "Sheet";
      with neither, the plate stays what it was. */
  function PlateOf(elems: XNode, rd: Decoders, previous: Option<Plate>): Option<Plate>
  {
    match ElementAt(elems, "Sheets", "Plate")
    case Some(p) => Some(rd.plate(p))
    case None =>
      match ElementAt(elems, "Sheets", "Sheet")
      case Some(s) => Some(rd.plate(s))
      case None => previous
  }

  /** An "AnnotationLength" element is read through its DimensionLineAnnotation child. */
  function AnnotationReader(rd: Decoders): XNode -> DimensionLineAnnotation
  {
    n => rd.annotation(Element(n, "DimensionLineAnnotation"))
  }

  /** Everything a nest holds, as one value: the fields of `Nest` in order. */
  datatype Contents = Contents(
    machine: Option<Machine>, plate: Option<Plate>,
    originalRemnants: seq<Remnant>, parts: seq<Part>, remnants: seq<Remnant>,
    dimensionLineAnnotations: seq<DimensionLineAnnotation>, texts: seq<TextProfile>,
    textSymbolsCount: int, bridges: seq<Bridge>, bridgesCount: int, ridgesCount: int)

  /** What reading the sections under `elems` makes of the contents `c`: the
      machine is replaced; the plate is replaced when the document has one;
      the original remnants, the parts, the remnants, the annotations, the
      texts and the bridges are appended to; the ridge sum is taken over every
      part held before placement and added to the old count; every part held
      is then placed; the text symbols are those of the original parts; the
      bridge count is the length of the bridge list. */
  function Next(c: Contents, elems: XNode, rd: Decoders): Contents
    requires SectionsWellFormed(elems, rd)
  {
    var originals := Element(elems, "OriginalParts").value.children;
    var templates := TemplatesOf(originals, rd);
    var instances := Element(elems, "PartInfos").value.children;
    var resolved := c.parts + ResolvedParts(instances, templates, rd);
    var bridges := c.bridges + Select(Element(elems, "Bridges").value.children, {"Bridge", "HalfBridge"}, rd.bridge);
    Contents(
      Some(MachineOf(elems)), PlateOf(elems, rd, c.plate),
      c.originalRemnants + OriginalRemnantsOf(originals, rd),
      PlaceAll(resolved, rd.transformPoint),
      c.remnants + RemnantInstances(instances, rd),
      c.dimensionLineAnnotations +
        Select(Element(elems, "Annotations").value.children, {"AnnotationLength"}, AnnotationReader(rd)),
      c.texts + Select(Element(elems, "Texts").value.children, {"TextProfile"}, rd.text),
      TextSymbols(templates), bridges, |bridges|,
      c.ridgesCount + Ridges(PartProfiles(resolved)))
  }

  /** The ridge count a read adds is the ridge sum of every part the nest
      holds afterwards: placement changes no part's technology. */
  lemma NextRidgesCoverPlacedParts(c: Contents, elems: XNode, rd: Decoders)
    requires SectionsWellFormed(elems, rd)
    ensures Next(c, elems, rd).ridgesCount == c.ridgesCount + Ridges(PartProfiles(Next(c, elems, rd).parts))
  {
    var originals := Element(elems, "OriginalParts").value.children;
    var resolved := c.parts + ResolvedParts(Element(elems, "PartInfos").value.children, TemplatesOf(originals, rd), rd);
    PlacementKeepsRidges(resolved, rd.transformPoint);
  }

  /** Every list a read touches keeps what it held before as a prefix, and
      the parts held before are placed again (their count is unchanged). */
  lemma NextAppends(c: Contents, elems: XNode, rd: Decoders)
    requires SectionsWellFormed(elems, rd)
    ensures var n := Next(c, elems, rd);
      && n.originalRemnants[..|c.originalRemnants|] == c.originalRemnants
      && n.remnants[..|c.remnants|] == c.remnants
      && n.dimensionLineAnnotations[..|c.dimensionLineAnnotations|] == c.dimensionLineAnnotations
      && n.texts[..|c.texts|] == c.texts
      && n.bridges[..|c.bridges|] == c.bridges
      && |n.parts| >= |c.parts|
      && forall i :: 0 <= i < |c.parts| ==> n.parts[i] == Place(c.parts[i], rd.transformPoint)
  {
    var originals := Element(elems, "OriginalParts").value.children;
    var resolved := c.parts + ResolvedParts(Element(elems, "PartInfos").value.children, TemplatesOf(originals, rd), rd);
    assert forall i :: 0 <= i < |c.parts| ==> resolved[i] == c.parts[i];
  }

  /** Reading the same document twice is not reading it once: the second
      read appends its bridges again, and its ridge sum counts the ridges of
      the parts already held, so the ridges of the first read's parts are
      counted once more and those of the parts held before it twice more. */
  lemma NextTwice(c: Contents, elems: XNode, rd: Decoders)
    requires SectionsWellFormed(elems, rd)
    ensures var added := ResolvedParts(Element(elems, "PartInfos").value.children,
                                       TemplatesOf(Element(elems, "OriginalParts").value.children, rd), rd);
            var once := Next(c, elems, rd);
            var twice := Next(once, elems, rd);
      && once.ridgesCount == c.ridgesCount + Ridges(PartProfiles(c.parts)) + Ridges(PartProfiles(added))
      && twice.ridgesCount == once.ridgesCount + Ridges(PartProfiles(c.parts)) + 2 * Ridges(PartProfiles(added))
      && twice.bridgesCount == once.bridgesCount + (once.bridgesCount - |c.bridges|)
  {
    var added := ResolvedParts(Element(elems, "PartInfos").value.children,
                               TemplatesOf(Element(elems, "OriginalParts").value.children, rd), rd);
    var once := Next(c, elems, rd);
    PartRidgesAppend(c.parts, added);
    PartRidgesAppend(once.parts, added);
    PlacementKeepsRidges(c.parts + added, rd.transformPoint);
  }

  /** The three loops of the OriginalParts, PartInfos and overlay sections,
      the ridge sum over every part, and the placement pass, on values. */
  method ReadSections(c: Contents, elems: XNode, rd: Decoders) returns (d: Contents)
    requires SectionsWellFormed(elems, rd)
    ensures d == Next(c, elems, rd)
  {
    var templates, originals := ReadOriginalParts(Element(elems, "OriginalParts").value.children, rd);
    var resolved, placedRemnants := ReadPartInfos(Element(elems, "PartInfos").value.children, templates, rd);
    var parts := c.parts + resolved;
    var ridges := SumRidges(PartProfiles(parts));
    parts := PlaceParts(parts, rd.transformPoint);
    var annotations := Collect(Element(elems, "Annotations").value.children, {"AnnotationLength"}, AnnotationReader(rd));
    var texts := Collect(Element(elems, "Texts").value.children, {"TextProfile"}, rd.text);
    var bridges := Collect(Element(elems, "Bridges").value.children, {"Bridge", "HalfBridge"}, rd.bridge);
    d := Contents(Some(MachineOf(elems)), PlateOf(elems, rd, c.plate),
                  c.originalRemnants + originals, parts, c.remnants + placedRemnants,
                  c.dimensionLineAnnotations + annotations, c.texts + texts,
                  TextSymbols(templates), c.bridges + bridges, |c.bridges + bridges|,
                  c.ridgesCount + ridges);
  }

  /** The indexed loop over the parts: each part is placed once. */
  method PlaceParts(ps: seq<Part>, transform: (Matrix33, Point) -> Point) returns (qs: seq<Part>)
    ensures qs == PlaceAll(ps, transform)
  {
    qs := ps;
    for i := 0 to |qs|
      invariant |qs| == |ps|
      invariant forall k :: 0 <= k < i ==> qs[k] == Place(ps[k], transform)
      invariant forall k :: i <= k < |qs| ==> qs[k] == ps[k]
    {
      var p := PlacePart(qs[i], transform);
      qs := qs[i := p];
    }
  }

  class Nest {
    var machine: Option<Machine>
    var plate: Option<Plate>
    var originalRemnants: seq<Remnant>
    var parts: seq<Part>
    var remnants: seq<Remnant>
    var dimensionLineAnnotations: seq<DimensionLineAnnotation>
    var texts: seq<TextProfile>
    var textSymbolsCount: int
    var bridges: seq<Bridge>
    var bridgesCount: int
    var ridgesCount: int

    /** A nest with nothing in it. */
    constructor ()
      ensures State() == Contents(None, None, [], [], [], [], [], 0, [], 0, 0)
    {
      machine, plate := None, None;
      originalRemnants, parts, remnants := [], [], [];
      dimensionLineAnnotations, texts, bridges := [], [], [];
      textSymbolsCount, bridgesCount, ridgesCount := 0, 0, 0;
    }

    /** The fields, as one value. */
    function State(): Contents
      reads this
    {
      Contents(machine, plate, originalRemnants, parts, remnants, dimensionLineAnnotations, texts,
               textSymbolsCount, bridges, bridgesCount, ridgesCount)
    }

    /** Decode a document into this nest. `doc` is `None` when the file does
        not exist, and then nothing changes; otherwise the nest's new contents
        are `Next` of its old ones. */
    method Read(doc: Option<XNode>, rd: Decoders)
      requires doc.Some? ==> DocumentWellFormed(doc.value, rd)
      modifies this
      ensures doc.None? ==> unchanged(this)
      ensures doc.Some? ==> State() == Next(old(State()), NestElement(doc.value).value, rd)
    {
      if doc.None? {
        return;
      }
      var d := ReadSections(State(), NestElement(doc.value).value, rd);
      Store(d);
    }

    /** Overwrite every field with the given contents. */
    method Store(d: Contents)
      modifies this
      ensures State() == d
    {
      machine, plate, originalRemnants, parts, remnants := d.machine, d.plate, d.originalRemnants, d.parts, d.remnants;
      dimensionLineAnnotations, texts, textSymbolsCount := d.dimensionLineAnnotations, d.texts, d.textSymbolsCount;
      bridges, bridgesCount, ridgesCount := d.bridges, d.bridgesCount, d.ridgesCount;
    }

    /** The bounding box of everything the nest holds. The plate must be set
        and there must be at least one point to scan. The result is the
        rounded-up rectangle of the unique tight box of the scanned points,
        so it does not depend on their order. */
    method GetBBox() returns (r: Rectangle)
      requires plate.Some?
      requires ScannedPoints(plate.value, remnants, originalRemnants, parts, texts) != []
      ensures exists e :: Tight(ScannedPoints(plate.value, remnants, originalRemnants, parts, texts), e) && r == BoxOf(e)
      ensures r.width >= 0 && r.height >= 0
    {
      var a := GeometryPoints(ProfileGeometry(plate.value.profiles));
      var b := GeometryPoints(ProfileGeometry(RemnantProfiles(remnants)));
      var c := GeometryPoints(ProfileGeometry(RemnantProfiles(originalRemnants)));
      var d := GeometryPoints(ProfileGeometry(PartProfiles(parts)));
      var e := TextPoints(texts);
      var acc := ScanGeometry(None, ProfileGeometry(plate.value.profiles));
      acc := ScanGeometry(acc, ProfileGeometry(RemnantProfiles(remnants)));
      acc := ScanGeometry(acc, ProfileGeometry(RemnantProfiles(originalRemnants)));
      acc := ScanGeometry(acc, ProfileGeometry(PartProfiles(parts)));
      acc := ScanTexts(acc, texts);
      ScanAppend(None, a, b);
      ScanAppend(None, a + b, c);
      ScanAppend(None, a + b + c, d);
      ScanAppend(None, a + b + c + d, e);
      var pts := a + b + c + d + e;
      ScanIsTight(pts);
      r := BoxOf(acc.value);
    }
  }
}
