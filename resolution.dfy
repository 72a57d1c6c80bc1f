/** The library of original parts and remnants, and the resolution of the
    placed instances against it. */
module Resolution {
  import opened Options
  import opened Xml
  import opened Entities

  /** What reading an original part dereferences without a null check:
      DbInfo/ID, Elements and Texts. */
  predicate PartTemplateWellFormed(p: XNode)
  {
    ElementAt(p, "DbInfo", "ID").Some? && Element(p, "Elements").Some? && Element(p, "Texts").Some?
  }

  /** What reading an original remnant dereferences: Elements and Texts. */
  predicate RemnantTemplateWellFormed(p: XNode)
  {
    Element(p, "Elements").Some? && Element(p, "Texts").Some?
  }

  predicate OriginalsWellFormed(cs: seq<XNode>)
  {
    forall c :: c in cs ==>
      (c.name == "Part" ==> PartTemplateWellFormed(c)) &&
      (c.name == "Remnant" ==> RemnantTemplateWellFormed(c))
  }

  /** An original "Part": its order-line identifier, its "Profile" elements and
      its "TextProfile" texts, each in document order. */
  function ReadTemplate(p: XNode, rd: Decoders): Template
    requires PartTemplateWellFormed(p)
  {
    Template(ElementAt(p, "DbInfo", "ID").value.value,
             Select(Element(p, "Elements").value.children, {"Profile"}, rd.profile),
             Select(Element(p, "Texts").value.children, {"TextProfile"}, rd.text))
  }

  /** An original "Remnant": no matrix, its profiles and its texts. */
  function ReadOriginalRemnant(p: XNode, rd: Decoders): Remnant
    requires RemnantTemplateWellFormed(p)
  {
    Remnant(None,
            Select(Element(p, "Elements").value.children, {"Profile"}, rd.profile),
            Select(Element(p, "Texts").value.children, {"TextProfile"}, rd.text))
  }

  /** The template list built from the children of OriginalParts. */
  function TemplatesOf(cs: seq<XNode>, rd: Decoders): (r: seq<Template>)
    requires OriginalsWellFormed(cs)
    ensures |r| <= |cs|
  {
    if cs == [] then []
    else
      var last := cs[|cs| - 1];
      TemplatesOf(cs[..|cs| - 1], rd) + (if last.name == "Part" then [ReadTemplate(last, rd)] else [])
  }

  /** The original remnants built from the children of OriginalParts. */
  function OriginalRemnantsOf(cs: seq<XNode>, rd: Decoders): (r: seq<Remnant>)
    requires OriginalsWellFormed(cs)
    ensures |r| <= |cs|
  {
    if cs == [] then []
    else
      var last := cs[|cs| - 1];
      OriginalRemnantsOf(cs[..|cs| - 1], rd) + (if last.name == "Remnant" then [ReadOriginalRemnant(last, rd)] else [])
  }

  /** Dispatch on the element name: every "Part" child becomes the next
      template and nothing else does. */
  lemma {:induction false} TemplatesFollowParts(cs: seq<XNode>, rd: Decoders)
    requires OriginalsWellFormed(cs)
    ensures |TemplatesOf(cs, rd)| == |Named(cs, {"Part"})|
    ensures forall i :: 0 <= i < |Named(cs, {"Part"})| ==>
              TemplatesOf(cs, rd)[i] == ReadTemplate(Named(cs, {"Part"})[i], rd)
  {
    if cs != [] {
      TemplatesFollowParts(cs[..|cs| - 1], rd);
    }
  }

  /** Dispatch on the element name: every "Remnant" child becomes the next
      original remnant and nothing else does. */
  lemma {:induction false} OriginalRemnantsFollowRemnants(cs: seq<XNode>, rd: Decoders)
    requires OriginalsWellFormed(cs)
    ensures |OriginalRemnantsOf(cs, rd)| == |Named(cs, {"Remnant"})|
    ensures forall i :: 0 <= i < |Named(cs, {"Remnant"})| ==>
              OriginalRemnantsOf(cs, rd)[i] == ReadOriginalRemnant(Named(cs, {"Remnant"})[i], rd)
  {
    if cs != [] {
      OriginalRemnantsFollowRemnants(cs[..|cs| - 1], rd);
    }
  }

  /** The loop over the children of OriginalParts. */
  method ReadOriginalParts(cs: seq<XNode>, rd: Decoders) returns (templates: seq<Template>, originals: seq<Remnant>)
    requires OriginalsWellFormed(cs)
    ensures templates == TemplatesOf(cs, rd)
    ensures originals == OriginalRemnantsOf(cs, rd)
  {
    templates, originals := [], [];
    for k := 0 to |cs|
      invariant OriginalsWellFormed(cs[..k])
      invariant templates == TemplatesOf(cs[..k], rd)
      invariant originals == OriginalRemnantsOf(cs[..k], rd)
    {
      var p := cs[k];
      assert cs[..k + 1][..k] == cs[..k];
      if p.name == "Part" {
        var profiles := Collect(Element(p, "Elements").value.children, {"Profile"}, rd.profile);
        var texts := Collect(Element(p, "Texts").value.children, {"TextProfile"}, rd.text);
        templates := templates + [Template(ElementAt(p, "DbInfo", "ID").value.value, profiles, texts)];
      } else if p.name == "Remnant" {
        var profiles := Collect(Element(p, "Elements").value.children, {"Profile"}, rd.profile);
        var texts := Collect(Element(p, "Texts").value.children, {"TextProfile"}, rd.text);
        originals := originals + [Remnant(None, profiles, texts)];
      }
    }
    assert cs[..|cs|] == cs;
  }

  /** `List.Find`: the first template whose order-line identifier equals `key`.
      An absent key matches nothing. */
  function Find(templates: seq<Template>, key: Option<string>): Option<Template>
  {
    if templates == [] || key.None? then None
    else if templates[0].orderlineInfo == key.value then Some(templates[0])
    else Find(templates[1..], key)
  }

  /** The lookup succeeds exactly when some template carries the key, and then
      it returns the first such template in list order. */
  lemma {:induction false} FindIsFirst(templates: seq<Template>, key: Option<string>)
    ensures Find(templates, key).Some? <==>
              key.Some? && exists i :: 0 <= i < |templates| && templates[i].orderlineInfo == key.value
    ensures Find(templates, key).Some? ==>
              var t := Find(templates, key).value;
              key == Some(t.orderlineInfo) &&
              exists i :: 0 <= i < |templates| && templates[i] == t &&
                          forall j :: 0 <= j < i ==> templates[j].orderlineInfo != t.orderlineInfo
  {
    if templates != [] && key.Some? && templates[0].orderlineInfo != key.value {
      FindIsFirst(templates[1..], key);
      assert forall i :: 1 <= i < |templates| ==> templates[i] == templates[1..][i - 1];
      if Find(templates, key).Some? {
        var t := Find(templates, key).value;
        var i :| 0 <= i < |templates[1..]| && templates[1..][i] == t &&
                 forall j :: 0 <= j < i ==> templates[1..][j].orderlineInfo != t.orderlineInfo;
        assert templates[i + 1] == t;
      }
    }
  }

  /** `pi.Element("DbInfo")?.Element("ID")?.Value`. */
  function OrderlineOf(pi: XNode): Option<string>
  {
    match ElementAt(pi, "DbInfo", "ID")
    case None => None
    case Some(id) => Some(id.value)
  }

  /** What resolving an instance dereferences: a matched "PartInfo" needs its
      Profiles section (and a DetailId holds a TextProfile); a "RemnantInfo"
      needs its Profiles section. An unmatched "PartInfo" needs nothing. */
  predicate InstanceWellFormed(pi: XNode, templates: seq<Template>)
  {
    (pi.name == "PartInfo" && Find(templates, OrderlineOf(pi)).Some? ==>
       Element(pi, "Profiles").Some? &&
       (Element(pi, "DetailId").Some? ==> ElementAt(pi, "DetailId", "TextProfile").Some?)) &&
    (pi.name == "RemnantInfo" ==> Element(pi, "Profiles").Some?)
  }

  predicate InstancesWellFormed(cs: seq<XNode>, templates: seq<Template>)
  {
    forall pi :: pi in cs ==> InstanceWellFormed(pi, templates)
  }

  /** A part instance: `None` when its reference matches no template;
      otherwise a new part from the matched template and the instance. */
  function ResolvePart(pi: XNode, templates: seq<Template>, rd: Decoders): Option<Part>
    requires pi.name == "PartInfo" && InstanceWellFormed(pi, templates)
  {
    match Find(templates, OrderlineOf(pi))
    case None => None
    case Some(t) =>
      var detail := if Element(pi, "DetailId").Some? then Some(rd.text(ElementAt(pi, "DetailId", "TextProfile").value)) else None;
      Some(Part(rd.matrix(Element(pi, "Matrix")),
                t.profiles + Select(Element(pi, "Profiles").value.children, {"Profile"}, rd.partInfoProfile),
                t.texts, detail))
  }

  /** A part instance resolves exactly when its reference matches a template;
      the resolved part has the instance's matrix, the template's texts, and
      a detail text exactly when the instance has a DetailId. */
  lemma ResolvedPartShape(pi: XNode, templates: seq<Template>, rd: Decoders)
    requires pi.name == "PartInfo" && InstanceWellFormed(pi, templates)
    ensures ResolvePart(pi, templates, rd).Some? <==> Find(templates, OrderlineOf(pi)).Some?
    ensures ResolvePart(pi, templates, rd).Some? ==>
      var r := ResolvePart(pi, templates, rd).value;
      && r.matrix == rd.matrix(Element(pi, "Matrix"))
      && r.texts == Find(templates, OrderlineOf(pi)).value.texts
      && (r.detailId.Some? <==> Element(pi, "DetailId").Some?)
      && (Element(pi, "DetailId").Some? ==> r.detailId == Some(rd.text(ElementAt(pi, "DetailId", "TextProfile").value)))
  {
  }

  /** The profiles of a part resolved against template `t` are the
      template's profiles followed by the instance's own "Profile" elements in
      document order, so there are as many as both together. */
  lemma ResolvedPartProfiles(pi: XNode, templates: seq<Template>, rd: Decoders, t: Template)
    requires pi.name == "PartInfo" && InstanceWellFormed(pi, templates)
    requires Find(templates, OrderlineOf(pi)) == Some(t)
    ensures ResolvePart(pi, templates, rd).Some?
    ensures var ps := ResolvePart(pi, templates, rd).value.profiles;
      var overrides := Named(Element(pi, "Profiles").value.children, {"Profile"});
      && |ps| == |t.profiles| + |overrides|
      && ps[..|t.profiles|] == t.profiles
      && (forall k :: 0 <= k < |overrides| ==> ps[|t.profiles| + k] == rd.partInfoProfile(overrides[k]))
  {
    var children := Element(pi, "Profiles").value.children;
    var own := Select(children, {"Profile"}, rd.partInfoProfile);
    SelectReadsNamed(children, {"Profile"}, rd.partInfoProfile);
    var overrides := Named(children, {"Profile"});
    var ps := ResolvedProfilesJoin(pi, templates, rd, t);
    assert ps[..|t.profiles|] == t.profiles;
    forall k | 0 <= k < |overrides|
      ensures ps[|t.profiles| + k] == rd.partInfoProfile(overrides[k])
    {
      assert ps[|t.profiles| + k] == own[k];
    }
  }

  /** A resolved part's profile list is the template's list joined to the
      instance's own list. */
  lemma ResolvedProfilesJoin(pi: XNode, templates: seq<Template>, rd: Decoders, t: Template) returns (ps: seq<Profile>)
    requires pi.name == "PartInfo" && InstanceWellFormed(pi, templates)
    requires Find(templates, OrderlineOf(pi)) == Some(t)
    ensures ResolvePart(pi, templates, rd).Some?
    ensures ps == ResolvePart(pi, templates, rd).value.profiles
    ensures ps == t.profiles + Select(Element(pi, "Profiles").value.children, {"Profile"}, rd.partInfoProfile)
  {
    ps := ResolvePart(pi, templates, rd).value.profiles;
  }

  /** A remnant instance: no lookup, its own matrix and its own "Profile"
      elements. */
  function ResolveRemnant(pi: XNode, rd: Decoders): Remnant
    requires pi.name == "RemnantInfo" && Element(pi, "Profiles").Some?
  {
    Remnant(Some(rd.matrix(Element(pi, "Matrix"))),
            Select(Element(pi, "Profiles").value.children, {"Profile"}, rd.partInfoProfile), [])
  }

  /** A remnant instance holds its own matrix, no texts, and exactly its own
      "Profile" elements in document order. */
  lemma ResolvedRemnantShape(pi: XNode, rd: Decoders)
    requires pi.name == "RemnantInfo" && Element(pi, "Profiles").Some?
    ensures ResolveRemnant(pi, rd).matrix == Some(rd.matrix(Element(pi, "Matrix")))
    ensures ResolveRemnant(pi, rd).texts == []
    ensures var own := Named(Element(pi, "Profiles").value.children, {"Profile"});
            |ResolveRemnant(pi, rd).profiles| == |own| &&
            forall k :: 0 <= k < |own| ==> ResolveRemnant(pi, rd).profiles[k] == rd.partInfoProfile(own[k])
  {
    SelectReadsNamed(Element(pi, "Profiles").value.children, {"Profile"}, rd.partInfoProfile);
  }

  /** What one child of PartInfos adds to the part list: its part when it is
      a "PartInfo" that resolves, nothing otherwise. */
  function PartOf(pi: XNode, templates: seq<Template>, rd: Decoders): (r: seq<Part>)
    requires InstanceWellFormed(pi, templates)
    ensures |r| <= 1
  {
    if pi.name == "PartInfo" then
      match ResolvePart(pi, templates, rd)
      case None => []
      case Some(p) => [p]
    else []
  }

  /** What one child of PartInfos adds to the remnant list: its remnant when
      it is a "RemnantInfo", nothing otherwise. */
  function RemnantOf(pi: XNode, rd: Decoders): (r: seq<Remnant>)
    requires pi.name == "RemnantInfo" ==> Element(pi, "Profiles").Some?
    ensures |r| <= 1
  {
    if pi.name == "RemnantInfo" then [ResolveRemnant(pi, rd)] else []
  }

  /** The parts that the children of PartInfos resolve to, in their order. */
  function ResolvedParts(cs: seq<XNode>, templates: seq<Template>, rd: Decoders): (r: seq<Part>)
    requires InstancesWellFormed(cs, templates)
    ensures |r| <= |cs|
  {
    if cs == [] then []
    else ResolvedParts(cs[..|cs| - 1], templates, rd) + PartOf(cs[|cs| - 1], templates, rd)
  }

  /** The remnants that the children of PartInfos yield, in their order. */
  function RemnantInstances(cs: seq<XNode>, rd: Decoders): (r: seq<Remnant>)
    requires forall pi :: pi in cs && pi.name == "RemnantInfo" ==> Element(pi, "Profiles").Some?
    ensures |r| <= |cs|
  {
    if cs == [] then []
    else RemnantInstances(cs[..|cs| - 1], rd) + RemnantOf(cs[|cs| - 1], rd)
  }

  /** Dispatch on the element name: every "RemnantInfo" child of PartInfos
      becomes the next remnant, and "PartInfo" and other children add none. */
  lemma {:induction false} RemnantInstancesFollowRemnantInfos(cs: seq<XNode>, rd: Decoders)
    requires forall pi :: pi in cs && pi.name == "RemnantInfo" ==> Element(pi, "Profiles").Some?
    ensures |RemnantInstances(cs, rd)| == |Named(cs, {"RemnantInfo"})|
    ensures forall i :: 0 <= i < |Named(cs, {"RemnantInfo"})| ==>
              RemnantInstances(cs, rd)[i] == ResolveRemnant(Named(cs, {"RemnantInfo"})[i], rd)
  {
    if cs != [] {
      assert forall pi :: pi in cs[..|cs| - 1] ==> pi in cs;
      RemnantInstancesFollowRemnantInfos(cs[..|cs| - 1], rd);
    }
  }

  lemma {:induction false} ResolvedPartsAppend(a: seq<XNode>, b: seq<XNode>, templates: seq<Template>, rd: Decoders)
    requires InstancesWellFormed(a + b, templates)
    ensures InstancesWellFormed(a, templates) && InstancesWellFormed(b, templates)
    ensures ResolvedParts(a + b, templates, rd) == ResolvedParts(a, templates, rd) + ResolvedParts(b, templates, rd)
  {
    assert forall pi :: pi in a || pi in b ==> pi in a + b;
    if b == [] {
      assert a + b == a;
    } else {
      var b' := b[..|b| - 1];
      assert (a + b)[..|a + b| - 1] == a + b';
      assert (a + b)[|a + b| - 1] == b[|b| - 1];
      assert forall pi :: pi in b' ==> pi in b;
      ResolvedPartsAppend(a, b', templates, rd);
    }
  }

  /** An instance whose reference matches no template, or that is not a
      "PartInfo" at all, leaves the part list exactly as it was. */
  lemma UnresolvedAddsNothing(a: seq<XNode>, pi: XNode, b: seq<XNode>, templates: seq<Template>, rd: Decoders)
    requires InstancesWellFormed(a + [pi] + b, templates)
    requires pi.name != "PartInfo" || Find(templates, OrderlineOf(pi)).None?
    ensures InstancesWellFormed(a + b, templates)
    ensures ResolvedParts(a + [pi] + b, templates, rd) == ResolvedParts(a + b, templates, rd)
  {
    assert forall x :: x in a + b ==> x in a + [pi] + b;
    assert pi in a + [pi] + b;
    assert PartOf(pi, templates, rd) == [];
    assert [pi][..0] == [];
    assert ResolvedParts([pi], templates, rd) == [];
    ResolvedPartsAppend(a, [pi], templates, rd);
    assert ResolvedParts(a + [pi], templates, rd) == ResolvedParts(a, templates, rd);
    ResolvedPartsAppend(a + [pi], b, templates, rd);
    ResolvedPartsAppend(a, b, templates, rd);
  }

  /** Every resolved part comes from a matched "PartInfo", and every matched
      "PartInfo" contributes its part. */
  lemma {:induction false} ResolvedPartsComeFromMatches(cs: seq<XNode>, templates: seq<Template>, rd: Decoders, p: Part)
    requires InstancesWellFormed(cs, templates)
    ensures p in ResolvedParts(cs, templates, rd) <==>
            exists pi :: pi in cs && pi.name == "PartInfo" && ResolvePart(pi, templates, rd) == Some(p)
  {
    if cs != [] {
      var init := cs[..|cs| - 1];
      assert forall pi :: pi in init ==> pi in cs;
      assert forall pi :: pi in cs ==> pi in init || pi == cs[|cs| - 1];
      ResolvedPartsComeFromMatches(init, templates, rd, p);
    }
  }

  /** The "PartInfo" case of the loop: look up the template, and build the
      part from it when there is one. */
  method ReadPartInfo(pi: XNode, templates: seq<Template>, rd: Decoders) returns (r: Option<Part>)
    requires pi.name == "PartInfo" && InstanceWellFormed(pi, templates)
    ensures r == ResolvePart(pi, templates, rd)
  {
    var op := Find(templates, OrderlineOf(pi));
    if op.None? {
      return None;
    }
    var matrix := rd.matrix(Element(pi, "Matrix"));
    var overrides := Collect(Element(pi, "Profiles").value.children, {"Profile"}, rd.partInfoProfile);
    var detail := None;
    if Element(pi, "DetailId").Some? {
      detail := Some(rd.text(ElementAt(pi, "DetailId", "TextProfile").value));
    }
    r := Some(Part(matrix, op.value.profiles + overrides, op.value.texts, detail));
  }

  /** The "RemnantInfo" case of the loop. */
  method ReadRemnantInfo(pi: XNode, rd: Decoders) returns (r: Remnant)
    requires pi.name == "RemnantInfo" && Element(pi, "Profiles").Some?
    ensures r == ResolveRemnant(pi, rd)
  {
    var matrix := rd.matrix(Element(pi, "Matrix"));
    var own := Collect(Element(pi, "Profiles").value.children, {"Profile"}, rd.partInfoProfile);
    r := Remnant(Some(matrix), own, []);
  }

  /** One more child of PartInfos: what it adds to each list. */
  lemma InstancesStep(cs: seq<XNode>, k: nat, templates: seq<Template>, rd: Decoders)
    requires InstancesWellFormed(cs, templates) && k < |cs|
    ensures InstanceWellFormed(cs[k], templates)
    ensures InstancesWellFormed(cs[..k], templates) && InstancesWellFormed(cs[..k + 1], templates)
    ensures ResolvedParts(cs[..k + 1], templates, rd) == ResolvedParts(cs[..k], templates, rd) + PartOf(cs[k], templates, rd)
    ensures RemnantInstances(cs[..k + 1], rd) == RemnantInstances(cs[..k], rd) + RemnantOf(cs[k], rd)
  {
    assert cs[k] in cs;
    assert forall pi :: pi in cs[..k + 1] ==> pi in cs;
    assert cs[..k + 1][..k] == cs[..k];
    assert cs[..k + 1][k] == cs[k];
  }

  /** One child of PartInfos, dispatched on its name. */
  method ReadInstance(pi: XNode, templates: seq<Template>, rd: Decoders) returns (ps: seq<Part>, rs: seq<Remnant>)
    requires InstanceWellFormed(pi, templates)
    ensures ps == PartOf(pi, templates, rd) && rs == RemnantOf(pi, rd)
  {
    ps, rs := [], [];
    if pi.name == "PartInfo" {
      var p := ReadPartInfo(pi, templates, rd);
      if p.Some? {
        ps := [p.value];
      }
    } else if pi.name == "RemnantInfo" {
      var rem := ReadRemnantInfo(pi, rd);
      rs := [rem];
    }
  }

  /** The single loop over the children of PartInfos: matched part instances
      go to the part list, unmatched ones are skipped, remnant instances go to
      the remnant list. */
  method ReadPartInfos(cs: seq<XNode>, templates: seq<Template>, rd: Decoders) returns (parts: seq<Part>, remnants: seq<Remnant>)
    requires InstancesWellFormed(cs, templates)
    ensures parts == ResolvedParts(cs, templates, rd)
    ensures remnants == RemnantInstances(cs, rd)
  {
    parts, remnants := [], [];
    for k := 0 to |cs|
      invariant InstancesWellFormed(cs[..k], templates)
      invariant parts == ResolvedParts(cs[..k], templates, rd)
      invariant remnants == RemnantInstances(cs[..k], rd)
    {
      InstancesStep(cs, k, templates, rd);
      var ps, rs := ReadInstance(cs[k], templates, rd);
      parts, remnants := parts + ps, remnants + rs;
    }
    assert cs[..|cs|] == cs;
  }
}
