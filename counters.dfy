/** The three counters the reader derives: ridges, bridges and text symbols. */
module Counters {
  import opened Options
  import opened Xml
  import opened Entities
  import opened Resolution
  import opened Placement

  /** The sum of the ridge counts of the profiles that have technology data. */
  function Ridges(ps: seq<Profile>): int
  {
    if ps == [] then 0
    else
      var p := ps[|ps| - 1];
      Ridges(ps[..|ps| - 1]) + (if p.tech.Some? then p.tech.value.ridgesCount else 0)
  }

  lemma {:induction false} RidgesAppend(a: seq<Profile>, b: seq<Profile>)
    ensures Ridges(a + b) == Ridges(a) + Ridges(b)
  {
    if b == [] {
      assert a + b == a;
    } else {
      var b' := b[..|b| - 1];
      assert (a + b)[..|a + b| - 1] == a + b';
      assert (a + b)[|a + b| - 1] == b[|b| - 1];
      RidgesAppend(a, b');
    }
  }

  /** Ridges depend only on technology data, one profile at a time. */
  lemma {:induction false} RidgesOfSameTech(a: seq<Profile>, b: seq<Profile>)
    requires |a| == |b| && forall i :: 0 <= i < |a| ==> a[i].tech == b[i].tech
    ensures Ridges(a) == Ridges(b)
  {
    if a != [] {
      RidgesOfSameTech(a[..|a| - 1], b[..|b| - 1]);
    }
  }

  /** A resolved part counts the ridges of its template's profiles plus those
      of its own override profiles. */
  lemma ResolvedPartRidges(pi: XNode, templates: seq<Template>, rd: Decoders)
    requires pi.name == "PartInfo" && InstanceWellFormed(pi, templates)
    requires ResolvePart(pi, templates, rd).Some?
    ensures Ridges(ResolvePart(pi, templates, rd).value.profiles) ==
            Ridges(Find(templates, OrderlineOf(pi)).value.profiles) +
            Ridges(Select(Element(pi, "Profiles").value.children, {"Profile"}, rd.partInfoProfile))
  {
    var t := Find(templates, OrderlineOf(pi)).value;
    RidgesAppend(t.profiles, Select(Element(pi, "Profiles").value.children, {"Profile"}, rd.partInfoProfile));
  }

  /** The ridge sum over all parts adds up part by part. */
  lemma PartRidgesAppend(a: seq<Part>, b: seq<Part>)
    ensures Ridges(PartProfiles(a + b)) == Ridges(PartProfiles(a)) + Ridges(PartProfiles(b))
  {
    PartProfilesAppend(a, b);
    RidgesAppend(PartProfiles(a), PartProfiles(b));
  }

  /** The placement pass changes no ridge count. */
  lemma {:induction false} PlacementKeepsRidges(ps: seq<Part>, transform: (Matrix33, Point) -> Point)
    ensures Ridges(PartProfiles(PlaceAll(ps, transform))) == Ridges(PartProfiles(ps))
  {
    if ps != [] {
      var init, last := ps[..|ps| - 1], ps[|ps| - 1];
      var placed := PlaceAll(ps, transform);
      assert placed == PlaceAll(init, transform) + [Place(last, transform)];
      PlacementKeepsRidges(init, transform);
      assert PartProfiles(placed) == PartProfiles(PlaceAll(init, transform)) + Place(last, transform).profiles;
      RidgesAppend(PartProfiles(PlaceAll(init, transform)), Place(last, transform).profiles);
      RidgesAppend(PartProfiles(init), last.profiles);
      PlaceSpec(last, transform);
      RidgesOfSameTech(Place(last, transform).profiles, last.profiles);
    }
  }

  /** The `foreach (var e in Parts.SelectMany(p => p.Profiles)) if (e.Tech != null)
      RidgesCount += e.Tech.RidgesCount` loop, returning the increment. */
  method SumRidges(ps: seq<Profile>) returns (total: int)
    ensures total == Ridges(ps)
  {
    total := 0;
    for k := 0 to |ps|
      invariant total == Ridges(ps[..k])
    {
      assert ps[..k + 1][..k] == ps[..k];
      if ps[k].tech.Some? {
        total := total + ps[k].tech.value.ridgesCount;
      }
    }
    assert ps[..|ps|] == ps;
  }

  /** `s.Replace(" ", "")`: the string with every space removed. */
  function StripSpaces(s: string): (r: string)
    ensures ' ' !in r
    ensures forall c :: c in r <==> c in s && c != ' '
    ensures |r| == |s| - multiset(s)[' ']
  {
    if s == [] then ""
    else
      var init, last := s[..|s| - 1], s[|s| - 1];
      assert s == init + [last];
      StripSpaces(init) + (if last == ' ' then "" else [last])
  }

  /** The symbol count of a template list: the length of every text of every
      template once its spaces are removed, summed. */
  function TextSymbols(templates: seq<Template>): (n: int)
    ensures n >= 0
  {
    if templates == [] then 0
    else TextSymbols(templates[..|templates| - 1]) + TextsSymbols(templates[|templates| - 1].texts)
  }

  function TextsSymbols(ts: seq<TextProfile>): (n: int)
    ensures n >= 0
  {
    if ts == [] then 0 else TextsSymbols(ts[..|ts| - 1]) + |StripSpaces(ts[|ts| - 1].text)|
  }

  /** All text strings of all templates, one after the other. */
  function AllText(templates: seq<Template>): string
  {
    if templates == [] then "" else AllText(templates[..|templates| - 1]) + TextsText(templates[|templates| - 1].texts)
  }

  function TextsText(ts: seq<TextProfile>): string
  {
    if ts == [] then "" else TextsText(ts[..|ts| - 1]) + ts[|ts| - 1].text
  }

  lemma {:induction false} TextsSymbolsAreNonSpaces(ts: seq<TextProfile>)
    ensures TextsSymbols(ts) == |TextsText(ts)| - multiset(TextsText(ts))[' ']
  {
    if ts != [] {
      TextsSymbolsAreNonSpaces(ts[..|ts| - 1]);
      var a, b := TextsText(ts[..|ts| - 1]), ts[|ts| - 1].text;
      assert multiset(a + b) == multiset(a) + multiset(b);
    }
  }

  /** The symbol count is the number of non-space characters across all
      template texts, however the texts are split. */
  lemma {:induction false} TextSymbolsAreNonSpaces(templates: seq<Template>)
    ensures TextSymbols(templates) == |AllText(templates)| - multiset(AllText(templates))[' ']
  {
    if templates != [] {
      TextSymbolsAreNonSpaces(templates[..|templates| - 1]);
      TextsSymbolsAreNonSpaces(templates[|templates| - 1].texts);
      var a, b := AllText(templates[..|templates| - 1]), TextsText(templates[|templates| - 1].texts);
      assert multiset(a + b) == multiset(a) + multiset(b);
    }
  }

  /** The bridge count is the number of "Bridge" and "HalfBridge" elements. */
  lemma BridgeCount(nodes: seq<XNode>, rd: Decoders)
    ensures |Select(nodes, {"Bridge", "HalfBridge"}, rd.bridge)| == |Named(nodes, {"Bridge", "HalfBridge"})|
  {
    SelectReadsNamed(nodes, {"Bridge", "HalfBridge"}, rd.bridge);
  }
}
