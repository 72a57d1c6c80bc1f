# NxlReader nest model

A Dafny model of the part of the NxlReader `Nest` class that turns an
already-parsed nest document into a cutting plan, and of the bounding box
it reports. The model covers:

- the template library built from `OriginalParts`: "Part" children become
  templates, "Remnant" children become original remnants;
- the resolution of `PartInfos`: a "PartInfo" is looked up by order-line
  identifier against the first matching template and dropped when none
  matches; a "RemnantInfo" becomes a remnant with no lookup;
- the ridge sum, the placement pass and the counters. The placement pass
  flips arc senses on mirrored parts and re-anchors part texts through the
  part's matrix. The counters are the bridge count and the text-symbol count;
- the name-based dispatch of annotations, top-level texts, bridges and
  half-bridges;
- `GetBBox`: a min/max scan over five point sources, then ceiling rounding.

The document is an `Xml.XNode` tree (name, value, attributes, children).
The parsers that `Nest.Read` calls but that are not part of this model are
fields of an `Entities.Decoders` record of functions, and every result
holds for every choice of them. Those parsers are `Profile.Read`,
`Profile.ReadPartInfo`, `TextProfile.Read`, `Matrix33.Read`, the `Plate`
constructor, `DimensionLineAnnotation.Read`, `Bridge.Read` and
`Matrix33.TransformPoint`.

Modules:

- `Xml` covers `Element`, attribute reads and the recurring "walk the
  children and add the decoded value of each element with a given name" loop
  (`Select`/`Collect`).
- `Entities` holds the value types: points, lines and arcs, profiles,
  matrices, texts, templates, parts, remnants, plate, machine, bridges and
  annotations.
- `Resolution` covers the `OriginalParts` and `PartInfos` loops.
- `Placement` covers the arc flip and the text re-anchoring.
- `Counters` covers the ridge sum and the text-symbol count.
- `Bounds` covers `GetBBox`.
- `NestReader` holds the `Nest` class, with the eleven fields of the source
  class.

`Nest.Read` is proved against the function `NestReader.Next`. `Next` gives
the nest's new contents as a function of its old contents and the document.
The lemmas about `Next` and its parts state what the code promises.

Behaviour of `Read` worth knowing:

- The placement pass and the ridge sum run over every part the nest holds,
  including parts from an earlier `Read` on the same object. They do not run
  only over the parts just resolved. See `NextTwice`.
- A missing file leaves the object as it was; it does not reset it to empty.
- The arc sense is a string, and any sense other than "CCW" becomes "CCW".
  See `FlipNormalisesUnknownSense`.
- `Read` does not check for a missing `Matrix` element. It passes the
  absent node to `Matrix33.Read`. The model assumes that call returns some
  matrix; the source shown here does not say whether it does.

## Model

| member | source | states |
|---|---|---|
| Xml.FirstNamedIsFirst | Report/NxlReader/Nest.cs:35 | `Element(name)` finds nothing exactly when no child has that name; otherwise it finds a child with that name, and no earlier child has it |
| Xml.NamedMembers | Report/NxlReader/Nest.cs:241-264 | the children a name switch selects are exactly the children whose name is one of the selected names |
| Xml.SelectReadsNamed | Report/NxlReader/Nest.cs:74-82 | a name-filtered loop appends one decoded value per selected child, in document order, and nothing for children with other names |
| Xml.SelectAppend | Report/NxlReader/Nest.cs:271-278 | the values appended for two runs of children are the values of the first run followed by those of the second |
| Xml.SelectMembership | Report/NxlReader/Nest.cs:284-303 | a value is appended exactly when some child with a selected name decodes to it |
| Xml.Collect | Report/NxlReader/Nest.cs:271-278 | the loop appends exactly the selection: the decoded selected children in document order |
| Resolution.TemplatesOf | Report/NxlReader/Nest.cs:64-94 | there are never more templates than children of OriginalParts |
| Resolution.OriginalRemnantsOf | Report/NxlReader/Nest.cs:96-119 | there are never more original remnants than children of OriginalParts |
| Resolution.TemplatesFollowParts | Report/NxlReader/Nest.cs:64-94 | the template list has one entry per "Part" child, in order; each entry is that child's identifier, its "Profile" elements and its "TextProfile" texts; other children add nothing |
| Resolution.OriginalRemnantsFollowRemnants | Report/NxlReader/Nest.cs:96-119 | the original-remnant list has one entry per "Remnant" child, in order, with no matrix; other children add nothing |
| Resolution.ReadOriginalParts | Report/NxlReader/Nest.cs:62-121 | the OriginalParts loop returns exactly the template list and the original-remnant list above |
| Resolution.FindIsFirst | Report/NxlReader/Nest.cs:132-133 | the lookup succeeds exactly when some template carries the identifier; it then returns the first such template in list order; an absent identifier matches nothing |
| Resolution.ResolvedPartShape | Report/NxlReader/Nest.cs:131-166 | a "PartInfo" resolves exactly when its identifier matches. The part then has the instance's matrix and the template's texts, and it has a detail text exactly when the instance has a DetailId. That text is the decoded TextProfile child of DetailId |
| Resolution.ResolvedPartProfiles | Report/NxlReader/Nest.cs:139-158 | a "PartInfo" whose identifier finds a template resolves, and the part's profiles are the template's profiles followed by the instance's own "Profile" elements in document order. There are as many as both together, and other child names are ignored |
| Resolution.ResolvedRemnantShape | Report/NxlReader/Nest.cs:168-189 | a "RemnantInfo" yields a remnant with its own matrix, no texts and exactly its own "Profile" elements in order |
| Resolution.PartOf | Report/NxlReader/Nest.cs:131-166 | one instance adds at most one part |
| Resolution.RemnantOf | Report/NxlReader/Nest.cs:168-189 | one instance adds at most one remnant |
| Resolution.ResolvedParts | Report/NxlReader/Nest.cs:127-191 | the instances never yield more parts than there are instances |
| Resolution.RemnantInstances | Report/NxlReader/Nest.cs:127-191 | the instances never yield more remnants than there are instances |
| Resolution.RemnantInstancesFollowRemnantInfos | Report/NxlReader/Nest.cs:127-191 | the remnant list has one entry per "RemnantInfo" child, in document order, each resolved from that child; "PartInfo" and other children add nothing |
| Resolution.ResolvedPartsAppend | Report/NxlReader/Nest.cs:127-191 | parts follow instance order: the parts of two runs of instances are those of the first run followed by those of the second |
| Resolution.UnresolvedAddsNothing | Report/NxlReader/Nest.cs:132-137 | an instance that matches no template, or is not a "PartInfo", leaves the part list exactly as it would be without it |
| Resolution.ResolvedPartsComeFromMatches | Report/NxlReader/Nest.cs:127-166 | a part is in the list exactly when some matched "PartInfo" resolves to it |
| Resolution.InstancesStep | Report/NxlReader/Nest.cs:127-191 | each further instance adds its own part (if any) to the end of the part list and its own remnant (if any) to the end of the remnant list |
| Resolution.ReadPartInfo | Report/NxlReader/Nest.cs:131-166 | the "PartInfo" case yields exactly the resolved part, or nothing when the lookup fails |
| Resolution.ReadRemnantInfo | Report/NxlReader/Nest.cs:168-189 | the "RemnantInfo" case yields exactly the resolved remnant |
| Resolution.ReadInstance | Report/NxlReader/Nest.cs:129-190 | dispatch on the instance's name: exactly what it adds to each list |
| Resolution.ReadPartInfos | Report/NxlReader/Nest.cs:127-191 | the PartInfos loop returns exactly the resolved parts and the remnant instances, in order |
| Counters.RidgesAppend | Report/NxlReader/Nest.cs:193-199 | the ridge sum adds up over concatenated profile lists |
| Counters.RidgesOfSameTech | Report/NxlReader/Nest.cs:193-199 | profile lists that agree one for one on technology data have the same ridge sum |
| Counters.ResolvedPartRidges | Report/NxlReader/Nest.cs:193-199 | a resolved part counts the ridges of its template's profiles plus those of its override profiles |
| Counters.PartRidgesAppend | Report/NxlReader/Nest.cs:193-199 | the ridge sum over parts adds up part by part |
| Counters.PlacementKeepsRidges | Report/NxlReader/Nest.cs:205-233 | the placement pass changes no part's ridge sum |
| Counters.SumRidges | Report/NxlReader/Nest.cs:193-199 | the loop adds exactly the ridge counts of the profiles that have technology data |
| Counters.StripSpaces | Report/NxlReader/Nest.cs:313 | the result has no space, keeps every other character, and is shorter by the number of spaces |
| Counters.TextSymbols | Report/NxlReader/Nest.cs:311-315 | the text-symbol count is never negative |
| Counters.TextsSymbols | Report/NxlReader/Nest.cs:311-315 | the symbol count of a text list is never negative |
| Counters.TextsSymbolsAreNonSpaces | Report/NxlReader/Nest.cs:311-315 | the symbol count of a text list is the number of non-space characters in its texts |
| Counters.TextSymbolsAreNonSpaces | Report/NxlReader/Nest.cs:311-315 | the text-symbol count is the number of non-space characters in the templates' texts only |
| Counters.BridgeCount | Report/NxlReader/Nest.cs:284-307 | the bridges appended are as many as the "Bridge" and "HalfBridge" children |
| Entities.PartProfilesAppend | Report/NxlReader/Nest.cs:193 | the profiles of concatenated part lists are the concatenated profiles |
| Entities.ProfileGeometryAppend | Report/NxlReader/Nest.cs:212 | the primitives of concatenated profile lists are the concatenated primitives |
| Placement.FlipDirection | Report/NxlReader/Nest.cs:216 | the new sense is "CW" exactly when the old one was "CCW", and is always "CW" or "CCW" |
| Placement.FlipArc | Report/NxlReader/Nest.cs:214-217 | a primitive keeps its kind and its start and end. A line is unchanged; an arc keeps its centre and takes the flipped sense |
| Placement.FlipArcs | Report/NxlReader/Nest.cs:212-218 | each primitive of the list is flipped on its own; the length is kept |
| Placement.FlipProfiles | Report/NxlReader/Nest.cs:210-219 | each profile keeps its technology data and has its primitives flipped |
| Placement.Reanchor | Report/NxlReader/Nest.cs:228-232 | every text takes the part's matrix, its reference point becomes the transform of the old one, and its string is kept |
| Placement.PlaceSpec | Report/NxlReader/Nest.cs:205-233 | one pass over a part keeps its matrix, detail text, profile count, technology data, primitive kinds and start/end/centre points. Arcs change sense exactly when the part is mirrored, and every text is re-anchored once |
| Placement.PlaceAll | Report/NxlReader/Nest.cs:205-233 | every part is placed on its own, and the number of parts is kept |
| Placement.FlipArcsTwice | Report/NxlReader/Nest.cs:216 | flipping twice restores every list whose arcs are all "CW" or "CCW" |
| Placement.FlipArcTwice | Report/NxlReader/Nest.cs:216 | flipping twice restores a primitive whose sense is "CW" or "CCW" |
| Placement.FlipNormalisesUnknownSense | Report/NxlReader/Nest.cs:216 | any other sense becomes "CCW", and then "CW" after a second flip |
| Placement.FlipPrimitives | Report/NxlReader/Nest.cs:212-218 | the loop over one profile's primitives computes exactly the flipped list |
| Placement.FlipPartProfiles | Report/NxlReader/Nest.cs:210-219 | the loop over a part's profiles computes exactly the flipped profiles |
| Placement.ReanchorTexts | Report/NxlReader/Nest.cs:228-232 | the loop over a part's texts computes exactly the re-anchored texts |
| Placement.PlacePart | Report/NxlReader/Nest.cs:207-232 | the body of the indexed loop computes exactly the placed part |
| Bounds.GeometryPoints | Report/NxlReader/Nest.cs:327-368 | two scanned points per primitive: its start, then its end |
| Bounds.GeometryPointsMembers | Report/NxlReader/Nest.cs:327-368 | a point is scanned exactly when it is the start or end of some primitive; centres play no part |
| Bounds.TextPoints | Report/NxlReader/Nest.cs:499-520 | one scanned point per top-level text: its reference point |
| Bounds.ScanIsTight | Report/NxlReader/Nest.cs:322-520 | from the sentinels, a non-empty scan yields a box that contains every point, and each of its four bounds is attained by a point |
| Bounds.IncludeKeepsTight | Report/NxlReader/Nest.cs:329-367 | one more point through the four comparisons keeps the box tight |
| Bounds.ScanGrowsOutward | Report/NxlReader/Nest.cs:329-367 | a further point never shrinks the box; a point beyond a bound moves that bound onto it; a point inside leaves the box unchanged |
| Bounds.TightUnique | Report/NxlReader/Nest.cs:322-520 | the tight box of a point set is unique |
| Bounds.ScanOrderIndependent | Report/NxlReader/Nest.cs:322-520 | the scanned box does not depend on the order or repetition of the points |
| Bounds.ScanAppend | Report/NxlReader/Nest.cs:327-520 | consecutive loops continue from the accumulators the previous loop left |
| Bounds.GeometryPointsAppend | Report/NxlReader/Nest.cs:456 | the scanned points of concatenated primitive lists are the concatenated points |
| Bounds.ProfilesKeepPoints | Report/NxlReader/Nest.cs:456-497 | profiles whose primitives agree on starts and ends yield the same scanned points |
| Bounds.GeometryKeepsPoints | Report/NxlReader/Nest.cs:456-497 | primitive lists that agree on starts and ends yield the same scanned points |
| Bounds.PlaceKeepsPoints | Report/NxlReader/Nest.cs:205-233 | placing a part does not move the points the box scans |
| Bounds.PlacementKeepsPartPoints | Report/NxlReader/Nest.cs:205-233 | the placement pass leaves the points scanned over the parts unchanged |
| Bounds.Ceil | Report/NxlReader/Nest.cs:522-525 | `Math.Ceiling`: the least integer not below its argument |
| Bounds.BoxOf | Report/NxlReader/Nest.cs:522-527 | the origin and the extent are rounded up, and width and height are never negative |
| Bounds.ScanGeometry | Report/NxlReader/Nest.cs:327-368 | one geometry loop leaves the accumulators at the scan of the starts and ends of its primitives |
| Bounds.ScanTexts | Report/NxlReader/Nest.cs:499-520 | the text loop leaves the accumulators at the scan of the texts' reference points |
| NestReader.NextRidgesCoverPlacedParts | Report/NxlReader/Nest.cs:193-233 | the ridges a read adds are the ridge sum of every part the nest holds afterwards, placed or not |
| NestReader.NextAppends | Report/NxlReader/Nest.cs:64-307 | every list a read touches keeps its old entries as a prefix. The parts held before stay in front and are placed again |
| NestReader.NextTwice | Report/NxlReader/Nest.cs:193-307 | a second read of the same document appends its bridges again. It adds the new parts' ridges twice more, and those of the parts held before once more |
| NestReader.ReadSections | Report/NxlReader/Nest.cs:60-315 | the section loops, the ridge loop and the placement loop compute exactly the contents `Next` describes |
| NestReader.PlaceParts | Report/NxlReader/Nest.cs:205-233 | the indexed loop places every part exactly once |
| NestReader.Nest.constructor | Report/NxlReader/Nest.cs:13-23 | a new nest holds nothing and its counters are zero |
| NestReader.Nest.Read | Report/NxlReader/Nest.cs:25-318 | a missing file changes nothing; otherwise the nest's new contents are `Next` of its old contents |
| NestReader.Nest.Store | Report/NxlReader/Nest.cs:13-23 | after the store, the eleven fields hold the given contents |
| NestReader.Nest.GetBBox | Report/NxlReader/Nest.cs:320-528 | the result is the rounded-up rectangle of the unique tight box of the scanned points, with non-negative width and height |

## Left out

- File access, gzip decompression and XML loading (Nest.cs:27-35) are I/O. `Read` takes the loaded document, or `None` when the file does not exist. The stream that is never disposed is not modelled.
- The parsers that are not part of this model, and `Matrix33.TransformPoint`, are arbitrary functions in `Decoders`. Each is total: the model assumes every such call returns a value, including `Matrix33.Read` of an absent `Matrix` element (Nest.cs:141, 171), whose result the placement pass dereferences at Nest.cs:208-210. The attribute reads for the machine are modelled; nothing is proved about the machine or the plate beyond what `Next` assigns.
- `Console.WriteLine` diagnostics for unknown annotation and bridge elements (Nest.cs:262, 300) are output only. The model skips those elements silently.
- Commented-out code (Nest.cs:221-226, 244-255) is not behaviour. Geometry coordinates stay untransformed.
- Crash paths are preconditions rather than modelled failures. They cover a missing Nest element or section, a missing DbInfo/ID, Elements or Texts on an original part, and a missing Profiles section on a matched "PartInfo" or on a "RemnantInfo". For `GetBBox` they cover a missing plate, which the source dereferences.
- `GetBBox` also requires at least one scanned point. With none, the source does not crash: it returns the `(int)Math.Ceiling` casts of its `double.MaxValue`/`double.MinValue` sentinels and of their differences (Nest.cs:522-525). The model does not represent those values.
- A DetailId element without a TextProfile child is excluded by the same precondition. `TextProfile.Read` is not part of this model, and its handling of an absent node is unknown.
- Nest.cs:133 calls `DeepCopy()` on the result of `Find` before the null check at line 134. The skip for an unmatched instance is reached only if `DeepCopy` accepts null. `DeepCopy` is not part of this model, so the lookup is an `Option` and an unmatched instance is skipped.
- Parts, profiles, primitives and texts are values. The in-place updates of `Arc.Direction` and of a part's texts (Nest.cs:205-233) are modelled as replacing the part in the list. Two parts can never share a primitive in the model. In the source that isolation rests on `DeepCopy` (Nest.cs:133) copying the template's profiles and primitives deeply; `DeepCopy` is not part of this model, so whether it does is not shown.
- `Nest.Read` computes its results on values and then stores all eleven fields at once. The source updates them section by section. A run that crashes part-way leaves a partly updated object in the source; the preconditions rule that run out.
- Coordinates are reals. Floating-point rounding, the `double.MinValue`/`double.MaxValue` sentinels and overflow of the `(int)Math.Ceiling` casts are not modelled.
- Counters.TextsSymbols: a text's symbol count is its number of non-space Unicode characters. The source's `string.Length` counts UTF-16 code units, so a character outside the Basic Multilingual Plane counts 1 here and 2 in the source.
- Counters.TextSymbols: `int` overflow of the LINQ `Sum` and of `RidgesCount +=` is not modelled; counts are unbounded integers.
- A part template is a separate `Template` value holding an identifier, profiles and texts. In the source it is a `Part` with only those properties set.
