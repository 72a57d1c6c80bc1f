/** The decoded entities of a nest file, and the parsers of the repository
    that the reader calls but that are not part of this model. */
module Entities {
  import opened Options
  import opened Xml

  /** A 2D point; coordinates are exact reals. */
  datatype Point = Point(x: real, y: real)

  /** A geometry primitive of a cut contour. An arc's rotation sense is the
      string the file carries ("CW" or "CCW"). */
  datatype Geometry =
    | Line(start: Point, end: Point)
    | Arc(start: Point, end: Point, center: Point, direction: string)

  /** Technology data of a profile; only the ridge count is used here. */
  datatype Tech = Tech(ridgesCount: int)

  /** An ordered cut contour and its optional technology data. */
  datatype Profile = Profile(geometry: seq<Geometry>, tech: Option<Tech>)

  /** A placement transform: nine coefficients in row-major order; `m8`
      is the coefficient whose sign marks a mirrored placement. */
  datatype Matrix33 = Matrix33(m0: real, m1: real, m2: real,
                               m3: real, m4: real, m5: real,
                               m6: real, m7: real, m8: real)

  /** A text placement. Its matrix is assigned when the owning part is placed. */
  datatype TextProfile = TextProfile(referencePoint: Point, text: string, matrix: Option<Matrix33>)

  /** An original part: the unplaced definition that part instances refer to
      by their order-line identifier. */
  datatype Template = Template(orderlineInfo: string, profiles: seq<Profile>, texts: seq<TextProfile>)

  /** A placed part. */
  datatype Part = Part(matrix: Matrix33, profiles: seq<Profile>, texts: seq<TextProfile>,
                       detailId: Option<TextProfile>)

  /** A remnant: an original remnant has no matrix; a placed remnant has one
      and no texts. */
  datatype Remnant = Remnant(matrix: Option<Matrix33>, profiles: seq<Profile>, texts: seq<TextProfile>)

  /** The sheet being cut. */
  datatype Plate = Plate(profiles: seq<Profile>)

  /** Name and technology attributes of the machine element. */
  datatype Machine = Machine(name: Option<string>, technology: Option<string>)

  /** Records that the reader only carries through; their content is
      whatever the parsers below produce. */
  datatype Bridge = Bridge(fields: map<string, string>)
  datatype DimensionLineAnnotation = DimensionLineAnnotation(fields: map<string, string>)

  /** The parsers and the point transform that the reader calls. They are
      parameters of the model: any decoding they perform is taken as given. */
  datatype Decoders = Decoders(
    profile: XNode -> Profile,                                // Profile.Read
    partInfoProfile: XNode -> Profile,                        // Profile.ReadPartInfo
    text: XNode -> TextProfile,                               // TextProfile.Read
    matrix: Option<XNode> -> Matrix33,                        // Matrix33.Read
    plate: XNode -> Plate,                                    // new Plate(node)
    annotation: Option<XNode> -> DimensionLineAnnotation,     // DimensionLineAnnotation.Read
    bridge: XNode -> Bridge,                                  // Bridge.Read
    transformPoint: (Matrix33, Point) -> Point)               // Matrix33.TransformPoint

  /** `profiles.SelectMany(p => p.Geometry)`. */
  function ProfileGeometry(ps: seq<Profile>): seq<Geometry>
  {
    if ps == [] then [] else ProfileGeometry(ps[..|ps| - 1]) + ps[|ps| - 1].geometry
  }

  /** `parts.SelectMany(p => p.Profiles)`. */
  function PartProfiles(parts: seq<Part>): seq<Profile>
  {
    if parts == [] then [] else PartProfiles(parts[..|parts| - 1]) + parts[|parts| - 1].profiles
  }

  /** `remnants.SelectMany(r => r.Profiles)`. */
  function RemnantProfiles(rs: seq<Remnant>): seq<Profile>
  {
    if rs == [] then [] else RemnantProfiles(rs[..|rs| - 1]) + rs[|rs| - 1].profiles
  }

  lemma {:induction false} PartProfilesAppend(a: seq<Part>, b: seq<Part>)
    ensures PartProfiles(a + b) == PartProfiles(a) + PartProfiles(b)
  {
    if b == [] {
      assert a + b == a;
    } else {
      var b' := b[..|b| - 1];
      assert (a + b)[..|a + b| - 1] == a + b';
      assert (a + b)[|a + b| - 1] == b[|b| - 1];
      PartProfilesAppend(a, b');
    }
  }

  lemma {:induction false} ProfileGeometryAppend(a: seq<Profile>, b: seq<Profile>)
    ensures ProfileGeometry(a + b) == ProfileGeometry(a) + ProfileGeometry(b)
  {
    if b == [] {
      assert a + b == a;
    } else {
      var b' := b[..|b| - 1];
      assert (a + b)[..|a + b| - 1] == a + b';
      assert (a + b)[|a + b| - 1] == b[|b| - 1];
      ProfileGeometryAppend(a, b');
    }
  }
}
