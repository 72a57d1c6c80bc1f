/** The already-parsed document tree that the reader walks, and the
    element-selection loops that appear throughout the reader. */
module Xml {
  import opened Options

  /** An element: its local name, its text value, its attributes and its
      child elements in document order. */
  datatype XNode = XNode(name: string, value: string, attributes: map<string, string>, children: seq<XNode>)

  /** The first element of `cs` with the given local name, if any. */
  function FirstNamed(cs: seq<XNode>, name: string): Option<XNode>
  {
    if cs == [] then None
    else if cs[0].name == name then Some(cs[0])
    else FirstNamed(cs[1..], name)
  }

  /** `FirstNamed` finds nothing exactly when no element has the name, and
      otherwise finds an element with that name that no earlier one has. */
  lemma {:induction false} FirstNamedIsFirst(cs: seq<XNode>, name: string)
    ensures FirstNamed(cs, name).None? <==> forall c :: c in cs ==> c.name != name
    ensures FirstNamed(cs, name).Some? ==>
              exists i :: 0 <= i < |cs| && cs[i] == FirstNamed(cs, name).value && cs[i].name == name &&
                          forall j :: 0 <= j < i ==> cs[j].name != name
  {
    if cs != [] && cs[0].name != name {
      FirstNamedIsFirst(cs[1..], name);
      assert forall c :: c in cs ==> c == cs[0] || c in cs[1..];
      if FirstNamed(cs, name).Some? {
        var i :| 0 <= i < |cs[1..]| && cs[1..][i] == FirstNamed(cs, name).value && cs[1..][i].name == name &&
                 forall j :: 0 <= j < i ==> cs[1..][j].name != name;
        assert cs[i + 1] == cs[1..][i];
        assert forall j :: 1 <= j < i + 1 ==> cs[j] == cs[1..][j - 1];
      }
    }
  }

  /** `n.Element(name)`: the first child element with that local name. */
  function Element(n: XNode, name: string): Option<XNode>
  {
    FirstNamed(n.children, name)
  }

  /** `n.Element(outer)?.Element(inner)`. */
  function ElementAt(n: XNode, outer: string, inner: string): Option<XNode>
  {
    match Element(n, outer)
    case None => None
    case Some(o) => Element(o, inner)
  }

  /** `n.Attribute(key)?.Value`. */
  function Attribute(n: XNode, key: string): Option<string>
  {
    if key in n.attributes then Some(n.attributes[key]) else None
  }

  /** The elements of `nodes` whose name is in `names`, in document order. */
  function Named(nodes: seq<XNode>, names: set<string>): (r: seq<XNode>)
    ensures |r| <= |nodes|
    ensures forall i :: 0 <= i < |r| ==> r[i] in nodes && r[i].name in names
  {
    if nodes == [] then []
    else
      var last := nodes[|nodes| - 1];
      Named(nodes[..|nodes| - 1], names) + (if last.name in names then [last] else [])
  }

  /** The named elements are exactly the elements with a selected name. */
  lemma {:induction false} NamedMembers(nodes: seq<XNode>, names: set<string>)
    ensures forall n :: n in Named(nodes, names) <==> n in nodes && n.name in names
  {
    if nodes != [] {
      var init, last := nodes[..|nodes| - 1], nodes[|nodes| - 1];
      assert nodes == init + [last];
      NamedMembers(init, names);
    }
  }

  /** What a `foreach (var node in nodes) if (names contains node.Name.LocalName)
      list.Add(read(node))` loop appends: one decoded value per selected
      element, in document order. */
  function Select<T>(nodes: seq<XNode>, names: set<string>, read: XNode -> T): (r: seq<T>)
    ensures |r| <= |nodes|
  {
    if nodes == [] then []
    else
      var last := nodes[|nodes| - 1];
      Select(nodes[..|nodes| - 1], names, read) + (if last.name in names then [read(last)] else [])
  }

  /** The selection reads exactly the named elements, one value each, in order;
      elements with other names add nothing. */
  lemma {:induction false} SelectReadsNamed<T>(nodes: seq<XNode>, names: set<string>, read: XNode -> T)
    ensures |Select(nodes, names, read)| == |Named(nodes, names)|
    ensures forall i :: 0 <= i < |Named(nodes, names)| ==>
              Select(nodes, names, read)[i] == read(Named(nodes, names)[i])
  {
    if nodes != [] {
      SelectReadsNamed(nodes[..|nodes| - 1], names, read);
    }
  }

  /** Selection distributes over concatenation of the element list. */
  lemma {:induction false} SelectAppend<T>(a: seq<XNode>, b: seq<XNode>, names: set<string>, read: XNode -> T)
    ensures Select(a + b, names, read) == Select(a, names, read) + Select(b, names, read)
  {
    if b != [] {
      var b' := b[..|b| - 1];
      assert (a + b)[..|a + b| - 1] == a + b';
      assert (a + b)[|a + b| - 1] == b[|b| - 1];
      SelectAppend(a, b', names, read);
    } else {
      assert a + b == a;
    }
  }

  /** A value is selected exactly when some element with a selected name decodes to it. */
  lemma SelectMembership<T>(nodes: seq<XNode>, names: set<string>, read: XNode -> T, x: T)
    ensures x in Select(nodes, names, read) <==> exists n :: n in nodes && n.name in names && read(n) == x
  {
    SelectReadsNamed(nodes, names, read);
    NamedMembers(nodes, names);
    var s, m := Select(nodes, names, read), Named(nodes, names);
    if x in s {
      var i :| 0 <= i < |s| && s[i] == x;
      assert m[i] in m;
    }
    if exists n :: n in nodes && n.name in names && read(n) == x {
      var n :| n in nodes && n.name in names && read(n) == x;
      assert n in m;
      var i :| 0 <= i < |m| && m[i] == n;
      assert s[i] == x;
    }
  }

  /** The loop itself: walk `nodes` once and append the decoded value of every
      element whose name is in `names`. */
  method Collect<T>(nodes: seq<XNode>, names: set<string>, read: XNode -> T) returns (r: seq<T>)
    ensures r == Select(nodes, names, read)
  {
    r := [];
    for k := 0 to |nodes|
      invariant r == Select(nodes[..k], names, read)
    {
      assert nodes[..k + 1][..k] == nodes[..k];
      if nodes[k].name in names {
        r := r + [read(nodes[k])];
      }
    }
    assert nodes[..|nodes|] == nodes;
  }
}
