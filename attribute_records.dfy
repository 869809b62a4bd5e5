/**
 * The attribute-name record of an HTML parser: for each of four parsing
 * modes it holds a namespace URI, a local name, a prefix and the qualified
 * name derived from the last two, plus the NCName flags, the xmlns flag and
 * the content type tag.  Records are immutable values; the helpers that
 * build the per-mode arrays, the two constructors, COMPUTE_QNAME, the
 * dynamic `create` overloads and the mode-indexed accessors live here.
 */
module AttributeRecords {

  datatype Option<T> = None | Some(value: T)

  /** The four modes; the ordinal is the index into every per-mode array. */
  const HTML: int := 0
  const MATHML: int := 1
  const SVG: int := 2
  const HTML_LANG: int := 3

  predicate IsMode(mode: int) {
    0 <= mode < 4
  }

  const XML_NS: string := "http://www.w3.org/XML/1998/namespace"
  const XLINK_NS: string := "http://www.w3.org/1999/xlink"
  const XMLNS_NS: string := "http://www.w3.org/2000/xmlns/"

  /** The qualified name of one mode: the local name, or prefix ":" local. */
  function Qualify(prefix: Option<string>, local: string): string {
    match prefix
    case None => local
    case Some(p) => p + ":" + local
  }

  /** The qName array COMPUTE_QNAME derives from the local and prefix arrays. */
  function QNames(local: seq<string>, prefix: seq<Option<string>>): (q: seq<string>)
    requires |local| >= 4 && |prefix| >= 4
    ensures |q| == 4
  {
    seq(4, i requires 0 <= i < 4 => Qualify(prefix[i], local[i]))
  }

  /**
   * One attribute name.  `shared` stands for the reference identity Java
   * gives every `new AttributeName`: it is true for the constants of the
   * static table and false for every record `create` makes, so that the
   * identity tests against the constants (isBoolean, isCaseFolded) never
   * hold of a dynamically created record that happens to have equal fields.
   */
  datatype AttributeName = AttributeName(
    attrType: string,
    uri: seq<string>,
    local: seq<string>,
    prefix: seq<Option<string>>,
    qName: seq<string>,
    ncname: seq<bool>,
    xmlns: bool,
    shared: bool)
  {
    /** Every per-mode array has four entries and qName is derived, never set. */
    predicate Valid() {
      && |uri| == 4 && |local| == 4 && |prefix| == 4 && |ncname| == 4
      && qName == QNames(local, prefix)
    }

    function GetUri(mode: int): string
      requires Valid() && IsMode(mode)
    {
      uri[mode]
    }

    function GetLocal(mode: int): string
      requires Valid() && IsMode(mode)
    {
      local[mode]
    }

    function GetPrefix(mode: int): Option<string>
      requires Valid() && IsMode(mode)
    {
      prefix[mode]
    }

    /** The qualified name of a mode is its prefix and local name joined by ':'. */
    function GetQName(mode: int): (q: string)
      requires Valid() && IsMode(mode)
      ensures GetPrefix(mode).None? ==> q == GetLocal(mode)
      ensures GetPrefix(mode).Some? ==> q == GetPrefix(mode).value + ":" + GetLocal(mode)
    {
      qName[mode]
    }

    /** The content type does not depend on the mode. */
    function GetType(mode: int): string {
      attrType
    }

    predicate IsNcName(mode: int)
      requires Valid() && IsMode(mode)
    {
      ncname[mode]
    }

    predicate IsXmlns() {
      xmlns
    }

    /**
     * Two records name the same attribute when their HTML-mode local names
     * are equal (Java compares interned strings by reference).
     */
    predicate EqualsAnother(another: AttributeName)
      requires Valid() && another.Valid()
    {
      GetLocal(HTML) == another.GetLocal(HTML)
    }
  }

  // The fixed per-mode arrays.
  const ALL_NO_NS: seq<string> := ["", "", "", ""]
  const ALL_NO_PREFIX: seq<Option<string>> := [None, None, None, None]
  const ALL_NCNAME: seq<bool> := [true, true, true, true]
  const ALL_NO_NCNAME: seq<bool> := [false, false, false, false]

  /** The namespace only in the MathML and SVG slots. */
  function Namespace(ns: string): (r: seq<string>)
    ensures |r| == 4
  {
    ["", ns, ns, ""]
  }

  /** The camel-cased spelling only in the SVG slot. */
  function CamelCaseLocal(name: string, camel: string): (r: seq<string>)
    ensures |r| == 4
  {
    [name, name, camel, name]
  }

  /** The colonised spelling in the HTML and HTML_LANG slots, the suffix in the others. */
  function ColonifiedLocal(name: string, suffix: string): (r: seq<string>)
    ensures |r| == 4
  {
    [name, suffix, suffix, name]
  }

  /** The prefix only in the MathML and SVG slots. */
  function Prefix(prefix: string): (r: seq<Option<string>>)
    ensures |r| == 4
  {
    [None, Some(prefix), Some(prefix), None]
  }

  function SameLowerCaseLocal(name: string): (r: seq<string>)
    ensures |r| == 4
  {
    [name, name, name, name]
  }

  /** The constructor that takes a content type. */
  function NewAttributeName(attrType: string, uri: seq<string>, local: seq<string>,
                            prefix: seq<Option<string>>, ncname: seq<bool>, xmlns: bool,
                            shared: bool): (r: AttributeName)
    requires |uri| == 4 && |local| == 4 && |prefix| == 4 && |ncname| == 4
    ensures r.Valid()
    ensures r.attrType == attrType && r.uri == uri && r.local == local && r.prefix == prefix
    ensures r.ncname == ncname && r.xmlns == xmlns && r.shared == shared
    ensures forall m :: IsMode(m) ==> r.GetQName(m) == Qualify(prefix[m], local[m])
  {
    AttributeName(attrType, uri, local, prefix, QNames(local, prefix), ncname, xmlns, shared)
  }

  /** The constructor without a content type: the type is "CDATA". */
  function NewCDataAttributeName(uri: seq<string>, local: seq<string>, prefix: seq<Option<string>>,
                                 ncname: seq<bool>, xmlns: bool, shared: bool): (r: AttributeName)
    requires |uri| == 4 && |local| == 4 && |prefix| == 4 && |ncname| == 4
    ensures r == NewAttributeName("CDATA", uri, local, prefix, ncname, xmlns, shared)
  {
    AttributeName("CDATA", uri, local, prefix, QNames(local, prefix), ncname, xmlns, shared)
  }

  /**
   * COMPUTE_QNAME: fills a fresh four-element array, slot by slot, with the
   * local name or with prefix ':' local name.
   */
  method ComputeQName(local: seq<string>, prefix: seq<Option<string>>) returns (qName: seq<string>)
    requires |local| >= 4 && |prefix| >= 4
    ensures |qName| == 4
    ensures forall i :: 0 <= i < 4 && prefix[i].None? ==> qName[i] == local[i]
    ensures forall i :: 0 <= i < 4 && prefix[i].Some? ==> qName[i] == prefix[i].value + ":" + local[i]
    ensures qName == QNames(local, prefix)
  {
    var rv := new string[4];
    for i := 0 to rv.Length
      invariant forall k :: 0 <= k < i ==> rv[k] == Qualify(prefix[k], local[k])
    {
      if prefix[i].None? {
        rv[i] := local[i];
      } else {
        rv[i] := prefix[i].value + ":" + local[i];
      }
    }
    qName := rv[..];
  }

  /** String.startsWith. */
  predicate StartsWith(s: string, p: string) {
    |p| <= |s| && s[..|p|] == p
  }

  /**
   * create(name, checkNcName): a record for a name that is not in the static
   * table.  NCName.isNCName is outside this model and is the parameter
   * `isNCName`.
   */
  function Create(name: string, checkNcName: bool, isNCName: string -> bool): (r: AttributeName)
    ensures r.Valid() && !r.shared && r.attrType == "CDATA"
    ensures forall m :: IsMode(m) ==>
      && r.GetUri(m) == "" && r.GetPrefix(m) == None && r.GetLocal(m) == name
      && r.GetQName(m) == name
    ensures r.IsXmlns() <==> "xmlns:" <= name
    ensures !checkNcName ==> forall m :: IsMode(m) ==> r.IsNcName(m)
    ensures checkNcName && r.IsXmlns() ==> forall m :: IsMode(m) ==> !r.IsNcName(m)
    ensures checkNcName && !r.IsXmlns() ==> forall m :: IsMode(m) ==> (r.IsNcName(m) <==> isNCName(name))
  {
    var xmlns := StartsWith(name, "xmlns:");
    var ncName := if checkNcName then (if xmlns then false else isNCName(name)) else true;
    NewCDataAttributeName(ALL_NO_NS, SameLowerCaseLocal(name), ALL_NO_PREFIX,
                          if ncName then ALL_NCNAME else ALL_NO_NCNAME, xmlns, false)
  }

  /**
   * create(name): the overload used without NCName checking.  Its records
   * are NCNames in every mode and are never xmlns, even for "xmlns:..." names.
   */
  function CreateUnchecked(name: string): (r: AttributeName)
    ensures r.Valid() && !r.shared && r.attrType == "CDATA"
    ensures forall m :: IsMode(m) ==>
      && r.GetUri(m) == "" && r.GetPrefix(m) == None && r.GetLocal(m) == name
      && r.GetQName(m) == name && r.IsNcName(m)
    ensures !r.IsXmlns()
  {
    NewCDataAttributeName(ALL_NO_NS, SameLowerCaseLocal(name), ALL_NO_PREFIX, ALL_NCNAME, false, false)
  }

  /** The two overloads agree exactly on the names that do not start with "xmlns:". */
  lemma CreateUncheckedAgrees(name: string, isNCName: string -> bool)
    ensures CreateUnchecked(name) == Create(name, false, isNCName) <==> !("xmlns:" <= name)
  {
    if "xmlns:" <= name {
      assert Create(name, false, isNCName).xmlns;
    }
  }

  /**
   * A prefixed qualified name splits back into its prefix and local name at
   * the first colon, provided the prefix has no colon of its own.
   */
  lemma {:induction false} QualifySplits(p: string, local: string)
    requires forall k :: 0 <= k < |p| ==> p[k] != ':'
    ensures var q := Qualify(Some(p), local);
      && |p| < |q| && q[|p|] == ':'
      && (forall k :: 0 <= k < |p| ==> q[k] != ':')
      && q[..|p|] == p && q[|p| + 1..] == local
  {
    var q := Qualify(Some(p), local);
    assert q == p + ":" + local;
    assert q[..|p|] == p;
    assert q[|p| + 1..] == local;
  }

  /**
   * Rows built with NAMESPACE, COLONIFIED_LOCAL and PREFIX (the xml:, xlink:
   * and xmlns:xlink rows) have the same colonised qualified name in all four
   * modes, while the local name loses its prefix in the MathML and SVG modes.
   */
  lemma ColonifiedRowQName(ns: string, p: string, suffix: string, name: string, ncname: seq<bool>,
                            xmlns: bool)
    requires name == p + ":" + suffix && |ncname| == 4
    ensures var r := NewCDataAttributeName(Namespace(ns), ColonifiedLocal(name, suffix), Prefix(p),
                                           ncname, xmlns, true);
      && (forall m :: IsMode(m) ==> r.GetQName(m) == name)
      && r.GetLocal(HTML) == r.GetLocal(HTML_LANG) == name
      && r.GetLocal(MATHML) == r.GetLocal(SVG) == suffix
      && r.GetPrefix(HTML) == r.GetPrefix(HTML_LANG) == None
      && r.GetPrefix(MATHML) == r.GetPrefix(SVG) == Some(p)
      && r.GetUri(HTML) == r.GetUri(HTML_LANG) == ""
      && r.GetUri(MATHML) == r.GetUri(SVG) == ns
  {
  }

  /** A camel-cased row differs from its lower-case spelling in the SVG mode only. */
  lemma CamelCaseRowQName(name: string, camel: string)
    ensures var r := NewCDataAttributeName(ALL_NO_NS, CamelCaseLocal(name, camel), ALL_NO_PREFIX,
                                           ALL_NCNAME, false, true);
      && r.GetQName(SVG) == camel
      && (forall m :: IsMode(m) && m != SVG ==> r.GetQName(m) == name)
      && (forall m :: IsMode(m) ==> r.GetUri(m) == "" && r.GetPrefix(m) == None)
  {
  }

  /** EqualsAnother is an equivalence on valid records. */
  lemma EqualsAnotherIsEquivalence(a: AttributeName, b: AttributeName, c: AttributeName)
    requires a.Valid() && b.Valid() && c.Valid()
    ensures a.EqualsAnother(a)
    ensures a.EqualsAnother(b) ==> b.EqualsAnother(a)
    ensures a.EqualsAnother(b) && b.EqualsAnother(c) ==> a.EqualsAnother(c)
  {
  }

  /** Two dynamic records made for the same name are equivalent whatever the checking. */
  lemma CreateEquivalent(name: string, check1: bool, check2: bool, isNCName: string -> bool)
    ensures Create(name, check1, isNCName).EqualsAnother(CreateUnchecked(name))
    ensures Create(name, check1, isNCName).EqualsAnother(Create(name, check2, isNCName))
  {
  }
}
