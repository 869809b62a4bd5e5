/**
 * nameByBuffer applied to the static table: what the parser gets back for
 * the names the HTML standard's attribute-adjustment tables single out, for
 * the three kept rows whose local names end in spaces, for names the table does not
 * hold, and for a slice that does not start the buffer.
 */
module TableLookups {
  import opened AttributeRecords
  import opened BufferHash
  import opened NameResolver
  import opened AttributeTable

  // Fingerprints of names that are not rows of the table.
  lemma HashOfControlsUnpadded(s: string)
    requires s == "controls"
    ensures NameHash(s) == 271102503
  {
    AsciiTermsAToG();
    AsciiTermsHToN();
    AsciiTermsOToU();
    assert s[0] == 'c' && s[1] == 'o' && s[2] == 'n' && s[3] == 't' && s[4] == 'r' && s[5] == 'o' && s[6] == 'l' && s[7] == 's';
    assert Min(4, 8) == 4;
    assert TailHash(s, 8, 0) == 0x103;
    assert TailHash(s, 8, 1) == 0x2073;
    assert TailHash(s, 8, 2) == 0x40e6c;
    assert TailHash(s, 8, 3) == 0x81cd8f;
    assert TailHash(s, 8, 4) == 0x1039b1f2;
    assert FrontHash(s, 1) == 0x4;
    assert FrontHash(s, 2) == 0x110;
    assert FrontHash(s, 3) == 0x440f;
    assert FrontHash(s, 4) == 0x1103d5;
  }

  lemma HashOfLoopendUnpadded(s: string)
    requires s == "loopend"
    ensures NameHash(s) == 251083937
  {
    AsciiTermsAToG();
    AsciiTermsHToN();
    AsciiTermsOToU();
    assert s[0] == 'l' && s[1] == 'o' && s[2] == 'o' && s[3] == 'p' && s[4] == 'e' && s[5] == 'n' && s[6] == 'd';
    assert Min(4, 7) == 4;
    assert TailHash(s, 7, 0) == 0xec;
    assert TailHash(s, 7, 1) == 0x1d84;
    assert TailHash(s, 7, 2) == 0x3b08e;
    assert TailHash(s, 7, 3) == 0x7611c5;
    assert TailHash(s, 7, 4) == 0xec238b0;
    assert FrontHash(s, 1) == 0xd;
    assert FrontHash(s, 2) == 0x350;
    assert FrontHash(s, 3) == 0xd410;
    assert FrontHash(s, 4) == 0x350411;
  }

  lemma HashOfAutoplayUnpadded(s: string)
    requires s == "autoplay"
    ensures NameHash(s) == 269869248
  {
    AsciiTermsAToG();
    AsciiTermsHToN();
    AsciiTermsOToU();
    AsciiTermsVToZ();
    assert s[0] == 'a' && s[1] == 'u' && s[2] == 't' && s[3] == 'o' && s[4] == 'p' && s[5] == 'l' && s[6] == 'a' && s[7] == 'y';
    assert Min(4, 8) == 4;
    assert TailHash(s, 8, 0) == 0x101;
    assert TailHash(s, 8, 1) == 0x2039;
    assert TailHash(s, 8, 2) == 0x40721;
    assert TailHash(s, 8, 3) == 0x80e42c;
    assert TailHash(s, 8, 4) == 0x101c8590;
    assert FrontHash(s, 1) == 0x2;
    assert FrontHash(s, 2) == 0x96;
    assert FrontHash(s, 3) == 0x2595;
    assert FrontHash(s, 4) == 0x96550;
  }

  lemma HashOfDataFoo(s: string)
    requires s == "data-foo"
    ensures NameHash(s) == 273914319
  {
    AsciiTermsAToG();
    AsciiTermsOToU();
    AsciiTermsVToZ();
    assert s[0] == 'd' && s[1] == 'a' && s[2] == 't' && s[3] == 'a' && s[4] == '-' && s[5] == 'f' && s[6] == 'o' && s[7] == 'o';
    assert Min(4, 8) == 4;
    assert TailHash(s, 8, 0) == 0x104;
    assert TailHash(s, 8, 1) == 0x208f;
    assert TailHash(s, 8, 2) == 0x411ef;
    assert TailHash(s, 8, 3) == 0x823de6;
    assert TailHash(s, 8, 4) == 0x1047bc8d;
    assert FrontHash(s, 1) == 0x5;
    assert FrontHash(s, 2) == 0x142;
    assert FrontHash(s, 3) == 0x5095;
    assert FrontHash(s, 4) == 0x142542;
  }

  lemma HashOfXmlnsFoo(s: string)
    requires s == "xmlns:foo"
    ensures NameHash(s) == 333668309
  {
    AsciiTermsAToG();
    AsciiTermsHToN();
    AsciiTermsOToU();
    AsciiTermsVToZ();
    assert s[0] == 'x' && s[1] == 'm' && s[2] == 'l' && s[3] == 'n' && s[5] == ':' && s[6] == 'f' && s[7] == 'o' && s[8] == 'o';
    assert Min(4, 9) == 4;
    assert TailHash(s, 9, 0) == 0x138;
    assert TailHash(s, 9, 1) == 0x270f;
    assert TailHash(s, 9, 2) == 0x4e1ef;
    assert TailHash(s, 9, 3) == 0x9c3de6;
    assert TailHash(s, 9, 4) == 0x1387bc9a;
    assert FrontHash(s, 1) == 0x19;
    assert FrontHash(s, 2) == 0x64e;
    assert FrontHash(s, 3) == 0x1938d;
    assert FrontHash(s, 4) == 0x64e34f;
  }

  lemma HashOfXi(s: string)
    requires s == "xi"
    ensures NameHash(s) == 92018
  {
    AsciiTermsHToN();
    AsciiTermsVToZ();
    assert s[0] == 'x' && s[1] == 'i';
    assert Min(4, 2) == 2;
    assert TailHash(s, 2, 0) == 0x58;
    assert TailHash(s, 2, 1) == 0xb09;
    assert TailHash(s, 2, 2) == 0x16138;
    assert FrontHash(s, 1) == 0x19;
    assert FrontHash(s, 2) == 0x64a;
  }

  /**
   * Bare `lang` is the one row that carries the XML namespace and the `xml`
   * prefix, and only in the HTML_LANG mode.
   */
  lemma LangRow()
    ensures LANG.Valid()
    ensures LANG.GetUri(HTML_LANG) == XML_NS && LANG.GetPrefix(HTML_LANG) == Some("xml")
    ensures LANG.GetQName(HTML_LANG) == "xml:lang"
    ensures forall m :: IsMode(m) && m != HTML_LANG ==>
      LANG.GetUri(m) == "" && LANG.GetPrefix(m) == None && LANG.GetQName(m) == "lang"
  {
    assert "xml:lang" == "xml" + ":" + "lang";
  }

  /**
   * `xml:lang` is namespaced in the MathML and SVG modes only: there its
   * local name is `lang` with prefix `xml`; in the HTML and HTML_LANG modes
   * it has no namespace and keeps the colonised local name.  Its qualified
   * name is `xml:lang` in every mode, and it is an NCName only where it is
   * split.
   */
  lemma XmlLangRow()
    ensures XML_LANG.Valid()
    ensures forall m :: IsMode(m) ==> XML_LANG.GetQName(m) == "xml:lang"
    ensures forall m :: IsMode(m) ==> (XML_LANG.IsNcName(m) <==> m == MATHML || m == SVG)
    ensures XML_LANG.GetUri(HTML_LANG) == "" && XML_LANG.GetLocal(HTML_LANG) == "xml:lang"
    ensures XML_LANG.GetUri(HTML) == "" && XML_LANG.GetLocal(HTML) == "xml:lang"
    ensures XML_LANG.GetUri(SVG) == XML_NS && XML_LANG.GetLocal(SVG) == "lang"
    ensures XML_LANG.GetPrefix(SVG) == Some("xml")
    ensures XML_LANG.GetUri(MATHML) == XML_NS && XML_LANG.GetLocal(MATHML) == "lang"
  {
    assert "xml:lang" == "xml" + ":" + "lang";
    ColonifiedRowQName(XML_NS, "xml", "lang", "xml:lang", [false, true, true, false], false);
  }

  /** `xlink:href` follows the same pattern in the XLink namespace. */
  lemma XlinkHrefRow()
    ensures XLINK_HREF.Valid() && !XLINK_HREF.IsXmlns()
    ensures forall m :: IsMode(m) ==> XLINK_HREF.GetQName(m) == "xlink:href"
    ensures XLINK_HREF.GetUri(HTML) == "" && XLINK_HREF.GetLocal(HTML) == "xlink:href"
    ensures XLINK_HREF.GetPrefix(HTML) == None
    ensures XLINK_HREF.GetUri(SVG) == XLINK_NS && XLINK_HREF.GetLocal(SVG) == "href"
    ensures XLINK_HREF.GetPrefix(SVG) == Some("xlink")
    ensures XLINK_HREF.GetUri(MATHML) == XLINK_NS && XLINK_HREF.GetLocal(MATHML) == "href"
  {
    assert "xlink:href" == "xlink" + ":" + "href";
    ColonifiedRowQName(XLINK_NS, "xlink", "href", "xlink:href", [false, true, true, false], false);
  }

  /** `xmlns:xlink` is an xmlns attribute in the XMLNS namespace and an NCName in no mode. */
  lemma XmlnsXlinkRow()
    ensures XMLNS_XLINK.Valid() && XMLNS_XLINK.IsXmlns()
    ensures forall m :: IsMode(m) ==> !XMLNS_XLINK.IsNcName(m) && XMLNS_XLINK.GetQName(m) == "xmlns:xlink"
    ensures XMLNS_XLINK.GetUri(SVG) == XMLNS_NS && XMLNS_XLINK.GetLocal(SVG) == "xlink"
    ensures XMLNS_XLINK.GetPrefix(SVG) == Some("xmlns")
  {
    assert "xmlns:xlink" == "xmlns" + ":" + "xlink";
    ColonifiedRowQName(XMLNS_NS, "xmlns", "xlink", "xmlns:xlink", ALL_NO_NCNAME, true);
  }

  /**
   * Bare `xmlns` is an xmlns attribute in the XMLNS namespace in the MathML
   * and SVG modes, without a prefix, and an NCName in no mode.
   */
  lemma XmlnsRow()
    ensures XMLNS.Valid() && XMLNS.IsXmlns()
    ensures forall m :: IsMode(m) ==>
      && !XMLNS.IsNcName(m) && XMLNS.GetPrefix(m) == None
      && XMLNS.GetLocal(m) == "xmlns" && XMLNS.GetQName(m) == "xmlns"
    ensures XMLNS.GetUri(MATHML) == XMLNS_NS && XMLNS.GetUri(SVG) == XMLNS_NS
    ensures XMLNS.GetUri(HTML) == "" && XMLNS.GetUri(HTML_LANG) == ""
  {
  }

  /** `viewbox` is camel-cased in the SVG mode only. */
  lemma ViewboxRow()
    ensures VIEWBOX.Valid()
    ensures VIEWBOX.GetLocal(SVG) == "viewBox" && VIEWBOX.GetQName(SVG) == "viewBox"
    ensures forall m :: IsMode(m) && m != SVG ==>
      VIEWBOX.GetLocal(m) == "viewbox" && VIEWBOX.GetQName(m) == "viewbox"
  {
    CamelCaseRowQName("viewbox", "viewBox");
  }

  /** `lang` at the start of a buffer resolves to its row. */
  lemma ResolveLang(buf: seq<char>, checkNcName: bool, isNCName: string -> bool)
    requires 4 <= |buf| && buf[..4] == "lang"
    ensures TableInvariant(ATTRIBUTE_HASHES, ATTRIBUTE_NAMES)
    ensures Resolve(ATTRIBUTE_HASHES, ATTRIBUTE_NAMES, buf, 0, 4, checkNcName, isNCName) == LANG
  {
    assert LANG in NAMES_0;
    ResolvesEveryRow(LANG, buf, checkNcName, isNCName);
  }

  /** `xmlns` at the start of a buffer resolves to its row. */
  lemma ResolveXmlns(buf: seq<char>, checkNcName: bool, isNCName: string -> bool)
    requires 5 <= |buf| && buf[..5] == "xmlns"
    ensures TableInvariant(ATTRIBUTE_HASHES, ATTRIBUTE_NAMES)
    ensures Resolve(ATTRIBUTE_HASHES, ATTRIBUTE_NAMES, buf, 0, 5, checkNcName, isNCName) == XMLNS
  {
    assert XMLNS in NAMES_4;
    ResolvesEveryRow(XMLNS, buf, checkNcName, isNCName);
  }

  /** `xml:lang` at the start of a buffer resolves to its row. */
  lemma ResolveXmlLang(buf: seq<char>, checkNcName: bool, isNCName: string -> bool)
    requires 8 <= |buf| && buf[..8] == "xml:lang"
    ensures TableInvariant(ATTRIBUTE_HASHES, ATTRIBUTE_NAMES)
    ensures Resolve(ATTRIBUTE_HASHES, ATTRIBUTE_NAMES, buf, 0, 8, checkNcName, isNCName) == XML_LANG
  {
    assert XML_LANG in NAMES_9;
    ResolvesEveryRow(XML_LANG, buf, checkNcName, isNCName);
  }

  /** `xlink:href` at the start of a buffer resolves to its row. */
  lemma ResolveXlinkHref(buf: seq<char>, checkNcName: bool, isNCName: string -> bool)
    requires 10 <= |buf| && buf[..10] == "xlink:href"
    ensures TableInvariant(ATTRIBUTE_HASHES, ATTRIBUTE_NAMES)
    ensures Resolve(ATTRIBUTE_HASHES, ATTRIBUTE_NAMES, buf, 0, 10, checkNcName, isNCName) == XLINK_HREF
  {
    assert XLINK_HREF in NAMES_12;
    ResolvesEveryRow(XLINK_HREF, buf, checkNcName, isNCName);
  }

  /** `xmlns:xlink` at the start of a buffer resolves to its row. */
  lemma ResolveXmlnsXlink(buf: seq<char>, checkNcName: bool, isNCName: string -> bool)
    requires 11 <= |buf| && buf[..11] == "xmlns:xlink"
    ensures TableInvariant(ATTRIBUTE_HASHES, ATTRIBUTE_NAMES)
    ensures Resolve(ATTRIBUTE_HASHES, ATTRIBUTE_NAMES, buf, 0, 11, checkNcName, isNCName) == XMLNS_XLINK
  {
    assert XMLNS_XLINK in NAMES_12;
    ResolvesEveryRow(XMLNS_XLINK, buf, checkNcName, isNCName);
  }

  /** `viewbox` at the start of a buffer resolves to its row. */
  lemma ResolveViewbox(buf: seq<char>, checkNcName: bool, isNCName: string -> bool)
    requires 7 <= |buf| && buf[..7] == "viewbox"
    ensures TableInvariant(ATTRIBUTE_HASHES, ATTRIBUTE_NAMES)
    ensures Resolve(ATTRIBUTE_HASHES, ATTRIBUTE_NAMES, buf, 0, 7, checkNcName, isNCName) == VIEWBOX
  {
    assert VIEWBOX in NAMES_7;
    ResolvesEveryRow(VIEWBOX, buf, checkNcName, isNCName);
  }

  /** `checked` is both boolean and case-folded; `align` is case-folded only. */
  lemma FlaggedRows()
    ensures IsBoolean(CHECKED) && IsCaseFolded(CHECKED)
    ensures !IsBoolean(ALIGN) && IsCaseFolded(ALIGN)
  {
  }

  /** `checked` resolves to a constant that is both boolean and case-folded. */
  lemma ResolveChecked(buf: seq<char>, checkNcName: bool, isNCName: string -> bool)
    requires 7 <= |buf| && buf[..7] == "checked"
    ensures TableInvariant(ATTRIBUTE_HASHES, ATTRIBUTE_NAMES)
    ensures var r := Resolve(ATTRIBUTE_HASHES, ATTRIBUTE_NAMES, buf, 0, 7, checkNcName, isNCName);
      r == CHECKED && IsBoolean(r) && IsCaseFolded(r)
  {
    assert CHECKED in NAMES_5;
    FlaggedRows();
    ResolvesEveryRow(CHECKED, buf, checkNcName, isNCName);
  }

  /** `align` resolves to a constant that is case-folded but not boolean. */
  lemma ResolveAlign(buf: seq<char>, checkNcName: bool, isNCName: string -> bool)
    requires 5 <= |buf| && buf[..5] == "align"
    ensures TableInvariant(ATTRIBUTE_HASHES, ATTRIBUTE_NAMES)
    ensures var r := Resolve(ATTRIBUTE_HASHES, ATTRIBUTE_NAMES, buf, 0, 5, checkNcName, isNCName);
      r == ALIGN && !IsBoolean(r) && IsCaseFolded(r)
  {
    assert ALIGN in NAMES_2;
    FlaggedRows();
    ResolvesEveryRow(ALIGN, buf, checkNcName, isNCName);
  }

  /**
   * Fourteen rows of the source keep trailing spaces in their local names;
   * three of them (CONTROLS, LOOPEND, AUTOPLAY) are kept here exactly.  Their
   * fingerprints are taken with the spaces: the padded text finds the row,
   * while the name typed without the spaces misses the table and comes back
   * as a fresh record.
   */
  lemma PaddedControlsRow(unpadded: seq<char>, padded: seq<char>, checkNcName: bool, isNCName: string -> bool)
    requires unpadded == "controls" && padded == "controls "
    ensures TableInvariant(ATTRIBUTE_HASHES, ATTRIBUTE_NAMES)
    ensures Resolve(ATTRIBUTE_HASHES, ATTRIBUTE_NAMES, padded, 0, 9, checkNcName, isNCName) == CONTROLS
    ensures Resolve(ATTRIBUTE_HASHES, ATTRIBUTE_NAMES, unpadded, 0, 8, checkNcName, isNCName)
      == Create(unpadded, checkNcName, isNCName)
  {
    assert padded[..9] == padded && unpadded[0..8] == unpadded;
    assert ATTRIBUTE_HASHES[29] == 258926689 && ATTRIBUTE_HASHES[30] == 274116736;
    assert CONTROLS in NAMES_9;
    HashOfControlsUnpadded(unpadded);
    TableWellFormed();
    AbsentBetween(ATTRIBUTE_HASHES, NameHash(unpadded), 30);
    ResolvesEveryRow(CONTROLS, padded, checkNcName, isNCName);
  }

  /** As for `controls `: `loopend ` finds its row, `loopend` does not. */
  lemma PaddedLoopendRow(unpadded: seq<char>, padded: seq<char>, checkNcName: bool, isNCName: string -> bool)
    requires unpadded == "loopend" && padded == "loopend "
    ensures TableInvariant(ATTRIBUTE_HASHES, ATTRIBUTE_NAMES)
    ensures Resolve(ATTRIBUTE_HASHES, ATTRIBUTE_NAMES, padded, 0, 8, checkNcName, isNCName) == LOOPEND
    ensures Resolve(ATTRIBUTE_HASHES, ATTRIBUTE_NAMES, unpadded, 0, 7, checkNcName, isNCName)
      == Create(unpadded, checkNcName, isNCName)
  {
    assert padded[..8] == padded && unpadded[0..7] == unpadded;
    assert ATTRIBUTE_HASHES[27] == 249533729 && ATTRIBUTE_HASHES[28] == 254844367;
    assert LOOPEND in NAMES_7;
    HashOfLoopendUnpadded(unpadded);
    TableWellFormed();
    AbsentBetween(ATTRIBUTE_HASHES, NameHash(unpadded), 28);
    ResolvesEveryRow(LOOPEND, padded, checkNcName, isNCName);
  }

  /** As for `controls `: `autoplay  ` finds its row, `autoplay` does not. */
  lemma PaddedAutoplayRow(unpadded: seq<char>, padded: seq<char>, checkNcName: bool, isNCName: string -> bool)
    requires unpadded == "autoplay" && padded == "autoplay  "
    ensures TableInvariant(ATTRIBUTE_HASHES, ATTRIBUTE_NAMES)
    ensures Resolve(ATTRIBUTE_HASHES, ATTRIBUTE_NAMES, padded, 0, 10, checkNcName, isNCName) == AUTOPLAY
    ensures Resolve(ATTRIBUTE_HASHES, ATTRIBUTE_NAMES, unpadded, 0, 8, checkNcName, isNCName)
      == Create(unpadded, checkNcName, isNCName)
  {
    assert padded[..10] == padded && unpadded[0..8] == unpadded;
    assert ATTRIBUTE_HASHES[29] == 258926689 && ATTRIBUTE_HASHES[30] == 274116736;
    assert AUTOPLAY in NAMES_10;
    HashOfAutoplayUnpadded(unpadded);
    TableWellFormed();
    AbsentBetween(ATTRIBUTE_HASHES, NameHash(unpadded), 30);
    ResolvesEveryRow(AUTOPLAY, padded, checkNcName, isNCName);
  }

  /**
   * A custom data attribute is not in the table and comes back as a fresh
   * record; with NCName checking its flags are isNCName of the text.
   */
  lemma ResolveDataAttribute(buf: seq<char>, checkNcName: bool, isNCName: string -> bool)
    requires buf == "data-foo"
    ensures TableInvariant(ATTRIBUTE_HASHES, ATTRIBUTE_NAMES)
    ensures var r := Resolve(ATTRIBUTE_HASHES, ATTRIBUTE_NAMES, buf, 0, 8, checkNcName, isNCName);
      && r == Create(buf, checkNcName, isNCName) && !r.IsXmlns()
      && !IsBoolean(r) && !IsCaseFolded(r)
      && (forall m :: IsMode(m) ==> r.GetQName(m) == buf && r.GetType(m) == "CDATA")
      && (forall m :: IsMode(m) ==> (r.IsNcName(m) <==> !checkNcName || isNCName(buf)))
  {
    assert buf[0..8] == buf;
    assert buf[0] != "xmlns:"[0];
    assert ATTRIBUTE_HASHES[29] == 258926689 && ATTRIBUTE_HASHES[30] == 274116736;
    HashOfDataFoo(buf);
    CreatedAreNeverFlagged(buf, checkNcName, isNCName);
    TableWellFormed();
    AbsentBetween(ATTRIBUTE_HASHES, NameHash(buf), 30);
  }

  /**
   * An `xmlns:` attribute other than `xmlns:xlink` is not in the table: with
   * NCName checking the fresh record is an xmlns attribute and an NCName in
   * no mode, without it the record is an xmlns attribute that is an NCName
   * in every mode.
   */
  lemma ResolveXmlnsPrefixed(buf: seq<char>, checkNcName: bool, isNCName: string -> bool)
    requires buf == "xmlns:foo"
    ensures TableInvariant(ATTRIBUTE_HASHES, ATTRIBUTE_NAMES)
    ensures var r := Resolve(ATTRIBUTE_HASHES, ATTRIBUTE_NAMES, buf, 0, 9, checkNcName, isNCName);
      && r == Create(buf, checkNcName, isNCName) && r.IsXmlns()
      && (forall m :: IsMode(m) ==> r.GetUri(m) == "" && r.GetQName(m) == buf)
      && (forall m :: IsMode(m) ==> (r.IsNcName(m) <==> !checkNcName))
  {
    assert buf[0..9] == buf;
    assert "xmlns:" <= buf;
    assert ATTRIBUTE_HASHES[42] == 325320188 && ATTRIBUTE_HASHES[43] == 333866609;
    HashOfXmlnsFoo(buf);
    TableWellFormed();
    AbsentBetween(ATTRIBUTE_HASHES, NameHash(buf), 43);
  }

  /**
   * The fingerprint is taken from the start of the buffer, not from
   * `offset`: the text `id` at offset 1 of "xid" is hashed as "xi", misses,
   * and comes back as a fresh record instead of the ID row.
   */
  lemma OffsetSliceMissesRow(buf: seq<char>, checkNcName: bool, isNCName: string -> bool)
    requires buf == "xid"
    ensures TableInvariant(ATTRIBUTE_HASHES, ATTRIBUTE_NAMES)
    ensures var r := Resolve(ATTRIBUTE_HASHES, ATTRIBUTE_NAMES, buf, 1, 2, checkNcName, isNCName);
      && r == Create("id", checkNcName, isNCName) && r != ID
      && r.GetType(HTML) == "CDATA"
  {
    assert buf[..2] == "xi";
    assert buf[1..3] == "id";
    assert ATTRIBUTE_HASHES[1] == 75276 && ATTRIBUTE_HASHES[2] == 3283895;
    HashOfPrefix(buf, 2);
    HashOfXi(buf[..2]);
    TableWellFormed();
    AbsentBetween(ATTRIBUTE_HASHES, NameHash("xi"), 2);
  }
}
