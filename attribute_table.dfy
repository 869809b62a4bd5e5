/**
 * The static table: the constants of the attribute names the tree builder
 * and the serializer know, ATTRIBUTE_NAMES and ATTRIBUTE_HASHES (the two
 * parallel arrays nameByBuffer searches), and the identity predicates
 * isBoolean and isCaseFolded.  Each constant is a shared record built with
 * the array helpers exactly as in the source; the rows kept here are listed
 * in the table's own order, which is ascending fingerprint order.
 */
module AttributeTable {
  import opened AttributeRecords
  import opened BufferHash
  import opened NameResolver

  // The constants, in table order; the cited line is the declaration in AttributeName.java.
  const D: AttributeName :=  // :443
    NewCDataAttributeName(ALL_NO_NS, SameLowerCaseLocal("d"), ALL_NO_PREFIX, ALL_NCNAME, false, true)
  const ID: AttributeName :=  // :462
    NewAttributeName("ID", ALL_NO_NS, SameLowerCaseLocal("id"), ALL_NO_PREFIX, ALL_NCNAME, false, true)
  const DIR: AttributeName :=  // :475
    NewCDataAttributeName(ALL_NO_NS, SameLowerCaseLocal("dir"), ALL_NO_PREFIX, ALL_NCNAME, false, true)
  const LANG: AttributeName :=  // :510
    NewCDataAttributeName(["", "", "", XML_NS], SameLowerCaseLocal("lang"), [None, None, None, Some("xml")], ALL_NCNAME, false, true)
  const TYPE: AttributeName :=  // :512
    NewCDataAttributeName(ALL_NO_NS, SameLowerCaseLocal("type"), ALL_NO_PREFIX, ALL_NCNAME, false, true)
  const REFX: AttributeName :=  // :518
    NewCDataAttributeName(ALL_NO_NS, CamelCaseLocal("refx", "refX"), ALL_NO_PREFIX, ALL_NCNAME, false, true)
  const STEP: AttributeName :=  // :524
    NewCDataAttributeName(ALL_NO_NS, SameLowerCaseLocal("step"), ALL_NO_PREFIX, ALL_NCNAME, false, true)
  const ASYNC: AttributeName :=  // :527
    NewCDataAttributeName(ALL_NO_NS, SameLowerCaseLocal("async"), ALL_NO_PREFIX, ALL_NCNAME, false, true)
  const ALIGN: AttributeName :=  // :529
    NewCDataAttributeName(ALL_NO_NS, SameLowerCaseLocal("align"), ALL_NO_PREFIX, ALL_NCNAME, false, true)
  const CLEAR: AttributeName :=  // :533
    NewCDataAttributeName(ALL_NO_NS, SameLowerCaseLocal("clear"), ALL_NO_PREFIX, ALL_NCNAME, false, true)
  const DEFER: AttributeName :=  // :536
    NewCDataAttributeName(ALL_NO_NS, SameLowerCaseLocal("defer"), ALL_NO_PREFIX, ALL_NCNAME, false, true)
  const FRAME: AttributeName :=  // :538
    NewCDataAttributeName(ALL_NO_NS, SameLowerCaseLocal("frame"), ALL_NO_PREFIX, ALL_NCNAME, false, true)
  const ISMAP: AttributeName :=  // :539
    NewCDataAttributeName(ALL_NO_NS, SameLowerCaseLocal("ismap"), ALL_NO_PREFIX, ALL_NCNAME, false, true)
  const SHAPE: AttributeName :=  // :554
    NewCDataAttributeName(ALL_NO_NS, SameLowerCaseLocal("shape"), ALL_NO_PREFIX, ALL_NCNAME, false, true)
  const SCOPE: AttributeName :=  // :555
    NewCDataAttributeName(ALL_NO_NS, SameLowerCaseLocal("scope"), ALL_NO_PREFIX, ALL_NCNAME, false, true)
  const RULES: AttributeName :=  // :559
    NewCDataAttributeName(ALL_NO_NS, SameLowerCaseLocal("rules"), ALL_NO_PREFIX, ALL_NCNAME, false, true)
  const XMLNS: AttributeName :=  // :563
    NewCDataAttributeName(Namespace(XMLNS_NS), SameLowerCaseLocal("xmlns"), ALL_NO_PREFIX, ALL_NO_NCNAME, true, true)
  const ACTIVE: AttributeName :=  // :567
    NewCDataAttributeName(ALL_NO_NS, SameLowerCaseLocal("active"), ALL_NO_PREFIX, ALL_NCNAME, false, true)
  const NOWRAP: AttributeName :=  // :591
    NewCDataAttributeName(ALL_NO_NS, SameLowerCaseLocal("nowrap"), ALL_NO_PREFIX, ALL_NCNAME, false, true)
  const NOHREF: AttributeName :=  // :592
    NewCDataAttributeName(ALL_NO_NS, SameLowerCaseLocal("nohref"), ALL_NO_PREFIX, ALL_NCNAME, false, true)
  const METHOD: AttributeName :=  // :594
    NewCDataAttributeName(ALL_NO_NS, SameLowerCaseLocal("method"), ALL_NO_PREFIX, ALL_NCNAME, false, true)
  const VALIGN: AttributeName :=  // :602
    NewCDataAttributeName(ALL_NO_NS, SameLowerCaseLocal("valign"), ALL_NO_PREFIX, ALL_NCNAME, false, true)
  const CHECKED: AttributeName :=  // :621
    NewCDataAttributeName(ALL_NO_NS, SameLowerCaseLocal("checked"), ALL_NO_PREFIX, ALL_NCNAME, false, true)
  const COMPACT: AttributeName :=  // :627
    NewCDataAttributeName(ALL_NO_NS, SameLowerCaseLocal("compact"), ALL_NO_PREFIX, ALL_NCNAME, false, true)
  const ENCTYPE: AttributeName :=  // :629
    NewCDataAttributeName(ALL_NO_NS, SameLowerCaseLocal("enctype"), ALL_NO_PREFIX, ALL_NCNAME, false, true)
  const DECLARE: AttributeName :=  // :632
    NewCDataAttributeName(ALL_NO_NS, SameLowerCaseLocal("declare"), ALL_NO_PREFIX, ALL_NCNAME, false, true)
  const DEFAULT: AttributeName :=  // :635
    NewCDataAttributeName(ALL_NO_NS, SameLowerCaseLocal("default"), ALL_NO_PREFIX, ALL_NCNAME, false, true)
  const NOSHADE: AttributeName :=  // :652
    NewCDataAttributeName(ALL_NO_NS, SameLowerCaseLocal("noshade"), ALL_NO_PREFIX, ALL_NCNAME, false, true)
  const VIEWBOX: AttributeName :=  // :659
    NewCDataAttributeName(ALL_NO_NS, CamelCaseLocal("viewbox", "viewBox"), ALL_NO_PREFIX, ALL_NCNAME, false, true)
  const REPLACE: AttributeName :=  // :669
    NewCDataAttributeName(ALL_NO_NS, SameLowerCaseLocal("replace"), ALL_NO_PREFIX, ALL_NCNAME, false, true)
  const DISABLED: AttributeName :=  // :681
    NewCDataAttributeName(ALL_NO_NS, SameLowerCaseLocal("disabled"), ALL_NO_PREFIX, ALL_NCNAME, false, true)
  const LOOPEND: AttributeName :=  // :684
    NewCDataAttributeName(ALL_NO_NS, SameLowerCaseLocal("loopend "), ALL_NO_PREFIX, ALL_NCNAME, false, true)
  const NORESIZE: AttributeName :=  // :699
    NewCDataAttributeName(ALL_NO_NS, SameLowerCaseLocal("noresize"), ALL_NO_PREFIX, ALL_NCNAME, false, true)
  const MULTIPLE: AttributeName :=  // :702
    NewCDataAttributeName(ALL_NO_NS, SameLowerCaseLocal("multiple"), ALL_NO_PREFIX, ALL_NCNAME, false, true)
  const READONLY: AttributeName :=  // :707
    NewCDataAttributeName(ALL_NO_NS, SameLowerCaseLocal("readonly"), ALL_NO_PREFIX, ALL_NCNAME, false, true)
  const SELECTED: AttributeName :=  // :708
    NewCDataAttributeName(ALL_NO_NS, SameLowerCaseLocal("selected"), ALL_NO_PREFIX, ALL_NCNAME, false, true)
  const REQUIRED: AttributeName :=  // :713
    NewCDataAttributeName(ALL_NO_NS, SameLowerCaseLocal("required"), ALL_NO_PREFIX, ALL_NCNAME, false, true)
  const XML_BASE: AttributeName :=  // :714
    NewCDataAttributeName(Namespace(XML_NS), ColonifiedLocal("xml:base", "base"), Prefix("xml"), [false, true, true, false], false, true)
  const XML_LANG: AttributeName :=  // :715
    NewCDataAttributeName(Namespace(XML_NS), ColonifiedLocal("xml:lang", "lang"), Prefix("xml"), [false, true, true, false], false, true)
  const CONTROLS: AttributeName :=  // :717
    NewCDataAttributeName(ALL_NO_NS, SameLowerCaseLocal("controls "), ALL_NO_PREFIX, ALL_NCNAME, false, true)
  const AUTOFOCUS: AttributeName :=  // :719
    NewCDataAttributeName(ALL_NO_NS, SameLowerCaseLocal("autofocus"), ALL_NO_PREFIX, ALL_NCNAME, false, true)
  const VALUETYPE: AttributeName :=  // :752
    NewCDataAttributeName(ALL_NO_NS, SameLowerCaseLocal("valuetype"), ALL_NO_PREFIX, ALL_NCNAME, false, true)
  const SCROLLING: AttributeName :=  // :757
    NewCDataAttributeName(ALL_NO_NS, SameLowerCaseLocal("scrolling"), ALL_NO_PREFIX, ALL_NCNAME, false, true)
  const AUTOPLAY: AttributeName :=  // :761
    NewCDataAttributeName(ALL_NO_NS, SameLowerCaseLocal("autoplay  "), ALL_NO_PREFIX, ALL_NCNAME, false, true)
  const XML_SPACE: AttributeName :=  // :762
    NewCDataAttributeName(Namespace(XML_NS), ColonifiedLocal("xml:space", "space"), Prefix("xml"), [false, true, true, false], false, true)
  const AUTOSUBMIT: AttributeName :=  // :765
    NewCDataAttributeName(ALL_NO_NS, SameLowerCaseLocal("autosubmit"), ALL_NO_PREFIX, ALL_NCNAME, false, true)
  const XLINK_TYPE: AttributeName :=  // :807
    NewCDataAttributeName(Namespace(XLINK_NS), ColonifiedLocal("xlink:type", "type"), Prefix("xlink"), [false, true, true, false], false, true)
  const XLINK_ROLE: AttributeName :=  // :808
    NewCDataAttributeName(Namespace(XLINK_NS), ColonifiedLocal("xlink:role", "role"), Prefix("xlink"), [false, true, true, false], false, true)
  const XLINK_HREF: AttributeName :=  // :809
    NewCDataAttributeName(Namespace(XLINK_NS), ColonifiedLocal("xlink:href", "href"), Prefix("xlink"), [false, true, true, false], false, true)
  const XLINK_SHOW: AttributeName :=  // :810
    NewCDataAttributeName(Namespace(XLINK_NS), ColonifiedLocal("xlink:show", "show"), Prefix("xlink"), [false, true, true, false], false, true)
  const XMLNS_XLINK: AttributeName :=  // :851
    NewCDataAttributeName(Namespace(XMLNS_NS), ColonifiedLocal("xmlns:xlink", "xlink"), Prefix("xmlns"), ALL_NO_NCNAME, true, true)
  const XLINK_TITLE: AttributeName :=  // :852
    NewCDataAttributeName(Namespace(XLINK_NS), ColonifiedLocal("xlink:title", "title"), Prefix("xlink"), [false, true, true, false], false, true)
  const AUTOCOMPLETE: AttributeName :=  // :854
    NewCDataAttributeName(ALL_NO_NS, SameLowerCaseLocal("autocomplete"), ALL_NO_PREFIX, ALL_NCNAME, false, true)
  const DATAFORMATAS: AttributeName :=  // :859
    NewCDataAttributeName(ALL_NO_NS, SameLowerCaseLocal("dataformatas"), ALL_NO_PREFIX, ALL_NCNAME, false, true)
  const XLINK_ACTUATE: AttributeName :=  // :932
    NewCDataAttributeName(Namespace(XLINK_NS), ColonifiedLocal("xlink:actuate", "actuate"), Prefix("xlink"), [false, true, true, false], false, true)
  const XLINK_ARCROLE: AttributeName :=  // :933
    NewCDataAttributeName(Namespace(XLINK_NS), ColonifiedLocal("xlink:arcrole", "arcrole"), Prefix("xlink"), [false, true, true, false], false, true)

  // The two arrays are written in blocks of four rows.
  const NAMES_0: seq<AttributeName> := [D, ID, DIR, LANG]
  const NAMES_1: seq<AttributeName> := [TYPE, REFX, STEP, ASYNC]
  const NAMES_2: seq<AttributeName> := [ALIGN, CLEAR, DEFER, FRAME]
  const NAMES_3: seq<AttributeName> := [ISMAP, SHAPE, SCOPE, RULES]
  const NAMES_4: seq<AttributeName> := [XMLNS, ACTIVE, NOWRAP, NOHREF]
  const NAMES_5: seq<AttributeName> := [METHOD, VALIGN, CHECKED, COMPACT]
  const NAMES_6: seq<AttributeName> := [ENCTYPE, DECLARE, DEFAULT, NOSHADE]
  const NAMES_7: seq<AttributeName> := [VIEWBOX, REPLACE, DISABLED, LOOPEND]
  const NAMES_8: seq<AttributeName> := [NORESIZE, MULTIPLE, READONLY, SELECTED]
  const NAMES_9: seq<AttributeName> := [REQUIRED, XML_BASE, XML_LANG, CONTROLS]
  const NAMES_10: seq<AttributeName> := [AUTOFOCUS, VALUETYPE, SCROLLING, AUTOPLAY]
  const NAMES_11: seq<AttributeName> := [XML_SPACE, AUTOSUBMIT, XLINK_TYPE, XLINK_ROLE]
  const NAMES_12: seq<AttributeName> := [XLINK_HREF, XLINK_SHOW, XMLNS_XLINK, XLINK_TITLE]
  const NAMES_13: seq<AttributeName> := [AUTOCOMPLETE, DATAFORMATAS, XLINK_ACTUATE, XLINK_ARCROLE]
  const HASHES_0: seq<int32> := [1153, 75276, 3283895, 150445028]
  const HASHES_1: seq<int32> := [152528754, 157317483, 157894402, 169409980]
  const HASHES_2: seq<int32> := [169856932, 170513710, 173896963, 176129212]
  const HASHES_3: seq<int32> := [179390001, 190992569, 191006194, 191166163]
  const HASHES_4: seq<int32> := [200104642, 203070590, 215285828, 215880731]
  const HASHES_5: seq<int32> := [216684637, 221986406, 237143271, 237703073]
  const HASHES_6: seq<int32> := [239743521, 240560417, 241062755, 249533729]
  const HASHES_7: seq<int32> := [254844367, 258926689, 274116736, 278205908]
  const HASHES_8: seq<int32> := [283110901, 283890012, 291557706, 291665349]
  const HASHES_9: seq<int32> := [292451039, 300298041, 300374839, 302075482]
  const HASHES_10: seq<int32> := [303083839, 322887778, 325320188, 333866609]
  const HASHES_11: seq<int32> := [333868843, 336806130, 367399355, 367420285]
  const HASHES_12: seq<int32> := [367510727, 368013212, 400644707, 400973830]
  const HASHES_13: seq<int32> := [404469244, 408789955, 468058810, 468083581]

  /** ATTRIBUTE_NAMES: the rows, in the order of their fingerprints. */
  const ATTRIBUTE_NAMES: seq<AttributeName> :=
    NAMES_0 + NAMES_1 + NAMES_2 + NAMES_3 + NAMES_4 + NAMES_5 + NAMES_6 + NAMES_7 + NAMES_8 + NAMES_9 + NAMES_10 + NAMES_11 + NAMES_12 + NAMES_13

  /** ATTRIBUTE_HASHES: the fingerprint of each row, at the same index. */
  const ATTRIBUTE_HASHES: seq<int32> :=
    HASHES_0 + HASHES_1 + HASHES_2 + HASHES_3 + HASHES_4 + HASHES_5 + HASHES_6 + HASHES_7 + HASHES_8 + HASHES_9 + HASHES_10 + HASHES_11 + HASHES_12 + HASHES_13


  /**
   * What every kept row satisfies, for h its stored fingerprint: the row is
   * a well-formed shared constant, its fingerprint is that of its HTML-mode
   * local name, and its content type is "ID" exactly when that name is "id".
   */
  predicate RowFacts(h: int32, r: AttributeName) {
    && r.Valid() && r.shared
    && 1 <= |r.local[HTML]| && IsLength(|r.local[HTML]|)
    && h == NameHash(r.local[HTML])
    && r.attrType == (if r.local[HTML] == "id" then "ID" else "CDATA")
  }

  /** A stretch of the table: parallel, strictly ascending, every row holding. */
  predicate RowsHold(hashes: seq<int32>, names: seq<AttributeName>) {
    && |hashes| == |names| && StrictlyAscending(hashes)
    && forall i :: 0 <= i < |names| ==> RowFacts(hashes[i], names[i])
  }

  /** Ascending neighbours make a strictly ascending sequence. */
  lemma {:induction false} AscendingByNeighbours(s: seq<int32>)
    requires forall k :: 0 <= k < |s| - 1 ==> s[k] < s[k + 1]
    ensures StrictlyAscending(s)
  {
    if 1 < |s| {
      AscendingByNeighbours(s[1..]);
      assert forall j :: 1 <= j < |s| ==> s[j] == s[1..][j - 1];
      assert s[0] < s[1];
    }
  }

  /** Four rows that each hold, with ascending fingerprints, hold together. */
  lemma FourRowsHold(h: seq<int32>, n: seq<AttributeName>)
    requires |h| == |n| == 4 && StrictlyAscending(h)
    requires RowFacts(h[0], n[0]) && RowFacts(h[1], n[1]) && RowFacts(h[2], n[2]) && RowFacts(h[3], n[3])
    ensures RowsHold(h, n)
  {
    forall i | 0 <= i < 4
      ensures RowFacts(h[i], n[i])
    {
      if i == 0 { } else if i == 1 { } else if i == 2 { } else { assert i == 3; }
    }
  }

  /** Two stretches that hold, the first ending below the start of the second, hold together. */
  lemma RowsHoldAppend(h1: seq<int32>, n1: seq<AttributeName>, h2: seq<int32>, n2: seq<AttributeName>)
    requires RowsHold(h1, n1) && RowsHold(h2, n2)
    requires 0 < |h1| && 0 < |h2| && h1[|h1| - 1] < h2[0]
    ensures RowsHold(h1 + h2, n1 + n2)
  {
    var h, n := h1 + h2, n1 + n2;
    forall i, j | 0 <= i < j < |h|
      ensures h[i] < h[j]
    {
      if j < |h1| {
        assert h[i] == h1[i] && h[j] == h1[j];
      } else if |h1| <= i {
        assert h[i] == h2[i - |h1|] && h[j] == h2[j - |h1|];
      } else {
        assert h[i] == h1[i] && h[j] == h2[j - |h1|];
        assert h1[i] <= h1[|h1| - 1];
        assert h2[0] <= h2[j - |h1|];
      }
    }
    forall i | 0 <= i < |n|
      ensures RowFacts(h[i], n[i])
    {
      if i < |h1| {
        assert h[i] == h1[i] && n[i] == n1[i];
      } else {
        assert h[i] == h2[i - |h1|] && n[i] == n2[i - |h1|];
      }
    }
  }

  /** A table whose rows hold satisfies the resolver's requirements. */
  lemma RowsMakeTable(hashes: seq<int32>, names: seq<AttributeName>)
    requires RowsHold(hashes, names)
    ensures TableInvariant(hashes, names) && HashesAgree(hashes, names)
    ensures forall i, m :: 0 <= i < |names| && IsMode(m) ==>
      (names[i].GetType(m) == "ID" <==> names[i].GetLocal(HTML) == "id")
  {
    forall i | 0 <= i < |names|
      ensures names[i].Valid() && names[i].shared
    {
      assert RowFacts(hashes[i], names[i]);
    }
    assert TableInvariant(hashes, names);
    forall i | 0 <= i < |names|
      ensures var name := names[i].GetLocal(HTML);
        1 <= |name| && IsLength(|name|) && hashes[i] == NameHash(name)
    {
      assert RowFacts(hashes[i], names[i]);
    }
    forall i, m | 0 <= i < |names| && IsMode(m)
      ensures names[i].GetType(m) == "ID" <==> names[i].GetLocal(HTML) == "id"
    {
      assert RowFacts(hashes[i], names[i]);
    }
  }

  // The fingerprint of each kept row's HTML-mode local name.
  lemma HashOfD(s: string)
    requires s == "d"
    ensures NameHash(s) == 1153
  {
    AsciiTermsAToG();
    assert s[0] == 'd';
    assert Min(4, 1) == 1;
    assert TailHash(s, 1, 0) == 0x24;
    assert TailHash(s, 1, 1) == 0x484;
    assert FrontHash(s, 1) == 0x5;
  }

  lemma HashOfId(s: string)
    requires s == "id"
    ensures NameHash(s) == 75276
  {
    AsciiTermsAToG();
    AsciiTermsHToN();
    assert s[0] == 'i' && s[1] == 'd';
    assert Min(4, 2) == 2;
    assert TailHash(s, 2, 0) == 0x49;
    assert TailHash(s, 2, 1) == 0x924;
    assert TailHash(s, 2, 2) == 0x12489;
    assert FrontHash(s, 1) == 0xa;
    assert FrontHash(s, 2) == 0x285;
  }

  lemma HashOfDir(s: string)
    requires s == "dir"
    ensures NameHash(s) == 3283895
  {
    AsciiTermsAToG();
    AsciiTermsHToN();
    AsciiTermsOToU();
    assert s[0] == 'd' && s[1] == 'i' && s[2] == 'r';
    assert Min(4, 3) == 3;
    assert TailHash(s, 3, 0) == 0x64;
    assert TailHash(s, 3, 1) == 0xc92;
    assert TailHash(s, 3, 2) == 0x19249;
    assert TailHash(s, 3, 3) == 0x324924;
    assert FrontHash(s, 1) == 0x5;
    assert FrontHash(s, 2) == 0x14a;
    assert FrontHash(s, 3) == 0x5293;
  }

  lemma HashOfLang(s: string)
    requires s == "lang"
    ensures NameHash(s) == 150445028
  {
    AsciiTermsAToG();
    AsciiTermsHToN();
    assert s[0] == 'l' && s[1] == 'a' && s[2] == 'n' && s[3] == 'g';
    assert Min(4, 4) == 4;
    assert TailHash(s, 4, 0) == 0x8c;
    assert TailHash(s, 4, 1) == 0x1187;
    assert TailHash(s, 4, 2) == 0x230ee;
    assert TailHash(s, 4, 3) == 0x461dc1;
    assert TailHash(s, 4, 4) == 0x8c3b82c;
    assert FrontHash(s, 1) == 0xd;
    assert FrontHash(s, 2) == 0x342;
    assert FrontHash(s, 3) == 0xd08f;
    assert FrontHash(s, 4) == 0x3423c8;
  }

  lemma HashOfType(s: string)
    requires s == "type"
    ensures NameHash(s) == 152528754
  {
    AsciiTermsAToG();
    AsciiTermsOToU();
    AsciiTermsVToZ();
    assert s[0] == 't' && s[1] == 'y' && s[2] == 'p' && s[3] == 'e';
    assert Min(4, 4) == 4;
    assert TailHash(s, 4, 0) == 0x94;
    assert TailHash(s, 4, 1) == 0x1285;
    assert TailHash(s, 4, 2) == 0x250b0;
    assert TailHash(s, 4, 3) == 0x4a1619;
    assert TailHash(s, 4, 4) == 0x942c334;
    assert FrontHash(s, 1) == 0x15;
    assert FrontHash(s, 2) == 0x55a;
    assert FrontHash(s, 3) == 0x15691;
    assert FrontHash(s, 4) == 0x55a446;
  }

  lemma HashOfRefx(s: string)
    requires s == "refx"
    ensures NameHash(s) == 157317483
  {
    AsciiTermsAToG();
    AsciiTermsOToU();
    AsciiTermsVToZ();
    assert s[0] == 'r' && s[1] == 'e' && s[2] == 'f' && s[3] == 'x';
    assert Min(4, 4) == 4;
    assert TailHash(s, 4, 0) == 0x92;
    assert TailHash(s, 4, 1) == 0x1258;
    assert TailHash(s, 4, 2) == 0x24b06;
    assert TailHash(s, 4, 3) == 0x4960c5;
    assert TailHash(s, 4, 4) == 0x92c18b2;
    assert FrontHash(s, 1) == 0x13;
    assert FrontHash(s, 2) == 0x4c6;
    assert FrontHash(s, 3) == 0x13187;
    assert FrontHash(s, 4) == 0x4c61d9;
  }

  lemma HashOfStep(s: string)
    requires s == "step"
    ensures NameHash(s) == 157894402
  {
    AsciiTermsAToG();
    AsciiTermsOToU();
    assert s[0] == 's' && s[1] == 't' && s[2] == 'e' && s[3] == 'p';
    assert Min(4, 4) == 4;
    assert TailHash(s, 4, 0) == 0x93;
    assert TailHash(s, 4, 1) == 0x1270;
    assert TailHash(s, 4, 2) == 0x24e05;
    assert TailHash(s, 4, 3) == 0x49c0b4;
    assert TailHash(s, 4, 4) == 0x9381693;
    assert FrontHash(s, 1) == 0x14;
    assert FrontHash(s, 2) == 0x515;
    assert FrontHash(s, 3) == 0x14546;
    assert FrontHash(s, 4) == 0x515191;
  }

  lemma HashOfAsync(s: string)
    requires s == "async"
    ensures NameHash(s) == 169409980
  {
    AsciiTermsAToG();
    AsciiTermsHToN();
    AsciiTermsOToU();
    AsciiTermsVToZ();
    assert s[0] == 'a' && s[1] == 's' && s[2] == 'y' && s[3] == 'n' && s[4] == 'c';
    assert Min(4, 5) == 4;
    assert TailHash(s, 5, 0) == 0xa1;
    assert TailHash(s, 5, 1) == 0x1423;
    assert TailHash(s, 5, 2) == 0x2846e;
    assert TailHash(s, 5, 3) == 0x508dd9;
    assert TailHash(s, 5, 4) == 0xa11bb33;
    assert FrontHash(s, 1) == 0x2;
    assert FrontHash(s, 2) == 0x94;
    assert FrontHash(s, 3) == 0x251a;
    assert FrontHash(s, 4) == 0x9468f;
  }

  lemma HashOfAlign(s: string)
    requires s == "align"
    ensures NameHash(s) == 169856932
  {
    AsciiTermsAToG();
    AsciiTermsHToN();
    assert s[0] == 'a' && s[1] == 'l' && s[2] == 'i' && s[3] == 'g' && s[4] == 'n';
    assert Min(4, 5) == 4;
    assert TailHash(s, 5, 0) == 0xa1;
    assert TailHash(s, 5, 1) == 0x142e;
    assert TailHash(s, 5, 2) == 0x285c7;
    assert TailHash(s, 5, 3) == 0x50b8e9;
    assert TailHash(s, 5, 4) == 0xa171d2c;
    assert FrontHash(s, 1) == 0x2;
    assert FrontHash(s, 2) == 0x8d;
    assert FrontHash(s, 3) == 0x234a;
    assert FrontHash(s, 4) == 0x8d288;
  }

  lemma HashOfClear(s: string)
    requires s == "clear"
    ensures NameHash(s) == 170513710
  {
    AsciiTermsAToG();
    AsciiTermsHToN();
    AsciiTermsOToU();
    assert s[0] == 'c' && s[1] == 'l' && s[2] == 'e' && s[3] == 'a' && s[4] == 'r';
    assert Min(4, 5) == 4;
    assert TailHash(s, 5, 0) == 0xa3;
    assert TailHash(s, 5, 1) == 0x1472;
    assert TailHash(s, 5, 2) == 0x28e41;
    assert TailHash(s, 5, 3) == 0x51c825;
    assert TailHash(s, 5, 4) == 0xa3904ac;
    assert FrontHash(s, 1) == 0x4;
    assert FrontHash(s, 2) == 0x10d;
    assert FrontHash(s, 3) == 0x4346;
    assert FrontHash(s, 4) == 0x10d182;
  }

  lemma HashOfDefer(s: string)
    requires s == "defer"
    ensures NameHash(s) == 173896963
  {
    AsciiTermsAToG();
    AsciiTermsOToU();
    assert s[0] == 'd' && s[1] == 'e' && s[2] == 'f' && s[3] == 'e' && s[4] == 'r';
    assert Min(4, 5) == 4;
    assert TailHash(s, 5, 0) == 0xa4;
    assert TailHash(s, 5, 1) == 0x1492;
    assert TailHash(s, 5, 2) == 0x29245;
    assert TailHash(s, 5, 3) == 0x5248a6;
    assert TailHash(s, 5, 4) == 0xa4914c5;
    assert FrontHash(s, 1) == 0x5;
    assert FrontHash(s, 2) == 0x146;
    assert FrontHash(s, 3) == 0x5187;
    assert FrontHash(s, 4) == 0x1461c6;
  }

  lemma HashOfFrame(s: string)
    requires s == "frame"
    ensures NameHash(s) == 176129212
  {
    AsciiTermsAToG();
    AsciiTermsHToN();
    AsciiTermsOToU();
    assert s[0] == 'f' && s[1] == 'r' && s[2] == 'a' && s[3] == 'm' && s[4] == 'e';
    assert Min(4, 5) == 4;
    assert TailHash(s, 5, 0) == 0xa6;
    assert TailHash(s, 5, 1) == 0x14c5;
    assert TailHash(s, 5, 2) == 0x298ad;
    assert TailHash(s, 5, 3) == 0x5315a1;
    assert TailHash(s, 5, 4) == 0xa62b432;
    assert FrontHash(s, 1) == 0x7;
    assert FrontHash(s, 2) == 0x1d3;
    assert FrontHash(s, 3) == 0x74c2;
    assert FrontHash(s, 4) == 0x1d308e;
  }

  lemma HashOfIsmap(s: string)
    requires s == "ismap"
    ensures NameHash(s) == 179390001
  {
    AsciiTermsAToG();
    AsciiTermsHToN();
    AsciiTermsOToU();
    assert s[0] == 'i' && s[1] == 's' && s[2] == 'm' && s[3] == 'a' && s[4] == 'p';
    assert Min(4, 5) == 4;
    assert TailHash(s, 5, 0) == 0xa9;
    assert TailHash(s, 5, 1) == 0x1530;
    assert TailHash(s, 5, 2) == 0x2a601;
    assert TailHash(s, 5, 3) == 0x54c02d;
    assert TailHash(s, 5, 4) == 0xa9805b3;
    assert FrontHash(s, 1) == 0xa;
    assert FrontHash(s, 2) == 0x294;
    assert FrontHash(s, 3) == 0xa50e;
    assert FrontHash(s, 4) == 0x294382;
  }

  lemma HashOfShape(s: string)
    requires s == "shape"
    ensures NameHash(s) == 190992569
  {
    AsciiTermsAToG();
    AsciiTermsHToN();
    AsciiTermsOToU();
    assert s[0] == 's' && s[1] == 'h' && s[2] == 'a' && s[3] == 'p' && s[4] == 'e';
    assert Min(4, 5) == 4;
    assert TailHash(s, 5, 0) == 0xb3;
    assert TailHash(s, 5, 1) == 0x1665;
    assert TailHash(s, 5, 2) == 0x2ccb0;
    assert TailHash(s, 5, 3) == 0x599601;
    assert TailHash(s, 5, 4) == 0xb32c028;
    assert FrontHash(s, 1) == 0x14;
    assert FrontHash(s, 2) == 0x509;
    assert FrontHash(s, 3) == 0x14242;
    assert FrontHash(s, 4) == 0x509091;
  }

  lemma HashOfScope(s: string)
    requires s == "scope"
    ensures NameHash(s) == 191006194
  {
    AsciiTermsAToG();
    AsciiTermsOToU();
    assert s[0] == 's' && s[1] == 'c' && s[2] == 'o' && s[3] == 'p' && s[4] == 'e';
    assert Min(4, 5) == 4;
    assert TailHash(s, 5, 0) == 0xb3;
    assert TailHash(s, 5, 1) == 0x1665;
    assert TailHash(s, 5, 2) == 0x2ccb0;
    assert TailHash(s, 5, 3) == 0x59960f;
    assert TailHash(s, 5, 4) == 0xb32c1e3;
    assert FrontHash(s, 1) == 0x14;
    assert FrontHash(s, 2) == 0x504;
    assert FrontHash(s, 3) == 0x14110;
    assert FrontHash(s, 4) == 0x504411;
  }

  lemma HashOfRules(s: string)
    requires s == "rules"
    ensures NameHash(s) == 191166163
  {
    AsciiTermsAToG();
    AsciiTermsHToN();
    AsciiTermsOToU();
    assert s[0] == 'r' && s[1] == 'u' && s[2] == 'l' && s[3] == 'e' && s[4] == 's';
    assert Min(4, 5) == 4;
    assert TailHash(s, 5, 0) == 0xb2;
    assert TailHash(s, 5, 1) == 0x1653;
    assert TailHash(s, 5, 2) == 0x2ca65;
    assert TailHash(s, 5, 3) == 0x594cac;
    assert TailHash(s, 5, 4) == 0xb299595;
    assert FrontHash(s, 1) == 0x13;
    assert FrontHash(s, 2) == 0x4d6;
    assert FrontHash(s, 3) == 0x1358d;
    assert FrontHash(s, 4) == 0x4d6346;
  }

  lemma HashOfXmlns(s: string)
    requires s == "xmlns"
    ensures NameHash(s) == 200104642
  {
    AsciiTermsHToN();
    AsciiTermsOToU();
    AsciiTermsVToZ();
    assert s[0] == 'x' && s[1] == 'm' && s[2] == 'l' && s[3] == 'n' && s[4] == 's';
    assert Min(4, 5) == 4;
    assert TailHash(s, 5, 0) == 0xb8;
    assert TailHash(s, 5, 1) == 0x1713;
    assert TailHash(s, 5, 2) == 0x2e26e;
    assert TailHash(s, 5, 3) == 0x5c4dcc;
    assert TailHash(s, 5, 4) == 0xb89b98d;
    assert FrontHash(s, 1) == 0x19;
    assert FrontHash(s, 2) == 0x64e;
    assert FrontHash(s, 3) == 0x1938d;
    assert FrontHash(s, 4) == 0x64e34f;
  }

  lemma HashOfActive(s: string)
    requires s == "active"
    ensures NameHash(s) == 203070590
  {
    AsciiTermsAToG();
    AsciiTermsHToN();
    AsciiTermsOToU();
    AsciiTermsVToZ();
    assert s[0] == 'a' && s[1] == 'c' && s[2] == 't' && s[3] == 'i' && s[4] == 'v' && s[5] == 'e';
    assert Min(4, 6) == 4;
    assert TailHash(s, 6, 0) == 0xc1;
    assert TailHash(s, 6, 1) == 0x1825;
    assert TailHash(s, 6, 2) == 0x304b6;
    assert TailHash(s, 6, 3) == 0x6096c9;
    assert TailHash(s, 6, 4) == 0xc12d934;
    assert FrontHash(s, 1) == 0x2;
    assert FrontHash(s, 2) == 0x84;
    assert FrontHash(s, 3) == 0x2115;
    assert FrontHash(s, 4) == 0x8454a;
  }

  lemma HashOfNowrap(s: string)
    requires s == "nowrap"
    ensures NameHash(s) == 215285828
  {
    AsciiTermsAToG();
    AsciiTermsHToN();
    AsciiTermsOToU();
    AsciiTermsVToZ();
    assert s[0] == 'n' && s[1] == 'o' && s[2] == 'w' && s[3] == 'r' && s[4] == 'a' && s[5] == 'p';
    assert Min(4, 6) == 4;
    assert TailHash(s, 6, 0) == 0xce;
    assert TailHash(s, 6, 1) == 0x19d0;
    assert TailHash(s, 6, 2) == 0x33a01;
    assert TailHash(s, 6, 3) == 0x674032;
    assert TailHash(s, 6, 4) == 0xce80657;
    assert FrontHash(s, 1) == 0xf;
    assert FrontHash(s, 2) == 0x3d0;
    assert FrontHash(s, 3) == 0xf418;
    assert FrontHash(s, 4) == 0x3d0613;
  }

  lemma HashOfNohref(s: string)
    requires s == "nohref"
    ensures NameHash(s) == 215880731
  {
    AsciiTermsAToG();
    AsciiTermsHToN();
    AsciiTermsOToU();
    assert s[0] == 'n' && s[1] == 'o' && s[2] == 'h' && s[3] == 'r' && s[4] == 'e' && s[5] == 'f';
    assert Min(4, 6) == 4;
    assert TailHash(s, 6, 0) == 0xce;
    assert TailHash(s, 6, 1) == 0x19c6;
    assert TailHash(s, 6, 2) == 0x338c5;
    assert TailHash(s, 6, 3) == 0x6718b2;
    assert TailHash(s, 6, 4) == 0xce31648;
    assert FrontHash(s, 1) == 0xf;
    assert FrontHash(s, 2) == 0x3d0;
    assert FrontHash(s, 3) == 0xf409;
    assert FrontHash(s, 4) == 0x3d0253;
  }

  lemma HashOfMethod(s: string)
    requires s == "method"
    ensures NameHash(s) == 216684637
  {
    AsciiTermsAToG();
    AsciiTermsHToN();
    AsciiTermsOToU();
    assert s[0] == 'm' && s[1] == 'e' && s[2] == 't' && s[3] == 'h' && s[4] == 'o' && s[5] == 'd';
    assert Min(4, 6) == 4;
    assert TailHash(s, 6, 0) == 0xcd;
    assert TailHash(s, 6, 1) == 0x19a4;
    assert TailHash(s, 6, 2) == 0x3348f;
    assert TailHash(s, 6, 3) == 0x6691e8;
    assert TailHash(s, 6, 4) == 0xcd23d14;
    assert FrontHash(s, 1) == 0xe;
    assert FrontHash(s, 2) == 0x386;
    assert FrontHash(s, 3) == 0xe195;
    assert FrontHash(s, 4) == 0x386549;
  }

  lemma HashOfValign(s: string)
    requires s == "valign"
    ensures NameHash(s) == 221986406
  {
    AsciiTermsAToG();
    AsciiTermsHToN();
    AsciiTermsVToZ();
    assert s[0] == 'v' && s[1] == 'a' && s[2] == 'l' && s[3] == 'i' && s[4] == 'g' && s[5] == 'n';
    assert Min(4, 6) == 4;
    assert TailHash(s, 6, 0) == 0xd6;
    assert TailHash(s, 6, 1) == 0x1ace;
    assert TailHash(s, 6, 2) == 0x359c7;
    assert TailHash(s, 6, 3) == 0x6b38e9;
    assert TailHash(s, 6, 4) == 0xd671d2c;
    assert FrontHash(s, 1) == 0x17;
    assert FrontHash(s, 2) == 0x5c2;
    assert FrontHash(s, 3) == 0x1708d;
    assert FrontHash(s, 4) == 0x5c234a;
  }

  lemma HashOfChecked(s: string)
    requires s == "checked"
    ensures NameHash(s) == 237143271
  {
    AsciiTermsAToG();
    AsciiTermsHToN();
    assert s[0] == 'c' && s[1] == 'h' && s[2] == 'e' && s[3] == 'c' && s[4] == 'k' && s[5] == 'e' && s[6] == 'd';
    assert Min(4, 7) == 4;
    assert TailHash(s, 7, 0) == 0xe3;
    assert TailHash(s, 7, 1) == 0x1c64;
    assert TailHash(s, 7, 2) == 0x38c85;
    assert TailHash(s, 7, 3) == 0x7190ab;
    assert TailHash(s, 7, 4) == 0xe321563;
    assert FrontHash(s, 1) == 0x4;
    assert FrontHash(s, 2) == 0x109;
    assert FrontHash(s, 3) == 0x4246;
    assert FrontHash(s, 4) == 0x109184;
  }

  lemma HashOfCompact(s: string)
    requires s == "compact"
    ensures NameHash(s) == 237703073
  {
    AsciiTermsAToG();
    AsciiTermsHToN();
    AsciiTermsOToU();
    assert s[0] == 'c' && s[1] == 'o' && s[2] == 'm' && s[3] == 'p' && s[4] == 'a' && s[5] == 'c' && s[6] == 't';
    assert Min(4, 7) == 4;
    assert TailHash(s, 7, 0) == 0xe3;
    assert TailHash(s, 7, 1) == 0x1c74;
    assert TailHash(s, 7, 2) == 0x38e83;
    assert TailHash(s, 7, 3) == 0x71d061;
    assert TailHash(s, 7, 4) == 0xe3a0c30;
    assert FrontHash(s, 1) == 0x4;
    assert FrontHash(s, 2) == 0x110;
    assert FrontHash(s, 3) == 0x440e;
    assert FrontHash(s, 4) == 0x110391;
  }

  lemma HashOfEnctype(s: string)
    requires s == "enctype"
    ensures NameHash(s) == 239743521
  {
    AsciiTermsAToG();
    AsciiTermsHToN();
    AsciiTermsOToU();
    AsciiTermsVToZ();
    assert s[0] == 'e' && s[1] == 'n' && s[2] == 'c' && s[3] == 't' && s[4] == 'y' && s[5] == 'p' && s[6] == 'e';
    assert Min(4, 7) == 4;
    assert TailHash(s, 7, 0) == 0xe5;
    assert TailHash(s, 7, 1) == 0x1ca5;
    assert TailHash(s, 7, 2) == 0x394b0;
    assert TailHash(s, 7, 3) == 0x729619;
    assert TailHash(s, 7, 4) == 0xe52c334;
    assert FrontHash(s, 1) == 0x6;
    assert FrontHash(s, 2) == 0x18f;
    assert FrontHash(s, 3) == 0x63c4;
    assert FrontHash(s, 4) == 0x18f115;
  }

  lemma HashOfDeclare(s: string)
    requires s == "declare"
    ensures NameHash(s) == 240560417
  {
    AsciiTermsAToG();
    AsciiTermsHToN();
    AsciiTermsOToU();
    assert s[0] == 'd' && s[1] == 'e' && s[2] == 'c' && s[3] == 'l' && s[4] == 'a' && s[5] == 'r' && s[6] == 'e';
    assert Min(4, 7) == 4;
    assert TailHash(s, 7, 0) == 0xe4;
    assert TailHash(s, 7, 1) == 0x1c85;
    assert TailHash(s, 7, 2) == 0x390b2;
    assert TailHash(s, 7, 3) == 0x721641;
    assert TailHash(s, 7, 4) == 0xe42c82c;
    assert FrontHash(s, 1) == 0x5;
    assert FrontHash(s, 2) == 0x146;
    assert FrontHash(s, 3) == 0x5184;
    assert FrontHash(s, 4) == 0x14610d;
  }

  lemma HashOfDefault(s: string)
    requires s == "default"
    ensures NameHash(s) == 241062755
  {
    AsciiTermsAToG();
    AsciiTermsHToN();
    AsciiTermsOToU();
    assert s[0] == 'd' && s[1] == 'e' && s[2] == 'f' && s[3] == 'a' && s[4] == 'u' && s[5] == 'l' && s[6] == 't';
    assert Min(4, 7) == 4;
    assert TailHash(s, 7, 0) == 0xe4;
    assert TailHash(s, 7, 1) == 0x1c94;
    assert TailHash(s, 7, 2) == 0x3928c;
    assert TailHash(s, 7, 3) == 0x725195;
    assert TailHash(s, 7, 4) == 0xe4a32a1;
    assert FrontHash(s, 1) == 0x5;
    assert FrontHash(s, 2) == 0x146;
    assert FrontHash(s, 3) == 0x5187;
    assert FrontHash(s, 4) == 0x1461c2;
  }

  lemma HashOfNoshade(s: string)
    requires s == "noshade"
    ensures NameHash(s) == 249533729
  {
    AsciiTermsAToG();
    AsciiTermsHToN();
    AsciiTermsOToU();
    assert s[0] == 'n' && s[1] == 'o' && s[2] == 's' && s[3] == 'h' && s[4] == 'a' && s[5] == 'd' && s[6] == 'e';
    assert Min(4, 7) == 4;
    assert TailHash(s, 7, 0) == 0xee;
    assert TailHash(s, 7, 1) == 0x1dc5;
    assert TailHash(s, 7, 2) == 0x3b8a4;
    assert TailHash(s, 7, 3) == 0x771481;
    assert TailHash(s, 7, 4) == 0xee29028;
    assert FrontHash(s, 1) == 0xf;
    assert FrontHash(s, 2) == 0x3d0;
    assert FrontHash(s, 3) == 0xf414;
    assert FrontHash(s, 4) == 0x3d0509;
  }

  lemma HashOfViewbox(s: string)
    requires s == "viewbox"
    ensures NameHash(s) == 254844367
  {
    AsciiTermsAToG();
    AsciiTermsHToN();
    AsciiTermsOToU();
    AsciiTermsVToZ();
    assert s[0] == 'v' && s[1] == 'i' && s[2] == 'e' && s[3] == 'w' && s[4] == 'b' && s[5] == 'o' && s[6] == 'x';
    assert Min(4, 7) == 4;
    assert TailHash(s, 7, 0) == 0xf6;
    assert TailHash(s, 7, 1) == 0x1ed8;
    assert TailHash(s, 7, 2) == 0x3db0f;
    assert TailHash(s, 7, 3) == 0x7b61e2;
    assert TailHash(s, 7, 4) == 0xf6c3c57;
    assert FrontHash(s, 1) == 0x17;
    assert FrontHash(s, 2) == 0x5ca;
    assert FrontHash(s, 3) == 0x17286;
    assert FrontHash(s, 4) == 0x5ca198;
  }

  lemma HashOfReplace(s: string)
    requires s == "replace"
    ensures NameHash(s) == 258926689
  {
    AsciiTermsAToG();
    AsciiTermsHToN();
    AsciiTermsOToU();
    assert s[0] == 'r' && s[1] == 'e' && s[2] == 'p' && s[3] == 'l' && s[4] == 'a' && s[5] == 'c' && s[6] == 'e';
    assert Min(4, 7) == 4;
    assert TailHash(s, 7, 0) == 0xf2;
    assert TailHash(s, 7, 1) == 0x1e45;
    assert TailHash(s, 7, 2) == 0x3c8a3;
    assert TailHash(s, 7, 3) == 0x791461;
    assert TailHash(s, 7, 4) == 0xf228c2c;
    assert FrontHash(s, 1) == 0x13;
    assert FrontHash(s, 2) == 0x4c6;
    assert FrontHash(s, 3) == 0x13191;
    assert FrontHash(s, 4) == 0x4c644d;
  }

  lemma HashOfDisabled(s: string)
    requires s == "disabled"
    ensures NameHash(s) == 274116736
  {
    AsciiTermsAToG();
    AsciiTermsHToN();
    AsciiTermsOToU();
    assert s[0] == 'd' && s[1] == 'i' && s[2] == 's' && s[3] == 'a' && s[4] == 'b' && s[5] == 'l' && s[6] == 'e' && s[7] == 'd';
    assert Min(4, 8) == 4;
    assert TailHash(s, 8, 0) == 0x104;
    assert TailHash(s, 8, 1) == 0x2084;
    assert TailHash(s, 8, 2) == 0x41085;
    assert TailHash(s, 8, 3) == 0x8210ac;
    assert TailHash(s, 8, 4) == 0x10421582;
    assert FrontHash(s, 1) == 0x5;
    assert FrontHash(s, 2) == 0x14a;
    assert FrontHash(s, 3) == 0x5294;
    assert FrontHash(s, 4) == 0x14a502;
  }

  lemma HashOfLoopend(s: string)
    requires s == "loopend "
    ensures NameHash(s) == 278205908
  {
    AsciiTermsAToG();
    AsciiTermsHToN();
    AsciiTermsOToU();
    AsciiTermsVToZ();
    assert s[0] == 'l' && s[1] == 'o' && s[2] == 'o' && s[3] == 'p' && s[4] == 'e' && s[5] == 'n' && s[6] == 'd' && s[7] == ' ';
    assert Min(4, 8) == 4;
    assert TailHash(s, 8, 0) == 0x10c;
    assert TailHash(s, 8, 1) == 0x2140;
    assert TailHash(s, 8, 2) == 0x42804;
    assert TailHash(s, 8, 3) == 0x85008e;
    assert TailHash(s, 8, 4) == 0x10a011c5;
    assert FrontHash(s, 1) == 0xd;
    assert FrontHash(s, 2) == 0x350;
    assert FrontHash(s, 3) == 0xd410;
    assert FrontHash(s, 4) == 0x350411;
  }

  lemma HashOfNoresize(s: string)
    requires s == "noresize"
    ensures NameHash(s) == 283110901
  {
    AsciiTermsAToG();
    AsciiTermsHToN();
    AsciiTermsOToU();
    AsciiTermsVToZ();
    assert s[0] == 'n' && s[1] == 'o' && s[2] == 'r' && s[3] == 'e' && s[4] == 's' && s[5] == 'i' && s[6] == 'z' && s[7] == 'e';
    assert Min(4, 8) == 4;
    assert TailHash(s, 8, 0) == 0x10e;
    assert TailHash(s, 8, 1) == 0x21c5;
    assert TailHash(s, 8, 2) == 0x438ba;
    assert TailHash(s, 8, 3) == 0x871749;
    assert TailHash(s, 8, 4) == 0x10e2e933;
    assert FrontHash(s, 1) == 0xf;
    assert FrontHash(s, 2) == 0x3d0;
    assert FrontHash(s, 3) == 0xf413;
    assert FrontHash(s, 4) == 0x3d04c6;
  }

  lemma HashOfMultiple(s: string)
    requires s == "multiple"
    ensures NameHash(s) == 283890012
  {
    AsciiTermsAToG();
    AsciiTermsHToN();
    AsciiTermsOToU();
    assert s[0] == 'm' && s[1] == 'u' && s[2] == 'l' && s[3] == 't' && s[4] == 'i' && s[5] == 'p' && s[6] == 'l' && s[7] == 'e';
    assert Min(4, 8) == 4;
    assert TailHash(s, 8, 0) == 0x10d;
    assert TailHash(s, 8, 1) == 0x21a5;
    assert TailHash(s, 8, 2) == 0x434ac;
    assert TailHash(s, 8, 3) == 0x869590;
    assert TailHash(s, 8, 4) == 0x10d2b209;
    assert FrontHash(s, 1) == 0xe;
    assert FrontHash(s, 2) == 0x396;
    assert FrontHash(s, 3) == 0xe58d;
    assert FrontHash(s, 4) == 0x396355;
  }

  lemma HashOfReadonly(s: string)
    requires s == "readonly"
    ensures NameHash(s) == 291557706
  {
    AsciiTermsAToG();
    AsciiTermsHToN();
    AsciiTermsOToU();
    AsciiTermsVToZ();
    assert s[0] == 'r' && s[1] == 'e' && s[2] == 'a' && s[3] == 'd' && s[4] == 'o' && s[5] == 'n' && s[6] == 'l' && s[7] == 'y';
    assert Min(4, 8) == 4;
    assert TailHash(s, 8, 0) == 0x112;
    assert TailHash(s, 8, 1) == 0x2259;
    assert TailHash(s, 8, 2) == 0x44b2c;
    assert TailHash(s, 8, 3) == 0x89658e;
    assert TailHash(s, 8, 4) == 0x112cb1cf;
    assert FrontHash(s, 1) == 0x13;
    assert FrontHash(s, 2) == 0x4c6;
    assert FrontHash(s, 3) == 0x13182;
    assert FrontHash(s, 4) == 0x4c6085;
  }

  lemma HashOfSelected(s: string)
    requires s == "selected"
    ensures NameHash(s) == 291665349
  {
    AsciiTermsAToG();
    AsciiTermsHToN();
    AsciiTermsOToU();
    assert s[0] == 's' && s[1] == 'e' && s[2] == 'l' && s[3] == 'e' && s[4] == 'c' && s[5] == 't' && s[6] == 'e' && s[7] == 'd';
    assert Min(4, 8) == 4;
    assert TailHash(s, 8, 0) == 0x113;
    assert TailHash(s, 8, 1) == 0x2264;
    assert TailHash(s, 8, 2) == 0x44c85;
    assert TailHash(s, 8, 3) == 0x8990b4;
    assert TailHash(s, 8, 4) == 0x11321683;
    assert FrontHash(s, 1) == 0x14;
    assert FrontHash(s, 2) == 0x506;
    assert FrontHash(s, 3) == 0x1418d;
    assert FrontHash(s, 4) == 0x506346;
  }

  lemma HashOfRequired(s: string)
    requires s == "required"
    ensures NameHash(s) == 292451039
  {
    AsciiTermsAToG();
    AsciiTermsHToN();
    AsciiTermsOToU();
    assert s[0] == 'r' && s[1] == 'e' && s[2] == 'q' && s[3] == 'u' && s[4] == 'i' && s[5] == 'r' && s[6] == 'e' && s[7] == 'd';
    assert Min(4, 8) == 4;
    assert TailHash(s, 8, 0) == 0x112;
    assert TailHash(s, 8, 1) == 0x2244;
    assert TailHash(s, 8, 2) == 0x44885;
    assert TailHash(s, 8, 3) == 0x8910b2;
    assert TailHash(s, 8, 4) == 0x11221649;
    assert FrontHash(s, 1) == 0x13;
    assert FrontHash(s, 2) == 0x4c6;
    assert FrontHash(s, 3) == 0x13192;
    assert FrontHash(s, 4) == 0x4c6496;
  }

  lemma HashOfXmlBase(s: string)
    requires s == "xml:base"
    ensures NameHash(s) == 300298041
  {
    AsciiTermsAToG();
    AsciiTermsHToN();
    AsciiTermsOToU();
    AsciiTermsVToZ();
    assert s[0] == 'x' && s[1] == 'm' && s[2] == 'l' && s[3] == ':' && s[4] == 'b' && s[5] == 'a' && s[6] == 's' && s[7] == 'e';
    assert Min(4, 8) == 4;
    assert TailHash(s, 8, 0) == 0x118;
    assert TailHash(s, 8, 1) == 0x2305;
    assert TailHash(s, 8, 2) == 0x460b3;
    assert TailHash(s, 8, 3) == 0x8c1661;
    assert TailHash(s, 8, 4) == 0x1182cc22;
    assert FrontHash(s, 1) == 0x19;
    assert FrontHash(s, 2) == 0x64e;
    assert FrontHash(s, 3) == 0x1938d;
    assert FrontHash(s, 4) == 0x64e31b;
  }

  lemma HashOfXmlLang(s: string)
    requires s == "xml:lang"
    ensures NameHash(s) == 300374839
  {
    AsciiTermsAToG();
    AsciiTermsHToN();
    AsciiTermsVToZ();
    assert s[0] == 'x' && s[1] == 'm' && s[2] == 'l' && s[3] == ':' && s[4] == 'l' && s[5] == 'a' && s[6] == 'n' && s[7] == 'g';
    assert Min(4, 8) == 4;
    assert TailHash(s, 8, 0) == 0x118;
    assert TailHash(s, 8, 1) == 0x2307;
    assert TailHash(s, 8, 2) == 0x460ee;
    assert TailHash(s, 8, 3) == 0x8c1dc1;
    assert TailHash(s, 8, 4) == 0x1183b82c;
    assert FrontHash(s, 1) == 0x19;
    assert FrontHash(s, 2) == 0x64e;
    assert FrontHash(s, 3) == 0x1938d;
    assert FrontHash(s, 4) == 0x64e31b;
  }

  lemma HashOfControls(s: string)
    requires s == "controls "
    ensures NameHash(s) == 302075482
  {
    AsciiTermsAToG();
    AsciiTermsHToN();
    AsciiTermsOToU();
    AsciiTermsVToZ();
    assert s[0] == 'c' && s[1] == 'o' && s[2] == 'n' && s[3] == 't' && s[5] == 'o' && s[6] == 'l' && s[7] == 's' && s[8] == ' ';
    assert Min(4, 9) == 4;
    assert TailHash(s, 9, 0) == 0x123;
    assert TailHash(s, 9, 1) == 0x2420;
    assert TailHash(s, 9, 2) == 0x48413;
    assert TailHash(s, 9, 3) == 0x90826c;
    assert TailHash(s, 9, 4) == 0x12104d8f;
    assert FrontHash(s, 1) == 0x4;
    assert FrontHash(s, 2) == 0x110;
    assert FrontHash(s, 3) == 0x440f;
    assert FrontHash(s, 4) == 0x1103d5;
  }

  lemma HashOfAutofocus(s: string)
    requires s == "autofocus"
    ensures NameHash(s) == 303083839
  {
    AsciiTermsAToG();
    AsciiTermsOToU();
    assert s[0] == 'a' && s[1] == 'u' && s[2] == 't' && s[3] == 'o' && s[5] == 'o' && s[6] == 'c' && s[7] == 'u' && s[8] == 's';
    assert Min(4, 9) == 4;
    assert TailHash(s, 9, 0) == 0x121;
    assert TailHash(s, 9, 1) == 0x2433;
    assert TailHash(s, 9, 2) == 0x48675;
    assert TailHash(s, 9, 3) == 0x90cea3;
    assert TailHash(s, 9, 4) == 0x1219d46f;
    assert FrontHash(s, 1) == 0x2;
    assert FrontHash(s, 2) == 0x96;
    assert FrontHash(s, 3) == 0x2595;
    assert FrontHash(s, 4) == 0x96550;
  }

  lemma HashOfValuetype(s: string)
    requires s == "valuetype"
    ensures NameHash(s) == 322887778
  {
    AsciiTermsAToG();
    AsciiTermsHToN();
    AsciiTermsOToU();
    AsciiTermsVToZ();
    assert s[0] == 'v' && s[1] == 'a' && s[2] == 'l' && s[3] == 'u' && s[5] == 't' && s[6] == 'y' && s[7] == 'p' && s[8] == 'e';
    assert Min(4, 9) == 4;
    assert TailHash(s, 9, 0) == 0x136;
    assert TailHash(s, 9, 1) == 0x26c5;
    assert TailHash(s, 9, 2) == 0x4d8b0;
    assert TailHash(s, 9, 3) == 0x9b1619;
    assert TailHash(s, 9, 4) == 0x1362c334;
    assert FrontHash(s, 1) == 0x17;
    assert FrontHash(s, 2) == 0x5c2;
    assert FrontHash(s, 3) == 0x1708d;
    assert FrontHash(s, 4) == 0x5c2356;
  }

  lemma HashOfScrolling(s: string)
    requires s == "scrolling"
    ensures NameHash(s) == 325320188
  {
    AsciiTermsAToG();
    AsciiTermsHToN();
    AsciiTermsOToU();
    assert s[0] == 's' && s[1] == 'c' && s[2] == 'r' && s[3] == 'o' && s[5] == 'l' && s[6] == 'i' && s[7] == 'n' && s[8] == 'g';
    assert Min(4, 9) == 4;
    assert TailHash(s, 9, 0) == 0x133;
    assert TailHash(s, 9, 1) == 0x2667;
    assert TailHash(s, 9, 2) == 0x4ccee;
    assert TailHash(s, 9, 3) == 0x999dc9;
    assert TailHash(s, 9, 4) == 0x1333b92c;
    assert FrontHash(s, 1) == 0x14;
    assert FrontHash(s, 2) == 0x504;
    assert FrontHash(s, 3) == 0x14113;
    assert FrontHash(s, 4) == 0x5044d0;
  }

  lemma HashOfAutoplay(s: string)
    requires s == "autoplay  "
    ensures NameHash(s) == 333866609
  {
    AsciiTermsAToG();
    AsciiTermsOToU();
    AsciiTermsVToZ();
    assert s[0] == 'a' && s[1] == 'u' && s[2] == 't' && s[3] == 'o' && s[6] == 'a' && s[7] == 'y' && s[8] == ' ' && s[9] == ' ';
    assert Min(4, 10) == 4;
    assert TailHash(s, 10, 0) == 0x141;
    assert TailHash(s, 10, 1) == 0x27e0;
    assert TailHash(s, 10, 2) == 0x4fbc0;
    assert TailHash(s, 10, 3) == 0x9f7819;
    assert TailHash(s, 10, 4) == 0x13ef0321;
    assert FrontHash(s, 1) == 0x2;
    assert FrontHash(s, 2) == 0x96;
    assert FrontHash(s, 3) == 0x2595;
    assert FrontHash(s, 4) == 0x96550;
  }

  lemma HashOfXmlSpace(s: string)
    requires s == "xml:space"
    ensures NameHash(s) == 333868843
  {
    AsciiTermsAToG();
    AsciiTermsHToN();
    AsciiTermsOToU();
    AsciiTermsVToZ();
    assert s[0] == 'x' && s[1] == 'm' && s[2] == 'l' && s[3] == ':' && s[5] == 'p' && s[6] == 'a' && s[7] == 'c' && s[8] == 'e';
    assert Min(4, 9) == 4;
    assert TailHash(s, 9, 0) == 0x138;
    assert TailHash(s, 9, 1) == 0x2705;
    assert TailHash(s, 9, 2) == 0x4e0a3;
    assert TailHash(s, 9, 3) == 0x9c1461;
    assert TailHash(s, 9, 4) == 0x13828c30;
    assert FrontHash(s, 1) == 0x19;
    assert FrontHash(s, 2) == 0x64e;
    assert FrontHash(s, 3) == 0x1938d;
    assert FrontHash(s, 4) == 0x64e31b;
  }

  lemma HashOfAutosubmit(s: string)
    requires s == "autosubmit"
    ensures NameHash(s) == 336806130
  {
    AsciiTermsAToG();
    AsciiTermsHToN();
    AsciiTermsOToU();
    assert s[0] == 'a' && s[1] == 'u' && s[2] == 't' && s[3] == 'o' && s[6] == 'b' && s[7] == 'm' && s[8] == 'i' && s[9] == 't';
    assert Min(4, 10) == 4;
    assert TailHash(s, 10, 0) == 0x141;
    assert TailHash(s, 10, 1) == 0x2834;
    assert TailHash(s, 10, 2) == 0x50689;
    assert TailHash(s, 10, 3) == 0xa0d12d;
    assert TailHash(s, 10, 4) == 0x141a25a2;
    assert FrontHash(s, 1) == 0x2;
    assert FrontHash(s, 2) == 0x96;
    assert FrontHash(s, 3) == 0x2595;
    assert FrontHash(s, 4) == 0x96550;
  }

  lemma HashOfXlinkType(s: string)
    requires s == "xlink:type"
    ensures NameHash(s) == 367399355
  {
    AsciiTermsAToG();
    AsciiTermsHToN();
    AsciiTermsOToU();
    AsciiTermsVToZ();
    assert s[0] == 'x' && s[1] == 'l' && s[2] == 'i' && s[3] == 'n' && s[6] == 't' && s[7] == 'y' && s[8] == 'p' && s[9] == 'e';
    assert Min(4, 10) == 4;
    assert TailHash(s, 10, 0) == 0x158;
    assert TailHash(s, 10, 1) == 0x2b05;
    assert TailHash(s, 10, 2) == 0x560b0;
    assert TailHash(s, 10, 3) == 0xac1619;
    assert TailHash(s, 10, 4) == 0x1582c334;
    assert FrontHash(s, 1) == 0x19;
    assert FrontHash(s, 2) == 0x64d;
    assert FrontHash(s, 3) == 0x1934a;
    assert FrontHash(s, 4) == 0x64d28f;
  }

  lemma HashOfXlinkRole(s: string)
    requires s == "xlink:role"
    ensures NameHash(s) == 367420285
  {
    AsciiTermsAToG();
    AsciiTermsHToN();
    AsciiTermsOToU();
    AsciiTermsVToZ();
    assert s[0] == 'x' && s[1] == 'l' && s[2] == 'i' && s[3] == 'n' && s[6] == 'r' && s[7] == 'o' && s[8] == 'l' && s[9] == 'e';
    assert Min(4, 10) == 4;
    assert TailHash(s, 10, 0) == 0x158;
    assert TailHash(s, 10, 1) == 0x2b05;
    assert TailHash(s, 10, 2) == 0x560ac;
    assert TailHash(s, 10, 3) == 0xac158f;
    assert TailHash(s, 10, 4) == 0x1582b1f2;
    assert FrontHash(s, 1) == 0x19;
    assert FrontHash(s, 2) == 0x64d;
    assert FrontHash(s, 3) == 0x1934a;
    assert FrontHash(s, 4) == 0x64d28f;
  }

  lemma HashOfXlinkHref(s: string)
    requires s == "xlink:href"
    ensures NameHash(s) == 367510727
  {
    AsciiTermsAToG();
    AsciiTermsHToN();
    AsciiTermsOToU();
    AsciiTermsVToZ();
    assert s[0] == 'x' && s[1] == 'l' && s[2] == 'i' && s[3] == 'n' && s[6] == 'h' && s[7] == 'r' && s[8] == 'e' && s[9] == 'f';
    assert Min(4, 10) == 4;
    assert TailHash(s, 10, 0) == 0x158;
    assert TailHash(s, 10, 1) == 0x2b06;
    assert TailHash(s, 10, 2) == 0x560c5;
    assert TailHash(s, 10, 3) == 0xac18b2;
    assert TailHash(s, 10, 4) == 0x15831648;
    assert FrontHash(s, 1) == 0x19;
    assert FrontHash(s, 2) == 0x64d;
    assert FrontHash(s, 3) == 0x1934a;
    assert FrontHash(s, 4) == 0x64d28f;
  }

  lemma HashOfXlinkShow(s: string)
    requires s == "xlink:show"
    ensures NameHash(s) == 368013212
  {
    AsciiTermsHToN();
    AsciiTermsOToU();
    AsciiTermsVToZ();
    assert s[0] == 'x' && s[1] == 'l' && s[2] == 'i' && s[3] == 'n' && s[6] == 's' && s[7] == 'h' && s[8] == 'o' && s[9] == 'w';
    assert Min(4, 10) == 4;
    assert TailHash(s, 10, 0) == 0x158;
    assert TailHash(s, 10, 1) == 0x2b17;
    assert TailHash(s, 10, 2) == 0x562ef;
    assert TailHash(s, 10, 3) == 0xac5de8;
    assert TailHash(s, 10, 4) == 0x158bbd13;
    assert FrontHash(s, 1) == 0x19;
    assert FrontHash(s, 2) == 0x64d;
    assert FrontHash(s, 3) == 0x1934a;
    assert FrontHash(s, 4) == 0x64d28f;
  }

  lemma HashOfXmlnsXlink(s: string)
    requires s == "xmlns:xlink"
    ensures NameHash(s) == 400644707
  {
    AsciiTermsHToN();
    AsciiTermsVToZ();
    assert s[0] == 'x' && s[1] == 'm' && s[2] == 'l' && s[3] == 'n' && s[7] == 'l' && s[8] == 'i' && s[9] == 'n' && s[10] == 'k';
    assert Min(4, 11) == 4;
    assert TailHash(s, 11, 0) == 0x178;
    assert TailHash(s, 11, 1) == 0x2f0b;
    assert TailHash(s, 11, 2) == 0x5e16e;
    assert TailHash(s, 11, 3) == 0xbc2dc9;
    assert TailHash(s, 11, 4) == 0x1785b92c;
    assert FrontHash(s, 1) == 0x19;
    assert FrontHash(s, 2) == 0x64e;
    assert FrontHash(s, 3) == 0x1938d;
    assert FrontHash(s, 4) == 0x64e34f;
  }

  lemma HashOfXlinkTitle(s: string)
    requires s == "xlink:title"
    ensures NameHash(s) == 400973830
  {
    AsciiTermsAToG();
    AsciiTermsHToN();
    AsciiTermsOToU();
    AsciiTermsVToZ();
    assert s[0] == 'x' && s[1] == 'l' && s[2] == 'i' && s[3] == 'n' && s[7] == 'i' && s[8] == 't' && s[9] == 'l' && s[10] == 'e';
    assert Min(4, 11) == 4;
    assert TailHash(s, 11, 0) == 0x178;
    assert TailHash(s, 11, 1) == 0x2f05;
    assert TailHash(s, 11, 2) == 0x5e0ac;
    assert TailHash(s, 11, 3) == 0xbc1594;
    assert TailHash(s, 11, 4) == 0x1782b289;
    assert FrontHash(s, 1) == 0x19;
    assert FrontHash(s, 2) == 0x64d;
    assert FrontHash(s, 3) == 0x1934a;
    assert FrontHash(s, 4) == 0x64d28f;
  }

  lemma HashOfAutocomplete(s: string)
    requires s == "autocomplete"
    ensures NameHash(s) == 404469244
  {
    AsciiTermsAToG();
    AsciiTermsHToN();
    AsciiTermsOToU();
    assert s[0] == 'a' && s[1] == 'u' && s[2] == 't' && s[3] == 'o' && s[8] == 'l' && s[9] == 'e' && s[10] == 't' && s[11] == 'e';
    assert Min(4, 12) == 4;
    assert TailHash(s, 12, 0) == 0x181;
    assert TailHash(s, 12, 1) == 0x3025;
    assert TailHash(s, 12, 2) == 0x604b4;
    assert TailHash(s, 12, 3) == 0xc09685;
    assert TailHash(s, 12, 4) == 0x1812d0ac;
    assert FrontHash(s, 1) == 0x2;
    assert FrontHash(s, 2) == 0x96;
    assert FrontHash(s, 3) == 0x2595;
    assert FrontHash(s, 4) == 0x96550;
  }

  lemma HashOfDataformatas(s: string)
    requires s == "dataformatas"
    ensures NameHash(s) == 408789955
  {
    AsciiTermsAToG();
    AsciiTermsOToU();
    assert s[0] == 'd' && s[1] == 'a' && s[2] == 't' && s[3] == 'a' && s[8] == 'a' && s[9] == 't' && s[10] == 'a' && s[11] == 's';
    assert Min(4, 12) == 4;
    assert TailHash(s, 12, 0) == 0x184;
    assert TailHash(s, 12, 1) == 0x3093;
    assert TailHash(s, 12, 2) == 0x61261;
    assert TailHash(s, 12, 3) == 0xc24c34;
    assert TailHash(s, 12, 4) == 0x18498681;
    assert FrontHash(s, 1) == 0x5;
    assert FrontHash(s, 2) == 0x142;
    assert FrontHash(s, 3) == 0x5095;
    assert FrontHash(s, 4) == 0x142542;
  }

  lemma HashOfXlinkActuate(s: string)
    requires s == "xlink:actuate"
    ensures NameHash(s) == 468058810
  {
    AsciiTermsAToG();
    AsciiTermsHToN();
    AsciiTermsOToU();
    AsciiTermsVToZ();
    assert s[0] == 'x' && s[1] == 'l' && s[2] == 'i' && s[3] == 'n' && s[9] == 'u' && s[10] == 'a' && s[11] == 't' && s[12] == 'e';
    assert Min(4, 13) == 4;
    assert TailHash(s, 13, 0) == 0x1b8;
    assert TailHash(s, 13, 1) == 0x3705;
    assert TailHash(s, 13, 2) == 0x6e0b4;
    assert TailHash(s, 13, 3) == 0xdc1681;
    assert TailHash(s, 13, 4) == 0x1b82d035;
    assert FrontHash(s, 1) == 0x19;
    assert FrontHash(s, 2) == 0x64d;
    assert FrontHash(s, 3) == 0x1934a;
    assert FrontHash(s, 4) == 0x64d28f;
  }

  lemma HashOfXlinkArcrole(s: string)
    requires s == "xlink:arcrole"
    ensures NameHash(s) == 468083581
  {
    AsciiTermsAToG();
    AsciiTermsHToN();
    AsciiTermsOToU();
    AsciiTermsVToZ();
    assert s[0] == 'x' && s[1] == 'l' && s[2] == 'i' && s[3] == 'n' && s[9] == 'r' && s[10] == 'o' && s[11] == 'l' && s[12] == 'e';
    assert Min(4, 13) == 4;
    assert TailHash(s, 13, 0) == 0x1b8;
    assert TailHash(s, 13, 1) == 0x3705;
    assert TailHash(s, 13, 2) == 0x6e0ac;
    assert TailHash(s, 13, 3) == 0xdc158f;
    assert TailHash(s, 13, 4) == 0x1b82b1f2;
    assert FrontHash(s, 1) == 0x19;
    assert FrontHash(s, 2) == 0x64d;
    assert FrontHash(s, 3) == 0x1934a;
    assert FrontHash(s, 4) == 0x64d28f;
  }

  /** D (:443) holds at index 0. */
  lemma DHolds()
    ensures RowFacts(HASHES_0[0], NAMES_0[0])
  {
    HashOfD(D.local[HTML]);
  }

  /** ID (:462) holds at index 1. */
  lemma IdHolds()
    ensures RowFacts(HASHES_0[1], NAMES_0[1])
  {
    HashOfId(ID.local[HTML]);
  }

  /** DIR (:475) holds at index 2. */
  lemma DirHolds()
    ensures RowFacts(HASHES_0[2], NAMES_0[2])
  {
    HashOfDir(DIR.local[HTML]);
  }

  /** LANG (:510) holds at index 3. */
  lemma LangHolds()
    ensures RowFacts(HASHES_0[3], NAMES_0[3])
  {
    HashOfLang(LANG.local[HTML]);
  }

  /** The fingerprints of block 0 ascend. */
  lemma Block0Ascends()
    ensures StrictlyAscending(HASHES_0)
  {
    forall k | 0 <= k < |HASHES_0| - 1
      ensures HASHES_0[k] < HASHES_0[k + 1]
    {
      assert k == 0 || k == 1 || k == 2;
    }
    AscendingByNeighbours(HASHES_0);
  }

  /** Block 0 of the table: D (:443), ID (:462), DIR (:475), LANG (:510). */
  lemma Block0Holds()
    ensures RowsHold(HASHES_0, NAMES_0)
  {
    DHolds();
    IdHolds();
    DirHolds();
    LangHolds();
    Block0Ascends();
    FourRowsHold(HASHES_0, NAMES_0);
  }

  /** TYPE (:512) holds at index 4. */
  lemma TypeHolds()
    ensures RowFacts(HASHES_1[0], NAMES_1[0])
  {
    HashOfType(TYPE.local[HTML]);
  }

  /** REFX (:518) holds at index 5. */
  lemma RefxHolds()
    ensures RowFacts(HASHES_1[1], NAMES_1[1])
  {
    HashOfRefx(REFX.local[HTML]);
  }

  /** STEP (:524) holds at index 6. */
  lemma StepHolds()
    ensures RowFacts(HASHES_1[2], NAMES_1[2])
  {
    HashOfStep(STEP.local[HTML]);
  }

  /** ASYNC (:527) holds at index 7. */
  lemma AsyncHolds()
    ensures RowFacts(HASHES_1[3], NAMES_1[3])
  {
    HashOfAsync(ASYNC.local[HTML]);
  }

  /** The fingerprints of block 1 ascend. */
  lemma Block1Ascends()
    ensures StrictlyAscending(HASHES_1)
  {
    forall k | 0 <= k < |HASHES_1| - 1
      ensures HASHES_1[k] < HASHES_1[k + 1]
    {
      assert k == 0 || k == 1 || k == 2;
    }
    AscendingByNeighbours(HASHES_1);
  }

  /** Block 1 of the table: TYPE (:512), REFX (:518), STEP (:524), ASYNC (:527). */
  lemma Block1Holds()
    ensures RowsHold(HASHES_1, NAMES_1)
  {
    TypeHolds();
    RefxHolds();
    StepHolds();
    AsyncHolds();
    Block1Ascends();
    FourRowsHold(HASHES_1, NAMES_1);
  }

  /** ALIGN (:529) holds at index 8. */
  lemma AlignHolds()
    ensures RowFacts(HASHES_2[0], NAMES_2[0])
  {
    HashOfAlign(ALIGN.local[HTML]);
  }

  /** CLEAR (:533) holds at index 9. */
  lemma ClearHolds()
    ensures RowFacts(HASHES_2[1], NAMES_2[1])
  {
    HashOfClear(CLEAR.local[HTML]);
  }

  /** DEFER (:536) holds at index 10. */
  lemma DeferHolds()
    ensures RowFacts(HASHES_2[2], NAMES_2[2])
  {
    HashOfDefer(DEFER.local[HTML]);
  }

  /** FRAME (:538) holds at index 11. */
  lemma FrameHolds()
    ensures RowFacts(HASHES_2[3], NAMES_2[3])
  {
    HashOfFrame(FRAME.local[HTML]);
  }

  /** The fingerprints of block 2 ascend. */
  lemma Block2Ascends()
    ensures StrictlyAscending(HASHES_2)
  {
    forall k | 0 <= k < |HASHES_2| - 1
      ensures HASHES_2[k] < HASHES_2[k + 1]
    {
      assert k == 0 || k == 1 || k == 2;
    }
    AscendingByNeighbours(HASHES_2);
  }

  /** Block 2 of the table: ALIGN (:529), CLEAR (:533), DEFER (:536), FRAME (:538). */
  lemma Block2Holds()
    ensures RowsHold(HASHES_2, NAMES_2)
  {
    AlignHolds();
    ClearHolds();
    DeferHolds();
    FrameHolds();
    Block2Ascends();
    FourRowsHold(HASHES_2, NAMES_2);
  }

  /** ISMAP (:539) holds at index 12. */
  lemma IsmapHolds()
    ensures RowFacts(HASHES_3[0], NAMES_3[0])
  {
    HashOfIsmap(ISMAP.local[HTML]);
  }

  /** SHAPE (:554) holds at index 13. */
  lemma ShapeHolds()
    ensures RowFacts(HASHES_3[1], NAMES_3[1])
  {
    HashOfShape(SHAPE.local[HTML]);
  }

  /** SCOPE (:555) holds at index 14. */
  lemma ScopeHolds()
    ensures RowFacts(HASHES_3[2], NAMES_3[2])
  {
    HashOfScope(SCOPE.local[HTML]);
  }

  /** RULES (:559) holds at index 15. */
  lemma RulesHolds()
    ensures RowFacts(HASHES_3[3], NAMES_3[3])
  {
    HashOfRules(RULES.local[HTML]);
  }

  /** The fingerprints of block 3 ascend. */
  lemma Block3Ascends()
    ensures StrictlyAscending(HASHES_3)
  {
    forall k | 0 <= k < |HASHES_3| - 1
      ensures HASHES_3[k] < HASHES_3[k + 1]
    {
      assert k == 0 || k == 1 || k == 2;
    }
    AscendingByNeighbours(HASHES_3);
  }

  /** Block 3 of the table: ISMAP (:539), SHAPE (:554), SCOPE (:555), RULES (:559). */
  lemma Block3Holds()
    ensures RowsHold(HASHES_3, NAMES_3)
  {
    IsmapHolds();
    ShapeHolds();
    ScopeHolds();
    RulesHolds();
    Block3Ascends();
    FourRowsHold(HASHES_3, NAMES_3);
  }

  /** XMLNS (:563) holds at index 16. */
  lemma XmlnsHolds()
    ensures RowFacts(HASHES_4[0], NAMES_4[0])
  {
    HashOfXmlns(XMLNS.local[HTML]);
  }

  /** ACTIVE (:567) holds at index 17. */
  lemma ActiveHolds()
    ensures RowFacts(HASHES_4[1], NAMES_4[1])
  {
    HashOfActive(ACTIVE.local[HTML]);
  }

  /** NOWRAP (:591) holds at index 18. */
  lemma NowrapHolds()
    ensures RowFacts(HASHES_4[2], NAMES_4[2])
  {
    HashOfNowrap(NOWRAP.local[HTML]);
  }

  /** NOHREF (:592) holds at index 19. */
  lemma NohrefHolds()
    ensures RowFacts(HASHES_4[3], NAMES_4[3])
  {
    HashOfNohref(NOHREF.local[HTML]);
  }

  /** The fingerprints of block 4 ascend. */
  lemma Block4Ascends()
    ensures StrictlyAscending(HASHES_4)
  {
    forall k | 0 <= k < |HASHES_4| - 1
      ensures HASHES_4[k] < HASHES_4[k + 1]
    {
      assert k == 0 || k == 1 || k == 2;
    }
    AscendingByNeighbours(HASHES_4);
  }

  /** Block 4 of the table: XMLNS (:563), ACTIVE (:567), NOWRAP (:591), NOHREF (:592). */
  lemma Block4Holds()
    ensures RowsHold(HASHES_4, NAMES_4)
  {
    XmlnsHolds();
    ActiveHolds();
    NowrapHolds();
    NohrefHolds();
    Block4Ascends();
    FourRowsHold(HASHES_4, NAMES_4);
  }

  /** METHOD (:594) holds at index 20. */
  lemma MethodHolds()
    ensures RowFacts(HASHES_5[0], NAMES_5[0])
  {
    HashOfMethod(METHOD.local[HTML]);
  }

  /** VALIGN (:602) holds at index 21. */
  lemma ValignHolds()
    ensures RowFacts(HASHES_5[1], NAMES_5[1])
  {
    HashOfValign(VALIGN.local[HTML]);
  }

  /** CHECKED (:621) holds at index 22. */
  lemma CheckedHolds()
    ensures RowFacts(HASHES_5[2], NAMES_5[2])
  {
    HashOfChecked(CHECKED.local[HTML]);
  }

  /** COMPACT (:627) holds at index 23. */
  lemma CompactHolds()
    ensures RowFacts(HASHES_5[3], NAMES_5[3])
  {
    HashOfCompact(COMPACT.local[HTML]);
  }

  /** The fingerprints of block 5 ascend. */
  lemma Block5Ascends()
    ensures StrictlyAscending(HASHES_5)
  {
    forall k | 0 <= k < |HASHES_5| - 1
      ensures HASHES_5[k] < HASHES_5[k + 1]
    {
      assert k == 0 || k == 1 || k == 2;
    }
    AscendingByNeighbours(HASHES_5);
  }

  /** Block 5 of the table: METHOD (:594), VALIGN (:602), CHECKED (:621), COMPACT (:627). */
  lemma Block5Holds()
    ensures RowsHold(HASHES_5, NAMES_5)
  {
    MethodHolds();
    ValignHolds();
    CheckedHolds();
    CompactHolds();
    Block5Ascends();
    FourRowsHold(HASHES_5, NAMES_5);
  }

  /** ENCTYPE (:629) holds at index 24. */
  lemma EnctypeHolds()
    ensures RowFacts(HASHES_6[0], NAMES_6[0])
  {
    HashOfEnctype(ENCTYPE.local[HTML]);
  }

  /** DECLARE (:632) holds at index 25. */
  lemma DeclareHolds()
    ensures RowFacts(HASHES_6[1], NAMES_6[1])
  {
    HashOfDeclare(DECLARE.local[HTML]);
  }

  /** DEFAULT (:635) holds at index 26. */
  lemma DefaultHolds()
    ensures RowFacts(HASHES_6[2], NAMES_6[2])
  {
    HashOfDefault(DEFAULT.local[HTML]);
  }

  /** NOSHADE (:652) holds at index 27. */
  lemma NoshadeHolds()
    ensures RowFacts(HASHES_6[3], NAMES_6[3])
  {
    HashOfNoshade(NOSHADE.local[HTML]);
  }

  /** The fingerprints of block 6 ascend. */
  lemma Block6Ascends()
    ensures StrictlyAscending(HASHES_6)
  {
    forall k | 0 <= k < |HASHES_6| - 1
      ensures HASHES_6[k] < HASHES_6[k + 1]
    {
      assert k == 0 || k == 1 || k == 2;
    }
    AscendingByNeighbours(HASHES_6);
  }

  /** Block 6 of the table: ENCTYPE (:629), DECLARE (:632), DEFAULT (:635), NOSHADE (:652). */
  lemma Block6Holds()
    ensures RowsHold(HASHES_6, NAMES_6)
  {
    EnctypeHolds();
    DeclareHolds();
    DefaultHolds();
    NoshadeHolds();
    Block6Ascends();
    FourRowsHold(HASHES_6, NAMES_6);
  }

  /** VIEWBOX (:659) holds at index 28. */
  lemma ViewboxHolds()
    ensures RowFacts(HASHES_7[0], NAMES_7[0])
  {
    HashOfViewbox(VIEWBOX.local[HTML]);
  }

  /** REPLACE (:669) holds at index 29. */
  lemma ReplaceHolds()
    ensures RowFacts(HASHES_7[1], NAMES_7[1])
  {
    HashOfReplace(REPLACE.local[HTML]);
  }

  /** DISABLED (:681) holds at index 30. */
  lemma DisabledHolds()
    ensures RowFacts(HASHES_7[2], NAMES_7[2])
  {
    HashOfDisabled(DISABLED.local[HTML]);
  }

  /** LOOPEND (:684) holds at index 31. */
  lemma LoopendHolds()
    ensures RowFacts(HASHES_7[3], NAMES_7[3])
  {
    HashOfLoopend(LOOPEND.local[HTML]);
  }

  /** The fingerprints of block 7 ascend. */
  lemma Block7Ascends()
    ensures StrictlyAscending(HASHES_7)
  {
    forall k | 0 <= k < |HASHES_7| - 1
      ensures HASHES_7[k] < HASHES_7[k + 1]
    {
      assert k == 0 || k == 1 || k == 2;
    }
    AscendingByNeighbours(HASHES_7);
  }

  /** Block 7 of the table: VIEWBOX (:659), REPLACE (:669), DISABLED (:681), LOOPEND (:684). */
  lemma Block7Holds()
    ensures RowsHold(HASHES_7, NAMES_7)
  {
    ViewboxHolds();
    ReplaceHolds();
    DisabledHolds();
    LoopendHolds();
    Block7Ascends();
    FourRowsHold(HASHES_7, NAMES_7);
  }

  /** NORESIZE (:699) holds at index 32. */
  lemma NoresizeHolds()
    ensures RowFacts(HASHES_8[0], NAMES_8[0])
  {
    HashOfNoresize(NORESIZE.local[HTML]);
  }

  /** MULTIPLE (:702) holds at index 33. */
  lemma MultipleHolds()
    ensures RowFacts(HASHES_8[1], NAMES_8[1])
  {
    HashOfMultiple(MULTIPLE.local[HTML]);
  }

  /** READONLY (:707) holds at index 34. */
  lemma ReadonlyHolds()
    ensures RowFacts(HASHES_8[2], NAMES_8[2])
  {
    HashOfReadonly(READONLY.local[HTML]);
  }

  /** SELECTED (:708) holds at index 35. */
  lemma SelectedHolds()
    ensures RowFacts(HASHES_8[3], NAMES_8[3])
  {
    HashOfSelected(SELECTED.local[HTML]);
  }

  /** The fingerprints of block 8 ascend. */
  lemma Block8Ascends()
    ensures StrictlyAscending(HASHES_8)
  {
    forall k | 0 <= k < |HASHES_8| - 1
      ensures HASHES_8[k] < HASHES_8[k + 1]
    {
      assert k == 0 || k == 1 || k == 2;
    }
    AscendingByNeighbours(HASHES_8);
  }

  /** Block 8 of the table: NORESIZE (:699), MULTIPLE (:702), READONLY (:707), SELECTED (:708). */
  lemma Block8Holds()
    ensures RowsHold(HASHES_8, NAMES_8)
  {
    NoresizeHolds();
    MultipleHolds();
    ReadonlyHolds();
    SelectedHolds();
    Block8Ascends();
    FourRowsHold(HASHES_8, NAMES_8);
  }

  /** REQUIRED (:713) holds at index 36. */
  lemma RequiredHolds()
    ensures RowFacts(HASHES_9[0], NAMES_9[0])
  {
    HashOfRequired(REQUIRED.local[HTML]);
  }

  /** XML_BASE (:714) holds at index 37. */
  lemma XmlBaseHolds()
    ensures RowFacts(HASHES_9[1], NAMES_9[1])
  {
    HashOfXmlBase(XML_BASE.local[HTML]);
  }

  /** XML_LANG (:715) holds at index 38. */
  lemma XmlLangHolds()
    ensures RowFacts(HASHES_9[2], NAMES_9[2])
  {
    HashOfXmlLang(XML_LANG.local[HTML]);
  }

  /** CONTROLS (:717) holds at index 39. */
  lemma ControlsHolds()
    ensures RowFacts(HASHES_9[3], NAMES_9[3])
  {
    HashOfControls(CONTROLS.local[HTML]);
  }

  /** The fingerprints of block 9 ascend. */
  lemma Block9Ascends()
    ensures StrictlyAscending(HASHES_9)
  {
    forall k | 0 <= k < |HASHES_9| - 1
      ensures HASHES_9[k] < HASHES_9[k + 1]
    {
      assert k == 0 || k == 1 || k == 2;
    }
    AscendingByNeighbours(HASHES_9);
  }

  /** Block 9 of the table: REQUIRED (:713), XML_BASE (:714), XML_LANG (:715), CONTROLS (:717). */
  lemma Block9Holds()
    ensures RowsHold(HASHES_9, NAMES_9)
  {
    RequiredHolds();
    XmlBaseHolds();
    XmlLangHolds();
    ControlsHolds();
    Block9Ascends();
    FourRowsHold(HASHES_9, NAMES_9);
  }

  /** AUTOFOCUS (:719) holds at index 40. */
  lemma AutofocusHolds()
    ensures RowFacts(HASHES_10[0], NAMES_10[0])
  {
    HashOfAutofocus(AUTOFOCUS.local[HTML]);
  }

  /** VALUETYPE (:752) holds at index 41. */
  lemma ValuetypeHolds()
    ensures RowFacts(HASHES_10[1], NAMES_10[1])
  {
    HashOfValuetype(VALUETYPE.local[HTML]);
  }

  /** SCROLLING (:757) holds at index 42. */
  lemma ScrollingHolds()
    ensures RowFacts(HASHES_10[2], NAMES_10[2])
  {
    HashOfScrolling(SCROLLING.local[HTML]);
  }

  /** AUTOPLAY (:761) holds at index 43. */
  lemma AutoplayHolds()
    ensures RowFacts(HASHES_10[3], NAMES_10[3])
  {
    HashOfAutoplay(AUTOPLAY.local[HTML]);
  }

  /** The fingerprints of block 10 ascend. */
  lemma Block10Ascends()
    ensures StrictlyAscending(HASHES_10)
  {
    forall k | 0 <= k < |HASHES_10| - 1
      ensures HASHES_10[k] < HASHES_10[k + 1]
    {
      assert k == 0 || k == 1 || k == 2;
    }
    AscendingByNeighbours(HASHES_10);
  }

  /** Block 10 of the table: AUTOFOCUS (:719), VALUETYPE (:752), SCROLLING (:757), AUTOPLAY (:761). */
  lemma Block10Holds()
    ensures RowsHold(HASHES_10, NAMES_10)
  {
    AutofocusHolds();
    ValuetypeHolds();
    ScrollingHolds();
    AutoplayHolds();
    Block10Ascends();
    FourRowsHold(HASHES_10, NAMES_10);
  }

  /** XML_SPACE (:762) holds at index 44. */
  lemma XmlSpaceHolds()
    ensures RowFacts(HASHES_11[0], NAMES_11[0])
  {
    HashOfXmlSpace(XML_SPACE.local[HTML]);
  }

  /** AUTOSUBMIT (:765) holds at index 45. */
  lemma AutosubmitHolds()
    ensures RowFacts(HASHES_11[1], NAMES_11[1])
  {
    HashOfAutosubmit(AUTOSUBMIT.local[HTML]);
  }

  /** XLINK_TYPE (:807) holds at index 46. */
  lemma XlinkTypeHolds()
    ensures RowFacts(HASHES_11[2], NAMES_11[2])
  {
    HashOfXlinkType(XLINK_TYPE.local[HTML]);
  }

  /** XLINK_ROLE (:808) holds at index 47. */
  lemma XlinkRoleHolds()
    ensures RowFacts(HASHES_11[3], NAMES_11[3])
  {
    HashOfXlinkRole(XLINK_ROLE.local[HTML]);
  }

  /** The fingerprints of block 11 ascend. */
  lemma Block11Ascends()
    ensures StrictlyAscending(HASHES_11)
  {
    forall k | 0 <= k < |HASHES_11| - 1
      ensures HASHES_11[k] < HASHES_11[k + 1]
    {
      assert k == 0 || k == 1 || k == 2;
    }
    AscendingByNeighbours(HASHES_11);
  }

  /** Block 11 of the table: XML_SPACE (:762), AUTOSUBMIT (:765), XLINK_TYPE (:807), XLINK_ROLE (:808). */
  lemma Block11Holds()
    ensures RowsHold(HASHES_11, NAMES_11)
  {
    XmlSpaceHolds();
    AutosubmitHolds();
    XlinkTypeHolds();
    XlinkRoleHolds();
    Block11Ascends();
    FourRowsHold(HASHES_11, NAMES_11);
  }

  /** XLINK_HREF (:809) holds at index 48. */
  lemma XlinkHrefHolds()
    ensures RowFacts(HASHES_12[0], NAMES_12[0])
  {
    HashOfXlinkHref(XLINK_HREF.local[HTML]);
  }

  /** XLINK_SHOW (:810) holds at index 49. */
  lemma XlinkShowHolds()
    ensures RowFacts(HASHES_12[1], NAMES_12[1])
  {
    HashOfXlinkShow(XLINK_SHOW.local[HTML]);
  }

  /** XMLNS_XLINK (:851) holds at index 50. */
  lemma XmlnsXlinkHolds()
    ensures RowFacts(HASHES_12[2], NAMES_12[2])
  {
    HashOfXmlnsXlink(XMLNS_XLINK.local[HTML]);
  }

  /** XLINK_TITLE (:852) holds at index 51. */
  lemma XlinkTitleHolds()
    ensures RowFacts(HASHES_12[3], NAMES_12[3])
  {
    HashOfXlinkTitle(XLINK_TITLE.local[HTML]);
  }

  /** The fingerprints of block 12 ascend. */
  lemma Block12Ascends()
    ensures StrictlyAscending(HASHES_12)
  {
    forall k | 0 <= k < |HASHES_12| - 1
      ensures HASHES_12[k] < HASHES_12[k + 1]
    {
      assert k == 0 || k == 1 || k == 2;
    }
    AscendingByNeighbours(HASHES_12);
  }

  /** Block 12 of the table: XLINK_HREF (:809), XLINK_SHOW (:810), XMLNS_XLINK (:851), XLINK_TITLE (:852). */
  lemma Block12Holds()
    ensures RowsHold(HASHES_12, NAMES_12)
  {
    XlinkHrefHolds();
    XlinkShowHolds();
    XmlnsXlinkHolds();
    XlinkTitleHolds();
    Block12Ascends();
    FourRowsHold(HASHES_12, NAMES_12);
  }

  /** AUTOCOMPLETE (:854) holds at index 52. */
  lemma AutocompleteHolds()
    ensures RowFacts(HASHES_13[0], NAMES_13[0])
  {
    HashOfAutocomplete(AUTOCOMPLETE.local[HTML]);
  }

  /** DATAFORMATAS (:859) holds at index 53. */
  lemma DataformatasHolds()
    ensures RowFacts(HASHES_13[1], NAMES_13[1])
  {
    HashOfDataformatas(DATAFORMATAS.local[HTML]);
  }

  /** XLINK_ACTUATE (:932) holds at index 54. */
  lemma XlinkActuateHolds()
    ensures RowFacts(HASHES_13[2], NAMES_13[2])
  {
    HashOfXlinkActuate(XLINK_ACTUATE.local[HTML]);
  }

  /** XLINK_ARCROLE (:933) holds at index 55. */
  lemma XlinkArcroleHolds()
    ensures RowFacts(HASHES_13[3], NAMES_13[3])
  {
    HashOfXlinkArcrole(XLINK_ARCROLE.local[HTML]);
  }

  /** The fingerprints of block 13 ascend. */
  lemma Block13Ascends()
    ensures StrictlyAscending(HASHES_13)
  {
    forall k | 0 <= k < |HASHES_13| - 1
      ensures HASHES_13[k] < HASHES_13[k + 1]
    {
      assert k == 0 || k == 1 || k == 2;
    }
    AscendingByNeighbours(HASHES_13);
  }

  /** Block 13 of the table: AUTOCOMPLETE (:854), DATAFORMATAS (:859), XLINK_ACTUATE (:932), XLINK_ARCROLE (:933). */
  lemma Block13Holds()
    ensures RowsHold(HASHES_13, NAMES_13)
  {
    AutocompleteHolds();
    DataformatasHolds();
    XlinkActuateHolds();
    XlinkArcroleHolds();
    Block13Ascends();
    FourRowsHold(HASHES_13, NAMES_13);
  }

  /** The table up to and including block 1 holds. */
  lemma UpToBlock1Holds()
    ensures RowsHold(HASHES_0 + HASHES_1,
                     NAMES_0 + NAMES_1)
  {
    Block0Holds();
    Block1Holds();
    assert (HASHES_0)[|HASHES_0| - 1] == HASHES_0[3] == 150445028;
    RowsHoldAppend(HASHES_0, NAMES_0, HASHES_1, NAMES_1);
  }

  /** The table up to and including block 2 holds. */
  lemma UpToBlock2Holds()
    ensures RowsHold(HASHES_0 + HASHES_1 + HASHES_2,
                     NAMES_0 + NAMES_1 + NAMES_2)
  {
    UpToBlock1Holds();
    Block2Holds();
    assert (HASHES_0 + HASHES_1)[|HASHES_0 + HASHES_1| - 1] == HASHES_1[3] == 169409980;
    RowsHoldAppend(HASHES_0 + HASHES_1, NAMES_0 + NAMES_1, HASHES_2, NAMES_2);
  }

  /** The table up to and including block 3 holds. */
  lemma UpToBlock3Holds()
    ensures RowsHold(HASHES_0 + HASHES_1 + HASHES_2 + HASHES_3,
                     NAMES_0 + NAMES_1 + NAMES_2 + NAMES_3)
  {
    UpToBlock2Holds();
    Block3Holds();
    assert (HASHES_0 + HASHES_1 + HASHES_2)[|HASHES_0 + HASHES_1 + HASHES_2| - 1] == HASHES_2[3] == 176129212;
    RowsHoldAppend(HASHES_0 + HASHES_1 + HASHES_2, NAMES_0 + NAMES_1 + NAMES_2, HASHES_3, NAMES_3);
  }

  /** The table up to and including block 4 holds. */
  lemma UpToBlock4Holds()
    ensures RowsHold(HASHES_0 + HASHES_1 + HASHES_2 + HASHES_3 + HASHES_4,
                     NAMES_0 + NAMES_1 + NAMES_2 + NAMES_3 + NAMES_4)
  {
    UpToBlock3Holds();
    Block4Holds();
    assert (HASHES_0 + HASHES_1 + HASHES_2 + HASHES_3)[|HASHES_0 + HASHES_1 + HASHES_2 + HASHES_3| - 1] == HASHES_3[3] == 191166163;
    RowsHoldAppend(HASHES_0 + HASHES_1 + HASHES_2 + HASHES_3, NAMES_0 + NAMES_1 + NAMES_2 + NAMES_3, HASHES_4, NAMES_4);
  }

  /** The table up to and including block 5 holds. */
  lemma UpToBlock5Holds()
    ensures RowsHold(HASHES_0 + HASHES_1 + HASHES_2 + HASHES_3 + HASHES_4 + HASHES_5,
                     NAMES_0 + NAMES_1 + NAMES_2 + NAMES_3 + NAMES_4 + NAMES_5)
  {
    UpToBlock4Holds();
    Block5Holds();
    assert (HASHES_0 + HASHES_1 + HASHES_2 + HASHES_3 + HASHES_4)[|HASHES_0 + HASHES_1 + HASHES_2 + HASHES_3 + HASHES_4| - 1] == HASHES_4[3] == 215880731;
    RowsHoldAppend(HASHES_0 + HASHES_1 + HASHES_2 + HASHES_3 + HASHES_4, NAMES_0 + NAMES_1 + NAMES_2 + NAMES_3 + NAMES_4, HASHES_5, NAMES_5);
  }

  /** The table up to and including block 6 holds. */
  lemma UpToBlock6Holds()
    ensures RowsHold(HASHES_0 + HASHES_1 + HASHES_2 + HASHES_3 + HASHES_4 + HASHES_5 + HASHES_6,
                     NAMES_0 + NAMES_1 + NAMES_2 + NAMES_3 + NAMES_4 + NAMES_5 + NAMES_6)
  {
    UpToBlock5Holds();
    Block6Holds();
    assert (HASHES_0 + HASHES_1 + HASHES_2 + HASHES_3 + HASHES_4 + HASHES_5)[|HASHES_0 + HASHES_1 + HASHES_2 + HASHES_3 + HASHES_4 + HASHES_5| - 1] == HASHES_5[3] == 237703073;
    RowsHoldAppend(HASHES_0 + HASHES_1 + HASHES_2 + HASHES_3 + HASHES_4 + HASHES_5, NAMES_0 + NAMES_1 + NAMES_2 + NAMES_3 + NAMES_4 + NAMES_5, HASHES_6, NAMES_6);
  }

  /** The table up to and including block 7 holds. */
  lemma UpToBlock7Holds()
    ensures RowsHold(HASHES_0 + HASHES_1 + HASHES_2 + HASHES_3 + HASHES_4 + HASHES_5 + HASHES_6 + HASHES_7,
                     NAMES_0 + NAMES_1 + NAMES_2 + NAMES_3 + NAMES_4 + NAMES_5 + NAMES_6 + NAMES_7)
  {
    UpToBlock6Holds();
    Block7Holds();
    assert (HASHES_0 + HASHES_1 + HASHES_2 + HASHES_3 + HASHES_4 + HASHES_5 + HASHES_6)[|HASHES_0 + HASHES_1 + HASHES_2 + HASHES_3 + HASHES_4 + HASHES_5 + HASHES_6| - 1] == HASHES_6[3] == 249533729;
    RowsHoldAppend(HASHES_0 + HASHES_1 + HASHES_2 + HASHES_3 + HASHES_4 + HASHES_5 + HASHES_6, NAMES_0 + NAMES_1 + NAMES_2 + NAMES_3 + NAMES_4 + NAMES_5 + NAMES_6, HASHES_7, NAMES_7);
  }

  /** The table up to and including block 8 holds. */
  lemma UpToBlock8Holds()
    ensures RowsHold(HASHES_0 + HASHES_1 + HASHES_2 + HASHES_3 + HASHES_4 + HASHES_5 + HASHES_6 + HASHES_7 + HASHES_8,
                     NAMES_0 + NAMES_1 + NAMES_2 + NAMES_3 + NAMES_4 + NAMES_5 + NAMES_6 + NAMES_7 + NAMES_8)
  {
    UpToBlock7Holds();
    Block8Holds();
    assert (HASHES_0 + HASHES_1 + HASHES_2 + HASHES_3 + HASHES_4 + HASHES_5 + HASHES_6 + HASHES_7)[|HASHES_0 + HASHES_1 + HASHES_2 + HASHES_3 + HASHES_4 + HASHES_5 + HASHES_6 + HASHES_7| - 1] == HASHES_7[3] == 278205908;
    RowsHoldAppend(HASHES_0 + HASHES_1 + HASHES_2 + HASHES_3 + HASHES_4 + HASHES_5 + HASHES_6 + HASHES_7, NAMES_0 + NAMES_1 + NAMES_2 + NAMES_3 + NAMES_4 + NAMES_5 + NAMES_6 + NAMES_7, HASHES_8, NAMES_8);
  }

  /** The table up to and including block 9 holds. */
  lemma UpToBlock9Holds()
    ensures RowsHold(HASHES_0 + HASHES_1 + HASHES_2 + HASHES_3 + HASHES_4 + HASHES_5 + HASHES_6 + HASHES_7 + HASHES_8 + HASHES_9,
                     NAMES_0 + NAMES_1 + NAMES_2 + NAMES_3 + NAMES_4 + NAMES_5 + NAMES_6 + NAMES_7 + NAMES_8 + NAMES_9)
  {
    UpToBlock8Holds();
    Block9Holds();
    assert (HASHES_0 + HASHES_1 + HASHES_2 + HASHES_3 + HASHES_4 + HASHES_5 + HASHES_6 + HASHES_7 + HASHES_8)[|HASHES_0 + HASHES_1 + HASHES_2 + HASHES_3 + HASHES_4 + HASHES_5 + HASHES_6 + HASHES_7 + HASHES_8| - 1] == HASHES_8[3] == 291665349;
    RowsHoldAppend(HASHES_0 + HASHES_1 + HASHES_2 + HASHES_3 + HASHES_4 + HASHES_5 + HASHES_6 + HASHES_7 + HASHES_8, NAMES_0 + NAMES_1 + NAMES_2 + NAMES_3 + NAMES_4 + NAMES_5 + NAMES_6 + NAMES_7 + NAMES_8, HASHES_9, NAMES_9);
  }

  /** The table up to and including block 10 holds. */
  lemma UpToBlock10Holds()
    ensures RowsHold(HASHES_0 + HASHES_1 + HASHES_2 + HASHES_3 + HASHES_4 + HASHES_5 + HASHES_6 + HASHES_7 + HASHES_8 + HASHES_9 + HASHES_10,
                     NAMES_0 + NAMES_1 + NAMES_2 + NAMES_3 + NAMES_4 + NAMES_5 + NAMES_6 + NAMES_7 + NAMES_8 + NAMES_9 + NAMES_10)
  {
    UpToBlock9Holds();
    Block10Holds();
    assert (HASHES_0 + HASHES_1 + HASHES_2 + HASHES_3 + HASHES_4 + HASHES_5 + HASHES_6 + HASHES_7 + HASHES_8 + HASHES_9)[|HASHES_0 + HASHES_1 + HASHES_2 + HASHES_3 + HASHES_4 + HASHES_5 + HASHES_6 + HASHES_7 + HASHES_8 + HASHES_9| - 1] == HASHES_9[3] == 302075482;
    RowsHoldAppend(HASHES_0 + HASHES_1 + HASHES_2 + HASHES_3 + HASHES_4 + HASHES_5 + HASHES_6 + HASHES_7 + HASHES_8 + HASHES_9, NAMES_0 + NAMES_1 + NAMES_2 + NAMES_3 + NAMES_4 + NAMES_5 + NAMES_6 + NAMES_7 + NAMES_8 + NAMES_9, HASHES_10, NAMES_10);
  }

  /** The table up to and including block 11 holds. */
  lemma UpToBlock11Holds()
    ensures RowsHold(HASHES_0 + HASHES_1 + HASHES_2 + HASHES_3 + HASHES_4 + HASHES_5 + HASHES_6 + HASHES_7 + HASHES_8 + HASHES_9 + HASHES_10 + HASHES_11,
                     NAMES_0 + NAMES_1 + NAMES_2 + NAMES_3 + NAMES_4 + NAMES_5 + NAMES_6 + NAMES_7 + NAMES_8 + NAMES_9 + NAMES_10 + NAMES_11)
  {
    UpToBlock10Holds();
    Block11Holds();
    assert (HASHES_0 + HASHES_1 + HASHES_2 + HASHES_3 + HASHES_4 + HASHES_5 + HASHES_6 + HASHES_7 + HASHES_8 + HASHES_9 + HASHES_10)[|HASHES_0 + HASHES_1 + HASHES_2 + HASHES_3 + HASHES_4 + HASHES_5 + HASHES_6 + HASHES_7 + HASHES_8 + HASHES_9 + HASHES_10| - 1] == HASHES_10[3] == 333866609;
    RowsHoldAppend(HASHES_0 + HASHES_1 + HASHES_2 + HASHES_3 + HASHES_4 + HASHES_5 + HASHES_6 + HASHES_7 + HASHES_8 + HASHES_9 + HASHES_10, NAMES_0 + NAMES_1 + NAMES_2 + NAMES_3 + NAMES_4 + NAMES_5 + NAMES_6 + NAMES_7 + NAMES_8 + NAMES_9 + NAMES_10, HASHES_11, NAMES_11);
  }

  /** The table up to and including block 12 holds. */
  lemma UpToBlock12Holds()
    ensures RowsHold(HASHES_0 + HASHES_1 + HASHES_2 + HASHES_3 + HASHES_4 + HASHES_5 + HASHES_6 + HASHES_7 + HASHES_8 + HASHES_9 + HASHES_10 + HASHES_11 + HASHES_12,
                     NAMES_0 + NAMES_1 + NAMES_2 + NAMES_3 + NAMES_4 + NAMES_5 + NAMES_6 + NAMES_7 + NAMES_8 + NAMES_9 + NAMES_10 + NAMES_11 + NAMES_12)
  {
    UpToBlock11Holds();
    Block12Holds();
    assert (HASHES_0 + HASHES_1 + HASHES_2 + HASHES_3 + HASHES_4 + HASHES_5 + HASHES_6 + HASHES_7 + HASHES_8 + HASHES_9 + HASHES_10 + HASHES_11)[|HASHES_0 + HASHES_1 + HASHES_2 + HASHES_3 + HASHES_4 + HASHES_5 + HASHES_6 + HASHES_7 + HASHES_8 + HASHES_9 + HASHES_10 + HASHES_11| - 1] == HASHES_11[3] == 367420285;
    RowsHoldAppend(HASHES_0 + HASHES_1 + HASHES_2 + HASHES_3 + HASHES_4 + HASHES_5 + HASHES_6 + HASHES_7 + HASHES_8 + HASHES_9 + HASHES_10 + HASHES_11, NAMES_0 + NAMES_1 + NAMES_2 + NAMES_3 + NAMES_4 + NAMES_5 + NAMES_6 + NAMES_7 + NAMES_8 + NAMES_9 + NAMES_10 + NAMES_11, HASHES_12, NAMES_12);
  }

  /** The table up to and including block 13 holds. */
  lemma UpToBlock13Holds()
    ensures RowsHold(HASHES_0 + HASHES_1 + HASHES_2 + HASHES_3 + HASHES_4 + HASHES_5 + HASHES_6 + HASHES_7 + HASHES_8 + HASHES_9 + HASHES_10 + HASHES_11 + HASHES_12 + HASHES_13,
                     NAMES_0 + NAMES_1 + NAMES_2 + NAMES_3 + NAMES_4 + NAMES_5 + NAMES_6 + NAMES_7 + NAMES_8 + NAMES_9 + NAMES_10 + NAMES_11 + NAMES_12 + NAMES_13)
  {
    UpToBlock12Holds();
    Block13Holds();
    assert (HASHES_0 + HASHES_1 + HASHES_2 + HASHES_3 + HASHES_4 + HASHES_5 + HASHES_6 + HASHES_7 + HASHES_8 + HASHES_9 + HASHES_10 + HASHES_11 + HASHES_12)[|HASHES_0 + HASHES_1 + HASHES_2 + HASHES_3 + HASHES_4 + HASHES_5 + HASHES_6 + HASHES_7 + HASHES_8 + HASHES_9 + HASHES_10 + HASHES_11 + HASHES_12| - 1] == HASHES_12[3] == 400973830;
    RowsHoldAppend(HASHES_0 + HASHES_1 + HASHES_2 + HASHES_3 + HASHES_4 + HASHES_5 + HASHES_6 + HASHES_7 + HASHES_8 + HASHES_9 + HASHES_10 + HASHES_11 + HASHES_12, NAMES_0 + NAMES_1 + NAMES_2 + NAMES_3 + NAMES_4 + NAMES_5 + NAMES_6 + NAMES_7 + NAMES_8 + NAMES_9 + NAMES_10 + NAMES_11 + NAMES_12, HASHES_13, NAMES_13);
  }

  /**
   * The kept rows satisfy every requirement of the resolver: the two arrays
   * are parallel, the fingerprints strictly ascend, every row is a shared
   * well-formed record whose stored fingerprint is that of its local name,
   * and the content type is "ID" for the id row only.
   */
  lemma TableWellFormed()
    ensures TableInvariant(ATTRIBUTE_HASHES, ATTRIBUTE_NAMES)
    ensures HashesAgree(ATTRIBUTE_HASHES, ATTRIBUTE_NAMES)
    ensures forall i, m :: 0 <= i < |ATTRIBUTE_NAMES| && IsMode(m) ==>
      (ATTRIBUTE_NAMES[i].GetType(m) == "ID" <==> ATTRIBUTE_NAMES[i].GetLocal(HTML) == "id")
  {
    UpToBlock13Holds();
    RowsMakeTable(ATTRIBUTE_HASHES, ATTRIBUTE_NAMES);
  }

  /** The constants isCaseFolded compares against, in the order it lists them. */
  const CASE_FOLDED_ATTRIBUTES: set<AttributeName> := {
    ACTIVE, ALIGN, ASYNC, AUTOCOMPLETE, AUTOFOCUS, AUTOSUBMIT, CHECKED, CLEAR, COMPACT,
    DATAFORMATAS, DECLARE, DEFAULT, DEFER, DIR, DISABLED, ENCTYPE, FRAME, ISMAP, METHOD,
    MULTIPLE, NOHREF, NORESIZE, NOSHADE, NOWRAP, READONLY, REPLACE, REQUIRED, RULES, SCOPE,
    SCROLLING, SELECTED, SHAPE, STEP, TYPE, VALIGN, VALUETYPE
  }

  /** The constants isBoolean compares against, in the order it lists them. */
  const BOOLEAN_ATTRIBUTES: set<AttributeName> := {
    ACTIVE, ASYNC, AUTOFOCUS, AUTOSUBMIT, CHECKED, COMPACT, DECLARE, DEFAULT, DEFER, DISABLED,
    ISMAP, MULTIPLE, NOHREF, NORESIZE, NOSHADE, NOWRAP, READONLY, REQUIRED, SELECTED
  }

  /**
   * isCaseFolded: the record is one of the constants whose values the
   * serializer lower-cases.  Java compares references; a record equal to a
   * constant is one of the shared constants themselves.
   */
  function IsCaseFolded(r: AttributeName): (b: bool)
    ensures b ==> r.Valid() && r.shared && !r.IsXmlns() && r.GetType(HTML) == "CDATA"
  {
    r in CASE_FOLDED_ATTRIBUTES
  }

  /** isBoolean: the record is one of the boolean attributes, all of them case-folded. */
  function IsBoolean(r: AttributeName): (b: bool)
    ensures b ==> IsCaseFolded(r)
  {
    r in BOOLEAN_ATTRIBUTES
  }

  /** Every boolean attribute is also case-folded. */
  lemma BooleanImpliesCaseFolded(r: AttributeName)
    ensures IsBoolean(r) ==> IsCaseFolded(r)
  {
  }

  /** The constants both predicates name are rows of the table. */
  lemma CaseFoldedAreRows(r: AttributeName)
    ensures IsCaseFolded(r) ==> r in ATTRIBUTE_NAMES
    ensures IsBoolean(r) ==> r in ATTRIBUTE_NAMES
  {
    assert ACTIVE in NAMES_4;
    assert ALIGN in NAMES_2;
    assert ASYNC in NAMES_1;
    assert AUTOCOMPLETE in NAMES_13;
    assert AUTOFOCUS in NAMES_10;
    assert AUTOSUBMIT in NAMES_11;
    assert CHECKED in NAMES_5;
    assert CLEAR in NAMES_2;
    assert COMPACT in NAMES_5;
    assert DATAFORMATAS in NAMES_13;
    assert DECLARE in NAMES_6;
    assert DEFAULT in NAMES_6;
    assert DEFER in NAMES_2;
    assert DIR in NAMES_0;
    assert DISABLED in NAMES_7;
    assert ENCTYPE in NAMES_6;
    assert FRAME in NAMES_2;
    assert ISMAP in NAMES_3;
    assert METHOD in NAMES_5;
    assert MULTIPLE in NAMES_8;
    assert NOHREF in NAMES_4;
    assert NORESIZE in NAMES_8;
    assert NOSHADE in NAMES_6;
    assert NOWRAP in NAMES_4;
    assert READONLY in NAMES_8;
    assert REPLACE in NAMES_7;
    assert REQUIRED in NAMES_9;
    assert RULES in NAMES_3;
    assert SCOPE in NAMES_3;
    assert SCROLLING in NAMES_10;
    assert SELECTED in NAMES_8;
    assert SHAPE in NAMES_3;
    assert STEP in NAMES_1;
    assert TYPE in NAMES_1;
    assert VALIGN in NAMES_5;
    assert VALUETYPE in NAMES_10;
  }

  /**
   * Neither predicate holds of a record made by either create overload:
   * such a record is never one of the constants.
   */
  lemma CreatedAreNeverFlagged(name: string, checkNcName: bool, isNCName: string -> bool)
    ensures !IsCaseFolded(Create(name, checkNcName, isNCName)) && !IsBoolean(Create(name, checkNcName, isNCName))
    ensures !IsCaseFolded(CreateUnchecked(name)) && !IsBoolean(CreateUnchecked(name))
  {
    TableWellFormed();
    CaseFoldedAreRows(Create(name, checkNcName, isNCName));
    CaseFoldedAreRows(CreateUnchecked(name));
  }

  /** The HTML-mode local name of a row of the table. */
  function RowName(r: AttributeName): string
    requires r in ATTRIBUTE_NAMES
  {
    TableWellFormed();
    r.GetLocal(HTML)
  }

  /**
   * nameByBuffer over this table: every row's local name, at the start of a
   * buffer, resolves to that row itself.
   */
  lemma ResolvesEveryRow(r: AttributeName, buf: seq<char>, checkNcName: bool, isNCName: string -> bool)
    requires r in ATTRIBUTE_NAMES
    requires |RowName(r)| <= |buf| && buf[..|RowName(r)|] == RowName(r)
    ensures TableInvariant(ATTRIBUTE_HASHES, ATTRIBUTE_NAMES)
    ensures 1 <= |buf| && IsLength(|RowName(r)|)
    ensures Resolve(ATTRIBUTE_HASHES, ATTRIBUTE_NAMES, buf, 0, |RowName(r)|, checkNcName, isNCName) == r
  {
    TableWellFormed();
    var i :| 0 <= i < |ATTRIBUTE_NAMES| && ATTRIBUTE_NAMES[i] == r;
    ResolveFindsRow(ATTRIBUTE_HASHES, ATTRIBUTE_NAMES, i, buf, checkNcName, isNCName);
  }

  /**
   * getType of a resolved name: "ID" only for the text "id", and always for
   * "id" at the start of the buffer.
   */
  lemma ResolvedTypeIsId(buf: seq<char>, offset: nat, length: nat, checkNcName: bool,
                         isNCName: string -> bool, mode: int)
    requires 1 <= |buf| && offset + length <= |buf| && IsLength(length) && IsMode(mode)
    ensures TableInvariant(ATTRIBUTE_HASHES, ATTRIBUTE_NAMES)
    ensures var r := Resolve(ATTRIBUTE_HASHES, ATTRIBUTE_NAMES, buf, offset, length, checkNcName, isNCName);
      && (r.GetType(mode) == "ID" ==> buf[offset..offset + length] == "id")
      && (offset == 0 && buf[..length] == "id" ==> r.GetType(mode) == "ID")
  {
    assert ID in NAMES_0;
    TableWellFormed();
    ResolvedTypeFromRows(ATTRIBUTE_HASHES, ATTRIBUTE_NAMES, ID, buf, offset, length, checkNcName, isNCName, mode);
  }

}
