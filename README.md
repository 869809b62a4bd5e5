# AttributeName: resolving HTML attribute names

A Dafny model of the attribute-name resolver of the validator.nu HTML parser
(`src/nu/validator/htmlparser/impl/AttributeName.java`). While the tokenizer reads an attribute, it hands the lower-cased name
to `nameByBuffer` as a character buffer, an offset and a length. The resolver
returns an immutable record that describes the attribute in four modes:
HTML (0), MathML (1), SVG (2) and HTML_LANG (3). For each mode the record holds
a namespace URI, a local name, a prefix, the derived qualified name and an
NCName flag. It also holds an xmlns flag and a content type ("ID" or "CDATA").

The modules follow the class:

- `attribute_records.dfy` (`AttributeRecords`): the record as a datatype.
  - The array helpers `NAMESPACE`, `CAMEL_CASE_LOCAL`, `COLONIFIED_LOCAL`,
    `PREFIX` and `SAME_LOWER_CASE_LOCAL`.
  - The two constructors.
  - `COMPUTE_QNAME`, as a loop over a fresh four-element array, proved equal
    to the function that specifies it.
  - The two `create` overloads, the accessors and `equalsAnother`.
- `buffer_hash.dfy` (`BufferHash`): `bufToHash`.
  - The method is a loop over the buffer array.
  - It is proved against a recursive definition of the two accumulators in
    `bv32`, so Java's 32-bit wrap-around is explicit.
  - It returns a Java `int` (`int32`).
- `name_resolver.dfy` (`NameResolver`): `nameByBuffer`.
  - `Arrays.binarySearch` is a loop method over an `int32` array.
  - The resolver is specified by the function `Resolve`.
  - The method is proved equal to `Resolve`, and the properties of `Resolve`
    are proved for any table that meets the table invariant.
- `attribute_table.dfy` (`AttributeTable`): the static table.
  - The constants, and the parallel `ATTRIBUTE_NAMES` and `ATTRIBUTE_HASHES`
    arrays.
  - `isCaseFolded` and `isBoolean`.
  - A proof that the kept rows meet the resolver's requirements. For every
    row, the stored hash is computed from the row's local name.
- `table_lookups.dfy` (`TableLookups`): `nameByBuffer` applied to the table.
  - The rows that the "adjust SVG attributes" and "adjust foreign attributes"
    tables single out. These tables are in section 13.2.6.1 of the WHATWG HTML
    Living Standard.
  - The three kept rows (of fourteen) whose local names end in spaces.
  - Names the table does not hold.
  - The offset quirk.

Java object identity matters twice. `isCaseFolded` and `isBoolean` compare
references with the constants. The record therefore carries a `shared` flag:
it is true for the table constants and false for every record that `create`
makes. Without it, a record created for "checked" would be indistinguishable
from `CHECKED`. Interned strings are compared by value.

The model follows the code on these points:

- `NAMESPACE` fills only the MathML and SVG slots, and so does `PREFIX`. The
  xml:, xlink: and xmlns:xlink rows therefore have no namespace and no prefix
  in the HTML_LANG mode, and keep their colonised local name there.
- Bare `lang` is the only row with a namespace (XML) and a prefix (`xml`) in
  HTML_LANG.

The fingerprint of `nameByBuffer` is taken over `buf[0..length)` and ignores
`offset`. The text check and the fresh record do use the slice at `offset`.
This is modelled as written, and `ResolveOffsetMismatch` and
`OffsetSliceMissesRow` state its consequence.

The source has fourteen rows whose local names carry trailing spaces:
LOOPEND, CONTROLS, AUTOPLAY, ARIA_GRAB, ARIA_BUSY, LOOPSTART, PLAYCOUNT,
ARIA_HIDDEN, ARIA_CHECKED, ARIA_PRESSED, ARIA_INVALID, ARIA_EXPANDED,
ARIA_DISABLED and ARIA_SELECTED. Three of them are kept exactly: `"loopend "`,
`"controls "` and `"autoplay  "`. Their stored hashes are those of the padded
names.

## Model

| member | source | states |
|---|---|---|
| AttributeRecords.AttributeName.GetQName | src/nu/validator/htmlparser/impl/AttributeName.java:275-277 | getQName(mode) is the local name when the prefix of that mode is null, otherwise prefix ":" local |
| AttributeRecords.Namespace | src/nu/validator/htmlparser/impl/AttributeName.java:48-50 | NAMESPACE builds a four-slot array (the URI sits in the MathML and SVG slots only, see ColonifiedRowQName) |
| AttributeRecords.CamelCaseLocal | src/nu/validator/htmlparser/impl/AttributeName.java:52-55 | CAMEL_CASE_LOCAL builds a four-slot array (the camel spelling only in SVG, see CamelCaseRowQName) |
| AttributeRecords.ColonifiedLocal | src/nu/validator/htmlparser/impl/AttributeName.java:57-60 | COLONIFIED_LOCAL builds a four-slot array (colonised spelling in HTML and HTML_LANG, see ColonifiedRowQName) |
| AttributeRecords.Prefix | src/nu/validator/htmlparser/impl/AttributeName.java:62-64 | PREFIX builds a four-slot array (the prefix only in MathML and SVG, see ColonifiedRowQName) |
| AttributeRecords.SameLowerCaseLocal | src/nu/validator/htmlparser/impl/AttributeName.java:66-68 | SAME_LOWER_CASE_LOCAL builds a four-slot array |
| AttributeRecords.NewAttributeName | src/nu/validator/htmlparser/impl/AttributeName.java:147-160 | the typed constructor keeps every argument, yields a valid record, and its qName slot m is Qualify(prefix[m], local[m]) |
| AttributeRecords.NewCDataAttributeName | src/nu/validator/htmlparser/impl/AttributeName.java:162-173 | the untyped constructor is the typed one with type "CDATA" |
| AttributeRecords.ComputeQName | src/nu/validator/htmlparser/impl/AttributeName.java:175-185 | the loop fills four slots, local[i] where prefix[i] is null and prefix[i] ":" local[i] otherwise; the result equals QNames(local, prefix) |
| AttributeRecords.Create | src/nu/validator/htmlparser/impl/AttributeName.java:187-204 | create(name, checkNcName): valid, not shared, type "CDATA", uri "" / prefix null / local and qName = name in all four modes; xmlns iff name starts with "xmlns:"; ncname true in all modes without checking, false in all modes for an xmlns name with checking, otherwise isNCName(name) in all modes |
| AttributeRecords.CreateUnchecked | src/nu/validator/htmlparser/impl/AttributeName.java:211-215 | create(name): same shape, ncname true in every mode and xmlns false whatever the name |
| AttributeRecords.CreateUncheckedAgrees | src/nu/validator/htmlparser/impl/AttributeName.java:187-215 | the two create overloads produce the same record exactly when the name does not start with "xmlns:" (and checking is off) |
| AttributeRecords.QualifySplits | src/nu/validator/htmlparser/impl/AttributeName.java:175-185 | a prefixed qName splits back at its first colon into the prefix and the local name when the prefix has no colon |
| AttributeRecords.ColonifiedRowQName | src/nu/validator/htmlparser/impl/AttributeName.java:48-64 | a row built with NAMESPACE, COLONIFIED_LOCAL and PREFIX has qName "p:suffix" in all four modes; local is the colonised name in HTML and HTML_LANG and the suffix in MathML and SVG; prefix and URI are set only in MathML and SVG |
| AttributeRecords.CamelCaseRowQName | src/nu/validator/htmlparser/impl/AttributeName.java:52-55 | a CAMEL_CASE_LOCAL row has the camel qName in SVG only, the lower-case one elsewhere, no namespace and no prefix |
| AttributeRecords.EqualsAnotherIsEquivalence | src/nu/validator/htmlparser/impl/AttributeName.java:297-299 | equalsAnother is reflexive, symmetric and transitive |
| AttributeRecords.CreateEquivalent | src/nu/validator/htmlparser/impl/AttributeName.java:187-215 | records created for the same name by either overload, with any checking, are equalsAnother-equivalent |
| BufferHash.BufToHash | src/nu/validator/htmlparser/impl/AttributeName.java:96-110 | bufToHash returns the 32-bit two's-complement value HashOf(buf, len): length and buf[0] seeded, min(4, len) rounds of shift-by-5 over the tail and shift-by-6 over the head, wrapping modulo 2^32, then hash ^ hash2; the loop runs exactly min(4, len) times |
| BufferHash.HashReadsOnlyPrefix | src/nu/validator/htmlparser/impl/AttributeName.java:96-110 | the fingerprint depends only on buf[0..len): two buffers that agree there hash alike |
| BufferHash.HashOfPrefix | src/nu/validator/htmlparser/impl/AttributeName.java:96-110 | hashing the first len characters of a buffer equals hashing that name on its own |
| BufferHash.TailHashPrefix | src/nu/validator/htmlparser/impl/AttributeName.java:101-104 | the tail accumulator reads only buf[0..len) |
| BufferHash.FrontHashPrefix | src/nu/validator/htmlparser/impl/AttributeName.java:106-107 | the head accumulator reads only buf[0..n) |
| BufferHash.AsciiTermsAToG | src/nu/validator/htmlparser/impl/AttributeName.java:104 | buf[j] - 0x60 and buf[i] - 0x5F for the letters a to g |
| BufferHash.AsciiTermsHToN | src/nu/validator/htmlparser/impl/AttributeName.java:104 | the same terms for h to n |
| BufferHash.AsciiTermsOToU | src/nu/validator/htmlparser/impl/AttributeName.java:104 | the same terms for o to u |
| BufferHash.AsciiTermsVToZ | src/nu/validator/htmlparser/impl/AttributeName.java:104 | the same terms for v to z, and the negative (wrapped) terms of "-", ":" and space |
| NameResolver.IndexOf | src/nu/validator/htmlparser/impl/AttributeName.java:73 | the position of a key: a hit is a position holding the key, and there is no position exactly when the key is absent |
| NameResolver.IndexOfUnique | src/nu/validator/htmlparser/impl/AttributeName.java:73 | in a strictly ascending array a key sits at one position only |
| NameResolver.AbsentBetween | src/nu/validator/htmlparser/impl/AttributeName.java:73 | a key strictly between two neighbours of a strictly ascending array is absent |
| NameResolver.BinarySearch | src/nu/validator/htmlparser/impl/AttributeName.java:73 | Arrays.binarySearch: a result r >= 0 is an index holding the key; r < 0 means the key is absent and -(r + 1) is its insertion point, everything before it smaller and everything from it larger |
| NameResolver.Resolve | src/nu/validator/htmlparser/impl/AttributeName.java:70-86 | the result of nameByBuffer is valid, its HTML local name is buf[offset..offset+length), a shared result is a table row, and any other result is create(slice, checkNcName) |
| NameResolver.NameByBuffer | src/nu/validator/htmlparser/impl/AttributeName.java:70-86 | the imperative nameByBuffer (bufToHash, binary search, text check, create fallback) returns exactly Resolve of its inputs |
| NameResolver.ResolveSharedIff | src/nu/validator/htmlparser/impl/AttributeName.java:74-85 | a shared row comes back iff some row has both the fingerprint of buf[0..length) and the slice as its HTML local name; otherwise the record is fresh |
| NameResolver.ResolveEquivalent | src/nu/validator/htmlparser/impl/AttributeName.java:70-86 | two resolutions of equal slices (any buffers, offsets, checking) are equalsAnother-equivalent |
| NameResolver.ResolveFindsRow | src/nu/validator/htmlparser/impl/AttributeName.java:70-86 | in a table whose stored hashes agree with its names, every row's name at the start of a buffer resolves to that row |
| NameResolver.ResolveOffsetMismatch | src/nu/validator/htmlparser/impl/AttributeName.java:72 | when the fingerprint of buf[0..length) differs from that of the slice at offset, the result is a fresh record, even if the slice is a table name |
| NameResolver.ResolveAtStart | src/nu/validator/htmlparser/impl/AttributeName.java:72 | at offset 0 only the first length characters matter, not what follows them |
| NameResolver.ResolvedTypeFromRows | src/nu/validator/htmlparser/impl/AttributeName.java:281-283 | over a table typed "ID" exactly on its "id" row, a resolved record has type "ID" only for the text "id", and the text "id" at offset 0 gets it |
| AttributeTable.TableWellFormed | src/nu/validator/htmlparser/impl/AttributeName.java:1607-2188 | the kept rows: parallel arrays, strictly ascending hashes, every row a valid shared constant whose stored hash is bufToHash of its HTML local name, and type "ID" exactly for the id row |
| AttributeTable.IsCaseFolded | src/nu/validator/htmlparser/impl/AttributeName.java:225-253 | isCaseFolded holds only of shared table constants, each a valid non-xmlns CDATA row; BooleanImpliesCaseFolded, CaseFoldedAreRows and CreatedAreNeverFlagged state the rest of its meaning |
| AttributeTable.IsBoolean | src/nu/validator/htmlparser/impl/AttributeName.java:255-273 | every record isBoolean accepts is also accepted by isCaseFolded; CaseFoldedAreRows and CreatedAreNeverFlagged say the rest |
| AttributeTable.BooleanImpliesCaseFolded | src/nu/validator/htmlparser/impl/AttributeName.java:255-273 | every constant isBoolean names is also one isCaseFolded names |
| AttributeTable.CaseFoldedAreRows | src/nu/validator/htmlparser/impl/AttributeName.java:225-253 | every constant isCaseFolded or isBoolean names is a row of the table |
| AttributeTable.CreatedAreNeverFlagged | src/nu/validator/htmlparser/impl/AttributeName.java:187-273 | isCaseFolded and isBoolean are false for any record made by either create overload |
| AttributeTable.ResolvesEveryRow | src/nu/validator/htmlparser/impl/AttributeName.java:70-86 | every row's HTML local name at the start of a buffer resolves to that very row |
| AttributeTable.ResolvedTypeIsId | src/nu/validator/htmlparser/impl/AttributeName.java:281-283 | getType of a resolved name is "ID" only for the text "id", and always for "id" at offset 0 |
| AttributeTable.HashOfD | src/nu/validator/htmlparser/impl/AttributeName.java:1608 | bufToHash("d") is 1153, the value stored beside D |
| AttributeTable.HashOfId | src/nu/validator/htmlparser/impl/AttributeName.java:1627 | bufToHash("id") is 75276, the value stored beside ID |
| AttributeTable.HashOfDir | src/nu/validator/htmlparser/impl/AttributeName.java:1640 | bufToHash("dir") is 3283895, the value stored beside DIR |
| AttributeTable.HashOfLang | src/nu/validator/htmlparser/impl/AttributeName.java:1675 | bufToHash("lang") is 150445028, the value stored beside LANG |
| AttributeTable.HashOfType | src/nu/validator/htmlparser/impl/AttributeName.java:1677 | bufToHash("type") is 152528754, the value stored beside TYPE |
| AttributeTable.HashOfRefx | src/nu/validator/htmlparser/impl/AttributeName.java:1683 | bufToHash("refx") is 157317483, the value stored beside REFX |
| AttributeTable.HashOfStep | src/nu/validator/htmlparser/impl/AttributeName.java:1689 | bufToHash("step") is 157894402, the value stored beside STEP |
| AttributeTable.HashOfAsync | src/nu/validator/htmlparser/impl/AttributeName.java:1692 | bufToHash("async") is 169409980, the value stored beside ASYNC |
| AttributeTable.HashOfAlign | src/nu/validator/htmlparser/impl/AttributeName.java:1694 | bufToHash("align") is 169856932, the value stored beside ALIGN |
| AttributeTable.HashOfClear | src/nu/validator/htmlparser/impl/AttributeName.java:1698 | bufToHash("clear") is 170513710, the value stored beside CLEAR |
| AttributeTable.HashOfDefer | src/nu/validator/htmlparser/impl/AttributeName.java:1701 | bufToHash("defer") is 173896963, the value stored beside DEFER |
| AttributeTable.HashOfFrame | src/nu/validator/htmlparser/impl/AttributeName.java:1703 | bufToHash("frame") is 176129212, the value stored beside FRAME |
| AttributeTable.HashOfIsmap | src/nu/validator/htmlparser/impl/AttributeName.java:1704 | bufToHash("ismap") is 179390001, the value stored beside ISMAP |
| AttributeTable.HashOfShape | src/nu/validator/htmlparser/impl/AttributeName.java:1719 | bufToHash("shape") is 190992569, the value stored beside SHAPE |
| AttributeTable.HashOfScope | src/nu/validator/htmlparser/impl/AttributeName.java:1720 | bufToHash("scope") is 191006194, the value stored beside SCOPE |
| AttributeTable.HashOfRules | src/nu/validator/htmlparser/impl/AttributeName.java:1724 | bufToHash("rules") is 191166163, the value stored beside RULES |
| AttributeTable.HashOfXmlns | src/nu/validator/htmlparser/impl/AttributeName.java:1728 | bufToHash("xmlns") is 200104642, the value stored beside XMLNS |
| AttributeTable.HashOfActive | src/nu/validator/htmlparser/impl/AttributeName.java:1732 | bufToHash("active") is 203070590, the value stored beside ACTIVE |
| AttributeTable.HashOfNowrap | src/nu/validator/htmlparser/impl/AttributeName.java:1756 | bufToHash("nowrap") is 215285828, the value stored beside NOWRAP |
| AttributeTable.HashOfNohref | src/nu/validator/htmlparser/impl/AttributeName.java:1757 | bufToHash("nohref") is 215880731, the value stored beside NOHREF |
| AttributeTable.HashOfMethod | src/nu/validator/htmlparser/impl/AttributeName.java:1759 | bufToHash("method") is 216684637, the value stored beside METHOD |
| AttributeTable.HashOfValign | src/nu/validator/htmlparser/impl/AttributeName.java:1767 | bufToHash("valign") is 221986406, the value stored beside VALIGN |
| AttributeTable.HashOfChecked | src/nu/validator/htmlparser/impl/AttributeName.java:1786 | bufToHash("checked") is 237143271, the value stored beside CHECKED |
| AttributeTable.HashOfCompact | src/nu/validator/htmlparser/impl/AttributeName.java:1792 | bufToHash("compact") is 237703073, the value stored beside COMPACT |
| AttributeTable.HashOfEnctype | src/nu/validator/htmlparser/impl/AttributeName.java:1794 | bufToHash("enctype") is 239743521, the value stored beside ENCTYPE |
| AttributeTable.HashOfDeclare | src/nu/validator/htmlparser/impl/AttributeName.java:1797 | bufToHash("declare") is 240560417, the value stored beside DECLARE |
| AttributeTable.HashOfDefault | src/nu/validator/htmlparser/impl/AttributeName.java:1800 | bufToHash("default") is 241062755, the value stored beside DEFAULT |
| AttributeTable.HashOfNoshade | src/nu/validator/htmlparser/impl/AttributeName.java:1817 | bufToHash("noshade") is 249533729, the value stored beside NOSHADE |
| AttributeTable.HashOfViewbox | src/nu/validator/htmlparser/impl/AttributeName.java:1824 | bufToHash("viewbox") is 254844367, the value stored beside VIEWBOX |
| AttributeTable.HashOfReplace | src/nu/validator/htmlparser/impl/AttributeName.java:1834 | bufToHash("replace") is 258926689, the value stored beside REPLACE |
| AttributeTable.HashOfDisabled | src/nu/validator/htmlparser/impl/AttributeName.java:1846 | bufToHash("disabled") is 274116736, the value stored beside DISABLED |
| AttributeTable.HashOfLoopend | src/nu/validator/htmlparser/impl/AttributeName.java:1849 | bufToHash("loopend ") is 278205908, the value stored beside LOOPEND |
| AttributeTable.HashOfNoresize | src/nu/validator/htmlparser/impl/AttributeName.java:1864 | bufToHash("noresize") is 283110901, the value stored beside NORESIZE |
| AttributeTable.HashOfMultiple | src/nu/validator/htmlparser/impl/AttributeName.java:1867 | bufToHash("multiple") is 283890012, the value stored beside MULTIPLE |
| AttributeTable.HashOfReadonly | src/nu/validator/htmlparser/impl/AttributeName.java:1872 | bufToHash("readonly") is 291557706, the value stored beside READONLY |
| AttributeTable.HashOfSelected | src/nu/validator/htmlparser/impl/AttributeName.java:1873 | bufToHash("selected") is 291665349, the value stored beside SELECTED |
| AttributeTable.HashOfRequired | src/nu/validator/htmlparser/impl/AttributeName.java:1878 | bufToHash("required") is 292451039, the value stored beside REQUIRED |
| AttributeTable.HashOfXmlBase | src/nu/validator/htmlparser/impl/AttributeName.java:1879 | bufToHash("xml:base") is 300298041, the value stored beside XML_BASE |
| AttributeTable.HashOfXmlLang | src/nu/validator/htmlparser/impl/AttributeName.java:1880 | bufToHash("xml:lang") is 300374839, the value stored beside XML_LANG |
| AttributeTable.HashOfControls | src/nu/validator/htmlparser/impl/AttributeName.java:1882 | bufToHash("controls ") is 302075482, the value stored beside CONTROLS |
| AttributeTable.HashOfAutofocus | src/nu/validator/htmlparser/impl/AttributeName.java:1884 | bufToHash("autofocus") is 303083839, the value stored beside AUTOFOCUS |
| AttributeTable.HashOfValuetype | src/nu/validator/htmlparser/impl/AttributeName.java:1917 | bufToHash("valuetype") is 322887778, the value stored beside VALUETYPE |
| AttributeTable.HashOfScrolling | src/nu/validator/htmlparser/impl/AttributeName.java:1922 | bufToHash("scrolling") is 325320188, the value stored beside SCROLLING |
| AttributeTable.HashOfAutoplay | src/nu/validator/htmlparser/impl/AttributeName.java:1926 | bufToHash("autoplay  ") is 333866609, the value stored beside AUTOPLAY |
| AttributeTable.HashOfXmlSpace | src/nu/validator/htmlparser/impl/AttributeName.java:1927 | bufToHash("xml:space") is 333868843, the value stored beside XML_SPACE |
| AttributeTable.HashOfAutosubmit | src/nu/validator/htmlparser/impl/AttributeName.java:1930 | bufToHash("autosubmit") is 336806130, the value stored beside AUTOSUBMIT |
| AttributeTable.HashOfXlinkType | src/nu/validator/htmlparser/impl/AttributeName.java:1972 | bufToHash("xlink:type") is 367399355, the value stored beside XLINK_TYPE |
| AttributeTable.HashOfXlinkRole | src/nu/validator/htmlparser/impl/AttributeName.java:1973 | bufToHash("xlink:role") is 367420285, the value stored beside XLINK_ROLE |
| AttributeTable.HashOfXlinkHref | src/nu/validator/htmlparser/impl/AttributeName.java:1974 | bufToHash("xlink:href") is 367510727, the value stored beside XLINK_HREF |
| AttributeTable.HashOfXlinkShow | src/nu/validator/htmlparser/impl/AttributeName.java:1975 | bufToHash("xlink:show") is 368013212, the value stored beside XLINK_SHOW |
| AttributeTable.HashOfXmlnsXlink | src/nu/validator/htmlparser/impl/AttributeName.java:2016 | bufToHash("xmlns:xlink") is 400644707, the value stored beside XMLNS_XLINK |
| AttributeTable.HashOfXlinkTitle | src/nu/validator/htmlparser/impl/AttributeName.java:2017 | bufToHash("xlink:title") is 400973830, the value stored beside XLINK_TITLE |
| AttributeTable.HashOfAutocomplete | src/nu/validator/htmlparser/impl/AttributeName.java:2019 | bufToHash("autocomplete") is 404469244, the value stored beside AUTOCOMPLETE |
| AttributeTable.HashOfDataformatas | src/nu/validator/htmlparser/impl/AttributeName.java:2024 | bufToHash("dataformatas") is 408789955, the value stored beside DATAFORMATAS |
| AttributeTable.HashOfXlinkActuate | src/nu/validator/htmlparser/impl/AttributeName.java:2097 | bufToHash("xlink:actuate") is 468058810, the value stored beside XLINK_ACTUATE |
| AttributeTable.HashOfXlinkArcrole | src/nu/validator/htmlparser/impl/AttributeName.java:2098 | bufToHash("xlink:arcrole") is 468083581, the value stored beside XLINK_ARCROLE |
| AttributeTable.DHolds | src/nu/validator/htmlparser/impl/AttributeName.java:443 | D is a valid shared constant with type "CDATA" whose stored hash is the fingerprint of its HTML local name |
| AttributeTable.IdHolds | src/nu/validator/htmlparser/impl/AttributeName.java:462 | ID is a valid shared constant with type "ID" whose stored hash is the fingerprint of its HTML local name |
| AttributeTable.DirHolds | src/nu/validator/htmlparser/impl/AttributeName.java:475 | DIR is a valid shared constant with type "CDATA" whose stored hash is the fingerprint of its HTML local name |
| AttributeTable.LangHolds | src/nu/validator/htmlparser/impl/AttributeName.java:510 | LANG is a valid shared constant with type "CDATA" whose stored hash is the fingerprint of its HTML local name |
| AttributeTable.TypeHolds | src/nu/validator/htmlparser/impl/AttributeName.java:512 | TYPE is a valid shared constant with type "CDATA" whose stored hash is the fingerprint of its HTML local name |
| AttributeTable.RefxHolds | src/nu/validator/htmlparser/impl/AttributeName.java:518 | REFX is a valid shared constant with type "CDATA" whose stored hash is the fingerprint of its HTML local name |
| AttributeTable.StepHolds | src/nu/validator/htmlparser/impl/AttributeName.java:524 | STEP is a valid shared constant with type "CDATA" whose stored hash is the fingerprint of its HTML local name |
| AttributeTable.AsyncHolds | src/nu/validator/htmlparser/impl/AttributeName.java:527 | ASYNC is a valid shared constant with type "CDATA" whose stored hash is the fingerprint of its HTML local name |
| AttributeTable.AlignHolds | src/nu/validator/htmlparser/impl/AttributeName.java:529 | ALIGN is a valid shared constant with type "CDATA" whose stored hash is the fingerprint of its HTML local name |
| AttributeTable.ClearHolds | src/nu/validator/htmlparser/impl/AttributeName.java:533 | CLEAR is a valid shared constant with type "CDATA" whose stored hash is the fingerprint of its HTML local name |
| AttributeTable.DeferHolds | src/nu/validator/htmlparser/impl/AttributeName.java:536 | DEFER is a valid shared constant with type "CDATA" whose stored hash is the fingerprint of its HTML local name |
| AttributeTable.FrameHolds | src/nu/validator/htmlparser/impl/AttributeName.java:538 | FRAME is a valid shared constant with type "CDATA" whose stored hash is the fingerprint of its HTML local name |
| AttributeTable.IsmapHolds | src/nu/validator/htmlparser/impl/AttributeName.java:539 | ISMAP is a valid shared constant with type "CDATA" whose stored hash is the fingerprint of its HTML local name |
| AttributeTable.ShapeHolds | src/nu/validator/htmlparser/impl/AttributeName.java:554 | SHAPE is a valid shared constant with type "CDATA" whose stored hash is the fingerprint of its HTML local name |
| AttributeTable.ScopeHolds | src/nu/validator/htmlparser/impl/AttributeName.java:555 | SCOPE is a valid shared constant with type "CDATA" whose stored hash is the fingerprint of its HTML local name |
| AttributeTable.RulesHolds | src/nu/validator/htmlparser/impl/AttributeName.java:559 | RULES is a valid shared constant with type "CDATA" whose stored hash is the fingerprint of its HTML local name |
| AttributeTable.XmlnsHolds | src/nu/validator/htmlparser/impl/AttributeName.java:563 | XMLNS is a valid shared constant with type "CDATA" whose stored hash is the fingerprint of its HTML local name |
| AttributeTable.ActiveHolds | src/nu/validator/htmlparser/impl/AttributeName.java:567 | ACTIVE is a valid shared constant with type "CDATA" whose stored hash is the fingerprint of its HTML local name |
| AttributeTable.NowrapHolds | src/nu/validator/htmlparser/impl/AttributeName.java:591 | NOWRAP is a valid shared constant with type "CDATA" whose stored hash is the fingerprint of its HTML local name |
| AttributeTable.NohrefHolds | src/nu/validator/htmlparser/impl/AttributeName.java:592 | NOHREF is a valid shared constant with type "CDATA" whose stored hash is the fingerprint of its HTML local name |
| AttributeTable.MethodHolds | src/nu/validator/htmlparser/impl/AttributeName.java:594 | METHOD is a valid shared constant with type "CDATA" whose stored hash is the fingerprint of its HTML local name |
| AttributeTable.ValignHolds | src/nu/validator/htmlparser/impl/AttributeName.java:602 | VALIGN is a valid shared constant with type "CDATA" whose stored hash is the fingerprint of its HTML local name |
| AttributeTable.CheckedHolds | src/nu/validator/htmlparser/impl/AttributeName.java:621 | CHECKED is a valid shared constant with type "CDATA" whose stored hash is the fingerprint of its HTML local name |
| AttributeTable.CompactHolds | src/nu/validator/htmlparser/impl/AttributeName.java:627 | COMPACT is a valid shared constant with type "CDATA" whose stored hash is the fingerprint of its HTML local name |
| AttributeTable.EnctypeHolds | src/nu/validator/htmlparser/impl/AttributeName.java:629 | ENCTYPE is a valid shared constant with type "CDATA" whose stored hash is the fingerprint of its HTML local name |
| AttributeTable.DeclareHolds | src/nu/validator/htmlparser/impl/AttributeName.java:632 | DECLARE is a valid shared constant with type "CDATA" whose stored hash is the fingerprint of its HTML local name |
| AttributeTable.DefaultHolds | src/nu/validator/htmlparser/impl/AttributeName.java:635 | DEFAULT is a valid shared constant with type "CDATA" whose stored hash is the fingerprint of its HTML local name |
| AttributeTable.NoshadeHolds | src/nu/validator/htmlparser/impl/AttributeName.java:652 | NOSHADE is a valid shared constant with type "CDATA" whose stored hash is the fingerprint of its HTML local name |
| AttributeTable.ViewboxHolds | src/nu/validator/htmlparser/impl/AttributeName.java:659 | VIEWBOX is a valid shared constant with type "CDATA" whose stored hash is the fingerprint of its HTML local name |
| AttributeTable.ReplaceHolds | src/nu/validator/htmlparser/impl/AttributeName.java:669 | REPLACE is a valid shared constant with type "CDATA" whose stored hash is the fingerprint of its HTML local name |
| AttributeTable.DisabledHolds | src/nu/validator/htmlparser/impl/AttributeName.java:681 | DISABLED is a valid shared constant with type "CDATA" whose stored hash is the fingerprint of its HTML local name |
| AttributeTable.LoopendHolds | src/nu/validator/htmlparser/impl/AttributeName.java:684 | LOOPEND is a valid shared constant with type "CDATA" whose stored hash is the fingerprint of its HTML local name |
| AttributeTable.NoresizeHolds | src/nu/validator/htmlparser/impl/AttributeName.java:699 | NORESIZE is a valid shared constant with type "CDATA" whose stored hash is the fingerprint of its HTML local name |
| AttributeTable.MultipleHolds | src/nu/validator/htmlparser/impl/AttributeName.java:702 | MULTIPLE is a valid shared constant with type "CDATA" whose stored hash is the fingerprint of its HTML local name |
| AttributeTable.ReadonlyHolds | src/nu/validator/htmlparser/impl/AttributeName.java:707 | READONLY is a valid shared constant with type "CDATA" whose stored hash is the fingerprint of its HTML local name |
| AttributeTable.SelectedHolds | src/nu/validator/htmlparser/impl/AttributeName.java:708 | SELECTED is a valid shared constant with type "CDATA" whose stored hash is the fingerprint of its HTML local name |
| AttributeTable.RequiredHolds | src/nu/validator/htmlparser/impl/AttributeName.java:713 | REQUIRED is a valid shared constant with type "CDATA" whose stored hash is the fingerprint of its HTML local name |
| AttributeTable.XmlBaseHolds | src/nu/validator/htmlparser/impl/AttributeName.java:714 | XML_BASE is a valid shared constant with type "CDATA" whose stored hash is the fingerprint of its HTML local name |
| AttributeTable.XmlLangHolds | src/nu/validator/htmlparser/impl/AttributeName.java:715 | XML_LANG is a valid shared constant with type "CDATA" whose stored hash is the fingerprint of its HTML local name |
| AttributeTable.ControlsHolds | src/nu/validator/htmlparser/impl/AttributeName.java:717 | CONTROLS is a valid shared constant with type "CDATA" whose stored hash is the fingerprint of its HTML local name |
| AttributeTable.AutofocusHolds | src/nu/validator/htmlparser/impl/AttributeName.java:719 | AUTOFOCUS is a valid shared constant with type "CDATA" whose stored hash is the fingerprint of its HTML local name |
| AttributeTable.ValuetypeHolds | src/nu/validator/htmlparser/impl/AttributeName.java:752 | VALUETYPE is a valid shared constant with type "CDATA" whose stored hash is the fingerprint of its HTML local name |
| AttributeTable.ScrollingHolds | src/nu/validator/htmlparser/impl/AttributeName.java:757 | SCROLLING is a valid shared constant with type "CDATA" whose stored hash is the fingerprint of its HTML local name |
| AttributeTable.AutoplayHolds | src/nu/validator/htmlparser/impl/AttributeName.java:761 | AUTOPLAY is a valid shared constant with type "CDATA" whose stored hash is the fingerprint of its HTML local name |
| AttributeTable.XmlSpaceHolds | src/nu/validator/htmlparser/impl/AttributeName.java:762 | XML_SPACE is a valid shared constant with type "CDATA" whose stored hash is the fingerprint of its HTML local name |
| AttributeTable.AutosubmitHolds | src/nu/validator/htmlparser/impl/AttributeName.java:765 | AUTOSUBMIT is a valid shared constant with type "CDATA" whose stored hash is the fingerprint of its HTML local name |
| AttributeTable.XlinkTypeHolds | src/nu/validator/htmlparser/impl/AttributeName.java:807 | XLINK_TYPE is a valid shared constant with type "CDATA" whose stored hash is the fingerprint of its HTML local name |
| AttributeTable.XlinkRoleHolds | src/nu/validator/htmlparser/impl/AttributeName.java:808 | XLINK_ROLE is a valid shared constant with type "CDATA" whose stored hash is the fingerprint of its HTML local name |
| AttributeTable.XlinkHrefHolds | src/nu/validator/htmlparser/impl/AttributeName.java:809 | XLINK_HREF is a valid shared constant with type "CDATA" whose stored hash is the fingerprint of its HTML local name |
| AttributeTable.XlinkShowHolds | src/nu/validator/htmlparser/impl/AttributeName.java:810 | XLINK_SHOW is a valid shared constant with type "CDATA" whose stored hash is the fingerprint of its HTML local name |
| AttributeTable.XmlnsXlinkHolds | src/nu/validator/htmlparser/impl/AttributeName.java:851 | XMLNS_XLINK is a valid shared constant with type "CDATA" whose stored hash is the fingerprint of its HTML local name |
| AttributeTable.XlinkTitleHolds | src/nu/validator/htmlparser/impl/AttributeName.java:852 | XLINK_TITLE is a valid shared constant with type "CDATA" whose stored hash is the fingerprint of its HTML local name |
| AttributeTable.AutocompleteHolds | src/nu/validator/htmlparser/impl/AttributeName.java:854 | AUTOCOMPLETE is a valid shared constant with type "CDATA" whose stored hash is the fingerprint of its HTML local name |
| AttributeTable.DataformatasHolds | src/nu/validator/htmlparser/impl/AttributeName.java:859 | DATAFORMATAS is a valid shared constant with type "CDATA" whose stored hash is the fingerprint of its HTML local name |
| AttributeTable.XlinkActuateHolds | src/nu/validator/htmlparser/impl/AttributeName.java:932 | XLINK_ACTUATE is a valid shared constant with type "CDATA" whose stored hash is the fingerprint of its HTML local name |
| AttributeTable.XlinkArcroleHolds | src/nu/validator/htmlparser/impl/AttributeName.java:933 | XLINK_ARCROLE is a valid shared constant with type "CDATA" whose stored hash is the fingerprint of its HTML local name |
| TableLookups.HashOfControlsUnpadded | src/nu/validator/htmlparser/impl/AttributeName.java:717 | bufToHash("controls") is 271102503, not the hash of the padded row name "controls " |
| TableLookups.HashOfLoopendUnpadded | src/nu/validator/htmlparser/impl/AttributeName.java:684 | bufToHash("loopend") is 251083937, not the hash of "loopend " |
| TableLookups.HashOfAutoplayUnpadded | src/nu/validator/htmlparser/impl/AttributeName.java:761 | bufToHash("autoplay") is 269869248, not the hash of "autoplay  " |
| TableLookups.HashOfDataFoo | src/nu/validator/htmlparser/impl/AttributeName.java:96-110 | bufToHash("data-foo") is 273914319 |
| TableLookups.HashOfXmlnsFoo | src/nu/validator/htmlparser/impl/AttributeName.java:96-110 | bufToHash("xmlns:foo") is 333668309 |
| TableLookups.HashOfXi | src/nu/validator/htmlparser/impl/AttributeName.java:96-110 | bufToHash("xi") is 92018 |
| TableLookups.LangRow | src/nu/validator/htmlparser/impl/AttributeName.java:510 | bare lang has the XML namespace and prefix xml, so qName "xml:lang", in HTML_LANG only; no namespace, no prefix and qName "lang" in the other modes |
| TableLookups.XmlLangRow | src/nu/validator/htmlparser/impl/AttributeName.java:715 | xml:lang: qName "xml:lang" in every mode; XML namespace, prefix xml and local "lang" in MathML and SVG; no namespace and local "xml:lang" in HTML and HTML_LANG; NCName only in MathML and SVG |
| TableLookups.XlinkHrefRow | src/nu/validator/htmlparser/impl/AttributeName.java:809 | xlink:href: qName "xlink:href" in every mode, XLink namespace and local "href" in MathML and SVG, colonised and un-namespaced in HTML; not xmlns |
| TableLookups.XmlnsXlinkRow | src/nu/validator/htmlparser/impl/AttributeName.java:851 | xmlns:xlink: an xmlns attribute, NCName in no mode, qName "xmlns:xlink" everywhere, XMLNS namespace with local "xlink" and prefix xmlns in SVG |
| TableLookups.XmlnsRow | src/nu/validator/htmlparser/impl/AttributeName.java:563 | bare xmlns: an xmlns attribute, NCName in no mode, no prefix, local and qName "xmlns" everywhere, the XMLNS namespace in MathML and SVG and none in HTML and HTML_LANG |
| TableLookups.ViewboxRow | src/nu/validator/htmlparser/impl/AttributeName.java:659 | viewbox is "viewBox" (local and qName) in SVG and "viewbox" in the other modes |
| TableLookups.FlaggedRows | src/nu/validator/htmlparser/impl/AttributeName.java:225-273 | CHECKED is boolean and case-folded; ALIGN is case-folded but not boolean |
| TableLookups.ResolveLang | src/nu/validator/htmlparser/impl/AttributeName.java:510 | "lang" at the start of a buffer resolves to LANG |
| TableLookups.ResolveXmlLang | src/nu/validator/htmlparser/impl/AttributeName.java:715 | "xml:lang" resolves to XML_LANG |
| TableLookups.ResolveXlinkHref | src/nu/validator/htmlparser/impl/AttributeName.java:809 | "xlink:href" resolves to XLINK_HREF |
| TableLookups.ResolveXmlnsXlink | src/nu/validator/htmlparser/impl/AttributeName.java:851 | "xmlns:xlink" resolves to XMLNS_XLINK |
| TableLookups.ResolveXmlns | src/nu/validator/htmlparser/impl/AttributeName.java:563 | "xmlns" resolves to XMLNS |
| TableLookups.ResolveViewbox | src/nu/validator/htmlparser/impl/AttributeName.java:659 | "viewbox" resolves to VIEWBOX |
| TableLookups.ResolveChecked | src/nu/validator/htmlparser/impl/AttributeName.java:621 | "checked" resolves to CHECKED, which is boolean and case-folded |
| TableLookups.ResolveAlign | src/nu/validator/htmlparser/impl/AttributeName.java:529 | "align" resolves to ALIGN, case-folded and not boolean |
| TableLookups.PaddedControlsRow | src/nu/validator/htmlparser/impl/AttributeName.java:717 | "controls " (with its trailing space) resolves to CONTROLS, while "controls" misses the table and comes back from create |
| TableLookups.PaddedLoopendRow | src/nu/validator/htmlparser/impl/AttributeName.java:684 | "loopend " resolves to LOOPEND, "loopend" comes back from create |
| TableLookups.PaddedAutoplayRow | src/nu/validator/htmlparser/impl/AttributeName.java:761 | "autoplay  " resolves to AUTOPLAY, "autoplay" comes back from create |
| TableLookups.ResolveDataAttribute | src/nu/validator/htmlparser/impl/AttributeName.java:187-204 | "data-foo" misses the table: a fresh CDATA record, not xmlns, neither boolean nor case-folded, qName the text in every mode, NCName iff unchecked or isNCName holds |
| TableLookups.ResolveXmlnsPrefixed | src/nu/validator/htmlparser/impl/AttributeName.java:187-204 | "xmlns:foo" misses the table: a fresh xmlns record with no namespace, qName the text, NCName in every mode iff checking is off |
| TableLookups.OffsetSliceMissesRow | src/nu/validator/htmlparser/impl/AttributeName.java:72 | the slice "id" at offset 1 of "xid" is hashed as "xi", misses, and comes back as a fresh CDATA record instead of ID |

## Left out

- Table rows. The table keeps 56 of the 581 rows, in source order:
  D, ID, DIR, LANG, TYPE, REFX, STEP, ASYNC, ALIGN, CLEAR, DEFER, FRAME, ISMAP, SHAPE, SCOPE, RULES, XMLNS, ACTIVE, NOWRAP, NOHREF, METHOD, VALIGN, CHECKED, COMPACT, ENCTYPE, DECLARE, DEFAULT, NOSHADE, VIEWBOX, REPLACE, DISABLED, LOOPEND, NORESIZE, MULTIPLE, READONLY, SELECTED, REQUIRED, XML_BASE, XML_LANG, CONTROLS, AUTOFOCUS, VALUETYPE, SCROLLING, AUTOPLAY, XML_SPACE, AUTOSUBMIT, XLINK_TYPE, XLINK_ROLE, XLINK_HREF, XLINK_SHOW, XMLNS_XLINK, XLINK_TITLE, AUTOCOMPLETE, DATAFORMATAS, XLINK_ACTUATE, XLINK_ARCROLE. These are every row that `isCaseFolded` and `isBoolean` name, plus
  the rows with namespaces, prefixes, camel case or trailing spaces that the
  lookups use.
  - On the model's table, a name whose row is left out resolves to a fresh
    record. The source would return its row.
  - The miss lemmas (`controls`, `loopend`, `autoplay`, `data-foo`,
    `xmlns:foo`, `xi`) use fingerprints that are not among the 581 stored
    hashes either.
  - The properties of `Resolve` are proved for any table that meets
    `TableInvariant` and `HashesAgree`, which the full table is meant to meet.
- `NCName.isNCName` is external code. It is the function parameter
  `isNCName`.
- Java `char` is a UTF-16 code unit, and Dafny `char` is a Unicode scalar
  value. The attribute names of the table are ASCII, and the hash terms are
  computed from the character's code.
- `Portability.newLocalNameFromBuffer` and `Portability.localEqualsBuffer` are
  modelled as taking the slice `buf[offset..offset+length)` and comparing
  sequences.
- String interning (`intern()`, reference `==` in `equalsAnother`) is
  modelled as value equality of strings.
- `release()` is a no-op, so it is left out.
- Not modelled: the commented-out table generator, the annotations, the
  C++-translation markers, static initialisation and thread-safety. The
  records are immutable.
- BufToHash: the loop count is returned as a ghost out-parameter. The method's
  real result is the hash, and the count is a proof device only.
- NameByBuffer takes the two static arrays as parameters rather than reading
  class state.
- Namespace: its own contract states only the four-slot length. The slot
  contents are stated by `ColonifiedRowQName`.
- CamelCaseLocal: its own contract states only the four-slot length. The slot
  contents are stated by `CamelCaseRowQName`.
- ColonifiedLocal: its own contract states only the four-slot length. The slot
  contents are stated by `ColonifiedRowQName`.
- Prefix: its own contract states only the four-slot length. The slot contents
  are stated by `ColonifiedRowQName`.
- SameLowerCaseLocal: its own contract states only the four-slot length. Every
  slot is the name itself.
- `getUri`, `getLocal`, `getPrefix`, `isNcName`, `isXmlns`, `getType` and
  `equalsAnother` are plain accessors without contracts of their own. They are
  modelled as `GetUri`, `GetLocal`, `GetPrefix`, `IsNcName`, `IsXmlns`,
  `GetType` and `EqualsAnother`. What they return is stated through the
  lemmas above:
  - `EqualsAnotherIsEquivalence`, `CreateEquivalent` and `ResolveEquivalent`
    for `equalsAnother`;
  - `ResolvedTypeIsId`, `ResolvedTypeFromRows` and the per-row `Holds`
    lemmas for `getType`.
