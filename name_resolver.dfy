/**
 * nameByBuffer: resolving a lower-cased attribute name held in a character
 * buffer.  The fingerprint of the name is looked up by binary search in the
 * sorted hash array of the static table; a hit is accepted only when the
 * row's HTML-mode local name equals the text, and a miss or a failed check
 * falls back to creating a fresh record.
 */
module NameResolver {
  import opened AttributeRecords
  import opened BufferHash

  predicate Sorted(s: seq<int32>) {
    forall i, j :: 0 <= i < j < |s| ==> s[i] <= s[j]
  }

  predicate StrictlyAscending(s: seq<int32>) {
    forall i, j :: 0 <= i < j < |s| ==> s[i] < s[j]
  }

  /**
   * What the static table guarantees to the resolver: ATTRIBUTE_HASHES and
   * ATTRIBUTE_NAMES are parallel, the hashes strictly ascend (no two rows
   * share a fingerprint), and every row is a well-formed shared constant.
   */
  predicate TableInvariant(hashes: seq<int32>, names: seq<AttributeName>) {
    && |hashes| == |names|
    && StrictlyAscending(hashes)
    && forall i :: 0 <= i < |names| ==> names[i].Valid() && names[i].shared
  }

  /** The hash stored for each row is the fingerprint of its HTML-mode local name. */
  predicate HashesAgree(hashes: seq<int32>, names: seq<AttributeName>)
    requires TableInvariant(hashes, names)
  {
    forall i :: 0 <= i < |names| ==>
      var name := names[i].GetLocal(HTML);
      1 <= |name| && IsLength(|name|) && hashes[i] == NameHash(name)
  }

  /** The first position of key in s, if any. */
  function IndexOf(s: seq<int32>, key: int32): (r: Option<nat>)
    ensures r.Some? ==> r.value < |s| && s[r.value] == key
    ensures r.None? <==> key !in s
  {
    if |s| == 0 then None
    else if s[0] == key then Some(0)
    else match IndexOf(s[1..], key)
      case None => None
      case Some(i) => Some(i + 1)
  }

  /** In a strictly ascending sequence a key has one position only. */
  lemma IndexOfUnique(s: seq<int32>, key: int32, i: nat)
    requires StrictlyAscending(s) && i < |s| && s[i] == key
    ensures IndexOf(s, key) == Some(i)
  {
    assert key in s;
  }

  /**
   * A key that falls strictly between two neighbours of a strictly ascending
   * sequence (or before its first or after its last element) is absent.
   */
  lemma AbsentBetween(s: seq<int32>, key: int32, k: nat)
    requires StrictlyAscending(s) && k <= |s|
    requires 0 < k ==> s[k - 1] < key
    requires k < |s| ==> key < s[k]
    ensures key !in s
  {
    forall i | 0 <= i < |s|
      ensures s[i] != key
    {
      if i < k - 1 {
        assert s[i] < s[k - 1];
      } else if k < i {
        assert s[k] < s[i];
      }
    }
  }

  /**
   * Arrays.binarySearch(a, key): a non-negative result is a position of key;
   * a negative result is -(insertion point) - 1 and key is absent.
   */
  method BinarySearch(a: array<int32>, key: int32) returns (r: int)
    requires Sorted(a[..])
    ensures 0 <= r ==> r < a.Length && a[r] == key
    ensures r < 0 ==> key !in a[..]
    ensures r < 0 ==> (&& -(r + 1) <= a.Length
                       && (forall i :: 0 <= i < -(r + 1) ==> a[i] < key)
                       && (forall i :: -(r + 1) <= i < a.Length ==> key < a[i]))
  {
    var low := 0;
    var high := a.Length - 1;
    while low <= high
      invariant 0 <= low <= high + 1 <= a.Length
      invariant forall i :: 0 <= i < low ==> a[i] < key
      invariant forall i :: high < i < a.Length ==> key < a[i]
    {
      // (low + high) >>> 1: the sum is non-negative, so this is halving.
      var mid := (low + high) / 2;
      var midVal := a[mid];
      if midVal < key {
        assert forall i :: 0 <= i <= mid ==> a[i] <= a[mid];
        low := mid + 1;
      } else if midVal > key {
        assert forall i :: mid <= i < a.Length ==> a[mid] <= a[i];
        high := mid - 1;
      } else {
        return mid;
      }
    }
    r := -(low + 1);
    assert forall i :: 0 <= i < a.Length ==> a[..][i] != key;
  }

  /**
   * The result of nameByBuffer, as a function of the table and the input.
   * The fingerprint is taken over buf[0..length), not over the slice at
   * `offset`; the text check and the fresh record use the slice.
   */
  function Resolve(hashes: seq<int32>, names: seq<AttributeName>, buf: seq<char>,
                   offset: nat, length: nat, checkNcName: bool, isNCName: string -> bool): (r: AttributeName)
    requires TableInvariant(hashes, names)
    requires 1 <= |buf| && offset + length <= |buf| && IsLength(length)
    ensures r.Valid()
    ensures r.GetLocal(HTML) == buf[offset..offset + length]
    ensures r.shared ==> r in names
    ensures !r.shared ==> r == Create(buf[offset..offset + length], checkNcName, isNCName)
  {
    var name := buf[offset..offset + length];
    match IndexOf(hashes, HashOf(buf, length))
    case None => Create(name, checkNcName, isNCName)
    case Some(index) =>
      if names[index].GetLocal(HTML) == name then names[index]
      else Create(name, checkNcName, isNCName)
  }

  /**
   * nameByBuffer(buf, offset, length, checkNcName).  Java's static arrays
   * ATTRIBUTE_HASHES and ATTRIBUTE_NAMES are the parameters hashes and names.
   */
  method NameByBuffer(buf: array<char>, offset: nat, length: nat, checkNcName: bool,
                      isNCName: string -> bool, hashes: array<int32>, names: array<AttributeName>)
    returns (r: AttributeName)
    requires TableInvariant(hashes[..], names[..])
    requires 1 <= buf.Length && offset + length <= buf.Length && IsLength(length)
    ensures r == Resolve(hashes[..], names[..], buf[..], offset, length, checkNcName, isNCName)
  {
    var hash, _ := BufToHash(buf, length);
    var index := BinarySearch(hashes, hash);
    if index < 0 {
      return Create(buf[offset..offset + length], checkNcName, isNCName);
    } else {
      IndexOfUnique(hashes[..], hash, index);
      var rv := names[index];
      var name := rv.GetLocal(HTML);
      if name != buf[offset..offset + length] {
        return Create(buf[offset..offset + length], checkNcName, isNCName);
      }
      return rv;
    }
  }

  /**
   * A shared row comes back exactly when some row has both the fingerprint
   * of buf[0..length) and the slice as its local name; otherwise the result
   * is a fresh record.
   */
  lemma ResolveSharedIff(hashes: seq<int32>, names: seq<AttributeName>, buf: seq<char>,
                         offset: nat, length: nat, checkNcName: bool, isNCName: string -> bool)
    requires TableInvariant(hashes, names)
    requires 1 <= |buf| && offset + length <= |buf| && IsLength(length)
    ensures var r := Resolve(hashes, names, buf, offset, length, checkNcName, isNCName);
      r.shared <==> exists i :: 0 <= i < |names| && hashes[i] == HashOf(buf, length)
                              && names[i].GetLocal(HTML) == buf[offset..offset + length]
  {
    var name := buf[offset..offset + length];
    var r := Resolve(hashes, names, buf, offset, length, checkNcName, isNCName);
    if i :| 0 <= i < |names| && hashes[i] == HashOf(buf, length) && names[i].GetLocal(HTML) == name {
      IndexOfUnique(hashes, HashOf(buf, length), i);
      assert r == names[i];
    }
  }

  /** Two resolutions of the same text name the same attribute. */
  lemma ResolveEquivalent(hashes: seq<int32>, names: seq<AttributeName>,
                          buf1: seq<char>, offset1: nat, buf2: seq<char>, offset2: nat,
                          length: nat, check1: bool, check2: bool, isNCName: string -> bool)
    requires TableInvariant(hashes, names)
    requires 1 <= |buf1| && offset1 + length <= |buf1| && 1 <= |buf2| && offset2 + length <= |buf2|
    requires IsLength(length)
    requires buf1[offset1..offset1 + length] == buf2[offset2..offset2 + length]
    ensures Resolve(hashes, names, buf1, offset1, length, check1, isNCName)
      .EqualsAnother(Resolve(hashes, names, buf2, offset2, length, check2, isNCName))
  {
  }

  /** Every name of the table, at the start of a buffer, resolves to its own shared row. */
  lemma ResolveFindsRow(hashes: seq<int32>, names: seq<AttributeName>, i: nat, buf: seq<char>,
                        checkNcName: bool, isNCName: string -> bool)
    requires TableInvariant(hashes, names) && HashesAgree(hashes, names)
    requires i < |names|
    requires var name := names[i].GetLocal(HTML); |name| <= |buf| && buf[..|name|] == name
    ensures var length := |names[i].GetLocal(HTML)|;
      Resolve(hashes, names, buf, 0, length, checkNcName, isNCName) == names[i]
  {
    var name := names[i].GetLocal(HTML);
    HashOfPrefix(buf, |name|);
    assert buf[0..|name|] == name;
    IndexOfUnique(hashes, HashOf(buf, |name|), i);
  }

  /**
   * Because the fingerprint ignores `offset`, a slice whose own fingerprint
   * differs from that of buf[0..length) never resolves to a table row, even
   * when its text is a table name.
   */
  lemma ResolveOffsetMismatch(hashes: seq<int32>, names: seq<AttributeName>, buf: seq<char>,
                              offset: nat, length: nat, checkNcName: bool, isNCName: string -> bool)
    requires TableInvariant(hashes, names) && HashesAgree(hashes, names)
    requires 1 <= length && offset + length <= |buf| && IsLength(length)
    requires HashOf(buf, length) != NameHash(buf[offset..offset + length])
    ensures Resolve(hashes, names, buf, offset, length, checkNcName, isNCName)
      == Create(buf[offset..offset + length], checkNcName, isNCName)
  {
    ResolveSharedIff(hashes, names, buf, offset, length, checkNcName, isNCName);
  }

  /** At offset 0 only the name itself matters, not what follows it in the buffer. */
  lemma ResolveAtStart(hashes: seq<int32>, names: seq<AttributeName>, buf: seq<char>,
                       length: nat, checkNcName: bool, isNCName: string -> bool)
    requires TableInvariant(hashes, names)
    requires 1 <= length <= |buf| && IsLength(length)
    ensures Resolve(hashes, names, buf, 0, length, checkNcName, isNCName)
      == Resolve(hashes, names, buf[..length], 0, length, checkNcName, isNCName)
  {
    HashOfPrefix(buf, length);
    HashOfPrefix(buf[..length], length);
    assert buf[..length][..length] == buf[..length];
    assert buf[0..length] == buf[..length][0..length];
  }

  /**
   * In a table whose content type is "ID" exactly on a row named "id", a
   * resolved name has type "ID" only for the text "id", and the text "id"
   * at the start of the buffer always gets it.
   */
  lemma ResolvedTypeFromRows(hashes: seq<int32>, names: seq<AttributeName>, idRow: AttributeName, buf: seq<char>,
                             offset: nat, length: nat, checkNcName: bool, isNCName: string -> bool, mode: int)
    requires TableInvariant(hashes, names) && HashesAgree(hashes, names)
    requires forall i, m :: 0 <= i < |names| && IsMode(m) ==>
      (names[i].GetType(m) == "ID" <==> names[i].GetLocal(HTML) == "id")
    requires idRow in names && idRow.GetLocal(HTML) == "id"
    requires 1 <= |buf| && offset + length <= |buf| && IsLength(length) && IsMode(mode)
    ensures var r := Resolve(hashes, names, buf, offset, length, checkNcName, isNCName);
      && (r.GetType(mode) == "ID" ==> buf[offset..offset + length] == "id")
      && (offset == 0 && buf[..length] == "id" ==> r.GetType(mode) == "ID")
  {
    var r := Resolve(hashes, names, buf, offset, length, checkNcName, isNCName);
    if r.shared {
      var i :| 0 <= i < |names| && names[i] == r;
      assert r.GetType(mode) == "ID" <==> r.GetLocal(HTML) == "id";
    }
    if offset == 0 && buf[..length] == "id" {
      var i :| 0 <= i < |names| && names[i] == idRow;
      ResolveFindsRow(hashes, names, i, buf, checkNcName, isNCName);
    }
  }
}
