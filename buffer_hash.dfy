/**
 * bufToHash: the 32-bit fingerprint of a lower-cased attribute name.  It
 * mixes the length, the first character and up to four characters from each
 * end of the buffer with two shift-accumulators in Java `int` arithmetic
 * (wrapping modulo 2^32) and returns their exclusive or.
 */
module BufferHash {

  /** Java's `int`. */
  newtype int32 = x: int | -0x8000_0000 <= x < 0x8000_0000

  /** A length that fits a Java `int`. */
  predicate IsLength(len: nat) {
    len < 0x8000_0000
  }

  /** The Java `int` (two's complement) whose bits are b. */
  function ToInt32(b: bv32): int32 {
    var u := b as int;
    if u < 0x8000_0000 then u as int32 else (u - 0x1_0000_0000) as int32
  }

  function Min(a: int, b: int): int {
    if a < b then a else b
  }

  /**
   * `c - 0x60` and `c - 0x5F` in Java: the char is widened to int, so '-'
   * and digits add negative amounts, which wrap around in 32 bits.
   */
  function TailTerm(c: char): bv32 {
    (c as bv32) - 0x60
  }

  function FrontTerm(c: char): bv32 {
    (c as bv32) - 0x5F
  }

  /** One round of `hash`: `hash <<= 5; hash += c - 0x60`. */
  function TailStep(hash: bv32, c: char): bv32 {
    (hash << 5) + TailTerm(c)
  }

  /** One round of `hash2`: `hash2 <<= 6; hash2 += c - 0x5F`. */
  function FrontStep(hash2: bv32, c: char): bv32 {
    (hash2 << 6) + FrontTerm(c)
  }

  /**
   * `hash` after n rounds: the length and the first character, then the
   * characters buf[len-1], buf[len-2], ..., buf[len-n], each after a shift by 5.
   */
  function TailHash(buf: seq<char>, len: nat, n: nat): bv32
    requires 1 <= |buf| && n <= len <= |buf| && IsLength(len)
  {
    if n == 0 then TailStep(len as bv32, buf[0])
    else TailStep(TailHash(buf, len, n - 1), buf[len - n])
  }

  /** `hash2` after n rounds: buf[0], ..., buf[n-1], each after a shift by 6. */
  function FrontHash(buf: seq<char>, n: nat): bv32
    requires n <= |buf|
  {
    if n == 0 then 0 else FrontStep(FrontHash(buf, n - 1), buf[n - 1])
  }

  /** The fingerprint of buf[0..len): min(4, len) rounds, then hash ^ hash2. */
  function HashOf(buf: seq<char>, len: nat): int32
    requires 1 <= |buf| && len <= |buf| && IsLength(len)
  {
    var n := Min(4, len);
    ToInt32(TailHash(buf, len, n) ^ FrontHash(buf, n))
  }

  /** The fingerprint of a whole name. */
  function NameHash(name: string): int32
    requires 1 <= |name| && IsLength(|name|)
  {
    HashOf(name, |name|)
  }

  /**
   * bufToHash(buf, len).  `rounds` counts the iterations of the loop; it is
   * min(4, len).
   */
  method BufToHash(buf: array<char>, len: nat) returns (h: int32, ghost rounds: nat)
    requires 1 <= buf.Length && len <= buf.Length && IsLength(len)
    ensures h == HashOf(buf[..], len)
    ensures rounds == Min(4, len)
  {
    var hash2: bv32 := 0;
    var hash: bv32 := len as bv32;
    hash := TailStep(hash, buf[0]);
    var j := len;
    var i := 0;
    while i < 4 && j > 0
      invariant 0 <= i <= Min(4, len) && j == len - i
      invariant hash == TailHash(buf[..], len, i)
      invariant hash2 == FrontHash(buf[..], i)
    {
      j := j - 1;
      hash := TailStep(hash, buf[j]);
      hash2 := FrontStep(hash2, buf[i]);
      i := i + 1;
    }
    assert i == Min(4, len);
    h := ToInt32(hash ^ hash2);
    rounds := i;
  }

  lemma {:induction false} TailHashPrefix(a: seq<char>, b: seq<char>, len: nat, n: nat)
    requires 1 <= |a| && 1 <= |b| && n <= len <= |a| && len <= |b| && IsLength(len)
    requires 1 <= len ==> a[..len] == b[..len]
    requires a[0] == b[0]
    ensures TailHash(a, len, n) == TailHash(b, len, n)
  {
    if n > 0 {
      TailHashPrefix(a, b, len, n - 1);
      assert a[len - n] == a[..len][len - n] == b[..len][len - n] == b[len - n];
    }
  }

  lemma {:induction false} FrontHashPrefix(a: seq<char>, b: seq<char>, n: nat)
    requires n <= |a| && n <= |b| && a[..n] == b[..n]
    ensures FrontHash(a, n) == FrontHash(b, n)
  {
    if n > 0 {
      assert a[..n - 1] == a[..n][..n - 1];
      assert b[..n - 1] == b[..n][..n - 1];
      FrontHashPrefix(a, b, n - 1);
      assert a[n - 1] == a[..n][n - 1];
    }
  }

  /**
   * The fingerprint reads buf[0..len) and nothing else; in particular it
   * never looks at an offset into the buffer.
   */
  lemma HashReadsOnlyPrefix(a: seq<char>, b: seq<char>, len: nat)
    requires 1 <= |a| && 1 <= |b| && len <= |a| && len <= |b| && IsLength(len)
    requires a[..len] == b[..len]
    requires a[0] == b[0]
    ensures HashOf(a, len) == HashOf(b, len)
  {
    TailHashPrefix(a, b, len, Min(4, len));
    var n := Min(4, len);
    assert a[..n] == a[..len][..n] == b[..len][..n] == b[..n];
    FrontHashPrefix(a, b, n);
  }

  /** Hashing a buffer is hashing the name at its start. */
  lemma HashOfPrefix(buf: seq<char>, len: nat)
    requires 1 <= len <= |buf| && IsLength(len)
    ensures HashOf(buf, len) == NameHash(buf[..len])
  {
    HashReadsOnlyPrefix(buf, buf[..len], len);
  }

  /** The terms the characters of attribute names contribute. */
  lemma AsciiTermsAToG()
    ensures TailTerm('a') == 0x1 && FrontTerm('a') == 0x2
    ensures TailTerm('b') == 0x2 && FrontTerm('b') == 0x3
    ensures TailTerm('c') == 0x3 && FrontTerm('c') == 0x4
    ensures TailTerm('d') == 0x4 && FrontTerm('d') == 0x5
    ensures TailTerm('e') == 0x5 && FrontTerm('e') == 0x6
    ensures TailTerm('f') == 0x6 && FrontTerm('f') == 0x7
    ensures TailTerm('g') == 0x7 && FrontTerm('g') == 0x8
  {
  }

  lemma AsciiTermsHToN()
    ensures TailTerm('h') == 0x8 && FrontTerm('h') == 0x9
    ensures TailTerm('i') == 0x9 && FrontTerm('i') == 0xa
    ensures TailTerm('j') == 0xa && FrontTerm('j') == 0xb
    ensures TailTerm('k') == 0xb && FrontTerm('k') == 0xc
    ensures TailTerm('l') == 0xc && FrontTerm('l') == 0xd
    ensures TailTerm('m') == 0xd && FrontTerm('m') == 0xe
    ensures TailTerm('n') == 0xe && FrontTerm('n') == 0xf
  {
  }

  lemma AsciiTermsOToU()
    ensures TailTerm('o') == 0xf && FrontTerm('o') == 0x10
    ensures TailTerm('p') == 0x10 && FrontTerm('p') == 0x11
    ensures TailTerm('q') == 0x11 && FrontTerm('q') == 0x12
    ensures TailTerm('r') == 0x12 && FrontTerm('r') == 0x13
    ensures TailTerm('s') == 0x13 && FrontTerm('s') == 0x14
    ensures TailTerm('t') == 0x14 && FrontTerm('t') == 0x15
    ensures TailTerm('u') == 0x15 && FrontTerm('u') == 0x16
  {
  }

  lemma AsciiTermsVToZ()
    ensures TailTerm('v') == 0x16 && FrontTerm('v') == 0x17
    ensures TailTerm('w') == 0x17 && FrontTerm('w') == 0x18
    ensures TailTerm('x') == 0x18 && FrontTerm('x') == 0x19
    ensures TailTerm('y') == 0x19 && FrontTerm('y') == 0x1a
    ensures TailTerm('z') == 0x1a && FrontTerm('z') == 0x1b
    ensures TailTerm('-') == 0xffffffcd && FrontTerm('-') == 0xffffffce
    ensures TailTerm(':') == 0xffffffda && FrontTerm(':') == 0xffffffdb
    ensures TailTerm(' ') == 0xffffffc0 && FrontTerm(' ') == 0xffffffc1
  {
  }
}
