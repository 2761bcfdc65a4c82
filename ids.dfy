/** Object identifiers of the Xcode project-file writer: the hex rendering of a
    content digest, the zero-padded sequence number, the hyphen stripping and
    truncation applied to every identifier, and the process-wide registry that
    caches digest identifiers and counts sequence identifiers. */
module XcodeIds {

  /** One byte of a digest, read as a value from 0 to 255. */
  newtype uint8 = x: int | 0 <= x < 256

  /** A SHA-256 digest (FIPS 180-4): 32 bytes. */
  type Digest = d: seq<uint8> | |d| == 32 witness seq(32, _ => 0 as uint8)

  /** `size_t` arithmetic wraps modulo 2^64. */
  const SizeModulus: nat := 0x1_0000_0000_0000_0000

  /** Width of every identifier Xcode is given. */
  const IdLength: nat := 24

  /** Number of decimal digits the sequence counter is padded to. */
  const SequenceDigits: nat := 22

  /** Marker of sequence identifiers and prefix of digest identifiers. */
  const SequenceMarker := "01"
  const HashPrefix := "02"

  /** The id every non-OBJECT node is given before stripping and truncation. */
  const TemporaryId := TemporaryHead + TemporaryTail
  const TemporaryHead := "Temporary cmake object, "
  const TemporaryTail := "should not be referred to in Xcode file"

  // ---------------------------------------------------------------------
  // Hexadecimal rendering
  // ---------------------------------------------------------------------

  predicate IsLowerHexChar(c: char)
  {
    '0' <= c <= '9' || 'a' <= c <= 'f'
  }

  /** A nibble printed in hexadecimal: a lower-case digit. */
  function HexDigit(v: int): (c: char)
    requires 0 <= v < 16
    ensures IsLowerHexChar(c)
  {
    if v < 10 then ('0' as int + v) as char else ('a' as int + v - 10) as char
  }

  function HexDigitValue(c: char): int
  {
    if '0' <= c <= '9' then c as int - '0' as int
    else if 'a' <= c <= 'f' then c as int - 'a' as int + 10
    else 0
  }

  /** A byte in hexadecimal, padded with a zero to width two: two lower-case digits. */
  function HexByte(b: uint8): string
  {
    [HexDigit(b as int / 16), HexDigit(b as int % 16)]
  }

  /** The bytes written one after the other, two hex digits each. */
  function Hex(bytes: seq<uint8>): string
  {
    if bytes == [] then "" else Hex(bytes[..|bytes| - 1]) + HexByte(bytes[|bytes| - 1])
  }

  /** Reads two hex digits per byte back; the inverse of Hex. */
  function Unhex(s: string): seq<uint8>
  {
    if |s| < 2 then []
    else
      var v := HexDigitValue(s[|s| - 2]) * 16 + HexDigitValue(s[|s| - 1]);
      Unhex(s[..|s| - 2]) + [if 0 <= v < 256 then v as uint8 else 0]
  }

  lemma {:induction false} HexShape(bytes: seq<uint8>)
    ensures |Hex(bytes)| == 2 * |bytes|
    ensures forall i :: 0 <= i < |Hex(bytes)| ==> IsLowerHexChar(Hex(bytes)[i])
  {
    if bytes != [] {
      HexShape(bytes[..|bytes| - 1]);
    }
  }

  /** Hex loses nothing: every byte can be read back from its two digits. */
  lemma {:induction false} UnhexHex(bytes: seq<uint8>)
    ensures Unhex(Hex(bytes)) == bytes
  {
    if bytes != [] {
      var init, last := bytes[..|bytes| - 1], bytes[|bytes| - 1];
      var h := Hex(init) + HexByte(last);
      assert h[..|h| - 2] == Hex(init);
      assert HexDigitValue(h[|h| - 2]) * 16 + HexDigitValue(h[|h| - 1]) == last as int;
      UnhexHex(init);
      assert init + [last] == bytes;
    }
  }

  /** The loop of cmGetUniqueXcodeId that renders the first 12 digest bytes. */
  method HexOfFirstTwelve(digest: Digest) returns (hex: string)
    ensures hex == Hex(digest[..12])
    ensures |hex| == 24 && forall i :: 0 <= i < |hex| ==> IsLowerHexChar(hex[i])
  {
    hex := "";
    for i := 0 to 12
      invariant hex == Hex(digest[..i])
    {
      assert digest[..i + 1][..i] == digest[..i];
      hex := hex + HexByte(digest[i]);
    }
    HexShape(digest[..12]);
  }

  // ---------------------------------------------------------------------
  // Decimal rendering of the sequence counter
  // ---------------------------------------------------------------------

  predicate IsDecimalChar(c: char)
  {
    '0' <= c <= '9'
  }

  function DigitChar(d: int): (c: char)
    requires 0 <= d < 10
    ensures IsDecimalChar(c)
  {
    ('0' as int + d) as char
  }

  /** The decimal text of a non-negative number, without leading zeros. */
  function DecimalString(n: nat): string
  {
    if n < 10 then [DigitChar(n)] else DecimalString(n / 10) + [DigitChar(n % 10)]
  }

  function Zeros(k: nat): (z: string)
    ensures |z| == k && forall i :: 0 <= i < k ==> z[i] == '0'
  {
    seq(k, _ => '0')
  }

  /** Prepend zeros until the text is `width` characters long. */
  function PadLeft(s: string, width: nat): string
  {
    if |s| < width then Zeros(width - |s|) + s else s
  }

  /** A padded text keeps the original as its suffix, has only zeros in
      front of it, and is `width` long unless the original was longer. */
  lemma PadLeftShape(s: string, width: nat)
    ensures |PadLeft(s, width)| == if |s| < width then width else |s|
    ensures PadLeft(s, width)[|PadLeft(s, width)| - |s|..] == s
    ensures forall i :: 0 <= i < |PadLeft(s, width)| - |s| ==> PadLeft(s, width)[i] == '0'
  {
    var p := PadLeft(s, width);
    assert p[|p| - |s|..] == s;
  }

  /** The constructor's padding loop: one zero at a time in front of the
      counter's digits until the text holds 22 characters. */
  method ZeroPad(digits: string) returns (id: string)
    ensures id == PadLeft(digits, SequenceDigits)
  {
    id := digits;
    while |id| < SequenceDigits
      invariant |digits| <= |id|
      invariant |id| == |digits| || |id| <= SequenceDigits
      invariant id == Zeros(|id| - |digits|) + digits
      decreases SequenceDigits - |id|
    {
      id := "0" + id;
      assert "0" + Zeros(|id| - 1 - |digits|) == Zeros(|id| - |digits|);
    }
  }

  /** The sequence-path identifier for counter value n. */
  function SequenceId(n: nat): string
  {
    SequenceMarker + PadLeft(DecimalString(n), SequenceDigits)
  }

  function Pow10(k: nat): nat
  {
    if k == 0 then 1 else 10 * Pow10(k - 1)
  }

  /** n written with exactly `width` decimal digits (the low ones). */
  function FixedDigits(n: nat, width: nat): (r: string)
    ensures |r| == width && forall i :: 0 <= i < width ==> IsDecimalChar(r[i])
  {
    if width == 0 then "" else FixedDigits(n / 10, width - 1) + [DigitChar(n % 10)]
  }

  lemma {:induction false} FixedDigitsOfZero(width: nat)
    ensures FixedDigits(0, width) == Zeros(width)
  {
    if width > 0 {
      FixedDigitsOfZero(width - 1);
      assert Zeros(width - 1) + ['0'] == Zeros(width);
    }
  }

  lemma QuotientBelow(n: nat, width: nat)
    requires 1 <= width && n < Pow10(width)
    ensures n / 10 < Pow10(width - 1)
  {
  }

  /** Padding `to_string(n)` to `width` digits is the fixed-width rendering of n. */
  lemma {:induction false} PaddedDecimal(n: nat, width: nat)
    requires 1 <= width && n < Pow10(width)
    ensures |DecimalString(n)| <= width
    ensures PadLeft(DecimalString(n), width) == FixedDigits(n, width)
  {
    if n < 10 {
      FixedDigitsOfZero(width - 1);
      assert n / 10 == 0 && n % 10 == n;
      assert Zeros(width - 1) + [DigitChar(n)] == FixedDigits(n, width);
    } else {
      assert width >= 2;
      QuotientBelow(n, width);
      PaddedDecimal(n / 10, width - 1);
      var head := DecimalString(n / 10);
      var d := [DigitChar(n % 10)];
      assert DecimalString(n) == head + d;
      if |head| < width - 1 {
        assert PadLeft(head + d, width) == Zeros(width - 1 - |head|) + head + d;
      }
    }
  }

  /** Strict lexicographic order of character strings. */
  ghost predicate LexLess(s: string, t: string)
  {
    exists k :: 0 <= k < |s| && k < |t| && s[..k] == t[..k] && s[k] < t[k]
  }

  /** Fixed-width decimal rendering is strictly monotone in the number. */
  lemma {:induction false} FixedDigitsMonotone(a: nat, b: nat, width: nat)
    requires a < b < Pow10(width)
    ensures LexLess(FixedDigits(a, width), FixedDigits(b, width))
  {
    assert width >= 1;
    QuotientBelow(b, width);
    var qa, qb := FixedDigits(a / 10, width - 1), FixedDigits(b / 10, width - 1);
    var ra, rb := FixedDigits(a, width), FixedDigits(b, width);
    assert ra == qa + [DigitChar(a % 10)] && rb == qb + [DigitChar(b % 10)];
    if a / 10 == b / 10 {
      assert a % 10 < b % 10;
      assert ra[..width - 1] == qa == qb == rb[..width - 1];
      assert ra[width - 1] < rb[width - 1];
    } else {
      assert a / 10 < b / 10;
      FixedDigitsMonotone(a / 10, b / 10, width - 1);
      var k :| 0 <= k < width - 1 && qa[..k] == qb[..k] && qa[k] < qb[k];
      assert ra[..k] == qa[..k] && rb[..k] == qb[..k];
      assert ra[k] == qa[k] && rb[k] == qb[k];
    }
  }

  lemma {:induction false} Pow10Add(a: nat, b: nat)
    ensures Pow10(a + b) == Pow10(a) * Pow10(b)
  {
    if a > 0 {
      Pow10Add(a - 1, b);
    }
  }

  /** A `size_t` has at most 20 decimal digits, fewer than the 22 of the padding. */
  lemma SizeModulusBound()
    ensures SizeModulus < Pow10(20) && Pow10(20) < Pow10(SequenceDigits)
  {
    assert Pow10(5) == 100000 by {
      assert Pow10(1) == 10;
      assert Pow10(2) == 100;
      assert Pow10(3) == 1000;
      assert Pow10(4) == 10000;
    }
    Pow10Add(5, 5);
    Pow10Add(10, 10);
    Pow10Add(20, 2);
  }

  /** Every sequence identifier of a `size_t` counter is 24 characters: the
      marker and 22 decimal digits, hence without any hyphen. */
  lemma SequenceIdShape(n: nat)
    requires n < SizeModulus
    ensures SequenceId(n) == SequenceMarker + FixedDigits(n, SequenceDigits)
    ensures |SequenceId(n)| == IdLength
    ensures '-' !in SequenceId(n)
  {
    SizeModulusBound();
    PaddedDecimal(n, SequenceDigits);
    var id := SequenceId(n);
    assert forall i :: 0 <= i < |id| ==> IsDecimalChar(id[i]);
  }

  /** A common prefix does not change the order. */
  lemma LexLessPrefix(p: string, s: string, t: string)
    requires LexLess(s, t)
    ensures LexLess(p + s, p + t)
  {
    var k :| 0 <= k < |s| && k < |t| && s[..k] == t[..k] && s[k] < t[k];
    assert (p + s)[..|p| + k] == p + s[..k];
    assert (p + t)[..|p| + k] == p + t[..k];
    assert (p + s)[|p| + k] == s[k] && (p + t)[|p| + k] == t[k];
  }

  /** Later sequence identifiers sort strictly after earlier ones. */
  lemma SequenceIdsIncrease(a: nat, b: nat)
    requires a < b < SizeModulus
    ensures LexLess(SequenceId(a), SequenceId(b))
  {
    SequenceIdShape(a);
    SequenceIdShape(b);
    SizeModulusBound();
    FixedDigitsMonotone(a, b, SequenceDigits);
    LexLessPrefix(SequenceMarker, FixedDigits(a, SequenceDigits), FixedDigits(b, SequenceDigits));
  }

  // ---------------------------------------------------------------------
  // Hyphen stripping and truncation (the tail of the constructor)
  // ---------------------------------------------------------------------

  /** Every hyphen removed, the other characters kept in order. */
  function StripHyphens(s: string): (r: string)
    ensures '-' !in r && |r| <= |s|
    ensures forall c :: c in r ==> c in s
  {
    if s == [] then "" else (if s[0] == '-' then "" else [s[0]]) + StripHyphens(s[1..])
  }

  lemma {:induction false} StripHyphensKeepsPlainText(s: string)
    requires '-' !in s
    ensures StripHyphens(s) == s
  {
    if s != [] {
      StripHyphensKeepsPlainText(s[1..]);
    }
  }

  lemma {:induction false} StripHyphensAppend(a: string, b: string)
    ensures StripHyphens(a + b) == StripHyphens(a) + StripHyphens(b)
  {
    if a == [] {
      assert a + b == b;
    } else {
      assert (a + b)[0] == a[0] && (a + b)[1..] == a[1..] + b;
      StripHyphensAppend(a[1..], b);
      var head := if a[0] == '-' then "" else [a[0]];
      assert StripHyphens(a + b) == head + (StripHyphens(a[1..]) + StripHyphens(b));
    }
  }

  /** Stripping hyphens is idempotent. */
  lemma StripHyphensIdempotent(s: string)
    ensures StripHyphens(StripHyphens(s)) == StripHyphens(s)
  {
    StripHyphensKeepsPlainText(StripHyphens(s));
  }

  /** An identifier longer than 24 characters is cut to its first 24. */
  function TruncateId(s: string): (r: string)
    ensures |r| <= IdLength
    ensures |s| <= IdLength ==> r == s
    ensures IdLength < |s| ==> r == s[..IdLength]
  {
    if |s| > IdLength then s[..IdLength] else s
  }

  /** The identifier the constructor stores, given the candidate it computed. */
  function FinalId(candidate: string): (id: string)
    ensures '-' !in id && |id| <= IdLength
  {
    TruncateId(StripHyphens(candidate))
  }

  /** A non-OBJECT node's Id is the first 24 characters of the temporary text. */
  lemma TemporaryFinalId()
    ensures FinalId(TemporaryId) == TemporaryHead
    ensures |TemporaryHead| == IdLength
  {
    assert '-' !in TemporaryHead && |TemporaryHead| == IdLength;
    FinalIdOfLongText(TemporaryHead, TemporaryTail);
  }

  /** Text whose first 24 characters hold no hyphen keeps exactly those. */
  lemma FinalIdOfLongText(head: string, tail: string)
    requires '-' !in head && |head| == IdLength
    ensures FinalId(head + tail) == head
  {
    StripHyphensAppend(head, tail);
    StripHyphensKeepsPlainText(head);
    assert (head + StripHyphens(tail))[..IdLength] == head;
  }

  /** A sequence identifier passes stripping and truncation unchanged. */
  lemma SequenceFinalId(n: nat)
    requires n < SizeModulus
    ensures FinalId(SequenceId(n)) == SequenceId(n)
  {
    SequenceIdShape(n);
    StripHyphensKeepsPlainText(SequenceId(n));
  }

  // ---------------------------------------------------------------------
  // Digest identifiers
  // ---------------------------------------------------------------------

  /** The cache key of cmGetUniqueXcodeId. */
  function LookupKey(prefix: string, hashingKey: string): string
  {
    prefix + "-" + hashingKey
  }

  /** With hyphen-free prefixes, distinct (prefix, key) pairs never share a cache slot. */
  lemma LookupKeyInjective(p: string, h: string, q: string, k: string)
    requires '-' !in p && '-' !in q
    requires LookupKey(p, h) == LookupKey(q, k)
    ensures p == q && h == k
  {
    var s := LookupKey(p, h);
    assert s[|p|] == '-' && s[|q|] == '-';
    assert forall i :: 0 <= i < |p| ==> s[i] == p[i] != '-';
    assert forall i :: 0 <= i < |q| ==> s[i] == q[i] != '-';
    assert p == s[..|p|] == q;
    assert h == s[|p| + 1..] == k;
  }

  /** What cmGetUniqueXcodeId computes on a cache miss: the prefix and the
      hex of the first 12 digest bytes, of which, when that is longer than 24
      characters, only the ONE character at index 24 is erased (the erase is
      given a single position, not a range). */
  function HashedId(prefix: string, digest: Digest): string
  {
    var full := prefix + Hex(digest[..12]);
    if |full| > IdLength then full[..IdLength] + full[IdLength + 1..] else full
  }

  /** With the prefix "02" the cached value is 25 characters long (only one
      character is erased), and its first 24 are "02" and the hex of 11 bytes. */
  lemma HashedIdShape(digest: Digest)
    ensures |HashedId(HashPrefix, digest)| == IdLength + 1
    ensures HashedId(HashPrefix, digest)[..IdLength] == HashPrefix + Hex(digest[..11])
    ensures '-' !in HashedId(HashPrefix, digest)
  {
    var twelve := digest[..12];
    assert twelve[..11] == digest[..11];
    HexShape(twelve);
    HexShape(digest[..11]);
    var full := HashPrefix + Hex(twelve);
    assert full == HashPrefix + Hex(digest[..11]) + HexByte(digest[11]);
    assert full[..IdLength] == HashPrefix + Hex(digest[..11]);
    var id := HashedId(HashPrefix, digest);
    assert forall i :: 0 <= i < |id| ==> id[i] in full;
  }

  /** The Id a hashed OBJECT ends up with: "02" and the hex of 11 digest bytes. */
  lemma HashedFinalId(digest: Digest)
    ensures FinalId(HashedId(HashPrefix, digest)) == HashPrefix + Hex(digest[..11])
    ensures |FinalId(HashedId(HashPrefix, digest))| == IdLength
  {
    HashedIdShape(digest);
    StripHyphensKeepsPlainText(HashedId(HashPrefix, digest));
  }

  // ---------------------------------------------------------------------
  // The registry: objectIdCache and sequenceIndex
  // ---------------------------------------------------------------------

  /** The two process-wide variables of the identifier scheme, with the
      digest function they depend on. */
  class IdRegistry {
    var ObjectIdCache: map<string, string>
    var SequenceIndex: nat
    const Sha256: string -> Digest

    /** Every cached value is the digest identifier of its own key, and the
        counter fits a `size_t`. */
    ghost predicate Valid()
      reads this
    {
      SequenceIndex < SizeModulus &&
      forall p, h :: '-' !in p && LookupKey(p, h) in ObjectIdCache ==>
        ObjectIdCache[LookupKey(p, h)] == HashedId(p, Sha256(h))
    }

    constructor (sha256: string -> Digest)
      ensures Valid()
      ensures ObjectIdCache == map[] && SequenceIndex == 0 && Sha256 == sha256
    {
      ObjectIdCache := map[];
      SequenceIndex := 0;
      Sha256 := sha256;
    }

    /** cmGetUniqueXcodeId: a cache hit returns the stored value and changes
        nothing; a miss computes the digest identifier and stores it. */
    method UniqueXcodeId(hashingKey: string, prefix: string) returns (id: string)
      requires Valid()
      modifies this`ObjectIdCache
      ensures LookupKey(prefix, hashingKey) in old(ObjectIdCache) ==>
        id == old(ObjectIdCache)[LookupKey(prefix, hashingKey)] && ObjectIdCache == old(ObjectIdCache)
      ensures LookupKey(prefix, hashingKey) !in old(ObjectIdCache) ==>
        id == HashedId(prefix, Sha256(hashingKey)) &&
        ObjectIdCache == old(ObjectIdCache)[LookupKey(prefix, hashingKey) := id]
      ensures '-' !in prefix ==> Valid() && id == HashedId(prefix, Sha256(hashingKey))
      ensures LookupKey(prefix, hashingKey) in ObjectIdCache && ObjectIdCache[LookupKey(prefix, hashingKey)] == id
      ensures SequenceIndex == old(SequenceIndex)
    {
      var lookupKey := LookupKey(prefix, hashingKey);
      if lookupKey in ObjectIdCache {
        id := ObjectIdCache[lookupKey];
      } else {
        var digest := Sha256(hashingKey);
        var hex := HexOfFirstTwelve(digest);
        var xcodeId := prefix + hex;
        if |xcodeId| > IdLength {
          xcodeId := xcodeId[..IdLength] + xcodeId[IdLength + 1..];
        }
        ObjectIdCache := ObjectIdCache[lookupKey := xcodeId];
        id := xcodeId;
        if '-' !in prefix {
          forall p, h | '-' !in p && LookupKey(p, h) in ObjectIdCache
            ensures ObjectIdCache[LookupKey(p, h)] == HashedId(p, Sha256(h))
          {
            if LookupKey(p, h) == lookupKey {
              LookupKeyInjective(p, h, prefix, hashingKey);
            }
          }
        }
      }
    }

    /** resetIdSequence: the counter restarts; the cache is kept. */
    method ResetIdSequence()
      modifies this`SequenceIndex
      ensures SequenceIndex == 0
      ensures ObjectIdCache == old(ObjectIdCache)
      ensures old(Valid()) ==> Valid()
    {
      SequenceIndex := 0;
    }

    /** The counter's increment, which wraps around like any `size_t`. */
    method NextSequenceIndex() returns (index: nat)
      requires Valid()
      modifies this`SequenceIndex
      ensures index == SequenceIndex == (old(SequenceIndex) + 1) % SizeModulus
      ensures ObjectIdCache == old(ObjectIdCache)
      ensures Valid()
    {
      SequenceIndex := (SequenceIndex + 1) % SizeModulus;
      index := SequenceIndex;
    }
  }
}
