/**
 * libsofash internal.h: the 32-byte hash accessors and the proof-of-work
 * boundary check. A `sofash_h256_t` is a 32-element byte array that the
 * accessors read and write in place.
 */
module SofashInternal {
  import opened CoreTypes
  import opened Encoding

  const H256Size: nat := 32

  /** The unsigned integer a byte string denotes, most significant byte first. */
  function BigEndianValue(s: seq<Byte>): nat
  {
    if s == [] then 0 else s[0] as nat * Pow256(|s| - 1) + BigEndianValue(s[1..])
  }

  lemma MulMonotone(x: nat, y: nat, p: nat)
    requires x <= y
    ensures x * p <= y * p
  {
    var d := y - x;
    assert y * p == x * p + d * p;
  }

  lemma {:induction false} BigEndianBound(s: seq<Byte>)
    ensures BigEndianValue(s) < Pow256(|s|)
  {
    if s != [] {
      BigEndianBound(s[1..]);
      var p := Pow256(|s| - 1);
      var x := s[0] as nat;
      assert BigEndianValue(s) == x * p + BigEndianValue(s[1..]);
      MulMonotone(x + 1, 256, p);
      assert (x + 1) * p == x * p + p;
      assert Pow256(|s|) == 256 * p;
    }
  }

  lemma {:induction false} BigEndianZero(s: seq<Byte>)
    requires forall i :: 0 <= i < |s| ==> s[i] == 0
    ensures BigEndianValue(s) == 0
  {
    if s != [] {
      BigEndianZero(s[1..]);
    }
  }

  /**
   * The byte-by-byte rule: two equal-length strings that agree before index
   * i and differ at i compare, as big-endian numbers, the way their bytes
   * at i compare.
   */
  lemma {:induction false} FirstDifferenceDecides(a: seq<Byte>, b: seq<Byte>, i: nat)
    requires |a| == |b| && i < |a|
    requires forall k :: 0 <= k < i ==> a[k] == b[k]
    requires a[i] != b[i]
    ensures BigEndianValue(a) < BigEndianValue(b) <==> a[i] < b[i]
    ensures BigEndianValue(a) != BigEndianValue(b)
    decreases i
  {
    var p := Pow256(|a| - 1);
    if i == 0 {
      BigEndianBound(a[1..]);
      BigEndianBound(b[1..]);
      var x, y := a[0] as nat, b[0] as nat;
      assert BigEndianValue(a) == x * p + BigEndianValue(a[1..]);
      assert BigEndianValue(b) == y * p + BigEndianValue(b[1..]);
      if x < y {
        MulMonotone(x + 1, y, p);
        assert (x + 1) * p == x * p + p;
      } else {
        MulMonotone(y + 1, x, p);
        assert (y + 1) * p == y * p + p;
      }
    } else {
      assert BigEndianValue(a) == a[0] as nat * p + BigEndianValue(a[1..]);
      assert BigEndianValue(b) == b[0] as nat * p + BigEndianValue(b[1..]);
      FirstDifferenceDecides(a[1..], b[1..], i - 1);
    }
  }

  /** A hash is an array of exactly 32 bytes. */
  predicate IsH256(hash: array<Byte>)
  {
    hash.Length == H256Size
  }

  /** sofash_h256_get: byte i of the hash. */
  function H256Get(hash: array<Byte>, i: nat): (v: Byte)
    requires IsH256(hash) && i < H256Size
    reads hash
    ensures v == hash[..][i]
  {
    hash[i]
  }

  /** sofash_h256_set: writes byte i in place; the other 31 bytes stay. */
  method H256Set(hash: array<Byte>, i: nat, v: Byte)
    requires IsH256(hash) && i < H256Size
    modifies hash
    ensures H256Get(hash, i) == v
    ensures forall k :: 0 <= k < H256Size && k != i ==> hash[k] == old(hash[k])
  {
    hash[i] := v;
  }

  /** sofash_h256_reset: memset of all 32 bytes to zero. */
  method H256Reset(hash: array<Byte>)
    requires IsH256(hash)
    modifies hash
    ensures forall k :: 0 <= k < H256Size ==> H256Get(hash, k) == 0
    ensures BigEndianValue(hash[..]) == 0
  {
    forall k | 0 <= k < hash.Length {
      hash[k] := 0;
    }
    BigEndianZero(hash[..]);
  }

  /**
   * sofash_check_difficulty: scans both hashes from byte 0; the first
   * differing byte decides, and equal hashes pass. The result is exactly
   * "hash <= boundary" for the two read as 256-bit big-endian integers.
   */
  method CheckDifficulty(hash: array<Byte>, boundary: array<Byte>) returns (ok: bool)
    requires IsH256(hash) && IsH256(boundary)
    ensures ok <==> BigEndianValue(hash[..]) <= BigEndianValue(boundary[..])
  {
    var i := 0;
    while i < 32
      invariant 0 <= i <= 32
      invariant forall k :: 0 <= k < i ==> hash[k] == boundary[k]
    {
      if H256Get(hash, i) == H256Get(boundary, i) {
        i := i + 1;
        continue;
      }
      FirstDifferenceDecides(hash[..], boundary[..], i);
      return H256Get(hash, i) < H256Get(boundary, i);
    }
    assert hash[..] == boundary[..];
    return true;
  }

  /**
   * For two distinct hashes exactly one of check(a, b) and check(b, a)
   * holds: the big-endian reading is injective on 32-byte strings.
   */
  lemma {:induction false} CheckDifficultyAntisymmetric(a: seq<Byte>, b: seq<Byte>)
    requires |a| == H256Size && |b| == H256Size && a != b
    ensures (BigEndianValue(a) <= BigEndianValue(b)) != (BigEndianValue(b) <= BigEndianValue(a))
  {
    var i :| 0 <= i < |a| && a[i] != b[i];
    var j := FirstDifference(a, b, i);
    FirstDifferenceDecides(a, b, j);
  }

  /** The least index at which two equal-length strings differ, given one such index. */
  lemma {:induction false} FirstDifference(a: seq<Byte>, b: seq<Byte>, i: nat) returns (j: nat)
    requires |a| == |b| && i < |a| && a[i] != b[i]
    ensures j <= i && a[j] != b[j]
    ensures forall k :: 0 <= k < j ==> a[k] == b[k]
    decreases i
  {
    if exists k :: 0 <= k < i && a[k] != b[k] {
      var k :| 0 <= k < i && a[k] != b[k];
      j := FirstDifference(a, b, k);
    } else {
      j := i;
    }
  }

  /** A zeroed hash (the result of sofash_h256_reset) passes against any boundary. */
  lemma ResetHashPassesAnyBoundary(zero: seq<Byte>, boundary: seq<Byte>)
    requires |zero| == H256Size && forall k :: 0 <= k < H256Size ==> zero[k] == 0
    ensures BigEndianValue(zero) <= BigEndianValue(boundary)
  {
    BigEndianZero(zero);
  }
}
