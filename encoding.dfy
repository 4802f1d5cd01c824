/**
 * The byte and number encoders the converters and the LES topic rely on:
 * hexutil.EncodeBig / EncodeUint64 ("0x" + minimal lower-case hex),
 * common.Bytes2Hex (two lower-case hex digits per byte) and
 * binary.LittleEndian.PutUint64. Each comes with its decoder and a
 * round-trip lemma, which is what makes the encodings injective.
 */
module Encoding {
  import opened CoreTypes

  function Pow256(k: nat): (p: nat)
    ensures p >= 1
  {
    if k == 0 then 1 else 256 * Pow256(k - 1)
  }

  const HexAlphabet: string := "0123456789abcdef"

  function HexDigit(d: nat): (c: char)
    requires d < 16
  {
    HexAlphabet[d]
  }

  /** Inverse of HexDigit on the lower-case alphabet; None for any other character. */
  function HexDigitValue(c: char): (r: int)
    ensures -1 <= r < 16
    ensures 0 <= r ==> HexDigit(r) == c
  {
    if '0' <= c <= '9' then c as int - '0' as int
    else if 'a' <= c <= 'f' then c as int - 'a' as int + 10
    else -1
  }

  lemma HexDigitRoundTrip(d: nat)
    requires d < 16
    ensures HexDigitValue(HexDigit(d)) == d
  {
  }

  /** The minimal hexadecimal digits of n (no leading zeros; "0" for zero). */
  function HexNat(n: nat): (s: string)
    ensures |s| >= 1
    ensures forall i :: 0 <= i < |s| ==> HexDigitValue(s[i]) >= 0
    decreases n
  {
    if n < 16 then [HexDigit(n)] else HexNat(n / 16) + [HexDigit(n % 16)]
  }

  /** Reads a string of hex digits, most significant first. */
  function HexValue(s: string): nat
    requires forall i :: 0 <= i < |s| ==> HexDigitValue(s[i]) >= 0
  {
    if s == [] then 0 else 16 * HexValue(s[..|s| - 1]) + HexDigitValue(s[|s| - 1])
  }

  lemma {:induction false} HexNatRoundTrip(n: nat)
    ensures HexValue(HexNat(n)) == n
    decreases n
  {
    HexDigitRoundTrip(n % 16);
    if n >= 16 {
      HexNatRoundTrip(n / 16);
      var s := HexNat(n);
      assert s[..|s| - 1] == HexNat(n / 16);
      assert s[|s| - 1] == HexDigit(n % 16);
      calc {
        HexValue(s);
        16 * HexValue(HexNat(n / 16)) + HexDigitValue(HexDigit(n % 16));
        16 * (n / 16) + n % 16;
      }
    }
  }

  /** hexutil.EncodeBig and hexutil.EncodeUint64: "0x" followed by HexNat. */
  function EncodeBig(n: nat): (s: string)
    ensures |s| >= 3 && s[..2] == "0x"
  {
    "0x" + HexNat(n)
  }

  /** Distinct numbers get distinct keys: the encoding is injective. */
  lemma EncodeBigInjective(a: nat, b: nat)
    ensures EncodeBig(a) == EncodeBig(b) <==> a == b
  {
    if EncodeBig(a) == EncodeBig(b) {
      assert HexNat(a) == EncodeBig(a)[2..];
      assert HexNat(b) == EncodeBig(b)[2..];
      HexNatRoundTrip(a);
      HexNatRoundTrip(b);
    }
  }

  /** common.Bytes2Hex: two lower-case hex digits per byte, no prefix. */
  function Bytes2Hex(b: seq<Byte>): (s: string)
    ensures |s| == 2 * |b|
    ensures forall i :: 0 <= i < |b| ==>
      s[2 * i] == HexDigit(b[i] as nat / 16) && s[2 * i + 1] == HexDigit(b[i] as nat % 16)
  {
    if b == [] then []
    else
      var rest := Bytes2Hex(b[1..]);
      assert forall i :: 1 <= i < |b| ==> b[1..][i - 1] == b[i];
      [HexDigit(b[0] as nat / 16), HexDigit(b[0] as nat % 16)] + rest
  }

  /** Bytes2Hex forgets nothing: equal encodings come from equal bytes. */
  lemma Bytes2HexInjective(a: seq<Byte>, b: seq<Byte>)
    requires Bytes2Hex(a) == Bytes2Hex(b)
    ensures a == b
  {
    assert |a| == |b|;
    forall i | 0 <= i < |a| ensures a[i] == b[i] {
      var s := Bytes2Hex(a);
      HexDigitRoundTrip(a[i] as nat / 16);
      HexDigitRoundTrip(a[i] as nat % 16);
      HexDigitRoundTrip(b[i] as nat / 16);
      HexDigitRoundTrip(b[i] as nat % 16);
      assert s[2 * i] == HexDigit(b[i] as nat / 16);
      assert s[2 * i + 1] == HexDigit(b[i] as nat % 16);
    }
  }

  /** The k low-order bytes of n, least significant first. */
  function LittleEndian(n: nat, k: nat): (r: seq<Byte>)
    ensures |r| == k
  {
    if k == 0 then [] else [(n % 256) as Byte] + LittleEndian(n / 256, k - 1)
  }

  /** Reads bytes least significant first. */
  function LittleEndianValue(s: seq<Byte>): nat
  {
    if s == [] then 0 else s[0] as nat + 256 * LittleEndianValue(s[1..])
  }

  lemma {:induction false} LittleEndianRoundTrip(n: nat, k: nat)
    requires n < Pow256(k)
    ensures LittleEndianValue(LittleEndian(n, k)) == n
  {
    if k > 0 {
      assert n / 256 < Pow256(k - 1);
      LittleEndianRoundTrip(n / 256, k - 1);
      assert LittleEndian(n, k)[1..] == LittleEndian(n / 256, k - 1);
    }
  }

  /**
   * binary.LittleEndian.PutUint64 into a fresh 8-byte slice: exactly eight
   * bytes which, read least significant first, give back n.
   */
  function PutUint64(n: Uint64): (b: seq<Byte>)
    ensures |b| == 8
    ensures LittleEndianValue(b) == n
    ensures b[0] as nat == n % 256
  {
    assert Pow256(8) == Uint64Bound;
    LittleEndianRoundTrip(n, 8);
    LittleEndian(n, 8)
  }
}
