/** UTF-8 as section 3 of RFC 3629 defines it, on Unicode scalar values:
    the number of octets per scalar, the encoder that `TextEncoder` applies
    to a request body, and a decoder that inverts it. */
module Utf8 {
  import opened Wrappers

  /** A Unicode scalar value: a code point that is not a surrogate. */
  type Scalar = c: int | 0 <= c <= 0x10FFFF && !(0xD800 <= c <= 0xDFFF)

  type Byte = b: int | 0 <= b < 256

  /** Octets UTF-8 uses for `c`: one below U+0080, two below U+0800, three
      below U+10000 and four above (the table in section 3 of RFC 3629). */
  function ByteCount(c: Scalar): (n: nat)
    ensures 1 <= n <= 4
  {
    if c < 0x80 then 1
    else if c < 0x800 then 2
    else if c < 0x10000 then 3
    else 4
  }

  predicate IsContinuation(b: Byte)
  {
    0x80 <= b < 0xC0
  }

  /** The octet sequence for one scalar value. */
  function EncodeScalar(c: Scalar): (r: seq<Byte>)
    ensures |r| == ByteCount(c)
    ensures forall i :: 1 <= i < |r| ==> IsContinuation(r[i])
  {
    if c < 0x80 then [c]
    else if c < 0x800 then [0xC0 + c / 64, 0x80 + c % 64]
    else if c < 0x10000 then [0xE0 + c / 4096, 0x80 + (c / 64) % 64, 0x80 + c % 64]
    else [0xF0 + c / 262144, 0x80 + (c / 4096) % 64, 0x80 + (c / 64) % 64, 0x80 + c % 64]
  }

  /** Number of octets a first octet announces, or 0 when no well-formed
      sequence starts with it (C0, C1 and F5 to FF never appear). */
  function SequenceLength(b: Byte): (n: nat)
    ensures n <= 4
  {
    if b < 0x80 then 1
    else if 0xC2 <= b < 0xE0 then 2
    else if 0xE0 <= b < 0xF0 then 3
    else if 0xF0 <= b <= 0xF4 then 4
    else 0
  }

  /** The smallest value a sequence of `n` octets may carry; anything below
      is an overlong form (section 3 of RFC 3629). */
  function MinimumValue(n: nat): int
  {
    if n == 2 then 0x80 else if n == 3 then 0x800 else if n == 4 then 0x10000 else 0
  }

  /** The scalar value that `bs`, a sequence of the length its first octet
      announces, stands for; None for an overlong form, a surrogate, a value
      above U+10FFFF or a missing continuation octet. */
  function DecodeScalar(bs: seq<Byte>): (r: Option<Scalar>)
    requires |bs| >= 1 && |bs| == SequenceLength(bs[0])
  {
    if |bs| == 1 then Some(bs[0])
    else if exists i :: 1 <= i < |bs| && !IsContinuation(bs[i]) then None
    else
      var v: int :=
        if |bs| == 2 then Combine(bs[0] - 0xC0, [bs[1]])
        else if |bs| == 3 then Combine(bs[0] - 0xE0, bs[1..])
        else Combine(bs[0] - 0xF0, bs[1..]);
      if 0 <= v <= 0x10FFFF && !(0xD800 <= v <= 0xDFFF) && v >= MinimumValue(|bs|) then Some(v)
      else None
  }

  /** The value whose high bits are `lead` and whose low bits are six
      bits from each continuation octet, most significant first. */
  function Combine(lead: int, conts: seq<Byte>): int
    decreases |conts|
  {
    if conts == [] then lead
    else
      var b: int := conts[0];
      var low := b - 0x80;
      Combine(lead * 64 + low, conts[1..])
  }

  /** Total number of octets of the encoding of `s`. */
  function EncodedLength(s: seq<Scalar>): (n: nat)
    ensures |s| <= n <= 4 * |s|
  {
    if s == [] then 0 else ByteCount(s[0]) + EncodedLength(s[1..])
  }

  /** What `new TextEncoder().encode(s)` produces for a string of scalar values. */
  function Encode(s: seq<Scalar>): (r: seq<Byte>)
    ensures |r| == EncodedLength(s)
  {
    if s == [] then [] else EncodeScalar(s[0]) + Encode(s[1..])
  }

  /** Reads a whole octet string back into scalar values; None when it is not
      well-formed UTF-8. */
  function Decode(bs: seq<Byte>): (r: Option<seq<Scalar>>)
    decreases |bs|
  {
    if bs == [] then Some([])
    else
      var n := SequenceLength(bs[0]);
      if n == 0 || n > |bs| then None
      else
        match DecodeScalar(bs[..n])
        case None => None
        case Some(c) =>
          match Decode(bs[n..])
          case None => None
          case Some(rest) => Some([c] + rest)
  }

  lemma DecodeTwo(c: Scalar)
    requires 0x80 <= c < 0x800
    ensures SequenceLength(EncodeScalar(c)[0]) == 2
    ensures DecodeScalar(EncodeScalar(c)) == Some(c)
  {
    var r := EncodeScalar(c);
    assert r == [0xC0 + c / 64, 0x80 + c % 64];
    assert Combine(r[0] - 0xC0, [r[1]]) == c / 64 * 64 + c % 64;
  }

  lemma DecodeThree(c: Scalar)
    requires 0x800 <= c < 0x10000
    ensures SequenceLength(EncodeScalar(c)[0]) == 3
    ensures DecodeScalar(EncodeScalar(c)) == Some(c)
  {
    var r := EncodeScalar(c);
    var hi, mid, lo := c / 4096, (c / 64) % 64, c % 64;
    assert r == [0xE0 + hi, 0x80 + mid, 0x80 + lo];
    assert c / 64 == hi * 64 + mid;
    assert r[1..] == [r[1], r[2]];
    assert r[1..][1..] == [r[2]];
    assert Combine(hi * 64 + mid, [r[2]]) == (hi * 64 + mid) * 64 + lo;
    assert Combine(r[0] - 0xE0, r[1..]) == (hi * 64 + mid) * 64 + lo;
  }

  lemma DecodeFour(c: Scalar)
    requires 0x10000 <= c
    ensures SequenceLength(EncodeScalar(c)[0]) == 4
    ensures DecodeScalar(EncodeScalar(c)) == Some(c)
  {
    var r := EncodeScalar(c);
    var top, hi, mid, lo := c / 262144, (c / 4096) % 64, (c / 64) % 64, c % 64;
    assert r == [0xF0 + top, 0x80 + hi, 0x80 + mid, 0x80 + lo];
    assert c / 4096 == top * 64 + hi;
    assert c / 64 == (c / 4096) * 64 + mid;
    assert r[1..] == [r[1], r[2], r[3]];
    assert r[1..][1..] == [r[2], r[3]];
    assert r[1..][1..][1..] == [r[3]];
    var acc := (top * 64 + hi) * 64 + mid;
    assert Combine(acc, [r[3]]) == acc * 64 + lo;
    assert Combine(top * 64 + hi, [r[2], r[3]]) == acc * 64 + lo;
    assert Combine(r[0] - 0xF0, r[1..]) == acc * 64 + lo;
  }

  /** One scalar's octets announce their own length and decode back to it. */
  lemma DecodeEncodeScalar(c: Scalar)
    ensures SequenceLength(EncodeScalar(c)[0]) == ByteCount(c)
    ensures DecodeScalar(EncodeScalar(c)) == Some(c)
  {
    if c < 0x80 {
    } else if c < 0x800 {
      DecodeTwo(c);
    } else if c < 0x10000 {
      DecodeThree(c);
    } else {
      DecodeFour(c);
    }
  }

  /** Decoding inverts encoding: the octets `TextEncoder` counts are exactly
      the body's scalar values, one encoding per scalar. */
  lemma {:induction false} DecodeEncode(s: seq<Scalar>)
    ensures Decode(Encode(s)) == Some(s)
  {
    if s != [] {
      var head := EncodeScalar(s[0]);
      var bs := Encode(s);
      assert bs == head + Encode(s[1..]);
      DecodeEncodeScalar(s[0]);
      var n := |head|;
      assert bs[0] == head[0];
      assert bs[..n] == head;
      assert bs[n..] == Encode(s[1..]);
      DecodeEncode(s[1..]);
      assert [s[0]] + s[1..] == s;
    }
  }

  predicate AllAscii(s: seq<Scalar>)
  {
    forall i :: 0 <= i < |s| ==> s[i] < 0x80
  }

  /** The octet count equals the number of scalar values exactly when every
      scalar is below U+0080; otherwise it is larger. */
  lemma {:induction false} EncodedLengthIsCountIffAscii(s: seq<Scalar>)
    ensures EncodedLength(s) == |s| <==> AllAscii(s)
  {
    if s != [] {
      EncodedLengthIsCountIffAscii(s[1..]);
      if AllAscii(s) {
        assert AllAscii(s[1..]) by {
          forall i | 0 <= i < |s[1..]| ensures s[1..][i] < 0x80 {
            assert s[1..][i] == s[i + 1];
          }
        }
      } else if AllAscii(s[1..]) {
        assert !(s[0] < 0x80) by {
          if s[0] < 0x80 {
            forall i | 0 <= i < |s| ensures s[i] < 0x80 {
              if i > 0 { assert s[i] == s[1..][i - 1]; }
            }
          }
        }
      }
    }
  }
}
