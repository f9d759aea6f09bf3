/**
 * Bytes and Rust's `str::as_bytes`: the UTF-8 encoding of a string.
 * Storage keys and values are byte strings obtained this way.
 */
module Utf8 {

  newtype byte = x: int | 0 <= x < 256

  type Bytes = seq<byte>

  /** The UTF-8 encoding of one Unicode scalar value: six payload bits per continuation byte. */
  function EncodeChar(c: char): (r: Bytes)
    ensures 1 <= |r| <= 4
  {
    var n := c as int;
    var q1, r0 := n / 64, n % 64;
    var q2, r1 := q1 / 64, q1 % 64;
    var q3, r2 := q2 / 64, q2 % 64;
    if n < 0x80 then [n as byte]
    else if n < 0x800 then [(0xC0 + q1) as byte, (0x80 + r0) as byte]
    else if n < 0x1_0000 then [(0xE0 + q2) as byte, (0x80 + r1) as byte, (0x80 + r0) as byte]
    else [(0xF0 + q3) as byte, (0x80 + r2) as byte, (0x80 + r1) as byte, (0x80 + r0) as byte]
  }

  /** `s.as_bytes()`: between one and four bytes per character, and nothing only for the empty string. */
  function AsBytes(s: string): (r: Bytes)
    ensures |s| <= |r| <= 4 * |s|
    ensures r == [] <==> s == []
  {
    if s == [] then [] else EncodeChar(s[0]) + AsBytes(s[1..])
  }

  /** Number of bytes of the character whose encoding starts with `b`. */
  function SeqLen(b: byte): nat {
    if b < 0x80 then 1 else if b < 0xE0 then 2 else if b < 0xF0 then 3 else 4
  }

  /** Reads back the scalar value from its encoding. */
  function DecodeChar(bs: Bytes): int
    requires |bs| > 0 && |bs| >= SeqLen(bs[0])
  {
    var k := SeqLen(bs[0]);
    if k == 1 then bs[0] as int
    else if k == 2 then (bs[0] as int - 0xC0) * 64 + (bs[1] as int - 0x80)
    else if k == 3 then ((bs[0] as int - 0xE0) * 64 + (bs[1] as int - 0x80)) * 64 + (bs[2] as int - 0x80)
    else (((bs[0] as int - 0xF0) * 64 + (bs[1] as int - 0x80)) * 64 + (bs[2] as int - 0x80)) * 64 + (bs[3] as int - 0x80)
  }

  /** Decoding inverts encoding, and the first byte announces the encoding's length. */
  lemma EncodeCharDecodes(c: char)
    ensures |EncodeChar(c)| == SeqLen(EncodeChar(c)[0])
    ensures DecodeChar(EncodeChar(c)) == c as int
  {
    var n := c as int;
    var q1, r0 := n / 64, n % 64;
    var q2, r1 := q1 / 64, q1 % 64;
    var q3, r2 := q2 / 64, q2 % 64;
    assert n == q1 * 64 + r0 && q1 == q2 * 64 + r1 && q2 == q3 * 64 + r2;
    assert n < 0x11_0000;
  }

  /** The encoding of `c` followed by anything decodes back to `c` first. */
  lemma {:induction false} DecodeFirst(c: char, rest: Bytes)
    ensures |EncodeChar(c) + rest| > 0 && |EncodeChar(c) + rest| >= SeqLen((EncodeChar(c) + rest)[0])
    ensures DecodeChar(EncodeChar(c) + rest) == c as int
    ensures (EncodeChar(c) + rest)[SeqLen((EncodeChar(c) + rest)[0])..] == rest
  {
    EncodeCharDecodes(c);
    var e := EncodeChar(c);
    assert (e + rest)[..|e|] == e;
  }

  /** Distinct strings have distinct encodings, so storage keys never collide. */
  lemma {:induction false} AsBytesInjective(s: string, t: string)
    requires AsBytes(s) == AsBytes(t)
    ensures s == t
  {
    if s != [] && t != [] {
      DecodeFirst(s[0], AsBytes(s[1..]));
      DecodeFirst(t[0], AsBytes(t[1..]));
      assert s[0] as int == t[0] as int;
      AsBytesInjective(s[1..], t[1..]);
      assert s == [s[0]] + s[1..] && t == [t[0]] + t[1..];
    }
  }
}
