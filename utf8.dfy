/**
 * Strict UTF-8 decoding as `bytes.decode("utf-8")` performs it (the
 * well-formed byte sequences of section 4 of RFC 3629), and the matching
 * encoder, which is its inverse.
 */
module Utf8 {
  import opened Wrappers
  import opened Values

  /** A Unicode scalar value: a code point that is not a surrogate. */
  predicate IsScalar(v: int)
  {
    (0 <= v < 0xD800) || (0xE000 <= v <= 0x10FFFF)
  }

  predicate IsContinuation(b: byte)
  {
    0x80 <= b <= 0xBF
  }

  /**
   * The scalar value encoded at the front of `bs` and the number of bytes it
   * takes, or None when `bs` does not start with a well-formed sequence.
   */
  function DecodeFirst(bs: seq<byte>): (r: Option<(int, nat)>)
    requires |bs| > 0
    ensures r.Some? ==> 1 <= r.value.1 <= 4 && r.value.1 <= |bs| && IsScalar(r.value.0)
    ensures r.Some? && r.value.1 == 1 <==> bs[0] < 0x80
  {
    var b0 := bs[0] as int;
    if b0 < 0x80 then
      Some((b0, 1))
    else if 0xC2 <= b0 <= 0xDF then
      if |bs| >= 2 && IsContinuation(bs[1]) then
        Some(((b0 - 0xC0) * 64 + (bs[1] as int - 0x80), 2))
      else None
    else if 0xE0 <= b0 <= 0xEF then
      var lo := if b0 == 0xE0 then 0xA0 else 0x80;
      var hi := if b0 == 0xED then 0x9F else 0xBF;
      if |bs| >= 3 && lo <= bs[1] as int <= hi && IsContinuation(bs[2]) then
        Some(((b0 - 0xE0) * 4096 + (bs[1] as int - 0x80) * 64 + (bs[2] as int - 0x80), 3))
      else None
    else if 0xF0 <= b0 <= 0xF4 then
      var lo := if b0 == 0xF0 then 0x90 else 0x80;
      var hi := if b0 == 0xF4 then 0x8F else 0xBF;
      if |bs| >= 4 && lo <= bs[1] as int <= hi && IsContinuation(bs[2]) && IsContinuation(bs[3]) then
        Some(((b0 - 0xF0) * 262144 + (bs[1] as int - 0x80) * 4096
              + (bs[2] as int - 0x80) * 64 + (bs[3] as int - 0x80), 4))
      else None
    else None
  }

  /** `bs.decode("utf-8")`: the text, or None where Python raises UnicodeDecodeError. */
  function Decode(bs: seq<byte>): (r: Option<string>)
    decreases |bs|
  {
    if bs == [] then Some([])
    else match DecodeFirst(bs)
      case None => None
      case Some((v, n)) =>
        match Decode(bs[n..])
        case None => None
        case Some(rest) => Some([v as char] + rest)
  }

  /** The UTF-8 bytes of one character. */
  function EncodeChar(c: char): (bs: seq<byte>)
  {
    var v := c as int;
    if v < 0x80 then [v as byte]
    else if v < 0x800 then [(0xC0 + v / 64) as byte, (0x80 + v % 64) as byte]
    else if v < 0x10000 then
      [(0xE0 + v / 4096) as byte, (0x80 + (v / 64) % 64) as byte, (0x80 + v % 64) as byte]
    else
      [(0xF0 + v / 262144) as byte, (0x80 + (v / 4096) % 64) as byte,
       (0x80 + (v / 64) % 64) as byte, (0x80 + v % 64) as byte]
  }

  /** `s.encode("utf-8")`. */
  function Encode(s: string): (bs: seq<byte>)
  {
    if s == [] then [] else EncodeChar(s[0]) + Encode(s[1..])
  }

  /** Decoding the front of an encoded character gives the character back. */
  lemma DecodeFirstEncodeChar(c: char, rest: seq<byte>)
    ensures DecodeFirst(EncodeChar(c) + rest) == Some((c as int, |EncodeChar(c)|))
  {
    var v := c as int;
    if v < 0x80 {
    } else if v < 0x800 {
      DecodeTwo(v, rest);
    } else if v < 0x10000 {
      DecodeThree(v, rest);
    } else {
      DecodeFour(v, rest);
    }
  }

  lemma DecodeTwo(v: int, rest: seq<byte>)
    requires 0x80 <= v < 0x800
    ensures DecodeFirst([(0xC0 + v / 64) as byte, (0x80 + v % 64) as byte] + rest) == Some((v, 2))
  {
  }

  lemma DecodeThree(v: int, rest: seq<byte>)
    requires 0x800 <= v < 0x10000 && IsScalar(v)
    ensures DecodeFirst([(0xE0 + v / 4096) as byte, (0x80 + (v / 64) % 64) as byte,
                         (0x80 + v % 64) as byte] + rest) == Some((v, 3))
  {
    var q, r := v / 64, v % 64;
    var q2, r2 := q / 64, q % 64;
    assert v == q * 64 + r && 0 <= r < 64;
    assert q == q2 * 64 + r2 && 0 <= r2 < 64;
    assert q2 == v / 4096;
  }

  lemma DecodeFour(v: int, rest: seq<byte>)
    requires 0x10000 <= v <= 0x10FFFF
    ensures DecodeFirst([(0xF0 + v / 262144) as byte, (0x80 + (v / 4096) % 64) as byte,
                         (0x80 + (v / 64) % 64) as byte, (0x80 + v % 64) as byte] + rest) == Some((v, 4))
  {
    var q, r := v / 64, v % 64;
    var q2, r2 := q / 64, q % 64;
    var q3, r3 := q2 / 64, q2 % 64;
    assert v == q * 64 + r && 0 <= r < 64;
    assert q == q2 * 64 + r2 && 0 <= r2 < 64;
    assert q2 == q3 * 64 + r3 && 0 <= r3 < 64;
    assert q2 == v / 4096 && q3 == v / 262144;
  }

  /** Round trip: decoding the UTF-8 encoding of any text yields that text. */
  lemma {:induction false} DecodeEncode(s: string)
    ensures Decode(Encode(s)) == Some(s)
  {
    if s != [] {
      var head := EncodeChar(s[0]);
      var tail := Encode(s[1..]);
      DecodeFirstEncodeChar(s[0], tail);
      assert (head + tail)[|head|..] == tail;
      DecodeEncode(s[1..]);
      assert [s[0]] + s[1..] == s;
    }
  }

  /** ASCII bytes (all a signed token's bytes are) decode to the same characters. */
  lemma {:induction false} DecodeAscii(bs: seq<byte>)
    requires forall i :: 0 <= i < |bs| ==> bs[i] < 0x80
    ensures Decode(bs).Some?
    ensures |Decode(bs).value| == |bs|
    ensures forall i :: 0 <= i < |bs| ==> Decode(bs).value[i] as int == bs[i] as int
  {
    if bs != [] {
      DecodeAscii(bs[1..]);
    }
  }
}
