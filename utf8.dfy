/**
 * UTF-8 (RFC 3629 section 3), the encoding `new Buffer(string)` applies to a
 * string before its bytes are Base64-encoded. A Dafny `char` is a Unicode
 * scalar value, so every character here has an encoding.
 */
module Utf8 {
  import opened Prelude

  /** How many bytes a sequence starting with lead byte `b` occupies; 0 when `b` cannot lead one. */
  function SequenceLength(b: byte): (n: nat)
    ensures n <= 4
  {
    if b < 0x80 then 1
    else if b < 0xC0 then 0
    else if b < 0xE0 then 2
    else if b < 0xF0 then 3
    else if b < 0xF8 then 4
    else 0
  }

  predicate IsContinuation(b: byte) {
    0x80 <= b < 0xC0
  }

  /** The UTF-8 bytes of one scalar value. */
  function EncodeChar(c: char): (b: seq<byte>)
    ensures 1 <= |b| <= 4
    ensures |b| == SequenceLength(b[0])
    ensures |b| == 1 <==> c as int < 0x80
    ensures |b| == (if c as int < 0x80 then 1 else if c as int < 0x800 then 2 else if c as int < 0x10000 then 3 else 4)
    ensures |b| == 1 ==> b[0] == c as int
    ensures forall i :: 1 <= i < |b| ==> IsContinuation(b[i])
  {
    var cp := c as int;
    if cp < 0x80 then [cp]
    else if cp < 0x800 then [0xC0 + cp / 64, 0x80 + cp % 64]
    else if cp < 0x10000 then [0xE0 + cp / 4096, 0x80 + (cp / 64) % 64, 0x80 + cp % 64]
    else [0xF0 + cp / 262144, 0x80 + (cp / 4096) % 64, 0x80 + (cp / 64) % 64, 0x80 + cp % 64]
  }

  /** The UTF-8 bytes of a string, character by character. */
  function Encode(s: string): (b: seq<byte>)
    ensures |s| <= |b| <= 4 * |s|
    decreases |s|
  {
    if s == [] then [] else EncodeChar(s[0]) + Encode(s[1..])
  }

  /** The scalar value a whole multi-byte sequence denotes, when it denotes one. */
  function DecodeScalar(b: seq<byte>): (r: Option<char>)
    requires 1 <= |b| <= 4 && |b| == SequenceLength(b[0])
  {
    if exists i :: 1 <= i < |b| && !IsContinuation(b[i]) then None
    else
      var cp: int :=
        if |b| == 1 then b[0] as int
        else if |b| == 2 then (b[0] as int - 0xC0) * 64 + (b[1] as int - 0x80)
        else if |b| == 3 then (b[0] as int - 0xE0) * 4096 + (b[1] as int - 0x80) * 64 + (b[2] as int - 0x80)
        else (b[0] as int - 0xF0) * 262144 + (b[1] as int - 0x80) * 4096 + (b[2] as int - 0x80) * 64 + (b[3] as int - 0x80);
      if 0 <= cp < 0xD800 || 0xE000 <= cp < 0x110000 then Some(cp as char) else None
  }

  /** Reads a byte sequence back into a string; None when it is not a sequence of encoded scalars. */
  function Decode(b: seq<byte>): (r: Option<string>)
    decreases |b|
  {
    if b == [] then Some([])
    else
      var n := SequenceLength(b[0]);
      if n == 0 || |b| < n then None
      else match DecodeScalar(b[..n])
        case None => None
        case Some(c) =>
          match Decode(b[n..])
          case None => None
          case Some(rest) => Some([c] + rest)
  }

  /** One character survives encoding and decoding. */
  lemma DecodeEncodeChar(c: char)
    ensures DecodeScalar(EncodeChar(c)) == Some(c)
  {
    var cp := c as int;
    if 0x800 <= cp < 0x10000 {
      assert (cp / 64) / 64 == cp / 4096;
    } else if 0x10000 <= cp {
      assert (cp / 64) / 64 == cp / 4096;
      assert (cp / 4096) / 64 == cp / 262144;
    }
  }

  /** Decoding undoes encoding, for every string. */
  lemma {:induction false} DecodeEncode(s: string)
    ensures Decode(Encode(s)) == Some(s)
    decreases |s|
  {
    if s != [] {
      var h, t := EncodeChar(s[0]), Encode(s[1..]);
      DecodeEncodeChar(s[0]);
      DecodeEncode(s[1..]);
      assert Encode(s) == h + t;
      assert (h + t)[..|h|] == h;
      assert (h + t)[|h|..] == t;
      assert [s[0]] + s[1..] == s;
    }
  }

  /** On ASCII text the encoding is one byte per character, each the character's code. */
  lemma {:induction false} AsciiEncode(s: string)
    requires forall i :: 0 <= i < |s| ==> s[i] as int < 0x80
    ensures |Encode(s)| == |s|
    ensures forall i :: 0 <= i < |s| ==> Encode(s)[i] == s[i] as int
    decreases |s|
  {
    if s != [] {
      AsciiEncode(s[1..]);
      assert Encode(s) == [s[0] as int] + Encode(s[1..]);
    }
  }
}
