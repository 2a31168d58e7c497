/**
 * Base64 as section 4 of RFC 4648 defines it (the alphabet of its table 1,
 * padding with '='), the encoding `Buffer.toString('base64')` produces.
 */
module Base64 {
  import opened Prelude

  const Pad: char := '='

  /** The character that stands for the 6-bit group `i`. */
  function CharOf(i: int): (c: char)
    requires 0 <= i < 64
    ensures c != Pad
    ensures IndexOf(c) == Some(i)
  {
    if i < 26 then ('A' as int + i) as char
    else if i < 52 then ('a' as int + (i - 26)) as char
    else if i < 62 then ('0' as int + (i - 52)) as char
    else if i == 62 then '+'
    else '/'
  }

  /** The 6-bit group a character stands for; None outside the alphabet (so for the pad too). */
  function IndexOf(c: char): (r: Option<int>)
    ensures r.Some? ==> 0 <= r.value < 64
    ensures c == Pad ==> r.None?
  {
    if 'A' <= c <= 'Z' then Some(c as int - 'A' as int)
    else if 'a' <= c <= 'z' then Some(c as int - 'a' as int + 26)
    else if '0' <= c <= '9' then Some(c as int - '0' as int + 52)
    else if c == '+' then Some(62)
    else if c == '/' then Some(63)
    else None
  }

  /** A character that decodes is the one its 6-bit group encodes to: no other character decodes. */
  lemma IndexOfCharOf(c: char)
    ensures IndexOf(c).Some? ==> CharOf(IndexOf(c).value) == c
  {
  }

  /** Three octets as four characters: each character carries six of their 24 bits. */
  function EncodeTriple(b0: byte, b1: byte, b2: byte): (s: string)
    ensures |s| == 4
  {
    [CharOf(b0 / 4), CharOf((b0 % 4) * 16 + b1 / 16), CharOf((b1 % 16) * 4 + b2 / 64), CharOf(b2 % 64)]
  }

  /** The Base64 text of `b`: whole quanta, the last one padded when fewer than three octets remain. */
  function Encode(b: seq<byte>): (s: string)
    ensures |s| == 4 * ((|b| + 2) / 3)
    decreases |b|
  {
    if |b| == 0 then ""
    else if |b| == 1 then [CharOf(b[0] / 4), CharOf((b[0] % 4) * 16), Pad, Pad]
    else if |b| == 2 then [CharOf(b[0] / 4), CharOf((b[0] % 4) * 16 + b[1] / 16), CharOf((b[1] % 16) * 4), Pad]
    else EncodeTriple(b[0], b[1], b[2]) + Encode(b[3..])
  }

  /**
   * One four-character quantum back to its one, two or three octets. As
   * section 3.5 of RFC 4648 requires, the bits a pad leaves over must be zero.
   */
  function DecodeQuad(s: string): (r: Option<seq<byte>>)
    requires |s| == 4
    ensures r.Some? ==> 1 <= |r.value| <= 3
    ensures r.Some? ==> |r.value| == (if s[2] == Pad then 1 else if s[3] == Pad then 2 else 3)
    ensures r.Some? && s[2] == Pad ==> IndexOf(s[1]).Some? && IndexOf(s[1]).value % 16 == 0
    ensures r.Some? && s[2] != Pad && s[3] == Pad ==> IndexOf(s[2]).Some? && IndexOf(s[2]).value % 4 == 0
  {
    match (IndexOf(s[0]), IndexOf(s[1]))
    case (Some(i0), Some(i1)) =>
      if s[2] == Pad && s[3] == Pad then (if i1 % 16 == 0 then Some([i0 * 4 + i1 / 16]) else None)
      else
        (match IndexOf(s[2])
         case None => None
         case Some(i2) =>
           if s[3] == Pad then (if i2 % 4 == 0 then Some([i0 * 4 + i1 / 16, (i1 % 16) * 16 + i2 / 4]) else None)
           else
             (match IndexOf(s[3])
              case None => None
              case Some(i3) => Some([i0 * 4 + i1 / 16, (i1 % 16) * 16 + i2 / 4, (i2 % 4) * 64 + i3])))
    case _ => None
  }

  /** Base64 text back to octets; None for a length that is not a multiple of four or a misplaced pad. */
  function Decode(s: string): (r: Option<seq<byte>>)
    decreases |s|
  {
    if |s| == 0 then Some([])
    else if |s| < 4 then None
    else if |s| == 4 then DecodeQuad(s)
    else
      match DecodeQuad(s[..4])
      case None => None
      case Some(q) =>
        if |q| < 3 then None
        else
          match Decode(s[4..])
          case None => None
          case Some(rest) => Some(q + rest)
  }

  /** The six-bit groups of the first two octets give the first octet back. */
  lemma FirstOctet(b0: byte, b1: byte)
    ensures (b0 / 4) * 4 + ((b0 % 4) * 16 + b1 / 16) / 16 == b0
  {
    var x := (b0 % 4) * 16 + b1 / 16;
    assert x / 16 == b0 % 4 by {
      assert (b0 % 4) * 16 <= x < (b0 % 4) * 16 + 16;
    }
  }

  /** The six-bit groups around the second octet give it back. */
  lemma SecondOctet(b0: byte, b1: byte, b2: byte)
    ensures (((b0 % 4) * 16 + b1 / 16) % 16) * 16 + ((b1 % 16) * 4 + b2 / 64) / 4 == b1
  {
    var x, y := (b0 % 4) * 16 + b1 / 16, (b1 % 16) * 4 + b2 / 64;
    assert x % 16 == b1 / 16 by {
      assert x == (b0 % 4) * 16 + b1 / 16 && 0 <= b1 / 16 < 16;
    }
    assert y / 4 == b1 % 16 by {
      assert (b1 % 16) * 4 <= y < (b1 % 16) * 4 + 4;
    }
  }

  /** The six-bit groups of the last two octets give the third octet back. */
  lemma ThirdOctet(b1: byte, b2: byte)
    ensures (((b1 % 16) * 4 + b2 / 64) % 4) * 64 + b2 % 64 == b2
  {
    var y := (b1 % 16) * 4 + b2 / 64;
    assert y % 4 == b2 / 64 by {
      assert y == (b1 % 16) * 4 + b2 / 64 && 0 <= b2 / 64 < 4;
    }
  }

  /** A full quantum decodes to the three octets it was made from. */
  lemma DecodeEncodeTriple(b0: byte, b1: byte, b2: byte)
    ensures DecodeQuad(EncodeTriple(b0, b1, b2)) == Some([b0, b1, b2])
  {
    var i0, i1, i2, i3 := b0 / 4, (b0 % 4) * 16 + b1 / 16, (b1 % 16) * 4 + b2 / 64, b2 % 64;
    var s := EncodeTriple(b0, b1, b2);
    assert s == [CharOf(i0), CharOf(i1), CharOf(i2), CharOf(i3)];
    FirstOctet(b0, b1);
    SecondOctet(b0, b1, b2);
    ThirdOctet(b1, b2);
    assert DecodeQuad(s) == Some([i0 * 4 + i1 / 16, (i1 % 16) * 16 + i2 / 4, (i2 % 4) * 64 + i3]);
  }

  /** A lone final octet, padded with "==", decodes back to itself. */
  lemma DecodeEncodeSingle(b0: byte)
    ensures Decode(Encode([b0])) == Some([b0])
  {
    FirstOctet(b0, 0);
    var i0, i1 := b0 / 4, (b0 % 4) * 16 + 0 / 16;
    var s := [CharOf(i0), CharOf(i1), Pad, Pad];
    assert Encode([b0]) == s;
    assert DecodeQuad(s) == Some([i0 * 4 + i1 / 16]);
  }

  /** Two final octets, padded with "=", decode back to themselves. */
  lemma DecodeEncodePair(b0: byte, b1: byte)
    ensures Decode(Encode([b0, b1])) == Some([b0, b1])
  {
    FirstOctet(b0, b1);
    SecondOctet(b0, b1, 0);
    var i0, i1, i2 := b0 / 4, (b0 % 4) * 16 + b1 / 16, (b1 % 16) * 4 + 0 / 64;
    var s := [CharOf(i0), CharOf(i1), CharOf(i2), Pad];
    assert Encode([b0, b1]) == s;
    assert DecodeQuad(s) == Some([i0 * 4 + i1 / 16, (i1 % 16) * 16 + i2 / 4]);
  }

  /** Decoding undoes encoding, for every octet string. */
  lemma {:induction false} DecodeEncode(b: seq<byte>)
    ensures Decode(Encode(b)) == Some(b)
    decreases |b|
  {
    if |b| == 1 {
      DecodeEncodeSingle(b[0]);
      assert b == [b[0]];
    } else if |b| == 2 {
      DecodeEncodePair(b[0], b[1]);
      assert b == [b[0], b[1]];
    } else if |b| >= 3 {
      var h, t := EncodeTriple(b[0], b[1], b[2]), Encode(b[3..]);
      DecodeEncodeTriple(b[0], b[1], b[2]);
      assert Encode(b) == h + t;
      if |b| == 3 {
        assert h + t == h;
        assert b == [b[0], b[1], b[2]];
      } else {
        DecodeEncode(b[3..]);
        assert (h + t)[..4] == h;
        assert (h + t)[4..] == t;
        assert b == [b[0], b[1], b[2]] + b[3..];
      }
    }
  }

  /** The octets of "foobar:" encode as "Zm9vYmFyOg==": two full quanta and one padded octet. */
  lemma EncodeFoobarColon()
    ensures Encode([102, 111, 111, 98, 97, 114, 58]) == "Zm9vYmFyOg=="
  {
    assert EncodeTriple(102, 111, 111) == "Zm9v";
    assert EncodeTriple(98, 97, 114) == "YmFy";
    assert Encode([58]) == "Og==";
  }

  /** The test vectors of section 10 of RFC 4648, for "", "f", "fo", "foo", "foob", "fooba" and "foobar". */
  lemma Rfc4648Vectors()
    ensures Encode([]) == ""
    ensures Encode([102]) == "Zg=="
    ensures Encode([102, 111]) == "Zm8="
    ensures Encode([102, 111, 111]) == "Zm9v"
    ensures Encode([102, 111, 111, 98]) == "Zm9vYg=="
    ensures Encode([102, 111, 111, 98, 97]) == "Zm9vYmE="
    ensures Encode([102, 111, 111, 98, 97, 114]) == "Zm9vYmFy"
  {
    assert EncodeTriple(102, 111, 111) == "Zm9v";
    assert Encode([98]) == "Yg==";
    assert Encode([98, 97]) == "YmE=";
    assert Encode([98, 97, 114]) == "YmFy";
  }
}
