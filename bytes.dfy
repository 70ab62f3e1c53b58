/**
 * Octets and the byte form of text.
 *
 * PHP strings are byte strings; the model holds text as Dafny strings and,
 * where the client hands text to a byte-level routine (base64_encode), takes
 * its UTF-8 encoding.
 */
module Bytes {

  type Byte = x: int | 0 <= x < 256

  /** A byte that continues a multi-byte UTF-8 sequence: 10xxxxxx. */
  function Continuation(bits: int): Byte
    requires 0 <= bits < 64
  {
    0x80 + bits
  }

  /** The UTF-8 encoding of one Unicode scalar value. */
  function EncodeChar(c: char): (r: seq<Byte>)
    ensures 1 <= |r| <= 4
    ensures c as int < 0x80 <==> |r| == 1
    ensures |r| == 1 ==> r[0] == c as int
  {
    var n := c as int;
    if n < 0x80 then [n]
    else if n < 0x800 then [0xC0 + n / 64, Continuation(n % 64)]
    else if n < 0x10000 then [0xE0 + n / 4096, Continuation(n / 64 % 64), Continuation(n % 64)]
    else [0xF0 + n / 262144, Continuation(n / 4096 % 64), Continuation(n / 64 % 64), Continuation(n % 64)]
  }

  /** The UTF-8 encoding of a text, character by character. */
  function FromString(s: string): (r: seq<Byte>)
    ensures |s| <= |r| <= 4 * |s|
  {
    if s == [] then [] else EncodeChar(s[0]) + FromString(s[1..])
  }

  predicate IsAscii(s: string) {
    forall i | 0 <= i < |s| :: s[i] as int < 0x80
  }

  /** Encoding a concatenation is concatenating the encodings. */
  lemma {:induction false} FromStringAppend(a: string, b: string)
    ensures FromString(a + b) == FromString(a) + FromString(b)
  {
    if a == [] {
      assert a + b == b;
    } else {
      assert (a + b)[0] == a[0];
      assert (a + b)[1..] == a[1..] + b;
      FromStringAppend(a[1..], b);
    }
  }

  /** ASCII text is its own byte string: one byte per character, equal to its code. */
  lemma {:induction false} AsciiBytes(s: string)
    requires IsAscii(s)
    ensures |FromString(s)| == |s|
    ensures forall i | 0 <= i < |s| :: FromString(s)[i] == s[i] as int
  {
    if s != [] {
      AsciiBytes(s[1..]);
    }
  }
}
