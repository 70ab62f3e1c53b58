/**
 * The base 64 encoding of section 4 of RFC 4648: the standard alphabet
 * A-Z a-z 0-9 + /, with '=' padding the last group to four characters.
 *
 * Encode is what PHP's base64_encode does. Decode is its strict inverse
 * (canonical padding bits, no line breaks, no characters outside the
 * alphabet); the two lemmas at the end show that each undoes the other.
 */
module Base64 {
  import opened Bytes
  import opened Optional

  /** A 6-bit value, one character of the encoding. */
  type Sextet = x: int | 0 <= x < 64

  const Pad: char := '='

  /** The encoding alphabet: value v is the v-th character of the alphabet table. */
  function CharOf(v: Sextet): (c: char)
    ensures c != Pad
  {
    if v < 26 then ('A' as int + v) as char
    else if v < 52 then ('a' as int + (v - 26)) as char
    else if v < 62 then ('0' as int + (v - 52)) as char
    else if v == 62 then '+'
    else '/'
  }

  /** The value of an alphabet character; None for every other character, '=' included. */
  function ValueOf(c: char): (r: Option<Sextet>)
    ensures r.Some? ==> CharOf(r.value) == c
  {
    if 'A' <= c <= 'Z' then Some(c as int - 'A' as int)
    else if 'a' <= c <= 'z' then Some(c as int - 'a' as int + 26)
    else if '0' <= c <= '9' then Some(c as int - '0' as int + 52)
    else if c == '+' then Some(62)
    else if c == '/' then Some(63)
    else None
  }

  lemma ValueOfCharOf(v: Sextet)
    ensures ValueOf(CharOf(v)) == Some(v)
  {
  }

  // The three shapes of a final (or full) group of input bytes.

  function Quad3(a: Byte, b: Byte, c: Byte): string {
    [CharOf(a / 4), CharOf(a % 4 * 16 + b / 16), CharOf(b % 16 * 4 + c / 64), CharOf(c % 64)]
  }

  function Quad2(a: Byte, b: Byte): string {
    [CharOf(a / 4), CharOf(a % 4 * 16 + b / 16), CharOf(b % 16 * 4), Pad]
  }

  function Quad1(a: Byte): string {
    [CharOf(a / 4), CharOf(a % 4 * 16), Pad, Pad]
  }

  /** base64_encode: every three bytes become four characters; a short last group is padded. */
  function Encode(b: seq<Byte>): (s: string)
    ensures |s| == 4 * ((|b| + 2) / 3)
    ensures forall i | 0 <= i < |s| :: s[i] == Pad ==> i >= |s| - 2
    decreases |b|
  {
    if |b| == 0 then ""
    else if |b| == 1 then Quad1(b[0])
    else if |b| == 2 then Quad2(b[0], b[1])
    else Quad3(b[0], b[1], b[2]) + Encode(b[3..])
  }

  /** The bytes of one group of four characters; `last` says whether padding may appear. */
  function DecodeQuad(q: string, last: bool): (r: Option<seq<Byte>>)
    requires |q| == 4
  {
    match (ValueOf(q[0]), ValueOf(q[1]), ValueOf(q[2]), ValueOf(q[3]))
    case (Some(v0), Some(v1), Some(v2), Some(v3)) =>
      Some([v0 * 4 + v1 / 16, v1 % 16 * 16 + v2 / 4, v2 % 4 * 64 + v3])
    case (Some(v0), Some(v1), Some(v2), None) =>
      if last && q[3] == Pad && v2 % 4 == 0 then Some([v0 * 4 + v1 / 16, v1 % 16 * 16 + v2 / 4]) else None
    case (Some(v0), Some(v1), None, None) =>
      if last && q[2] == Pad && q[3] == Pad && v1 % 16 == 0 then Some([v0 * 4 + v1 / 16]) else None
    case _ => None
  }

  /** The strict inverse of Encode: None for any string Encode cannot produce. */
  function Decode(s: string): (r: Option<seq<Byte>>)
    decreases |s|
  {
    if |s| == 0 then Some([])
    else if |s| < 4 then None
    else
      match DecodeQuad(s[..4], |s| == 4)
      case None => None
      case Some(head) =>
        match Decode(s[4..])
        case None => None
        case Some(tail) => Some(head + tail)
  }

  /** The bit arithmetic of one group: splitting three bytes into sextets and joining them back. */
  lemma SplitJoin(a: Byte, b: Byte, c: Byte)
    ensures (a / 4) * 4 + (a % 4 * 16 + b / 16) / 16 == a
    ensures (a % 4 * 16 + b / 16) % 16 * 16 + (b % 16 * 4 + c / 64) / 4 == b
    ensures (b % 16 * 4 + c / 64) % 4 * 64 + c % 64 == c
    ensures (b % 16 * 4) % 4 == 0 && (a % 4 * 16) % 16 == 0
  {
    DivModOf(a % 4, b / 16, 16);
    DivModOf(b % 16, c / 64, 4);
  }

  lemma Quad3RoundTrip(a: Byte, b: Byte, c: Byte)
    ensures DecodeQuad(Quad3(a, b, c), false) == Some([a, b, c])
    ensures DecodeQuad(Quad3(a, b, c), true) == Some([a, b, c])
  {
    var v0, v1, v2, v3 := a / 4, a % 4 * 16 + b / 16, b % 16 * 4 + c / 64, c % 64;
    var q := Quad3(a, b, c);
    ValueOfCharOf(v0);
    ValueOfCharOf(v1);
    ValueOfCharOf(v2);
    ValueOfCharOf(v3);
    assert ValueOf(q[0]) == Some(v0) && ValueOf(q[1]) == Some(v1);
    assert ValueOf(q[2]) == Some(v2) && ValueOf(q[3]) == Some(v3);
    SplitJoin(a, b, c);
  }

  lemma Quad2RoundTrip(a: Byte, b: Byte)
    ensures DecodeQuad(Quad2(a, b), true) == Some([a, b])
  {
    var v0, v1, v2 := a / 4, a % 4 * 16 + b / 16, b % 16 * 4;
    var q := Quad2(a, b);
    ValueOfCharOf(v0);
    ValueOfCharOf(v1);
    ValueOfCharOf(v2);
    assert ValueOf(q[0]) == Some(v0) && ValueOf(q[1]) == Some(v1);
    assert ValueOf(q[2]) == Some(v2) && ValueOf(q[3]) == None;
    SplitJoin(a, b, 0);
  }

  lemma Quad1RoundTrip(a: Byte)
    ensures DecodeQuad(Quad1(a), true) == Some([a])
  {
    var v0, v1 := a / 4, a % 4 * 16;
    var q := Quad1(a);
    ValueOfCharOf(v0);
    ValueOfCharOf(v1);
    assert ValueOf(q[0]) == Some(v0) && ValueOf(q[1]) == Some(v1);
    assert ValueOf(q[2]) == None && ValueOf(q[3]) == None;
    SplitJoin(a, 0, 0);
  }

  /** A string of one group decodes as that group, padding allowed. */
  lemma DecodeOneQuad(q: string)
    requires |q| == 4
    ensures Decode(q) == DecodeQuad(q, true)
  {
    assert q[..4] == q;
    assert Decode(q[4..]) == Some([]);
    if DecodeQuad(q, true).Some? {
      assert DecodeQuad(q, true).value + [] == DecodeQuad(q, true).value;
    }
  }

  /** A longer string decodes as its first (unpadded) group followed by the rest. */
  lemma DecodeCons(q: string, rest: string)
    requires |q| == 4 && rest != []
    ensures Decode(q + rest) ==
      match (DecodeQuad(q, false), Decode(rest))
      case (Some(head), Some(tail)) => Some(head + tail)
      case _ => None
  {
    var s := q + rest;
    assert s[..4] == q;
    assert s[4..] == rest;
  }

  lemma DecodeEncode1(b: seq<Byte>)
    requires |b| == 1
    ensures Decode(Encode(b)) == Some(b)
  {
    Quad1RoundTrip(b[0]);
    DecodeOneQuad(Quad1(b[0]));
    assert b == [b[0]];
  }

  lemma DecodeEncode2(b: seq<Byte>)
    requires |b| == 2
    ensures Decode(Encode(b)) == Some(b)
  {
    Quad2RoundTrip(b[0], b[1]);
    DecodeOneQuad(Quad2(b[0], b[1]));
    assert b == [b[0], b[1]];
  }

  lemma DecodeEncode3(b: seq<Byte>)
    requires |b| == 3
    ensures Decode(Encode(b)) == Some(b)
  {
    var q := Quad3(b[0], b[1], b[2]);
    assert Encode(b) == q + Encode(b[3..]);
    assert Encode(b[3..]) == "";
    assert Encode(b) == q;
    Quad3RoundTrip(b[0], b[1], b[2]);
    DecodeOneQuad(q);
    assert b == [b[0], b[1], b[2]];
  }

  /** A leading full group followed by more: decode the group, then the rest. */
  lemma DecodeEncodeCons(b: seq<Byte>)
    requires |b| > 3
    requires Decode(Encode(b[3..])) == Some(b[3..])
    ensures Decode(Encode(b)) == Some(b)
  {
    var head, tail := [b[0], b[1], b[2]], b[3..];
    SplitHead(b);
    var q, rest := Quad3(b[0], b[1], b[2]), Encode(tail);
    assert rest != [] by {
      assert |tail| >= 1;
      assert (|tail| + 2) / 3 >= 1;
    }
    Quad3RoundTrip(b[0], b[1], b[2]);
    DecodeCons(q, rest);
    assert Decode(q + rest) == Some(head + tail);
    assert Encode(b) == q + rest;
  }

  lemma SplitHead(b: seq<Byte>)
    requires |b| >= 3
    ensures [b[0], b[1], b[2]] + b[3..] == b
  {
    assert b[..3] == [b[0], b[1], b[2]];
    assert b[..3] + b[3..] == b;
  }

  /** Decoding undoes encoding: base64_encode loses nothing. */
  lemma {:induction false} DecodeEncode(b: seq<Byte>)
    ensures Decode(Encode(b)) == Some(b)
    decreases |b|
  {
    if |b| == 1 {
      DecodeEncode1(b);
    } else if |b| == 2 {
      DecodeEncode2(b);
    } else if |b| == 3 {
      DecodeEncode3(b);
    } else if |b| > 3 {
      DecodeEncode(b[3..]);
      DecodeEncodeCons(b);
    }
  }

  /** Whatever decodes was produced by Encode from the decoded bytes. */
  lemma {:induction false} EncodeDecode(s: string)
    requires Decode(s).Some?
    ensures Encode(Decode(s).value) == s
    decreases |s|
  {
    if |s| > 0 {
      var q := s[..4];
      var head := DecodeQuad(q, |s| == 4).value;
      var tail := Decode(s[4..]).value;
      QuadReencodes(q, |s| == 4);
      EncodeDecode(s[4..]);
      if |s| == 4 {
        assert s[4..] == [] && tail == [];
        assert s == q;
      } else {
        assert |head| == 3;
        assert (head + tail)[3..] == tail;
        assert s == q + s[4..];
      }
    }
  }

  /** q * d + r splits back into q and r when 0 <= r < d. */
  lemma DivModOf(q: int, r: int, d: int)
    requires d == 4 || d == 16 || d == 64
    requires 0 <= r < d
    ensures (q * d + r) / d == q && (q * d + r) % d == r
  {
  }

  lemma Quad3Reencodes(v0: Sextet, v1: Sextet, v2: Sextet, v3: Sextet)
    ensures var a, b, c := v0 * 4 + v1 / 16, v1 % 16 * 16 + v2 / 4, v2 % 4 * 64 + v3;
      0 <= a < 256 && 0 <= b < 256 && 0 <= c < 256 &&
      Quad3(a, b, c) == [CharOf(v0), CharOf(v1), CharOf(v2), CharOf(v3)]
  {
    DivModOf(v0, v1 / 16, 4);
    DivModOf(v1 % 16, v2 / 4, 16);
    DivModOf(v2 % 4, v3, 64);
  }

  lemma Quad2Reencodes(v0: Sextet, v1: Sextet, v2: Sextet)
    requires v2 % 4 == 0
    ensures var a, b := v0 * 4 + v1 / 16, v1 % 16 * 16 + v2 / 4;
      0 <= a < 256 && 0 <= b < 256 &&
      Quad2(a, b) == [CharOf(v0), CharOf(v1), CharOf(v2), Pad]
  {
    DivModOf(v0, v1 / 16, 4);
    DivModOf(v1 % 16, v2 / 4, 16);
  }

  lemma Quad1Reencodes(v0: Sextet, v1: Sextet)
    requires v1 % 16 == 0
    ensures var a := v0 * 4 + v1 / 16;
      0 <= a < 256 && Quad1(a) == [CharOf(v0), CharOf(v1), Pad, Pad]
  {
    DivModOf(v0, v1 / 16, 4);
  }

  /** A group that decodes is the encoding of its bytes; full groups yield three bytes unless last. */
  lemma QuadReencodes(q: string, last: bool)
    requires |q| == 4 && DecodeQuad(q, last).Some?
    ensures var r := DecodeQuad(q, last).value;
      && 1 <= |r| <= 3
      && (!last ==> |r| == 3)
      && (|r| == 3 ==> Quad3(r[0], r[1], r[2]) == q)
      && (|r| == 2 ==> Quad2(r[0], r[1]) == q)
      && (|r| == 1 ==> Quad1(r[0]) == q)
  {
    var o0, o1, o2, o3 := ValueOf(q[0]), ValueOf(q[1]), ValueOf(q[2]), ValueOf(q[3]);
    assert o0.Some? && o1.Some?;
    var v0: int, v1: int := o0.value, o1.value;
    if o2.Some? && o3.Some? {
      var v2: int, v3: int := o2.value, o3.value;
      assert DecodeQuad(q, last).value == [v0 * 4 + v1 / 16, v1 % 16 * 16 + v2 / 4, v2 % 4 * 64 + v3];
      Quad3Reencodes(v0, v1, v2, v3);
      assert q == [CharOf(v0), CharOf(v1), CharOf(v2), CharOf(v3)];
    } else if o2.Some? {
      var v2: int := o2.value;
      assert last && q[3] == Pad && v2 % 4 == 0;
      assert DecodeQuad(q, last).value == [v0 * 4 + v1 / 16, v1 % 16 * 16 + v2 / 4];
      Quad2Reencodes(v0, v1, v2);
      assert q == [CharOf(v0), CharOf(v1), CharOf(v2), Pad];
    } else {
      assert last && q[2] == Pad && q[3] == Pad && v1 % 16 == 0;
      assert DecodeQuad(q, last).value == [v0 * 4 + v1 / 16];
      Quad1Reencodes(v0, v1);
      assert q == [CharOf(v0), CharOf(v1), Pad, Pad];
    }
  }

  /** The test vectors of section 10 of RFC 4648 for "f", "fo", "foo" and "foobar". */
  lemma RfcTestVectors()
    ensures Encode([102]) == "Zg=="
    ensures Encode([102, 111]) == "Zm8="
    ensures Encode([102, 111, 111]) == "Zm9v"
    ensures Encode([102, 111, 111, 98, 97, 114]) == "Zm9vYmFy"
  {
    assert [102, 111, 111, 98, 97, 114][3..] == [98, 97, 114];
  }
}
