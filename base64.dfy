/**
 * Base 64 encoding with the standard alphabet and `=` padding
 * (section 4 of RFC 4648): the model of the browser's `btoa` and
 * `atob` on bytes. Like `atob`, decoding does not insist that the
 * unused bits of the last group are zero.
 */
module Base64 {
  import opened Wrappers
  import opened Bytes

  /** A six-bit group, the value one base 64 character carries. */
  type sextet = x: int | 0 <= x < 64

  /** The character of value `v` in the alphabet of Table 1 of RFC 4648. */
  function Char(v: sextet): char
  {
    if v < 26 then ('A' as int + v) as char
    else if v < 52 then ('a' as int + (v - 26)) as char
    else if v < 62 then ('0' as int + (v - 52)) as char
    else if v == 62 then '+'
    else '/'
  }

  predicate IsAlphabet(c: char)
  {
    ('A' <= c <= 'Z') || ('a' <= c <= 'z') || ('0' <= c <= '9') || c == '+' || c == '/'
  }

  /** The value of an alphabet character: the inverse of `Char`. */
  function Index(c: char): (v: sextet)
    requires IsAlphabet(c)
    ensures Char(v) == c
  {
    if 'A' <= c <= 'Z' then c as int - 'A' as int
    else if 'a' <= c <= 'z' then c as int - 'a' as int + 26
    else if '0' <= c <= '9' then c as int - '0' as int + 52
    else if c == '+' then 62
    else 63
  }

  lemma CharInAlphabet(v: sextet)
    ensures IsAlphabet(Char(v)) && Index(Char(v)) == v
  {
  }

  /** Three bytes become four characters (24 bits as four sextets). */
  function EncodeTriple(b0: byte, b1: byte, b2: byte): string
  {
    [Char(b0 as int / 4),
     Char(b0 as int % 4 * 16 + b1 as int / 16),
     Char(b1 as int % 16 * 4 + b2 as int / 64),
     Char(b2 as int % 64)]
  }

  /** Encoding of a whole byte sequence; a final one or two bytes are padded with `=`. */
  function Encode(b: seq<byte>): (s: string)
    ensures |s| == (|b| + 2) / 3 * 4
    decreases |b|
  {
    if |b| == 0 then []
    else if |b| == 1 then
      [Char(b[0] as int / 4), Char(b[0] as int % 4 * 16), '=', '=']
    else if |b| == 2 then
      [Char(b[0] as int / 4), Char(b[0] as int % 4 * 16 + b[1] as int / 16),
       Char(b[1] as int % 16 * 4), '=']
    else EncodeTriple(b[0], b[1], b[2]) + Encode(b[3..])
  }

  /** The test vectors of section 10 of RFC 4648, "f" to "foobar". */
  lemma RfcTestVectors()
    ensures Encode([]) == ""
    ensures Encode([102]) == "Zg=="
    ensures Encode([102, 111]) == "Zm8="
    ensures Encode([102, 111, 111]) == "Zm9v"
    ensures Encode([102, 111, 111, 98]) == "Zm9vYg=="
    ensures Encode([102, 111, 111, 98, 97]) == "Zm9vYmE="
    ensures Encode([102, 111, 111, 98, 97, 114]) == "Zm9vYmFy"
  {
    var foo: seq<byte> := [102, 111, 111];
    assert EncodeTriple(102, 111, 111) == "Zm9v";
    assert Encode(foo) == "Zm9v" by { assert foo[3..] == []; }
    var foob: seq<byte> := [102, 111, 111, 98];
    assert Encode(foob) == "Zm9vYg==" by { assert foob[3..] == [98]; }
    var fooba: seq<byte> := [102, 111, 111, 98, 97];
    assert Encode(fooba) == "Zm9vYmE=" by { assert fooba[3..] == [98, 97]; }
    var foobar: seq<byte> := [102, 111, 111, 98, 97, 114];
    var bar: seq<byte> := [98, 97, 114];
    assert Encode(foobar) == "Zm9vYmFy" by {
      assert foobar[3..] == bar;
      assert EncodeTriple(98, 97, 114) == "YmFy";
      assert Encode(bar) == "YmFy" by { assert bar[3..] == []; }
    }
  }

  /** Four sextets back to three bytes. */
  function DecodeQuad(c0: sextet, c1: sextet, c2: sextet, c3: sextet): seq<byte>
  {
    [(c0 * 4 + c1 / 16) as byte, (c1 % 16 * 16 + c2 / 4) as byte, (c2 % 4 * 64 + c3) as byte]
  }

  /** The last group of four characters, which may carry one or two `=`. */
  function DecodeFinal(c0: char, c1: char, c2: char, c3: char): Option<seq<byte>>
  {
    if !IsAlphabet(c0) || !IsAlphabet(c1) then None
    else if c2 == '=' && c3 == '=' then
      Some([(Index(c0) * 4 + Index(c1) / 16) as byte])
    else if IsAlphabet(c2) && c3 == '=' then
      Some(DecodeQuad(Index(c0), Index(c1), Index(c2), 0)[..2])
    else if IsAlphabet(c2) && IsAlphabet(c3) then
      Some(DecodeQuad(Index(c0), Index(c1), Index(c2), Index(c3)))
    else None
  }

  /** A group of four alphabet characters, decoded to three bytes. */
  function DecodeGroup(q: string): Option<seq<byte>>
    requires |q| == 4
  {
    if IsAlphabet(q[0]) && IsAlphabet(q[1]) && IsAlphabet(q[2]) && IsAlphabet(q[3])
    then Some(DecodeQuad(Index(q[0]), Index(q[1]), Index(q[2]), Index(q[3])))
    else None
  }

  function DecodeGroups(s: string): Option<seq<byte>>
    requires |s| % 4 == 0
    decreases |s|
  {
    if |s| == 0 then Some([])
    else if |s| == 4 then DecodeFinal(s[0], s[1], s[2], s[3])
    else
      match DecodeGroup(s[..4])
      case None => None
      case Some(first) =>
        match DecodeGroups(s[4..])
        case None => None
        case Some(rest) => Some(first + rest)
  }

  /** Decoding; `None` is the `InvalidCharacterError` that `atob` throws. */
  function Decode(s: string): (r: Option<seq<byte>>)
    ensures r.Some? ==> |s| % 4 == 0
  {
    if |s| % 4 != 0 then None else DecodeGroups(s)
  }

  lemma TripleRoundTrip(b0: byte, b1: byte, b2: byte)
    ensures DecodeGroup(EncodeTriple(b0, b1, b2)) == Some([b0, b1, b2])
  {
    var x0, x1, x2 := b0 as int, b1 as int, b2 as int;
    var c0, c1, c2, c3 := x0 / 4, x0 % 4 * 16 + x1 / 16, x1 % 16 * 4 + x2 / 64, x2 % 64;
    CharInAlphabet(c0); CharInAlphabet(c1); CharInAlphabet(c2); CharInAlphabet(c3);
    QuadOfTriple(b0, b1, b2);
  }

  /** The arithmetic of a full group: the four sextets of three bytes give the bytes back. */
  lemma QuadOfTriple(b0: byte, b1: byte, b2: byte)
    ensures var x0, x1, x2 := b0 as int, b1 as int, b2 as int;
            DecodeQuad(x0 / 4, x0 % 4 * 16 + x1 / 16, x1 % 16 * 4 + x2 / 64, x2 % 64) == [b0, b1, b2]
  {
    var x0, x1, x2 := b0 as int, b1 as int, b2 as int;
    var c1, c2 := x0 % 4 * 16 + x1 / 16, x1 % 16 * 4 + x2 / 64;
    assert c1 / 16 == x0 % 4 && c1 % 16 == x1 / 16;
    assert c2 / 4 == x1 % 16 && c2 % 4 == x2 / 64;
  }

  lemma OneByteRoundTrip(b0: byte)
    ensures Decode(Encode([b0])) == Some([b0])
  {
    var x0 := b0 as int;
    var s := Encode([b0]);
    CharInAlphabet(x0 / 4); CharInAlphabet(x0 % 4 * 16);
    assert (x0 % 4 * 16) / 16 == x0 % 4;
    assert Decode(s) == DecodeFinal(s[0], s[1], s[2], s[3]);
  }

  lemma TwoBytesRoundTrip(b0: byte, b1: byte)
    ensures Decode(Encode([b0, b1])) == Some([b0, b1])
  {
    var x0, x1 := b0 as int, b1 as int;
    var s := Encode([b0, b1]);
    var c1 := x0 % 4 * 16 + x1 / 16;
    CharInAlphabet(x0 / 4); CharInAlphabet(c1); CharInAlphabet(x1 % 16 * 4);
    assert c1 / 16 == x0 % 4 && c1 % 16 == x1 / 16;
    assert (x1 % 16 * 4) / 4 == x1 % 16;
    var q := DecodeQuad(x0 / 4, c1, x1 % 16 * 4, 0);
    assert q[0] == b0 && q[1] == b1;
    assert Decode(s) == DecodeFinal(s[0], s[1], s[2], s[3]) == Some(q[..2]);
    assert q[..2] == [b0, b1];
  }

  lemma ThreeBytesRoundTrip(b0: byte, b1: byte, b2: byte)
    ensures Decode(Encode([b0, b1, b2])) == Some([b0, b1, b2])
  {
    var s := Encode([b0, b1, b2]);
    assert [b0, b1, b2][3..] == [];
    assert s == EncodeTriple(b0, b1, b2);
    TripleRoundTrip(b0, b1, b2);
    assert Decode(s) == DecodeFinal(s[0], s[1], s[2], s[3]);
  }

  /** A leading group of four alphabet characters decodes to three bytes before the rest. */
  lemma DecodeLeadingGroup(q: string, rest: string)
    requires |q| == 4 && DecodeGroup(q).Some?
    requires rest != [] && Decode(rest).Some?
    ensures Decode(q + rest) == Some(DecodeGroup(q).value + Decode(rest).value)
  {
    var s := q + rest;
    assert s[4..] == rest;
    assert s[..4] == q;
  }

  /** Decoding an encoding gives back the bytes (the round trip of `atob(btoa(s))`). */
  lemma {:induction false} DecodeEncode(b: seq<byte>)
    ensures Decode(Encode(b)) == Some(b)
    decreases |b|
  {
    if |b| <= 3 {
      ShortRoundTrip(b);
    } else {
      DecodeEncode(b[3..]);
      LongRoundTrip(b);
    }
  }

  /** The round trip for at most three bytes, a single group. */
  lemma ShortRoundTrip(b: seq<byte>)
    requires |b| <= 3
    ensures Decode(Encode(b)) == Some(b)
  {
    if |b| == 0 {
      assert b == [];
    } else if |b| == 1 {
      assert b == [b[0]];
      OneByteRoundTrip(b[0]);
    } else if |b| == 2 {
      assert b == [b[0], b[1]];
      TwoBytesRoundTrip(b[0], b[1]);
    } else {
      ThreeBytes(b);
      ThreeBytesRoundTrip(b[0], b[1], b[2]);
    }
  }

  lemma LongRoundTrip(b: seq<byte>)
    requires |b| > 3 && Decode(Encode(b[3..])) == Some(b[3..])
    ensures Decode(Encode(b)) == Some(b)
  {
    var q := EncodeTriple(b[0], b[1], b[2]);
    var rest := Encode(b[3..]);
    assert Encode(b) == q + rest;
    TripleRoundTrip(b[0], b[1], b[2]);
    DecodeLeadingGroup(q, rest);
    FirstThree(b);
  }

  lemma ThreeBytes(b: seq<byte>)
    requires |b| == 3
    ensures b == [b[0], b[1], b[2]]
  {
  }

  lemma FirstThree(b: seq<byte>)
    requires |b| >= 3
    ensures [b[0], b[1], b[2]] + b[3..] == b
  {
  }

  /** Different byte sequences have different encodings. */
  lemma EncodeInjective(a: seq<byte>, b: seq<byte>)
    requires Encode(a) == Encode(b)
    ensures a == b
  {
    DecodeEncode(a);
    DecodeEncode(b);
  }
}
