/**
 * Bytes and JavaScript "binary strings": a binary string holds one
 * character per byte, the character whose code is that byte
 * (signin.js:58-91, the helpers `binaryStringToBuffer` and
 * `bufferToBinaryString`).
 */
module Bytes {

  /** One element of a `Uint8Array`. */
  newtype byte = x: int | 0 <= x < 256

  /** True when every character of `s` has a code below 256. */
  predicate IsBinaryString(s: string)
  {
    forall i :: 0 <= i < |s| ==> s[i] as int < 256
  }

  /** `bufferToBinaryString`: `String.fromCharCode` of every byte, joined. */
  function BytesToBinaryString(b: seq<byte>): (s: string)
    ensures IsBinaryString(s)
  {
    seq(|b|, i requires 0 <= i < |b| => b[i] as int as char)
  }

  /**
   * The bytes `binaryStringToBuffer` writes: `charCodeAt(0)` of each
   * character, stored into a `Uint8Array`, which keeps it modulo 256.
   */
  function BinaryStringToBytes(s: string): (b: seq<byte>)
  {
    seq(|s|, i requires 0 <= i < |s| => (s[i] as int % 256) as byte)
  }

  /** `binaryStringToBuffer`, which fills a fresh `Uint8Array` index by index. */
  method BinaryStringToBuffer(binstr: string) returns (buf: array<byte>)
    ensures buf[..] == BinaryStringToBytes(binstr)
  {
    buf := new byte[|binstr|];
    for i := 0 to |binstr|
      invariant forall k :: 0 <= k < i ==> buf[k] == (binstr[k] as int % 256) as byte
    {
      buf[i] := (binstr[i] as int % 256) as byte;
    }
  }

  /** Reading a binary string back gives the bytes it was made from. */
  lemma BytesRoundTrip(b: seq<byte>)
    ensures BinaryStringToBytes(BytesToBinaryString(b)) == b
  {
  }

  /** A binary string is the image of the bytes read from it. */
  lemma BinaryStringRoundTrip(s: string)
    requires IsBinaryString(s)
    ensures BytesToBinaryString(BinaryStringToBytes(s)) == s
  {
    var t := BytesToBinaryString(BinaryStringToBytes(s));
    assert |t| == |s|;
    forall i | 0 <= i < |s| ensures t[i] == s[i] {
      assert t[i] as int == s[i] as int;
    }
  }
}
