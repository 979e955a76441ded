/**
 * `base64ToBuffer` and `bufferToBase64` (signin.js:58-91): base 64 text
 * to a `Uint8Array` and back, through a binary string and the browser's
 * `atob`/`btoa`.
 */
module Buffers {
  import opened Wrappers
  import opened Bytes
  import Base64

  /**
   * `btoa`: a string whose characters all have codes below 256 is read as
   * bytes and encoded; any other character is an `InvalidCharacterError`
   * (`None`).
   */
  function Btoa(s: string): (r: Option<string>)
    ensures r.Some? <==> IsBinaryString(s)
  {
    if IsBinaryString(s) then Some(Base64.Encode(BinaryStringToBytes(s))) else None
  }

  /** `atob`: decoded bytes as a binary string; `None` is an `InvalidCharacterError`. */
  function Atob(s: string): (r: Option<string>)
    ensures r.Some? <==> Base64.Decode(s).Some?
  {
    match Base64.Decode(s)
    case None => None
    case Some(b) => Some(BytesToBinaryString(b))
  }

  /**
   * `bufferToBase64`: `btoa(bufferToBinaryString(arr))`. The binary string
   * of bytes never makes `btoa` throw, so the result is a plain string.
   */
  function BufferToBase64(arr: seq<byte>): (r: string)
    ensures Btoa(BytesToBinaryString(arr)) == Some(r)
    ensures |r| == (|arr| + 2) / 3 * 4
  {
    BytesRoundTrip(arr);
    Base64.Encode(arr)
  }

  /** The bytes `base64ToBuffer` returns; `None` when `atob` throws. */
  function Base64ToBytes(s: string): Option<seq<byte>>
  {
    match Atob(s)
    case None => None
    case Some(binstr) => Some(BinaryStringToBytes(binstr))
  }

  /** `base64ToBuffer`: `atob`, then `binaryStringToBuffer`. */
  method Base64ToBuffer(base64: string) returns (r: Option<array<byte>>)
    ensures r.Some? <==> Base64.Decode(base64).Some?
    ensures r.Some? ==> Some(r.value[..]) == Base64.Decode(base64)
  {
    var binstr := Atob(base64);
    if binstr.None? {
      return None;
    }
    var buf := BinaryStringToBuffer(binstr.value);
    BytesRoundTrip(Base64.Decode(base64).value);
    r := Some(buf);
  }

  /** `base64ToBuffer(bufferToBase64(bytes))` gives back the bytes. */
  lemma BufferRoundTrip(arr: seq<byte>)
    ensures Base64ToBytes(BufferToBase64(arr)) == Some(arr)
  {
    Base64.DecodeEncode(arr);
    BytesRoundTrip(arr);
  }

  /** The bytes `base64ToBuffer` returns are exactly what `atob` decodes. */
  lemma Base64ToBytesIsDecode(s: string)
    ensures Base64ToBytes(s) == Base64.Decode(s)
  {
    match Base64.Decode(s)
    case None =>
    case Some(b) => BytesRoundTrip(b);
  }
}
