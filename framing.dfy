/**
 * The `iv || ciphertext` layout of an encrypted token: `joinIvAndData`
 * (signin.js:98-107) and `separateIvFromData` (signin.js:143-154).
 */
module Framing {
  import opened Wrappers
  import opened Bytes

  /** "the IV is always 16 bytes" (signin.js:95, 141). */
  const IvLen: nat := 16

  type Iv = s: seq<byte> | |s| == IvLen witness seq(IvLen, _ => 0)

  /**
   * What `separateIvFromData` computes: the first 16 bytes and the rest.
   * A shorter buffer makes `new Uint8Array(buf.length - 16)` throw a
   * `RangeError` (`None`).
   */
  function SplitIv(buf: seq<byte>): (r: Option<(Iv, seq<byte>)>)
    ensures r.Some? <==> |buf| >= IvLen
    ensures r.Some? ==> r.value.0 + r.value.1 == buf
  {
    if |buf| < IvLen then None else Some((buf[..IvLen], buf[IvLen..]))
  }

  /** Splitting a joined buffer gives back the iv and the data. */
  lemma SplitJoin(iv: Iv, data: seq<byte>)
    ensures SplitIv(iv + data) == Some((iv, data))
  {
    assert (iv + data)[..IvLen] == iv;
    assert (iv + data)[IvLen..] == data;
  }

  /** `joinIvAndData`: a buffer of `iv.length + data.length` bytes, iv first. */
  method JoinIvAndData(iv: array<byte>, data: array<byte>) returns (buf: array<byte>)
    requires iv.Length == IvLen
    ensures buf[..] == iv[..] + data[..]
    ensures SplitIv(buf[..]) == Some((iv[..], data[..]))
  {
    buf := new byte[iv.Length + data.Length];
    for i := 0 to iv.Length
      invariant forall k :: 0 <= k < i ==> buf[k] == iv[k]
    {
      buf[i] := iv[i];
    }
    for i := 0 to data.Length
      invariant forall k :: 0 <= k < IvLen ==> buf[k] == iv[k]
      invariant forall k :: 0 <= k < i ==> buf[IvLen + k] == data[k]
    {
      buf[IvLen + i] := data[i];
    }
    assert buf[..] == iv[..] + data[..];
    SplitJoin(iv[..], data[..]);
  }

  datatype Parts = Parts(iv: array<byte>, data: array<byte>)

  /**
   * `separateIvFromData`: bytes before offset 16 go to a 16-byte `iv`,
   * the others to `data`; a buffer shorter than 16 bytes is a `RangeError`.
   */
  method SeparateIvFromData(buf: array<byte>) returns (r: Option<Parts>)
    ensures r.Some? <==> buf.Length >= IvLen
    ensures r.Some? ==> r.value.iv.Length == IvLen
    ensures r.Some? ==> SplitIv(buf[..]) == Some((r.value.iv[..], r.value.data[..]))
  {
    if buf.Length < IvLen {
      return None;
    }
    var iv := new byte[IvLen];
    var data := new byte[buf.Length - IvLen];
    for i := 0 to buf.Length
      invariant forall k :: 0 <= k < i && k < IvLen ==> iv[k] == buf[k]
      invariant forall k :: IvLen <= k < i ==> data[k - IvLen] == buf[k]
    {
      if i < IvLen {
        iv[i] := buf[i];
      } else {
        data[i - IvLen] := buf[i];
      }
    }
    assert iv[..] == buf[..IvLen];
    assert data[..] == buf[IvLen..];
    r := Some(Parts(iv, data));
  }
}
