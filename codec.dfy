/**
 * The record codec: `encryptObj` (signin.js:93-137) and `decrypt64`
 * (signin.js:139-175) run JSON, UTF-8, AES-CBC, iv framing and base 64 in
 * turn; `importKey` (signin.js:43-56) turns base 64 key text into a key.
 */
module Codec {
  import opened Wrappers
  import opened Bytes
  import opened Framing
  import opened Buffers
  import opened Platform
  import Base64

  /** Why a codec call rejects. */
  datatype Error =
    | InvalidCharacter  // `atob` met text that is not base 64
    | RangeError        // the token holds fewer than 16 bytes
    | TypeError         // no key was supplied to `crypto.subtle`
    | OperationError    // AES-CBC decryption failed
    | SyntaxError       // the decrypted text is not JSON

  /**
   * `encryptObj(obj, key)` with `iv` the 16 bytes `getRandomValues` drew:
   * `JSON.stringify`, UTF-8, AES-CBC under `key` and `iv`, then
   * `iv || ciphertext` in base 64. Without a key `crypto.subtle.encrypt`
   * rejects with a `TypeError`.
   */
  function EncryptObj(p: Primitives, obj: Json, key: Option<Key>, iv: Iv): (r: Result<string, Error>)
    ensures r.Ok? <==> key.Some?
  {
    match key
    case None => Err(TypeError)
    case Some(k) =>
      var plain := p.encodeUtf8(p.stringify(obj));
      Ok(BufferToBase64(iv + p.encryptCbc(k, iv, plain)))
  }

  /**
   * `decrypt64(b64, key)`: base 64 to bytes, split off the iv, AES-CBC
   * decryption, UTF-8 decoding (which never fails) and `JSON.parse`.
   */
  function Decrypt64(p: Primitives, b64: string, key: Option<Key>): (r: Result<Json, Error>)
    ensures key.None? ==> r.Err?
  {
    match Base64ToBytes(b64)
    case None => Err(InvalidCharacter)
    case Some(buf) =>
      match SplitIv(buf)
      case None => Err(RangeError)
      case Some((iv, data)) =>
        match key
        case None => Err(TypeError)
        case Some(k) =>
          match p.decryptCbc(k, iv, data)
          case None => Err(OperationError)
          case Some(plain) =>
            match p.parse(p.decodeUtf8(plain))
            case None => Err(SyntaxError)
            case Some(v) => Ok(v)
  }

  /**
   * The stored payload of a remote item: an object whose `encrypted`
   * property holds the token (signin.js:383).
   */
  function Envelope(token: string): Json
  {
    JObj(map["encrypted" := JStr(token)])
  }

  /** `data.encrypted` when it is a string; anything else cannot be decoded. */
  function EncryptedToken(data: Json): (r: Option<string>)
  {
    match data
    case JObj(f) => if "encrypted" in f && f["encrypted"].JStr? then Some(f["encrypted"].s) else None
    case _ => None
  }

  lemma EnvelopeRoundTrip(token: string)
    ensures EncryptedToken(Envelope(token)) == Some(token)
  {
  }

  /** Decrypting what was encrypted under the same key gives back the value, whatever the iv. */
  lemma EncryptDecryptRoundTrip(p: Primitives, obj: Json, k: Key, iv: Iv)
    requires Lawful(p)
    ensures EncryptObj(p, obj, Some(k), iv).Ok?
    ensures Decrypt64(p, EncryptObj(p, obj, Some(k), iv).value, Some(k)) == Ok(obj)
  {
    var plain := p.encodeUtf8(p.stringify(obj));
    var cipher := p.encryptCbc(k, iv, plain);
    BufferRoundTrip(iv + cipher);
    SplitJoin(iv, cipher);
  }

  /** Two encryptions with different ivs give different tokens. */
  lemma DistinctIvsDistinctTokens(p: Primitives, obj: Json, k: Key, iv1: Iv, iv2: Iv)
    requires iv1 != iv2
    ensures EncryptObj(p, obj, Some(k), iv1) != EncryptObj(p, obj, Some(k), iv2)
  {
    var plain := p.encodeUtf8(p.stringify(obj));
    var b1 := iv1 + p.encryptCbc(k, iv1, plain);
    var b2 := iv2 + p.encryptCbc(k, iv2, plain);
    assert b1[..IvLen] == iv1 && b2[..IvLen] == iv2;
    if Base64.Encode(b1) == Base64.Encode(b2) {
      Base64.EncodeInjective(b1, b2);
    }
  }

  /** A token that decodes to fewer than 16 bytes is rejected with a `RangeError`. */
  lemma ShortTokenRejected(p: Primitives, b64: string, key: Option<Key>)
    requires Base64.Decode(b64).Some? && |Base64.Decode(b64).value| < IvLen
    ensures Decrypt64(p, b64, key) == Err(RangeError)
  {
    Base64ToBytesIsDecode(b64);
  }

  /** Key lengths AES accepts for a raw import: 128, 192 and 256 bits. */
  predicate IsKeyLength(n: nat)
  {
    n == 16 || n == 24 || n == 32
  }

  /**
   * `importKey(key64)`: `base64ToBuffer`, then a raw AES-CBC import. A
   * missing key (`null`) reaches `atob` as the text `"null"`. Undecodable
   * text or a wrong length rejects (`None`).
   */
  function ImportKey(key64: Option<string>): (r: Option<Key>)
    ensures r.Some? ==> IsKeyLength(|r.value.raw|)
    ensures r.Some? <==> var raw := Base64ToBytes(if key64.None? then "null" else key64.value);
                         raw.Some? && IsKeyLength(|raw.value|)
  {
    match Base64ToBytes(if key64.None? then "null" else key64.value)
    case None => None
    case Some(raw) => if IsKeyLength(|raw|) then Some(Key(raw)) else None
  }

  /** A key of an accepted length, stored as base 64, imports as that key. */
  lemma ImportEncodedKey(raw: seq<byte>)
    requires IsKeyLength(|raw|)
    ensures ImportKey(Some(BufferToBase64(raw))) == Some(Key(raw))
  {
    BufferRoundTrip(raw);
  }

  /** With no stored key the import fails: `"null"` decodes to three bytes. */
  lemma ImportMissingKeyFails()
    ensures ImportKey(None) == None
  {
    var s := "null";
    Base64ToBytesIsDecode(s);
    assert Base64.IsAlphabet(s[0]) && Base64.IsAlphabet(s[1]) && Base64.IsAlphabet(s[2]) && Base64.IsAlphabet(s[3]);
    assert Base64.Decode(s) == Base64.DecodeFinal(s[0], s[1], s[2], s[3]);
    assert |Base64.Decode(s).value| == 3;
  }
}
