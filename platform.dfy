/**
 * The browser facilities the sync engine relies on but does not
 * implement: `JSON.stringify`/`JSON.parse`, `TextEncoder`/`TextDecoder`,
 * AES-CBC from `crypto.subtle`, and `new Date(string)`. They are carried
 * as functions in a `Primitives` value; `Lawful` states the round trips
 * the engine depends on.
 */
module Platform {
  import opened Wrappers
  import opened Bytes
  import opened Framing
  import opened Watermark

  /** A parsed JSON value: what `JSON.parse` returns and `JSON.stringify` accepts. */
  datatype Json =
    | JNull
    | JBool(b: bool)
    | JNum(n: int)
    | JStr(s: string)
    | JObj(fields: Fields)

  /** The own properties of a JavaScript object, such as a post. */
  type Fields = map<string, Json>

  /** A property read: `None` is `undefined`. */
  function Field(f: Fields, name: string): Option<Json>
  {
    if name in f then Some(f[name]) else None
  }

  /** JavaScript truthiness of a property value. */
  predicate Truthy(v: Option<Json>)
  {
    match v
    case None => false
    case Some(JNull) => false
    case Some(JBool(b)) => b
    case Some(JNum(n)) => n != 0
    case Some(JStr(s)) => s != ""
    case Some(JObj(_)) => true
  }

  /** An imported AES key (raw key material of an accepted length). */
  datatype Key = Key(raw: seq<byte>)

  datatype Primitives = Primitives(
    stringify: Json -> string,
    parse: string -> Option<Json>,
    encodeUtf8: string -> seq<byte>,
    decodeUtf8: seq<byte> -> string,
    encryptCbc: (Key, Iv, seq<byte>) -> seq<byte>,
    decryptCbc: (Key, Iv, seq<byte>) -> Option<seq<byte>>,
    parseDate: string -> TimeValue)

  /**
   * The laws assumed of the platform: JSON and UTF-8 round-trip, AES-CBC
   * decryption under the same key and iv undoes encryption, and a parsed
   * date is a valid time value or NaN.
   */
  ghost predicate Lawful(p: Primitives)
  {
    && (forall v :: p.parse(p.stringify(v)) == Some(v))
    && (forall s :: p.decodeUtf8(p.encodeUtf8(s)) == s)
    && (forall k, iv, m :: p.decryptCbc(k, iv, p.encryptCbc(k, iv, m)) == Some(m))
    && (forall s :: p.parseDate(s).Ms? ==> -MaxTime <= p.parseDate(s).ms <= MaxTime)
  }
}
