# bliss end-to-end encrypted sync, modelled in Dafny

This project models the sync engine of the bliss notes client (`signin.js`).
Once a user is signed in, `doStuffWithUser` runs one sync:

1. It reads the watermark `bliss:last-sync` from `localStorage`.
2. It fetches the remote items updated since then.
3. It obtains the AES-CBC key (`bliss:enc-key`): it imports the stored key, generates one, or prompts for one.
4. It pulls: each item is decrypted, type-checked, stamped with its remote id and update time, and saved to `PostModel`. Each merged item feeds the running maximum of the watermark.
5. It stores the new watermark.
6. It pushes: `Post._saveHook` runs for every local post in `PostModel.ids()` order. Each unsynced post is encrypted and `POST`ed.

Records travel as a token. A token is the base 64 text of `iv || ciphertext`, where the iv is 16 random bytes and the ciphertext is AES-CBC of the UTF-8 text of `JSON.stringify(post)`. The token is wrapped as `{"encrypted": token}`, JSON-encoded, and sent as the `data` string of the request body, which is itself JSON.

Modules, one per concern:

- `Bytes`: the `binaryStringToBuffer`/`bufferToBinaryString` helpers.
- `Base64`: RFC 4648 base 64, the encoding of the browser's `btoa`/`atob`.
- `Buffers`: `btoa`, `atob`, `base64ToBuffer` and `bufferToBase64`.
- `Framing`: `joinIvAndData` and `separateIvFromData`.
- `Watermark`: `parseInt`, `Date` time values and the decimal text written back.
- `Platform`: JSON values, and the browser primitives as abstract functions with their round-trip laws (`Lawful`).
- `Codec`: `encryptObj`, `decrypt64` and `importKey`.
- `Stores`: `localStorage`, `PostModel` and the remote create endpoint, as classes.
- `KeyGate`: the key-acquisition logic.
- `Pull`: the reconciliation loop.
- `Push`: the save hook and the `reduce` chain.
- `Session`: the whole of `doStuffWithUser`.

The model follows the code as written, including where it departs from what its authors evidently meant:

- Unparsable JSON in an item's `data` aborts the whole pull. The `catch` block logs an undeclared `err`, and reading it throws a `ReferenceError`. So the item is not skipped (`Pull.Classify`, `Pull.AbortedIff`).
- An item that decrypts to `null`, a number, a string or a boolean also aborts the pull. Reading `_type` of `null` throws, and in strict mode so does assigning `sync_id` to a primitive.
- After an upload the hook sets `sync_id` to `resp.json().uuid`. That is the `uuid` of a `Promise`, so `undefined`. The post is never saved again, so it stays unsynced (`Push.HookNeverMarksSynced`).
- A key generated for a new account is stored but not imported. The sync goes on with no key, and the push throws at the first pending post (`KeyGate.GeneratedKeyLeftUnimported`, `Session.FirstSyncUploadsNothing`).
- The prompt loop tests only whether the key text is empty. Stored key text that fails to import is kept without a prompt (`KeyGate.InvalidStoredKeySkipsPrompt`).
- A missing key reaches `atob` as the text `"null"`. That text decodes to three bytes, which is not a valid key length (`Codec.ImportMissingKeyFails`).
- An invalid watermark date makes `toISOString` throw before the fetch (`Session.Sync`, outcome `InvalidWatermark`). This happens when the stored number is beyond ±8.64e15 ms.

In these places the code does not do what its authors evidently meant, and the model follows the code:

- Malformed items are meant to be skipped; unparsable item data aborts the pull instead.
- Pushed posts are meant to receive their remote id; they are neither given it nor saved again.
- A missing key is meant to be generated or asked for; a generated key is never imported.
- A failed key import is reported with `window.alert`, and the sync goes on without a key.

## Model

| member | source | states |
|---|---|---|
| Bytes.BytesToBinaryString | signin.js:80-88 | the binary string of a buffer has only characters below code 256 |
| Bytes.BinaryStringToBuffer | signin.js:59-73 | the buffer holds `charCodeAt(0)` of every character, reduced modulo 256 by the `Uint8Array`, index by index |
| Bytes.BytesRoundTrip | signin.js:59-88 | reading back the binary string of a buffer gives the buffer |
| Bytes.BinaryStringRoundTrip | signin.js:59-88 | a binary string is the string of the bytes read from it |
| Base64.Index | signin.js:74 | the value of an alphabet character is the inverse of the alphabet |
| Base64.Encode | signin.js:90 | base 64 of `n` bytes has `4 * ceil(n / 3)` characters |
| Base64.Decode | signin.js:74 | only text whose length is a multiple of 4 decodes |
| Base64.TripleRoundTrip | signin.js:74 | four characters encoding three bytes decode to those bytes |
| Base64.DecodeEncode | signin.js:58-91 | decoding the encoding of any byte sequence gives it back |
| Base64.EncodeInjective | signin.js:90 | different byte sequences have different encodings |
| Base64.RfcTestVectors | signin.js:90 | the encodings of "", "f", "fo", "foo", "foob", "fooba" and "foobar" are the test vectors of section 10 of RFC 4648 |
| Buffers.Btoa | signin.js:90 | `btoa` succeeds exactly on strings whose characters are all below 256 |
| Buffers.Atob | signin.js:74 | `atob` succeeds exactly on valid base 64 |
| Buffers.BufferToBase64 | signin.js:79-91 | `btoa` of the buffer's binary string never throws, and the text has the base 64 length |
| Buffers.Base64ToBuffer | signin.js:58-77 | the returned buffer is exactly the decoded bytes, and the call throws exactly when the text is not base 64 |
| Buffers.BufferRoundTrip | signin.js:58-91 | `base64ToBuffer(bufferToBase64(b))` is `b` |
| Buffers.Base64ToBytesIsDecode | signin.js:58-77 | the bytes of `base64ToBuffer` are the base 64 decoding of its input |
| Framing.SplitIv | signin.js:143-154 | a split exists exactly for buffers of at least 16 bytes, and its parts concatenate to the buffer |
| Framing.SplitJoin | signin.js:143-154 | splitting `iv + data` gives back `iv` and `data` |
| Framing.JoinIvAndData | signin.js:98-107 | the joined buffer is `iv` followed by `data`, and it splits back into them |
| Framing.SeparateIvFromData | signin.js:143-154 | the call fails exactly on buffers shorter than 16 bytes; otherwise the iv has 16 bytes and the parts are the split of the buffer |
| Watermark.TimeClip | signin.js:272-274 | `new Date(n)` is valid exactly within ±8.64e15 ms, and then holds `n` |
| Watermark.Digits | signin.js:363 | the decimal text of a time value is a non-empty run of digits |
| Watermark.ParseInt | signin.js:273 | after leading white space and an optional sign, `parseInt` yields a number exactly when a decimal digit follows, and `NaN` otherwise |
| Watermark.FormatTime | signin.js:363 | the stored text is `"NaN"` exactly for an invalid date; otherwise it is a minus sign, present exactly for negative times, followed by decimal digits |
| Watermark.ReadWatermark | signin.js:272-274 | text that `parseInt` rejects reads as time 0, and a valid read is within the date range |
| Watermark.DigitsValueOfDigits | signin.js:363 | the value of the decimal text of `n` is `n` |
| Watermark.ParseIntOfDigits | signin.js:273 | `parseInt` of an optional minus sign and digits is their signed value |
| Watermark.WatermarkRoundTrip | signin.js:272-274 | the text stored for a time value reads back as that time value, and `"NaN"` reads back as 0 |
| Watermark.MissingWatermarkIsZero | signin.js:272-274 | with no stored watermark the pull starts from time 0 |
| Codec.EncryptObj | signin.js:93-137 | encryption yields a token exactly when a key is given; without one it rejects |
| Codec.Decrypt64 | signin.js:139-175 | decryption without a key always rejects |
| Codec.EnvelopeRoundTrip | signin.js:331 | the `encrypted` property of the envelope `{encrypted: token}` is the token |
| Codec.EncryptDecryptRoundTrip | signin.js:93-175 | under lawful primitives, `decrypt64(encryptObj(obj, k), k)` is `obj` for every iv |
| Codec.DistinctIvsDistinctTokens | signin.js:109-123 | encryptions of the same object with different ivs give different tokens |
| Codec.ShortTokenRejected | signin.js:143-145 | a token of fewer than 16 bytes rejects with a `RangeError` |
| Codec.ImportKey | signin.js:43-56 | a key is imported exactly when the text decodes to 16, 24 or 32 bytes |
| Codec.ImportEncodedKey | signin.js:43-56 | a key of an accepted length, stored as base 64, imports as that key |
| Codec.ImportMissingKeyFails | signin.js:290-291 | with no stored key text the import fails |
| Stores.LocalStorage.GetItem | signin.js:290 | an item is returned exactly when it is stored, and it is the stored text |
| Stores.LocalStorage.SetItem | signin.js:301 | the item is replaced, and nothing else changes |
| Stores.Lookup | signin.js:394 | `getOrCreate` returns the stored post, or a post that carries the id |
| Stores.PostModel.Ids | signin.js:392 | `ids()` lists exactly the stored ids |
| Stores.PostModel.GetOrCreate | signin.js:394 | `getOrCreate(id)` returns the stored post for a known id, and otherwise a new post carrying only that id as its `uuid` |
| Stores.PostModel.Save | signin.js:360 | the post is upserted under its `uuid`; a new id is appended to the order; ids stay distinct |
| Stores.RemoteStore.Create | signin.js:375-386 | a reachable server records the body; otherwise the call throws and nothing is recorded |
| KeyGate.FirstNonEmpty | signin.js:303-307 | the prompt loop stops at the first non-empty answer, and every earlier answer is empty |
| KeyGate.PromptLoop | signin.js:303-307 | the prompt loop's result is its specification `PromptOutcome` |
| KeyGate.AcquireKey | signin.js:290-308 | the gate's result is `KeyGateOutcome`, and `localStorage` changes only by the generated key |
| KeyGate.GeneratesOnlyForEmptyRemote | signin.js:297-302 | a key is generated exactly when the import fails and the remote list is empty, and the generated text imports as that key |
| KeyGate.GeneratedKeyLeftUnimported | signin.js:297-302 | after a key is generated the gate holds the key text but no key |
| KeyGate.InvalidStoredKeySkipsPrompt | signin.js:303 | stored key text that fails to import is kept with no prompt and no key |
| KeyGate.MissingKeyWithRemoteItemsPrompts | signin.js:303-307 | with remote items and no key text, the gate waits exactly while all answers are empty, then imports the first non-empty one |
| KeyGate.KeyMatchesKeyText | signin.js:291-305 | whenever the gate ends with a key, it is the import of the key text it ends with |
| Pull.Classify | signin.js:319-361 | unparsable item data aborts, no key means no merge, and a merged post carries the remote stamps, the remote time and no foreign `_type` |
| Pull.ForeignType | signin.js:339 | a post of foreign type has a `_type` other than `"post"`, and every non-empty string `_type` other than `"post"` is foreign |
| Pull.Stamp | signin.js:355-356 | the stamped post has `sync_id` set to the item's uuid and `synced_at` to its update time |
| Pull.StampKeepsOtherFields | signin.js:355-356 | stamping adds only `sync_id` and `synced_at`, and every other property of the post is kept |
| Pull.MissingTokenIsolated | signin.js:329-338 | a payload without a string `encrypted` property is skipped, and the pull goes on as if the item were absent |
| Pull.DecryptFailureIsolated | signin.js:329-338 | a token that fails to decrypt is skipped, and the pull goes on as if the item were absent |
| Pull.ForeignTypeIsolated | signin.js:339-343 | a decrypted object of foreign `_type` is skipped, and the pull goes on as if the item were absent |
| Pull.NonObjectAborts | signin.js:339-356 | a token that decrypts to something other than an object throws: the pull aborts there and later items change nothing |
| Pull.DecryptedPostAccepted | signin.js:339-360 | a decrypted object of no foreign `_type` is merged, stamped, with the time of the item's update |
| Pull.PullItems | signin.js:319-361 | the loop's watermark, saved posts and abort flag are those of the fold `Run` over the items, and `ids()` becomes the order `RunOrder` |
| Pull.PullStep | signin.js:320-360 | one pass of the loop body has the effect of the item's `Classify` step on the watermark, the posts and the abort flag, and appends a newly merged id to `ids()` |
| Pull.RunOrder | signin.js:360 | the ids stored before the pull keep their places at the front of `ids()` |
| Pull.RunOrderLists | signin.js:360 | after the pull `ids()` lists each id of the saved posts exactly once |
| Pull.AbortedOrderStops | signin.js:324-325 | once an item has thrown, later items leave `ids()` alone |
| Pull.AbortedRunStops | signin.js:324-325 | once an item has thrown, later items change nothing |
| Pull.AbortedIff | signin.js:319-361 | the pull throws exactly when some item classifies as an abort |
| Pull.WatermarkBounds | signin.js:351-353 | an invalid start date stays invalid; a valid one never decreases and ends at or after every merged item's time |
| Pull.WatermarkAttained | signin.js:351-353 | the final watermark is the start value or the time of a merged item |
| Pull.UntouchedPostKept | signin.js:355-360 | a post id that no merged item carries keeps its stored post, or stays absent |
| Pull.LastMergedWins | signin.js:355-360 | the saved post under an id is the one from the last merged item with that id |
| Pull.SkipIsolation | signin.js:331-343 | a skipped item has no effect on the pull |
| Pull.PullAcceptsPushedPost | signin.js:328-361 | an object encrypted under `k` and wrapped as the push wraps it is merged by a pull holding `k`, stamped |
| Push.PlanHook | signin.js:367-384 | the hook skips exactly the posts with a truthy `sync_id`, and throws exactly for the others when there is no key |
| Push.RequestBody | signin.js:381-383 | under lawful JSON the body's `data` property is the JSON text of `{encrypted: token}`, which parses back to that envelope |
| Push.SaveHook | signin.js:367-389 | success, the bodies received and the post's final fields follow `PlanHook` and the server's reachability |
| Push.PushAll | signin.js:392-396 | the bodies sent and the abort flag are those of the chain `PushRun` over `ids()` |
| Push.PushNext | signin.js:392-396 | one callback extends the chain by the hook for its id |
| Push.AbortedPushStops | signin.js:392-395 | once a hook has thrown, later ids change nothing |
| Push.OpenRequestBody | signin.js:381-383 | a request body opens, under the same key, to the object it sealed |
| Push.PushSendsPending | signin.js:367-396 | with a key and a reachable server, every pending post is uploaded in `ids()` order, and each body opens to that post typed `"post"` |
| Push.PushStalls | signin.js:367-396 | without a key or a server nothing is uploaded, and the chain throws exactly when a post is pending |
| Push.HookNeverMarksSynced | signin.js:387 | the hook never leaves a post it did not skip with a truthy `sync_id` |
| Session.Sync | signin.js:264-397 | each outcome, and the final `localStorage`, posts, `ids()` order and received bodies, are given by the read watermark, `KeyGateOutcome`, `Run`, `RunOrder` and `PushRun`; a sync that stops before the pull leaves the posts and their order alone |
| Session.FirstSyncUploadsNothing | signin.js:297-302 | on the first sync of a new account the push has no key, uploads nothing, and throws exactly when a post is pending |
| Session.OpenedBodyPulls | signin.js:319-343 | a body that opens to a post-typed object is merged by a pull holding the same key |
| Session.UploadsPullBack | signin.js:367-396 | every uploaded body, served back as an item's `data`, is merged by the next keyed pull as the pending post in the same position |
| Session.StoredWatermarkReadsBack | signin.js:351-363 | the watermark a completed pull stores reads back as the same valid time, no earlier than the start |
| Session.PulledPostsNotPushedAgain | signin.js:355-370 | a post merged from an item with a non-empty uuid is skipped by the next push |

## Left out

- The browser's cryptography, `JSON`, `TextEncoder`/`TextDecoder` and `Date` parsing are not modelled. They are the abstract functions of `Platform.Primitives`. Their round-trip laws are the predicate `Platform.Lawful`, required by the lemmas that need them.
- `Platform.Json` has no arrays and only integer numbers. Posts are objects, and nothing in the sync logic looks inside arrays or fractions.
- `Base64.Decode`: `atob`'s forgiving decoding is not modelled. It strips ASCII white space and accepts missing padding. The model decodes canonical padded text only. Every token and key this code writes is canonical.
- `Codec.EncryptedToken`: an `encrypted` property that is not a string counts as undecodable. The browser would coerce it to text before `atob`.
- `Codec.ImportKey` accepts 24-byte keys, as the WebCrypto standard does. Some browsers reject 192-bit AES keys.
- `Watermark.ParseInt` returns the exact integer. `parseInt` rounds through a double past 2^53. Those values are far outside the date range, where both give an invalid date.
- `Stores.RemoteStore`: the network is a fixed `reachable` flag. The `GET` response is a parameter of `Session.Sync`, `None` when it fails. The server's filtering by `since` and the `uuid` it returns are not modelled.
- The source of `PostModel` is not part of this model. Its upsert by the `uuid` property and its insertion-order `ids()` are assumptions. Posts are values: the in-memory mutation of a post object by the hook (`_type`, `sync_id`) is returned by `Push.SaveHook` but does not reach the store. Aliasing between the hook's post and the stored one is not modelled.
- Whether `PostModel.save` itself calls `Post._saveHook` is not visible in `signin.js`. The model assumes the pull's saves do not upload.
- The OAuth sign-in (`completeOauth2SignIn`, `attemptRefresh`, `init`), the bearer token, the DOM, `window.alert` and console logging are outside the core. Only the presence of a token is a parameter (`Session.Sync`'s `hasToken`).
- The random iv and key bytes, and the answers to `window.prompt`, are parameters. A user who keeps answering with empty text is modelled by the answers running out (`AwaitingKey`).
- The commented-out `remoteIds` reduce (signin.js:313-317) has no effect and is not modelled.
