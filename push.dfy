/**
 * The push half of a sync (signin.js:367-396): `Post._saveHook` uploads
 * each post that has no truthy `sync_id`, encrypted and wrapped twice in
 * JSON, and the `reduce` chain over `PostModel.ids()` runs the hook for
 * one post after another, stopping at the first hook that throws.
 */
module Push {
  import opened Wrappers
  import opened Framing
  import opened Platform
  import opened Codec
  import opened Stores

  /** What the hook does with one post. */
  datatype Hook =
    | Synced                 // `sync_id` is truthy: warn and return
    | Upload(body: string)   // `POST` this request body
    | Throws(error: Error)   // `encryptObj` rejects

  /** A post that carries a truthy `sync_id` is left alone by the hook. */
  predicate IsSynced(post: Fields)
  {
    Truthy(Field(post, "sync_id"))
  }

  /** The post after `post._type = "post"` (signin.js:371). */
  function Typed(post: Fields): Fields
  {
    post["_type" := JStr("post")]
  }

  /** `JSON.stringify({ data: JSON.stringify({ encrypted: token }) })` (signin.js:381-383). */
  function RequestBody(p: Primitives, token: string): (body: string)
    ensures Lawful(p) ==> BodyData(p, body) == Some(p.stringify(Envelope(token)))
    ensures Lawful(p) ==> p.parse(p.stringify(Envelope(token))) == Some(Envelope(token))
  {
    p.stringify(JObj(map["data" := JStr(p.stringify(Envelope(token)))]))
  }

  /** The hook for `post`, encrypting with `key` under the random `iv`. */
  function PlanHook(p: Primitives, key: Option<Key>, iv: Iv, post: Fields): (h: Hook)
    ensures h.Synced? <==> IsSynced(post)
    ensures h.Throws? <==> !IsSynced(post) && key.None?
  {
    if IsSynced(post) then Synced
    else
      match EncryptObj(p, JObj(Typed(post)), key, iv)
      case Err(e) => Throws(e)
      case Ok(token) => Upload(RequestBody(p, token))
  }

  /**
   * The post object once the hook is done. After an upload `sync_id` is
   * set to `await resp.json().uuid`, the `uuid` of a `Promise`, which is
   * `undefined`: the property disappears from the post's JSON.
   */
  function AfterHook(h: Hook, reachable: bool, post: Fields): Fields
  {
    match h
    case Synced => post
    case Throws(_) => Typed(post)
    case Upload(_) => if reachable then Typed(post) - {"sync_id"} else Typed(post)
  }

  /** `Post._saveHook(post)`: `ok` is false when the hook throws. */
  method SaveHook(p: Primitives, key: Option<Key>, iv: Iv, post: Fields, remote: RemoteStore)
    returns (ok: bool, after: Fields)
    modifies remote`received
    ensures var h := PlanHook(p, key, iv, post);
            && ok == (h.Synced? || (h.Upload? && remote.reachable))
            && remote.received == old(remote.received) + (if h.Upload? && ok then [h.body] else [])
            && after == AfterHook(h, remote.reachable, post)
  {
    if IsSynced(post) {
      return true, post;
    }
    after := Typed(post);
    var token := EncryptObj(p, JObj(after), key, iv);
    if token.Err? {
      return false, after;
    }
    ok := remote.Create(RequestBody(p, token.value));
    if ok {
      after := after - {"sync_id"};
    }
  }

  /** The outcome of the `reduce` chain: the bodies sent, and whether a hook threw. */
  datatype PushState = PushState(sent: seq<string>, aborted: bool)

  /**
   * The chain over `ids`, the `i`-th hook drawing `ivOf(i)` as its random
   * IV; once a hook throws, each later callback's `await p` rethrows
   * before its hook runs.
   */
  function PushRun(p: Primitives, key: Option<Key>, ivOf: nat -> Iv, posts: map<Json, Fields>,
                   ids: seq<Json>, reachable: bool): PushState
    decreases |ids|
  {
    if ids == [] then PushState([], false)
    else
      var i := |ids| - 1;
      var before := PushRun(p, key, ivOf, posts, ids[..i], reachable);
      if before.aborted then before
      else
        match PlanHook(p, key, ivOf(i), Lookup(posts, ids[i]))
        case Synced => before
        case Throws(_) => before.(aborted := true)
        case Upload(body) =>
          if reachable then before.(sent := before.sent + [body]) else before.(aborted := true)
  }

  /** `await PostModel.ids().reduce(...)` (signin.js:392-396); the hook never saves, so `store` is unchanged. */
  method PushAll(p: Primitives, key: Option<Key>, ivOf: nat -> Iv, store: PostModel, remote: RemoteStore)
    returns (aborted: bool)
    requires store.Valid()
    modifies remote`received
    ensures var run := PushRun(p, key, ivOf, store.posts, store.Ids(), remote.reachable);
            remote.received == old(remote.received) + run.sent && aborted == run.aborted
  {
    var ids := store.Ids();
    ghost var posts, reachable, start := store.posts, remote.reachable, remote.received;
    aborted := false;
    for i := 0 to |ids|
      invariant store.posts == posts && remote.reachable == reachable
      invariant remote.received == start + PushRun(p, key, ivOf, posts, ids[..i], reachable).sent
      invariant !PushRun(p, key, ivOf, posts, ids[..i], reachable).aborted
    {
      var ok := PushNext(p, key, ivOf, store, ids, i, remote, start);
      if !ok {
        aborted := true;
        AbortedPushStops(p, key, ivOf, posts, ids, i + 1, reachable);
        break;
      }
    }
    if !aborted {
      assert ids[..|ids|] == ids;
    }
  }

  /** One callback of the chain: the hook for `ids[i]`, after the hooks for `ids[..i]` went through. */
  method PushNext(p: Primitives, key: Option<Key>, ivOf: nat -> Iv, store: PostModel,
                  ids: seq<Json>, i: nat, remote: RemoteStore, ghost start: seq<string>)
    returns (ok: bool)
    requires i < |ids|
    requires !PushRun(p, key, ivOf, store.posts, ids[..i], remote.reachable).aborted
    requires remote.received == start + PushRun(p, key, ivOf, store.posts, ids[..i], remote.reachable).sent
    modifies remote`received
    ensures remote.received == start + PushRun(p, key, ivOf, store.posts, ids[..i + 1], remote.reachable).sent
    ensures ok == !PushRun(p, key, ivOf, store.posts, ids[..i + 1], remote.reachable).aborted
  {
    var post := store.GetOrCreate(ids[i]);
    var after;
    ok, after := SaveHook(p, key, ivOf(i), post, remote);
    PushRunStep(p, key, ivOf, store.posts, ids, i, remote.reachable);
  }

  /** The chain over `ids[..i + 1]` is the chain over `ids[..i]` followed by the `i`-th hook. */
  lemma PushRunStep(p: Primitives, key: Option<Key>, ivOf: nat -> Iv, posts: map<Json, Fields>,
                    ids: seq<Json>, i: nat, reachable: bool)
    requires i < |ids|
    ensures var before := PushRun(p, key, ivOf, posts, ids[..i], reachable);
            var h := PlanHook(p, key, ivOf(i), Lookup(posts, ids[i]));
            PushRun(p, key, ivOf, posts, ids[..i + 1], reachable)
            == if before.aborted then before
               else if h.Synced? then before
               else if h.Upload? && reachable then before.(sent := before.sent + [h.body])
               else before.(aborted := true)
  {
    assert ids[..i + 1][..i] == ids[..i];
  }

  /** Once a hook has thrown, later ids change nothing. */
  lemma {:induction false} AbortedPushStops(p: Primitives, key: Option<Key>, ivOf: nat -> Iv,
                                            posts: map<Json, Fields>, ids: seq<Json>, i: nat, reachable: bool)
    requires i <= |ids| && PushRun(p, key, ivOf, posts, ids[..i], reachable).aborted
    ensures PushRun(p, key, ivOf, posts, ids, reachable) == PushRun(p, key, ivOf, posts, ids[..i], reachable)
    decreases |ids| - i
  {
    if i < |ids| {
      assert ids[..i + 1][..i] == ids[..i];
      AbortedPushStops(p, key, ivOf, posts, ids, i + 1, reachable);
    } else {
      assert ids[..i] == ids;
    }
  }

  /** The posts of `ids` the hook uploads: those without a truthy `sync_id`, in order. */
  function Pending(posts: map<Json, Fields>, ids: seq<Json>): seq<Fields>
    decreases |ids|
  {
    if ids == [] then []
    else
      var post := Lookup(posts, ids[|ids| - 1]);
      Pending(posts, ids[..|ids| - 1]) + (if IsSynced(post) then [] else [post])
  }

  /** The `data` string of a request body: what the server keeps as the item's `data`. */
  function BodyData(p: Primitives, body: string): Option<string>
  {
    match p.parse(body)
    case Some(JObj(f)) =>
      (match Field(f, "data")
       case Some(JStr(d)) => Some(d)
       case _ => None)
    case _ => None
  }

  /**
   * How a request body is read back by a pull: its `data` string is
   * parsed, and its `encrypted` token decrypted with `key`.
   */
  function OpenBody(p: Primitives, key: Option<Key>, body: string): Option<Json>
  {
    match BodyData(p, body)
    case None => None
    case Some(d) =>
      match p.parse(d)
      case None => None
      case Some(env) =>
        match EncryptedToken(env)
        case None => None
        case Some(token) =>
          match Decrypt64(p, token, key)
          case Ok(v) => Some(v)
          case Err(_) => None
  }

  /** A request body built by the hook opens, under the same key, to the post it sealed. */
  lemma OpenRequestBody(p: Primitives, k: Key, iv: Iv, obj: Json)
    requires Lawful(p)
    ensures EncryptObj(p, obj, Some(k), iv).Ok?
    ensures OpenBody(p, Some(k), RequestBody(p, EncryptObj(p, obj, Some(k), iv).value)) == Some(obj)
  {
    EncryptDecryptRoundTrip(p, obj, k, iv);
    var token := EncryptObj(p, obj, Some(k), iv).value;
    EnvelopeRoundTrip(token);
  }

  /**
   * With the key and a reachable server every pending post is uploaded,
   * in `ids()` order, and each body opens to that post with `_type` set
   * to `"post"`.
   */
  lemma {:induction false} PushSendsPending(p: Primitives, k: Key, ivOf: nat -> Iv,
                                            posts: map<Json, Fields>, ids: seq<Json>)
    requires Lawful(p)
    ensures var run := PushRun(p, Some(k), ivOf, posts, ids, true);
            && !run.aborted
            && |run.sent| == |Pending(posts, ids)|
            && forall j :: 0 <= j < |run.sent| ==>
                 OpenBody(p, Some(k), run.sent[j]) == Some(JObj(Typed(Pending(posts, ids)[j])))
    decreases |ids|
  {
    if ids != [] {
      var i := |ids| - 1;
      PushSendsPending(p, k, ivOf, posts, ids[..i]);
      var post := Lookup(posts, ids[i]);
      if !IsSynced(post) {
        OpenRequestBody(p, k, ivOf(i), JObj(Typed(post)));
      }
    }
  }

  /**
   * Without a key, or without the server, nothing is uploaded, and the
   * chain throws exactly when some post is pending.
   */
  lemma {:induction false} PushStalls(p: Primitives, key: Option<Key>, ivOf: nat -> Iv,
                                      posts: map<Json, Fields>, ids: seq<Json>, reachable: bool)
    requires key.None? || !reachable
    ensures var run := PushRun(p, key, ivOf, posts, ids, reachable);
            run.sent == [] && (run.aborted <==> Pending(posts, ids) != [])
    decreases |ids|
  {
    if ids != [] {
      PushStalls(p, key, ivOf, posts, ids[..|ids| - 1], reachable);
    }
  }

  /** The hook never leaves a post it did not skip with a truthy `sync_id`. */
  lemma HookNeverMarksSynced(p: Primitives, key: Option<Key>, iv: Iv, post: Fields, reachable: bool)
    requires !IsSynced(post)
    ensures !IsSynced(AfterHook(PlanHook(p, key, iv, post), reachable, post))
  {
    assert Field(Typed(post), "sync_id") == Field(post, "sync_id") by {
      assert "sync_id" != "_type";
    }
  }
}
