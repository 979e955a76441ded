/**
 * The pull loop of `doStuffWithUser` (signin.js:319-363): each remote item
 * is parsed, decrypted and type-checked; accepted posts advance the
 * running watermark, are stamped with their remote id and update time,
 * and are saved to `PostModel`.
 */
module Pull {
  import opened Wrappers
  import opened Framing
  import opened Platform
  import opened Codec
  import opened Watermark
  import opened Stores

  /** One element of the remote list: `uuid`, the JSON-encoded payload `data`, and `updated_at`. */
  datatype RemoteItem = RemoteItem(uuid: string, data: string, updatedAt: string)

  /** What one item does to the pull. */
  datatype Step =
    | Abort                                 // an exception escapes the loop
    | Skip                                  // `continue`
    | Accept(post: Fields, time: TimeValue) // stamped post, and `new Date(item.updated_at)`

  /** `post._type && "post" !== post._type` (signin.js:339). */
  predicate ForeignType(post: Fields)
    ensures ForeignType(post) ==> "_type" in post && post["_type"] != JStr("post")
    ensures "_type" in post && post["_type"].JStr? && post["_type"].s !in {"", "post"} ==> ForeignType(post)
  {
    Truthy(Field(post, "_type")) && Field(post, "_type") != Some(JStr("post"))
  }

  /** `post.sync_id = item.uuid; post.synced_at = item.updated_at` (signin.js:355-356). */
  function Stamp(post: Fields, item: RemoteItem): (r: Fields)
    ensures Field(r, "sync_id") == Some(JStr(item.uuid))
    ensures Field(r, "synced_at") == Some(JStr(item.updatedAt))
  {
    post["sync_id" := JStr(item.uuid)]["synced_at" := JStr(item.updatedAt)]
  }

  /** Stamping touches only `sync_id` and `synced_at`: every other property of the post is kept. */
  lemma StampKeepsOtherFields(post: Fields, item: RemoteItem)
    ensures Stamp(post, item).Keys == post.Keys + {"sync_id", "synced_at"}
    ensures forall f :: f != "sync_id" && f != "synced_at" ==> Field(Stamp(post, item), f) == Field(post, f)
  {
  }

  /**
   * The fate of one item under `key`:
   * - `item.data` that is not JSON aborts the pull: the `catch (e)` at
   *   signin.js:324-325 reads an undeclared `err`, which throws a
   *   `ReferenceError`;
   * - a payload without a string `encrypted` property, or one that fails
   *   to decrypt, is skipped (signin.js:331-338);
   * - a decrypted `null` aborts (reading `_type` of `null`), and so does a
   *   decrypted number, string or boolean (in strict mode assigning
   *   `sync_id` to it throws);
   * - an object whose `_type` is truthy and not `"post"` is skipped;
   * - any other object is accepted, stamped.
   */
  function Classify(p: Primitives, key: Option<Key>, item: RemoteItem): (r: Step)
    ensures p.parse(item.data).None? ==> r == Abort
    ensures key.None? ==> !r.Accept?
    ensures r.Accept? ==> r.time == p.parseDate(item.updatedAt)
    ensures r.Accept? ==>
              && Field(r.post, "sync_id") == Some(JStr(item.uuid))
              && Field(r.post, "synced_at") == Some(JStr(item.updatedAt))
              && !ForeignType(r.post)
  {
    match p.parse(item.data)
    case None => Abort
    case Some(data) =>
      match EncryptedToken(data)
      case None => Skip
      case Some(token) =>
        match Decrypt64(p, token, key)
        case Err(_) => Skip
        case Ok(JObj(post)) =>
          if ForeignType(post) then Skip
          else Accept(Stamp(post, item), p.parseDate(item.updatedAt))
        case Ok(_) => Abort
  }

  /** The loop's state: the running `lastSync`, the posts saved so far, and whether it threw. */
  datatype PullState = PullState(lastSync: TimeValue, posts: map<Json, Fields>, aborted: bool)

  /** One item's effect on the state (the watermark test is signin.js:351-353). */
  function Apply(s: PullState, step: Step): PullState
  {
    match step
    case Abort => s.(aborted := true)
    case Skip => s
    case Accept(post, t) =>
      PullState(if Before(s.lastSync, t) then t else s.lastSync, s.posts[IdOf(post) := post], false)
  }

  /** The state after the loop has gone through `items` in order, stopping at the first abort. */
  function Run(p: Primitives, key: Option<Key>, since: TimeValue, posts: map<Json, Fields>,
               items: seq<RemoteItem>): PullState
    decreases |items|
  {
    if items == [] then PullState(since, posts, false)
    else
      var before := Run(p, key, since, posts, items[..|items| - 1]);
      if before.aborted then before else Apply(before, Classify(p, key, items[|items| - 1]))
  }

  /**
   * The order of `PostModel.ids()` after one step: `save` appends the id
   * of an accepted post that is not yet stored.
   */
  function Place(order: seq<Json>, posts: map<Json, Fields>, step: Step): seq<Json>
  {
    match step
    case Accept(post, _) => if IdOf(post) in posts then order else order + [IdOf(post)]
    case _ => order
  }

  /**
   * The order of `PostModel.ids()` after the loop has gone through
   * `items`: the ids already stored keep their places, and each newly
   * merged id follows in the order it was first merged.
   */
  function RunOrder(p: Primitives, key: Option<Key>, since: TimeValue, posts: map<Json, Fields>,
                    order: seq<Json>, items: seq<RemoteItem>): (r: seq<Json>)
    ensures order <= r
    decreases |items|
  {
    if items == [] then order
    else
      var front := items[..|items| - 1];
      var before := Run(p, key, since, posts, front);
      var o := RunOrder(p, key, since, posts, order, front);
      if before.aborted then o else Place(o, before.posts, Classify(p, key, items[|items| - 1]))
  }

  /**
   * When the stored order lists the stored ids once each, so does the
   * order after the loop, for the posts the loop leaves.
   */
  lemma {:induction false} RunOrderLists(p: Primitives, key: Option<Key>, since: TimeValue,
                                         posts: map<Json, Fields>, order: seq<Json>,
                                         items: seq<RemoteItem>)
    requires forall id :: id in posts <==> id in order
    requires forall i, j :: 0 <= i < j < |order| ==> order[i] != order[j]
    ensures var r := RunOrder(p, key, since, posts, order, items);
            && (forall id :: id in r <==> id in Run(p, key, since, posts, items).posts)
            && (forall i, j :: 0 <= i < j < |r| ==> r[i] != r[j])
    decreases |items|
  {
    if items != [] {
      var front := items[..|items| - 1];
      RunOrderLists(p, key, since, posts, order, front);
      var before := Run(p, key, since, posts, front);
      var o := RunOrder(p, key, since, posts, order, front);
      var step := Classify(p, key, items[|items| - 1]);
      if !before.aborted && step.Accept? && IdOf(step.post) !in before.posts {
        assert forall i :: 0 <= i < |o| ==> o[i] != IdOf(step.post);
      }
    }
  }

  /** The loop `for (let item of items)`, saving accepted posts to `store`. */
  method PullItems(p: Primitives, key: Option<Key>, items: seq<RemoteItem>, since: TimeValue,
                   store: PostModel) returns (lastSync: TimeValue, aborted: bool)
    requires store.Valid()
    modifies store
    ensures store.Valid()
    ensures Run(p, key, since, old(store.posts), items) == PullState(lastSync, store.posts, aborted)
    ensures store.order == RunOrder(p, key, since, old(store.posts), old(store.order), items)
  {
    ghost var posts, order := store.posts, store.order;
    lastSync, aborted := since, false;
    for i := 0 to |items|
      invariant store.Valid()
      invariant Run(p, key, since, posts, items[..i]) == PullState(lastSync, store.posts, false)
      invariant store.order == RunOrder(p, key, since, posts, order, items[..i])
    {
      assert items[..i + 1][..i] == items[..i];
      lastSync, aborted := PullStep(p, key, items[i], lastSync, store);
      if aborted {
        AbortedRunStops(p, key, since, posts, items, i + 1);
        AbortedOrderStops(p, key, since, posts, order, items, i + 1);
        assert items[..|items|] == items;
        return;
      }
    }
    assert items[..|items|] == items;
  }

  /**
   * One pass of the loop body (signin.js:320-360) from the watermark
   * `lastSync`: its effect is `Apply` of the item's `Classify` step, and
   * `store.order` moves as `Place` says.
   */
  method PullStep(p: Primitives, key: Option<Key>, item: RemoteItem, lastSync: TimeValue,
                  store: PostModel) returns (next: TimeValue, abort: bool)
    requires store.Valid()
    modifies store
    ensures store.Valid()
    ensures Apply(PullState(lastSync, old(store.posts), false), Classify(p, key, item))
            == PullState(next, store.posts, abort)
    ensures store.order == Place(old(store.order), old(store.posts), Classify(p, key, item))
  {
    next, abort := lastSync, false;
    var data := p.parse(item.data);
    if data.None? {
      return next, true;
    }
    var token := EncryptedToken(data.value);
    if token.None? {
      return;
    }
    var decrypted := Decrypt64(p, token.value, key);
    if decrypted.Err? {
      return;
    }
    if !decrypted.value.JObj? {
      return next, true;
    }
    var post := decrypted.value.fields;
    if ForeignType(post) {
      return;
    }
    var updated := p.parseDate(item.updatedAt);
    if Before(next, updated) {
      next := updated;
    }
    post := post["sync_id" := JStr(item.uuid)];
    post := post["synced_at" := JStr(item.updatedAt)];
    store.Save(post);
  }

  /** Once the loop has thrown, later items change nothing. */
  lemma {:induction false} AbortedRunStops(p: Primitives, key: Option<Key>, since: TimeValue,
                                           posts: map<Json, Fields>, items: seq<RemoteItem>, i: nat)
    requires i <= |items| && Run(p, key, since, posts, items[..i]).aborted
    ensures Run(p, key, since, posts, items) == Run(p, key, since, posts, items[..i])
    decreases |items| - i
  {
    if i < |items| {
      assert items[..i + 1][..i] == items[..i];
      AbortedRunStops(p, key, since, posts, items, i + 1);
    } else {
      assert items[..i] == items;
    }
  }

  /** Once the loop has thrown, later items leave the order of ids alone. */
  lemma {:induction false} AbortedOrderStops(p: Primitives, key: Option<Key>, since: TimeValue,
                                             posts: map<Json, Fields>, order: seq<Json>,
                                             items: seq<RemoteItem>, i: nat)
    requires i <= |items| && Run(p, key, since, posts, items[..i]).aborted
    ensures RunOrder(p, key, since, posts, order, items) == RunOrder(p, key, since, posts, order, items[..i])
    decreases |items| - i
  {
    if i < |items| {
      assert items[..i + 1][..i] == items[..i];
      AbortedOrderStops(p, key, since, posts, order, items, i + 1);
    } else {
      assert items[..i] == items;
    }
  }

  /** Item `k` is reached by the loop (nothing before it aborted) and accepted. */
  predicate Merged(p: Primitives, key: Option<Key>, items: seq<RemoteItem>, k: int)
  {
    && 0 <= k < |items|
    && Classify(p, key, items[k]).Accept?
    && forall j :: 0 <= j < k ==> Classify(p, key, items[j]) != Abort
  }

  /** Dropping the last item keeps `Merged` for the items before it. */
  lemma MergedInPrefix(p: Primitives, key: Option<Key>, items: seq<RemoteItem>, k: int)
    requires items != [] && k < |items| - 1
    ensures Merged(p, key, items, k) <==> Merged(p, key, items[..|items| - 1], k)
  {
    var front := items[..|items| - 1];
    if 0 <= k {
      assert forall j :: 0 <= j <= k ==> front[j] == items[j];
    }
  }

  /** The pull throws exactly when some item classifies as `Abort`. */
  lemma {:induction false} AbortedIff(p: Primitives, key: Option<Key>, since: TimeValue,
                                      posts: map<Json, Fields>, items: seq<RemoteItem>)
    ensures Run(p, key, since, posts, items).aborted
        <==> exists k :: 0 <= k < |items| && Classify(p, key, items[k]) == Abort
    decreases |items|
  {
    if items != [] {
      var front := items[..|items| - 1];
      AbortedIff(p, key, since, posts, front);
      assert forall j :: 0 <= j < |front| ==> front[j] == items[j];
    }
  }

  /** The last item is merged exactly when the items before it did not throw and it is accepted. */
  lemma LastMergedIff(p: Primitives, key: Option<Key>, since: TimeValue,
                      posts: map<Json, Fields>, items: seq<RemoteItem>)
    requires items != []
    ensures Merged(p, key, items, |items| - 1)
        <==> !Run(p, key, since, posts, items[..|items| - 1]).aborted
             && Classify(p, key, items[|items| - 1]).Accept?
  {
    var front := items[..|items| - 1];
    AbortedIff(p, key, since, posts, front);
    assert forall j :: 0 <= j < |front| ==> front[j] == items[j];
  }

  /**
   * The watermark after the loop: an invalid start date stays invalid
   * (every comparison with NaN is false); a valid one never moves back
   * and ends at or past the update time of every merged item.
   */
  lemma {:induction false} WatermarkBounds(p: Primitives, key: Option<Key>, since: TimeValue,
                                           posts: map<Json, Fields>, items: seq<RemoteItem>)
    ensures since.NaN? ==> Run(p, key, since, posts, items).lastSync == NaN
    ensures since.Ms? ==>
              && Run(p, key, since, posts, items).lastSync.Ms?
              && since.ms <= Run(p, key, since, posts, items).lastSync.ms
    ensures forall k | Merged(p, key, items, k) && since.Ms? && Classify(p, key, items[k]).time.Ms? ::
              Classify(p, key, items[k]).time.ms <= Run(p, key, since, posts, items).lastSync.ms
    decreases |items|
  {
    if items != [] {
      var front := items[..|items| - 1];
      WatermarkBounds(p, key, since, posts, front);
      LastMergedIff(p, key, since, posts, items);
      var w := Run(p, key, since, posts, items).lastSync;
      var w0 := Run(p, key, since, posts, front).lastSync;
      assert since.Ms? ==> w.Ms? && w0.ms <= w.ms;
      forall k | Merged(p, key, items, k) && since.Ms? && Classify(p, key, items[k]).time.Ms?
        ensures Classify(p, key, items[k]).time.ms <= w.ms
      {
        if k < |front| {
          MergedInPrefix(p, key, items, k);
          assert front[k] == items[k];
        }
      }
    }
  }

  /** The final watermark is the starting one or the update time of a merged item. */
  lemma {:induction false} WatermarkAttained(p: Primitives, key: Option<Key>, since: TimeValue,
                                             posts: map<Json, Fields>, items: seq<RemoteItem>)
    ensures var w := Run(p, key, since, posts, items).lastSync;
            w == since || exists k :: Merged(p, key, items, k) && Classify(p, key, items[k]).time == w
    decreases |items|
  {
    if items != [] {
      var front := items[..|items| - 1];
      WatermarkAttained(p, key, since, posts, front);
      LastMergedIff(p, key, since, posts, items);
      var w := Run(p, key, since, posts, items).lastSync;
      var w0 := Run(p, key, since, posts, front).lastSync;
      if w != since && w == w0 {
        var k :| Merged(p, key, front, k) && Classify(p, key, front[k]).time == w0;
        MergedInPrefix(p, key, items, k);
        assert front[k] == items[k];
      }
    }
  }

  /** The last item changes the post under `id` only when it is merged and carries `id`. */
  lemma LastStepKeepsId(p: Primitives, key: Option<Key>, since: TimeValue,
                        posts: map<Json, Fields>, items: seq<RemoteItem>, id: Json)
    requires items != []
    requires Merged(p, key, items, |items| - 1) ==> IdOf(Classify(p, key, items[|items| - 1]).post) != id
    ensures var before := Run(p, key, since, posts, items[..|items| - 1]).posts;
            var after := Run(p, key, since, posts, items).posts;
            (id in after <==> id in before) && (id in before ==> after[id] == before[id])
  {
    LastMergedIff(p, key, since, posts, items);
  }

  /** A merged last item is saved under its id. */
  lemma LastStepSaves(p: Primitives, key: Option<Key>, since: TimeValue,
                      posts: map<Json, Fields>, items: seq<RemoteItem>)
    requires items != [] && Merged(p, key, items, |items| - 1)
    ensures var post := Classify(p, key, items[|items| - 1]).post;
            IdOf(post) in Run(p, key, since, posts, items).posts
            && Run(p, key, since, posts, items).posts[IdOf(post)] == post
  {
    LastMergedIff(p, key, since, posts, items);
  }

  /** A post id that no merged item carries is left as it was (present or absent). */
  lemma {:induction false} UntouchedPostKept(p: Primitives, key: Option<Key>, since: TimeValue,
                                             posts: map<Json, Fields>, items: seq<RemoteItem>, id: Json)
    requires forall k | Merged(p, key, items, k) :: IdOf(Classify(p, key, items[k]).post) != id
    ensures id in Run(p, key, since, posts, items).posts <==> id in posts
    ensures id in posts ==> Run(p, key, since, posts, items).posts[id] == posts[id]
    decreases |items|
  {
    if items != [] {
      var front := items[..|items| - 1];
      forall k | Merged(p, key, front, k) ensures IdOf(Classify(p, key, front[k]).post) != id {
        MergedInPrefix(p, key, items, k);
        assert front[k] == items[k];
      }
      UntouchedPostKept(p, key, since, posts, front, id);
      LastStepKeepsId(p, key, since, posts, items, id);
    }
  }

  /** The post saved under an id is the one from the last merged item carrying that id. */
  lemma {:induction false} LastMergedWins(p: Primitives, key: Option<Key>, since: TimeValue,
                                          posts: map<Json, Fields>, items: seq<RemoteItem>, k: int)
    requires Merged(p, key, items, k)
    requires forall j | k < j && Merged(p, key, items, j) ::
               IdOf(Classify(p, key, items[j]).post) != IdOf(Classify(p, key, items[k]).post)
    ensures var post := Classify(p, key, items[k]).post;
            IdOf(post) in Run(p, key, since, posts, items).posts
            && Run(p, key, since, posts, items).posts[IdOf(post)] == post
    decreases |items|
  {
    if k == |items| - 1 {
      LastStepSaves(p, key, since, posts, items);
    } else {
      var front := items[..|items| - 1];
      var post := Classify(p, key, items[k]).post;
      MergedInPrefix(p, key, items, k);
      assert front[k] == items[k];
      forall j | k < j && Merged(p, key, front, j)
        ensures IdOf(Classify(p, key, front[j]).post) != IdOf(post)
      {
        MergedInPrefix(p, key, items, j);
        assert front[j] == items[j];
      }
      LastMergedWins(p, key, since, posts, front, k);
      LastStepKeepsId(p, key, since, posts, items, IdOf(post));
    }
  }

  /** An item that is skipped has no effect: the pull is as if it were not in the list. */
  lemma {:induction false} SkipIsolation(p: Primitives, key: Option<Key>, since: TimeValue,
                                         posts: map<Json, Fields>,
                                         a: seq<RemoteItem>, x: RemoteItem, b: seq<RemoteItem>)
    requires Classify(p, key, x) == Skip
    ensures Run(p, key, since, posts, a + [x] + b) == Run(p, key, since, posts, a + b)
    decreases |b|
  {
    if b == [] {
      assert (a + [x] + b)[..|a + [x] + b| - 1] == a;
      assert a + b == a;
    } else {
      var b' := b[..|b| - 1];
      assert (a + [x] + b)[..|a + [x] + b| - 1] == a + [x] + b';
      assert (a + b)[..|a + b| - 1] == a + b';
      SkipIsolation(p, key, since, posts, a, x, b');
    }
  }

  /**
   * A payload without a string `encrypted` property is passed over
   * (signin.js:331-333): the pull goes on as if the item were absent.
   */
  lemma {:induction false} MissingTokenIsolated(p: Primitives, key: Option<Key>, since: TimeValue,
                                                posts: map<Json, Fields>, a: seq<RemoteItem>,
                                                x: RemoteItem, b: seq<RemoteItem>, data: Json)
    requires p.parse(x.data) == Some(data) && EncryptedToken(data).None?
    ensures Classify(p, key, x) == Skip
    ensures Run(p, key, since, posts, a + [x] + b) == Run(p, key, since, posts, a + b)
  {
    SkipIsolation(p, key, since, posts, a, x, b);
  }

  /**
   * A token that does not decrypt (bad base64, too short for an IV, no
   * key, wrong key or padding, or plaintext that is not JSON) is passed
   * over (signin.js:334-338).
   */
  lemma {:induction false} DecryptFailureIsolated(p: Primitives, key: Option<Key>, since: TimeValue,
                                                  posts: map<Json, Fields>, a: seq<RemoteItem>,
                                                  x: RemoteItem, b: seq<RemoteItem>,
                                                  data: Json, token: string)
    requires p.parse(x.data) == Some(data) && EncryptedToken(data) == Some(token)
    requires Decrypt64(p, token, key).Err?
    ensures Classify(p, key, x) == Skip
    ensures Run(p, key, since, posts, a + [x] + b) == Run(p, key, since, posts, a + b)
  {
    SkipIsolation(p, key, since, posts, a, x, b);
  }

  /** A decrypted object of a foreign `_type` is passed over (signin.js:339-343). */
  lemma {:induction false} ForeignTypeIsolated(p: Primitives, key: Option<Key>, since: TimeValue,
                                               posts: map<Json, Fields>, a: seq<RemoteItem>,
                                               x: RemoteItem, b: seq<RemoteItem>,
                                               data: Json, token: string, post: Fields)
    requires p.parse(x.data) == Some(data) && EncryptedToken(data) == Some(token)
    requires Decrypt64(p, token, key) == Ok(JObj(post)) && ForeignType(post)
    ensures Classify(p, key, x) == Skip
    ensures Run(p, key, since, posts, a + [x] + b) == Run(p, key, since, posts, a + b)
  {
    SkipIsolation(p, key, since, posts, a, x, b);
  }

  /**
   * A token that decrypts to `null`, a number, a string or a boolean
   * throws (signin.js:339 and 355): the pull aborts there, and nothing
   * after it is merged.
   */
  lemma {:induction false} NonObjectAborts(p: Primitives, key: Option<Key>, since: TimeValue,
                                           posts: map<Json, Fields>, a: seq<RemoteItem>,
                                           x: RemoteItem, b: seq<RemoteItem>,
                                           data: Json, token: string)
    requires p.parse(x.data) == Some(data) && EncryptedToken(data) == Some(token)
    requires Decrypt64(p, token, key).Ok? && !Decrypt64(p, token, key).value.JObj?
    ensures Classify(p, key, x) == Abort
    ensures Run(p, key, since, posts, a + [x] + b).aborted
    ensures Run(p, key, since, posts, a + [x] + b) == Run(p, key, since, posts, a + [x])
  {
    var items := a + [x] + b;
    assert items[..|a| + 1] == a + [x];
    assert (a + [x])[..|a + [x]| - 1] == a;
    AbortedRunStops(p, key, since, posts, items, |a| + 1);
  }

  /**
   * A decrypted object of no foreign `_type` is merged, stamped with the
   * remote id and update time (signin.js:339-361).
   */
  lemma DecryptedPostAccepted(p: Primitives, key: Option<Key>, x: RemoteItem,
                              data: Json, token: string, post: Fields)
    requires p.parse(x.data) == Some(data) && EncryptedToken(data) == Some(token)
    requires Decrypt64(p, token, key) == Ok(JObj(post)) && !ForeignType(post)
    ensures Classify(p, key, x) == Accept(Stamp(post, x), p.parseDate(x.updatedAt))
  {
  }

  /**
   * End to end with the push side: an object post encrypted under `k` and
   * wrapped as the push sends it is accepted by a pull that holds `k`,
   * with the post's own fields, the remote stamps and the remote time.
   */
  lemma PullAcceptsPushedPost(p: Primitives, k: Key, iv: Iv, post: Fields,
                              uuid: string, updatedAt: string)
    requires Lawful(p) && !ForeignType(post)
    ensures var token := EncryptObj(p, JObj(post), Some(k), iv);
            token.Ok?
            && var item := RemoteItem(uuid, p.stringify(Envelope(token.value)), updatedAt);
            Classify(p, Some(k), item) == Accept(Stamp(post, item), p.parseDate(updatedAt))
  {
    EncryptDecryptRoundTrip(p, JObj(post), k, iv);
    var token := EncryptObj(p, JObj(post), Some(k), iv).value;
    EnvelopeRoundTrip(token);
  }
}
