/**
 * One sync after sign-in, `doStuffWithUser` (signin.js:264-397): read the
 * watermark, fetch the remote items, pass the key gate, pull, store the
 * new watermark, then push every local post through `_saveHook`.
 */
module Session {
  import opened Wrappers
  import opened Framing
  import opened Platform
  import opened Codec
  import opened Watermark
  import opened Stores
  import opened KeyGate
  import opened Pull
  import opened Push

  const LastSyncName: string := "bliss:last-sync"

  /** How far a sync got. */
  datatype Outcome =
    | NoToken          // neither `id_token` nor `access_token`: alert and return
    | InvalidWatermark // `lastSync.toISOString()` throws on an invalid date
    | FetchFailed      // the `GET` or its JSON body failed: `die` rethrows
    | AwaitingKey      // the answers ran out while the prompt loop still asks
    | PullThrew        // an item aborted the pull loop
    | PushThrew        // a hook threw
    | Done

  /**
   * A sync. The outside world is given as parameters: `hasToken` for the
   * sign-in result, `response` for the `GET` (`None` when it fails),
   * `random` for the bytes of a generated key, `answers` for the prompts
   * and `ivOf` for the IVs of the uploads.
   */
  method Sync(p: Primitives, hasToken: bool, ls: LocalStorage, store: PostModel, remote: RemoteStore,
              response: Option<seq<RemoteItem>>, random: KeyBytes, answers: seq<Option<string>>,
              ivOf: nat -> Iv)
    returns (outcome: Outcome)
    requires store.Valid()
    modifies ls, store, remote`received
    ensures store.Valid()
    ensures var since := ReadWatermark(old(ls.GetItem(LastSyncName)));
            !hasToken || since.NaN? || response.None? ==>
              && outcome == (if !hasToken then NoToken else if since.NaN? then InvalidWatermark else FetchFailed)
              && ls.entries == old(ls.entries) && store.posts == old(store.posts)
              && store.order == old(store.order) && remote.received == old(remote.received)
    ensures var since := ReadWatermark(old(ls.GetItem(LastSyncName)));
            hasToken && since.Ms? && response.Some? ==>
              var items := response.value;
              var gated := KeyGateOutcome(old(ls.GetItem(EncKeyName)), |items|, random, answers);
              var keyed := if gated.generated.Some? then old(ls.entries)[EncKeyName := gated.generated.value]
                           else old(ls.entries);
              && (gated.gate.Blocked? ==>
                    && outcome == AwaitingKey && ls.entries == keyed
                    && store.posts == old(store.posts) && store.order == old(store.order)
                    && remote.received == old(remote.received))
              && (gated.gate.Ready? ==>
                    var pull := Run(p, gated.gate.key, since, old(store.posts), items);
                    && store.posts == pull.posts
                    && store.order == RunOrder(p, gated.gate.key, since, old(store.posts), old(store.order), items)
                    && (pull.aborted ==>
                          outcome == PullThrew && ls.entries == keyed && remote.received == old(remote.received))
                    && (!pull.aborted ==>
                          var push := PushRun(p, gated.gate.key, ivOf, store.posts, store.Ids(), remote.reachable);
                          && ls.entries == keyed[LastSyncName := FormatTime(pull.lastSync)]
                          && remote.received == old(remote.received) + push.sent
                          && outcome == (if push.aborted then PushThrew else Done)))
  {
    if !hasToken {
      return NoToken;
    }
    var since := ReadWatermark(ls.GetItem(LastSyncName));
    if since.NaN? {
      return InvalidWatermark;
    }
    if response.None? {
      return FetchFailed;
    }
    var items := response.value;
    var gate := AcquireKey(ls, |items|, random, answers);
    if gate.Blocked? {
      return AwaitingKey;
    }
    var lastSync, aborted := PullItems(p, gate.key, items, since, store);
    if aborted {
      return PullThrew;
    }
    ls.SetItem(LastSyncName, FormatTime(lastSync));
    aborted := PushAll(p, gate.key, ivOf, store, remote);
    outcome := if aborted then PushThrew else Done;
  }

  /**
   * As written, the first sync of a new account (no usable stored key, no
   * remote items) stores a generated key but pushes with no key: nothing
   * is uploaded, and the push throws as soon as one post is pending.
   */
  lemma FirstSyncUploadsNothing(p: Primitives, stored: Option<string>, random: KeyBytes,
                                answers: seq<Option<string>>, ivOf: nat -> Iv,
                                posts: map<Json, Fields>, ids: seq<Json>, reachable: bool)
    requires ImportKey(stored).None?
    ensures var gated := KeyGateOutcome(stored, 0, random, answers);
            && gated.generated.Some? && gated.gate.Ready? && gated.gate.key.None?
            && var push := PushRun(p, gated.gate.key, ivOf, posts, ids, reachable);
               push.sent == [] && (push.aborted <==> Pending(posts, ids) != [])
  {
    GeneratedKeyLeftUnimported(stored, random, answers);
    PushStalls(p, None, ivOf, posts, ids, reachable);
  }

  /** A body that opens to a post-typed object is accepted by a pull holding the same key. */
  lemma OpenedBodyPulls(p: Primitives, k: Key, body: string, post: Fields, uuid: string, updatedAt: string)
    requires OpenBody(p, Some(k), body) == Some(JObj(Typed(post)))
    ensures BodyData(p, body).Some?
    ensures var item := RemoteItem(uuid, BodyData(p, body).value, updatedAt);
            Classify(p, Some(k), item) == Accept(Stamp(Typed(post), item), p.parseDate(updatedAt))
  {
    assert Field(Typed(post), "_type") == Some(JStr("post"));
  }

  /**
   * Every body a keyed push uploads comes back, through the server's
   * `data` field, as an item the next pull with that key accepts: the
   * pending post in the same position, typed `"post"` and stamped.
   */
  lemma UploadsPullBack(p: Primitives, k: Key, ivOf: nat -> Iv, posts: map<Json, Fields>,
                        ids: seq<Json>, j: nat, uuid: string, updatedAt: string)
    requires Lawful(p)
    requires j < |PushRun(p, Some(k), ivOf, posts, ids, true).sent|
    ensures var body := PushRun(p, Some(k), ivOf, posts, ids, true).sent[j];
            && j < |Pending(posts, ids)|
            && BodyData(p, body).Some?
            && var item := RemoteItem(uuid, BodyData(p, body).value, updatedAt);
               Classify(p, Some(k), item)
               == Accept(Stamp(Typed(Pending(posts, ids)[j]), item), p.parseDate(updatedAt))
  {
    PushSendsPending(p, k, ivOf, posts, ids);
    var body := PushRun(p, Some(k), ivOf, posts, ids, true).sent[j];
    OpenedBodyPulls(p, k, body, Pending(posts, ids)[j], uuid, updatedAt);
  }

  /**
   * The watermark a completed pull stores reads back on the next sync as
   * the same valid time, no earlier than the one the pull started from.
   */
  lemma StoredWatermarkReadsBack(p: Primitives, key: Option<Key>, since: TimeValue,
                                 posts: map<Json, Fields>, items: seq<RemoteItem>)
    requires Lawful(p) && since.Ms? && -MaxTime <= since.ms <= MaxTime
    ensures var w := Run(p, key, since, posts, items).lastSync;
            && w.Ms? && since.ms <= w.ms
            && ReadWatermark(Some(FormatTime(w))) == w
  {
    WatermarkBounds(p, key, since, posts, items);
    WatermarkAttained(p, key, since, posts, items);
    var w := Run(p, key, since, posts, items).lastSync;
    if w != since {
      var k :| Merged(p, key, items, k) && Classify(p, key, items[k]).time == w;
      assert w == p.parseDate(items[k].updatedAt);
    }
    WatermarkRoundTrip(w);
  }

  /** A post merged by a pull from an item with a non-empty uuid is skipped by the next push. */
  lemma PulledPostsNotPushedAgain(p: Primitives, key: Option<Key>, items: seq<RemoteItem>, k: nat,
                                  iv: Iv)
    requires Merged(p, key, items, k) && items[k].uuid != ""
    ensures PlanHook(p, key, iv, Classify(p, key, items[k]).post) == Hook.Synced
  {
  }
}
