/**
 * The stores the sync engine talks to, each reduced to what it keeps:
 * `localStorage` (a string-to-string map), `PostModel` (posts by id, in
 * the order `ids()` lists them) and the remote item store's `create`
 * endpoint (the request bodies it has accepted).
 */
module Stores {
  import opened Wrappers
  import opened Platform

  /** `localStorage`. */
  class LocalStorage {
    var entries: map<string, string>

    constructor (initial: map<string, string>)
      ensures entries == initial
    {
      entries := initial;
    }

    /** `getItem(name)`: `None` is `null`. */
    function GetItem(name: string): (v: Option<string>)
      reads this
      ensures v.Some? <==> name in entries
      ensures v.Some? ==> v.value == entries[name]
    {
      if name in entries then Some(entries[name]) else None
    }

    /** `setItem(name, value)`. */
    method SetItem(name: string, value: string)
      modifies this
      ensures entries == old(entries)[name := value]
    {
      entries := entries[name := value];
    }
  }

  /** The identity a post is saved under: its `uuid` property (`null` when it has none). */
  function IdOf(post: Fields): Json
  {
    if "uuid" in post then post["uuid"] else JNull
  }

  /** What `getOrCreate` yields from `posts`: the post stored under `id`, or a new post carrying only that id. */
  function Lookup(posts: map<Json, Fields>, id: Json): (post: Fields)
    ensures id in posts ==> post == posts[id]
    ensures id !in posts ==> IdOf(post) == id
  {
    if id in posts then posts[id] else map["uuid" := id]
  }

  /** `PostModel`: posts by id, with `ids()` in the order posts were first saved. */
  class PostModel {
    var order: seq<Json>
    var posts: map<Json, Fields>

    ghost predicate Valid()
      reads this
    {
      && (forall id :: id in posts <==> id in order)
      && (forall i, j :: 0 <= i < j < |order| ==> order[i] != order[j])
    }

    constructor ()
      ensures Valid() && order == [] && posts == map[]
    {
      order, posts := [], map[];
    }

    /** `PostModel.ids()`. */
    function Ids(): (ids: seq<Json>)
      reads this
      requires Valid()
      ensures forall id :: id in ids <==> id in posts
    {
      order
    }

    /** `PostModel.getOrCreate(id)`. */
    function GetOrCreate(id: Json): (post: Fields)
      reads this
      ensures id in posts ==> post == posts[id]
      ensures id !in posts ==> post == map["uuid" := id] && IdOf(post) == id
    {
      Lookup(posts, id)
    }

    /** `PostModel.save(post)`: insert or replace the post under its id. */
    method Save(post: Fields)
      requires Valid()
      modifies this
      ensures Valid()
      ensures posts == old(posts)[IdOf(post) := post]
      ensures order == if IdOf(post) in old(posts) then old(order) else old(order) + [IdOf(post)]
    {
      var id := IdOf(post);
      if id !in posts {
        order := order + [id];
      }
      posts := posts[id := post];
    }
  }

  /** The remote item store's `create` endpoint (a `POST` to `/api/dummy`). */
  class RemoteStore {
    var received: seq<string>
    /** Whether `fetch` reaches the server; when it does not, `die` rethrows. */
    var reachable: bool

    constructor (reachable: bool)
      ensures this.reachable == reachable && received == []
    {
      this.reachable := reachable;
      received := [];
    }

    method Create(body: string) returns (ok: bool)
      modifies this`received
      ensures ok == reachable
      ensures received == if ok then old(received) + [body] else old(received)
    {
      ok := reachable;
      if ok {
        received := received + [body];
      }
    }
  }
}
