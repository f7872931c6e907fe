/**
 The posts collection store: the list operations its reducers perform, the
 store itself (a class whose methods are the reducers, each changing the
 fields as the reducer does), and the four thunks with their network call
 already settled.
 */
module PostsSlice {
  import opened Types
  import Api

  /** `posts.findIndex(p => p.id === id)`: the first index holding `id`, or
      -1 when no record has it. */
  function FindIndex(posts: seq<Post>, id: int): (k: int)
    ensures -1 <= k < |posts|
    ensures k == -1 <==> forall j :: 0 <= j < |posts| ==> posts[j].id != id
    ensures k >= 0 ==> IsFirstMatch(posts, k, id)
  {
    if posts == [] then -1
    else if posts[0].id == id then 0
    else
      var k := FindIndex(posts[1..], id);
      if k == -1 then -1 else k + 1
  }

  /** Index `k` holds the first record with id `id`. */
  predicate IsFirstMatch(posts: seq<Post>, k: int, id: int)
    requires 0 <= k < |posts|
  {
    posts[k].id == id && forall j :: 0 <= j < k ==> posts[j].id != id
  }

  /** The list after `updatePost.fulfilled`: the first record with the
      payload's id is replaced by the payload, in place; every other entry,
      and the length, stay as they were. */
  function Updated(posts: seq<Post>, payload: Post): (r: seq<Post>)
    ensures |r| == |posts|
    ensures forall i :: 0 <= i < |posts| ==>
      r[i] == (if IsFirstMatch(posts, i, payload.id) then payload else posts[i])
    ensures (forall j :: 0 <= j < |posts| ==> posts[j].id != payload.id) ==> r == posts
  {
    var index := FindIndex(posts, payload.id);
    if index != -1 then posts[index := payload] else posts
  }

  /** The list after `deletePost.fulfilled`: `posts.filter(p => p.id !== id)`.
      No record with `id` survives, every other record does, and nothing new
      appears. */
  function Without(posts: seq<Post>, id: int): (r: seq<Post>)
    ensures |r| <= |posts|
    ensures forall i :: 0 <= i < |r| ==> r[i].id != id
    ensures forall q :: q in r <==> q in posts && q.id != id
  {
    if posts == [] then []
    else (if posts[0].id == id then [] else [posts[0]]) + Without(posts[1..], id)
  }

  /** The message `fetchPosts.rejected` records: the error's message, or the
      fixed fallback when there is none or it is empty. */
  const DefaultFetchError: string := "Error al cargar publicaciones"

  function FetchErrorMessage(message: Option<string>): (r: string)
    ensures r != []
    ensures message.Some? && message.value != [] ==> r == message.value
    ensures message == None || message == Some([]) ==> r == DefaultFetchError
  {
    if message.Some? && message.value != [] then message.value else DefaultFetchError
  }

  /** Deleting keeps the relative order: filtering a concatenation filters
      each part. */
  lemma {:induction false} WithoutAppend(a: seq<Post>, b: seq<Post>, id: int)
    ensures Without(a + b, id) == Without(a, id) + Without(b, id)
  {
    if a == [] {
      assert a + b == b;
    } else {
      assert (a + b)[1..] == a[1..] + b;
      WithoutAppend(a[1..], b, id);
    }
  }

  /** Deleting the same id twice is the same as deleting it once. */
  lemma {:induction false} WithoutIdempotent(posts: seq<Post>, id: int)
    ensures Without(Without(posts, id), id) == Without(posts, id)
  {
    if posts != [] {
      var w := Without(posts[1..], id);
      WithoutIdempotent(posts[1..], id);
      if posts[0].id != id {
        var r := [posts[0]] + w;
        assert Without(posts, id) == r;
        assert r[0] == posts[0] && r[1..] == w;
        assert Without(r, id) == [posts[0]] + Without(w, id);
      } else {
        assert Without(posts, id) == w;
      }
    }
  }

  /** A delete leaves the list unchanged exactly when no record has the id. */
  lemma WithoutUnchangedIff(posts: seq<Post>, id: int)
    ensures Without(posts, id) == posts <==> forall j :: 0 <= j < |posts| ==> posts[j].id != id
  {
    if forall j :: 0 <= j < |posts| ==> posts[j].id != id {
      WithoutNoMatch(posts, id);
    } else {
      var j :| 0 <= j < |posts| && posts[j].id == id;
      assert posts[j] in posts;
    }
  }

  lemma {:induction false} WithoutNoMatch(posts: seq<Post>, id: int)
    requires forall j :: 0 <= j < |posts| ==> posts[j].id != id
    ensures Without(posts, id) == posts
  {
    if posts != [] {
      WithoutNoMatch(posts[1..], id);
      assert [posts[0]] + posts[1..] == posts;
    }
  }

  /** The tail of a list with unique ids has unique ids. */
  lemma UniqueTail(posts: seq<Post>)
    requires posts != [] && UniqueIds(posts)
    ensures UniqueIds(posts[1..])
  {
    var tail := posts[1..];
    forall i, j | 0 <= i < j < |tail| ensures tail[i].id != tail[j].id {
      assert tail[i] == posts[i + 1] && tail[j] == posts[j + 1];
    }
  }

  /** With unique ids, deleting the id of the head drops just the head. */
  lemma WithoutUniqueHead(posts: seq<Post>)
    requires UniqueIds(posts) && posts != []
    ensures Without(posts, posts[0].id) == posts[1..]
  {
    var tail := posts[1..];
    forall j | 0 <= j < |tail| ensures tail[j].id != posts[0].id {
      assert tail[j] == posts[j + 1];
    }
    WithoutNoMatch(tail, posts[0].id);
  }

  /** Removing index `k` from a list is keeping its head and removing index
      `k - 1` from its tail. */
  lemma RemoveAtCons(posts: seq<Post>, k: int)
    requires 0 < k < |posts|
    ensures [posts[0]] + (posts[1..][..k - 1] + posts[1..][k..]) == posts[..k] + posts[k + 1..]
  {
    var tail := posts[1..];
    assert posts[..k] == [posts[0]] + tail[..k - 1];
    assert posts[k + 1..] == tail[k..];
  }

  /** With unique ids, deleting a present id removes exactly that one record
      and closes the gap. */
  lemma {:induction false} WithoutUniqueRemovesOne(posts: seq<Post>, k: int)
    requires UniqueIds(posts)
    requires 0 <= k < |posts|
    ensures Without(posts, posts[k].id) == posts[..k] + posts[k + 1..]
  {
    if k == 0 {
      WithoutUniqueHead(posts);
    } else {
      var id := posts[k].id;
      assert posts[0].id != id;
      UniqueTail(posts);
      assert posts[1..][k - 1] == posts[k];
      WithoutUniqueRemovesOne(posts[1..], k - 1);
      RemoveAtCons(posts, k);
    }
  }

  /** Deleting never breaks id uniqueness. */
  lemma {:induction false} WithoutKeepsUnique(posts: seq<Post>, id: int)
    requires UniqueIds(posts)
    ensures UniqueIds(Without(posts, id))
  {
    if posts != [] {
      var tail := posts[1..];
      UniqueTail(posts);
      WithoutKeepsUnique(tail, id);
      if posts[0].id != id {
        var w := Without(tail, id);
        var r := [posts[0]] + w;
        forall i, j | 0 <= i < j < |r| ensures r[i].id != r[j].id {
          if i == 0 {
            assert r[j] == w[j - 1] && w[j - 1] in tail;
            var m :| 0 <= m < |tail| && tail[m] == w[j - 1];
            assert tail[m] == posts[m + 1];
          } else {
            assert r[i] == w[i - 1] && r[j] == w[j - 1];
          }
        }
      }
    }
  }

  /** An update keeps every id where it was, so it never breaks uniqueness. */
  lemma UpdatedKeepsIds(posts: seq<Post>, payload: Post)
    ensures Ids(Updated(posts, payload)) == Ids(posts)
    ensures UniqueIds(posts) ==> UniqueIds(Updated(posts, payload))
  {
    var r := Updated(posts, payload);
    forall i | 0 <= i < |posts| ensures r[i].id == posts[i].id {
    }
  }

  /** Repeating an update changes nothing more. */
  lemma UpdatedIdempotent(posts: seq<Post>, payload: Post)
    ensures Updated(Updated(posts, payload), payload) == Updated(posts, payload)
  {
    var r := Updated(posts, payload);
    var r2 := Updated(r, payload);
    forall i | 0 <= i < |posts| ensures r2[i] == r[i] {
      assert IsFirstMatch(r, i, payload.id) <==> IsFirstMatch(posts, i, payload.id) by {
        forall j | 0 <= j <= i ensures r[j].id == posts[j].id {
        }
      }
    }
  }

  /** Create makes no uniqueness check: prepending keeps ids unique exactly
      when the new id is not already present. */
  lemma PrependUniqueIff(posts: seq<Post>, post: Post)
    requires UniqueIds(posts)
    ensures UniqueIds([post] + posts) <==> post.id !in Ids(posts)
  {
    var r := [post] + posts;
    if post.id in Ids(posts) {
      var k :| 0 <= k < |posts| && Ids(posts)[k] == post.id;
      assert r[0].id == r[k + 1].id;
    } else {
      forall i, j | 0 <= i < j < |r| ensures r[i].id != r[j].id {
        if i == 0 {
          assert r[j].id == Ids(posts)[j - 1];
        } else {
          assert r[i] == posts[i - 1] && r[j] == posts[j - 1];
        }
      }
    }
  }

  /** Deleting a freshly created record restores the list before the create. */
  lemma PrependThenWithout(posts: seq<Post>, post: Post)
    requires post.id !in Ids(posts)
    ensures Without([post] + posts, post.id) == posts
  {
    assert ([post] + posts)[1..] == posts;
    forall j | 0 <= j < |posts| ensures posts[j].id != post.id {
      assert Ids(posts)[j] == posts[j].id;
    }
    WithoutNoMatch(posts, post.id);
  }

  /** A record carrying the deleted id vanishes from between its
      neighbours. */
  lemma WithoutDropsMatch(a: seq<Post>, x: Post, b: seq<Post>)
    ensures Without(a + [x] + b, x.id) == Without(a, x.id) + Without(b, x.id)
  {
    var rest := [x] + b;
    assert a + [x] + b == a + rest;
    assert rest[0] == x && rest[1..] == b;
    assert Without(rest, x.id) == Without(b, x.id);
    WithoutAppend(a, rest, x.id);
  }

  /** Deleting an id after updating it is the same as deleting it directly. */
  lemma WithoutAfterUpdated(posts: seq<Post>, payload: Post)
    ensures Without(Updated(posts, payload), payload.id) == Without(posts, payload.id)
  {
    var k := FindIndex(posts, payload.id);
    if k != -1 {
      var before, after := posts[..k], posts[k + 1..];
      assert posts == before + [posts[k]] + after;
      assert posts[k := payload] == before + [payload] + after;
      WithoutDropsMatch(before, posts[k], after);
      WithoutDropsMatch(before, payload, after);
    }
  }

  /** An update that went through the gateway lands on the first record with
      the requested id, whatever id the server echoed, and carries the
      server's title and body. */
  lemma UpdateThroughGateway(posts: seq<Post>, id: int, response: Post)
    ensures var r := Updated(posts, Api.UpdateResult(id, response));
      && |r| == |posts|
      && forall i :: 0 <= i < |posts| ==>
           if IsFirstMatch(posts, i, id)
           then r[i] == Post(id, response.title, response.body, response.userId)
           else r[i] == posts[i]
  {
  }

  /** How a thunk's network call settled: with its payload, or rejected with
      the error's (possibly missing) message. */
  datatype Settlement<T> = Fulfilled(value: T) | Rejected(message: Option<string>)

  /** The store (`PostState`), updated in place by its reducers. */
  class PostStore {
    var posts: seq<Post>
    var loading: bool
    var error: Option<string>
    var selectedPost: Option<Post>

    /** `initialState`. */
    constructor ()
      ensures posts == [] && !loading && error == None && selectedPost == None
    {
      posts := [];
      loading := false;
      error := None;
      selectedPost := None;
    }

    /** `setSelectedPost`. */
    method SetSelectedPost(post: Option<Post>)
      modifies this
      ensures selectedPost == post
      ensures posts == old(posts) && loading == old(loading) && error == old(error)
    {
      selectedPost := post;
    }

    /** `clearError`. */
    method ClearError()
      modifies this
      ensures error == None
      ensures posts == old(posts) && loading == old(loading) && selectedPost == old(selectedPost)
    {
      error := None;
    }

    /** `fetchPosts.pending`. */
    method FetchPending()
      modifies this
      ensures loading && error == None
      ensures posts == old(posts) && selectedPost == old(selectedPost)
    {
      loading := true;
      error := None;
    }

    /** `fetchPosts.fulfilled`: the list is replaced wholesale. */
    method FetchFulfilled(payload: seq<Post>)
      modifies this
      ensures !loading && posts == payload
      ensures error == old(error) && selectedPost == old(selectedPost)
    {
      loading := false;
      posts := payload;
    }

    /** `fetchPosts.rejected`: the list is kept, the error recorded. */
    method FetchRejected(message: Option<string>)
      modifies this
      ensures !loading && error == Some(FetchErrorMessage(message))
      ensures posts == old(posts) && selectedPost == old(selectedPost)
    {
      loading := false;
      error := Some(FetchErrorMessage(message));
    }

    /** `createPost.fulfilled`: `posts.unshift(payload)`. */
    method CreateFulfilled(payload: Post)
      modifies this
      ensures |posts| == |old(posts)| + 1 && posts[0] == payload && posts[1..] == old(posts)
      ensures loading == old(loading) && error == old(error) && selectedPost == old(selectedPost)
    {
      posts := [payload] + posts;
    }

    /** `updatePost.fulfilled`: find the index, overwrite it if found. */
    method UpdateFulfilled(payload: Post)
      modifies this
      ensures posts == Updated(old(posts), payload)
      ensures loading == old(loading) && error == old(error) && selectedPost == old(selectedPost)
    {
      var index := FindIndex(posts, payload.id);
      if index != -1 {
        posts := posts[index := payload];
      }
    }

    /** `deletePost.fulfilled`: keep the records whose id differs. */
    method DeleteFulfilled(id: int)
      modifies this
      ensures posts == Without(old(posts), id)
      ensures loading == old(loading) && error == old(error) && selectedPost == old(selectedPost)
    {
      posts := Without(posts, id);
    }

    /** `dispatch(fetchPosts())`: pending, then the settlement. */
    method DispatchFetch(response: Settlement<seq<Post>>) returns (request: Api.Request)
      modifies this
      ensures request == Api.ListRequest()
      ensures !loading && selectedPost == old(selectedPost)
      ensures response.Fulfilled? ==> posts == response.value && error == None
      ensures response.Rejected? ==>
        posts == old(posts) && error == Some(FetchErrorMessage(response.message))
    {
      request := Api.ListRequest();
      FetchPending();
      match response
      case Fulfilled(list) => FetchFulfilled(list);
      case Rejected(message) => FetchRejected(message);
    }

    /** `dispatch(createPost(data))`: only fulfilment has a handler, so a
        rejected create leaves the whole state as it was. */
    method DispatchCreate(data: FormPost, response: Settlement<Post>, now: int)
      returns (request: Api.Request)
      modifies this
      ensures request == Api.CreateRequest(data)
      ensures response.Fulfilled? ==> posts == [Api.CreateResult(response.value, now)] + old(posts)
      ensures response.Rejected? ==> posts == old(posts)
      ensures loading == old(loading) && error == old(error) && selectedPost == old(selectedPost)
    {
      request := Api.CreateRequest(data);
      if response.Fulfilled? {
        CreateFulfilled(Api.CreateResult(response.value, now));
      }
    }

    /** `dispatch(updatePost({id, data}))`: a rejected update changes
        nothing. */
    method DispatchUpdate(id: int, data: FormPost, response: Settlement<Post>)
      returns (request: Api.Request)
      modifies this
      ensures request == Api.UpdateRequest(id, data)
      ensures response.Fulfilled? ==> posts == Updated(old(posts), Api.UpdateResult(id, response.value))
      ensures response.Rejected? ==> posts == old(posts)
      ensures loading == old(loading) && error == old(error) && selectedPost == old(selectedPost)
    {
      request := Api.UpdateRequest(id, data);
      if response.Fulfilled? {
        UpdateFulfilled(Api.UpdateResult(id, response.value));
      }
    }

    /** `dispatch(deletePost(id))`: the thunk's payload is the requested id;
        a rejected delete changes nothing. */
    method DispatchDelete(id: int, response: Settlement<()>) returns (request: Api.Request)
      modifies this
      ensures request == Api.DeleteRequest(id)
      ensures response.Fulfilled? ==> posts == Without(old(posts), id)
      ensures response.Rejected? ==> posts == old(posts)
      ensures loading == old(loading) && error == old(error) && selectedPost == old(selectedPost)
    {
      request := Api.DeleteRequest(id);
      if response.Fulfilled? {
        DeleteFulfilled(id);
      }
    }
  }

  /** A client session: fetch one record, create a second, update the
      first, delete it. */
  method Session()
  {
    var store := new PostStore();
    var a := Post(1, "A", "aaaaaaaaaa", 1);
    var _ := store.DispatchFetch(Fulfilled([a]));
    assert store.posts == [a] && !store.loading;

    var created := Post(101, "B", "bbbbbbbbbb", 1);
    var _ := store.DispatchCreate(FormPost("B", "bbbbbbbbbb", None), Fulfilled(created), 1700000000000);
    var b := Post(1700000000000, "B", "bbbbbbbbbb", 1);
    assert store.posts == [b, a];

    var echoed := Post(7, "A2", "aaaaaaaaaa2", 1);
    var _ := store.DispatchUpdate(1, FormPost("A2", "aaaaaaaaaa2", None), Fulfilled(echoed));
    assert IsFirstMatch([b, a], 1, 1);
    assert store.posts == [b, Post(1, "A2", "aaaaaaaaaa2", 1)];

    var _ := store.DispatchDelete(1, Fulfilled(()));
    assert store.posts[1..] == [];
    assert store.posts == [b];
  }
}
