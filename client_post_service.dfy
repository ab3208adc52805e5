/**
 * The browser's PostService: each operation builds one request for the
 * request helpers, and turns the reply (or the `Error` the helpers threw) into
 * the post, or into a thrown message. Sending is a function parameter, so an
 * operation is its request together with what it does with any reply.
 */
module ClientPostService {
  import opened Wrappers
  import opened Text
  import opened Models
  import opened JsObjects
  import opened HttpsService
  import opened Sequences

  const CreateFailed := "Failed to create post"
  const FetchPostFailed := "Failed to fetch post"
  const NotFound := "Post not found"
  const FetchPostsFailed := "Failed to fetch posts"
  const UpdateFailed := "Failed to update post"
  const DeleteFailed := "Failed to delete post"
  const PublishFailed := "Failed to publish post"
  const UnpublishFailed := "Failed to unpublish post"
  const ViewFailed := "Failed to increment view count"
  const PostsPath := "/api/posts"

  /** One use of the request helpers: the helper (its HTTP method) and its options. */
  datatype Call = Call(httpMethod: string, options: RequestOptions)

  /**
   * The common ending of the operations that return a post: an `Error` from
   * the helpers keeps its message, and an unsuccessful reply or one without
   * data throws the server's message, or the operation's own when there is none.
   */
  function PostOutcome(reply: Result<PostResponse, Thrown>, missing: string, fallback: string): (r: Result<Post, string>)
    ensures r.Success? <==> reply.Success? && reply.value.success && reply.value.data.Some?
    ensures r.Success? ==> r.value == reply.value.data.value
    ensures reply.Failure? ==> r == Failure(reply.error.MessageOr(fallback))
    ensures reply.Success? && !(reply.value.success && reply.value.data.Some?) ==> r == Failure(OrDefault(reply.value.error, missing))
  {
    if reply.Failure? then Failure(reply.error.MessageOr(fallback))
    else if !reply.value.success || reply.value.data.None? then Failure(OrDefault(reply.value.error, missing))
    else Success(reply.value.data.value)
  }

  /** `getPosts` and `deletePost` look only at `success`. */
  function PostsOutcome(reply: Result<PostsResponse, Thrown>): (r: Result<PostsResponse, string>)
    ensures r.Success? <==> reply.Success? && reply.value.success
    ensures r.Success? ==> r.value == reply.value
    ensures reply.Failure? ==> r == Failure(reply.error.MessageOr(FetchPostsFailed))
    ensures reply.Success? && !reply.value.success ==> r == Failure(OrDefault(reply.value.error, FetchPostsFailed))
  {
    if reply.Failure? then Failure(reply.error.MessageOr(FetchPostsFailed))
    else if !reply.value.success then Failure(OrDefault(reply.value.error, FetchPostsFailed))
    else Success(reply.value)
  }

  function DeleteOutcome(reply: Result<PostResponse, Thrown>): (r: Result<(), string>)
    ensures r.Success? <==> reply.Success? && reply.value.success
    ensures reply.Failure? ==> r == Failure(reply.error.MessageOr(DeleteFailed))
    ensures reply.Success? && !reply.value.success ==> r == Failure(OrDefault(reply.value.error, DeleteFailed))
  {
    if reply.Failure? then Failure(reply.error.MessageOr(DeleteFailed))
    else if !reply.value.success then Failure(OrDefault(reply.value.error, DeleteFailed))
    else Success(())
  }

  // ---------------------------------------------------------------------------
  // The query string of getPosts

  /** The pair an entry contributes: none for `undefined` and `null`. */
  function EntryPair(e: (string, JsValue)): seq<(string, string)> {
    if Defined(e.1) then [(e.0, ToJsString(e.1))] else []
  }

  /** `queryParams` after the `forEach` over `Object.entries(filters)`. */
  function QueryPairs(o: Entries): (pairs: seq<(string, string)>)
    ensures |pairs| <= |o|
    ensures pairs == [] <==> forall i :: 0 <= i < |o| ==> !Defined(o[i].1)
  {
    if o == [] then []
    else
      var rest := QueryPairs(o[1..]);
      assert forall i :: 1 <= i < |o| ==> o[i] == o[1..][i - 1];
      assert (forall i :: 0 <= i < |o| ==> !Defined(o[i].1)) <==>
             !Defined(o[0].1) && forall i :: 0 <= i < |o[1..]| ==> !Defined(o[1..][i].1);
      EntryPair(o[0]) + rest
  }

  lemma {:induction false} QueryPairsAppend(a: Entries, b: Entries)
    ensures QueryPairs(a + b) == QueryPairs(a) + QueryPairs(b)
  {
    if a == [] {
      assert a + b == b;
    } else {
      var ab := a + b;
      assert ab[0] == a[0] && ab[1..] == a[1..] + b;
      QueryPairsAppend(a[1..], b);
      assert QueryPairs(ab) == EntryPair(a[0]) + (QueryPairs(a[1..]) + QueryPairs(b));
      AppendAssoc(EntryPair(a[0]), QueryPairs(a[1..]), QueryPairs(b));
    }
  }

  /** One more entry adds its pair, if any, at the end. */
  lemma QueryPairsSnoc(o: Entries, i: nat)
    requires i < |o|
    ensures QueryPairs(o[..i + 1]) == QueryPairs(o[..i]) + EntryPair(o[i])
  {
    assert QueryPairs([o[i]]) == EntryPair(o[i]) by {
      assert [o[i]][1..] == [];
    }
    QueryPairsAppend(o[..i], [o[i]]);
    assert o[..i + 1] == o[..i] + [o[i]];
  }

  /** `queryParams.toString()` without percent-encoding. */
  function Serialize(pairs: seq<(string, string)>): string {
    if pairs == [] then ""
    else
      var first := pairs[0].0 + "=" + pairs[0].1;
      if |pairs| == 1 then first else first + "&" + Serialize(pairs[1..])
  }

  /** The URL `getPosts` requests: a '?' only when there is at least one pair. */
  function PostsUrl(pairs: seq<(string, string)>): (url: string)
    ensures PostsPath <= url
    ensures '?' in url <==> pairs != []
  {
    if pairs == [] then PostsPath
    else
      var url := PostsPath + "?" + Serialize(pairs);
      assert url[|PostsPath|] == '?';
      url
  }

  // ---------------------------------------------------------------------------
  // The requests

  function CreatePostCall(data: Entries): Call {
    Call("POST", RequestOptions(PostsPath, Some(data), false, None))
  }

  function PostByIdCall(id: string, skipToken: bool): Call {
    Call("GET", RequestOptions(PostsPath + "/" + id, None, skipToken, None))
  }

  function PostsCall(pairs: seq<(string, string)>, skipToken: bool): Call {
    Call("GET", RequestOptions(PostsUrl(pairs), None, skipToken, None))
  }

  /** `const { id, ...updateData } = postData`: the id goes into the path and out of the body. */
  function UpdatePostCall(postData: Entries): (c: Call)
    ensures c.httpMethod == "PUT" && c.options.url == PostsPath + "/" + ToJsString(Get(postData, "id"))
    ensures c.options.body.Some? && KeySet(c.options.body.value) == KeySet(postData) - {"id"}
    ensures forall k :: k != "id" ==> Get(c.options.body.value, k) == Get(postData, k)
  {
    Call("PUT", RequestOptions(PostsPath + "/" + ToJsString(Get(postData, "id")), Some(Omit(postData, "id")), false, None))
  }

  function DeletePostCall(id: string): Call {
    Call("DELETE", RequestOptions(PostsPath + "/" + id, None, false, None))
  }

  /** The `POST /api/posts/{id}/<action>` requests with an empty body. */
  function ActionCall(id: string, action: string): Call {
    Call("POST", RequestOptions(PostsPath + "/" + id + "/" + action, Some([]), false, None))
  }

  // ---------------------------------------------------------------------------
  // The filter helpers

  /** `{ ...filters, authorId }` */
  function ByAuthor(authorId: string, filters: Option<Entries>): (r: Entries)
    ensures Get(r, "authorId") == Str(authorId)
    ensures forall k :: k != "authorId" ==> Get(r, k) == Get(filters.GetOr([]), k)
  {
    assert KeySet([("authorId", Str(authorId))]) == {"authorId"};
    Spread(filters.GetOr([]), [("authorId", Str(authorId))])
  }

  /**
   * `{ ...filters, [key]: value, isPublished: true }`, the shape of both the category helper
   * (`key` is 'category') and the search helper (`key` is 'search').
   */
  function PublishedWith(key: string, value: string, filters: Option<Entries>): (r: Entries)
    requires key != "isPublished"
    ensures Get(r, key) == Str(value) && Get(r, "isPublished") == Bool(true)
    ensures forall k :: k != key && k != "isPublished" ==> Get(r, k) == Get(filters.GetOr([]), k)
  {
    var own := [(key, Str(value)), ("isPublished", Bool(true))];
    assert KeySet(own[1..]) == {"isPublished"};
    assert KeySet(own) == {key, "isPublished"} && DistinctKeys(own);
    Spread(filters.GetOr([]), own)
  }

  /** `{ isFeatured: true, isPublished: true, limit }`: an absent limit stays an `undefined` entry. */
  function Featured(limit: Option<int>): (r: Entries)
    ensures Get(r, "isFeatured") == Bool(true) && Get(r, "isPublished") == Bool(true)
    ensures Get(r, "limit") == if limit.Some? then Num(limit.value) else Undefined
    ensures KeySet(r) == {"isFeatured", "isPublished", "limit"}
  {
    var r := [("isFeatured", Bool(true)), ("isPublished", Bool(true)), ("limit", if limit.Some? then Num(limit.value) else Undefined)];
    assert r[1..][1..][1..] == [];
    assert KeySet(r[1..][1..]) == {"limit"};
    assert Get(r, "limit") == Get(r[1..][1..], "limit") == r[2].1;
    assert KeySet(r[1..]) == {"isPublished", "limit"};
    r
  }

  class ClientPostService {
    constructor ()
    {
    }

    method CreatePost(data: Entries, send: Call -> Result<PostResponse, Thrown>) returns (r: Result<Post, string>)
      ensures r == PostOutcome(send(CreatePostCall(data)), CreateFailed, CreateFailed)
    {
      r := PostOutcome(send(CreatePostCall(data)), CreateFailed, CreateFailed);
    }

    /** `getPostById`: the fallback for a reply without data is 'Post not found'. */
    method GetPostById(id: string, skipToken: bool, send: Call -> Result<PostResponse, Thrown>) returns (r: Result<Post, string>)
      ensures r == PostOutcome(send(PostByIdCall(id, skipToken)), NotFound, FetchPostFailed)
    {
      r := PostOutcome(send(PostByIdCall(id, skipToken)), NotFound, FetchPostFailed);
    }

    /** `getPosts`: one pair per defined filter entry, in the object's order. */
    method GetPosts(filters: Option<Entries>, skipToken: bool, send: Call -> Result<PostsResponse, Thrown>)
      returns (call: Call, r: Result<PostsResponse, string>)
      ensures call == PostsCall(QueryPairs(filters.GetOr([])), skipToken)
      ensures r == PostsOutcome(send(call))
    {
      var pairs: seq<(string, string)> := [];
      if filters.Some? {
        var o := filters.value;
        for i := 0 to |o|
          invariant pairs == QueryPairs(o[..i])
        {
          var (key, value) := o[i];
          ghost var before := pairs;
          if !value.Undefined? && !value.Null? {
            if value.Strings? {
              pairs := pairs + [(key, Join(value.xs, ','))];
              assert ToJsString(value) == Join(value.xs, ',');
            } else {
              pairs := pairs + [(key, ToJsString(value))];
            }
          }
          assert pairs == before + EntryPair(o[i]);
          QueryPairsSnoc(o, i);
        }
        assert o[..|o|] == o;
      }
      call := PostsCall(pairs, skipToken);
      r := PostsOutcome(send(call));
    }

    method UpdatePost(postData: Entries, send: Call -> Result<PostResponse, Thrown>) returns (r: Result<Post, string>)
      ensures r == PostOutcome(send(UpdatePostCall(postData)), UpdateFailed, UpdateFailed)
    {
      r := PostOutcome(send(UpdatePostCall(postData)), UpdateFailed, UpdateFailed);
    }

    /** `deletePost` gives nothing back, and throws whenever `success` is false. */
    method DeletePost(id: string, send: Call -> Result<PostResponse, Thrown>) returns (r: Result<(), string>)
      ensures r == DeleteOutcome(send(DeletePostCall(id)))
    {
      r := DeleteOutcome(send(DeletePostCall(id)));
    }

    method PublishPost(id: string, send: Call -> Result<PostResponse, Thrown>) returns (r: Result<Post, string>)
      ensures r == PostOutcome(send(ActionCall(id, "publish")), PublishFailed, PublishFailed)
    {
      r := PostOutcome(send(ActionCall(id, "publish")), PublishFailed, PublishFailed);
    }

    method UnpublishPost(id: string, send: Call -> Result<PostResponse, Thrown>) returns (r: Result<Post, string>)
      ensures r == PostOutcome(send(ActionCall(id, "unpublish")), UnpublishFailed, UnpublishFailed)
    {
      r := PostOutcome(send(ActionCall(id, "unpublish")), UnpublishFailed, UnpublishFailed);
    }

    method IncrementViewCount(id: string, send: Call -> Result<PostResponse, Thrown>) returns (r: Result<Post, string>)
      ensures r == PostOutcome(send(ActionCall(id, "view")), ViewFailed, ViewFailed)
    {
      r := PostOutcome(send(ActionCall(id, "view")), ViewFailed, ViewFailed);
    }

    method GetPostsByAuthor(authorId: string, filters: Option<Entries>, skipToken: bool, send: Call -> Result<PostsResponse, Thrown>)
      returns (call: Call, r: Result<PostsResponse, string>)
      ensures call == PostsCall(QueryPairs(ByAuthor(authorId, filters)), skipToken)
      ensures r == PostsOutcome(send(call))
    {
      call, r := GetPosts(Some(ByAuthor(authorId, filters)), skipToken, send);
    }

    method GetFeaturedPosts(limit: Option<int>, skipToken: bool, send: Call -> Result<PostsResponse, Thrown>)
      returns (call: Call, r: Result<PostsResponse, string>)
      ensures call == PostsCall(QueryPairs(Featured(limit)), skipToken)
      ensures r == PostsOutcome(send(call))
    {
      call, r := GetPosts(Some(Featured(limit)), skipToken, send);
    }

    method GetPostsByCategory(category: string, filters: Option<Entries>, skipToken: bool, send: Call -> Result<PostsResponse, Thrown>)
      returns (call: Call, r: Result<PostsResponse, string>)
      ensures call == PostsCall(QueryPairs(PublishedWith("category", category, filters)), skipToken)
      ensures r == PostsOutcome(send(call))
    {
      call, r := GetPosts(Some(PublishedWith("category", category, filters)), skipToken, send);
    }

    method SearchPosts(query: string, filters: Option<Entries>, skipToken: bool, send: Call -> Result<PostsResponse, Thrown>)
      returns (call: Call, r: Result<PostsResponse, string>)
      ensures call == PostsCall(QueryPairs(PublishedWith("search", query, filters)), skipToken)
      ensures r == PostsOutcome(send(call))
    {
      call, r := GetPosts(Some(PublishedWith("search", query, filters)), skipToken, send);
    }
  }

  /** The static `PostService.instance` field. */
  class InstanceSlot {
    var instance: ClientPostService?

    constructor ()
      ensures instance == null
    {
      instance := null;
    }

    /** `getInstance`: creates the service on the first call and hands out that one ever after. */
    method GetInstance() returns (s: ClientPostService)
      modifies this
      ensures old(instance) != null ==> s == old(instance)
      ensures old(instance) == null ==> fresh(s)
      ensures instance == s
    {
      if instance == null {
        instance := new ClientPostService();
      }
      s := instance;
    }
  }

  /** Two calls of `getInstance` return the same object. */
  method SameInstance(slot: InstanceSlot) returns (first: ClientPostService, second: ClientPostService)
    modifies slot
    ensures first == second
  {
    first := slot.GetInstance();
    second := slot.GetInstance();
  }

  // ---------------------------------------------------------------------------
  // The cases the source's tests pin down

  /** The filters of the source's test give the pairs category=Technology and isPublished=true. */
  lemma CategoryQueryPairs()
    ensures QueryPairs([("category", Str("Technology")), ("isPublished", Bool(true))]) ==
            [("category", "Technology"), ("isPublished", "true")]
  {
    var o := [("category", Str("Technology")), ("isPublished", Bool(true))];
    var tail := o[1..];
    assert tail == [("isPublished", Bool(true))] && tail[1..] == [];
    assert EntryPair(tail[0]) == [("isPublished", "true")];
    assert QueryPairs(tail) == EntryPair(tail[0]) + QueryPairs(tail[1..]);
    assert EntryPair(o[0]) == [("category", "Technology")];
  }

  lemma CategoryPairsSerialized()
    ensures Serialize([("category", "Technology"), ("isPublished", "true")]) == "category=Technology&isPublished=true"
  {
    var pairs := [("category", "Technology"), ("isPublished", "true")];
    assert pairs[1..] == [("isPublished", "true")];
    assert Serialize(pairs[1..]) == "isPublished=true";
  }

  lemma CategoryPairsUrl()
    ensures PostsUrl([("category", "Technology"), ("isPublished", "true")]) == PostsPath + "?" + "category=Technology&isPublished=true"
  {
    CategoryPairsSerialized();
  }

  /** `getPosts({ category: 'Technology', isPublished: true })` asks for `/api/posts?category=Technology&isPublished=true`. */
  lemma CategoryQueryUrl()
    ensures PostsUrl(QueryPairs([("category", Str("Technology")), ("isPublished", Bool(true))])) ==
            PostsPath + "?" + "category=Technology&isPublished=true"
  {
    CategoryQueryPairs();
    CategoryPairsUrl();
  }

  /** `getPosts()` asks for `/api/posts`. */
  lemma NoFiltersUrl()
    ensures PostsUrl(QueryPairs([])) == PostsPath
  {
  }

  /** The update of the tests sends its fields to `/api/posts/post-123` without the id. */
  lemma UpdateSendsFieldsWithoutId()
    ensures var c := UpdatePostCall([("id", Str("post-123")), ("title", Str("Updated Post"))]);
            c.options.url == "/api/posts/post-123" && c.options.body == Some([("title", Str("Updated Post"))])
  {
    var o := [("id", Str("post-123")), ("title", Str("Updated Post"))];
    assert Omit(o, "id") == [("title", Str("Updated Post"))] by {
      assert o[1..][1..] == [];
    }
  }
}
