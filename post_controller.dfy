/**
 * PostController: the HTTP handlers in front of the server PostService. Each
 * handler reads the request, applies the Authorization-header gate where the
 * route changes data, calls the service, and picks the status code. A request
 * body that fails to parse is the one exception the model can raise; it takes
 * the handler's `catch` path.
 */
module PostController {
  import opened Wrappers
  import opened Text
  import opened Models
  import opened JsObjects
  import opened PostRepository
  import opened ServerPostService

  const NoAuthorizationHeader := "No authorization header"
  const InternalServerError := "Internal server error"
  const Bearer := "Bearer "

  datatype ReplyBody = PostBody(post: PostResponse) | PostsBody(posts: PostsResponse) | ErrorBody(message: string)

  /** `NextResponse.json(body, { status })`. */
  datatype HttpReply = HttpReply(status: int, body: ReplyBody)

  /** The answer to a data-changing request without credentials. */
  const Unauthorized := HttpReply(401, ErrorBody(NoAuthorizationHeader))

  /** `if (!authHeader)` fails for a missing header and for an empty one. */
  predicate HasAuthorization(header: Option<string>) {
    header.Some? && header.value != ""
  }

  /** `authHeader.replace('Bearer ', '')`: the first occurrence of the scheme is cut out. */
  function ExtractToken(header: string): string {
    ReplaceFirst(header, Bearer, "")
  }

  /** A header that starts with the scheme yields the rest; one that never contains it is kept whole. */
  lemma ExtractTokenCuts(header: string)
    ensures Bearer <= header ==> ExtractToken(header) == header[|Bearer|..]
    ensures (forall i :: 0 <= i <= |header| - |Bearer| ==> !OccursAt(header, Bearer, i)) ==> ExtractToken(header) == header
    ensures |ExtractToken(header)| == |header| || |ExtractToken(header)| == |header| - |Bearer|
  {
    var i := IndexOf(header, Bearer);
    assert i >= 0 ==> OccursAt(header, Bearer, i);
  }

  /** The status of a `catch` in every handler but `createPost`: 404 only for exactly 'Post not found'. */
  function ErrorStatus(e: Thrown): (status: int)
    ensures status == 404 <==> e == ErrorObject(PostNotFound)
    ensures status == 404 || status == 500
  {
    if e.ErrorObject? && e.message == PostNotFound then 404 else 500
  }

  /** The reply a `catch` sends: the error's message, or a fixed one for a non-`Error` value. */
  function CatchReply(e: Thrown, status: int): (reply: HttpReply)
    ensures reply.status == status && reply.body.ErrorBody?
    ensures e.ErrorObject? ==> reply.body.message == e.message
    ensures e.NonError? ==> reply.body.message == InternalServerError
  {
    HttpReply(status, ErrorBody(e.MessageOr(InternalServerError)))
  }

  // ---------------------------------------------------------------------------
  // Query parameters

  /** The query of a request URL as `(key, value)` pairs in order. */
  type Query = seq<(string, string)>

  /** Index of the first pair with that key, or -1. */
  function FirstWith(q: Query, key: string): (i: int)
    ensures -1 <= i < |q|
    ensures i >= 0 ==> q[i].0 == key
    ensures forall j :: 0 <= j < |q| && (i < 0 || j < i) ==> q[j].0 != key
  {
    if q == [] then -1
    else if q[0].0 == key then 0
    else
      var i := FirstWith(q[1..], key);
      assert forall j :: 1 <= j < |q| ==> q[j] == q[1..][j - 1];
      if i < 0 then -1 else i + 1
  }

  /** `searchParams.get(key)`: the value of the first pair with that key, or null. */
  function Param(q: Query, key: string): (v: Option<string>)
    ensures v.None? <==> forall i :: 0 <= i < |q| ==> q[i].0 != key
    ensures v.Some? ==> exists i :: 0 <= i < |q| && q[i] == (key, v.value) && forall j :: 0 <= j < i ==> q[j].0 != key
  {
    var i := FirstWith(q, key);
    if i < 0 then None else Some(q[i].1)
  }

  /** `if (value) filters.x = value`: a missing and an empty parameter are both skipped. */
  function NonEmpty(v: Option<string>): (r: Option<string>)
    ensures r.Some? <==> v.Some? && v.value != ""
    ensures r.Some? ==> r == v
  {
    if v.Some? && v.value != "" then v else None
  }

  /** `parseInt` of a present, non-empty parameter; `NaN` behaves like an absent number downstream. */
  function NumberParam(v: Option<string>): (r: Option<int>)
    ensures v.None? || v == Some("") ==> r.None?
    ensures v.Some? && v.value != "" ==> r == ParseInt(v.value)
  {
    if v.Some? && v.value != "" then ParseInt(v.value) else None
  }

  /** A flag parameter that is present is true exactly when it reads "true". */
  function FlagParam(v: Option<string>): (r: Option<bool>)
    ensures r.Some? <==> v.Some?
    ensures r.Some? ==> (r.value <==> v.value == "true")
  {
    if v.Some? then Some(v.value == "true") else None
  }

  /** The filters `getPosts` builds from the request's query. */
  function ParseFilters(q: Query): PostFilters
  {
    var tags := NonEmpty(Param(q, "tags"));
    PostFilters(
      NonEmpty(Param(q, "category")),
      if tags.Some? then Some(Split(tags.value, ',')) else None,
      FlagParam(Param(q, "isPublished")),
      FlagParam(Param(q, "isFeatured")),
      NonEmpty(Param(q, "authorId")),
      NonEmpty(Param(q, "search")),
      NumberParam(Param(q, "page")),
      NumberParam(Param(q, "limit")),
      NonEmpty(Param(q, "sortBy")),
      NonEmpty(Param(q, "sortOrder")))
  }

  /** A request without query parameters asks for `{}`. */
  lemma ParseNoParameters()
    ensures ParseFilters([]) == NoFilters
  {
  }

  /** A pair in front of the query hides every later pair with its key and no other. */
  lemma ParamFront(q: Query, k: string, v: string, key: string)
    ensures Param([(k, v)] + q, key) == if k == key then Some(v) else Param(q, key)
  {
    var q' := [(k, v)] + q;
    assert q'[1..] == q;
    assert forall j :: 1 <= j < |q'| ==> q'[j] == q[j - 1];
  }

  /** The parameters `getPosts` reads. */
  predicate KnownParam(k: string) {
    k in {"category", "tags", "isPublished", "isFeatured", "authorId", "search", "page", "limit", "sortBy", "sortOrder"}
  }

  /** A parameter the parser does not know changes nothing. */
  lemma ParseIgnoresUnknown(q: Query, k: string, v: string)
    requires !KnownParam(k)
    ensures ParseFilters([(k, v)] + q) == ParseFilters(q)
  {
    assert k != "category" && k != "tags" && k != "isPublished" && k != "isFeatured" && k != "authorId";
    assert k != "search" && k != "page" && k != "limit" && k != "sortBy" && k != "sortOrder";
    ParamFront(q, k, v, "category");
    ParamFront(q, k, v, "tags");
    ParamFront(q, k, v, "isPublished");
    ParamFront(q, k, v, "isFeatured");
    ParamFront(q, k, v, "authorId");
    ParamFront(q, k, v, "search");
    ParamFront(q, k, v, "page");
    ParamFront(q, k, v, "limit");
    ParamFront(q, k, v, "sortBy");
    ParamFront(q, k, v, "sortOrder");
  }

  // ---------------------------------------------------------------------------
  // The update body

  function StringField(v: JsValue): Option<string> {
    if v.Str? then Some(v.s) else None
  }

  function FlagField(v: JsValue): Option<bool> {
    if v.Bool? then Some(v.b) else None
  }

  function ListField(v: JsValue): Option<seq<string>> {
    if v.Strings? then Some(v.xs) else None
  }

  function NumberField(v: JsValue): Option<int> {
    if v.Num? then Some(v.n) else None
  }

  /**
   * The fields of an update body: those of `Partial<CreatePostData>` and the stored-post keys a
   * body may also carry, since the body is spread into the update whatever its keys.
   */
  function FieldsOf(o: Entries): PostFields {
    PostFields(
      StringField(Get(o, "title")),
      StringField(Get(o, "content")),
      StringField(Get(o, "excerpt")),
      StringField(Get(o, "category")),
      ListField(Get(o, "tags")),
      StringField(Get(o, "featuredImage")),
      FlagField(Get(o, "isPublished")),
      FlagField(Get(o, "isFeatured")),
      StringField(Get(o, "readTime")),
      StringField(Get(o, "authorId")),
      StringField(Get(o, "authorName")),
      StringField(Get(o, "slug")),
      NumberField(Get(o, "viewCount")),
      NumberField(Get(o, "likeCount")))
  }

  /** `{ ...body, id }`: the path id wins over any `id` in the body, and every other field is the body's. */
  function UpdateData(body: Entries, id: string): (d: UpdatePostData)
    ensures d.id == id
    ensures d.fields == FieldsOf(body)
  {
    var merged := Spread(body, [("id", Str(id))]);
    assert DistinctKeys([("id", Str(id))]);
    assert KeySet([("id", Str(id))]) == {"id"};
    assert Get(merged, "id") == Str(id);
    assert FieldsOf(merged) == FieldsOf(body);
    UpdatePostData(Get(merged, "id").s, FieldsOf(merged))
  }

  /**
   * The owner's update body decides the author: a string `authorId` in it becomes the post's
   * author, and without one the author stays.
   */
  lemma UpdateBodyDecidesAuthor(body: Entries, id: string, existing: Post, now: Time)
    ensures Get(body, "authorId").Str? ==> UpdatedPost(UpdateData(body, id), existing, now).authorId == Get(body, "authorId").s
    ensures !Get(body, "authorId").Str? ==> UpdatedPost(UpdateData(body, id), existing, now).authorId == existing.authorId
  {
    var d := UpdateData(body, id);
    assert d.fields.authorId == StringField(Get(body, "authorId"));
  }

  /** A body with none of the stored-post keys leaves the author, the slug and the counters as they were. */
  lemma UpdateBodyWithoutStoredKeys(body: Entries, id: string, existing: Post, now: Time)
    requires forall k :: k in ["authorId", "authorName", "slug", "viewCount", "likeCount"] ==> Get(body, k) == Undefined
    ensures var q := UpdatedPost(UpdateData(body, id), existing, now);
            && q.authorId == existing.authorId && q.authorName == existing.authorName && q.slug == existing.slug
            && q.viewCount == existing.viewCount && q.likeCount == existing.likeCount
  {
    var d := UpdateData(body, id);
    assert Get(body, "authorId") == Undefined && Get(body, "authorName") == Undefined && Get(body, "slug") == Undefined;
    assert Get(body, "viewCount") == Undefined && Get(body, "likeCount") == Undefined;
    assert d.fields.authorId.None? && d.fields.authorName.None? && d.fields.slug.None?;
    assert d.fields.viewCount.None? && d.fields.likeCount.None?;
  }

  /** `getPosts`' loop-free construction of `filters`, one guarded assignment per parameter. */
  method ReadFilters(q: Query) returns (filters: PostFilters)
    ensures filters == ParseFilters(q)
  {
    filters := NoFilters;
    var category := Param(q, "category");
    var tags := Param(q, "tags");
    var isPublished := Param(q, "isPublished");
    var isFeatured := Param(q, "isFeatured");
    var authorId := Param(q, "authorId");
    var search := Param(q, "search");
    var page := Param(q, "page");
    var limit := Param(q, "limit");
    var sortBy := Param(q, "sortBy");
    var sortOrder := Param(q, "sortOrder");
    ghost var target := ParseFilters(q);
    assert target == PostFilters(NonEmpty(category), if NonEmpty(tags).Some? then Some(Split(tags.value, ',')) else None,
                                 FlagParam(isPublished), FlagParam(isFeatured), NonEmpty(authorId), NonEmpty(search),
                                 NumberParam(page), NumberParam(limit), NonEmpty(sortBy), NonEmpty(sortOrder));
    if category.Some? && category.value != "" { filters := filters.(category := category); }
    assert filters == target.(tags := None, isPublished := None, isFeatured := None, authorId := None, search := None, page := None, limit := None, sortBy := None, sortOrder := None);
    if tags.Some? && tags.value != "" { filters := filters.(tags := Some(Split(tags.value, ','))); }
    assert filters == target.(isPublished := None, isFeatured := None, authorId := None, search := None, page := None, limit := None, sortBy := None, sortOrder := None);
    if isPublished.Some? { filters := filters.(isPublished := Some(isPublished.value == "true")); }
    assert filters == target.(isFeatured := None, authorId := None, search := None, page := None, limit := None, sortBy := None, sortOrder := None);
    if isFeatured.Some? { filters := filters.(isFeatured := Some(isFeatured.value == "true")); }
    assert filters == target.(authorId := None, search := None, page := None, limit := None, sortBy := None, sortOrder := None);
    if authorId.Some? && authorId.value != "" { filters := filters.(authorId := authorId); }
    assert filters == target.(search := None, page := None, limit := None, sortBy := None, sortOrder := None);
    if search.Some? && search.value != "" { filters := filters.(search := search); }
    assert filters == target.(page := None, limit := None, sortBy := None, sortOrder := None);
    if page.Some? && page.value != "" { filters := filters.(page := ParseInt(page.value)); }
    assert filters == target.(limit := None, sortBy := None, sortOrder := None);
    if limit.Some? && limit.value != "" { filters := filters.(limit := ParseInt(limit.value)); }
    assert filters == target.(sortBy := None, sortOrder := None);
    if sortBy.Some? && sortBy.value != "" { filters := filters.(sortBy := sortBy); }
    assert filters == target.(sortOrder := None);
    if sortOrder.Some? && sortOrder.value != "" { filters := filters.(sortOrder := sortOrder); }
  }

  class PostController {
    const service: PostService

    constructor (service: PostService)
      ensures this.service == service
    {
      this.service := service;
    }

    /** `createPost`: 401 without a header; otherwise 201 when the service succeeded and 400 when it did not. */
    method CreatePost(body: Result<CreatePostData, Thrown>, authorization: Option<string>, now: Time, generatedId: string)
      returns (reply: HttpReply)
      requires generatedId !in service.posts.db.docs
      modifies service.posts.db
      ensures body.Failure? ==> reply == CatchReply(body.error, 500) && service.posts.db.docs == old(service.posts.db.docs)
      ensures body.Success? && !HasAuthorization(authorization) ==>
                reply == Unauthorized && service.posts.db.docs == old(service.posts.db.docs)
      ensures body.Success? && HasAuthorization(authorization) ==>
                && reply.body.PostBody?
                && (reply.status == 201 <==> reply.body.post.success)
                && (reply.status == 201 || reply.status == 400)
      ensures body.Success? && HasAuthorization(authorization) ==>
                var user := old(service.Caller(ExtractToken(authorization.value)));
                && (user.None? ==> reply == HttpReply(400, PostBody(PostFailure(InvalidToken)))
                                   && service.posts.db.docs == old(service.posts.db.docs))
                && (user.Some? ==> var p := NewPost(body.value, user.value, now);
                                   && reply == HttpReply(201, PostBody(PostSuccess(Some(p.(id := Some(generatedId))))))
                                   && service.posts.db.docs == old(service.posts.db.docs)[generatedId := p])
    {
      if body.Failure? {
        return CatchReply(body.error, 500);
      }
      if !HasAuthorization(authorization) {
        return Unauthorized;
      }
      var token := ExtractToken(authorization.value);
      var result := service.CreatePost(body.value, token, now, generatedId);
      var status := if result.success then 201 else 400;
      reply := HttpReply(status, PostBody(result));
    }

    /** `getPostById`: the service's answer with the default status 200, 'Post not found' included. */
    method GetPostById(id: string) returns (reply: HttpReply)
      ensures reply.status == 200
      ensures id in service.posts.db.docs ==> reply.body == PostBody(PostSuccess(Some(service.posts.db.docs[id])))
      ensures id !in service.posts.db.docs ==> reply.body == PostBody(PostFailure(PostNotFound))
    {
      var result := service.GetPostById(id);
      reply := HttpReply(200, PostBody(result));
    }

    /** `getPosts`: the filters are built one parameter after the other, then the service answers with status 200. */
    method GetPosts(q: Query) returns (reply: HttpReply)
      ensures reply.status == 200 && reply.body.PostsBody?
      ensures var f := ParseFilters(q);
              && (reply.body.posts.success <==> LimitOf(f) >= 0 && DirectionOf(SortOrderOf(f)).Some?)
              && (!reply.body.posts.success ==> reply.body.posts == PostsFailure(InvalidQuery))
              && (reply.body.posts.success ==> Listing(service.posts.db.docs, f, reply.body.posts))
    {
      var filters := ReadFilters(q);
      var result := service.GetPosts(filters);
      reply := HttpReply(200, PostsBody(result));
    }

    /** `updatePost`: the body is read first, then the header gate, then the service with the path id. */
    method UpdatePost(body: Result<Entries, Thrown>, id: string, authorization: Option<string>, now: Time)
      returns (reply: HttpReply)
      requires service.Valid()
      modifies service.posts.db
      ensures body.Failure? ==>
                reply == CatchReply(body.error, ErrorStatus(body.error)) && service.posts.db.docs == old(service.posts.db.docs)
      ensures body.Success? && !HasAuthorization(authorization) ==>
                reply == Unauthorized && service.posts.db.docs == old(service.posts.db.docs)
      ensures body.Success? && HasAuthorization(authorization) ==>
                var d := UpdatePostData(id, FieldsOf(body.value));
                var denial := old(service.Denial(ExtractToken(authorization.value), id, "update"));
                && reply.status == 200
                && (denial.None? ==> id in old(service.posts.db.docs))
                && (denial.Some? ==> reply.body == PostBody(PostFailure(denial.value))
                                     && service.posts.db.docs == old(service.posts.db.docs))
                && (denial.None? ==>
                      var updated := UpdatedPost(d, old(service.posts.db.docs)[id], now);
                      reply.body == PostBody(PostSuccess(Some(updated)))
                      && service.posts.db.docs == old(service.posts.db.docs)[id := updated])
    {
      if body.Failure? {
        return CatchReply(body.error, ErrorStatus(body.error));
      }
      if !HasAuthorization(authorization) {
        return Unauthorized;
      }
      var token := ExtractToken(authorization.value);
      var result := service.UpdatePost(UpdateData(body.value, id), token, now);
      reply := HttpReply(200, PostBody(result));
    }

    method DeletePost(id: string, authorization: Option<string>) returns (reply: HttpReply)
      modifies service.posts.db
      ensures !HasAuthorization(authorization) ==> reply == Unauthorized && service.posts.db.docs == old(service.posts.db.docs)
      ensures HasAuthorization(authorization) ==>
                var denial := old(service.Denial(ExtractToken(authorization.value), id, "delete"));
                && reply.status == 200
                && (denial.Some? ==> reply.body == PostBody(PostFailure(denial.value))
                                     && service.posts.db.docs == old(service.posts.db.docs))
                && (denial.None? ==> reply.body == PostBody(PostSuccess(None))
                                     && service.posts.db.docs == old(service.posts.db.docs) - {id})
    {
      if !HasAuthorization(authorization) {
        return Unauthorized;
      }
      var result := service.DeletePost(id, ExtractToken(authorization.value));
      reply := HttpReply(200, PostBody(result));
    }

    method PublishPost(id: string, authorization: Option<string>, now: Time) returns (reply: HttpReply)
      requires service.Valid()
      modifies service.posts.db
      ensures !HasAuthorization(authorization) ==> reply == Unauthorized && service.posts.db.docs == old(service.posts.db.docs)
      ensures HasAuthorization(authorization) ==>
                var denial := old(service.Denial(ExtractToken(authorization.value), id, "publish"));
                && reply.status == 200
                && (denial.Some? ==> reply.body == PostBody(PostFailure(denial.value))
                                     && service.posts.db.docs == old(service.posts.db.docs))
                && (denial.None? ==>
                      var updated := old(service.posts.db.docs)[id].(isPublished := true, publishedAt := Some(now), updatedAt := Some(now));
                      reply.body == PostBody(PostSuccess(Some(updated)))
                      && service.posts.db.docs == old(service.posts.db.docs)[id := updated])
    {
      if !HasAuthorization(authorization) {
        return Unauthorized;
      }
      var result := service.PublishPost(id, ExtractToken(authorization.value), now);
      reply := HttpReply(200, PostBody(result));
    }

    method UnpublishPost(id: string, authorization: Option<string>, now: Time) returns (reply: HttpReply)
      requires service.Valid()
      modifies service.posts.db
      ensures !HasAuthorization(authorization) ==> reply == Unauthorized && service.posts.db.docs == old(service.posts.db.docs)
      ensures HasAuthorization(authorization) ==>
                var denial := old(service.Denial(ExtractToken(authorization.value), id, "unpublish"));
                && reply.status == 200
                && (denial.Some? ==> reply.body == PostBody(PostFailure(denial.value))
                                     && service.posts.db.docs == old(service.posts.db.docs))
                && (denial.None? ==>
                      var updated := old(service.posts.db.docs)[id].(isPublished := false, updatedAt := Some(now));
                      reply.body == PostBody(PostSuccess(Some(updated)))
                      && service.posts.db.docs == old(service.posts.db.docs)[id := updated])
    {
      if !HasAuthorization(authorization) {
        return Unauthorized;
      }
      var result := service.UnpublishPost(id, ExtractToken(authorization.value), now);
      reply := HttpReply(200, PostBody(result));
    }

    /** `incrementViewCount`: no header is needed. */
    method IncrementViewCount(id: string, now: Time) returns (reply: HttpReply)
      requires service.Valid()
      modifies service.posts.db
      ensures reply.status == 200
      ensures id !in old(service.posts.db.docs) ==>
                reply.body == PostBody(PostFailure(PostNotFound)) && service.posts.db.docs == old(service.posts.db.docs)
      ensures id in old(service.posts.db.docs) ==>
                var p := old(service.posts.db.docs)[id];
                var updated := p.(viewCount := Some(p.viewCount.GetOr(0) + 1), updatedAt := Some(now));
                reply.body == PostBody(PostSuccess(Some(updated))) && service.posts.db.docs == old(service.posts.db.docs)[id := updated]
    {
      var result := service.IncrementViewCount(id, now);
      reply := HttpReply(200, PostBody(result));
    }
  }
}
