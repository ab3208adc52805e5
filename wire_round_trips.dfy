/**
 * What crosses the wire between the browser's services and the server's
 * controller: the bearer credential the request helpers attach and the
 * controller takes apart, and the post filters the browser writes into the
 * query string and the controller reads back.
 */
module WireRoundTrips {
  import opened Wrappers
  import opened Text
  import opened Models
  import opened JsObjects
  import opened PostRepository
  import opened PostController
  import opened HttpsService
  import opened ClientPostService

  // ---------------------------------------------------------------------------
  // The bearer credential

  /** The controller's `replace('Bearer ', '')` undoes the helpers' `Bearer ${token}`. */
  lemma BearerRoundTrip(token: string)
    ensures ExtractToken(BearerHeader(token)) == token
  {
    var header := BearerHeader(token);
    assert Bearer <= header;
    ExtractTokenCuts(header);
    assert header[|Bearer|..] == token;
  }

  /** A signed-in user's request reaches the controller with that user's token. */
  lemma SignedInTokenReachesController(httpMethod: string, options: RequestOptions, token: string)
    requires !options.skipToken && token != ""
    ensures var auth := Get(Request(httpMethod, options, SignedIn(Success(token))).headers, Authorization);
            auth.Str? && HasAuthorization(Some(auth.s)) && ExtractToken(auth.s) == token
  {
    BearerRoundTrip(token);
  }

  // ---------------------------------------------------------------------------
  // The post filters

  /** The query value an entry of the filters object becomes, if any. */
  function Sent(v: JsValue): Option<string> {
    if Defined(v) then Some(ToJsString(v)) else None
  }

  predicate StringShaped(v: JsValue) { !Defined(v) || v.Str? }
  predicate FlagShaped(v: JsValue) { !Defined(v) || v.Bool? }
  predicate NumberShaped(v: JsValue) { !Defined(v) || v.Num? }

  /**
   * A tag list survives `join(',')` and `split(',')` when no tag holds a comma
   * and it is not the one list `[""]` that joins to nothing.
   */
  predicate TagsShaped(v: JsValue) {
    !Defined(v) || (v.Strings? && v.xs != [""] && forall i :: 0 <= i < |v.xs| ==> Free(v.xs[i], ','))
  }

  /** A filters object whose fields hold the types `PostFilters` declares. */
  predicate WellTyped(o: Entries) {
    && StringShaped(Get(o, "category")) && TagsShaped(Get(o, "tags"))
    && FlagShaped(Get(o, "isPublished")) && FlagShaped(Get(o, "isFeatured"))
    && StringShaped(Get(o, "authorId")) && StringShaped(Get(o, "search"))
    && NumberShaped(Get(o, "page")) && NumberShaped(Get(o, "limit"))
    && StringShaped(Get(o, "sortBy")) && StringShaped(Get(o, "sortOrder"))
  }

  /** The typed filters a browser-side filters object stands for. */
  function TypedFilters(o: Entries): PostFilters {
    PostFilters(
      StringField(Get(o, "category")), ListField(Get(o, "tags")),
      FlagField(Get(o, "isPublished")), FlagField(Get(o, "isFeatured")),
      StringField(Get(o, "authorId")), StringField(Get(o, "search")),
      NumberField(Get(o, "page")), NumberField(Get(o, "limit")),
      StringField(Get(o, "sortBy")), StringField(Get(o, "sortOrder")))
  }

  /** An empty text and an empty tag list are falsy, so the server treats them as absent. */
  function Normalized(f: PostFilters): (g: PostFilters)
    ensures g.isPublished == f.isPublished && g.isFeatured == f.isFeatured
    ensures g.page == f.page && g.limit == f.limit
    ensures g.category.Some? ==> g.category.value != "" && g.category == f.category
    ensures g.tags.Some? ==> g.tags.value != [] && g.tags == f.tags
  {
    f.(category := NonEmpty(f.category), tags := if f.tags == Some([]) then None else f.tags,
       authorId := NonEmpty(f.authorId), search := NonEmpty(f.search),
       sortBy := NonEmpty(f.sortBy), sortOrder := NonEmpty(f.sortOrder))
  }

  /** Every key a query pair carries is a key of the object it came from. */
  lemma {:induction false} QueryPairKeys(o: Entries)
    ensures forall i :: 0 <= i < |QueryPairs(o)| ==> QueryPairs(o)[i].0 in KeySet(o)
  {
    if o != [] {
      QueryPairKeys(o[1..]);
      var head: seq<(string, string)>, rest: seq<(string, string)> := EntryPair(o[0]), QueryPairs(o[1..]);
      assert QueryPairs(o) == head + rest;
      forall i | 0 <= i < |head + rest|
        ensures (head + rest)[i].0 in KeySet(o)
      {
        if i >= |head| {
          assert (head + rest)[i] == rest[i - |head|];
        }
      }
    }
  }

  /** `searchParams.get(key)` on the query the browser built gives the entry's text, or null. */
  lemma {:induction false} ParamOfQueryPairs(o: Entries, key: string)
    requires DistinctKeys(o)
    ensures Param(QueryPairs(o), key) == Sent(Get(o, key))
  {
    if o != [] {
      var rest := QueryPairs(o[1..]);
      assert QueryPairs(o) == EntryPair(o[0]) + rest;
      if Defined(o[0].1) {
        ParamFront(rest, o[0].0, ToJsString(o[0].1), key);
        if o[0].0 != key {
          ParamOfQueryPairs(o[1..], key);
        }
      } else {
        assert QueryPairs(o) == rest;
        if o[0].0 == key {
          QueryPairKeys(o[1..]);
          assert forall i :: 0 <= i < |rest| ==> rest[i].0 != key;
        } else {
          ParamOfQueryPairs(o[1..], key);
        }
      }
    }
  }

  lemma StringRoundTrip(v: JsValue)
    requires StringShaped(v)
    ensures NonEmpty(Sent(v)) == NonEmpty(StringField(v))
  {
  }

  lemma FlagRoundTrip(v: JsValue)
    requires FlagShaped(v)
    ensures FlagParam(Sent(v)) == FlagField(v)
  {
  }

  lemma NumberRoundTrip(v: JsValue)
    requires NumberShaped(v)
    ensures NumberParam(Sent(v)) == NumberField(v)
  {
    if v.Num? {
      ParseIntOfString(v.n);
    }
  }

  lemma TagsRoundTrip(v: JsValue)
    requires TagsShaped(v)
    ensures var t := NonEmpty(Sent(v));
            (if t.Some? then Some(Split(t.value, ',')) else None) ==
            (if ListField(v) == Some([]) then None else ListField(v))
  {
    if v.Strings? {
      JoinEmpty(v.xs, ',');
      if v.xs != [] {
        SplitJoin(v.xs, ',');
      }
    }
  }

  /**
   * The controller reads back exactly the filters the browser meant, except
   * that empty texts and an empty tag list arrive as absent.
   */
  lemma QueryRoundTrip(o: Entries)
    requires DistinctKeys(o) && WellTyped(o)
    ensures ParseFilters(QueryPairs(o)) == Normalized(TypedFilters(o))
  {
    var q := QueryPairs(o);
    ParamOfQueryPairs(o, "category");
    ParamOfQueryPairs(o, "tags");
    ParamOfQueryPairs(o, "isPublished");
    ParamOfQueryPairs(o, "isFeatured");
    ParamOfQueryPairs(o, "authorId");
    ParamOfQueryPairs(o, "search");
    ParamOfQueryPairs(o, "page");
    ParamOfQueryPairs(o, "limit");
    ParamOfQueryPairs(o, "sortBy");
    ParamOfQueryPairs(o, "sortOrder");
    StringRoundTrip(Get(o, "category"));
    TagsRoundTrip(Get(o, "tags"));
    FlagRoundTrip(Get(o, "isPublished"));
    FlagRoundTrip(Get(o, "isFeatured"));
    StringRoundTrip(Get(o, "authorId"));
    StringRoundTrip(Get(o, "search"));
    NumberRoundTrip(Get(o, "page"));
    NumberRoundTrip(Get(o, "limit"));
    StringRoundTrip(Get(o, "sortBy"));
    StringRoundTrip(Get(o, "sortOrder"));
  }

  /** The repository reads the falsy values as absent, so normalising changes no query. */
  lemma NormalizedQueriesAlike(f: PostFilters, p: Post)
    ensures Matches(Normalized(f), p) == Matches(f, p)
    ensures SearchHit(Normalized(f), p) == SearchHit(f, p)
  {
  }

  /** Nor does it change the page, the limit or the order. */
  lemma NormalizedPagesAlike(f: PostFilters)
    ensures PageOf(Normalized(f)) == PageOf(f) && LimitOf(Normalized(f)) == LimitOf(f)
    ensures SortByOf(Normalized(f)) == SortByOf(f) && SortOrderOf(Normalized(f)) == SortOrderOf(f)
  {
  }

  /** Normalising selects the same documents, pages them alike and keeps the same search hits. */
  lemma NormalizedSelectsAlike(docs: map<string, Post>, g: PostFilters, posts: seq<Post>)
    ensures Selected(docs, Normalized(g)) == Selected(docs, g)
    ensures SkipOf(Normalized(g)) == SkipOf(g) && LimitOf(Normalized(g)) == LimitOf(g)
    ensures SortByOf(Normalized(g)) == SortByOf(g) && SortOrderOf(Normalized(g)) == SortOrderOf(g)
    ensures Searched(Normalized(g), posts) == Searched(g, posts)
  {
    var f := Normalized(g);
    NormalizedPagesAlike(g);
    forall k | k in docs
      ensures Matches(f, docs[k]) == Matches(g, docs[k])
    {
      NormalizedQueriesAlike(g, docs[k]);
    }
    SearchedNormalized(g, posts);
  }

  lemma {:induction false} SearchedNormalized(g: PostFilters, posts: seq<Post>)
    ensures Searched(Normalized(g), posts) == Searched(g, posts)
  {
    if posts != [] {
      var init := posts[..|posts| - 1];
      SearchedNormalized(g, init);
      NormalizedQueriesAlike(g, posts[|posts| - 1]);
    }
  }

  /** The documents, the page and the direction of the server's query are those of the browser's filters. */
  lemma BrowserFiltersSelect(docs: map<string, Post>, o: Entries, posts: seq<Post>)
    requires DistinctKeys(o) && WellTyped(o)
    ensures var f := ParseFilters(QueryPairs(o));
            && Selected(docs, f) == Selected(docs, TypedFilters(o))
            && SkipOf(f) == SkipOf(TypedFilters(o)) && LimitOf(f) == LimitOf(TypedFilters(o))
            && SortByOf(f) == SortByOf(TypedFilters(o)) && SortOrderOf(f) == SortOrderOf(TypedFilters(o))
            && Searched(f, posts) == Searched(TypedFilters(o), posts)
  {
    QueryRoundTrip(o);
    NormalizedSelectsAlike(docs, TypedFilters(o), posts);
  }

  lemma FeaturedDistinct(limit: Option<int>)
    ensures DistinctKeys(Featured(limit))
  {
    var o := Featured(limit);
    assert o[1..][1..][1..] == [];
    assert KeySet(o[1..][1..]) == {"limit"};
    assert KeySet(o[1..]) == {"isPublished", "limit"};
    assert DistinctKeys(o[1..][1..][1..]);
    assert DistinctKeys(o[1..][1..]);
    assert DistinctKeys(o[1..]);
    assert o[0].0 !in KeySet(o[1..]);
  }

  lemma FeaturedTyped(limit: Option<int>)
    ensures WellTyped(Featured(limit))
    ensures TypedFilters(Featured(limit)) == NoFilters.(isPublished := Some(true), isFeatured := Some(true), limit := limit)
  {
  }

  /** `getFeaturedPosts(limit)` makes the server ask for published, featured posts and nothing else. */
  lemma FeaturedQuery(limit: Option<int>)
    ensures ParseFilters(QueryPairs(Featured(limit))) ==
            NoFilters.(isPublished := Some(true), isFeatured := Some(true), limit := limit)
  {
    FeaturedDistinct(limit);
    FeaturedTyped(limit);
    QueryRoundTrip(Featured(limit));
  }
}
