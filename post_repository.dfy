/**
 * PostRepository: the `posts` collection and its queries. A query keeps the
 * documents that satisfy the filters' `where` clauses, orders them by the sort
 * field (documents without that field drop out, as Firestore's `orderBy`
 * requires the field), breaks ties by document id in the same direction, skips
 * the offset, takes the limit, and then applies the free-text search to the
 * page it got.
 */
module PostRepository {
  import opened Wrappers
  import opened Text
  import opened Models
  import opened DocumentStore
  import opened Sequences

  const DefaultSortBy := "createdAt"
  const DefaultSortOrder := "desc"
  const DefaultPage := 1
  const DefaultLimit := 10

  /** What the store answers to a query it cannot run (a negative limit, an unknown direction). */
  const InvalidQuery := "Invalid query"

  /** `x || d` on an optional number: an absent value and 0 both fall back. */
  function NumberOr(o: Option<int>, d: int): (r: int)
    ensures o.Some? && o.value != 0 ==> r == o.value
    ensures o.None? || o.value == 0 ==> r == d
  {
    if o.Some? && o.value != 0 then o.value else d
  }

  function PageOf(f: PostFilters): int { NumberOr(f.page, DefaultPage) }
  function LimitOf(f: PostFilters): int { NumberOr(f.limit, DefaultLimit) }
  function SortByOf(f: PostFilters): string { OrDefault(f.sortBy, DefaultSortBy) }
  function SortOrderOf(f: PostFilters): string { OrDefault(f.sortOrder, DefaultSortOrder) }

  function SkipOf(f: PostFilters): nat { Skip(PageOf(f), LimitOf(f)) }

  /** `array-contains-any`: some wanted tag is among the post's tags. */
  predicate HasAnyTag(wanted: seq<string>, tags: seq<string>) {
    wanted != [] && (wanted[0] in tags || HasAnyTag(wanted[1..], tags))
  }

  /** The `where` clauses shared by findMany and count. */
  predicate Matches(f: PostFilters, p: Post) {
    && (f.category.Some? && f.category.value != "" ==> p.category == f.category.value)
    && (f.isPublished.Some? ==> p.isPublished == f.isPublished.value)
    && (f.isFeatured.Some? ==> p.isFeatured == f.isFeatured.value)
    && (f.authorId.Some? && f.authorId.value != "" ==> p.authorId == f.authorId.value)
    && (f.tags.Some? && |f.tags.value| > 0 ==> HasAnyTag(f.tags.value, p.tags))
  }

  /** The search applied after a query: the term, ignoring case, in the title, content or excerpt. */
  predicate SearchHit(f: PostFilters, p: Post) {
    f.search.None? || f.search.value == "" ||
    ContainsIgnoringCase(p.title, f.search.value) ||
    ContainsIgnoringCase(p.content, f.search.value) ||
    ContainsIgnoringCase(p.excerpt, f.search.value)
  }

  /** A field value as the store orders it: booleans before numbers (and timestamps) before strings. */
  datatype SortValue = BoolValue(b: bool) | NumberValue(n: int) | StringValue(s: string)

  /** The value of the field named `field`, if the document has it. */
  function SortKey(p: Post, field: string): Option<SortValue> {
    match field
    case "id" => if p.id.Some? then Some(StringValue(p.id.value)) else None
    case "title" => Some(StringValue(p.title))
    case "content" => Some(StringValue(p.content))
    case "excerpt" => Some(StringValue(p.excerpt))
    case "category" => Some(StringValue(p.category))
    case "featuredImage" => Some(StringValue(p.featuredImage))
    case "isPublished" => Some(BoolValue(p.isPublished))
    case "isFeatured" => Some(BoolValue(p.isFeatured))
    case "readTime" => Some(StringValue(p.readTime))
    case "authorId" => Some(StringValue(p.authorId))
    case "authorName" => if p.authorName.Some? then Some(StringValue(p.authorName.value)) else None
    case "createdAt" => if p.createdAt.Some? then Some(NumberValue(p.createdAt.value)) else None
    case "updatedAt" => if p.updatedAt.Some? then Some(NumberValue(p.updatedAt.value)) else None
    case "publishedAt" => if p.publishedAt.Some? then Some(NumberValue(p.publishedAt.value)) else None
    case "slug" => if p.slug.Some? then Some(StringValue(p.slug.value)) else None
    case "viewCount" => if p.viewCount.Some? then Some(NumberValue(p.viewCount.value)) else None
    case "likeCount" => if p.likeCount.Some? then Some(NumberValue(p.likeCount.value)) else None
    case _ => None
  }

  function Rank(v: SortValue): nat {
    match v
    case BoolValue(_) => 0
    case NumberValue(_) => 1
    case StringValue(_) => 2
  }

  predicate ValueLess(a: SortValue, b: SortValue) {
    if Rank(a) != Rank(b) then Rank(a) < Rank(b)
    else match (a, b)
      case (BoolValue(x), BoolValue(y)) => !x && y
      case (NumberValue(x), NumberValue(y)) => x < y
      case (StringValue(x), StringValue(y)) => LexLess(x, y)
      case _ => false
  }

  /** An absent value sorts first. */
  predicate KeyLess(a: Option<SortValue>, b: Option<SortValue>) {
    (a.None? && b.Some?) || (a.Some? && b.Some? && ValueLess(a.value, b.value))
  }

  datatype Direction = Ascending | Descending

  function DirectionOf(order: string): Option<Direction> {
    if order == "asc" then Some(Ascending)
    else if order == "desc" then Some(Descending)
    else None
  }

  function KeyOf(docs: map<string, Post>, field: string, k: string): Option<SortValue> {
    if k in docs then SortKey(docs[k], field) else None
  }

  /** Document `a` comes before document `b`: by the sort field, then by id, both in direction `d`. */
  predicate Precedes(docs: map<string, Post>, field: string, d: Direction, a: string, b: string) {
    var (ka, kb) := (KeyOf(docs, field, a), KeyOf(docs, field, b));
    match d
    case Ascending => KeyLess(ka, kb) || (ka == kb && LexLess(a, b))
    case Descending => KeyLess(kb, ka) || (ka == kb && LexLess(b, a))
  }

  lemma ValueLessTransitive(a: SortValue, b: SortValue, c: SortValue)
    requires ValueLess(a, b) && ValueLess(b, c)
    ensures ValueLess(a, c)
  {
    if a.StringValue? && b.StringValue? && c.StringValue? {
      LexLessTransitive(a.s, b.s, c.s);
    }
  }

  lemma ValueLessTotal(a: SortValue, b: SortValue)
    requires a != b
    ensures ValueLess(a, b) || ValueLess(b, a)
  {
    if a.StringValue? && b.StringValue? {
      LexLessTotal(a.s, b.s);
    }
  }

  lemma ValueLessIrreflexive(a: SortValue)
    ensures !ValueLess(a, a)
  {
    if a.StringValue? {
      LexLessIrreflexive(a.s);
    }
  }

  lemma PrecedesTransitive(docs: map<string, Post>, field: string, d: Direction, a: string, b: string, c: string)
    requires Precedes(docs, field, d, a, b) && Precedes(docs, field, d, b, c)
    ensures Precedes(docs, field, d, a, c)
  {
    var (ka, kb, kc) := (KeyOf(docs, field, a), KeyOf(docs, field, b), KeyOf(docs, field, c));
    if ka.Some? && kb.Some? && kc.Some? {
      if ValueLess(ka.value, kb.value) && ValueLess(kb.value, kc.value) {
        ValueLessTransitive(ka.value, kb.value, kc.value);
      }
      if ValueLess(kc.value, kb.value) && ValueLess(kb.value, ka.value) {
        ValueLessTransitive(kc.value, kb.value, ka.value);
      }
    }
    if ka == kb && kb == kc {
      if ka.Some? {
        ValueLessIrreflexive(ka.value);
      }
      if d == Ascending {
        LexLessTransitive(a, b, c);
      } else {
        LexLessTransitive(c, b, a);
      }
    }
  }

  /** Different documents are always ordered: the id breaks every tie. */
  lemma PrecedesTotal(docs: map<string, Post>, field: string, d: Direction, a: string, b: string)
    requires a != b
    ensures Precedes(docs, field, d, a, b) || Precedes(docs, field, d, b, a)
  {
    var (ka, kb) := (KeyOf(docs, field, a), KeyOf(docs, field, b));
    LexLessTotal(a, b);
    if ka.Some? && kb.Some? && ka != kb {
      ValueLessTotal(ka.value, kb.value);
    }
  }

  lemma PrecedesIrreflexive(docs: map<string, Post>, field: string, d: Direction, a: string)
    ensures !Precedes(docs, field, d, a, a)
  {
    LexLessIrreflexive(a);
    var ka := KeyOf(docs, field, a);
    if ka.Some? {
      ValueLessIrreflexive(ka.value);
    }
  }

  /** The store's order on documents is a strict total order on their ids. */
  lemma PrecedesOrder(docs: map<string, Post>, field: string, d: Direction, before: (string, string) -> bool)
    requires forall a, b :: before(a, b) == Precedes(docs, field, d, a, b)
    ensures StrictTotalOrder(before)
  {
    forall a, b, c | before(a, b) && before(b, c)
      ensures before(a, c)
    {
      PrecedesTransitive(docs, field, d, a, b, c);
    }
    forall a, b | a != b
      ensures before(a, b) || before(b, a)
    {
      PrecedesTotal(docs, field, d, a, b);
    }
  }

  /** The documents a query pages through: they satisfy the filters and have the sort field. */
  ghost function Selected(docs: map<string, Post>, f: PostFilters): set<string> {
    set k | k in docs && Matches(f, docs[k]) && SortKey(docs[k], SortByOf(f)).Some?
  }

  ghost predicate Ordered(docs: map<string, Post>, field: string, d: Direction, ks: seq<string>) {
    forall i, j :: 0 <= i < j < |ks| ==> Precedes(docs, field, d, ks[i], ks[j])
  }

  /** `ks` is the order in which the store returns the selected documents. */
  ghost predicate Arranged(docs: map<string, Post>, f: PostFilters, d: Direction, ks: seq<string>) {
    Enumerates(ks, Selected(docs, f)) && Ordered(docs, SortByOf(f), d, ks)
  }

  /** A document as a query returns it: its stored `id` field, if any, wins over the document id. */
  function Materialize(k: string, p: Post): (r: Post)
    ensures r.id.Some? && r == p.(id := r.id)
    ensures r.id == if p.id.Some? then p.id else Some(k)
  {
    p.(id := Some(p.id.GetOr(k)))
  }

  /** Every listed key names a document. */
  predicate AllIn(docs: map<string, Post>, ks: seq<string>) {
    forall i :: 0 <= i < |ks| ==> ks[i] in docs
  }

  function Materialized(docs: map<string, Post>, ks: seq<string>): (r: seq<Post>)
    requires AllIn(docs, ks)
    ensures |r| == |ks|
    ensures forall i :: 0 <= i < |ks| ==> r[i] == Materialize(ks[i], docs[ks[i]])
  {
    seq(|ks|, i requires 0 <= i < |ks| => Materialize(ks[i], docs[ks[i]]))
  }

  lemma ListedIn(docs: map<string, Post>, ks: seq<string>, keys: set<string>)
    requires Enumerates(ks, keys) && keys <= docs.Keys
    ensures AllIn(docs, ks)
  {
  }

  lemma WindowIn(docs: map<string, Post>, ks: seq<string>, skip: nat, limit: nat)
    requires AllIn(docs, ks)
    ensures AllIn(docs, Window(ks, skip, limit))
  {
    var w := Window(ks, skip, limit);
    forall i | 0 <= i < |w| ensures w[i] in docs {
      assert w[i] == ks[Min(skip, |ks|) + i];
    }
  }

  /** The loop that turns the listed documents into posts, one at a time. */
  method MaterializeAll(docs: map<string, Post>, ks: seq<string>) returns (posts: seq<Post>)
    requires AllIn(docs, ks)
    ensures posts == Materialized(docs, ks)
  {
    posts := [];
    for i := 0 to |ks|
      invariant posts == Materialized(docs, ks[..i])
    {
      posts := posts + [Materialize(ks[i], docs[ks[i]])];
    }
    assert ks[..|ks|] == ks;
  }

  function SearchOf(f: PostFilters): Post -> bool {
    (p: Post) => SearchHit(f, p)
  }

  /** `posts.filter(...)` with the search of `f`, in order. */
  function Searched(f: PostFilters, posts: seq<Post>): seq<Post> {
    Filter(SearchOf(f), posts)
  }

  /** Without a search term every post is kept. */
  lemma SearchedAll(f: PostFilters, posts: seq<Post>)
    requires f.search.None? || f.search.value == ""
    ensures Searched(f, posts) == posts
  {
    FilterAll(SearchOf(f), posts);
  }

  /** The store queries themselves. */
  class PostRepository {
    const db: Collection<Post, PostPatch>

    ghost predicate Valid() {
      db.merge == ApplyPostPatch
    }

    constructor ()
      ensures Valid() && fresh(db) && db.docs == map[]
    {
      db := new Collection(ApplyPostPatch);
    }

    /** `findMany(filters)`. */
    method FindMany(f: PostFilters) returns (r: Result<seq<Post>, string>)
      ensures r.Failure? <==> LimitOf(f) < 0 || DirectionOf(SortOrderOf(f)).None?
      ensures r.Failure? ==> r.error == InvalidQuery
      ensures r.Success? ==>
        (exists ks :: Arranged(db.docs, f, DirectionOf(SortOrderOf(f)).value, ks) &&
          r.value == Searched(f, Materialized(db.docs, Window(ks, SkipOf(f), LimitOf(f)))))
    {
      var field, direction, limit := SortByOf(f), DirectionOf(SortOrderOf(f)), LimitOf(f);
      if limit < 0 || direction.None? {
        return Failure(InvalidQuery);
      }
      var docs := db.docs;
      var selected := Enumerate(set k | k in docs && Matches(f, docs[k]) && SortKey(docs[k], field).Some?);
      var before := (a: string, b: string) => Precedes(docs, field, direction.value, a, b);
      PrecedesOrder(docs, field, direction.value, before);
      var ks := Arrange(before, selected);
      EnumeratesPermutation(selected, ks, Selected(docs, f));
      assert Ordered(docs, field, direction.value, ks) by {
        assert SortedBy(before, ks);
      }
      var page := Window(ks, SkipOf(f), limit);
      ListedIn(docs, ks, Selected(docs, f));
      WindowIn(docs, ks, SkipOf(f), limit);
      var posts := MaterializeAll(docs, page);
      if f.search.Some? && f.search.value != "" {
        r := Success(Searched(f, posts));
      } else {
        SearchedAll(f, posts);
        r := Success(posts);
      }
    }

    /** `count(filters)`: how many documents satisfy the filters (with or without the sort field) and the search. */
    method Count(f: PostFilters) returns (n: nat)
      ensures exists ks :: Enumerates(ks, set k | k in db.docs && Matches(f, db.docs[k])) &&
                n == |Searched(f, Materialized(db.docs, ks))|
    {
      var docs := db.docs;
      var ks := Enumerate(set k | k in docs && Matches(f, docs[k]));
      n := |ks|;
      if f.search.Some? && f.search.value != "" {
        ListedIn(docs, ks, set k | k in docs && Matches(f, docs[k]));
        var posts := MaterializeAll(docs, ks);
        n := |Searched(f, posts)|;
      } else {
        SearchedAll(f, Materialized(docs, ks));
      }
    }

    /** `findBySlug(slug)`: among the documents with that slug, the one with the lowest id. */
    method FindBySlug(slug: string) returns (r: Option<Post>)
      ensures r.None? <==> forall k :: k in db.docs ==> db.docs[k].slug != Some(slug)
      ensures r.Some? ==>
        (exists k :: k in db.docs && db.docs[k].slug == Some(slug) &&
          (forall j :: j in db.docs && db.docs[j].slug == Some(slug) ==> !LexLess(j, k)) &&
          r.value == Materialize(k, db.docs[k]))
    {
      var docs := db.docs;
      var matching := set k | k in docs && docs[k].slug == Some(slug);
      var ks := Enumerate(matching);
      if |ks| == 0 {
        forall k | k in docs
          ensures docs[k].slug != Some(slug)
        {
          assert k !in ks;
        }
        return None;
      }
      var best := ks[0];
      LexLessIrreflexive(best);
      for i := 1 to |ks|
        invariant best in ks[..i]
        invariant forall j :: 0 <= j < i ==> !LexLess(ks[j], best)
      {
        if LexLess(ks[i], best) {
          forall j | 0 <= j < i
            ensures !LexLess(ks[j], ks[i])
          {
            if LexLess(ks[j], ks[i]) {
              LexLessTransitive(ks[j], ks[i], best);
            }
          }
          LexLessIrreflexive(ks[i]);
          best := ks[i];
        }
      }
      assert best in ks;
      r := Some(Materialize(best, docs[best]));
      forall j | j in docs && docs[j].slug == Some(slug)
        ensures !LexLess(j, best)
      {
        assert j in ks;
      }
    }

    /** `incrementViewCount(postId)`: `viewCount` goes up by one, counting a missing field as 0. */
    method IncrementViewCount(id: string) returns (r: Result<(), string>)
      modifies db
      ensures id in old(db.docs) ==>
                r.Success? && db.docs == old(db.docs)[id := old(db.docs)[id].(viewCount := Some(old(db.docs)[id].viewCount.GetOr(0) + 1))]
      ensures id !in old(db.docs) ==> r == Failure(NoDocument) && db.docs == old(db.docs)
    {
      r := db.Transform(id, (p: Post) => p.(viewCount := Some(p.viewCount.GetOr(0) + 1)));
    }

    method IncrementLikeCount(id: string) returns (r: Result<(), string>)
      modifies db
      ensures id in old(db.docs) ==>
                r.Success? && db.docs == old(db.docs)[id := old(db.docs)[id].(likeCount := Some(old(db.docs)[id].likeCount.GetOr(0) + 1))]
      ensures id !in old(db.docs) ==> r == Failure(NoDocument) && db.docs == old(db.docs)
    {
      r := db.Transform(id, (p: Post) => p.(likeCount := Some(p.likeCount.GetOr(0) + 1)));
    }

    /** `decrementLikeCount(postId)`: nothing keeps the count from going below zero. */
    method DecrementLikeCount(id: string) returns (r: Result<(), string>)
      modifies db
      ensures id in old(db.docs) ==>
                r.Success? && db.docs == old(db.docs)[id := old(db.docs)[id].(likeCount := Some(old(db.docs)[id].likeCount.GetOr(0) - 1))]
      ensures id !in old(db.docs) ==> r == Failure(NoDocument) && db.docs == old(db.docs)
    {
      r := db.Transform(id, (p: Post) => p.(likeCount := Some(p.likeCount.GetOr(0) - 1)));
    }
  }

  /** Appending a document adds one search hit exactly when it matches. */
  lemma SearchedSnoc(docs: map<string, Post>, f: PostFilters, init: seq<string>, last: string)
    requires forall i :: 0 <= i < |init| ==> init[i] in docs
    requires last in docs
    ensures |Searched(f, Materialized(docs, init + [last]))| ==
            |Searched(f, Materialized(docs, init))| + (if SearchHit(f, docs[last]) then 1 else 0)
  {
    var m := Materialize(last, docs[last]);
    assert Materialized(docs, init + [last]) == Materialized(docs, init) + [m];
    FilterAppend(SearchOf(f), Materialized(docs, init), [m]);
    assert Filter(SearchOf(f), [m]) == if SearchHit(f, docs[last]) then [m] else [] by {
      assert [m][..0] == [];
    }
  }

  /** Appending a new key adds it to the set of hits exactly when it matches. */
  lemma HitsSnoc(docs: map<string, Post>, f: PostFilters, init: seq<string>, last: string)
    requires last in docs && last !in init
    ensures |set k | k in init + [last] && k in docs && SearchHit(f, docs[k])| ==
            |set k | k in init && k in docs && SearchHit(f, docs[k])| + (if SearchHit(f, docs[last]) then 1 else 0)
  {
    var before := set k | k in init && k in docs && SearchHit(f, docs[k]);
    var after := set k | k in init + [last] && k in docs && SearchHit(f, docs[k]);
    if SearchHit(f, docs[last]) {
      assert after == before + {last};
    } else {
      assert after == before;
    }
  }

  /** Over distinct documents, the number of search hits is the size of the set of hits. */
  lemma {:induction false} SearchedCount(docs: map<string, Post>, f: PostFilters, ks: seq<string>)
    requires AllIn(docs, ks)
    requires forall i, j :: 0 <= i < j < |ks| ==> ks[i] != ks[j]
    ensures |Searched(f, Materialized(docs, ks))| == |set k | k in ks && k in docs && SearchHit(f, docs[k])|
  {
    if ks != [] {
      var init, last := ks[..|ks| - 1], ks[|ks| - 1];
      assert ks == init + [last];
      SearchedCount(docs, f, init);
      SearchedSnoc(docs, f, init, last);
      assert last !in init;
      HitsSnoc(docs, f, init, last);
    }
  }

  /** `before` is a strict total order on keys. */
  ghost predicate StrictTotalOrder(before: (string, string) -> bool) {
    && (forall a, b, c :: before(a, b) && before(b, c) ==> before(a, c))
    && (forall a, b :: a != b ==> before(a, b) || before(b, a))
  }

  ghost predicate SortedBy(before: (string, string) -> bool, ks: seq<string>) {
    forall i, j :: 0 <= i < j < |ks| ==> before(ks[i], ks[j])
  }

  /** Sorts distinct keys into the order `before`, by insertion. */
  method Arrange(before: (string, string) -> bool, keys: seq<string>) returns (ks: seq<string>)
    requires StrictTotalOrder(before)
    requires forall i, j :: 0 <= i < j < |keys| ==> keys[i] != keys[j]
    ensures multiset(ks) == multiset(keys)
    ensures SortedBy(before, ks)
  {
    ks := [];
    for i := 0 to |keys|
      invariant multiset(ks) == multiset(keys[..i])
      invariant SortedBy(before, ks)
    {
      assert keys[i] !in keys[..i];
      assert keys[i] !in multiset(ks);
      ks := Insert(before, ks, keys[i]);
      assert keys[..i + 1] == keys[..i] + [keys[i]];
    }
    assert keys[..|keys|] == keys;
  }

  method Insert(before: (string, string) -> bool, ks: seq<string>, x: string) returns (r: seq<string>)
    requires StrictTotalOrder(before)
    requires SortedBy(before, ks) && x !in ks
    ensures multiset(r) == multiset(ks) + multiset{x}
    ensures SortedBy(before, r)
  {
    var p := 0;
    while p < |ks| && before(ks[p], x)
      invariant 0 <= p <= |ks|
      invariant forall i :: 0 <= i < p ==> before(ks[i], x)
    {
      p := p + 1;
    }
    assert forall j :: p <= j < |ks| ==> before(x, ks[j]) by {
      forall j | p <= j < |ks|
        ensures before(x, ks[j])
      {
        assert ks[p] != x;
        if j > p {
          assert before(ks[p], ks[j]);
        }
      }
    }
    r := ks[..p] + [x] + ks[p..];
    assert ks == ks[..p] + ks[p..];
    SortedInsert(before, ks, p, x);
  }

  lemma SortedInsert(before: (string, string) -> bool, ks: seq<string>, p: nat, x: string)
    requires SortedBy(before, ks) && p <= |ks|
    requires forall i :: 0 <= i < p ==> before(ks[i], x)
    requires forall j :: p <= j < |ks| ==> before(x, ks[j])
    ensures SortedBy(before, ks[..p] + [x] + ks[p..])
  {
    var r := ks[..p] + [x] + ks[p..];
    forall i, j | 0 <= i < j < |r|
      ensures before(r[i], r[j])
    {
      if j == p {
        assert r[i] == ks[i];
      } else if i == p {
        assert r[j] == ks[j - 1];
      } else {
        assert r[i] == ks[if i < p then i else i - 1];
        assert r[j] == ks[if j < p then j else j - 1];
      }
    }
  }

  /** Precedes between a key and itself is impossible, so an ordered sequence never repeats a key. */
  lemma EnumeratesPermutation(a: seq<string>, b: seq<string>, s: set<string>)
    requires Enumerates(a, s)
    requires multiset(a) == multiset(b)
    ensures Enumerates(b, s)
  {
    forall i, j | 0 <= i < j < |b|
      ensures b[i] != b[j]
    {
      if b[i] == b[j] {
        var x := b[i];
        assert multiset(b)[x] >= 2 by {
          assert b == b[..j] + [x] + b[j + 1..];
          assert b[i] in b[..j];
        }
        DistinctOnce(a, x);
      }
    }
    forall i | 0 <= i < |b|
      ensures b[i] in s
    {
      assert b[i] in multiset(a);
    }
    forall k | k in s
      ensures k in b
    {
      assert k in multiset(b);
    }
  }

  lemma {:induction false} DistinctOnce(a: seq<string>, x: string)
    requires forall i, j :: 0 <= i < j < |a| ==> a[i] != a[j]
    ensures multiset(a)[x] <= 1
  {
    if a != [] {
      DistinctOnce(a[1..], x);
      assert a == [a[0]] + a[1..];
      if a[0] == x {
        assert x !in a[1..];
      }
    }
  }

  /** Two orders of the same keys, both sorted by one strict order, are the same order. */
  lemma {:induction false} SortedUnique(before: (string, string) -> bool, a: seq<string>, b: seq<string>)
    requires forall x, y, z :: before(x, y) && before(y, z) ==> before(x, z)
    requires forall x :: !before(x, x)
    requires SortedBy(before, a) && SortedBy(before, b)
    requires |a| == |b| && forall x :: x in a <==> x in b
    ensures a == b
  {
    if a != [] {
      assert a[0] in a && b[0] in b;
      var j :| 0 <= j < |b| && b[j] == a[0];
      var i :| 0 <= i < |a| && a[i] == b[0];
      assert before(b[0], b[j]) || j == 0;
      assert before(a[0], a[i]) || i == 0;
      assert a[0] == b[0];
      forall x
        ensures x in a[1..] <==> x in b[1..]
      {
        if x in a[1..] {
          var k :| 1 <= k < |a| && a[k] == x;
          assert before(a[0], x);
          assert x in b && x != b[0];
          assert b == [b[0]] + b[1..];
        }
        if x in b[1..] {
          var k :| 1 <= k < |b| && b[k] == x;
          assert before(b[0], x);
          assert x in a && x != a[0];
          assert a == [a[0]] + a[1..];
        }
      }
      SortedUnique(before, a[1..], b[1..]);
      assert a == [a[0]] + a[1..] && b == [b[0]] + b[1..];
    }
  }

  /** The store's order of the selected documents is unique, so a query's answer is determined by the store and the filters. */
  lemma ArrangementUnique(docs: map<string, Post>, f: PostFilters, d: Direction, a: seq<string>, b: seq<string>)
    requires Arranged(docs, f, d, a) && Arranged(docs, f, d, b)
    ensures a == b
  {
    var field := SortByOf(f);
    var before := (x: string, y: string) => Precedes(docs, field, d, x, y);
    PrecedesOrder(docs, field, d, before);
    forall x
      ensures !before(x, x)
    {
      PrecedesIrreflexive(docs, field, d, x);
    }
    assert SortedBy(before, a) && SortedBy(before, b);
    EnumeratesSize(a, Selected(docs, f));
    EnumeratesSize(b, Selected(docs, f));
    SortedUnique(before, a, b);
  }

  /** Materializing commutes with cutting out a window. */
  lemma MaterializedWindow(docs: map<string, Post>, ks: seq<string>, skip: nat, limit: nat)
    requires AllIn(docs, ks)
    ensures Materialized(docs, Window(ks, skip, limit)) == Window(Materialized(docs, ks), skip, limit)
  {
    WindowIn(docs, ks, skip, limit);
    var w, all := Window(ks, skip, limit), Materialized(docs, ks);
    var lo := Min(skip, |ks|);
    var a, b := Materialized(docs, w), Window(all, skip, limit);
    assert |a| == |b|;
    forall i | 0 <= i < |a| ensures a[i] == b[i] {
      assert w[i] == ks[lo + i] && b[i] == all[lo + i];
    }
  }

  /** What findMany returns for pages 1 to n of the same ordered result, one after the other. */
  function FoundPages(docs: map<string, Post>, keep: Post -> bool, ks: seq<string>, n: nat, limit: nat): seq<Post>
    requires AllIn(docs, ks)
  {
    if n == 0 then []
    else
      WindowIn(docs, ks, Skip(n, limit), limit);
      FoundPages(docs, keep, ks, n - 1, limit) + Filter(keep, Materialized(docs, PageWindow(ks, n, limit)))
  }

  lemma {:induction false} FoundPagesFiltered(docs: map<string, Post>, keep: Post -> bool, ks: seq<string>, n: nat, limit: nat)
    requires AllIn(docs, ks)
    ensures FoundPages(docs, keep, ks, n, limit) == FilteredPages(keep, Materialized(docs, ks), n, limit)
  {
    if n > 0 {
      FoundPagesFiltered(docs, keep, ks, n - 1, limit);
      var all, w := Materialized(docs, ks), PageWindow(ks, n, limit);
      WindowIn(docs, ks, Skip(n, limit), limit);
      MaterializedWindow(docs, ks, Skip(n, limit), limit);
      var page := Materialized(docs, w);
      assert page == PageWindow(all, n, limit);
      assert FoundPages(docs, keep, ks, n, limit) == FoundPages(docs, keep, ks, n - 1, limit) + Filter(keep, page);
      assert FilteredPages(keep, all, n, limit) == FilteredPages(keep, all, n - 1, limit) + Filter(keep, page);
    }
  }

  /**
   * Paging through a search: the pages 1 to n, once they reach past the last
   * selected document, hold every search hit exactly once, in order, and as
   * many of them as count reports when every matching document has the sort field.
   */
  lemma PagingFindsEveryHit(docs: map<string, Post>, f: PostFilters, d: Direction, ks: seq<string>, n: nat)
    requires Arranged(docs, f, d, ks)
    requires LimitOf(f) > 0 && n * LimitOf(f) >= |ks|
    ensures FoundPages(docs, SearchOf(f), ks, n, LimitOf(f)) == Searched(f, Materialized(docs, ks))
    ensures (forall k :: k in docs && Matches(f, docs[k]) ==> SortKey(docs[k], SortByOf(f)).Some?) ==>
              |FoundPages(docs, SearchOf(f), ks, n, LimitOf(f))| == |set k | k in docs && Matches(f, docs[k]) && SearchHit(f, docs[k])|
  {
    var limit, all := LimitOf(f), Materialized(docs, ks);
    FoundPagesFiltered(docs, SearchOf(f), ks, n, limit);
    FilteredPagesPrefix(SearchOf(f), all, n, limit);
    assert all[..Min(n * limit, |all|)] == all;
    SearchedCount(docs, f, ks);
    if forall k :: k in docs && Matches(f, docs[k]) ==> SortKey(docs[k], SortByOf(f)).Some? {
      assert (set k | k in ks && k in docs && SearchHit(f, docs[k]))
          == (set k | k in docs && Matches(f, docs[k]) && SearchHit(f, docs[k]));
    }
  }

  /** Over any listing of the matching documents, the search keeps as many posts as there are hits. */
  lemma CountIsNumberOfHits(docs: map<string, Post>, f: PostFilters, ks: seq<string>)
    requires Enumerates(ks, set k | k in docs && Matches(f, docs[k]))
    ensures |Searched(f, Materialized(docs, ks))| == |set k | k in docs && Matches(f, docs[k]) && SearchHit(f, docs[k])|
  {
    SearchedCount(docs, f, ks);
    assert (set k | k in ks && k in docs && SearchHit(f, docs[k]))
        == (set k | k in docs && Matches(f, docs[k]) && SearchHit(f, docs[k]));
  }
}
