/**
 * The dashboard: the featured posts as cards, and the latest published posts
 * grouped into category sections of at most six posts each.
 */
module Dashboard {
  import opened Wrappers
  import opened Text
  import opened Models
  import opened Sequences
  import opened FeaturedContent

  const GroupCap := 6
  const Uncategorized := "Uncategorized"

  /** `(post.category || 'Uncategorized').trim()`; the fallback has no surrounding whitespace to trim. */
  function GroupKey(p: Post): string {
    if p.category != "" then Trim(p.category) else Uncategorized
  }

  /** A category made only of whitespace groups under the empty key. */
  lemma BlankCategoryKey(p: Post)
    requires p.category != "" && forall i :: 0 <= i < |p.category| ==> IsWhitespace(p.category[i])
    ensures GroupKey(p) == ""
  {
    TrimEmptyIff(p.category);
  }

  /** The key of every post, as a function value the grouping is stated over. */
  function CategoryKey(): Post -> string {
    (p: Post) => GroupKey(p)
  }

  function WithKey(key: Post -> string, k: string): Post -> bool {
    (p: Post) => key(p) == k
  }

  /** The first `n` elements, or all of them when there are fewer. */
  function Take<T>(xs: seq<T>, n: nat): (r: seq<T>)
    ensures r <= xs && |r| == Min(n, |xs|)
  {
    xs[..Min(n, |xs|)]
  }

  /** `grouped` after the loop has seen `posts`, one post at a time. */
  function Grouped(key: Post -> string, posts: seq<Post>): map<string, seq<Post>> {
    if posts == [] then map[]
    else
      var g, last := Grouped(key, posts[..|posts| - 1]), posts[|posts| - 1];
      var k := key(last);
      var group := if k in g then g[k] else [];
      g[k := if |group| < GroupCap then group + [last] else group]
  }

  /** The order in which the loop creates the keys, which `Object.entries` follows. */
  function KeyOrder(key: Post -> string, posts: seq<Post>): seq<string> {
    if posts == [] then []
    else
      var order, k := KeyOrder(key, posts[..|posts| - 1]), key(posts[|posts| - 1]);
      if k in order then order else order + [k]
  }

  /** No post with that key, nothing kept. */
  lemma FilterNone(key: Post -> string, k: string, posts: seq<Post>)
    requires forall i :: 0 <= i < |posts| ==> key(posts[i]) != k
    ensures Filter(WithKey(key, k), posts) == []
  {
    if Filter(WithKey(key, k), posts) != [] {
      FilterMembers(WithKey(key, k), posts, Filter(WithKey(key, k), posts)[0]);
    }
  }

  /** One more post: its key gets a group if it had none, and the post joins it while it has room. */
  lemma GroupedSnoc(key: Post -> string, init: seq<Post>, last: Post)
    ensures var g, k := Grouped(key, init), key(last);
            var group := if k in g then g[k] else [];
            Grouped(key, init + [last]) == g[k := if |group| < GroupCap then group + [last] else group]
  {
    var posts := init + [last];
    assert posts[..|posts| - 1] == init && posts[|posts| - 1] == last;
  }

  lemma KeyOrderSnoc(key: Post -> string, init: seq<Post>, last: Post)
    ensures KeyOrder(key, init + [last]) ==
            if key(last) in KeyOrder(key, init) then KeyOrder(key, init) else KeyOrder(key, init) + [key(last)]
  {
    var posts := init + [last];
    assert posts[..|posts| - 1] == init && posts[|posts| - 1] == last;
  }

  /** A key has a group exactly when some post has that key. */
  lemma {:induction false} GroupedKeys(key: Post -> string, posts: seq<Post>, k: string)
    ensures k in Grouped(key, posts) <==> exists i :: 0 <= i < |posts| && key(posts[i]) == k
  {
    if posts != [] {
      var init, last := posts[..|posts| - 1], posts[|posts| - 1];
      assert posts == init + [last];
      GroupedKeys(key, init, k);
      GroupedSnoc(key, init, last);
      if exists i :: 0 <= i < |posts| && key(posts[i]) == k {
        var i :| 0 <= i < |posts| && key(posts[i]) == k;
        if i < |init| {
          assert init[i] == posts[i];
        }
      }
    }
  }

  /** A group is the first six posts with its key, in their order. */
  lemma {:induction false} GroupedMeaning(key: Post -> string, posts: seq<Post>, k: string)
    requires k in Grouped(key, posts)
    ensures Grouped(key, posts)[k] == Take(Filter(WithKey(key, k), posts), GroupCap)
  {
    var init, last := posts[..|posts| - 1], posts[|posts| - 1];
    assert posts == init + [last];
    GroupedSnoc(key, init, last);
    var kept := Filter(WithKey(key, k), init);
    assert Filter(WithKey(key, k), posts) == kept + if WithKey(key, k)(last) then [last] else [];
    if key(last) != k {
      GroupedMeaning(key, init, k);
    } else if k in Grouped(key, init) {
      GroupedMeaning(key, init, k);
    } else {
      GroupedKeys(key, init, k);
      FilterNone(key, k, init);
    }
  }

  /** No group is empty and none holds more than six posts. */
  lemma GroupsCapped(key: Post -> string, posts: seq<Post>, k: string)
    requires k in Grouped(key, posts)
    ensures 1 <= |Grouped(key, posts)[k]| <= GroupCap
  {
    GroupedKeys(key, posts, k);
    GroupedMeaning(key, posts, k);
    var i :| 0 <= i < |posts| && key(posts[i]) == k;
    FilterMembers(WithKey(key, k), posts, posts[i]);
  }

  /** The section order lists every key once, and no other. */
  lemma {:induction false} KeyOrderMeaning(key: Post -> string, posts: seq<Post>)
    ensures forall k :: k in KeyOrder(key, posts) <==> k in Grouped(key, posts)
    ensures forall i, j :: 0 <= i < j < |KeyOrder(key, posts)| ==> KeyOrder(key, posts)[i] != KeyOrder(key, posts)[j]
  {
    if posts != [] {
      var init, last := posts[..|posts| - 1], posts[|posts| - 1];
      assert posts == init + [last];
      KeyOrderMeaning(key, init);
      KeyOrderSnoc(key, init, last);
      GroupedSnoc(key, init, last);
    }
  }

  /** The dashboard's grouping of the published posts by their trimmed category. */
  method GroupByCategory(posts: seq<Post>) returns (grouped: map<string, seq<Post>>, order: seq<string>)
    ensures grouped == Grouped(CategoryKey(), posts) && order == KeyOrder(CategoryKey(), posts)
  {
    grouped, order := GroupBy(CategoryKey(), posts);
  }

  /**
   * The grouping loop for any key: a post opens its key's group the first
   * time the key is seen, and joins the group while it has room.
   */
  method GroupBy(keyOf: Post -> string, posts: seq<Post>) returns (grouped: map<string, seq<Post>>, order: seq<string>)
    ensures grouped == Grouped(keyOf, posts) && order == KeyOrder(keyOf, posts)
  {
    grouped, order := map[], [];
    for i := 0 to |posts|
      invariant grouped == Grouped(keyOf, posts[..i]) && order == KeyOrder(keyOf, posts[..i])
    {
      var post := posts[i];
      var key := keyOf(post);
      assert posts[..i + 1] == posts[..i] + [post];
      GroupByStep(keyOf, posts[..i], post, grouped, order);
      if key !in grouped {
        grouped := grouped[key := []];
        order := order + [key];
      }
      if |grouped[key]| < GroupCap {
        grouped := grouped[key := grouped[key] + [post]];
      }
    }
    assert posts[..|posts|] == posts;
  }

  /** One pass of the grouping loop, stated on the loop's own updates. */
  lemma GroupByStep(keyOf: Post -> string, seen: seq<Post>, post: Post,
                    grouped: map<string, seq<Post>>, order: seq<string>)
    requires grouped == Grouped(keyOf, seen) && order == KeyOrder(keyOf, seen)
    ensures var key := keyOf(post);
            var withKey := if key !in grouped then grouped[key := []] else grouped;
            var order' := if key !in grouped then order + [key] else order;
            var grouped' := if |withKey[key]| < GroupCap then withKey[key := withKey[key] + [post]] else withKey;
            grouped' == Grouped(keyOf, seen + [post]) && order' == KeyOrder(keyOf, seen + [post])
  {
    var key := keyOf(post);
    var withKey := if key !in grouped then grouped[key := []] else grouped;
    var group := if key in grouped then grouped[key] else [];
    assert withKey[key] == group;
    var grouped' := if |group| < GroupCap then withKey[key := group + [post]] else withKey;
    assert grouped' == Grouped(keyOf, seen + [post]) by {
      GroupedSnoc(keyOf, seen, post);
      if |group| >= GroupCap {
        assert withKey == grouped[key := group];
      }
    }
    assert (if key !in grouped then order + [key] else order) == KeyOrder(keyOf, seen + [post]) by {
      KeyOrderMeaning(keyOf, seen);
      assert key in order <==> key in grouped;
      KeyOrderSnoc(keyOf, seen, post);
    }
  }

  /** One category section: its name and its posts as cards. */
  datatype CategorySection = CategorySection(category: string, articles: seq<FeaturedArticle>)

  /** `Object.entries(categoryPostsMap).map(...)`: a section per key, in key order, with the cards in post order. */
  function Sections(grouped: map<string, seq<Post>>, order: seq<string>): (r: seq<CategorySection>)
    requires forall i :: 0 <= i < |order| ==> order[i] in grouped
    ensures |r| == |order|
    ensures forall i :: 0 <= i < |order| ==> r[i].category == order[i] && r[i].articles == Articles(grouped[order[i]])
  {
    seq(|order|, i requires 0 <= i < |order| => CategorySection(order[i], Articles(grouped[order[i]])))
  }

  class DashboardPage {
    var featuredPosts: seq<Post>
    var categoryPostsMap: map<string, seq<Post>>
    var categoryOrder: seq<string>
    var postsError: Option<string>

    constructor ()
      ensures featuredPosts == [] && categoryPostsMap == map[] && categoryOrder == [] && postsError.None?
    {
      featuredPosts, categoryPostsMap, categoryOrder, postsError := [], map[], [], None;
    }

    /**
     * `fetchPosts`: the featured posts, then the latest published ones. Each
     * is taken only from a successful reply with data; a thrown error stops
     * the sequence and is shown.
     */
    method FetchPosts(featured: Result<PostsResponse, string>, published: Result<PostsResponse, string>)
      modifies this
      ensures featured.Failure? ==>
                postsError == Some(featured.error) && featuredPosts == old(featuredPosts) &&
                categoryPostsMap == old(categoryPostsMap) && categoryOrder == old(categoryOrder)
      ensures featured.Success? ==>
                featuredPosts == if featured.value.success && featured.value.data.Some? then featured.value.data.value else old(featuredPosts)
      ensures featured.Success? && published.Failure? ==>
                postsError == Some(published.error) &&
                categoryPostsMap == old(categoryPostsMap) && categoryOrder == old(categoryOrder)
      ensures featured.Success? && published.Success? ==>
                postsError.None? &&
                if published.value.success && published.value.data.Some? then
                  categoryPostsMap == Grouped(CategoryKey(), published.value.data.value) &&
                  categoryOrder == KeyOrder(CategoryKey(), published.value.data.value)
                else
                  categoryPostsMap == old(categoryPostsMap) && categoryOrder == old(categoryOrder)
    {
      postsError := None;
      if featured.Failure? {
        postsError := Some(featured.error);
        return;
      }
      if featured.value.success && featured.value.data.Some? {
        featuredPosts := featured.value.data.value;
      }
      if published.Failure? {
        postsError := Some(published.error);
        return;
      }
      if published.value.success && published.value.data.Some? {
        categoryPostsMap, categoryOrder := GroupByCategory(published.value.data.value);
      }
    }
  }

  /** Every section's key is one the grouping created, so the sections are well defined. */
  lemma SectionsDefined(posts: seq<Post>)
    ensures forall i :: 0 <= i < |KeyOrder(CategoryKey(), posts)| ==> KeyOrder(CategoryKey(), posts)[i] in Grouped(CategoryKey(), posts)
  {
    KeyOrderMeaning(CategoryKey(), posts);
  }
}
