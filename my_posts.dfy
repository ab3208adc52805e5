/**
 * The "my posts" page: the author's posts narrowed by a search box and a
 * status tab, deletion of a post, and the publish/unpublish toggle. The
 * service calls are parameters: each is the outcome the page awaits.
 */
module MyPosts {
  import opened Wrappers
  import opened Text
  import opened Models
  import opened Sequences
  import opened FeaturedContent
  import opened ClientPostService

  /** The search box: the query, ignoring case, in the title, the excerpt or some tag; the content is not searched. */
  predicate SearchKeeps(query: string, p: Post) {
    || ContainsIgnoringCase(p.title, query)
    || ContainsIgnoringCase(p.excerpt, query)
    || exists i :: 0 <= i < |p.tags| && ContainsIgnoringCase(p.tags[i], query)
  }

  /** The status tab: 'published', 'draft' and 'featured' narrow the list, any other value keeps it. */
  predicate StatusKeeps(status: string, p: Post) {
    if status == "published" then p.isPublished
    else if status == "draft" then !p.isPublished
    else if status == "featured" then p.isFeatured
    else true
  }

  /** The posts the page lists: an empty query searches for nothing. */
  predicate Listed(query: string, status: string, p: Post) {
    (query == "" || SearchKeeps(query, p)) && StatusKeeps(status, p)
  }

  function ListedOf(query: string, status: string): Post -> bool {
    (p: Post) => Listed(query, status, p)
  }

  function SearchOf(query: string): Post -> bool {
    (p: Post) => SearchKeeps(query, p)
  }

  function StatusOf(status: string): Post -> bool {
    (p: Post) => StatusKeeps(status, p)
  }

  /** `filterPosts`: `filtered` passes through the search and then the status filter. */
  method FilterPosts(posts: seq<Post>, query: string, status: string) returns (filtered: seq<Post>)
    ensures filtered == Filter(ListedOf(query, status), posts)
  {
    filtered := posts;
    if query != "" {
      filtered := Filter(SearchOf(query), filtered);
    }
    ghost var searched := filtered;
    assert searched == Filter(ListedOf(query, "all"), posts) by {
      if query == "" {
        FilterAll(ListedOf(query, "all"), posts);
      } else {
        FilterFilter(SearchOf(query), StatusOf("all"), ListedOf(query, "all"), posts);
        FilterAll(StatusOf("all"), Filter(SearchOf(query), posts));
      }
    }
    if status != "all" {
      if status == "published" {
        filtered := Filter(StatusOf("published"), filtered);
      } else if status == "draft" {
        filtered := Filter(StatusOf("draft"), filtered);
      } else if status == "featured" {
        filtered := Filter(StatusOf("featured"), filtered);
      }
    }
    if status in {"published", "draft", "featured"} {
      FilterFilter(ListedOf(query, "all"), StatusOf(status), ListedOf(query, status), posts);
    } else {
      assert forall p :: ListedOf(query, status)(p) == ListedOf(query, "all")(p);
      FilterFilter(ListedOf(query, "all"), StatusOf("all"), ListedOf(query, status), posts);
      FilterAll(StatusOf("all"), searched);
    }
  }

  /** The list is an order-preserving selection of the posts, holding exactly those the search and tab accept. */
  lemma ListedSelection(posts: seq<Post>, query: string, status: string, p: Post)
    ensures IsSubsequence(Filter(ListedOf(query, status), posts), posts)
    ensures p in Filter(ListedOf(query, status), posts) <==> p in posts && Listed(query, status, p)
  {
    FilterIsSubsequence(ListedOf(query, status), posts);
    FilterMembers(ListedOf(query, status), posts, p);
  }

  /** An empty query on the 'all' tab lists every post. */
  lemma ListedAll(posts: seq<Post>)
    ensures Filter(ListedOf("", "all"), posts) == posts
  {
    FilterAll(ListedOf("", "all"), posts);
  }

  /** For one query, the 'published' and 'draft' tabs together hold as many posts as 'all'. */
  lemma PublishedAndDrafts(posts: seq<Post>, query: string)
    ensures |Filter(ListedOf(query, "published"), posts)| + |Filter(ListedOf(query, "draft"), posts)| ==
            |Filter(ListedOf(query, "all"), posts)|
  {
    var searched := Filter(ListedOf(query, "all"), posts);
    FilterFilter(ListedOf(query, "all"), StatusOf("published"), ListedOf(query, "published"), posts);
    FilterFilter(ListedOf(query, "all"), StatusOf("draft"), ListedOf(query, "draft"), posts);
    FilterComplement(StatusOf("published"), StatusOf("draft"), searched);
  }

  function WithoutId(id: Option<string>): Post -> bool {
    (p: Post) => p.id != id
  }

  /** `posts.map(p => p.id === id ? updated : p)` */
  function Replaced(posts: seq<Post>, id: Option<string>, updated: Post): (r: seq<Post>)
    ensures |r| == |posts|
    ensures forall i :: 0 <= i < |posts| ==> r[i] == if posts[i].id == id then updated else posts[i]
  {
    seq(|posts|, i requires 0 <= i < |posts| => if posts[i].id == id then updated else posts[i])
  }

  /** `post.id!` placed in a path: a post without an id is named by the text `undefined`. */
  function IdSegment(id: Option<string>): string {
    if id.Some? then id.value else "undefined"
  }

  /** The page state the handlers change. */
  class MyPostsPage {
    var posts: seq<Post>
    var postToDelete: Option<Post>
    var deleteDialogOpen: bool
    var error: Option<string>

    constructor (posts: seq<Post>)
      ensures this.posts == posts && postToDelete.None? && !deleteDialogOpen && error.None?
    {
      this.posts := posts;
      postToDelete := None;
      deleteDialogOpen := false;
      error := None;
    }

    /**
     * `handleDeletePost`: the delete names the chosen post's id; after the
     * server deleted the post, the list drops
     * every post with its id and the dialog closes; a failure leaves the list
     * and shows the message.
     */
    method DeletePost(service: ClientPostService, send: Call -> Result<PostResponse, Thrown>) returns (sent: Option<Call>)
      modifies this
      ensures old(postToDelete).None? ==>
                sent.None? &&
                posts == old(posts) && postToDelete == old(postToDelete) &&
                deleteDialogOpen == old(deleteDialogOpen) && error == old(error)
      ensures old(postToDelete).Some? ==>
                && sent == Some(DeletePostCall(IdSegment(old(postToDelete).value.id)))
                && var deleted := DeleteOutcome(send(sent.value));
                   && (deleted.Success? ==>
                         posts == Filter(WithoutId(old(postToDelete).value.id), old(posts)) &&
                         !deleteDialogOpen && postToDelete.None? && error == old(error))
                   && (deleted.Failure? ==>
                         posts == old(posts) && error == Some(deleted.error) &&
                         deleteDialogOpen == old(deleteDialogOpen) && postToDelete == old(postToDelete))
    {
      if postToDelete.None? {
        return None;
      }
      var call := DeletePostCall(IdSegment(postToDelete.value.id));
      sent := Some(call);
      var deleted := service.DeletePost(IdSegment(postToDelete.value.id), send);
      if deleted.Failure? {
        error := Some(deleted.error);
        return;
      }
      posts := Filter(WithoutId(postToDelete.value.id), posts);
      deleteDialogOpen := false;
      postToDelete := None;
    }

    /**
     * `handlePublishToggle`: a published post is unpublished and any other
     * published; the server's copy replaces the entries with that id.
     */
    method PublishToggle(post: Post, publish: Option<string> -> Result<Post, string>, unpublish: Option<string> -> Result<Post, string>)
      returns (usedUnpublish: bool)
      modifies this
      ensures usedUnpublish == post.isPublished
      ensures var outcome := if post.isPublished then unpublish(post.id) else publish(post.id);
              && (outcome.Success? ==> posts == Replaced(old(posts), post.id, outcome.value) && error == old(error))
              && (outcome.Failure? ==> posts == old(posts) && error == Some(outcome.error))
      ensures postToDelete == old(postToDelete) && deleteDialogOpen == old(deleteDialogOpen)
    {
      var outcome;
      if post.isPublished {
        outcome := unpublish(post.id);
      } else {
        outcome := publish(post.id);
      }
      usedUnpublish := post.isPublished;
      if outcome.Failure? {
        error := Some(outcome.error);
        return;
      }
      posts := Replaced(posts, post.id, outcome.value);
    }
  }

  /** Deleting keeps the other posts in order and no post with the deleted id. */
  lemma DeleteKeepsOthers(posts: seq<Post>, id: Option<string>, p: Post)
    ensures IsSubsequence(Filter(WithoutId(id), posts), posts)
    ensures p in Filter(WithoutId(id), posts) <==> p in posts && p.id != id
  {
    FilterIsSubsequence(WithoutId(id), posts);
    FilterMembers(WithoutId(id), posts, p);
  }

  /** Each card's chips: the same first-three-and-a-count as the featured cards, so at most three tags and "+N more" for the rest. */
  lemma PostChips(p: Post)
    ensures var (shown, more) := TagChips(p.tags);
            && |shown| <= 3 && shown <= p.tags
            && (more.Some? <==> |p.tags| > 3)
            && (more.Some? ==> more.value == |p.tags| - 3 && shown == p.tags[..3])
  {
  }
}
