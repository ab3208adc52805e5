/**
 * The server-side PostService: slug derivation, the removal of undefined
 * fields, and the post operations. Every operation that changes a post first
 * checks the token, then that the post exists, then that the caller wrote it,
 * and changes nothing when a check fails.
 */
module ServerPostService {
  import opened Wrappers
  import opened Text
  import opened Models
  import opened DocumentStore
  import opened JsObjects
  import opened PostRepository
  import opened AuthRepository
  import opened AuthService
  import opened Sequences

  const InvalidToken := "Invalid token"
  const PostNotFound := "Post not found"
  const Anonymous := "Anonymous"

  /** The message of the ownership check, for `verb` one of update, delete, publish and unpublish. */
  function UnauthorizedTo(verb: string): (m: string)
    ensures |m| == |verb| + 26
    ensures m[..16] == "Unauthorized to " && m[16..|m| - 10] == verb && m[|m| - 10..] == " this post"
  {
    "Unauthorized to " + verb + " this post"
  }

  /** Different verbs give different messages, so a reply names the operation that was refused. */
  lemma {:induction false} UnauthorizedToInjective(a: string, b: string)
    ensures UnauthorizedTo(a) == UnauthorizedTo(b) <==> a == b
  {
    if UnauthorizedTo(a) == UnauthorizedTo(b) {
      var m := UnauthorizedTo(a);
      assert a == m[16..|m| - 10];
    }
  }

  // ---------------------------------------------------------------------------
  // cleanUndefinedValues

  /** The own entries whose value is not `undefined`, in their order. */
  function CleanUndefinedValues(o: Entries): (r: Entries)
    ensures forall e :: e in r <==> e in o && e.1 != Undefined
    ensures KeySet(r) <= KeySet(o)
    ensures DistinctKeys(o) ==> DistinctKeys(r)
    ensures DistinctKeys(o) ==> forall k :: Get(r, k) == Get(o, k)
    ensures DistinctKeys(o) ==> forall k :: k in KeySet(r) <==> Get(o, k) != Undefined
  {
    if o == [] then []
    else
      var rest := CleanUndefinedValues(o[1..]);
      if o[0].1 == Undefined then rest
      else
        assert ([o[0]] + rest)[1..] == rest;
        [o[0]] + rest
  }

  /** Cleaning twice is cleaning once. */
  lemma {:induction false} CleanIdempotent(o: Entries)
    ensures CleanUndefinedValues(CleanUndefinedValues(o)) == CleanUndefinedValues(o)
  {
    if o != [] {
      CleanIdempotent(o[1..]);
      var rest := CleanUndefinedValues(o[1..]);
      if o[0].1 != Undefined {
        assert ([o[0]] + rest)[1..] == rest;
      }
    }
  }

  // ---------------------------------------------------------------------------
  // generateSlug

  predicate SlugChar(c: char) { IsAsciiLower(c) || IsDigit(c) || c == '-' }

  predicate IsHyphen(c: char) { c == '-' }

  /** No two hyphens stand next to each other. */
  predicate NoDoubleHyphen(s: string) {
    |s| < 2 || (!(s[0] == '-' && s[1] == '-') && NoDoubleHyphen(s[1..]))
  }

  /** What `generateSlug` can produce: lower-case letters, digits and single hyphens. */
  predicate IsSlug(s: string) {
    (forall i :: 0 <= i < |s| ==> SlugChar(s[i])) && NoDoubleHyphen(s)
  }

  /** `.replace(/[^a-z0-9 -]/g, '')`: keeps lower-case letters, digits, spaces and hyphens. */
  function KeepSlugText(s: string): (r: string)
    ensures forall i :: 0 <= i < |r| ==> SlugChar(r[i]) || r[i] == ' '
    ensures (forall i :: 0 <= i < |s| ==> SlugChar(s[i]) || s[i] == ' ') ==> r == s
    ensures r != [] && r[0] == ' ' <== s != [] && s[0] == ' '
    ensures r != [] && r[|r| - 1] == ' ' <== s != [] && s[|s| - 1] == ' '
  {
    if s == [] then []
    else
      var rest := KeepSlugText(s[1..]);
      if SlugChar(s[0]) || s[0] == ' ' then [s[0]] + rest else rest
  }

  /** Skips the run of characters in `inRun` at the front of `s`. */
  function DropRun(s: string, inRun: char -> bool): (r: string)
    ensures |r| <= |s| && r == s[|s| - |r|..]
    ensures r == [] || !inRun(r[0])
    ensures s != [] && inRun(s[0]) ==> |r| < |s|
  {
    if s != [] && inRun(s[0]) then DropRun(s[1..], inRun) else s
  }

  /** `.replace(/R+/g, '-')` where `R` is `inRun`: every maximal run becomes one hyphen. */
  function CollapseRuns(s: string, inRun: char -> bool): string
    decreases |s|
  {
    if s == [] then []
    else if inRun(s[0]) then "-" + CollapseRuns(DropRun(s, inRun), inRun)
    else [s[0]] + CollapseRuns(s[1..], inRun)
  }

  /** Every character of `s` is in the run class or allowed. */
  predicate RunOrAllowed(s: string, inRun: char -> bool, allowed: char -> bool) {
    forall i :: 0 <= i < |s| ==> inRun(s[i]) || allowed(s[i])
  }

  /** Every character of `r` is a hyphen, or allowed and outside the run class. */
  predicate HyphenOrKept(r: string, inRun: char -> bool, allowed: char -> bool) {
    forall i :: 0 <= i < |r| ==> r[i] == '-' || (allowed(r[i]) && !inRun(r[i]))
  }

  lemma RunOrAllowedSuffix(s: string, k: nat, inRun: char -> bool, allowed: char -> bool)
    requires k <= |s| && RunOrAllowed(s, inRun, allowed)
    ensures RunOrAllowed(s[k..], inRun, allowed)
  {
    var t := s[k..];
    forall i | 0 <= i < |t| ensures inRun(t[i]) || allowed(t[i]) {
      assert t[i] == s[k + i];
    }
  }

  lemma HyphenOrKeptCons(x: char, rest: string, inRun: char -> bool, allowed: char -> bool)
    requires x == '-' || (allowed(x) && !inRun(x))
    requires HyphenOrKept(rest, inRun, allowed)
    ensures HyphenOrKept([x] + rest, inRun, allowed)
  {
    var r := [x] + rest;
    forall i | 0 <= i < |r| ensures r[i] == '-' || (allowed(r[i]) && !inRun(r[i])) {
      if i > 0 {
        assert r[i] == rest[i - 1];
      }
    }
  }

  /** Collapsing keeps only hyphens and the characters outside the runs. */
  lemma {:induction false} CollapseRunsChars(s: string, inRun: char -> bool, allowed: char -> bool)
    requires RunOrAllowed(s, inRun, allowed)
    ensures HyphenOrKept(CollapseRuns(s, inRun), inRun, allowed)
    decreases |s|
  {
    if s != [] {
      if inRun(s[0]) {
        var t := DropRun(s, inRun);
        RunOrAllowedSuffix(s, |s| - |t|, inRun, allowed);
        CollapseRunsChars(t, inRun, allowed);
        HyphenOrKeptCons('-', CollapseRuns(t, inRun), inRun, allowed);
        assert CollapseRuns(s, inRun) == ['-'] + CollapseRuns(t, inRun);
      } else {
        RunOrAllowedSuffix(s, 1, inRun, allowed);
        CollapseRunsChars(s[1..], inRun, allowed);
        assert allowed(s[0]);
        HyphenOrKeptCons(s[0], CollapseRuns(s[1..], inRun), inRun, allowed);
        assert CollapseRuns(s, inRun) == [s[0]] + CollapseRuns(s[1..], inRun);
      }
    }
  }

  /** When hyphens are part of the runs, no two hyphens remain side by side. */
  lemma {:induction false} CollapseRunsNoDouble(s: string, inRun: char -> bool)
    requires inRun('-')
    ensures NoDoubleHyphen(CollapseRuns(s, inRun))
    decreases |s|
  {
    if s != [] {
      if inRun(s[0]) {
        var t := DropRun(s, inRun);
        CollapseRunsNoDouble(t, inRun);
        var rest := CollapseRuns(t, inRun);
        assert rest == [] || rest[0] != '-' by {
          if t != [] {
            assert !inRun(t[0]);
          }
        }
        assert ("-" + rest)[1..] == rest;
      } else {
        CollapseRunsNoDouble(s[1..], inRun);
        assert ([s[0]] + CollapseRuns(s[1..], inRun))[1..] == CollapseRuns(s[1..], inRun);
      }
    }
  }

  /** `generateSlug(title)`. */
  function GenerateSlug(title: string): string {
    Trim(CollapseRuns(CollapseRuns(KeepSlugText(Lower(title)), IsWhitespace), IsHyphen))
  }

  /** The two collapsing passes leave neither whitespace nor a repeated hyphen, so the final `trim` does nothing. */
  lemma SlugPasses(title: string)
    ensures var s := CollapseRuns(CollapseRuns(KeepSlugText(Lower(title)), IsWhitespace), IsHyphen);
            IsSlug(s) && GenerateSlug(title) == s
  {
    var kept := KeepSlugText(Lower(title));
    CollapseRunsChars(kept, IsWhitespace, SlugChar);
    var spaced := CollapseRuns(kept, IsWhitespace);
    assert forall i :: 0 <= i < |spaced| ==> SlugChar(spaced[i]);
    CollapseRunsChars(spaced, IsHyphen, SlugChar);
    var s := CollapseRuns(spaced, IsHyphen);
    assert forall i :: 0 <= i < |s| ==> SlugChar(s[i]);
    CollapseRunsNoDouble(spaced, IsHyphen);
    assert s == [] || (!IsWhitespace(s[0]) && !IsWhitespace(s[|s| - 1])) by {
      if s != [] {
        assert SlugChar(s[0]) && SlugChar(s[|s| - 1]);
      }
    }
    TrimUnchanged(s);
  }

  /** Every slug is lower-case letters, digits and hyphens, with no two hyphens in a row. */
  lemma SlugShape(title: string)
    ensures IsSlug(GenerateSlug(title))
  {
    SlugPasses(title);
  }

  /** Every character of `s` in the run class is a hyphen, itself in the class. */
  predicate LoneHyphenRuns(s: string, inRun: char -> bool) {
    forall i :: 0 <= i < |s| ==> inRun(s[i]) ==> s[i] == '-' && inRun('-')
  }

  /** A run of characters none of which is in `inRun`, other than single hyphens, is left alone. */
  lemma {:induction false} CollapseRunsUnchanged(s: string, inRun: char -> bool)
    requires LoneHyphenRuns(s, inRun)
    requires NoDoubleHyphen(s)
    ensures CollapseRuns(s, inRun) == s
    decreases |s|
  {
    if s != [] {
      var t := s[1..];
      assert LoneHyphenRuns(t, inRun) by {
        forall i | 0 <= i < |t| ensures inRun(t[i]) ==> t[i] == '-' && inRun('-') {
          assert t[i] == s[i + 1];
        }
      }
      CollapseRunsUnchanged(t, inRun);
      if inRun(s[0]) {
        assert t == [] || !inRun(t[0]) by {
          if t != [] {
            assert t[0] == s[1];
          }
        }
        assert DropRun(s, inRun) == t;
        assert CollapseRuns(s, inRun) == "-" + t;
      } else {
        assert CollapseRuns(s, inRun) == [s[0]] + t;
      }
      assert s == [s[0]] + t;
    }
  }

  /** No character a slug may hold is whitespace. */
  lemma SlugCharsNotWhitespace(s: string)
    requires forall i :: 0 <= i < |s| ==> SlugChar(s[i])
    ensures forall i :: 0 <= i < |s| ==> !IsWhitespace(s[i])
  {
    forall i | 0 <= i < |s| ensures !IsWhitespace(s[i]) {
      var c := s[i];
      assert SlugChar(c);
    }
  }

  /** A slug is its own slug. */
  lemma SlugOfSlug(s: string)
    requires IsSlug(s)
    ensures GenerateSlug(s) == s
  {
    assert Lower(s) == s by {
      forall i | 0 <= i < |s| ensures LowerChar(s[i]) == s[i] {
        assert SlugChar(s[i]);
      }
    }
    assert KeepSlugText(s) == s by {
      forall i | 0 <= i < |s| ensures SlugChar(s[i]) || s[i] == ' ' {
        assert SlugChar(s[i]);
      }
    }
    SlugCharsNotWhitespace(s);
    assert CollapseRuns(s, IsWhitespace) == s by {
      CollapseRunsUnchanged(s, IsWhitespace);
    }
    assert CollapseRuns(s, IsHyphen) == s by {
      CollapseRunsUnchanged(s, IsHyphen);
    }
    TrimUnchanged(s);
  }

  /** `generateSlug` is idempotent. */
  lemma SlugIdempotent(title: string)
    ensures GenerateSlug(GenerateSlug(title)) == GenerateSlug(title)
  {
    SlugShape(title);
    SlugOfSlug(GenerateSlug(title));
  }

  /** A title that starts with a space gives a slug that starts with a hyphen. */
  lemma SlugKeepsLeadingHyphen(title: string)
    requires title != [] && title[0] == ' '
    ensures GenerateSlug(title) != [] && GenerateSlug(title)[0] == '-'
  {
    SlugPasses(title);
    var lowered := Lower(title);
    assert lowered[0] == ' ';
    var kept := KeepSlugText(lowered);
    assert kept[0] == ' ';
    var spaced := CollapseRuns(kept, IsWhitespace);
    assert spaced[0] == '-';
  }

  /** A run ending in a character of `inRun` collapses to text ending in a hyphen. */
  lemma {:induction false} CollapseRunsKeepsEnd(s: string, inRun: char -> bool)
    requires s != [] && inRun(s[|s| - 1])
    ensures CollapseRuns(s, inRun) != [] && CollapseRuns(s, inRun)[|CollapseRuns(s, inRun)| - 1] == '-'
    decreases |s|
  {
    if inRun(s[0]) {
      var t := DropRun(s, inRun);
      if t != [] {
        assert t[|t| - 1] == s[|s| - 1];
        CollapseRunsKeepsEnd(t, inRun);
      }
      assert CollapseRuns(s, inRun) == "-" + CollapseRuns(t, inRun);
    } else {
      var rest := s[1..];
      assert |s| >= 2 && rest[|rest| - 1] == s[|s| - 1];
      CollapseRunsKeepsEnd(rest, inRun);
      assert CollapseRuns(s, inRun) == [s[0]] + CollapseRuns(rest, inRun);
    }
  }

  /** A title that ends with a space gives a slug that ends with a hyphen. */
  lemma SlugKeepsTrailingHyphen(title: string)
    requires title != [] && title[|title| - 1] == ' '
    ensures GenerateSlug(title) != [] && GenerateSlug(title)[|GenerateSlug(title)| - 1] == '-'
  {
    SlugPasses(title);
    var lowered := Lower(title);
    assert lowered[|lowered| - 1] == ' ';
    var kept := KeepSlugText(lowered);
    assert kept != [] && IsWhitespace(kept[|kept| - 1]);
    CollapseRunsKeepsEnd(kept, IsWhitespace);
    var spaced := CollapseRuns(kept, IsWhitespace);
    assert spaced != [] && IsHyphen(spaced[|spaced| - 1]);
    CollapseRunsKeepsEnd(spaced, IsHyphen);
  }

  /** No character of `s` is in the run class. */
  predicate Outside(s: string, inRun: char -> bool) {
    forall i :: 0 <= i < |s| ==> !inRun(s[i])
  }

  lemma OutsideTail(s: string, inRun: char -> bool)
    requires s != [] && Outside(s, inRun)
    ensures !inRun(s[0]) && Outside(s[1..], inRun)
  {
    var rest := s[1..];
    forall i | 0 <= i < |rest| ensures !inRun(rest[i]) {
      assert rest[i] == s[i + 1];
    }
  }

  /** A character outside the run class passes through unchanged. */
  lemma CollapseRunsCons(x: char, rest: string, inRun: char -> bool)
    requires !inRun(x)
    ensures CollapseRuns([x] + rest, inRun) == [x] + CollapseRuns(rest, inRun)
  {
    var s := [x] + rest;
    assert s[0] == x && s[1..] == rest;
  }

  /** A prefix with no character of the run class passes through unchanged. */
  lemma {:induction false} CollapseRunsPrefix(a: string, b: string, inRun: char -> bool)
    requires Outside(a, inRun)
    ensures CollapseRuns(a + b, inRun) == a + CollapseRuns(b, inRun)
    decreases |a|
  {
    if a != [] {
      var x, rest := a[0], a[1..];
      OutsideTail(a, inRun);
      CollapseRunsPrefix(rest, b, inRun);
      HeadTail(a);
      AppendAssoc([x], rest, b);
      CollapseRunsCons(x, rest + b, inRun);
      AppendAssoc([x], rest, CollapseRuns(b, inRun));
    } else {
      assert a + b == b;
    }
  }

  /** One character of the run class before text that starts outside it becomes one hyphen. */
  lemma CollapseRunsSingle(c: char, b: string, inRun: char -> bool)
    requires inRun(c) && (b == [] || !inRun(b[0]))
    ensures CollapseRuns([c] + b, inRun) == "-" + CollapseRuns(b, inRun)
  {
    assert ([c] + b)[1..] == b;
    assert DropRun([c] + b, inRun) == b;
  }

  /** Two words separated by one character of the run class are joined by one hyphen. */
  lemma CollapseRunsWords(a: string, c: char, b: string, inRun: char -> bool)
    requires Outside(a, inRun) && Outside(b, inRun) && inRun(c)
    ensures CollapseRuns(a + [c] + b, inRun) == a + "-" + b
  {
    AppendAssoc(a, [c], b);
    CollapseRunsPlain(b, inRun);
    if b != [] {
      OutsideTail(b, inRun);
    }
    CollapseRunsSingle(c, b, inRun);
    CollapseRunsPrefix(a, [c] + b, inRun);
    AppendAssoc(a, "-", b);
  }

  /** Text with no character of the run class is left as it is. */
  lemma CollapseRunsPlain(b: string, inRun: char -> bool)
    requires Outside(b, inRun)
    ensures CollapseRuns(b, inRun) == b
  {
    CollapseRunsPrefix(b, [], inRun);
    assert b + [] == b;
  }

  lemma LowerOfTestPost()
    ensures Lower("Test Post") == "test post"
  {
    var l := Lower("Test Post");
    assert LowerChar('T') == 't' && LowerChar('P') == 'p';
    assert forall i :: 0 <= i < |l| ==> l[i] == "test post"[i];
  }

  lemma KeptOfTestPost()
    ensures KeepSlugText(Lower("Test Post")) == "test post"
  {
    LowerOfTestPost();
    var l := "test post";
    assert forall i :: 0 <= i < |l| ==> SlugChar(l[i]) || l[i] == ' ';
  }

  lemma SpacesOfTestPost()
    ensures CollapseRuns("test post", IsWhitespace) == "test-post"
  {
    assert "test post" == "test" + [' '] + "post";
    assert Outside("test", IsWhitespace) && Outside("post", IsWhitespace);
    CollapseRunsWords("test", ' ', "post", IsWhitespace);
    assert "test" + "-" + "post" == "test-post";
  }

  lemma HyphensOfTestPost()
    ensures CollapseRuns("test-post", IsHyphen) == "test-post"
  {
    assert "test-post" == "test" + ['-'] + "post";
    assert Outside("test", IsHyphen) && Outside("post", IsHyphen);
    CollapseRunsWords("test", '-', "post", IsHyphen);
  }

  /** The title of the service's own example. */
  lemma SlugOfTestPost()
    ensures GenerateSlug("Test Post") == "test-post"
  {
    KeptOfTestPost();
    SpacesOfTestPost();
    HyphensOfTestPost();
    TrimUnchanged("test-post");
  }

  // ---------------------------------------------------------------------------
  // Pagination metadata

  /** `Math.ceil(total / limit)` for a positive limit. */
  function TotalPages(total: nat, limit: int): (n: nat)
    requires limit > 0
    ensures total == 0 <==> n == 0
    ensures total > 0 ==> (n - 1) * limit < total <= n * limit
  {
    var n := (total + limit - 1) / limit;
    assert n * limit <= total + limit - 1 < (n + 1) * limit;
    n
  }

  // ---------------------------------------------------------------------------
  // What the operations write

  /** The post `createPost` stores for `data`, written by `user` at `now`. */
  function NewPost(data: CreatePostData, user: UserProfile, now: Time): (p: Post)
    ensures p.id.None?
    ensures && p.title == data.title && p.content == data.content && p.excerpt == data.excerpt
            && p.category == data.category && p.tags == data.tags && p.featuredImage == data.featuredImage
            && p.isPublished == data.isPublished && p.isFeatured == data.isFeatured && p.readTime == data.readTime
    ensures p.authorId == user.uid && p.authorName == Some(OrDefault(user.displayName, Anonymous))
    ensures p.createdAt == Some(now) && p.updatedAt == Some(now)
    ensures p.slug == Some(GenerateSlug(data.title)) && IsSlug(p.slug.value)
    ensures p.viewCount == Some(0) && p.likeCount == Some(0)
    ensures p.publishedAt.Some? <==> data.isPublished
    ensures p.publishedAt.Some? ==> p.publishedAt.value == now
  {
    SlugShape(data.title);
    Post(None, data.title, data.content, data.excerpt, data.category, data.tags, data.featuredImage,
         data.isPublished, data.isFeatured, data.readTime, user.uid, Some(OrDefault(user.displayName, Anonymous)),
         Some(now), Some(now), if data.isPublished then Some(now) else None, Some(GenerateSlug(data.title)),
         Some(0), Some(0))
  }

  /** The fields `updatePost` writes: the request's fields and id, `updatedAt`, and `publishedAt` on a first publication. */
  function UpdateFields(d: UpdatePostData, existing: Post, now: Time): (u: PostPatch)
    ensures var q := ApplyPostPatch(existing, u);
            && q.id == Some(d.id)
            && q.updatedAt == Some(now)
            && q.publishedAt == (if d.fields.isPublished == Some(true) && !existing.isPublished then Some(now) else existing.publishedAt)
            && q.isPublished == d.fields.isPublished.GetOr(existing.isPublished)
            && q.title == d.fields.title.GetOr(existing.title)
            && q.tags == d.fields.tags.GetOr(existing.tags)
            && q.content == d.fields.content.GetOr(existing.content)
            && q.excerpt == d.fields.excerpt.GetOr(existing.excerpt)
            && q.category == d.fields.category.GetOr(existing.category)
            && q.featuredImage == d.fields.featuredImage.GetOr(existing.featuredImage)
            && q.isFeatured == d.fields.isFeatured.GetOr(existing.isFeatured)
            && q.readTime == d.fields.readTime.GetOr(existing.readTime)
            // a body may rename the author, the slug or the counters: nothing in updatePost stops it
            && q.authorId == d.fields.authorId.GetOr(existing.authorId)
            && q.authorName == OverrideOptional(d.fields.authorName, existing.authorName)
            && q.slug == OverrideOptional(d.fields.slug, existing.slug)
            && q.viewCount == OverrideOptional(d.fields.viewCount, existing.viewCount)
            && q.likeCount == OverrideOptional(d.fields.likeCount, existing.likeCount)
            && q.createdAt == existing.createdAt
  {
    var f := d.fields;
    var stamp := if f.isPublished == Some(true) && !existing.isPublished then Some(now) else None;
    PostPatch(Some(d.id), f.title, f.content, f.excerpt, f.category, f.tags, f.featuredImage, f.isPublished,
              f.isFeatured, f.readTime, f.authorId, f.authorName, None, Some(now), stamp,
              f.slug, f.viewCount, f.likeCount)
  }

  /** `updatePost`'s write is the request's patch with the update time and, on a first publication, the publication time added. */
  lemma UpdateFieldsExtendUpdatePatch(d: UpdatePostData, existing: Post, now: Time)
    ensures UpdateFields(d, existing, now) ==
            UpdatePatch(d).(updatedAt := Some(now),
                            publishedAt := if d.fields.isPublished == Some(true) && !existing.isPublished then Some(now) else None)
  {
  }

  /** The post as `updatePost` leaves it. */
  function UpdatedPost(d: UpdatePostData, existing: Post, now: Time): Post {
    ApplyPostPatch(existing, UpdateFields(d, existing, now))
  }

  /** `publishPost` always stamps a new publication time. */
  function PublishPatch(now: Time): (u: PostPatch)
    ensures forall p :: ApplyPostPatch(p, u) == p.(isPublished := true, publishedAt := Some(now), updatedAt := Some(now))
  {
    NoPostChange.(isPublished := Some(true), publishedAt := Some(now), updatedAt := Some(now))
  }

  /** `unpublishPost` clears the flag and keeps the publication time. */
  function UnpublishPatch(now: Time): (u: PostPatch)
    ensures forall p :: ApplyPostPatch(p, u) == p.(isPublished := false, updatedAt := Some(now))
  {
    NoPostChange.(isPublished := Some(false), updatedAt := Some(now))
  }

  /** `incrementViewCount` counts a missing view count as 0. */
  function ViewPatch(existing: Post, now: Time): (u: PostPatch)
    ensures ApplyPostPatch(existing, u) == existing.(viewCount := Some(existing.viewCount.GetOr(0) + 1), updatedAt := Some(now))
  {
    NoPostChange.(viewCount := Some(existing.viewCount.GetOr(0) + 1), updatedAt := Some(now))
  }

  function PostSuccess(p: Option<Post>): (r: PostResponse)
    ensures r.success && r.data == p && r.error.None?
  {
    PostResponse(true, p, None)
  }

  function PostsFailure(message: string): (r: PostsResponse)
    ensures !r.success && r.data.None? && r.pagination.None? && r.error == Some(message)
  {
    PostsResponse(false, None, Some(message), None)
  }

  /**
   * A successful `getPosts` answer for `f` over `docs`: the page is the window of the arranged
   * matches with the search applied, and the pagination counts every match the search keeps.
   */
  ghost predicate Listing(docs: map<string, Post>, f: PostFilters, r: PostsResponse) {
    && r.success && LimitOf(f) >= 0 && DirectionOf(SortOrderOf(f)).Some?
    && r.error.None? && r.data.Some? && r.pagination.Some?
    && (exists ks :: Arranged(docs, f, DirectionOf(SortOrderOf(f)).value, ks) &&
          r.data.value == Searched(f, Materialized(docs, Window(ks, SkipOf(f), LimitOf(f)))))
    && var pg := r.pagination.value;
       && pg.page == PageOf(f) && pg.limit == LimitOf(f) && pg.limit > 0
       && pg.totalPages == TotalPages(pg.total, pg.limit)
       && (exists ks :: Enumerates(ks, set k | k in docs && Matches(f, docs[k])) &&
             pg.total == |Searched(f, Materialized(docs, ks))|)
  }

  class PostService {
    const posts: PostRepository
    const auth: AuthService

    ghost predicate Valid() {
      posts.Valid()
    }

    constructor (posts: PostRepository, auth: AuthService)
      ensures this.posts == posts && this.auth == auth
    {
      this.posts := posts;
      this.auth := auth;
    }

    /** The profile of the user `verifyToken` accepts the token for. */
    function Caller(token: string): (u: Option<UserProfile>)
      reads auth.repo.db
      ensures u.Some? <==> auth.repo.verifier(token).Success? && auth.repo.verifier(token).value.uid in auth.repo.db.docs
    {
      var v := auth.repo.verifier(token);
      if v.Success? && v.value.uid in auth.repo.db.docs then Some(auth.repo.db.docs[v.value.uid]) else None
    }

    /**
     * The first failing check before a change to post `id`: the token, then
     * the post's existence, then its ownership; `None` when all pass.
     */
    function Denial(token: string, id: string, verb: string): (m: Option<string>)
      reads auth.repo.db, posts.db
      ensures m == Some(InvalidToken) <==> Caller(token).None?
      ensures m == Some(PostNotFound) <==> Caller(token).Some? && id !in posts.db.docs
      ensures m == Some(UnauthorizedTo(verb)) <==>
                Caller(token).Some? && id in posts.db.docs && posts.db.docs[id].authorId != Caller(token).value.uid
      ensures m.None? <==>
                Caller(token).Some? && id in posts.db.docs && posts.db.docs[id].authorId == Caller(token).value.uid
    {
      var user := Caller(token);
      if user.None? then Some(InvalidToken)
      else if id !in posts.db.docs then Some(PostNotFound)
      else if posts.db.docs[id].authorId != user.value.uid then Some(UnauthorizedTo(verb))
      else None
    }

    /** `verifyToken` on the token, reduced to the profile it yields. */
    method Authenticate(token: string) returns (user: Option<UserProfile>)
      ensures user == Caller(token)
    {
      var result := auth.VerifyToken(token);
      if !result.success {
        return None;
      }
      user := Some(result.data.value.user);
    }

    /** The checks of `Denial`, run against the stores. */
    method Check(token: string, id: string, verb: string) returns (m: Option<string>)
      ensures m == Denial(token, id, verb)
    {
      var user := Authenticate(token);
      if user.None? {
        return Some(InvalidToken);
      }
      var existing := posts.db.GetById(id);
      if existing.None? {
        return Some(PostNotFound);
      }
      if existing.value.authorId != user.value.uid {
        return Some(UnauthorizedTo(verb));
      }
      m := None;
    }

    /** `createPost`: a rejected token answers 'Invalid token' whatever the verifier said. */
    method CreatePost(data: CreatePostData, token: string, now: Time, generatedId: string) returns (r: PostResponse)
      requires generatedId !in posts.db.docs
      modifies posts.db
      ensures old(Caller(token)).None? ==> r == PostFailure(InvalidToken) && posts.db.docs == old(posts.db.docs)
      ensures old(Caller(token)).Some? ==>
                var p := NewPost(data, old(Caller(token)).value, now);
                r == PostSuccess(Some(p.(id := Some(generatedId)))) && posts.db.docs == old(posts.db.docs)[generatedId := p]
    {
      var user := Authenticate(token);
      if user.None? {
        return PostFailure(InvalidToken);
      }
      var p := NewPost(data, user.value, now);
      var key := posts.db.Create(p, None, generatedId);
      r := PostSuccess(Some(p.(id := Some(key))));
    }

    /** `getPostById`: the stored document as it is, with no `id` unless an update wrote one. */
    method GetPostById(id: string) returns (r: PostResponse)
      ensures id in posts.db.docs ==> r == PostSuccess(Some(posts.db.docs[id]))
      ensures id !in posts.db.docs ==> r == PostFailure(PostNotFound)
    {
      var post := posts.db.GetById(id);
      if post.None? {
        return PostFailure(PostNotFound);
      }
      r := PostSuccess(Some(post.value));
    }

    /** `getPosts`: one page of posts and the pagination metadata from `count`. */
    method GetPosts(f: PostFilters) returns (r: PostsResponse)
      ensures !r.success <==> LimitOf(f) < 0 || DirectionOf(SortOrderOf(f)).None?
      ensures !r.success ==> r == PostsFailure(InvalidQuery)
      ensures r.success ==> Listing(posts.db.docs, f, r)
    {
      var found := posts.FindMany(f);
      if found.Failure? {
        return PostsFailure(found.error);
      }
      var total := posts.Count(f);
      var page, limit := PageOf(f), LimitOf(f);
      r := PostsResponse(true, Some(found.value), None, Some(Pagination(page, limit, total, TotalPages(total, limit))));
    }

    /** `updatePost`: after the checks, writes the request's fields, `updatedAt`, and `publishedAt` on a first publication. */
    method UpdatePost(d: UpdatePostData, token: string, now: Time) returns (r: PostResponse)
      requires Valid()
      modifies posts.db
      ensures old(Denial(token, d.id, "update")).Some? ==>
                r == PostFailure(old(Denial(token, d.id, "update")).value) && posts.db.docs == old(posts.db.docs)
      ensures old(Denial(token, d.id, "update")).None? ==>
                var updated := UpdatedPost(d, old(posts.db.docs)[d.id], now);
                r == PostSuccess(Some(updated)) && posts.db.docs == old(posts.db.docs)[d.id := updated]
    {
      var denial := Check(token, d.id, "update");
      if denial.Some? {
        return PostFailure(denial.value);
      }
      var updated := posts.db.Update(d.id, UpdateFields(d, posts.db.docs[d.id], now));
      r := PostSuccess(Some(updated.value));
    }

    /** `deletePost`: after the checks, removes the post and answers with no data. */
    method DeletePost(id: string, token: string) returns (r: PostResponse)
      modifies posts.db
      ensures old(Denial(token, id, "delete")).Some? ==>
                r == PostFailure(old(Denial(token, id, "delete")).value) && posts.db.docs == old(posts.db.docs)
      ensures old(Denial(token, id, "delete")).None? ==>
                r == PostSuccess(None) && posts.db.docs == old(posts.db.docs) - {id}
    {
      var denial := Check(token, id, "delete");
      if denial.Some? {
        return PostFailure(denial.value);
      }
      posts.db.Delete(id);
      r := PostSuccess(None);
    }

    method PublishPost(id: string, token: string, now: Time) returns (r: PostResponse)
      requires Valid()
      modifies posts.db
      ensures old(Denial(token, id, "publish")).Some? ==>
                r == PostFailure(old(Denial(token, id, "publish")).value) && posts.db.docs == old(posts.db.docs)
      ensures old(Denial(token, id, "publish")).None? ==>
                var updated := old(posts.db.docs)[id].(isPublished := true, publishedAt := Some(now), updatedAt := Some(now));
                r == PostSuccess(Some(updated)) && posts.db.docs == old(posts.db.docs)[id := updated]
    {
      var denial := Check(token, id, "publish");
      if denial.Some? {
        return PostFailure(denial.value);
      }
      var updated := posts.db.Update(id, PublishPatch(now));
      r := PostSuccess(Some(updated.value));
    }

    method UnpublishPost(id: string, token: string, now: Time) returns (r: PostResponse)
      requires Valid()
      modifies posts.db
      ensures old(Denial(token, id, "unpublish")).Some? ==>
                r == PostFailure(old(Denial(token, id, "unpublish")).value) && posts.db.docs == old(posts.db.docs)
      ensures old(Denial(token, id, "unpublish")).None? ==>
                var updated := old(posts.db.docs)[id].(isPublished := false, updatedAt := Some(now));
                r == PostSuccess(Some(updated)) && posts.db.docs == old(posts.db.docs)[id := updated]
    {
      var denial := Check(token, id, "unpublish");
      if denial.Some? {
        return PostFailure(denial.value);
      }
      var updated := posts.db.Update(id, UnpublishPatch(now));
      r := PostSuccess(Some(updated.value));
    }

    /** `incrementViewCount`: needs no token. */
    method IncrementViewCount(id: string, now: Time) returns (r: PostResponse)
      requires Valid()
      modifies posts.db
      ensures id !in old(posts.db.docs) ==> r == PostFailure(PostNotFound) && posts.db.docs == old(posts.db.docs)
      ensures id in old(posts.db.docs) ==>
                var p := old(posts.db.docs)[id];
                var updated := p.(viewCount := Some(p.viewCount.GetOr(0) + 1), updatedAt := Some(now));
                r == PostSuccess(Some(updated)) && posts.db.docs == old(posts.db.docs)[id := updated]
    {
      var existing := posts.db.GetById(id);
      if existing.None? {
        return PostFailure(PostNotFound);
      }
      var updated := posts.db.Update(id, ViewPatch(existing.value, now));
      r := PostSuccess(Some(updated.value));
    }
  }
}
