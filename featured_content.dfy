/**
 * FeaturedContent: the card grid of articles. Each card shows how long ago the
 * article was updated, at most three of its tags (with a count of the rest),
 * and links to the article's page when it has an id.
 */
module FeaturedContent {
  import opened Wrappers
  import opened Text
  import opened Models

  const Minute := 60
  const Hour := 3600
  const Day := 86400
  const Month := 2592000
  const Year := 31536000

  /** The card data the pages build from a post. */
  datatype FeaturedArticle = FeaturedArticle(
    id: Option<string>,
    title: string,
    description: string,
    image: string,
    category: string,
    readTime: string,
    createdAt: Option<Time>,
    updatedAt: Option<Time>,
    authorName: Option<string>,
    tags: seq<string>,
    viewCount: Option<int>)

  /** A post as a card: the same fields, the excerpt as description and the featured image as image. */
  function ToArticle(p: Post): FeaturedArticle {
    FeaturedArticle(p.id, p.title, p.excerpt, p.featuredImage, p.category, p.readTime,
                    p.createdAt, p.updatedAt, p.authorName, p.tags, p.viewCount)
  }

  /** `posts.map(post => ({ ... }))`: one card per post, in order. */
  function Articles(posts: seq<Post>): (r: seq<FeaturedArticle>)
    ensures |r| == |posts|
    ensures forall i :: 0 <= i < |posts| ==> r[i] == ToArticle(posts[i])
  {
    seq(|posts|, i requires 0 <= i < |posts| => ToArticle(posts[i]))
  }

  /** How long ago a date was, in the largest unit that fits, or no date at all. */
  datatype Age = NoDate | JustNow | Ago(value: int, unit: string)

  /**
   * The bucket of `getTimeAgo`: whole seconds of age, then minutes under an
   * hour, hours under a day, days under 30 days, months under 365 days, and
   * years beyond. A missing or unparsable date is `None`.
   */
  function AgeOf(date: Option<Time>, now: Time): (a: Age)
    ensures a == NoDate <==> date.None?
    ensures a == JustNow <==> date.Some? && (now - date.value) / 1000 < Minute
    ensures a.Ago? && a.unit == "m" ==> 1 <= a.value <= 59
    ensures a.Ago? && a.unit == "h" ==> 1 <= a.value <= 23
    ensures a.Ago? && a.unit == "d" ==> 1 <= a.value <= 29
    ensures a.Ago? && a.unit == "mo" ==> 1 <= a.value <= 12
    ensures a.Ago? && a.unit == "y" ==> 1 <= a.value
    ensures a.Ago? ==> a.unit in {"m", "h", "d", "mo", "y"}
  {
    if date.None? then NoDate
    else
      var seconds := (now - date.value) / 1000;
      if seconds < Minute then JustNow
      else if seconds < Hour then Ago(seconds / Minute, "m")
      else if seconds < Day then Ago(seconds / Hour, "h")
      else if seconds < Month then Ago(seconds / Day, "d")
      else if seconds < Year then Ago(seconds / Month, "mo")
      else Ago(seconds / Year, "y")
  }

  /** The text a bucket shows. */
  function Render(a: Age): string {
    match a
    case NoDate => ""
    case JustNow => "just now"
    case Ago(value, unit) => IntToString(value) + unit + " ago"
  }

  /** `getTimeAgo(date)` at time `now`. */
  function TimeAgo(date: Option<Time>, now: Time): string {
    Render(AgeOf(date, now))
  }

  /** Each unit covers exactly its range of ages, and the value is the age in whole units. */
  lemma AgeUnits(t: Time, now: Time)
    ensures var s := (now - t) / 1000; var a := AgeOf(Some(t), now);
            && (a.Ago? && a.unit == "m" <==> Minute <= s < Hour)
            && (a.Ago? && a.unit == "h" <==> Hour <= s < Day)
            && (a.Ago? && a.unit == "d" <==> Day <= s < Month)
            && (a.Ago? && a.unit == "mo" <==> Month <= s < Year)
            && (a.Ago? && a.unit == "y" <==> Year <= s)
            && (a.Ago? ==> a.value == s / (if a.unit == "m" then Minute else if a.unit == "h" then Hour
                                           else if a.unit == "d" then Day else if a.unit == "mo" then Month else Year))
  {
  }

  /** A date in the future is shown as 'just now'. */
  lemma FutureIsJustNow(t: Time, now: Time)
    requires t > now
    ensures TimeAgo(Some(t), now) == "just now"
  {
    assert (now - t) / 1000 < 0;
  }

  /** The tags a card shows: the first three, and how many more there are, if any. */
  function TagChips(tags: seq<string>): (r: (seq<string>, Option<nat>))
    ensures r.0 <= tags && |r.0| == if |tags| < 3 then |tags| else 3
    ensures r.1.Some? <==> |tags| > 3
    ensures r.1.Some? ==> |r.0| + r.1.value == |tags|
  {
    (tags[..if |tags| < 3 then |tags| else 3], if |tags| > 3 then Some(|tags| - 3) else None)
  }

  /** The "+N more" label. */
  function MoreLabel(n: nat): string {
    "+" + IntToString(n) + " more"
  }

  /** The card links to `/posts/{id}` when the article has a non-empty id, and to '#' otherwise. */
  function Href(a: FeaturedArticle): (href: string)
    ensures a.id.Some? && a.id.value != "" ==> href == "/posts/" + a.id.value
    ensures a.id.None? || a.id.value == "" ==> href == "#"
  {
    if a.id.Some? && a.id.value != "" then "/posts/" + a.id.value else "#"
  }
}
