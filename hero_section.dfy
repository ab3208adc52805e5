/**
 * The hero section of the home page: the latest published posts as slides
 * (or a welcome slide when there are none), each with its word count, its
 * reading time and how long ago it was updated.
 */
module HeroSection {
  import opened Wrappers
  import opened Text
  import opened Models
  import opened JsObjects
  import opened HttpsService
  import opened ClientPostService

  const DefaultImage := "/images/tea.jpg"
  const DefaultWordCount := 500
  const WordsPerMinute := 200
  const ReadMore := "Read more →"
  const Dash := "—"

  const MinuteMs := 60000
  const HourMs := 3600000
  const DayMs := 86400000

  /** What one slide shows. */
  datatype Slide = Slide(
    id: string,
    title: string,
    description: string,
    buttonText: string,
    backgroundImage: string,
    category: string,
    wordCount: int,
    authorName: Option<string>,
    viewCount: Option<int>,
    updatedAt: Option<Time>)

  /** The one slide shown until posts arrive, and when none do. */
  const DefaultSlides := [Slide("default-1", "Welcome to Our Blog",
                                "Discover amazing content and stories that inspire, educate, and entertain. Join our community of readers and writers.",
                                "Explore →", DefaultImage, "welcome", DefaultWordCount, None, None, None)]

  /** `content ? content.split(' ').length : 500`: one more word than there are spaces. */
  function WordCount(content: string): (n: int)
    ensures content == "" ==> n == DefaultWordCount
    ensures content != "" ==> n == Count(content, ' ') + 1
  {
    SplitLength(content, ' ');
    if content != "" then |Split(content, ' ')| else DefaultWordCount
  }

  /** A post as a slide: an empty id, the default image and the publication time fill the gaps. */
  function ToSlide(p: Post): (s: Slide)
    ensures s.id == if p.id.Some? then p.id.value else ""
    ensures s.backgroundImage == if p.featuredImage != "" then p.featuredImage else DefaultImage
    ensures s.updatedAt == if p.updatedAt.Some? then p.updatedAt else p.publishedAt
    ensures s.title == p.title && s.description == p.excerpt && s.category == p.category
    ensures s.buttonText == ReadMore && s.wordCount == WordCount(p.content) && s.wordCount >= 1
    ensures s.authorName == p.authorName && s.viewCount == p.viewCount
  {
    Slide(if p.id.Some? then p.id.value else "", p.title, p.excerpt, ReadMore,
          if p.featuredImage != "" then p.featuredImage else DefaultImage, p.category,
          WordCount(p.content), p.authorName, p.viewCount,
          if p.updatedAt.Some? then p.updatedAt else p.publishedAt)
  }

  function ToSlides(posts: seq<Post>): (r: seq<Slide>)
    ensures |r| == |posts|
    ensures forall i :: 0 <= i < |posts| ==> r[i] == ToSlide(posts[i])
  {
    seq(|posts|, i requires 0 <= i < |posts| => ToSlide(posts[i]))
  }

  /** The slide's `/posts/{id}` target; a slide without an id goes nowhere. */
  function Target(s: Slide): (t: Option<string>)
    ensures t.Some? <==> s.id != ""
    ensures t.Some? ==> t.value == "/posts/" + s.id
  {
    if s.id != "" then Some("/posts/" + s.id) else None
  }

  /** `Math.ceil(words / 200)`: the fewest whole minutes that cover the words. */
  function ReadingMinutes(words: nat): (m: nat)
    ensures m * WordsPerMinute >= words
    ensures m == 0 || (m - 1) * WordsPerMinute < words
  {
    (words + WordsPerMinute - 1) / WordsPerMinute
  }

  /** A slide's reading time is at least a minute. */
  lemma SlideTakesAMinute(p: Post)
    ensures ReadingMinutes(ToSlide(p).wordCount) >= 1
  {
  }

  // ---------------------------------------------------------------------------
  // `formatUpdatedAgo`

  /** How `formatUpdatedAgo` classifies an update time. */
  datatype Elapsed = Unknown | JustNow | Ago(n: int, unit: string)

  /** Floored minutes, floored again by 60, are floored hours. */
  lemma HoursOfDiff(diff: int)
    ensures diff / MinuteMs / 60 == diff / HourMs
  {
    var q, r := diff / MinuteMs, diff % MinuteMs;
    var q2, r2 := q / 60, q % 60;
    assert diff == HourMs * q2 + (MinuteMs * r2 + r);
    assert 0 <= MinuteMs * r2 + r < HourMs;
  }

  /** Floored hours, floored again by 24, are floored days. */
  lemma DaysOfDiff(diff: int)
    ensures diff / HourMs / 24 == diff / DayMs
  {
    var q, r := diff / HourMs, diff % HourMs;
    var q2, r2 := q / 24, q % 24;
    assert diff == DayMs * q2 + (HourMs * r2 + r);
    assert 0 <= HourMs * r2 + r < DayMs;
  }

  /**
   * The bucket, computed as the source does with floored minutes, then hours,
   * then days. A missing or unparsable time is `Unknown`.
   */
  function UpdatedAge(updatedAt: Option<Time>, now: Time): (e: Elapsed)
    ensures e == Unknown <==> updatedAt.None?
    ensures updatedAt.Some? ==>
              var diff := now - updatedAt.value;
              && (e == JustNow <==> diff < MinuteMs)
              && (e.Ago? && e.unit == "day" <==> diff >= DayMs)
              && (e.Ago? && e.unit == "hour" <==> HourMs <= diff < DayMs)
              && (e.Ago? && e.unit == "minute" <==> MinuteMs <= diff < HourMs)
              && (e.Ago? && e.unit == "day" ==> e.n == diff / DayMs && e.n >= 1)
              && (e.Ago? && e.unit == "hour" ==> e.n == diff / HourMs && 1 <= e.n <= 23)
              && (e.Ago? && e.unit == "minute" ==> e.n == diff / MinuteMs && 1 <= e.n <= 59)
  {
    if updatedAt.None? then Unknown
    else
      var diff := now - updatedAt.value;
      var minutes := diff / MinuteMs;
      var hours := minutes / 60;
      var days := hours / 24;
      HoursOfDiff(diff);
      DaysOfDiff(diff);
      if days > 0 then Ago(days, "day")
      else if hours > 0 then Ago(hours, "hour")
      else if minutes > 0 then Ago(minutes, "minute")
      else JustNow
  }

  /**
   * ` ${n} unit${n === 1 ? '' : 's'} ago`: a space, the number, a space, the unit, plural
   * unless the number is one, and ' ago'.
   */
  function Phrase(n: int, unit: string): (r: string)
    ensures var digits := IntToString(n);
            var named := if n == 1 then unit else unit + "s";
            && |r| == |digits| + |named| + 6
            && r[0] == ' ' && r[1..|digits| + 1] == digits && r[|digits| + 1] == ' '
            && r[|digits| + 2..|r| - 4] == named
            && r[|r| - 4..] == " ago"
  {
    var digits, named := IntToString(n), if n == 1 then unit else unit + "s";
    var r := " " + digits + " " + named + " ago";
    assert r == [' '] + digits + [' '] + named + " ago";
    r
  }

  /** `parseInt` of a phrase reads its number back: the leading space is skipped and the digits end at the next space. */
  lemma PhraseReadsBack(n: int, unit: string)
    ensures ParseInt(Phrase(n, unit)) == Some(n)
  {
    var after := " " + (if n == 1 then unit else unit + "s") + " ago";
    assert Phrase(n, unit) == " " + (IntToString(n) + after);
    ParseIntSkipsSpace(IntToString(n) + after);
    ParseIntOfLeadingString(n, after);
  }

  /** The hero's 'updated' text: a dash without a time, 'just now' within a minute, otherwise a phrase ending in ' ago'. */
  function FormatUpdatedAgo(updatedAt: Option<Time>, now: Time): (r: string)
    ensures updatedAt.None? ==> r == Dash
    ensures updatedAt.Some? && now - updatedAt.value < MinuteMs ==> r == "just now"
    ensures updatedAt.Some? && now - updatedAt.value >= MinuteMs ==>
              var e := UpdatedAge(updatedAt, now);
              e.Ago? && r == Phrase(e.n, e.unit) && r[0] == ' ' && r[|r| - 4..] == " ago"
  {
    match UpdatedAge(updatedAt, now)
    case Unknown => Dash
    case JustNow => "just now"
    case Ago(n, unit) => Phrase(n, unit)
  }

  /** A time in the future, or less than a minute ago, reads 'just now'; a missing one a dash. */
  lemma RecentIsJustNow(t: Time, now: Time)
    requires now - t < MinuteMs
    ensures FormatUpdatedAgo(Some(t), now) == "just now"
    ensures FormatUpdatedAgo(None, now) == Dash
  {
  }

  // ---------------------------------------------------------------------------
  // Fetching the slides

  /** `{ isPublished: true, limit: 6, sortBy: 'publishedAt', sortOrder: 'desc' }` */
  const HeroFilters: Entries := [("isPublished", Bool(true)), ("limit", Num(6)),
                                 ("sortBy", Str("publishedAt")), ("sortOrder", Str("desc"))]

  /** The slides a reply leaves: its posts when it succeeded with at least one, otherwise those already shown. */
  function NextSlides(current: seq<Slide>, reply: Result<PostsResponse, string>): (r: seq<Slide>)
    ensures reply.Success? && reply.value.success && reply.value.data.Some? && |reply.value.data.value| > 0 ==>
              r == ToSlides(reply.value.data.value)
    ensures !(reply.Success? && reply.value.success && reply.value.data.Some? && |reply.value.data.value| > 0) ==>
              r == current
    ensures current != [] ==> r != []
  {
    if reply.Success? && reply.value.success && reply.value.data.Some? && |reply.value.data.value| > 0
    then ToSlides(reply.value.data.value) else current
  }

  class HeroState {
    var slides: seq<Slide>
    var loading: bool
    var error: Option<string>

    constructor ()
      ensures slides == DefaultSlides && loading && error.None?
    {
      slides, loading, error := DefaultSlides, true, None;
    }

    /**
     * The effect that fetches the latest six published posts without a token:
     * the slides are replaced only by a non-empty list, and a thrown error is shown.
     */
    method FetchPosts(service: ClientPostService, send: Call -> Result<PostsResponse, Thrown>) returns (call: Call)
      modifies this
      ensures call == PostsCall(QueryPairs(HeroFilters), true)
      ensures slides == NextSlides(old(slides), PostsOutcome(send(call)))
      ensures error == if PostsOutcome(send(call)).Failure? then Some(PostsOutcome(send(call)).error) else None
      ensures !loading
    {
      loading, error := true, None;
      var reply;
      call, reply := service.GetPosts(Some(HeroFilters), true, send);
      if reply.Failure? {
        error := Some(reply.error);
      }
      slides := NextSlides(slides, reply);
      loading := false;
    }
  }

  /** Some slide is always shown. */
  lemma AlwaysASlide(reply: Result<PostsResponse, string>)
    ensures NextSlides(DefaultSlides, reply) != []
  {
  }
}
