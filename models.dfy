/**
 * The records of src/models/post.ts and src/models/auth.ts. Optional properties
 * are `Option`s; a `Date` is a number of milliseconds (`Time`).
 */
module Models {
  import opened Wrappers

  /** Milliseconds since the epoch. */
  type Time = int

  /** A stored or returned post. Stored documents carry no `id` unless an update wrote one. */
  datatype Post = Post(
    id: Option<string>,
    title: string,
    content: string,
    excerpt: string,
    category: string,
    tags: seq<string>,
    featuredImage: string,
    isPublished: bool,
    isFeatured: bool,
    readTime: string,
    authorId: string,
    authorName: Option<string>,
    createdAt: Option<Time>,
    updatedAt: Option<Time>,
    publishedAt: Option<Time>,
    slug: Option<string>,
    viewCount: Option<int>,
    likeCount: Option<int>)

  datatype CreatePostData = CreatePostData(
    title: string,
    content: string,
    excerpt: string,
    category: string,
    tags: seq<string>,
    featuredImage: string,
    isPublished: bool,
    isFeatured: bool,
    readTime: string)

  /** `Partial<CreatePostData>`: the editable fields of an update. */
  datatype PostFields = PostFields(
    title: Option<string>,
    content: Option<string>,
    excerpt: Option<string>,
    category: Option<string>,
    tags: Option<seq<string>>,
    featuredImage: Option<string>,
    isPublished: Option<bool>,
    isFeatured: Option<bool>,
    readTime: Option<string>,
    // keys of a stored post that an update body can carry as well
    authorId: Option<string>,
    authorName: Option<string>,
    slug: Option<string>,
    viewCount: Option<int>,
    likeCount: Option<int>)

  /** `UpdatePostData`: the id of the post to change and the fields to change. */
  datatype UpdatePostData = UpdatePostData(id: string, fields: PostFields)

  /** `Partial<Post>`: the fields an update of a stored post writes; `None` leaves a field alone. */
  datatype PostPatch = PostPatch(
    id: Option<string>,
    title: Option<string>,
    content: Option<string>,
    excerpt: Option<string>,
    category: Option<string>,
    tags: Option<seq<string>>,
    featuredImage: Option<string>,
    isPublished: Option<bool>,
    isFeatured: Option<bool>,
    readTime: Option<string>,
    authorId: Option<string>,
    authorName: Option<string>,
    createdAt: Option<Time>,
    updatedAt: Option<Time>,
    publishedAt: Option<Time>,
    slug: Option<string>,
    viewCount: Option<int>,
    likeCount: Option<int>)

  const NoPostChange := PostPatch(None, None, None, None, None, None, None, None, None, None,
                                  None, None, None, None, None, None, None, None)

  function Override<T>(update: Option<T>, current: T): T {
    if update.Some? then update.value else current
  }

  /** An optional field of the document takes the patch's value when the patch has one. */
  function OverrideOptional<T>(update: Option<T>, current: Option<T>): Option<T> {
    if update.Some? then update else current
  }

  /** Firestore's `update`: every field present in the patch replaces the stored one. */
  function ApplyPostPatch(p: Post, u: PostPatch): Post {
    Post(
      OverrideOptional(u.id, p.id),
      Override(u.title, p.title),
      Override(u.content, p.content),
      Override(u.excerpt, p.excerpt),
      Override(u.category, p.category),
      Override(u.tags, p.tags),
      Override(u.featuredImage, p.featuredImage),
      Override(u.isPublished, p.isPublished),
      Override(u.isFeatured, p.isFeatured),
      Override(u.readTime, p.readTime),
      Override(u.authorId, p.authorId),
      OverrideOptional(u.authorName, p.authorName),
      OverrideOptional(u.createdAt, p.createdAt),
      OverrideOptional(u.updatedAt, p.updatedAt),
      OverrideOptional(u.publishedAt, p.publishedAt),
      OverrideOptional(u.slug, p.slug),
      OverrideOptional(u.viewCount, p.viewCount),
      OverrideOptional(u.likeCount, p.likeCount))
  }

  /** The patch that carries exactly the fields of an update request, its id included. */
  function UpdatePatch(d: UpdatePostData): (u: PostPatch)
    ensures u.id == Some(d.id)
    ensures u.createdAt.None? && u.updatedAt.None? && u.publishedAt.None?
    ensures u.authorId == d.fields.authorId && u.slug == d.fields.slug
    ensures u.viewCount == d.fields.viewCount && u.likeCount == d.fields.likeCount
    ensures u.title == d.fields.title && u.content == d.fields.content && u.excerpt == d.fields.excerpt
    ensures u.category == d.fields.category && u.tags == d.fields.tags
    ensures u.featuredImage == d.fields.featuredImage && u.isPublished == d.fields.isPublished
    ensures u.isFeatured == d.fields.isFeatured && u.readTime == d.fields.readTime
    ensures u.authorName == d.fields.authorName
  {
    var f := d.fields;
    NoPostChange.(id := Some(d.id), title := f.title, content := f.content, excerpt := f.excerpt,
                  category := f.category, tags := f.tags, featuredImage := f.featuredImage,
                  isPublished := f.isPublished, isFeatured := f.isFeatured, readTime := f.readTime,
                  authorId := f.authorId, authorName := f.authorName, slug := f.slug,
                  viewCount := f.viewCount, likeCount := f.likeCount)
  }

  /** A patch that sets nothing leaves the document as it is. */
  lemma EmptyPostPatchIdentity(p: Post)
    ensures ApplyPostPatch(p, NoPostChange) == p
  {
  }

  /** Writing the same patch twice has the effect of writing it once. */
  lemma PostPatchIdempotent(p: Post, u: PostPatch)
    ensures ApplyPostPatch(ApplyPostPatch(p, u), u) == ApplyPostPatch(p, u)
  {
  }

  datatype PostResponse = PostResponse(success: bool, data: Option<Post>, error: Option<string>)

  function PostFailure(message: string): (r: PostResponse)
    ensures !r.success && r.data.None? && r.error == Some(message)
  {
    PostResponse(false, None, Some(message))
  }

  datatype Pagination = Pagination(page: int, limit: int, total: nat, totalPages: int)

  datatype PostsResponse = PostsResponse(
    success: bool,
    data: Option<seq<Post>>,
    error: Option<string>,
    pagination: Option<Pagination>)

  /**
   * `PostFilters` as the server receives it. `sortBy` and `sortOrder` are
   * strings: the controller casts whatever text the query carried.
   */
  datatype PostFilters = PostFilters(
    category: Option<string>,
    tags: Option<seq<string>>,
    isPublished: Option<bool>,
    isFeatured: Option<bool>,
    authorId: Option<string>,
    search: Option<string>,
    page: Option<int>,
    limit: Option<int>,
    sortBy: Option<string>,
    sortOrder: Option<string>)

  const NoFilters := PostFilters(None, None, None, None, None, None, None, None, None, None)

  datatype LoginCredentials = LoginCredentials(email: string, password: string)

  datatype SignupCredentials = SignupCredentials(email: string, password: string, displayName: Option<string>)

  datatype UserProfile = UserProfile(
    uid: string,
    email: string,
    displayName: Option<string>,
    emailVerified: bool,
    createdAt: Time,
    updatedAt: Time,
    lastLoginAt: Option<Time>)

  datatype CreateUserProfileData = CreateUserProfileData(
    uid: string,
    email: string,
    displayName: Option<string>,
    emailVerified: bool)

  /** `Partial<UserProfile>` */
  datatype ProfilePatch = ProfilePatch(
    uid: Option<string>,
    email: Option<string>,
    displayName: Option<string>,
    emailVerified: Option<bool>,
    createdAt: Option<Time>,
    updatedAt: Option<Time>,
    lastLoginAt: Option<Time>)

  const NoProfileChange := ProfilePatch(None, None, None, None, None, None, None)

  function ApplyProfilePatch(p: UserProfile, u: ProfilePatch): UserProfile {
    UserProfile(
      Override(u.uid, p.uid),
      Override(u.email, p.email),
      OverrideOptional(u.displayName, p.displayName),
      Override(u.emailVerified, p.emailVerified),
      Override(u.createdAt, p.createdAt),
      Override(u.updatedAt, p.updatedAt),
      OverrideOptional(u.lastLoginAt, p.lastLoginAt))
  }

  /** `ApiStatus.SUCCESS` and `ApiStatus.UNAUTHORIZED`; their numeric values are not part of this model. */
  datatype ApiStatus = StatusSuccess | StatusUnauthorized

  /**
   * The `data` of an authentication reply: the profile alone, or the profile with both tokens.
   * `userId` is the `id` key a just-created profile carries (the key it was stored under);
   * a profile read back from the store has none.
   */
  datatype AuthPayload =
    | ProfileOnly(user: UserProfile)
    | Session(user: UserProfile, userId: Option<string>, idToken: string, customToken: string)

  datatype ApiResponse = ApiResponse(success: bool, status: ApiStatus, data: Option<AuthPayload>, error: Option<string>)

  function ApiFailure(message: string): (r: ApiResponse)
    ensures !r.success && r.status == StatusUnauthorized && r.data.None? && r.error == Some(message)
  {
    ApiResponse(false, StatusUnauthorized, None, Some(message))
  }
}
