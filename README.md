# Writable, modelled in Dafny

Writable is a blogging application. Authors sign up, write posts, publish and
unpublish them, and readers browse, search and open them. It has two halves:

- The **server** runs on Next.js. A controller reads each HTTP request and passes
  it to a post service. The service checks the caller's token and the post's
  owner, then reads and writes a post repository. That repository sits on a
  generic document-store repository. An auth service and an auth repository keep
  user profiles and talk to the identity provider.
- The **browser client** has an HTTPS helper that attaches the signed-in user's
  token. A post service turns filters into query strings and server replies into
  values or thrown errors. Several pages (dashboard, my posts, create post, sign
  up) and two components (featured cards, hero slider) hold the list and form
  logic.

This project models that core in Dafny and proves what each part promises.

- Queries, formatting, validation and paging are functions.
- The store, the repositories, the services and every page are classes. Their
  methods change their fields and say exactly what the new state is.
- Loops in the source are loops here: the query builder, the dashboard grouping,
  the repository enumerations and the batch operations.

**Outside world as parameters.** The hosted pieces are replaced by explicit values:

- The document store becomes `DocumentStore.Collection`, a class over a
  `map<string, T>`.
- The identity provider becomes function-valued constants of the auth repository:
  sign-in and sign-up replies, the ID-token verifier and the custom-token minter.
- Clocks become a `now: Time` parameter, in integer milliseconds.
- Auto-generated document ids become a `generatedId` parameter.
- Every network request becomes a `send: Call -> Result<…>` parameter, so a method
  states which request it makes and what it does with the reply.

**JavaScript semantics written out.**

- A JavaScript object is `JsObjects.Entries`, an ordered list of `(key, value)`
  pairs.
- Spread (`{...a, ...b}`), `{ id, ...rest }` and `Object.entries` keep their order
  and override rules.
- `||` on a string falls back on `""`.
- `parseInt` reads decimal text: an optional sign and a leading run of digits.
- `trim` and `split` are the JavaScript ones, and `toLowerCase` is its ASCII part.

Modules, one per source file (`Wrappers`, `Text`, `Sequences`, `JsObjects` and
`Models` are shared):

| module | source |
|---|---|
| `Models` | `src/models/post.ts`, `src/models/auth.ts` |
| `DocumentStore` | `src/server/repositories/baseFirebaseRepository.ts` |
| `PostRepository` | `src/server/repositories/postRepository.ts` |
| `ServerPostService` | `src/server/services/postService.ts` |
| `PostController` | `src/server/controllers/postController.ts` |
| `AuthRepository` | `src/server/repositories/authRepository.ts` |
| `AuthService` | `src/server/services/authService.ts` |
| `HttpsService` | `src/services/httpsService.ts` |
| `ClientPostService` | `src/services/postService.ts` |
| `WireRoundTrips` | the two round trips between browser and server |
| `MyPosts` | `src/app/my-posts/page.tsx` |
| `Dashboard` | `src/app/dashboard/page.tsx` |
| `CreatePostForm` | `src/app/create-post/page.tsx` |
| `Signup` | `src/app/signup/page.tsx` |
| `FeaturedContent` | `src/components/FeaturedContent.tsx` |
| `HeroSection` | `src/components/hero-section.tsx` |

Three behaviours of the code a reader may not expect:

- **The slug keeps edge hyphens.** The final `trim()` of `generateSlug` removes
  whitespace only, so a slug can begin or end with `-`. `SlugKeepsLeadingHyphen`
  and `SlugKeepsTrailingHyphen` prove it.
- **`authorId` is not immutable.** `updatePost` spreads the whole request body
  into the update. An owner's body can therefore rewrite `authorId`,
  `authorName`, `slug`, `viewCount` and `likeCount`. The author check only looks
  at the stored author before the write. `PostController.UpdateBodyDecidesAuthor`
  proves that the body's `authorId` becomes the author.
- **Logout does not stop a token.** `logout` revokes refresh tokens, but
  `verifyToken` never consults the revocation. After a logout the same ID token
  still verifies.

## Model

| member | source | states |
|---|---|---|
| `JsObjects.Set` | src/services/httpsService.ts:52-54 | assigning a key adds it to the key set, makes it read back the new value and leaves every other key's value as it was |
| `JsObjects.Spread` | src/services/httpsService.ts:47-50 | `{...a, ...b}` has the keys of both, and each key reads from `b` when `b` has it, otherwise from `a` |
| `JsObjects.Omit` | src/services/postService.ts:78 | `{ id, ...rest }` drops exactly that key and keeps every other key's value |
| `JsObjects.OmitAbsent` | src/services/postService.ts:78 | omitting a key the object does not have gives back the same object |
| `Text.Lower` | src/server/services/postService.ts:326 | lower-casing keeps the length, maps every character on its own, and leaves no upper-case ASCII letter |
| `Text.OrDefault` | src/server/services/postService.ts:28 | JavaScript's or-fallback on a string: the value when it is present and non-empty, the fallback otherwise |
| `Text.TrimIdempotent` | src/app/dashboard/page.tsx:43 | trimming a trimmed string changes nothing |
| `Text.JoinSplit` | src/server/controllers/postController.ts:81 | joining the pieces of `split(',')` with ',' gives the original text back |
| `Text.DigitPrefixStops` | src/server/controllers/postController.ts:86-87 | the digit run `parseInt` reads ends at the first non-digit |
| `Text.ParseIntOfLeadingString` | src/server/controllers/postController.ts:86-87 | `parseInt` of the decimal text of an integer followed by a non-digit gives that integer |
| `Text.ParseIntSkipsSpace` | src/server/controllers/postController.ts:86-87 | `parseInt` skips a leading space |
| `Text.ParseSignedDigits` | src/server/controllers/postController.ts:86-87 | `parseInt` of an optional minus sign followed by digits gives their value, negated after a minus |
| `Text.ParseIntOfString` | src/server/controllers/postController.ts:86-87 | `parseInt` of the decimal text of any integer, sign included, gives that integer |
| `Models.PostPatchIdempotent` | src/server/repositories/baseFirebaseRepository.ts:32-38 | a field merge applied twice is the same as applied once |
| `Models.EmptyPostPatchIdentity` | src/server/repositories/baseFirebaseRepository.ts:32-38 | a merge that names no field leaves the post unchanged |
| `Models.UpdatePatch` | src/server/services/postService.ts:138-141 | the update writes the request's id and every field its body carries, author, slug and counters included; it never writes the creation, update or publication time |
| `DocumentStore.Enumerate` | src/server/repositories/baseFirebaseRepository.ts:44-47 | a loop over the key set lists every key exactly once |
| `DocumentStore.EnumeratesSize` | src/server/repositories/baseFirebaseRepository.ts:73-76 | a listing of a key set without repeats is as long as the set is large |
| `DocumentStore.AssignmentsKeys` | src/server/repositories/baseFirebaseRepository.ts:78-87 | the documents a batch of writes leaves have exactly the keys the batch names |
| `DocumentStore.ApplyAllUntouched` | src/server/repositories/baseFirebaseRepository.ts:89-98 | a batch of merges changes no key it does not name and adds no key |
| `DocumentStore.Collection.constructor` | src/server/repositories/baseFirebaseRepository.ts:12-22 | a collection starts empty, with the store's field merge |
| `DocumentStore.Collection.Create` | src/server/repositories/baseFirebaseRepository.ts:12-22 | the data is stored under the given non-empty id, overwriting any document there, or else under the generated id, which no document had; that key is returned |
| `DocumentStore.Collection.GetById` | src/server/repositories/baseFirebaseRepository.ts:24-30 | it finds nothing exactly when the key is absent, and otherwise returns the stored data |
| `DocumentStore.Collection.Update` | src/server/repositories/baseFirebaseRepository.ts:32-38 | an existing document is replaced by its merge with the updates, which is returned; a missing one is an error and nothing changes |
| `DocumentStore.Collection.Transform` | src/server/repositories/postRepository.ts:143-162 | a store-side change of one field, such as an atomic increment, rewrites that document only, and fails on a missing one |
| `DocumentStore.Collection.Delete` | src/server/repositories/baseFirebaseRepository.ts:40-42 | only that key is removed |
| `DocumentStore.Collection.GetAll` | src/server/repositories/baseFirebaseRepository.ts:44-47 | the result holds each stored document once, in some order of their keys |
| `DocumentStore.Collection.GetWhere` | src/server/repositories/baseFirebaseRepository.ts:49-55 | the result holds each document meeting the condition once, and no other |
| `DocumentStore.Collection.GetWhereMultiple` | src/server/repositories/baseFirebaseRepository.ts:57-66 | the result holds each document meeting every condition once; an empty list of conditions returns every document |
| `DocumentStore.Collection.Exists` | src/server/repositories/baseFirebaseRepository.ts:68-71 | true exactly when the key is stored, as `getById` agrees |
| `DocumentStore.Collection.Count` | src/server/repositories/baseFirebaseRepository.ts:73-76 | the number of stored documents |
| `DocumentStore.Collection.BatchCreate` | src/server/repositories/baseFirebaseRepository.ts:78-87 | every item is written under its key, a later item winning over an earlier one, and no other key changes |
| `DocumentStore.Collection.BatchUpdate` | src/server/repositories/baseFirebaseRepository.ts:89-98 | when every key exists all merges are applied; when one is missing the commit fails and nothing changes |
| `DocumentStore.Collection.BatchDelete` | src/server/repositories/baseFirebaseRepository.ts:100-109 | exactly the listed keys are removed |
| `PostRepository.NumberOr` | src/server/repositories/postRepository.ts:38-39 | page falls back on 1 and limit on 10 when absent or zero, and keeps its value otherwise |
| `PostRepository.PrecedesOrder` | src/server/repositories/postRepository.ts:34-36 | ordering by the sort field in either direction, ties broken by document key, is a strict total order |
| `PostRepository.Materialize` | src/server/repositories/postRepository.ts:52-58 | each returned post is the stored data with the document key as its id, unless the data holds an id of its own |
| `PostRepository.SearchedAll` | src/server/repositories/postRepository.ts:61-70 | with no search term the page is returned as it is |
| `PostRepository.PostRepository.constructor` | src/server/repositories/postRepository.ts:5-8 | the repository starts over an empty collection of posts |
| `PostRepository.PostRepository.FindMany` | src/server/repositories/postRepository.ts:10-71 | the query fails exactly on a negative limit or an unknown direction; otherwise the result is the search filter of the page window at offset (page-1)·limit, at most `limit` long, of the posts meeting every equality and tag filter, sorted by the sort field in the sort order |
| `PostRepository.PostRepository.Count` | src/server/repositories/postRepository.ts:73-122 | the number of stored posts meeting the filters and the search term, whatever the page, limit and sort |
| `PostRepository.PostRepository.FindBySlug` | src/server/repositories/postRepository.ts:124-141 | nothing is found exactly when no stored post has that slug; otherwise a stored post with that slug, read back with its key as id |
| `PostRepository.PostRepository.IncrementViewCount` | src/server/repositories/postRepository.ts:143-148 | the stored view count goes up by one, a missing one counting as 0, and nothing else changes |
| `PostRepository.PostRepository.IncrementLikeCount` | src/server/repositories/postRepository.ts:150-155 | the like count goes up by one and nothing else changes |
| `PostRepository.PostRepository.DecrementLikeCount` | src/server/repositories/postRepository.ts:157-162 | the like count goes down by one with no lower bound, so it can become negative |
| `PostRepository.SearchedCount` | src/server/repositories/postRepository.ts:61-68 | searching a listing without repeats keeps as many posts as there are search hits among its keys |
| `PostRepository.Arrange` | src/server/repositories/postRepository.ts:34-36 | the ordering step returns a permutation of the keys, sorted by the query's order |
| `PostRepository.Insert` | src/server/repositories/postRepository.ts:34-36 | inserting a key into a sorted listing keeps it sorted and adds exactly that key |
| `PostRepository.SortedInsert` | src/server/repositories/postRepository.ts:34-36 | a key placed between the keys before it and the keys after it leaves the listing sorted |
| `PostRepository.ArrangementUnique` | src/server/repositories/postRepository.ts:34-36 | the sorted order of the selected posts is unique, because ties are broken by key |
| `PostRepository.MaterializeAll` | src/server/repositories/postRepository.ts:47-59 | the `snapshot.forEach` loop turns each listed document, in order, into the post a query returns, its stored id winning over the document id |
| `PostRepository.MaterializedWindow` | src/server/repositories/postRepository.ts:38-59 | taking the page window before or after reading the documents gives the same posts |
| `PostRepository.FoundPagesFiltered` | src/server/repositories/postRepository.ts:38-68 | reading and filtering pages 1 to n one after another gives the same posts as filtering the pages of the whole listing, read once |
| `PostRepository.PagingFindsEveryHit` | src/server/repositories/postRepository.ts:38-68 | the search-filtered pages that cover the whole selection together hold exactly its search hits, in sorted order; when every matching post has the sort field, that is exactly `count` posts |
| `PostRepository.CountIsNumberOfHits` | src/server/repositories/postRepository.ts:73-122 | `count` equals the number of stored posts meeting the filters that are also search hits |
| `ServerPostService.UnauthorizedTo` | src/server/services/postService.ts:132 | the ownership message is 'Unauthorized to ' followed by the verb and ' this post', so the verb can be read back from the middle |
| `ServerPostService.UnauthorizedToInjective` | src/server/services/postService.ts:132 | two ownership messages are equal exactly when their verbs are, so the update, delete, publish and unpublish refusals are told apart |
| `ServerPostService.CleanUndefinedValues` | src/server/services/postService.ts:10-14 | exactly the entries whose value is not `undefined` are kept, each key reading the same value as before |
| `ServerPostService.CleanIdempotent` | src/server/services/postService.ts:10-14 | cleaning twice is cleaning once |
| `ServerPostService.KeepSlugText` | src/server/services/postService.ts:327 | after dropping other characters only `a-z`, `0-9`, `-` and spaces remain; text made only of those is unchanged |
| `ServerPostService.DropRun` | src/server/services/postService.ts:328-329 | dropping a leading run leaves a suffix that does not start with the run's characters |
| `ServerPostService.CollapseRunsNoDouble` | src/server/services/postService.ts:329 | after collapsing hyphen runs no two hyphens are adjacent |
| `ServerPostService.CollapseRunsChars` | src/server/services/postService.ts:328-329 | collapsing runs leaves only hyphens and the characters outside the runs |
| `ServerPostService.SlugPasses` | src/server/services/postService.ts:324-331 | the two collapsing passes leave only slug characters and no repeated hyphen, so the final `trim` changes nothing |
| `ServerPostService.SlugShape` | src/server/services/postService.ts:324-331 | a slug holds only `a-z`, `0-9` and `-`, and never two hyphens in a row |
| `ServerPostService.SlugOfSlug` | src/server/services/postService.ts:324-331 | a text already in slug shape is its own slug |
| `ServerPostService.SlugIdempotent` | src/server/services/postService.ts:324-331 | deriving a slug from a slug changes nothing |
| `ServerPostService.CollapseRunsUnchanged` | src/server/services/postService.ts:329 | text without a run to collapse is unchanged |
| `ServerPostService.SlugKeepsLeadingHyphen` | src/server/services/postService.ts:324-331 | a title that starts with a space gives a slug that starts with '-', because only whitespace is trimmed |
| `ServerPostService.SlugKeepsTrailingHyphen` | src/server/services/postService.ts:324-331 | a title that ends with a space gives a slug that ends with '-' |
| `ServerPostService.CollapseRunsPrefix` | src/server/services/postService.ts:328-329 | text before the first character of a run passes through the collapsing unchanged |
| `ServerPostService.CollapseRunsPlain` | src/server/services/postService.ts:328-329 | text with no character of the run class is left as it is |
| `ServerPostService.CollapseRunsWords` | src/server/services/postService.ts:328-329 | two words separated by one run character are joined by one hyphen |
| `ServerPostService.CollapseRunsKeepsEnd` | src/server/services/postService.ts:328-329 | a run at the end of the text becomes a final hyphen |
| `ServerPostService.SlugOfTestPost` | src/test/server/postService.test.ts:86 | "Test Post" becomes "test-post" |
| `ServerPostService.TotalPages` | src/server/services/postService.ts:87 | `ceil(total / limit)`: zero exactly for no posts, otherwise (pages-1)·limit < total ≤ pages·limit |
| `ServerPostService.NewPost` | src/server/services/postService.ts:26-43 | a created post carries the request's fields, the caller as author with 'Anonymous' for a missing name, both times equal to now, zero counters, the title's slug, and a publication time exactly when it is published |
| `ServerPostService.UpdateFields` | src/server/services/postService.ts:138-146 | every field the body carries replaces the stored one, author, slug and counters included, and every other field stays; the id is written, `updatedAt` becomes now, `publishedAt` is set only when an unpublished post is published, and the creation time stays |
| `ServerPostService.UpdateFieldsExtendUpdatePatch` | src/server/services/postService.ts:138-146 | the write of `updatePost` is exactly the request's patch plus the update time and, only on a first publication, the publication time |
| `ServerPostService.PublishPatch` | src/server/services/postService.ts:233-237 | publishing sets the flag and always sets a new publication time |
| `ServerPostService.UnpublishPatch` | src/server/services/postService.ts:279-282 | unpublishing clears the flag and keeps the publication time |
| `ServerPostService.ViewPatch` | src/server/services/postService.ts:306-309 | a view sets the count to the old count, or 0, plus one, and stamps `updatedAt` |
| `ServerPostService.PostSuccess` | src/server/services/postService.ts:45-48 | a successful reply carries the post and no error |
| `ServerPostService.PostsFailure` | src/server/services/postService.ts:99-104 | a failed listing carries the message and no data or pagination |
| `ServerPostService.PostService.constructor` | src/server/services/postService.ts:6-8 | the service works over the given repositories |
| `ServerPostService.PostService.Caller` | src/server/services/postService.ts:18-24 | a token names a caller exactly when it verifies and its user has a profile |
| `ServerPostService.PostService.Denial` | src/server/services/postService.ts:110-135 | the checks run in order: an unknown caller gives 'Invalid token', then a missing post 'Post not found', then another author 'Unauthorized to <verb> this post'; none applies exactly when the caller owns an existing post |
| `ServerPostService.PostService.Authenticate` | src/server/services/postService.ts:18-24 | returns the caller the token names, if any |
| `ServerPostService.PostService.Check` | src/server/services/postService.ts:166-190 | returns the first check that fails, the same for every mutating operation |
| `ServerPostService.PostService.CreatePost` | src/server/services/postService.ts:16-55 | a rejected token answers 'Invalid token' whatever the verifier said, storing nothing; otherwise the new post is stored under the generated key, which no post had, and returned with that key as its id |
| `ServerPostService.PostService.GetPostById` | src/server/services/postService.ts:57-78 | the stored document as it is, or 'Post not found' |
| `ServerPostService.PostService.GetPosts` | src/server/services/postService.ts:80-105 | one page of posts as the repository finds it, with page and limit after their defaults, the total from `count`, and the number of pages that total needs (the predicate `Listing`) |
| `ServerPostService.PostService.UpdatePost` | src/server/services/postService.ts:107-162 | a failed check answers its message and changes nothing; otherwise the post is replaced by its update, which is returned |
| `ServerPostService.PostService.DeletePost` | src/server/services/postService.ts:164-203 | a failed check changes nothing; otherwise only that post is removed |
| `ServerPostService.PostService.PublishPost` | src/server/services/postService.ts:205-249 | a failed check changes nothing; otherwise the post is published with a new publication time |
| `ServerPostService.PostService.UnpublishPost` | src/server/services/postService.ts:251-294 | a failed check changes nothing; otherwise the flag is cleared and the publication time kept |
| `ServerPostService.PostService.IncrementViewCount` | src/server/services/postService.ts:296-322 | needs no token; a missing post gives 'Post not found' and nothing changes; otherwise the view count goes up by one |
| `PostController.ExtractTokenCuts` | src/server/controllers/postController.ts:20 | the token is the header with its first 'Bearer ' removed: the rest after a leading 'Bearer ', the whole header when it has none |
| `PostController.ErrorStatus` | src/server/controllers/postController.ts:50 | a thrown error is 404 exactly when it is an Error whose message is 'Post not found', and 500 otherwise |
| `PostController.CatchReply` | src/server/controllers/postController.ts:28-37 | the reply to a thrown value carries its message, or 'Internal server error' for a non-Error |
| `PostController.FirstWith` | src/server/controllers/postController.ts:69-78 | the position of the first parameter with that name, or -1 when there is none |
| `PostController.Param` | src/server/controllers/postController.ts:69-78 | `searchParams.get` reads the value of the first parameter with that name, and null exactly when there is none |
| `PostController.NonEmpty` | src/server/controllers/postController.ts:80 | a text filter is set only from a present, non-empty value |
| `PostController.NumberParam` | src/server/controllers/postController.ts:86-87 | page and limit are parsed only from a present, non-empty value |
| `PostController.FlagParam` | src/server/controllers/postController.ts:82-83 | a flag is set whenever the parameter is present, and is true exactly for "true" |
| `PostController.ParseNoParameters` | src/server/controllers/postController.ts:67-89 | no parameters give the empty filter |
| `PostController.ParamFront` | src/server/controllers/postController.ts:69-78 | a parameter in front answers for its own name and hides nothing else |
| `PostController.ParseIgnoresUnknown` | src/server/controllers/postController.ts:69-89 | a parameter the controller does not read changes no filter |
| `PostController.UpdateData` | src/server/controllers/postController.ts:122 | the id of the path overrides any id in the body |
| `PostController.ReadFilters` | src/server/controllers/postController.ts:67-89 | the filter built one field at a time is the parsed query |
| `PostController.PostController.constructor` | src/server/controllers/postController.ts:5-6 | the controller works over the given service |
| `PostController.PostController.CreatePost` | src/server/controllers/postController.ts:8-39 | no header gives 401 and calls nothing; otherwise 201 exactly when the service created the post and 400 otherwise; a body that fails to parse gives 500; the body is read as typed create data, with the gaps listed under Left out |
| `PostController.PostController.GetPostById` | src/server/controllers/postController.ts:41-61 | always status 200, even for 'Post not found' |
| `PostController.PostController.GetPosts` | src/server/controllers/postController.ts:63-106 | the reply, with status 200, is the service's listing for the filters parsed from the query: the arranged window of matches with the search applied, and pagination that counts every match; invalid filters answer the invalid-query error |
| `PostController.PostController.UpdatePost` | src/server/controllers/postController.ts:108-140 | no header gives 401; otherwise the service updates the post named by the path with the fields the body carries |
| `PostController.UpdateBodyDecidesAuthor` | src/server/controllers/postController.ts:122 | a string `authorId` in an owner's update body becomes the post's author; without one the author stays |
| `PostController.UpdateBodyWithoutStoredKeys` | src/server/controllers/postController.ts:122 | a body without author, slug or counter keys leaves those fields as they were |
| `PostController.PostController.DeletePost` | src/server/controllers/postController.ts:142-172 | no header gives 401 and changes nothing; otherwise the service's delete with the extracted token |
| `PostController.PostController.PublishPost` | src/server/controllers/postController.ts:174-204 | no header gives 401 and changes nothing; otherwise the service's publish with the extracted token |
| `PostController.PostController.UnpublishPost` | src/server/controllers/postController.ts:206-236 | no header gives 401 and changes nothing; otherwise the service's unpublish with the extracted token |
| `PostController.PostController.IncrementViewCount` | src/server/controllers/postController.ts:238-260 | needs no header; status 200 with the service's reply |
| `AuthRepository.NewProfile` | src/server/repositories/authRepository.ts:93-107 | a new profile carries the given fields, with creation, update and last-login times all now |
| `AuthRepository.ProfileUpdate` | src/server/repositories/authRepository.ts:113-120 | a profile update writes the given fields with `updatedAt` forced to now, overriding any supplied value |
| `AuthRepository.ProviderOutcome` | src/server/repositories/authRepository.ts:34-36 | a non-ok provider reply throws the provider's message or the fixed default; an ok one is passed on |
| `AuthRepository.AuthRepository.constructor` | src/server/repositories/authRepository.ts:5-8 | no profiles and no revoked sessions at first |
| `AuthRepository.AuthRepository.AuthenticateUser` | src/server/repositories/authRepository.ts:10-39 | a missing API key fails before the provider is asked; otherwise the provider's answer, with 'Authentication failed' as the default message |
| `AuthRepository.AuthRepository.CreateUser` | src/server/repositories/authRepository.ts:41-71 | a missing API key fails before the provider is asked; otherwise the provider's answer, with 'User creation failed' as the default message |
| `AuthRepository.AuthRepository.VerifyIdToken` | src/server/repositories/authRepository.ts:73-76 | the verifier's verdict on the token |
| `AuthRepository.AuthRepository.GenerateCustomToken` | src/server/repositories/authRepository.ts:78-81 | the provider's answer for that uid: the minted token, or what it threw |
| `AuthRepository.AuthRepository.AuthenticateWithGoogle` | src/server/repositories/authRepository.ts:83-86 | the verifier's verdict on the Google ID token |
| `AuthRepository.AuthRepository.RevokeSession` | src/server/repositories/authRepository.ts:88-91 | the uid joins the revoked sessions, or, when the provider throws, the throw is passed on and nothing is revoked; ID tokens already issued still verify |
| `AuthRepository.AuthRepository.CreateUserProfile` | src/server/repositories/authRepository.ts:93-107 | the new profile is stored under its uid, or under a generated key no profile had when the uid is empty, and returned with the key it was stored under as its `id` |
| `AuthRepository.ProfileKey` | src/server/repositories/baseFirebaseRepository.ts:12-22 | a profile's key is its uid when that is non-empty, otherwise the generated id |
| `AuthRepository.AuthRepository.GetUserProfile` | src/server/repositories/authRepository.ts:109-111 | exactly `getById` on the profiles |
| `AuthRepository.AuthRepository.UpdateUserProfile` | src/server/repositories/authRepository.ts:113-120 | an existing profile is merged with the update stamped now; a missing one is an error and nothing changes |
| `AuthRepository.AuthRepository.UpdateLastLogin` | src/server/repositories/authRepository.ts:122-127 | only the last-login and update times change, both to now |
| `AuthRepository.AuthRepository.DeleteUserProfile` | src/server/repositories/authRepository.ts:129-131 | only that profile is removed |
| `AuthService.OrElse` | src/server/services/authService.ts:66 | the token's display name when it has a non-empty one, otherwise the one from the credentials |
| `AuthService.ProfileData` | src/server/services/authService.ts:22-28 | a profile from a token: '' for a missing email, verified only when the token says so, and the given display name |
| `AuthService.SessionResponse` | src/server/services/authService.ts:34-43 | a session reply carries the profile, its `id` when it was just created, the provider's ID token and the custom token, with status SUCCESS |
| `AuthService.AuthService.constructor` | src/server/services/authService.ts:10-11 | the service works over the given repository |
| `AuthService.AuthService.Login` | src/server/services/authService.ts:13-54 | every failure is an unauthorized reply, not a throw; a failure of the sign-in or of the token verification changes nothing; once both succeed the profile is created when absent, or else its last login is stamped, and that write stays even when the custom token is then refused, which answers the thrown message or 'Login failed'; on success a created profile is answered with the key it was stored under as its `id`; an existing one is answered as read, without an `id`; either way the token's user has a profile afterwards |
| `AuthService.AuthService.Signup` | src/server/services/authService.ts:56-93 | once sign-up and verification succeed the profile is created unconditionally, named from the token or else the credentials, and returned with the key it was stored under as its `id` and both tokens; a refused custom token answers the thrown message or 'Signup failed' but the profile stays stored; earlier failures change nothing |
| `AuthService.AuthService.Logout` | src/server/services/authService.ts:94-107 | revokes the uid's sessions and replies success; a failed revocation replies unauthorized with the thrown message or 'Logout failed' and revokes nothing; profiles never change |
| `AuthService.AuthService.VerifyToken` | src/server/services/authService.ts:109-141 | succeeds exactly when the token verifies and its user has a profile; a valid token without a profile gives 'User profile not found' |
| `Models.PostFailure` | src/server/services/postService.ts:20-23 | a failed reply carries the message and no data |
| `Models.ApiFailure` | src/server/services/authService.ts:45-53 | a failed auth reply has status UNAUTHORIZED and carries the message |
| `HttpsService.CurrentUserToken` | src/services/httpsService.ts:3-13 | the signed-in user's token, or none when nobody is signed in or getting the token fails |
| `HttpsService.GetToken` | src/services/httpsService.ts:109-111 | an empty token counts as no token |
| `HttpsService.RequestToken` | src/services/httpsService.ts:68 | with `skipToken` no token is fetched; otherwise the current one |
| `HttpsService.CreateHeaders` | src/services/httpsService.ts:46-56 | Content-Type is JSON unless the extra headers override it; a token sets Authorization to 'Bearer <token>', overriding any given one; without a token the headers are exactly Content-Type and the extra ones |
| `HttpsService.HandleResponse` | src/services/httpsService.ts:15-31 | checks in order: not ok gives 'HTTP error! status: N', then a non-JSON type 'Response is not JSON', then an empty body 'Empty response'; it succeeds exactly when all pass |
| `HttpsService.FetchWithErrorHandling` | src/services/httpsService.ts:33-44 | a failed fetch rethrows its message; a completed one is handled as above; whatever is thrown is an Error |
| `HttpsService.Request` | src/services/httpsService.ts:66-106 | each verb sends to the URL with the built headers, and only POST and PUT carry a body |
| `HttpsService.SkipTokenSendsNoToken` | src/services/httpsService.ts:68 | with `skipToken` the request has no Authorization header |
| `HttpsService.NoUserNoToken` | src/services/httpsService.ts:3-13 | with nobody signed in, or a failed token fetch, the request has no Authorization header |
| `HttpsService.SignedInSendsBearer` | src/services/httpsService.ts:52-54 | a signed-in user's request carries 'Bearer <token>' |
| `WireRoundTrips.BearerRoundTrip` | src/server/controllers/postController.ts:20 | the controller's extraction of the header the browser builds returns the token exactly |
| `WireRoundTrips.SignedInTokenReachesController` | src/services/httpsService.ts:53 | a signed-in request passes the controller's header gate carrying that user's token |
| `WireRoundTrips.Normalized` | src/server/controllers/postController.ts:80-85 | the filter the server rebuilds keeps the flags, page and limit, and drops only empty text and empty tag lists |
| `WireRoundTrips.QueryPairKeys` | src/services/postService.ts:48-57 | every query pair comes from a key of the filters |
| `WireRoundTrips.ParamOfQueryPairs` | src/services/postService.ts:46-62 | reading a parameter back from the pairs gives the text of that filter value |
| `WireRoundTrips.StringRoundTrip` | src/server/controllers/postController.ts:80 | a text filter survives the trip up to dropping an empty one |
| `WireRoundTrips.FlagRoundTrip` | src/server/controllers/postController.ts:82-83 | a flag survives the trip |
| `WireRoundTrips.NumberRoundTrip` | src/server/controllers/postController.ts:86-87 | a number survives the trip up to 0 reading as absent |
| `WireRoundTrips.TagsRoundTrip` | src/server/controllers/postController.ts:81 | a tag list without commas survives the trip up to the empty list |
| `WireRoundTrips.QueryRoundTrip` | src/services/postService.ts:46-62 | parsing the browser's query pairs gives the browser's filters, normalized |
| `WireRoundTrips.NormalizedQueriesAlike` | src/server/repositories/postRepository.ts:13-31 | a normalized filter matches and searches the same posts |
| `WireRoundTrips.NormalizedPagesAlike` | src/server/repositories/postRepository.ts:34-45 | a normalized filter asks for the same page, limit and order |
| `WireRoundTrips.NormalizedSelectsAlike` | src/server/repositories/postRepository.ts:10-71 | a normalized filter selects, pages, orders and searches the same |
| `WireRoundTrips.SearchedNormalized` | src/server/repositories/postRepository.ts:61-68 | the search leaves the same posts under a normalized filter |
| `WireRoundTrips.BrowserFiltersSelect` | src/server/controllers/postController.ts:69-89 | the repository treats the filters the server rebuilds exactly as the browser's own |
| `WireRoundTrips.FeaturedDistinct` | src/services/postService.ts:135-137 | the featured filters name each key once |
| `WireRoundTrips.FeaturedTyped` | src/services/postService.ts:135-137 | the featured filters are featured, published and the given limit |
| `WireRoundTrips.FeaturedQuery` | src/services/postService.ts:135-137 | the server rebuilds exactly the featured, published and limited filter |
| `ClientPostService.PostOutcome` | src/services/postService.ts:20-27 | a reply without success or data throws the server's message or else the fixed default; a thrown value is rethrown with its message or the default |
| `ClientPostService.PostsOutcome` | src/services/postService.ts:64-73 | a listing without success throws the server's message or 'Failed to fetch posts'; a successful one is returned whole |
| `ClientPostService.DeleteOutcome` | src/services/postService.ts:91-101 | a delete returns nothing on success and throws otherwise |
| `ClientPostService.QueryPairs` | src/services/postService.ts:46-58 | one pair per defined value, in insertion order, arrays joined by ','; no pairs exactly when no value is defined |
| `ClientPostService.QueryPairsAppend` | src/services/postService.ts:49-57 | the pairs of two objects after each other are the pairs of each, in turn |
| `ClientPostService.QueryPairsSnoc` | src/services/postService.ts:49-57 | one more entry appends its own pair, if it has one |
| `ClientPostService.PostsUrl` | src/services/postService.ts:60-62 | the URL starts with '/api/posts' and has a '?' exactly when there are pairs |
| `ClientPostService.UpdatePostCall` | src/services/postService.ts:76-79 | the update goes to '/api/posts/<id>' with a body of every other field, without the id |
| `ClientPostService.ByAuthor` | src/services/postService.ts:131-133 | the author helper forces `authorId` and keeps every other field |
| `ClientPostService.PublishedWith` | src/services/postService.ts:139-145 | the category and search helpers force their key (`category` or `search`) and `isPublished: true` and keep every other field |
| `ClientPostService.Featured` | src/services/postService.ts:135-137 | always featured and published, with the optional limit passed through |
| `ClientPostService.ClientPostService.CreatePost` | src/services/postService.ts:16-28 | POSTs the data and returns the created post, or throws 'Failed to create post' or the server's message |
| `ClientPostService.ClientPostService.GetPostById` | src/services/postService.ts:30-42 | fetches '/api/posts/<id>'; missing data throws 'Post not found' unless the server said otherwise |
| `ClientPostService.ClientPostService.GetPosts` | src/services/postService.ts:44-74 | builds the query pairs in a loop and returns the reply, or throws |
| `ClientPostService.ClientPostService.UpdatePost` | src/services/postService.ts:76-89 | PUTs the fields without the id to the id's URL |
| `ClientPostService.ClientPostService.DeletePost` | src/services/postService.ts:91-101 | DELETEs the post and throws unless the server succeeded |
| `ClientPostService.ClientPostService.PublishPost` | src/services/postService.ts:103-115 | POSTs to the post's publish action and returns the published post, or throws |
| `ClientPostService.ClientPostService.UnpublishPost` | src/services/postService.ts:117-129 | POSTs to the post's unpublish action and returns the post, or throws |
| `ClientPostService.ClientPostService.IncrementViewCount` | src/services/postService.ts:147-160 | POSTs to the post's view action and returns the post, or throws |
| `ClientPostService.ClientPostService.GetPostsByAuthor` | src/services/postService.ts:131-133 | lists with the author forced into the filters |
| `ClientPostService.ClientPostService.GetFeaturedPosts` | src/services/postService.ts:135-137 | lists only featured, published posts |
| `ClientPostService.ClientPostService.GetPostsByCategory` | src/services/postService.ts:139-141 | lists published posts of that category |
| `ClientPostService.ClientPostService.SearchPosts` | src/services/postService.ts:143-145 | lists published posts matching the search term |
| `ClientPostService.InstanceSlot.constructor` | src/services/postService.ts:5 | no instance at first |
| `ClientPostService.InstanceSlot.GetInstance` | src/services/postService.ts:9-14 | the first call creates the instance, and every later call returns that same one |
| `ClientPostService.SameInstance` | src/test/services/postService.test.ts:384-392 | two calls of `getInstance` return the same object |
| `ClientPostService.CategoryQueryUrl` | src/test/services/postService.test.ts:337-360 | the category filters of the tests ask for '/api/posts?category=Technology&isPublished=true' |
| `ClientPostService.NoFiltersUrl` | src/services/postService.ts:60-62 | no filters ask for '/api/posts' |
| `ClientPostService.UpdateSendsFieldsWithoutId` | src/test/services/postService.test.ts:215-222 | the update of the tests goes to '/api/posts/post-123' without the id in its body |
| `MyPosts.FilterPosts` | src/app/my-posts/page.tsx:76-100 | the search filter and then the status filter, as successive filters, keep exactly the posts both accept |
| `MyPosts.ListedSelection` | src/app/my-posts/page.tsx:76-100 | the list is an order-preserving subsequence of the posts and holds a post exactly when the search and the tab accept it |
| `MyPosts.ListedAll` | src/app/my-posts/page.tsx:80-97 | an empty query on the 'all' tab lists every post |
| `MyPosts.PublishedAndDrafts` | src/app/my-posts/page.tsx:89-97 | for one query, the 'published' and 'draft' tabs together hold as many posts as 'all' |
| `MyPosts.Replaced` | src/app/my-posts/page.tsx:137 | every entry with that id becomes the server's copy and every other entry stays |
| `MyPosts.MyPostsPage.constructor` | src/app/my-posts/page.tsx:46-54 | the page starts with the posts, no post to delete and the dialog closed |
| `MyPosts.MyPostsPage.DeletePost` | src/app/my-posts/page.tsx:112-126 | with no post chosen nothing is sent and nothing changes; otherwise the client service's delete is sent for the chosen post's id (`undefined` in the path when it has none); after a successful delete the list drops every post with that id and the dialog closes; a failure keeps the list and shows the message |
| `MyPosts.MyPostsPage.PublishToggle` | src/app/my-posts/page.tsx:128-141 | unpublish is called exactly for a published post; the server's copy replaces only the entries with that id, and a failure shows the message |
| `MyPosts.DeleteKeepsOthers` | src/app/my-posts/page.tsx:118 | deleting keeps the other posts in order and no post with the deleted id |
| `MyPosts.PostChips` | src/app/my-posts/page.tsx:357-372 | at most three tags are shown, and "+N more" with N the rest exactly when there are more than three |
| `FeaturedContent.Articles` | src/app/dashboard/page.tsx:59-71 | the cards are a one-to-one, order-preserving map of the posts |
| `FeaturedContent.AgeOf` | src/components/FeaturedContent.tsx:4-27 | no date gives no text; under a minute, future included, 'just now'; otherwise minutes 1-59, hours 1-23, days 1-29, months 1-12 or years from 1 |
| `FeaturedContent.AgeUnits` | src/components/FeaturedContent.tsx:22-26 | the thresholds of 3600, 86400, 2592000 and 31536000 seconds choose the unit, and the value is the age floored by it |
| `FeaturedContent.FutureIsJustNow` | src/components/FeaturedContent.tsx:18-21 | a date in the future reads 'just now' |
| `FeaturedContent.TagChips` | src/components/FeaturedContent.tsx:89-103 | the first three tags, and the number of the rest exactly when there are more than three |
| `FeaturedContent.Href` | src/components/FeaturedContent.tsx:57 | '/posts/<id>' for an article with an id, '#' otherwise |
| `Dashboard.BlankCategoryKey` | src/app/dashboard/page.tsx:43 | a category of only whitespace groups under the empty key |
| `Dashboard.Take` | src/app/dashboard/page.tsx:45 | the first n posts, or all when there are fewer |
| `Dashboard.GroupedSnoc` | src/app/dashboard/page.tsx:42-46 | one more post opens its key's group if needed and joins it while it has room |
| `Dashboard.GroupedKeys` | src/app/dashboard/page.tsx:44 | a key has a group exactly when some post has that key |
| `Dashboard.GroupedMeaning` | src/app/dashboard/page.tsx:41-46 | each group is the first six posts with its key, in input order |
| `Dashboard.GroupsCapped` | src/app/dashboard/page.tsx:45 | no group is empty or holds more than six posts |
| `Dashboard.KeyOrderMeaning` | src/app/dashboard/page.tsx:73 | the section order lists every key exactly once, and no other |
| `Dashboard.GroupByCategory` | src/app/dashboard/page.tsx:41-46 | the grouping of the posts by trimmed category, or 'Uncategorized' |
| `Dashboard.GroupBy` | src/app/dashboard/page.tsx:41-46 | the grouping loop builds the capped groups and the order their keys appeared in |
| `Dashboard.Sections` | src/app/dashboard/page.tsx:73-88 | one section per key in key order, each with its posts as cards in order |
| `Dashboard.DashboardPage.constructor` | src/app/dashboard/page.tsx:14-17 | no posts, no groups and no error at first |
| `Dashboard.DashboardPage.FetchPosts` | src/app/dashboard/page.tsx:30-54 | the featured posts are taken only from a successful reply with data; the grouping happens only when the published reply succeeded with data; a thrown error stops the sequence and is shown |
| `Dashboard.SectionsDefined` | src/app/dashboard/page.tsx:73-88 | every listed key has a group |
| `CreatePostForm.SetText` | src/app/create-post/page.tsx:109-114 | editing a text field changes that field only |
| `CreatePostForm.SetFlag` | src/app/create-post/page.tsx:109-114 | editing a flag changes that flag only |
| `CreatePostForm.AddTag` | src/app/create-post/page.tsx:116-124 | the trimmed tag is appended and the input cleared exactly when it is non-empty and new; otherwise nothing changes |
| `CreatePostForm.RemoveTag` | src/app/create-post/page.tsx:126-131 | every copy of the tag goes, the others stay in order, and no other field changes |
| `CreatePostForm.AddTagKeepsClean` | src/app/create-post/page.tsx:117-121 | adding keeps the tags trimmed, non-empty and without repeats |
| `CreatePostForm.RemoveTagKeepsClean` | src/app/create-post/page.tsx:126-131 | removing keeps the tags trimmed, non-empty and without repeats |
| `CreatePostForm.RemoveUndoesAdd` | src/app/create-post/page.tsx:116-131 | removing a tag just added restores the form |
| `CreatePostForm.EditForm` | src/app/create-post/page.tsx:91-101 | loading a post copies its fields, with "5" for an empty read time |
| `CreatePostForm.EmptyFormDisabled` | src/app/create-post/page.tsx:464 | the submit button is disabled on the empty form |
| `CreatePostForm.FormEntriesHaveNoId` | src/app/create-post/page.tsx:165-175 | the create request carries no id |
| `CreatePostForm.UpdateTargetsLoadedPost` | src/app/create-post/page.tsx:144-158 | the corrected update goes to the URL of the post being edited, with the form's fields as its body |
| `CreatePostForm.UpdateOfNewPostAsWritten` | src/app/create-post/page.tsx:146 | as written, editing a post that was created and never updated sends the update to '/api/posts/undefined' |
| `CreatePostForm.CreatePostPage.constructor` | src/app/create-post/page.tsx:38-55 | the form starts empty with read time "5", not editing, without error |
| `CreatePostForm.CreatePostPage.InputText` | src/app/create-post/page.tsx:109-114 | only the named text field of the form changes |
| `CreatePostForm.CreatePostPage.InputFlag` | src/app/create-post/page.tsx:109-114 | only the named flag of the form changes |
| `CreatePostForm.CreatePostPage.TypeTag` | src/app/create-post/page.tsx:416 | only the tag input changes |
| `CreatePostForm.CreatePostPage.AddTagClicked` | src/app/create-post/page.tsx:116-124 | the form and the tag input become what `AddTag` gives |
| `CreatePostForm.CreatePostPage.RemoveTagClicked` | src/app/create-post/page.tsx:126-131 | the form loses the tag and nothing else changes |
| `CreatePostForm.CreatePostPage.LoadPostForEdit` | src/app/create-post/page.tsx:83-104 | a loaded post switches to edit mode and fills the form; a failure shows its message |
| `CreatePostForm.CreatePostPage.Submit` | src/app/create-post/page.tsx:133-198 | without a user nothing is sent and 'User not authenticated' is shown; in edit mode an update is sent to the id the post was loaded by, which is the corrected behaviour of the Findings row, not the code's `originalPost.id!`; otherwise a create is sent and a success resets the form |
| `Signup.MatchIsShaped` | src/app/signup/page.tsx:64-65 | every address the regular expression accepts passes the computed check |
| `Signup.ShapedIsMatch` | src/app/signup/page.tsx:64-65 | every address passing the computed check is accepted by the regular expression |
| `Signup.EmailShapedIsRegex` | src/app/signup/page.tsx:64-65 | the computed check and the regular expression agree on every text |
| `Signup.AcceptedAddress` | src/app/signup/page.tsx:64 | an accepted address has exactly one '@' and no whitespace |
| `Signup.SetField` | src/app/signup/page.tsx:40-46 | typing changes only the named field |
| `Signup.Validate` | src/app/signup/page.tsx:48-71 | the first failing check gives its message: required fields (display name optional), then matching passwords, then six or more characters, then the address; none exactly when all pass |
| `Signup.SignupPage.constructor` | src/app/signup/page.tsx:10-17 | an empty form, no error, not loading |
| `Signup.SignupPage.InputChange` | src/app/signup/page.tsx:40-46 | only the named field changes |
| `Signup.SignupPage.HandleSubmit` | src/app/signup/page.tsx:73-91 | the error is cleared first; `signup` is called exactly when the form is valid; otherwise the first failing check's message is shown, and a thrown error's message after a call |
| `Signup.SignupOnlyWhenValid` | src/app/signup/page.tsx:73-84 | the page asks for an account only with an accepted address and a confirmed password of six or more characters |
| `HeroSection.WordCount` | src/components/hero-section.tsx:72 | empty content counts 500 words; otherwise one more than its spaces |
| `HeroSection.ToSlide` | src/components/hero-section.tsx:65-76 | a slide takes the post's fields, with '' for a missing id, '/images/tea.jpg' for a missing image, and the publication time when the update time is missing |
| `HeroSection.ToSlides` | src/components/hero-section.tsx:65-76 | one slide per post, in order |
| `HeroSection.Target` | src/components/hero-section.tsx:300-304 | a slide with an id leads to '/posts/<id>', one without leads nowhere |
| `HeroSection.ReadingMinutes` | src/components/hero-section.tsx:285 | `ceil(words / 200)`: the fewest whole minutes that cover the words |
| `HeroSection.SlideTakesAMinute` | src/components/hero-section.tsx:285 | a slide's reading time is at least a minute |
| `HeroSection.HoursOfDiff` | src/components/hero-section.tsx:325-326 | floored minutes floored by 60 are floored hours |
| `HeroSection.DaysOfDiff` | src/components/hero-section.tsx:326-327 | floored hours floored by 24 are floored days |
| `HeroSection.Phrase` | src/components/hero-section.tsx:328-330 | a space, the number, a space, the unit with an 's' unless the number is exactly 1, and ' ago' |
| `HeroSection.PhraseReadsBack` | src/components/hero-section.tsx:328-330 | `parseInt` of a phrase gives its number back |
| `HeroSection.FormatUpdatedAgo` | src/components/hero-section.tsx:320-332 | no time reads '—', under a minute 'just now', otherwise the phrase of the elapsed bucket, which starts with a space and ends with ' ago' |
| `HeroSection.UpdatedAge` | src/components/hero-section.tsx:320-332 | no time gives the dash; under a minute, future included, 'just now'; otherwise days from 1, hours 1-23 or minutes 1-59, each the elapsed time floored by its unit |
| `HeroSection.RecentIsJustNow` | src/components/hero-section.tsx:321-331 | a recent time reads 'just now' and a missing one '—' |
| `HeroSection.NextSlides` | src/components/hero-section.tsx:64-81 | the slides change only for a successful reply with at least one post, so some slide is always shown |
| `HeroSection.HeroState.constructor` | src/components/hero-section.tsx:24-41 | the default welcome slide, loading |
| `HeroSection.HeroState.FetchPosts` | src/components/hero-section.tsx:56-90 | asks without a token for six published posts, newest first; the slides are replaced only by a non-empty list, and a thrown error is shown |
| `HeroSection.AlwaysASlide` | src/components/hero-section.tsx:39 | starting from the default slide, some slide is always shown |

## Left out

- **Hosted services.** The document store, the admin SDK, the identity-toolkit
  requests and ID-token cryptography are parameters: a map-backed collection, a
  verifier function, provider replies, a minter and a revoker. Their own behaviour is not
  part of this model.
- **Network and React.** Each page method receives the outcome of the calls it
  awaits. Rendering, hooks, router navigation, `setTimeout`, the GSAP and
  typewriter animations and the easing of the animated word count are left out.
  The hero's reading time uses the final word count.
- **Concurrency.** A read-modify-write, such as the view count of
  `incrementViewCount`, is modelled as one sequential step. Store-side increments
  are atomic document rewrites.
- **Encoding.** Percent-encoding of URLs and `JSON.stringify`/`JSON.parse` are left
  out. A query is a list of `(key, value)` pairs, and a reply body is either text
  or the parsed value.
- **Dates.** Dates are integer milliseconds. A missing or unparsable date is
  `None`. Locale formatting is left out.
- **Characters.** `toLowerCase` is modelled on ASCII letters only. `\s` is a fixed
  whitespace predicate. A password's length counts characters, not UTF-16 code
  units.
- **Key order.** `Object.entries` lists integer-like keys first. The model keeps
  insertion order for every key.
- **Header names.** They are compared case-sensitively.
- **Store-only behaviour.** Behaviour the code does not show is modelled as
  follows:
  - a query with a negative limit, or a direction other than asc/desc, is
    rejected as an invalid query;
  - a post without the sort field is left out of `findMany`, as an ordered query
    leaves it out, but is still counted by `count`, which does not order;
  - ties are ordered by document key, and `findBySlug` returns the match with the
    lowest key;
  - size limits of `array-contains-any` are not modelled.
- `PostController.FieldsOf`: a body field of the wrong JSON type, or `null`, is
  dropped rather than stored as it is. Body keys other than the typed update
  fields and `authorId`, `authorName`, `slug`, `viewCount` and `likeCount` are
  not modelled either. These are unknown keys, and `createdAt`, `publishedAt` or
  `updatedAt` sent as JSON strings. The source writes them into the document
  (`updatedAt` is overwritten). `Models.UpdatePatch` and
  `ServerPostService.UpdateFields` inherit this.
- **Unreachable fallbacks.** The client service rethrows only `Error` values, so
  the fallback messages some pages keep for non-`Error` throws can never appear:
  - "Failed to load post for editing";
  - "Failed to update post status";
  - `Failed to ${…} post`;
  - the hero's 'Failed to fetch posts'.
- `Models.Post`: `excerpt`, `featuredImage` and `tags` are required fields.
  `excerpt || ""`, `featuredImage || ""` and `tags || []` on edit-load therefore
  only replace empty values.
- `Dashboard.DashboardPage.FetchPosts`: takes the two awaited outcomes rather
  than the service. It does not restate which filters it sends (featured with
  limit 6, then published with limit 60 by publication date).
- `HeroSection.HeroState.FetchPosts`: the server-side meaning of its filters is
  not proved. That proof exists only for the featured filters
  (`WireRoundTrips.FeaturedQuery`).
- `Text.ParseInt`: a `0x` or `0X` prefix, which JavaScript reads as hexadecimal
  (`parseInt("0x10")` is 16), is not modelled. The model reads such text as the
  single digit `0`.
- `Dashboard.GroupByCategory`: the grouping object is a plain `{}` that inherits
  from `Object.prototype`, and the model does not capture that. A category equal
  to an inherited method name such as `constructor` or `toString` makes
  `grouped[key].push` throw a `TypeError`. The page then shows that error and
  sets no groups. A category of `__proto__` silently drops its posts. The model
  (`Dashboard.GroupKey` and `GroupBy`) treats every key as an ordinary own key.
- `CreatePostForm.CreatePostPage.Submit`: in edit mode the model sends the
  update to the page's `edit` id, the corrected behaviour of the Findings row.
  The code sends `originalPost.id!`, which for a post that was created and never
  updated is `undefined`, so the request goes to `/api/posts/undefined`. That
  behaviour is modelled only by `CreatePostForm.UpdateEntriesAsWritten` and
  `CreatePostForm.UpdateOfNewPostAsWritten`, not by the page.
- `PostController.PostController.CreatePost`: the request body is taken as typed
  `CreatePostData`, while the code only casts the parsed JSON and spreads it into
  the stored document. Not modelled:
  - body keys that are not create fields are stored as they are;
  - a client `id` key is stored in the document;
  - a `publishedAt` sent with an unpublished post is stored;
  - a missing or non-string `title` makes `generateSlug` throw a `TypeError`,
    which the service answers as a failure with that message and the
    controller as 400.
- **Logging.** Calls to `console.log` and `console.error` are left out.

## Findings

| source | as written | input that shows it | evidently intended | confidence | as-written member | corrected member |
|---|---|---|---|---|---|---|
| src/app/create-post/page.tsx:146 | the update names the post by `originalPost.id`, but the server's `createPost` stores no `id` field and `getById` returns only the stored fields | open `/create-post?edit=<id>` for a post that was created and never updated, then submit: the update is sent to `/api/posts/undefined` and answered 'Post not found' | update the post named by the page's `edit` parameter, which is the id it was loaded by | not executed | `CreatePostForm.UpdateOfNewPostAsWritten` | `CreatePostForm.UpdateTargetsLoadedPost` |

`CreatePostForm.CreatePostPage.Submit` uses the corrected update, with the id
the post was loaded by. The line on `Submit` under "## Left out" says what the
page model therefore does not capture.
