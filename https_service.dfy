/**
 * HttpsService: the browser's request helpers. A request carries the JSON
 * content type, the caller's extra headers and, unless the caller skips it, the
 * signed-in user's ID token as a bearer credential. `fetch` and the user's
 * token are inputs; the response is checked in a fixed order before its text is
 * handed on.
 */
module HttpsService {
  import opened Wrappers
  import opened Text
  import opened JsObjects

  const ContentType := "Content-Type"
  const Authorization := "Authorization"
  const JsonType := "application/json"
  const NotJson := "Response is not JSON"
  const EmptyResponse := "Empty response"

  /** `auth.currentUser`: nobody signed in, or a user whose `getIdToken` yields a token or throws. */
  datatype CurrentUser = SignedOut | SignedIn(idToken: Result<string, Thrown>)

  /** `getCurrentUserToken`: null without a user and when fetching the token throws. */
  function CurrentUserToken(u: CurrentUser): (t: Option<string>)
    ensures t.Some? <==> u.SignedIn? && u.idToken.Success?
    ensures t.Some? ==> t.value == u.idToken.value
  {
    if u.SignedIn? && u.idToken.Success? then Some(u.idToken.value) else None
  }

  /** `getToken`: `token || undefined`, so an empty token is no token. */
  function GetToken(u: CurrentUser): (t: Option<string>)
    ensures t.Some? <==> u.SignedIn? && u.idToken.Success? && u.idToken.value != ""
    ensures t.Some? ==> t.value == u.idToken.value && t.value != ""
  {
    var t := CurrentUserToken(u);
    if t.Some? && t.value != "" then t else None
  }

  /** The token a request attaches: `skipToken` means none is fetched. */
  function RequestToken(skipToken: bool, u: CurrentUser): (t: Option<string>)
    ensures skipToken ==> t.None?
    ensures !skipToken ==> t == GetToken(u)
  {
    if skipToken then None else GetToken(u)
  }

  /** `if (token)`: a token that is present and not empty. */
  predicate HasToken(token: Option<string>) {
    token.Some? && token.value != ""
  }

  /** The scheme and token of the Authorization header. */
  function BearerHeader(token: string): string {
    "Bearer " + token
  }

  /**
   * `createHeaders`: the JSON content type, overridden by any extra header of
   * the same name, and then the bearer token, which overrides any extra
   * Authorization header.
   */
  function CreateHeaders(token: Option<string>, additional: Option<Entries>): (h: Entries)
    ensures KeySet(h) == {ContentType} + KeySet(additional.GetOr([])) + (if HasToken(token) then {Authorization} else {})
    ensures !HasToken(token) ==> h == Spread([(ContentType, Str(JsonType))], additional.GetOr([]))
    ensures HasToken(token) ==> Get(h, Authorization) == Str(BearerHeader(token.value))
    ensures DistinctKeys(additional.GetOr([])) ==>
              Get(h, ContentType) == if ContentType in KeySet(additional.GetOr([])) then Get(additional.GetOr([]), ContentType) else Str(JsonType)
    ensures DistinctKeys(additional.GetOr([])) ==>
              forall k :: k != ContentType && (k != Authorization || !HasToken(token)) ==> Get(h, k) == Get(additional.GetOr([]), k)
    ensures DistinctKeys(additional.GetOr([])) ==> DistinctKeys(h)
  {
    var base := [(ContentType, Str(JsonType))];
    assert KeySet(base) == {ContentType} && DistinctKeys(base);
    var headers := Spread(base, additional.GetOr([]));
    if HasToken(token) then Set(headers, Authorization, Str(BearerHeader(token.value))) else headers
  }

  /** The part of a `fetch` response that `handleResponse` looks at. */
  datatype Response = Response(ok: bool, status: int, contentType: Option<string>, text: string)

  /** `!contentType || !contentType.includes('application/json')` */
  predicate IsJson(r: Response) {
    r.contentType.Some? && Contains(r.contentType.value, JsonType)
  }

  function HttpError(status: int): string {
    "HTTP error! status: " + IntToString(status)
  }

  /**
   * `handleResponse`: a failed status first, then a non-JSON content type,
   * then an empty body; otherwise the body text goes on to `JSON.parse`.
   */
  function HandleResponse(r: Response): (out: Result<string, Thrown>)
    ensures !r.ok ==> out == Failure(ErrorObject(HttpError(r.status)))
    ensures r.ok && !IsJson(r) ==> out == Failure(ErrorObject(NotJson))
    ensures r.ok && IsJson(r) && r.text == "" ==> out == Failure(ErrorObject(EmptyResponse))
    ensures out.Success? <==> r.ok && IsJson(r) && r.text != ""
    ensures out.Success? ==> out.value == r.text
  {
    if !r.ok then Failure(ErrorObject(HttpError(r.status)))
    else if !IsJson(r) then Failure(ErrorObject(NotJson))
    else if r.text == "" then Failure(ErrorObject(EmptyResponse))
    else Success(r.text)
  }

  /** `fetchWithErrorHandling`: every failure leaves as an `Error`, a non-`Error` one as "Error <operation> URL". */
  function FetchWithErrorHandling(fetched: Result<Response, Thrown>, operation: string): (out: Result<string, Thrown>)
    ensures out.Failure? ==> out.error.ErrorObject?
    ensures fetched.Failure? ==> out == Failure(ErrorObject(fetched.error.MessageOr("Error " + operation + " URL")))
    ensures fetched.Success? ==> out == HandleResponse(fetched.value)
  {
    if fetched.Failure? then Failure(ErrorObject(fetched.error.MessageOr("Error " + operation + " URL")))
    else HandleResponse(fetched.value)
  }

  /** What `Post`, `Get`, `Put` and `Delete` hand to `fetch`. */
  datatype FetchRequest = FetchRequest(httpMethod: string, url: string, headers: Entries, body: Option<Entries>)

  /** The options every helper takes. */
  datatype RequestOptions = RequestOptions(url: string, body: Option<Entries>, skipToken: bool, additionalHeaders: Option<Entries>)

  /** The request a helper sends: GET and DELETE carry no body. */
  function Request(httpMethod: string, options: RequestOptions, u: CurrentUser): (req: FetchRequest)
    ensures req.httpMethod == httpMethod && req.url == options.url
    ensures req.headers == CreateHeaders(RequestToken(options.skipToken, u), options.additionalHeaders)
    ensures req.body == if httpMethod == "GET" || httpMethod == "DELETE" then None else options.body
  {
    FetchRequest(httpMethod, options.url, CreateHeaders(RequestToken(options.skipToken, u), options.additionalHeaders),
                 if httpMethod == "GET" || httpMethod == "DELETE" then None else options.body)
  }

  /** The word each helper puts in its fallback message. */
  function Operation(httpMethod: string): string {
    match httpMethod
    case "POST" => "posting to"
    case "GET" => "getting from"
    case "PUT" => "putting to"
    case _ => "deleting from"
  }

  /** A request sent with `skipToken` carries no Authorization header but one the caller wrote. */
  lemma SkipTokenSendsNoToken(httpMethod: string, options: RequestOptions, u: CurrentUser)
    requires options.skipToken
    requires Authorization !in KeySet(options.additionalHeaders.GetOr([]))
    ensures Authorization !in KeySet(Request(httpMethod, options, u).headers)
  {
  }

  /** Signed out, or with a token that cannot be fetched, a request goes out without credentials. */
  lemma NoUserNoToken(httpMethod: string, options: RequestOptions, u: CurrentUser)
    requires u.SignedOut? || (u.SignedIn? && u.idToken.Failure?)
    requires Authorization !in KeySet(options.additionalHeaders.GetOr([]))
    ensures Authorization !in KeySet(Request(httpMethod, options, u).headers)
  {
  }

  /** A signed-in user's token travels as `Bearer <token>`. */
  lemma SignedInSendsBearer(httpMethod: string, options: RequestOptions, token: string)
    requires !options.skipToken && token != ""
    ensures Get(Request(httpMethod, options, SignedIn(Success(token))).headers, Authorization) == Str(BearerHeader(token))
  {
  }
}
