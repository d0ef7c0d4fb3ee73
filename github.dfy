/**
 * The REST client for the repository-hosting API (src/actions/github.ts):
 * request headers, request URLs, and the mapping of every response, error body
 * or exception to exactly one of `{ data }` or `{ error }`.
 *
 * The network is an oracle: a `Response` is what `fetch` followed by
 * `response.json()` produced.
 */
module GitHub {
  import opened Wrappers
  import opened Js

  const ApiUrl := "https://api.github.com"
  const AcceptMediaType := "application/vnd.github.v3+json"
  const UnexpectedError := "An unexpected error occurred."
  const UserNotFound := "User not found."
  const ReposFallback := "Failed to fetch repositories."
  const ContentsFallback := "Failed to fetch repository contents."
  const SearchFallback := "Failed to search repositories."

  /** What `response.json()` yields: a parsed value, read as data on a 2xx
      response and through its `message` property otherwise ("" when that
      property is absent or falsy), or a parse exception. */
  datatype Json<+T> = Json(value: T, message: string) | Malformed(reason: string)

  /** `fetch` either rejects (network failure) or resolves with a status and a body. */
  datatype Response<+T> = Threw(reason: string) | Reply(status: int, body: Json<T>)

  datatype ApiResult<+T> = Data(data: T) | Error(error: string)

  /** What awaiting one of these server actions from a client component gives:
      the value it returned, or a rejection when the transport or the server
      fails before it returns. */
  datatype Call<+T> = Settled(result: T) | Rejected

  /** The body of `/search/repositories`; only `items` is handed on. */
  datatype SearchBody<+T> = SearchBody(items: T)

  /** `response.ok` */
  predicate IsOk(status: int) {
    200 <= status <= 299
  }

  /** `fetchGithubAPI`'s headers, for the configured `GITHUB_TOKEN` (absent: `None`). */
  method BuildHeaders(token: Option<string>) returns (headers: map<string, string>)
    ensures "Accept" in headers && headers["Accept"] == AcceptMediaType
    ensures "Authorization" in headers <==> Truthy(token)
    ensures "Authorization" in headers ==> headers["Authorization"] == "token " + token.value
    ensures headers.Keys <= {"Accept", "Authorization"}
  {
    headers := map["Accept" := AcceptMediaType];
    if Truthy(token) {
      headers := headers["Authorization" := "token " + token.value];
    }
  }

  function UserReposUrl(username: string): (url: string)
    ensures StartsWith(url, ApiUrl + "/users/")
  {
    ApiUrl + "/users/" + username + "/repos"
  }

  /** The contents URL; the path defaults to the repository root. */
  function ContentsUrl(repoFullName: string, path: string := ""): (url: string)
    ensures StartsWith(url, ApiUrl + "/repos/")
    ensures path == "" ==> url[|url| - 10..] == "/contents/"
  {
    ApiUrl + "/repos/" + repoFullName + "/contents/" + path
  }

  /** The search URL for an already `encodeURIComponent`-escaped query. */
  function SearchUrl(encodedQuery: string): (url: string)
    ensures |url| >= 34 && url[|url| - 34..] == "&sort=stars&order=desc&per_page=20"
    ensures StartsWith(url, ApiUrl + "/search/repositories?q=")
  {
    ApiUrl + "/search/repositories?q=" + encodedQuery + "&sort=stars&order=desc&per_page=20"
  }

  /** The common shape of the three wrappers once any status-specific case is handled. */
  function Classify<T>(response: Response<T>, fallback: string): (r: ApiResult<T>)
    requires fallback != ""
    ensures r.Error? ==> r.error != ""
    ensures r.Data? <==> response.Reply? && IsOk(response.status) && response.body.Json?
    ensures r.Data? ==> r.data == response.body.value
  {
    match response
    case Threw(_) => Error(UnexpectedError)
    case Reply(status, body) =>
      match body
      case Malformed(_) => Error(UnexpectedError)
      case Json(value, message) =>
        if IsOk(status) then Data(value) else Error(Or(message, fallback))
  }

  /** `getReposForUser` */
  function GetReposForUser<T>(response: Response<T>): (r: ApiResult<T>)
    ensures r.Error? ==> r.error != ""
    ensures r.Data? <==> response.Reply? && IsOk(response.status) && response.body.Json?
    ensures r.Data? ==> r.data == response.body.value
    ensures response.Reply? && response.status == 404 ==> r == Error(UserNotFound)
    ensures response.Reply? && !IsOk(response.status) && response.status != 404 && response.body.Json? ==>
              r == Error(Or(response.body.message, ReposFallback))
    ensures response.Threw? || (response.Reply? && response.status != 404 && response.body.Malformed?) ==>
              r == Error(UnexpectedError)
  {
    if response.Reply? && response.status == 404 then Error(UserNotFound)
    else Classify(response, ReposFallback)
  }

  /** `getRepoContents`; there is no special case for 404. */
  function GetRepoContents<T>(response: Response<T>): (r: ApiResult<T>)
    ensures r.Error? ==> r.error != ""
    ensures r.Data? <==> response.Reply? && IsOk(response.status) && response.body.Json?
    ensures r.Data? ==> r.data == response.body.value
    ensures response.Reply? && !IsOk(response.status) && response.body.Json? ==>
              r == Error(Or(response.body.message, ContentsFallback))
    ensures response.Threw? || (response.Reply? && response.body.Malformed?) ==> r == Error(UnexpectedError)
  {
    Classify(response, ContentsFallback)
  }

  /** `searchRepositories`: hands on `items`, not the whole body. */
  function SearchRepositories<T>(response: Response<SearchBody<T>>): (r: ApiResult<T>)
    ensures r.Error? ==> r.error != ""
    ensures r.Data? <==> response.Reply? && IsOk(response.status) && response.body.Json?
    ensures r.Data? ==> r.data == response.body.value.items
    ensures response.Reply? && !IsOk(response.status) && response.body.Json? ==>
              r == Error(Or(response.body.message, SearchFallback))
    ensures response.Threw? || (response.Reply? && response.body.Malformed?) ==> r == Error(UnexpectedError)
  {
    match Classify(response, SearchFallback)
    case Data(body) => Data(body.items)
    case Error(e) => Error(e)
  }

  /** A 404 from the contents endpoint is reported like any other failure. */
  lemma ContentsNotFoundIsOrdinary<T>(value: T, message: string)
    ensures GetRepoContents(Reply(404, Json(value, message))) == Error(Or(message, ContentsFallback))
    ensures message == "" ==> GetRepoContents(Reply(404, Json(value, message))) == Error(ContentsFallback)
  {
  }
}
