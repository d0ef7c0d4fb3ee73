/**
 * The dashboard (src/app/dashboard/page.tsx): the user's repositories loaded
 * on mount, and the "add external repository" handler, which reads owner and
 * name from the first two segments of a URL's path and prepends the fetched
 * record unless one with the same id is already listed.
 */
module Dashboard {
  import opened Wrappers
  import opened Js
  import opened GitHub
  import opened RepoList
  import opened RepoUrl

  const NoUsername := "No username found in URL. Please go back and enter a username."
  const RepoDetailsFailed := "Could not fetch repository details from GitHub."
  const AddFailed := "Failed to add repository."

  /** What `new URL(repoUrl)` produced: its `pathname`, or the message of the error it threw. */
  datatype UrlParse = Parsed(pathname: string) | Rejected(message: string)

  /** `url.pathname.slice(1).split('/')`, then the first two segments; `None`
      where the handler throws "Invalid GitHub URL". */
  function ParsePathname(pathname: string): (r: Option<RepoRef>)
    ensures r.Some? ==> r.value.owner != "" && r.value.name != ""
    ensures r.Some? ==> '/' !in r.value.owner && '/' !in r.value.name
  {
    FirstTwoSegments(Split(if pathname == "" then "" else pathname[1..]))
  }

  /** The owner and name `handleRepoAdded` picks out of the segments: the first
      one and the next (which is `undefined` with a single segment). */
  function FirstTwoSegments(parts: seq<string>): Option<RepoRef>
    requires |parts| >= 1
  {
    var owner := parts[0];
    var name := if |parts| >= 2 then parts[1] else "";
    if owner == "" || name == "" then None else Some(RepoRef(owner, name))
  }

  /** A successful parse read two non-empty, slash-free segments at the start of
      the path (after its first character), followed by `rest`, which is empty
      or starts with '/'. */
  lemma ParsePathnameSound(pathname: string) returns (rest: string)
    requires ParsePathname(pathname).Some?
    ensures var r := ParsePathname(pathname).value;
      r.owner != "" && r.name != "" && '/' !in r.owner && '/' !in r.name &&
      (rest == "" || rest[0] == '/') && pathname[1..] == r.owner + "/" + r.name + rest
  {
    var s := pathname[1..];
    JoinSplit(s);
    rest := FirstTwoSegmentsSound(Split(s));
  }

  /** The segments picked are the first two, slash-free when all segments are,
      and the join starts with them. */
  lemma FirstTwoSegmentsSound(parts: seq<string>) returns (rest: string)
    requires |parts| >= 1 && FirstTwoSegments(parts).Some?
    requires forall i :: 0 <= i < |parts| ==> '/' !in parts[i]
    ensures var r := FirstTwoSegments(parts).value;
      r.owner != "" && r.name != "" && '/' !in r.owner && '/' !in r.name &&
      (rest == "" || rest[0] == '/') && Join(parts) == r.owner + "/" + r.name + rest
  {
    var r := FirstTwoSegments(parts).value;
    assert |parts| >= 2 && r == RepoRef(parts[0], parts[1]);
    var two := parts[..2];
    assert two[1..] == [parts[1]];
    assert Join(two) == r.owner + "/" + r.name;
    if |parts| == 2 {
      assert parts == two;
      rest := "";
      assert Join(parts) == r.owner + "/" + r.name + rest;
    } else {
      assert two + parts[2..] == parts;
      JoinConcat(two, parts[2..]);
      rest := "/" + Join(parts[2..]);
    }
  }

  /** Conversely, any path `/owner/name`, optionally followed by more segments,
      parses to that owner and name. */
  lemma ParsePathnameComplete(first: char, owner: string, name: string, rest: string)
    requires owner != "" && name != "" && '/' !in owner && '/' !in name
    requires rest == "" || rest[0] == '/'
    ensures ParsePathname([first] + owner + "/" + name + rest) == Some(RepoRef(owner, name))
  {
    var pathname := [first] + owner + "/" + name + rest;
    var s := owner + "/" + name + rest;
    assert pathname[1..] == s;
    SplitNoSlash(owner);
    SplitNoSlash(name);
    if rest == "" {
      assert s == owner + "/" + name;
      SplitConcat(owner, name);
    } else {
      var tail := rest[1..];
      assert rest == "/" + tail;
      assert s == owner + "/" + (name + "/" + tail);
      SplitConcat(owner, name + "/" + tail);
      SplitConcat(name, tail);
    }
  }

  /** `repos.some(r => r.id === newRepo.id)` */
  predicate Listed(repos: seq<GithubRepo>, id: int) {
    exists i :: 0 <= i < |repos| && repos[i].id == id
  }

  /** The duplicate check and the prepend. */
  function AddIfNew(repos: seq<GithubRepo>, repo: GithubRepo): (r: seq<GithubRepo>)
    ensures Listed(repos, repo.id) ==> r == repos
    ensures !Listed(repos, repo.id) ==> r == [repo] + repos
  {
    if Listed(repos, repo.id) then repos else [repo] + repos
  }

  /** No two listed repositories share an id. */
  predicate DistinctIds(repos: seq<GithubRepo>) {
    forall i, j :: 0 <= i < j < |repos| ==> repos[i].id != repos[j].id
  }

  /** Adding keeps ids distinct, and afterwards the id is listed. */
  lemma AddIfNewKeepsDistinct(repos: seq<GithubRepo>, repo: GithubRepo)
    requires DistinctIds(repos)
    ensures DistinctIds(AddIfNew(repos, repo))
    ensures Listed(AddIfNew(repos, repo), repo.id)
  {
    var r := AddIfNew(repos, repo);
    if !Listed(repos, repo.id) {
      forall i, j | 0 <= i < j < |r| ensures r[i].id != r[j].id {
        if i == 0 {
          assert r[j] == repos[j - 1];
        } else {
          assert r[i] == repos[i - 1] && r[j] == repos[j - 1];
        }
      }
      assert r[0].id == repo.id;
    } else {
      var k :| 0 <= k < |repos| && repos[k].id == repo.id;
      assert r[k].id == repo.id;
    }
  }

  /** Adding the same record twice is adding it once. */
  lemma AddIfNewIdempotent(repos: seq<GithubRepo>, repo: GithubRepo)
    ensures AddIfNew(AddIfNew(repos, repo), repo) == AddIfNew(repos, repo)
  {
    var r := AddIfNew(repos, repo);
    if !Listed(repos, repo.id) {
      assert r[0].id == repo.id;
    }
  }

  datatype DashboardState = DashboardState(
    repos: seq<GithubRepo>,
    loading: bool,
    error: Option<string>,
    isDialogOpen: bool)

  /** `handleRepoAdded(repoUrl)` given what `new URL` made of it and, when owner
      and name were found, the answer to the repository-details request. */
  function AfterRepoAdded(s: DashboardState, url: UrlParse, lookup: Response<GithubRepo>): (r: DashboardState)
    ensures r.repos != s.repos ==> lookup.Reply? && IsOk(lookup.status) && lookup.body.Json? &&
                                   r.repos == [lookup.body.value] + s.repos
    ensures r.error != s.error ==> r.error.Some? && r.error.value != ""
    ensures url.Rejected? ==> r == s.(error := Some(Or(url.message, AddFailed)))
    ensures url.Parsed? && ParsePathname(url.pathname).None? ==> r == s.(error := Some(InvalidUrl))
    ensures url.Parsed? && ParsePathname(url.pathname).Some? && lookup.Reply? && !IsOk(lookup.status) ==>
              r == s.(error := Some(RepoDetailsFailed))
    ensures url.Parsed? && ParsePathname(url.pathname).Some? && lookup.Reply? && IsOk(lookup.status) && lookup.body.Json? ==>
              r == s.(repos := AddIfNew(s.repos, lookup.body.value), isDialogOpen := false)
  {
    match url
    case Rejected(message) => s.(error := Some(Or(message, AddFailed)))
    case Parsed(pathname) =>
      match ParsePathname(pathname)
      case None => s.(error := Some(InvalidUrl))
      case Some(_) =>
        match lookup
        case Threw(reason) => s.(error := Some(Or(reason, AddFailed)))
        case Reply(status, body) =>
          if !IsOk(status) then s.(error := Some(RepoDetailsFailed))
          else
            match body
            case Malformed(reason) => s.(error := Some(Or(reason, AddFailed)))
            case Json(repo, _) => s.(repos := AddIfNew(s.repos, repo), isDialogOpen := false)
  }

  /** The request `handleRepoAdded` makes, if any. */
  function AddRequest(url: UrlParse): Option<string> {
    match url
    case Rejected(_) => None
    case Parsed(pathname) =>
      match ParsePathname(pathname)
      case None => None
      case Some(r) => Some(ApiUrl + "/repos/" + FullName(r))
  }

  /** The dialog closes exactly when a record was fetched, whether or not it was new. */
  lemma DialogClosesOnSuccess(s: DashboardState, url: UrlParse, lookup: Response<GithubRepo>)
    requires s.isDialogOpen
    ensures !AfterRepoAdded(s, url, lookup).isDialogOpen <==>
              url.Parsed? && ParsePathname(url.pathname).Some? &&
              lookup.Reply? && IsOk(lookup.status) && lookup.body.Json?
  {
  }

  class DashboardPage {
    var repos: seq<GithubRepo>
    var loading: bool
    var error: Option<string>
    var isDialogOpen: bool

    function Snapshot(): DashboardState
      reads this
    {
      DashboardState(repos, loading, error, isDialogOpen)
    }

    /** The page starts out loading. */
    constructor ()
      ensures Snapshot() == DashboardState([], true, None, false)
    {
      repos, loading, error, isDialogOpen := [], true, None, false;
    }

    /** The mount effect up to the request: returns the request made, if any;
        without a username the page stops loading and reports it. */
    method BeginLoad(username: Option<string>) returns (request: Option<string>)
      modifies this
      ensures Truthy(username) ==>
                request == Some(UserReposUrl(username.value)) && Snapshot() == old(Snapshot()).(loading := true)
      ensures !Truthy(username) ==>
                request.None? && Snapshot() == old(Snapshot()).(loading := false, error := Some(NoUsername))
    {
      if Truthy(username) {
        loading := true;
        request := Some(UserReposUrl(username.value));
      } else {
        loading := false;
        error := Some(NoUsername);
        request := None;
      }
    }

    /** The mount effect once its call of `getReposForUser` ended: the `.then`
        callback runs only when the call settled, and there an empty error
        string is falsy and sets nothing; the `.finally` callback always
        clears `loading`. */
    method FinishLoad(call: Call<ApiResult<seq<GithubRepo>>>)
      modifies this
      ensures call.Settled? && call.result.Error? && call.result.error != "" ==>
                Snapshot() == old(Snapshot()).(error := Some(call.result.error), loading := false)
      ensures call.Settled? && call.result.Data? ==>
                Snapshot() == old(Snapshot()).(repos := call.result.data, loading := false)
      ensures call.Rejected? || (call.result.Error? && call.result.error == "") ==>
                Snapshot() == old(Snapshot()).(loading := false)
    {
      if call.Settled? {
        match call.result
        case Error(e) =>
          if e != "" {
            error := Some(e);
          }
        case Data(fetched) =>
          repos := fetched;
      }
      loading := false;
    }

    /** `handleRepoAdded(repoUrl)`: returns the request made, if any. */
    method HandleRepoAdded(url: UrlParse, lookup: Response<GithubRepo>) returns (request: Option<string>)
      modifies this
      ensures Snapshot() == AfterRepoAdded(old(Snapshot()), url, lookup)
      ensures request == AddRequest(url)
    {
      if url.Rejected? {
        error := Some(Or(url.message, AddFailed));
        return None;
      }
      var ref := ParsePathname(url.pathname);
      if ref.None? {
        error := Some(InvalidUrl);
        return None;
      }
      request := Some(ApiUrl + "/repos/" + FullName(ref.value));
      if lookup.Threw? {
        error := Some(Or(lookup.reason, AddFailed));
        return;
      }
      if !IsOk(lookup.status) {
        error := Some(RepoDetailsFailed);
        return;
      }
      if lookup.body.Malformed? {
        error := Some(Or(lookup.body.reason, AddFailed));
        return;
      }
      repos := AddIfNew(repos, lookup.body.value);
      isDialogOpen := false;
    }

    method SetDialogOpen(open: bool)
      modifies this
      ensures Snapshot() == old(Snapshot()).(isDialogOpen := open)
    {
      isDialogOpen := open;
    }
  }
}
