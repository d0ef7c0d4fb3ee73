/**
 * The landing section (src/components/landing/Hero.tsx): four handlers over
 * `repos`, `loading`, `error` and `view`, three of which are the callbacks it
 * hands to the username form.
 *
 * Because the form's last callback is always `onLoading(false)`, and
 * `handleLoading` clears the error, no error set during a fetch survives it.
 */
module Hero {
  import opened Wrappers
  import opened GitHub
  import opened RepoList
  import opened ConnectToGithub

  const NoPublicRepos := "No public repositories found for this user."

  datatype HeroView = Initial | Repos

  datatype HeroState = HeroState(repos: seq<GithubRepo>, loading: bool, error: Option<string>, view: HeroView)

  /** `handleReposFetched` */
  function ReposFetched(s: HeroState, fetched: seq<GithubRepo>): (r: HeroState)
    ensures r.repos == fetched && !r.loading
    ensures |fetched| > 0 ==> r.view == Repos && r.error == s.error
    ensures |fetched| == 0 ==> r.view == s.view && r.error == Some(NoPublicRepos)
  {
    if |fetched| > 0 then s.(repos := fetched, loading := false, view := Repos)
    else s.(repos := fetched, loading := false, error := Some(NoPublicRepos))
  }

  /** `handleLoading` */
  function LoadingChanged(s: HeroState, isLoading: bool): (r: HeroState)
    ensures r.loading == isLoading && r.error.None?
    ensures r.repos == s.repos && r.view == s.view
  {
    s.(loading := isLoading, error := None)
  }

  /** `handleError` */
  function Failed(s: HeroState, message: string): (r: HeroState)
    ensures r.error == Some(message) && !r.loading
    ensures r.repos == s.repos && r.view == s.view
  {
    s.(error := Some(message), loading := false)
  }

  /** `handleBack` */
  function Back(s: HeroState): (r: HeroState)
    ensures r.view == Initial && r.repos == [] && r.error.None? && r.loading == s.loading
  {
    s.(view := Initial, repos := [], error := None)
  }

  /** The wiring of the form's callbacks to the handlers; the form's other
      effects do not touch this state. */
  function Apply(s: HeroState, e: Effect): (r: HeroState)
    ensures !IsCallback(e) ==> r == s
    ensures !e.Fetched? ==> r.repos == s.repos && r.view == s.view
    ensures e.Loading? ==> r.loading == e.isLoading && r.error.None?
  {
    match e
    case Loading(b) => LoadingChanged(s, b)
    case ErrorShown(m) => Failed(s, m)
    case Fetched(repos) => ReposFetched(s, repos)
    case Saved(_) => s
    case Requested(_) => s
  }

  /** The effects applied in order. */
  function Run(s: HeroState, effects: seq<Effect>): (r: HeroState)
    ensures (forall i :: 0 <= i < |effects| ==> !IsCallback(effects[i])) ==> r == s
    ensures (forall i :: 0 <= i < |effects| ==> !effects[i].Fetched?) ==> r.repos == s.repos && r.view == s.view
    decreases |effects|
  {
    if effects == [] then s else Run(Apply(s, effects[0]), effects[1..])
  }

  lemma {:induction false} RunConcat(s: HeroState, a: seq<Effect>, b: seq<Effect>)
    ensures Run(s, a + b) == Run(Run(s, a), b)
    decreases |a|
  {
    if a != [] {
      assert (a + b)[0] == a[0];
      assert (a + b)[1..] == a[1..] + b;
      RunConcat(Apply(s, a[0]), a[1..], b);
    } else {
      assert a + b == b;
    }
  }

  /** After a fetch with a non-empty username no error is left, whatever the
      call gave. When the call settled, loading is over, and the repositories are
      the fetched ones when the result carried data; when it rejected, loading
      stays on and nothing else changes. */
  lemma FetchErasesErrors(s: HeroState, username: string, call: Call<ApiResult<seq<GithubRepo>>>)
    requires username != ""
    ensures Run(s, FetchEffects(username, call)).error.None?
    ensures call.Settled? ==> !Run(s, FetchEffects(username, call)).loading
    ensures call.Settled? && call.result.Data? ==> Run(s, FetchEffects(username, call)).repos == call.result.data
    ensures call.Settled? && call.result.Data? ==>
              (Run(s, FetchEffects(username, call)).view == Repos <==> |call.result.data| > 0 || s.view == Repos)
    ensures call.Rejected? ==> Run(s, FetchEffects(username, call)) == s.(loading := true, error := None)
  {
    var prefix := [Loading(true), Saved(username), Requested(UserReposUrl(username))];
    var loaded := LoadingChanged(s, true);
    assert prefix[1..] == [Saved(username), Requested(UserReposUrl(username))];
    assert [Saved(username), Requested(UserReposUrl(username))][1..] == [Requested(UserReposUrl(username))];
    assert Run(loaded, [Requested(UserReposUrl(username))]) == loaded;
    assert Run(loaded, [Saved(username), Requested(UserReposUrl(username))]) == loaded;
    assert Run(s, prefix) == loaded;
    if call.Settled? {
      var result := call.result;
      var head := prefix + Dispatch(result);
      assert FetchEffects(username, call) == head + [Loading(false)];
      RunConcat(s, head, [Loading(false)]);
      RunConcat(s, prefix, Dispatch(result));
      if result.Data? {
        assert Run(loaded, Dispatch(result)) == ReposFetched(loaded, result.data);
      }
    }
  }

  /** With an empty username the form's error is what remains shown. */
  lemma EmptyUsernameShown(s: HeroState, call: Call<ApiResult<seq<GithubRepo>>>)
    ensures Run(s, FetchEffects("", call)) == Failed(s, EnterUsername)
  {
  }

  class HeroSection {
    var repos: seq<GithubRepo>
    var loading: bool
    var error: Option<string>
    var view: HeroView

    function Snapshot(): HeroState
      reads this
    {
      HeroState(repos, loading, error, view)
    }

    constructor ()
      ensures Snapshot() == HeroState([], false, None, Initial)
    {
      repos, loading, error, view := [], false, None, Initial;
    }

    method HandleReposFetched(fetched: seq<GithubRepo>)
      modifies this
      ensures Snapshot() == ReposFetched(old(Snapshot()), fetched)
    {
      repos := fetched;
      loading := false;
      if |fetched| > 0 {
        view := Repos;
      } else {
        error := Some(NoPublicRepos);
      }
    }

    method HandleLoading(isLoading: bool)
      modifies this
      ensures Snapshot() == LoadingChanged(old(Snapshot()), isLoading)
    {
      loading := isLoading;
      error := None;
    }

    method HandleError(message: string)
      modifies this
      ensures Snapshot() == Failed(old(Snapshot()), message)
    {
      error := Some(message);
      loading := false;
    }

    method HandleBack()
      modifies this
      ensures Snapshot() == Back(old(Snapshot()))
    {
      view := Initial;
      repos := [];
      error := None;
    }
  }
}
