/**
 * The username form (src/components/landing/ConnectToGithub.tsx): on mount it
 * restores the saved username; on fetch it reports to its parent through the
 * `onLoading`, `onError` and `onReposFetched` callbacks, in a fixed order.
 *
 * Everything the form does that its caller can observe -- the callbacks, the
 * write to the saved-username store and the request -- is recorded, in order,
 * as a trace of `Effect`s. The store (`localStorage`'s `github_username`) is a
 * field.
 */
module ConnectToGithub {
  import opened Wrappers
  import opened Js
  import opened GitHub
  import opened RepoList

  const EnterUsername := "Please enter a GitHub username."

  datatype Effect =
    | Loading(isLoading: bool)          // onLoading(isLoading)
    | ErrorShown(message: string)       // onError(message)
    | Fetched(repos: seq<GithubRepo>)   // onReposFetched(repos)
    | Saved(username: string)           // localStorage.setItem('github_username', username)
    | Requested(url: string)            // the request getReposForUser makes

  /** Whether an effect is one of the three callbacks. */
  predicate IsCallback(e: Effect) {
    e.Loading? || e.ErrorShown? || e.Fetched?
  }

  /** The dispatch on the result: a truthy `error` wins; an array `data` is
      always truthy; an empty error string (which `getReposForUser` never
      produces) fires nothing. */
  function Dispatch(result: ApiResult<seq<GithubRepo>>): (r: seq<Effect>)
    ensures result.Error? && result.error != "" ==> r == [ErrorShown(result.error)]
    ensures result.Data? ==> r == [Fetched(result.data)]
    ensures result.Error? && result.error == "" ==> r == []
  {
    match result
    case Error(e) => if e != "" then [ErrorShown(e)] else []
    case Data(repos) => [Fetched(repos)]
  }

  /** Everything `handleFetch` does for the current `username`, given how the
      call of `getReposForUser` ended. A rejected call ends the handler at its
      `await`: nothing after the request happens, `onLoading(false)` included. */
  function FetchEffects(username: string, call: Call<ApiResult<seq<GithubRepo>>>): (t: seq<Effect>)
    ensures username == "" ==> t == [ErrorShown(EnterUsername)]
    ensures username != "" ==>
              |t| >= 3 && t[0] == Loading(true) && t[1] == Saved(username) && t[2] == Requested(UserReposUrl(username))
    ensures username != "" && call.Rejected? ==> |t| == 3
    ensures username != "" && call.Settled? ==> |t| >= 4 && t[|t| - 1] == Loading(false)
  {
    if username == "" then [ErrorShown(EnterUsername)]
    else
      var started := [Loading(true), Saved(username), Requested(UserReposUrl(username))];
      match call
      case Rejected => started
      case Settled(result) => started + Dispatch(result) + [Loading(false)]
  }

  /** An empty username only reports the error: no loading callback, no save, no request. */
  lemma EmptyUsername(call: Call<ApiResult<seq<GithubRepo>>>)
    ensures FetchEffects("", call) == [ErrorShown(EnterUsername)]
    ensures forall e :: e in FetchEffects("", call) ==> !e.Loading? && !e.Saved? && !e.Requested?
  {
  }

  /** Otherwise `onLoading(true)` comes first and the username is saved before
      the request is made; when the call settles, `onLoading(false)` comes last
      and nowhere in between, and when it rejects, `onLoading(false)` never comes. */
  lemma NonEmptyUsername(username: string, call: Call<ApiResult<seq<GithubRepo>>>)
    requires username != ""
    ensures var t := FetchEffects(username, call);
      |t| >= 3 && t[0] == Loading(true) &&
      t[1] == Saved(username) && t[2] == Requested(UserReposUrl(username)) &&
      (call.Settled? ==> |t| >= 4 && t[|t| - 1] == Loading(false) && forall i :: 0 < i < |t| - 1 ==> !t[i].Loading?) &&
      (call.Rejected? ==> Loading(false) !in t)
  {
    var t := FetchEffects(username, call);
    if call.Settled? {
      var d := Dispatch(call.result);
      forall i | 0 < i < |t| - 1 ensures !t[i].Loading? {
        if i >= 3 {
          assert t[i] == d[i - 3];
        }
      }
    }
  }

  /** An error result reports the error and never the repositories; a data result
      reports the repositories and no error; a rejected call reports neither. */
  lemma ResultDispatch(username: string, call: Call<ApiResult<seq<GithubRepo>>>)
    requires username != ""
    ensures call.Settled? && call.result.Error? && call.result.error != "" ==>
              ErrorShown(call.result.error) in FetchEffects(username, call) &&
              forall e :: e in FetchEffects(username, call) ==> !e.Fetched?
    ensures call.Settled? && call.result.Data? ==>
              Fetched(call.result.data) in FetchEffects(username, call) &&
              forall e :: e in FetchEffects(username, call) ==> !e.ErrorShown?
    ensures call.Settled? && call.result.Error? && call.result.error == "" ==>
              forall e :: e in FetchEffects(username, call) && IsCallback(e) ==> e.Loading?
    ensures call.Rejected? ==>
              forall e :: e in FetchEffects(username, call) && IsCallback(e) ==> e == Loading(true)
  {
    var t := FetchEffects(username, call);
    if call.Settled? {
      assert t == [Loading(true), Saved(username), Requested(UserReposUrl(username))] + Dispatch(call.result) + [Loading(false)];
    }
  }

  class ConnectForm {
    var username: string
    var isClient: bool
    /** The saved-username store. */
    var saved: Option<string>
    /** What the form has done so far, oldest first. */
    var effects: seq<Effect>

    /** A fresh form over a store holding `stored`. */
    constructor (stored: Option<string>)
      ensures username == "" && !isClient && saved == stored && effects == []
    {
      username, isClient, saved, effects := "", false, stored, [];
    }

    /** The mount effect: the saved username, when truthy, becomes the input's value. */
    method Mount()
      modifies this`isClient, this`username
      ensures isClient
      ensures username == if Truthy(saved) then saved.value else old(username)
    {
      isClient := true;
      if Truthy(saved) {
        username := saved.value;
      }
    }

    /** The input's `onChange`. */
    method SetUsername(text: string)
      modifies this`username
      ensures username == text
    {
      username := text;
    }

    /** `handleFetch`, given how the call of `getReposForUser` ended. */
    method HandleFetch(call: Call<ApiResult<seq<GithubRepo>>>)
      modifies this`saved, this`effects
      ensures effects == old(effects) + FetchEffects(username, call)
      ensures saved == if username == "" then old(saved) else Some(username)
    {
      if username == "" {
        effects := effects + [ErrorShown(EnterUsername)];
        return;
      }
      effects := effects + [Loading(true)];
      saved := Some(username);
      effects := effects + [Saved(username)];
      effects := effects + [Requested(UserReposUrl(username))];
      if call.Rejected? {
        return;
      }
      effects := effects + Dispatch(call.result);
      effects := effects + [Loading(false)];
    }
  }

  /** A username saved by a fetch is restored by the next mount. */
  method SaveThenRestore(form: ConnectForm, call: Call<ApiResult<seq<GithubRepo>>>)
    returns (next: ConnectForm)
    requires form.username != ""
    modifies form
    ensures fresh(next)
    ensures next.username == old(form.username)
  {
    form.HandleFetch(call);
    next := new ConnectForm(form.saved);
    next.Mount();
  }
}
