/**
 * The repository question-and-answer page (src/app/qa/page.tsx): choosing a
 * repository, and a transcript to which each question and its answer (or an
 * apology when the answering flow throws) are appended.
 *
 * As on the documentation page, the `useState` variables are fields of
 * `QaPage` and each `await` splits a handler in two.
 */
module Qa {
  import opened Wrappers
  import opened Js
  import opened GitHub
  import opened RepoList
  import opened RepoUrl
  import opened AiFlows

  const NoPublicRepos := "No public repositories found for this user."
  const RepoDetailsFailed := "Could not fetch repository details from GitHub."
  const AnswerFailed := "Sorry, I encountered an error."

  datatype View = Initial | Repos | Chat

  datatype Role = User | Bot

  datatype QaMessage = QaMessage(role: Role, content: string)

  /** The input of the answering flow. */
  datatype AskRequest = AskRequest(repoUrl: string, question: string)

  datatype QaState = QaState(
    selectedRepo: Option<GithubRepo>,
    repos: seq<GithubRepo>,
    loading: bool,
    error: Option<string>,
    view: View,
    messages: seq<QaMessage>,
    question: string,
    isAnswering: bool)

  /** `handleRepoSelected(repo)`, which here is synchronous. */
  function Selected(s: QaState, repo: GithubRepo): QaState {
    s.(selectedRepo := Some(repo), view := Chat)
  }

  /** `handleRepoUrl(url)` given the answer to the repository-details request. A
      rejected request or an unparsable body ends the handler with an unhandled
      rejection and no state change. */
  function AfterRepoUrl(s: QaState, url: string, lookup: Response<GithubRepo>): (r: QaState)
    ensures r.view == Chat ==> r.selectedRepo.Some? || s.view == Chat
    ensures r.repos == s.repos && r.loading == s.loading && r.messages == s.messages &&
            r.question == s.question && r.isAnswering == s.isAnswering
    ensures ParseRepoUrl(url).Some? && lookup.Reply? && !IsOk(lookup.status) ==>
              r == s.(error := Some(RepoDetailsFailed))
    ensures ParseRepoUrl(url).Some? && (lookup.Threw? || (IsOk(lookup.status) && lookup.body.Malformed?)) ==> r == s
    ensures ParseRepoUrl(url).Some? && lookup.Reply? && IsOk(lookup.status) && lookup.body.Json? ==>
              r == Selected(s, lookup.body.value)
  {
    match ParseRepoUrl(url)
    case None => s.(error := Some(InvalidUrl))
    case Some(_) =>
      match lookup
      case Threw(_) => s
      case Reply(status, body) =>
        if !IsOk(status) then s.(error := Some(RepoDetailsFailed))
        else if body.Json? then Selected(s, body.value)
        else s
  }

  /** Only a parsable URL whose details were fetched changes the repository, and
      then to exactly the fetched record. */
  lemma RepoUrlSelects(s: QaState, url: string, lookup: Response<GithubRepo>)
    ensures AfterRepoUrl(s, url, lookup).selectedRepo != s.selectedRepo ==>
              ParseRepoUrl(url).Some? && lookup.Reply? && IsOk(lookup.status) && lookup.body.Json? &&
              AfterRepoUrl(s, url, lookup).selectedRepo == Some(lookup.body.value)
    ensures ParseRepoUrl(url).None? ==> AfterRepoUrl(s, url, lookup) == s.(error := Some(InvalidUrl))
  {
  }

  /** A transcript of completed rounds: questions and answers alternate, starting with a question. */
  predicate Alternating(messages: seq<QaMessage>) {
    |messages| % 2 == 0 &&
    forall i :: 0 <= i < |messages| ==> messages[i].role == (if i % 2 == 0 then User else Bot)
  }

  /** A question followed by its reply keeps a transcript alternating. */
  lemma RoundKeepsAlternating(messages: seq<QaMessage>, question: string, reply: string)
    requires Alternating(messages)
    ensures Alternating(messages + [QaMessage(User, question), QaMessage(Bot, reply)])
  {
    var m := messages + [QaMessage(User, question), QaMessage(Bot, reply)];
    forall i | 0 <= i < |m| ensures m[i].role == (if i % 2 == 0 then User else Bot) {
      if i < |messages| {
        assert m[i] == messages[i];
      }
    }
  }

  /** The text of the bot's reply for the flow's outcome. */
  function BotReply(answer: FlowOutcome<string>): (r: string)
    ensures answer.Threw? ==> r == AnswerFailed
    ensures answer.Returned? ==> r == answer.output
  {
    match answer
    case Returned(text) => text
    case Threw => AnswerFailed
  }

  class QaPage {
    var selectedRepo: Option<GithubRepo>
    var repos: seq<GithubRepo>
    var loading: bool
    var error: Option<string>
    var view: View
    var messages: seq<QaMessage>
    var question: string
    var isAnswering: bool

    function Snapshot(): QaState
      reads this
    {
      QaState(selectedRepo, repos, loading, error, view, messages, question, isAnswering)
    }

    /** The chat is only shown for a selected repository. */
    ghost predicate Valid()
      reads this
    {
      view == Chat ==> selectedRepo.Some?
    }

    constructor ()
      ensures Valid()
      ensures Snapshot() == QaState(None, [], false, None, Initial, [], "", false)
    {
      selectedRepo, repos, loading, error := None, [], false, None;
      view, messages, question, isAnswering := Initial, [], "", false;
    }

    /** The mount effect, for the `repoUrl` and `username` query values. */
    method Mount(repoUrlFromQuery: Option<string>, username: Option<string>, lookup: Response<GithubRepo>)
      returns (request: Option<string>)
      requires Valid()
      modifies this
      ensures Valid()
      ensures Truthy(repoUrlFromQuery) ==>
                Snapshot() == AfterRepoUrl(old(Snapshot()), repoUrlFromQuery.value, lookup) &&
                request == RepoDetailsRequest(repoUrlFromQuery.value)
      ensures !Truthy(repoUrlFromQuery) ==>
                Snapshot() == old(Snapshot()).(view := if Truthy(username) then Initial else old(view)) &&
                request.None?
    {
      if Truthy(repoUrlFromQuery) {
        request := HandleRepoUrl(repoUrlFromQuery.value, lookup);
      } else {
        if Truthy(username) {
          view := Initial;
        }
        request := None;
      }
    }

    /** `handleRepoUrl`: returns the repository-details request it makes, if any. */
    method HandleRepoUrl(url: string, lookup: Response<GithubRepo>) returns (request: Option<string>)
      requires Valid()
      modifies this
      ensures Valid()
      ensures Snapshot() == AfterRepoUrl(old(Snapshot()), url, lookup)
      ensures request == RepoDetailsRequest(url)
    {
      var ref := ParseRepoUrl(url);
      if ref.None? {
        error := Some(InvalidUrl);
        request := None;
        return;
      }
      request := Some(ApiUrl + "/repos/" + FullName(ref.value));
      if lookup.Threw? {
        return;
      }
      if !IsOk(lookup.status) {
        error := Some(RepoDetailsFailed);
        return;
      }
      if lookup.body.Json? {
        HandleRepoSelected(lookup.body.value);
      }
    }

    method HandleReposFetched(fetched: seq<GithubRepo>)
      requires Valid()
      modifies this
      ensures Valid()
      ensures Snapshot() == old(Snapshot()).(
                repos := fetched,
                loading := false,
                view := if |fetched| > 0 then Repos else old(view),
                error := if |fetched| > 0 then old(error) else Some(NoPublicRepos))
    {
      repos := fetched;
      loading := false;
      if |fetched| > 0 {
        view := Repos;
      } else {
        error := Some(NoPublicRepos);
      }
    }

    method HandleLoading(isLoading: bool)
      requires Valid()
      modifies this
      ensures Valid()
      ensures Snapshot() == old(Snapshot()).(loading := isLoading, error := None)
    {
      loading := isLoading;
      error := None;
    }

    method HandleError(message: string)
      requires Valid()
      modifies this
      ensures Valid()
      ensures Snapshot() == old(Snapshot()).(error := Some(message), loading := false)
    {
      error := Some(message);
      loading := false;
    }

    method HandleRepoSelected(repo: GithubRepo)
      requires Valid()
      modifies this
      ensures Valid()
      ensures Snapshot() == Selected(old(Snapshot()), repo)
    {
      selectedRepo := Some(repo);
      view := Chat;
    }

    method HandleBackToSearch()
      requires Valid()
      modifies this
      ensures Valid()
      ensures Snapshot() == old(Snapshot()).(view := Initial, repos := [], error := None)
    {
      view := Initial;
      repos := [];
      error := None;
    }

    /** Leaving the chat forgets the transcript and the draft question, not the repository. */
    method HandleBackToRepos()
      requires Valid()
      modifies this
      ensures Valid()
      ensures Snapshot() == old(Snapshot()).(view := if |old(repos)| > 0 then Repos else Initial,
                                            messages := [], question := "")
    {
      view := if |repos| > 0 then Repos else Initial;
      messages := [];
      question := "";
    }

    /** The input's `onChange`. */
    method SetQuestion(text: string)
      requires Valid()
      modifies this`question
      ensures Valid()
      ensures question == text
    {
      question := text;
    }

    /** `handleAskQuestion` up to the flow call. A blank question or no selected
        repository changes nothing and asks nothing. Otherwise the question, as
        typed, joins the transcript, the draft is cleared, and the request carries
        the repository's URL and the untrimmed question; `pending` is the
        transcript the handler's later step appends the reply to. */
    method BeginAsk() returns (request: Option<AskRequest>, pending: seq<QaMessage>)
      requires Valid()
      modifies this
      ensures Valid()
      ensures request.Some? <==> !IsBlank(old(question)) && old(selectedRepo).Some?
      ensures request.None? ==> Snapshot() == old(Snapshot())
      ensures request.Some? ==>
                request.value == AskRequest(old(selectedRepo).value.html_url, old(question)) &&
                pending == old(messages) + [QaMessage(User, old(question))] &&
                Snapshot() == old(Snapshot()).(messages := pending, question := "", isAnswering := true)
    {
      TrimEmptyIffBlank(question);
      if Trim(question) == "" || selectedRepo.None? {
        return None, messages;
      }
      request := Some(AskRequest(selectedRepo.value.html_url, question));
      pending := messages + [QaMessage(User, question)];
      messages := pending;
      question := "";
      isAnswering := true;
    }

    /** `handleAskQuestion` after the flow settled with `answer`: the reply is
        appended to the transcript captured when the question was asked. */
    method FinishAsk(pending: seq<QaMessage>, answer: FlowOutcome<string>)
      requires Valid()
      modifies this
      ensures Valid()
      ensures Snapshot() == old(Snapshot()).(messages := pending + [QaMessage(Bot, BotReply(answer))],
                                            isAnswering := false)
    {
      messages := pending + [QaMessage(Bot, BotReply(answer))];
      isAnswering := false;
    }
  }

  /** An uninterleaved round: an alternating transcript gains exactly the
      question and its reply, and stays alternating. */
  method AskRound(page: QaPage, answer: FlowOutcome<string>)
    requires page.Valid() && Alternating(page.messages)
    requires !IsBlank(page.question) && page.selectedRepo.Some?
    modifies page
    ensures page.Valid() && Alternating(page.messages)
    ensures page.messages == old(page.messages) + [QaMessage(User, old(page.question)), QaMessage(Bot, BotReply(answer))]
    ensures page.question == "" && !page.isAnswering
  {
    var request, pending := page.BeginAsk();
    page.FinishAsk(pending, answer);
    RoundKeepsAlternating(old(page.messages), old(page.question), BotReply(answer));
  }
}
