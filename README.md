# Code Insights — a Dafny model of its client logic

Code Insights is a Next.js application that lets a user pick a public
repository (by hosting-service username or by URL) and then browse its root
listing and generate per-file documentation, ask questions about it, get an
architecture summary, or get suggestions of similar repositories ranked by
stars. Everything substantial is delegated to the repository-hosting REST API
and to AI flows; what is left, and what this project models, is the glue:

- `GitHub` — the REST wrapper (`src/actions/github.ts`): headers, URLs, and the
  mapping of every response, error body or exception to exactly one of
  `Data(..)` or a non-empty `Error(..)`.
- `RepoList` — the `GithubRepo` record and the relative-time label `timeAgo`.
- `RepoUrl` — the owner/name parse of a repository URL shared by the
  documentation and Q&A pages (last two `/`-segments, one trailing slash
  dropped).
- `Docs` — the documentation page: the root listing normalised (directories
  get an empty child list) and sorted directories-first then by name; the
  path-addressed patch `updateRecursively`; and the generate-documentation
  state machine.
- `Suggest` — the similar-repositories page: lookups, the filter of failed
  lookups, and the stable sort by star count.
- `Qa` — the Q&A page: choosing a repository and the transcript.
- `Dashboard` — the dashboard's load, and "add repository", which reads the
  first two path segments of a URL and prepends the record unless its id is
  already listed.
- `DashboardSidebar` — which navigation link is highlighted.
- `ConnectToGithub`, `Hero` — the username form, whose fetch reports through
  callbacks in a fixed order, and the landing section that receives them.
- `Analyze` — the architecture-summary page and its auto-submit rule.
- `Wrappers`, `Js`, `AiFlows` — `Option`; the JavaScript string behaviour the
  code relies on (truthiness, `||`, `split('/')`, `startsWith`, `trim`,
  number formatting, and `localeCompare` taken as code-point lexicographic
  order); and the outcome of an AI flow call (a value, or a throw).

How the model is built:

- Each page component is a class whose fields are its `useState` variables.
  `Snapshot()` packs them into a datatype, so every handler states its whole
  new state as `old(Snapshot()).(field := ...)` or as a pure function of the
  old state. `Valid()` states the page's invariant, for example that the
  documentation or chat view is only shown with a repository selected, and on
  the documentation page that `files` stays a normalised, sorted listing.
- Each `await` splits a handler into a step before it and a step after it
  (`BeginRepoSelected`/`FinishRepoSelected`, `BeginAsk`/`FinishAsk`, ...). What
  the awaited call produced is a parameter of the later step: a `Response` for
  `fetch` plus `response.json()`, a `Call` of an `ApiResult` for the server
  actions (which either settle with their result or reject when the transport
  or the server fails), and a `FlowOutcome` for an AI flow. A rejected call
  that the code awaits outside any `try` ends the handler at that `await`. Handlers whose awaited result only feeds the
  rest of the handler take that result as a parameter and return the request
  they make.
- The sort of the root listing and of the suggestions is the stable sort that
  `Array.prototype.sort` performs. It is given as an insertion sort on
  sequences, with sortedness, permutation and (for stars) stability proved.
- The username form records, in order, everything its caller can observe: the
  three callbacks, the write of the saved username, and the request. The
  landing section's handlers are pure transitions, so their composition with
  the form can be proved. When the call of `getReposForUser` settles, the
  form ends with `onLoading(false)`, and since `handleLoading` clears the
  error, every error set during a fetch with a non-empty username is erased
  before it is shown. When the call rejects, `onLoading(false)` never comes
  and the section stays loading (`Hero.FetchErasesErrors`). The documentation and Q&A pages wire the same
  callbacks in the same way.

`handleRepoSelected` fetches only the root listing; directories get
`children: []` and are never expanded, and there are no sizes.

## Model

| member | source | states |
|---|---|---|
| GitHub.BuildHeaders | src/actions/github.ts:5-15 | the Accept header is always the v3 JSON media type; Authorization is present exactly when the token is truthy and is then `token <value>`; no other header |
| GitHub.UserReposUrl | src/actions/github.ts:20 | the user-repositories URL lies under `https://api.github.com/users/` |
| GitHub.ContentsUrl | src/actions/github.ts:35-37 | the contents URL lies under `/repos/`, and with the default empty path it ends in `/contents/` |
| GitHub.SearchUrl | src/actions/github.ts:51 | the search URL lies under `/search/repositories?q=` and ends with `&sort=stars&order=desc&per_page=20` |
| GitHub.GetReposForUser | src/actions/github.ts:18-33 | data exactly on a 2xx reply with a parsable body, and then the body; 404 gives "User not found."; another failing status gives the body's message or the fallback; an exception gives the unexpected-error text; errors are never empty |
| GitHub.GetRepoContents | src/actions/github.ts:35-47 | as above with no 404 case and the contents fallback |
| GitHub.SearchRepositories | src/actions/github.ts:49-61 | as above with the search fallback, and the data is the body's `items`, not the body |
| GitHub.ContentsNotFoundIsOrdinary | src/actions/github.ts:38-41 | a 404 from the contents endpoint is reported like any other failing status |
| Js.Or | src/actions/github.ts:26 | the logical-or of two strings is one of them, and is non-empty when the fallback is |
| Js.TrimEmptyIffBlank | src/app/qa/page.tsx:116 | `trim()` is empty exactly when every character is JavaScript whitespace |
| Js.LexLeTotal | src/app/docs/page.tsx:115 | the name order used for `localeCompare` is total |
| Js.LexLeTransitive | src/app/docs/page.tsx:115 | the name order used for `localeCompare` is transitive |
| RepoList.Bucket | src/components/landing/RepoList.tsx:20-44 | the unit is the first whose length is strictly exceeded (each range stated both ways); the count is the floor of seconds over the unit; at least 1 outside seconds; at most 12 months, 30 days, 24 hours, 60 minutes |
| RepoList.TimeAgo | src/components/landing/RepoList.tsx:20-44 | the label is the bucket's count in digits, then a space, the unit word and " ago" |
| RepoList.SixtySeconds | src/components/landing/RepoList.tsx:39-43 | exactly one minute reads "60 seconds ago" |
| RepoList.SixtyMinutes | src/components/landing/RepoList.tsx:35-41 | exactly one hour reads "60 minutes ago" |
| RepoList.FutureDateInSeconds | src/components/landing/RepoList.tsx:22-43 | a negative elapsed time stays in seconds and prints with its minus sign |
| RepoUrl.StripTrailingSlash | src/app/docs/page.tsx:70 | one trailing slash is removed exactly when the URL ends in one; otherwise the URL is unchanged |
| RepoUrl.ParseRepoUrl | src/app/docs/page.tsx:70-76 | a parse that succeeds gives a non-empty, slash-free owner and name |
| RepoUrl.ParseRepoUrlSound | src/app/docs/page.tsx:70-76 | a successful parse returns two non-empty, slash-free segments that end the URL (after one trailing slash at most), preceded by nothing or by a slash |
| RepoUrl.ParseRepoUrlComplete | src/app/qa/page.tsx:48-54 | any URL ending in `owner/name`, with or without one trailing slash, parses to that owner and name |
| Docs.FromEntries | src/app/docs/page.tsx:106-110 | one record per entry, in order, each built from its entry |
| Docs.BeforeTotal | src/app/docs/page.tsx:111-115 | the listing comparator orders any two records one way or the other |
| Docs.BeforeTransitive | src/app/docs/page.tsx:111-115 | the listing comparator is transitive |
| Docs.InsertSorted | src/app/docs/page.tsx:111-115 | inserting into a sorted listing keeps it sorted |
| Docs.SortListing | src/app/docs/page.tsx:111-115 | the sort returns a permutation of its input with directories first and names in order |
| Docs.RootListing | src/app/docs/page.tsx:106-117 | the stored listing has one record per fetched entry (as a multiset), is sorted and normalised, and holds only records built from fetched entries |
| Docs.Merge | src/app/docs/page.tsx:152 | the spread keeps name, path, kind and children and takes each patched field from the patch when it is given, else from the record |
| Docs.UpdateFile | src/app/docs/page.tsx:150-156 | the node keeps its name, path and kind; the matching node is merged with the patch; a non-matching leaf is unchanged |
| Docs.UpdateFiles | src/app/docs/page.tsx:148-158 | a patch keeps the number of top-level nodes |
| Docs.UpdatePreservesShape | src/app/docs/page.tsx:148-158 | a patch changes no name, path, kind or child structure anywhere in the tree |
| Docs.UpdateNoMatch | src/app/docs/page.tsx:148-158 | a path found nowhere in the tree leaves it unchanged |
| Docs.UpdateTopLevel | src/app/docs/page.tsx:150-156 | a matching node gets the patch merged over its fields and is not descended into; any other node keeps its fields and has only its children patched |
| Docs.UpdatePreservesListing | src/app/docs/page.tsx:146-161 | patching keeps the listing sorted and normalised |
| Docs.FinishPatch | src/app/docs/page.tsx:168-185 | the finishing patch always clears generating and sets documentation; it caches content exactly when there was non-empty content and the flow returned, and then carries that content and the flow's text |
| Docs.AfterRepoUrl | src/app/docs/page.tsx:69-98 | the URL handler leaves repositories, loading and files alone; any error it sets is "Invalid GitHub URL" or the details failure; an unparsable URL selects nothing; a failing details status sets exactly the details-failure text; a thrown request or unparsable body changes nothing; other changes happen only for a fetched record, which is selected in the documentation view |
| Docs.FinishPatchOutcome | src/app/docs/page.tsx:168-185 | generation always ends not generating, with the flow's documentation, or the failure text when there was no content or the flow threw |
| Docs.InvalidRepoUrl | src/app/docs/page.tsx:70-77 | an unparsable URL sets "Invalid GitHub URL", changes nothing else, and requests nothing |
| Docs.DocsPage.constructor | src/app/docs/page.tsx:31-37 | the page starts empty, in the initial view, not loading |
| Docs.DocsPage.Mount | src/app/docs/page.tsx:39-46 | a truthy `repoUrl` runs the URL handler and returns its requests; otherwise a truthy username only sets the initial view and nothing is requested |
| Docs.DocsPage.HandleReposFetched | src/app/docs/page.tsx:49-57 | stores the repositories and stops loading; a non-empty list shows them, an empty one sets the no-repositories error and keeps the view |
| Docs.DocsPage.HandleLoading | src/app/docs/page.tsx:59-62 | sets loading and clears the error |
| Docs.DocsPage.HandleError | src/app/docs/page.tsx:64-67 | sets the error and stops loading |
| Docs.DocsPage.HandleRepoUrl | src/app/docs/page.tsx:69-104 | URL rejected: error; details request failing: error; details fetched: repository selected and the documentation view shown; a thrown request or unparsable body changes nothing; the requests are the details URL of the parsed owner and name, and the root-contents URL of the fetched record exactly when one was fetched |
| Docs.DocsPage.BeginRepoSelected | src/app/docs/page.tsx:100-104 | selects the repository, shows the documentation view, starts loading, and requests its root contents |
| Docs.DocsPage.FinishRepoSelected | src/app/docs/page.tsx:104-121 | data: the sorted, normalised root listing is stored; error: the error or the files fallback is shown; loading ends on both; a rejected call changes nothing, so `loadingDocs` stays on |
| Docs.DocsPage.HandleBackToSearch | src/app/docs/page.tsx:123-127 | initial view, no repositories, no error |
| Docs.DocsPage.HandleBackToRepos | src/app/docs/page.tsx:129-132 | back to the list when there is one, else initial; the tree is dropped |
| Docs.DocsPage.FetchFileContent | src/app/docs/page.tsx:134-144 | no repository: nothing; cached content: returned without a request; otherwise the file's contents request, a rejection when that call rejects, and the decoded text when the reply carries non-empty content |
| Docs.DocsPage.UpdateFileState | src/app/docs/page.tsx:146-161 | the tree becomes the patched tree, and stays a well-formed listing |
| Docs.DocsPage.StartGenerateDoc | src/app/docs/page.tsx:163-167 | starts exactly when the file has no documentation and is not generating, and then marks that path as generating |
| Docs.DocsPage.FinishGenerateDoc | src/app/docs/page.tsx:168-185 | applies the finishing patch for the content and flow outcomes to that path |
| Suggest.GetRepoDetails | src/app/suggest/page.tsx:37-59 | a record exactly on a 2xx reply with a parsable body, copied from it; otherwise none |
| Suggest.LookUpAll | src/app/suggest/page.tsx:89-94 | one lookup per proposal, in order, paired with the proposal's reason |
| Suggest.KeepFound | src/app/suggest/page.tsx:96 | the filter keeps at most every entry, all of them when every lookup found a record, and none when none did |
| Suggest.KeepFoundMembers | src/app/suggest/page.tsx:96 | a suggestion survives the filter exactly when some lookup found that record under that reason |
| Suggest.KeepFoundConcat | src/app/suggest/page.tsx:96 | the filter works entry by entry, so duplicates are kept |
| Suggest.InsertByStarsRanked | src/app/suggest/page.tsx:99 | inserting into a list ranked by stars keeps it ranked |
| Suggest.RankByStars | src/app/suggest/page.tsx:99 | the sort returns a permutation ranked by star count, highest first |
| Suggest.RankByStarsStable | src/app/suggest/page.tsx:99 | suggestions with equal star counts keep their order |
| Suggest.Reconcile | src/app/suggest/page.tsx:89-101 | the shown list is ranked, is a permutation of the found suggestions, and keeps lookup order among equal counts |
| Suggest.Submit | src/app/suggest/page.tsx:77-103 | a throwing flow or a missing `similar_repositories` fails; an empty list without `keywords` fails (reading its `length` throws); an empty list with empty keywords shows nothing; a non-empty list shows exactly the reconciled lookups of the proposals, whatever `keywords` holds; the early exit needs an empty list and some keywords; the suggestions shown are never more than the proposals |
| Suggest.EarlyExit | src/app/suggest/page.tsx:80-87 | no proposals and some keywords stop the handler before any lookup |
| Suggest.ShownWereFound | src/app/suggest/page.tsx:89-101 | every shown suggestion was proposed with that reason and its lookup returned that record |
| Suggest.SubmitAsWrittenAlwaysFails | src/app/suggest/page.tsx:78-80 | with the flow's declared output, every successful flow call ends in the failure branch |
| Suggest.Proposals | src/ai/flows/suggest-similar-repos.ts:13-16 | one proposal per flow suggestion, named by its full name, with its reason |
| Suggest.SubmitFromFlow | src/ai/flows/suggest-similar-repos.ts:25-27 | read by its declared fields, the flow's output leads to the reconciled suggestions, each traceable to a flow suggestion whose full name was found |
| Suggest.SuggestPage.constructor | src/app/suggest/page.tsx:62-63 | no suggestions, not loading |
| Suggest.SuggestPage.BeginSubmit | src/app/suggest/page.tsx:73-75 | loading, previous suggestions cleared |
| Suggest.SuggestPage.FinishSubmit | src/app/suggest/page.tsx:77-112 | the reconciled list is shown when the handler gets that far; loading ends on every path |
| Qa.AfterRepoUrl | src/app/qa/page.tsx:47-75 | the chat view is only entered with a repository selected; repositories, loading and the transcript are untouched; a failing details status sets exactly the details-failure text; a thrown request or unparsable body changes nothing; a fetched record is selected in the chat view |
| Qa.RepoUrlSelects | src/app/qa/page.tsx:47-75 | the selected repository changes only to a record fetched for a parsable URL; an unparsable URL only sets the error |
| Qa.RoundKeepsAlternating | src/app/qa/page.tsx:118-131 | appending a question and its reply keeps a transcript alternating between user and bot |
| Qa.BotReply | src/app/qa/page.tsx:124-131 | the reply is the flow's answer, or the apology when the flow throws |
| Qa.QaPage.constructor | src/app/qa/page.tsx:29-37 | the page starts empty, in the initial view |
| Qa.QaPage.Mount | src/app/qa/page.tsx:39-45 | a truthy `repoUrl` runs the URL handler; otherwise a truthy username only sets the initial view |
| Qa.QaPage.HandleRepoUrl | src/app/qa/page.tsx:47-75 | the new state is the URL handler's outcome and the request is the details URL of the parsed owner and name |
| Qa.QaPage.HandleReposFetched | src/app/qa/page.tsx:77-85 | stores the repositories and stops loading; non-empty shows them, empty sets the no-repositories error |
| Qa.QaPage.HandleLoading | src/app/qa/page.tsx:87-90 | sets loading and clears the error |
| Qa.QaPage.HandleError | src/app/qa/page.tsx:92-95 | sets the error and stops loading |
| Qa.QaPage.HandleRepoSelected | src/app/qa/page.tsx:97-100 | selects the repository and shows the chat |
| Qa.QaPage.HandleBackToSearch | src/app/qa/page.tsx:102-106 | initial view, no repositories, no error |
| Qa.QaPage.HandleBackToRepos | src/app/qa/page.tsx:108-112 | back to the list or initial; transcript and draft cleared; the repository stays selected |
| Qa.QaPage.SetQuestion | src/app/qa/page.tsx:235 | the draft is the typed text |
| Qa.QaPage.BeginAsk | src/app/qa/page.tsx:114-121 | asks exactly when the draft is not blank and a repository is selected; then appends the untrimmed question, clears the draft, starts answering, and sends the repository's URL and the question; otherwise nothing changes |
| Qa.QaPage.FinishAsk | src/app/qa/page.tsx:123-135 | the reply is appended to the transcript captured at asking time; answering ends |
| Qa.AskRound | src/app/qa/page.tsx:114-135 | one uninterleaved round appends exactly the question and its reply and keeps the transcript alternating |
| Dashboard.ParsePathname | src/app/dashboard/page.tsx:44-46 | a parse that succeeds gives a non-empty, slash-free owner and name |
| Dashboard.ParsePathnameSound | src/app/dashboard/page.tsx:43-50 | a successful parse read the first two path segments, non-empty and slash-free, followed by nothing or a slash |
| Dashboard.ParsePathnameComplete | src/app/dashboard/page.tsx:44-46 | any path `/owner/name`, optionally followed by more segments, parses to that owner and name |
| Dashboard.AddIfNew | src/app/dashboard/page.tsx:76-78 | a record whose id is listed leaves the list alone; otherwise it is prepended |
| Dashboard.AddIfNewKeepsDistinct | src/app/dashboard/page.tsx:76-78 | adding keeps ids distinct, and the id is listed afterwards |
| Dashboard.AddIfNewIdempotent | src/app/dashboard/page.tsx:76-78 | adding the same record twice is adding it once |
| Dashboard.AfterRepoAdded | src/app/dashboard/page.tsx:41-83 | the list changes only by prepending a fetched record; a changed error is a non-empty message; a URL the constructor rejects shows its message or the fallback; missing owner or name shows exactly "Invalid GitHub URL"; a failing details status shows exactly the details-failure text; a fetched record is added unless listed and the dialog closes |
| Dashboard.DialogClosesOnSuccess | src/app/dashboard/page.tsx:79 | the dialog closes exactly when a record was fetched, new or not |
| Dashboard.DashboardPage.constructor | src/app/dashboard/page.tsx:18-21 | the page starts loading, with no repositories and no error |
| Dashboard.DashboardPage.BeginLoad | src/app/dashboard/page.tsx:23-38 | a truthy username starts loading and requests its repositories; otherwise loading stops with the no-username error |
| Dashboard.DashboardPage.FinishLoad | src/app/dashboard/page.tsx:26-34 | a non-empty error is shown, or the data stored; an empty error, like a rejected call, changes nothing but `loading`; loading ends on every path |
| Dashboard.DashboardPage.HandleRepoAdded | src/app/dashboard/page.tsx:41-83 | the new state is the add handler's outcome for the URL and the details reply; the request is the details URL of the first two path segments |
| Dashboard.DashboardPage.SetDialogOpen | src/app/dashboard/page.tsx:92 | the dialog's open state is the given one |
| DashboardSidebar.IsActive | src/components/dashboard/DashboardSidebar.tsx:29 | an active link's href is a prefix of the pathname; Home is active exactly on `/dashboard` |
| DashboardSidebar.HomeActive | src/components/dashboard/DashboardSidebar.tsx:29 | Home is active exactly on `/dashboard` itself |
| DashboardSidebar.OtherActive | src/components/dashboard/DashboardSidebar.tsx:29 | any other link is active exactly when the pathname starts with its href |
| DashboardSidebar.QaActiveOnLongerSegment | src/components/dashboard/DashboardSidebar.tsx:15 | the match is a raw prefix: the Q&A link is active on `/dashboard/qaz` |
| DashboardSidebar.HrefsUnderHome | src/components/dashboard/DashboardSidebar.tsx:9-16 | every href starts with `/dashboard` |
| DashboardSidebar.NoMatchOutside | src/components/dashboard/DashboardSidebar.tsx:9-16 | a pathname outside `/dashboard` activates no link |
| DashboardSidebar.DistinctSegments | src/components/dashboard/DashboardSidebar.tsx:11-15 | the non-Home hrefs differ right after `/dashboard/` |
| DashboardSidebar.AtMostOneActive | src/components/dashboard/DashboardSidebar.tsx:9-29 | no pathname activates two links |
| ConnectToGithub.Dispatch | src/components/landing/ConnectToGithub.tsx:37-41 | a non-empty error calls `onError` with it; data calls `onReposFetched`; an empty error calls neither |
| ConnectToGithub.FetchEffects | src/components/landing/ConnectToGithub.tsx:29-43 | an empty username gives only the error; otherwise loading on, the save and the request come first; a settled call ends with loading off, a rejected call ends at the request |
| ConnectToGithub.EmptyUsername | src/components/landing/ConnectToGithub.tsx:30-33 | an empty username only reports the error: no loading callback, no save, no request |
| ConnectToGithub.NonEmptyUsername | src/components/landing/ConnectToGithub.tsx:34-42 | `onLoading(true)` first, the save before the request; on a settled call `onLoading(false)` last and nowhere else; on a rejected call never |
| ConnectToGithub.ResultDispatch | src/components/landing/ConnectToGithub.tsx:36-41 | a rejected call reports only `onLoading(true)`; an error result reports the error and never repositories; a data result the repositories and no error; an empty error only the loading callbacks |
| ConnectToGithub.ConnectForm.constructor | src/components/landing/ConnectToGithub.tsx:18-19 | empty username, not yet on the client, nothing done |
| ConnectToGithub.ConnectForm.Mount | src/components/landing/ConnectToGithub.tsx:21-27 | on the client; the saved username, when truthy, becomes the input |
| ConnectToGithub.ConnectForm.SetUsername | src/components/landing/ConnectToGithub.tsx:57 | the input is the typed text |
| ConnectToGithub.ConnectForm.HandleFetch | src/components/landing/ConnectToGithub.tsx:29-43 | the form's effects are extended by the fetch's effects for the way the call ended, and a non-empty username is saved before the call |
| ConnectToGithub.SaveThenRestore | src/components/landing/ConnectToGithub.tsx:21-35 | a username saved by a fetch is restored by the next mount |
| Hero.ReposFetched | src/components/landing/Hero.tsx:15-23 | repositories stored, loading off; non-empty shows them and keeps the error; empty keeps the view and sets the no-repositories error |
| Hero.LoadingChanged | src/components/landing/Hero.tsx:25-28 | loading set, error cleared, nothing else changed |
| Hero.Failed | src/components/landing/Hero.tsx:30-33 | error set, loading off, nothing else changed |
| Hero.Back | src/components/landing/Hero.tsx:35-39 | initial view, no repositories, no error |
| Hero.FetchErasesErrors | src/components/landing/Hero.tsx:25-28 | after the form's fetch with a non-empty username no error remains, however the call ended; when it settled, loading is off, and with data the repositories are stored and shown when non-empty; when it rejected, loading stays on and nothing else changes |
| Hero.Apply | src/components/landing/Hero.tsx:58-62 | an effect that is no callback leaves the section alone; only `onReposFetched` changes repositories or view; `onLoading` sets loading and clears the error |
| Hero.Run | src/components/landing/Hero.tsx:58-62 | a trace with no callback leaves the section alone; one without `onReposFetched` keeps repositories and view |
| Hero.EmptyUsernameShown | src/components/landing/ConnectToGithub.tsx:30-33 | with an empty username the form's error is what the section shows |
| Hero.HeroSection.constructor | src/components/landing/Hero.tsx:10-13 | empty, not loading, no error, initial view |
| Hero.HeroSection.HandleReposFetched | src/components/landing/Hero.tsx:15-23 | the new state is `ReposFetched` of the old |
| Hero.HeroSection.HandleLoading | src/components/landing/Hero.tsx:25-28 | the new state is `LoadingChanged` of the old |
| Hero.HeroSection.HandleError | src/components/landing/Hero.tsx:30-33 | the new state is `Failed` of the old |
| Hero.HeroSection.HandleBack | src/components/landing/Hero.tsx:35-39 | the new state is `Back` of the old |
| Analyze.DefaultRepoUrl | src/app/analyze/page.tsx:40-45 | the form default is the query's `repoUrl` when truthy, else empty |
| Analyze.AutoSubmits | src/app/analyze/page.tsx:61-67 | when the page submits on mount, it submits the URL it prefilled the form with |
| Analyze.OnlyExactFlag | src/app/analyze/page.tsx:61-67 | only `analyze=true` exactly, with a URL, submits; "True", "1" or no URL do not |
| Analyze.AnalyzePage.constructor | src/app/analyze/page.tsx:37-45 | the form is prefilled, with no result and not loading |
| Analyze.AnalyzePage.BeginSubmit | src/app/analyze/page.tsx:47-51 | loading, the old result cleared, the form values sent to the flow |
| Analyze.AnalyzePage.FinishSubmit | src/app/analyze/page.tsx:50-58 | the flow's output is shown, a throw leaves no result; loading ends on both paths |
| Analyze.AnalyzePage.Mount | src/app/analyze/page.tsx:61-68 | a truthy `repoUrl` prefills the form; a submit of that URL starts exactly when the auto-submit rule holds; otherwise nothing else changes |

## Left out

- Network and storage: every `fetch`, `response.json()` and `localStorage` call is an input to the step that uses it (a `Response`, a `Call` of an `ApiResult`, or the `saved` field of the username form). The environment token is an `Option` parameter of `GitHub.BuildHeaders`.
- AI flows: their prompts and schemas configure an external model and are not modelled. Each call's result is a `FlowOutcome`, a value or a throw. The flow's declared output schema is used only for the suggestion finding below.
- Concurrency: the `Promise.all` fan-out of the suggestion lookups is a function from name to response. Overlapping submissions, stale closures and out-of-order replies are not modelled. Each handler runs to completion against the state it started from, except that `Qa.QaPage.FinishAsk` appends to the transcript captured when the question was asked, as the code does.
- Library calls: `atob` is an input (`decoded` in `Docs.DocsPage.FetchFileContent`; `None` when it throws). `encodeURIComponent` is left to the caller of `GitHub.SearchUrl`. The `URL` constructor is the input `Dashboard.UrlParse`. zod and react-hook-form validation are not modelled: a submit handler receives the values it was called with.
- Clock and floating point: `timeAgo` takes the elapsed whole seconds. For these magnitudes, the float comparisons against 1 and the floors agree with integer division.
- `localeCompare`: taken as lexicographic order on code points (`Js.LexLe`), since a Dafny `char` is a Unicode scalar value. This differs from UTF-16 code-unit order for characters above U+FFFF. Locale collation is not modelled.
- `localStorage.setItem` throwing (storage full or disabled) is not modelled: `ConnectToGithub.ConnectForm.HandleFetch` assumes the write succeeds. A rejected server-action call is modelled (`Call.Rejected`).
- JSON bodies: a parsed body is `Json(value, message)`, with `message` "" when the property is absent or falsy. A `null` body, where reading `message` throws, and fields of an unexpected type are not modelled. An entry type other than `file` or `dir` (symlink, submodule) is not modelled, and neither is a `description` of `null`.
- Toasts and rendering: the suggestion toasts are the `NoMatches` and `Failed` outcomes of `Suggest.Submit`. JSX, icons and styling are not modelled.
- `Dashboard.DashboardPage.HandleRepoAdded`: modelled as written, although no caller reaches it. The dashboard passes it to `AddRepoForm` (src/app/dashboard/page.tsx:100), which declares no props (src/components/landing/AddRepoForm.tsx:28).
- `Qa.QaPage.BeginAsk`: does not check `isAnswering`. The code does not either. It relies on the input and button being disabled while an answer is pending (src/app/qa/page.tsx:237, 240).
- Presentation components with no logic (features, problem, how-it-works, tech stack, footer, header, layout, repository table) are not part of this model.

## Findings

| source | as written | input that shows it | evidently intended | confidence | as-written member | corrected member |
|---|---|---|---|---|---|---|
| src/app/suggest/page.tsx:80-91 | the page reads `result.similar_repositories`, `result.keywords` and `suggestion.name`, but the flow declares its output as `{ suggestions: [{ fullName, reason }] }` (src/ai/flows/suggest-similar-repos.ts:13-27); `result.similar_repositories.length` throws a TypeError | any successful flow call, for example `{ suggestions: [{ fullName: "a/b", reason: "r" }] }`: the handler ends in the "AI Service Unavailable" branch and shows nothing | read `result.suggestions` and look up each `fullName`; the flow declares no keywords, so the early exit never applies | high (not executed) | Suggest.ReplyAsWritten, Suggest.SubmitAsWrittenAlwaysFails | Suggest.ReplyFromFlow, Suggest.SubmitFromFlow |
