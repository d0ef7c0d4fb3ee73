/**
 * The per-file documentation page (src/app/docs/page.tsx): the root listing of
 * a repository, normalised and sorted directories-first; path-addressed patches
 * of the file tree; and the per-file "generate documentation" state machine.
 *
 * The page's `useState` variables are the fields of `DocsPage`. Each `await`
 * splits an asynchronous handler into a step before it and a step after it;
 * what the awaited call produced is a parameter of the later step.
 */
module Docs {
  import opened Wrappers
  import opened Js
  import opened GitHub
  import opened RepoList
  import opened RepoUrl
  import opened AiFlows

  const NoPublicRepos := "No public repositories found for this user."
  const RepoDetailsFailed := "Could not fetch repository details from GitHub."
  const FilesFallback := "Could not fetch repository files."
  const FailedDocumentation := "Failed to generate documentation."

  datatype Kind = File | Dir

  /** One entry of a directory listing from the contents endpoint (the fields the page reads). */
  datatype ContentEntry = ContentEntry(name: string, path: string, kind: Kind)

  /** The contents endpoint's answer for a file: its base64 text. */
  datatype FileBlob = FileBlob(content: string)

  /** `RepoFile`. An absent optional field is `None`. */
  datatype RepoFile = RepoFile(
    name: string,
    path: string,
    kind: Kind,
    content: Option<string>,
    documentation: Option<string>,
    children: Children,
    isGenerating: Option<bool>)

  /** `children?: RepoFile[]`: absent, or a list of nodes. */
  datatype Children = Absent | Present(nodes: seq<RepoFile>)

  /** The `Partial<RepoFile>` passed to `updateFileState`: a field given here overrides the node's. */
  datatype Patch = Patch(content: Option<string>, documentation: Option<string>, isGenerating: Option<bool>)

  // ---------------------------------------------------------------------------
  // The root listing

  /** The record built for one fetched entry: a directory gets an empty child list. */
  function FromEntry(e: ContentEntry): RepoFile {
    RepoFile(e.name, e.path, e.kind, None, None, if e.kind == Dir then Present([]) else Absent, None)
  }

  function FromEntries(entries: seq<ContentEntry>): (files: seq<RepoFile>)
    ensures |files| == |entries|
    ensures forall i :: 0 <= i < |entries| ==> files[i] == FromEntry(entries[i])
  {
    if entries == [] then [] else [FromEntry(entries[0])] + FromEntries(entries[1..])
  }

  /** Directories carry an empty list of children; files carry none. */
  predicate Normalised(f: RepoFile) {
    (f.kind == Dir ==> f.children == Present([])) && (f.kind == File ==> f.children.Absent?)
  }

  /** The sort comparator returns a non-positive value: directories first, then by name. */
  predicate Before(a: RepoFile, b: RepoFile) {
    (a.kind == Dir && b.kind == File) || (a.kind == b.kind && LexLe(a.name, b.name))
  }

  predicate SortedListing(files: seq<RepoFile>) {
    forall i, j :: 0 <= i < j < |files| ==> Before(files[i], files[j])
  }

  /** What `files` holds on the page: a normalised, sorted listing. */
  predicate WellFormedListing(files: seq<RepoFile>) {
    SortedListing(files) && forall i :: 0 <= i < |files| ==> Normalised(files[i])
  }

  lemma BeforeTotal(a: RepoFile, b: RepoFile)
    ensures Before(a, b) || Before(b, a)
  {
    LexLeTotal(a.name, b.name);
  }

  lemma BeforeTransitive(a: RepoFile, b: RepoFile, c: RepoFile)
    requires Before(a, b) && Before(b, c)
    ensures Before(a, c)
  {
    if a.kind == b.kind && b.kind == c.kind {
      LexLeTransitive(a.name, b.name, c.name);
    }
  }

  /** Insertion of one record into a sorted listing, after the records that sort strictly before it. */
  function Insert(x: RepoFile, files: seq<RepoFile>): (r: seq<RepoFile>)
    ensures multiset(r) == multiset(files) + multiset{x}
  {
    if files == [] then [x]
    else if Before(x, files[0]) then [x] + files
    else
      assert files == [files[0]] + files[1..];
      [files[0]] + Insert(x, files[1..])
  }

  lemma {:induction false} InsertSorted(x: RepoFile, files: seq<RepoFile>)
    requires SortedListing(files)
    ensures SortedListing(Insert(x, files))
  {
    if files == [] {
    } else if Before(x, files[0]) {
      forall j | 0 <= j < |files| ensures Before(x, files[j]) {
        if j > 0 { BeforeTransitive(x, files[0], files[j]); }
      }
    } else {
      var rest := Insert(x, files[1..]);
      InsertSorted(x, files[1..]);
      BeforeTotal(x, files[0]);
      InsertBounded(files[0], x, files[1..]);
      var r := [files[0]] + rest;
      forall i, j | 0 <= i < j < |r| ensures Before(r[i], r[j]) {
        if i > 0 { assert r[i] == rest[i - 1] && r[j] == rest[j - 1]; }
      }
    }
  }

  /** A record that sorts before `x` and before every record of `files` sorts
      before every record of the insertion. */
  lemma {:induction false} InsertBounded(y: RepoFile, x: RepoFile, files: seq<RepoFile>)
    requires Before(y, x)
    requires forall j :: 0 <= j < |files| ==> Before(y, files[j])
    ensures forall j :: 0 <= j < |Insert(x, files)| ==> Before(y, Insert(x, files)[j])
  {
    if files != [] && !Before(x, files[0]) {
      var rest := Insert(x, files[1..]);
      InsertBounded(y, x, files[1..]);
      assert Insert(x, files) == [files[0]] + rest;
    }
  }

  /** `Array.prototype.sort` with the page's comparator. */
  function SortListing(files: seq<RepoFile>): (r: seq<RepoFile>)
    ensures multiset(r) == multiset(files)
    ensures SortedListing(r)
  {
    if files == [] then []
    else
      var rest := SortListing(files[1..]);
      InsertSorted(files[0], rest);
      assert files == [files[0]] + files[1..];
      Insert(files[0], rest)
  }

  /** `handleRepoSelected`'s map-then-sort of a fetched root listing. */
  function RootListing(entries: seq<ContentEntry>): (files: seq<RepoFile>)
    ensures |files| == |entries|
    ensures multiset(files) == multiset(FromEntries(entries))
    ensures WellFormedListing(files)
    ensures forall i :: 0 <= i < |files| ==> exists j :: 0 <= j < |entries| && files[i] == FromEntry(entries[j])
  {
    var files := SortListing(FromEntries(entries));
    assert |files| == |multiset(files)|;
    forall i | 0 <= i < |files| ensures exists j :: 0 <= j < |entries| && files[i] == FromEntry(entries[j]) {
      assert files[i] in multiset(FromEntries(entries));
      var j :| 0 <= j < |entries| && FromEntries(entries)[j] == files[i];
    }
    files
  }

  // ---------------------------------------------------------------------------
  // updateFileState

  /** `{ ...f, ...newProps }` */
  function Merge(f: RepoFile, p: Patch): (r: RepoFile)
    ensures r.name == f.name && r.path == f.path && r.kind == f.kind && r.children == f.children
    ensures r.content == (if p.content.Some? then p.content else f.content)
    ensures r.documentation == (if p.documentation.Some? then p.documentation else f.documentation)
    ensures r.isGenerating == (if p.isGenerating.Some? then p.isGenerating else f.isGenerating)
  {
    f.(content := if p.content.Some? then p.content else f.content,
       documentation := if p.documentation.Some? then p.documentation else f.documentation,
       isGenerating := if p.isGenerating.Some? then p.isGenerating else f.isGenerating)
  }

  /** `updateRecursively` */
  function UpdateFiles(files: seq<RepoFile>, path: string, p: Patch): (r: seq<RepoFile>)
    ensures |r| == |files|
    decreases files
  {
    if files == [] then [] else [UpdateFile(files[0], path, p)] + UpdateFiles(files[1..], path, p)
  }

  /** The callback of `files.map` inside `updateRecursively`. */
  function UpdateFile(f: RepoFile, path: string, p: Patch): (r: RepoFile)
    ensures r.name == f.name && r.path == f.path && r.kind == f.kind
    ensures f.path == path ==> r == Merge(f, p)
    ensures f.path != path && f.children.Absent? ==> r == f
    decreases f
  {
    if f.path == path then Merge(f, p)
    else if f.children.Present? then f.(children := Present(UpdateFiles(f.children.nodes, path, p)))
    else f
  }

  lemma {:induction false} UpdateFilesAt(files: seq<RepoFile>, path: string, p: Patch, i: nat)
    requires i < |files|
    ensures UpdateFiles(files, path, p)[i] == UpdateFile(files[i], path, p)
  {
    if i > 0 { UpdateFilesAt(files[1..], path, p, i - 1); }
  }

  /** A tree with every patchable field cleared: its shape, names, paths and kinds. */
  function Erase(f: RepoFile): RepoFile
    decreases f
  {
    RepoFile(f.name, f.path, f.kind, None, None,
             if f.children.Present? then Present(EraseAll(f.children.nodes)) else Absent, None)
  }

  function EraseAll(files: seq<RepoFile>): seq<RepoFile>
    decreases files
  {
    if files == [] then [] else [Erase(files[0])] + EraseAll(files[1..])
  }

  /** Every path in a tree, at any depth. */
  function PathsOf(files: seq<RepoFile>): set<string>
    decreases files
  {
    if files == [] then {} else PathsOfFile(files[0]) + PathsOf(files[1..])
  }

  function PathsOfFile(f: RepoFile): set<string>
    decreases f
  {
    {f.path} + if f.children.Present? then PathsOf(f.children.nodes) else {}
  }

  /** A patch changes only the patchable fields: the tree keeps its shape and
      the same names, paths and kinds at the same positions. */
  lemma {:induction false} UpdatePreservesShape(files: seq<RepoFile>, path: string, p: Patch)
    ensures EraseAll(UpdateFiles(files, path, p)) == EraseAll(files)
    decreases files
  {
    if files != [] {
      UpdateFilePreservesShape(files[0], path, p);
      UpdatePreservesShape(files[1..], path, p);
    }
  }

  lemma {:induction false} UpdateFilePreservesShape(f: RepoFile, path: string, p: Patch)
    ensures Erase(UpdateFile(f, path, p)) == Erase(f)
    decreases f
  {
    if f.path != path && f.children.Present? {
      UpdatePreservesShape(f.children.nodes, path, p);
    }
  }

  /** A path that matches no node, at any depth, leaves the tree identical. */
  lemma {:induction false} UpdateNoMatch(files: seq<RepoFile>, path: string, p: Patch)
    requires path !in PathsOf(files)
    ensures UpdateFiles(files, path, p) == files
    decreases files
  {
    if files != [] {
      UpdateFileNoMatch(files[0], path, p);
      UpdateNoMatch(files[1..], path, p);
    }
  }

  lemma {:induction false} UpdateFileNoMatch(f: RepoFile, path: string, p: Patch)
    requires path !in PathsOfFile(f)
    ensures UpdateFile(f, path, p) == f
    decreases f
  {
    if f.children.Present? {
      UpdateNoMatch(f.children.nodes, path, p);
    }
  }

  /** At the top level: a node whose path is the target gets the patch merged in
      and keeps its children as they were (they are not descended into); any other
      node keeps its own fields, and only its children are updated. */
  lemma UpdateTopLevel(files: seq<RepoFile>, path: string, p: Patch, i: nat)
    requires i < |files|
    ensures var r := UpdateFiles(files, path, p)[i];
      r.name == files[i].name && r.path == files[i].path && r.kind == files[i].kind &&
      (files[i].path == path ==> r == Merge(files[i], p) && r.children == files[i].children) &&
      (files[i].path != path ==>
         r.content == files[i].content && r.documentation == files[i].documentation &&
         r.isGenerating == files[i].isGenerating &&
         r.children == if files[i].children.Present? then Present(UpdateFiles(files[i].children.nodes, path, p)) else Absent)
  {
    UpdateFilesAt(files, path, p, i);
  }

  /** Patching keeps the page's listing normalised and sorted. */
  lemma UpdatePreservesListing(files: seq<RepoFile>, path: string, p: Patch)
    requires WellFormedListing(files)
    ensures WellFormedListing(UpdateFiles(files, path, p))
  {
    var r := UpdateFiles(files, path, p);
    forall i | 0 <= i < |r| ensures r[i].name == files[i].name && r[i].kind == files[i].kind && Normalised(r[i]) {
      UpdateTopLevel(files, path, p, i);
    }
  }

  // ---------------------------------------------------------------------------
  // handleGenerateDoc

  /** `file.documentation` is truthy. */
  predicate HasDocumentation(f: RepoFile) {
    Truthy(f.documentation)
  }

  /** `file.isGenerating` is truthy. */
  predicate IsGenerating(f: RepoFile) {
    f.isGenerating == Some(true)
  }

  /** What `fetchAndSetFileContent` settles to: `null`, a string, or a rejection (a rejected contents call or a throwing `atob`). */
  datatype ContentOutcome = NoContent | Content(text: string) | Raised

  const GeneratingPatch := Patch(None, None, Some(true))

  /** The patch applied when generation ends: the documentation with the content
      cached, or the failure text when there was no content or the flow threw. */
  function FinishPatch(content: ContentOutcome, documentation: FlowOutcome<string>): (r: Patch)
    ensures r.isGenerating == Some(false) && r.documentation.Some?
    ensures r.content.Some? <==> content.Content? && content.text != "" && documentation.Returned?
    ensures r.content.Some? ==> r.content == Some(content.text) && r.documentation == Some(documentation.output)
  {
    if content.Content? && content.text != "" && documentation.Returned?
    then Patch(Some(content.text), Some(documentation.output), Some(false))
    else Patch(None, Some(FailedDocumentation), Some(false))
  }

  /** Generation always ends not generating, with the flow's documentation or the failure text. */
  lemma FinishPatchOutcome(content: ContentOutcome, documentation: FlowOutcome<string>)
    ensures FinishPatch(content, documentation).isGenerating == Some(false)
    ensures FinishPatch(content, documentation).documentation ==
            Some(if content.Content? && content.text != "" && documentation.Returned?
                 then documentation.output else FailedDocumentation)
  {
  }

  // ---------------------------------------------------------------------------
  // The page

  datatype View = Initial | Repos | Docs

  datatype DocsState = DocsState(
    selectedRepo: Option<GithubRepo>,
    repos: seq<GithubRepo>,
    loading: bool,
    error: Option<string>,
    view: View,
    files: seq<RepoFile>,
    loadingDocs: bool)

  /** The state right after `handleRepoSelected(repo)` starts, before its fetch. */
  function Selecting(s: DocsState, repo: GithubRepo): DocsState {
    s.(selectedRepo := Some(repo), view := Docs, loadingDocs := true)
  }

  /** `handleRepoUrl(url)` up to the call of `handleRepoSelected`, given the
      answer to the repository-details request. A rejected request or an
      unparsable body ends the handler with an unhandled rejection. */
  function AfterRepoUrl(s: DocsState, url: string, lookup: Response<GithubRepo>): (r: DocsState)
    ensures r.repos == s.repos && r.loading == s.loading && r.files == s.files
    ensures r.error == s.error || r.error == Some(InvalidUrl) || r.error == Some(RepoDetailsFailed)
    ensures ParseRepoUrl(url).None? ==> r.selectedRepo == s.selectedRepo && r.view == s.view
    ensures ParseRepoUrl(url).Some? && lookup.Reply? && !IsOk(lookup.status) ==>
              r == s.(error := Some(RepoDetailsFailed))
    ensures ParseRepoUrl(url).Some? && (lookup.Threw? || (IsOk(lookup.status) && lookup.body.Malformed?)) ==> r == s
    ensures r.error == s.error && r != s ==>
              lookup.Reply? && IsOk(lookup.status) && lookup.body.Json? && r == Selecting(s, lookup.body.value)
  {
    match ParseRepoUrl(url)
    case None => s.(error := Some(InvalidUrl))
    case Some(_) =>
      match lookup
      case Threw(_) => s
      case Reply(status, body) =>
        if !IsOk(status) then s.(error := Some(RepoDetailsFailed))
        else if body.Json? then Selecting(s, body.value)
        else s
  }

  /** An invalid URL sets the error and nothing else, and nothing is fetched. */
  lemma InvalidRepoUrl(s: DocsState, url: string, lookup: Response<GithubRepo>)
    requires ParseRepoUrl(url).None?
    ensures AfterRepoUrl(s, url, lookup) == s.(error := Some(InvalidUrl))
    ensures RepoDetailsRequest(url).None?
  {
  }

  class DocsPage {
    var selectedRepo: Option<GithubRepo>
    var repos: seq<GithubRepo>
    var loading: bool
    var error: Option<string>
    var view: View
    var files: seq<RepoFile>
    var loadingDocs: bool

    function Snapshot(): DocsState
      reads this
    {
      DocsState(selectedRepo, repos, loading, error, view, files, loadingDocs)
    }

    ghost predicate Valid()
      reads this
    {
      WellFormedListing(files) && (view == Docs ==> selectedRepo.Some?)
    }

    constructor ()
      ensures Valid()
      ensures Snapshot() == DocsState(None, [], false, None, Initial, [], false)
    {
      selectedRepo, repos, loading, error := None, [], false, None;
      view, files, loadingDocs := Initial, [], false;
    }

    /** The mount effect, for the `repoUrl` and `username` query values; returns
        the requests `handleRepoUrl` makes. */
    method Mount(repoUrlFromQuery: Option<string>, username: Option<string>, lookup: Response<GithubRepo>)
      returns (request: Option<string>, contents: Option<string>)
      requires Valid()
      modifies this
      ensures Valid()
      ensures Truthy(repoUrlFromQuery) ==>
                Snapshot() == AfterRepoUrl(old(Snapshot()), repoUrlFromQuery.value, lookup) &&
                request == RepoDetailsRequest(repoUrlFromQuery.value)
      ensures !Truthy(repoUrlFromQuery) ==>
                Snapshot() == old(Snapshot()).(view := if Truthy(username) then Initial else old(view)) &&
                request.None?
      ensures contents.Some? <==> Truthy(repoUrlFromQuery) && ParseRepoUrl(repoUrlFromQuery.value).Some? &&
                                  lookup.Reply? && IsOk(lookup.status) && lookup.body.Json?
      ensures contents.Some? ==> contents.value == ContentsUrl(lookup.body.value.full_name)
    {
      contents := None;
      if Truthy(repoUrlFromQuery) {
        request, contents := HandleRepoUrl(repoUrlFromQuery.value, lookup);
      } else {
        if Truthy(username) {
          view := Initial;
        }
        request := None;
      }
    }

    method HandleReposFetched(fetched: seq<GithubRepo>)
      requires Valid()
      modifies this
      ensures Valid()
      ensures Snapshot() == old(Snapshot()).(
                repos := fetched,
                loading := false,
                view := if |fetched| > 0 then Repos else old(view),
                error := if |fetched| > 0 then old(error) else Some(NoPublicRepos))
    {
      repos := fetched;
      loading := false;
      if |fetched| > 0 {
        view := Repos;
      } else {
        error := Some(NoPublicRepos);
      }
    }

    method HandleLoading(isLoading: bool)
      requires Valid()
      modifies this
      ensures Valid()
      ensures Snapshot() == old(Snapshot()).(loading := isLoading, error := None)
    {
      loading := isLoading;
      error := None;
    }

    method HandleError(message: string)
      requires Valid()
      modifies this
      ensures Valid()
      ensures Snapshot() == old(Snapshot()).(error := Some(message), loading := false)
    {
      error := Some(message);
      loading := false;
    }

    /** `handleRepoUrl`: returns the repository-details request it makes, if any,
        and the root-contents request of the `handleRepoSelected` call it starts
        without awaiting, if it gets that far; `FinishRepoSelected` completes that call. */
    method HandleRepoUrl(url: string, lookup: Response<GithubRepo>) returns (request: Option<string>, contents: Option<string>)
      requires Valid()
      modifies this
      ensures Valid()
      ensures Snapshot() == AfterRepoUrl(old(Snapshot()), url, lookup)
      ensures request == RepoDetailsRequest(url)
      ensures contents.Some? <==> ParseRepoUrl(url).Some? && lookup.Reply? && IsOk(lookup.status) && lookup.body.Json?
      ensures contents.Some? ==> contents.value == ContentsUrl(lookup.body.value.full_name)
    {
      contents := None;
      var ref := ParseRepoUrl(url);
      if ref.None? {
        error := Some(InvalidUrl);
        request := None;
        return;
      }
      request := Some(ApiUrl + "/repos/" + FullName(ref.value));
      if lookup.Threw? {
        return;
      }
      if !IsOk(lookup.status) {
        error := Some(RepoDetailsFailed);
        return;
      }
      if lookup.body.Json? {
        var started := BeginRepoSelected(lookup.body.value);
        contents := Some(started);
      }
    }

    /** `handleRepoSelected` up to its fetch; returns the contents request. */
    method BeginRepoSelected(repo: GithubRepo) returns (request: string)
      requires Valid()
      modifies this
      ensures Valid()
      ensures Snapshot() == Selecting(old(Snapshot()), repo)
      ensures request == ContentsUrl(repo.full_name)
    {
      selectedRepo := Some(repo);
      view := Docs;
      loadingDocs := true;
      request := ContentsUrl(repo.full_name);
    }

    /** `handleRepoSelected` once its call of `getRepoContents` ended. A rejected
        call ends the handler at its `await`: `loadingDocs` stays on. */
    method FinishRepoSelected(call: Call<ApiResult<seq<ContentEntry>>>)
      requires Valid()
      modifies this
      ensures Valid()
      ensures call.Settled? && call.result.Data? ==>
                Snapshot() == old(Snapshot()).(files := RootListing(call.result.data), loadingDocs := false)
      ensures call.Settled? && call.result.Error? ==>
                Snapshot() == old(Snapshot()).(error := Some(Or(call.result.error, FilesFallback)), loadingDocs := false)
      ensures call.Rejected? ==> Snapshot() == old(Snapshot())
    {
      if call.Rejected? {
        return;
      }
      if call.result.Data? {
        files := RootListing(call.result.data);
      } else {
        error := Some(Or(call.result.error, FilesFallback));
      }
      loadingDocs := false;
    }

    method HandleBackToSearch()
      requires Valid()
      modifies this
      ensures Valid()
      ensures Snapshot() == old(Snapshot()).(view := Initial, repos := [], error := None)
    {
      view := Initial;
      repos := [];
      error := None;
    }

    method HandleBackToRepos()
      requires Valid()
      modifies this
      ensures Valid()
      ensures Snapshot() == old(Snapshot()).(view := if |old(repos)| > 0 then Repos else Initial, files := [])
    {
      view := if |repos| > 0 then Repos else Initial;
      files := [];
    }

    /** `fetchAndSetFileContent(file)`: `remote` is how the contents call for the
        file would end and `decoded` what `atob` makes of its content (`None`:
        it throws). Returns the content outcome and the request made, if any. */
    method FetchFileContent(file: RepoFile, remote: Call<ApiResult<FileBlob>>, decoded: Option<string>)
      returns (outcome: ContentOutcome, request: Option<string>)
      ensures selectedRepo.None? ==> outcome == NoContent && request.None?
      ensures selectedRepo.Some? && Truthy(file.content) ==> outcome == Content(file.content.value) && request.None?
      ensures selectedRepo.Some? && !Truthy(file.content) ==>
                request == Some(ContentsUrl(selectedRepo.value.full_name, file.path)) &&
                outcome == if remote.Rejected? then Raised
                           else if remote.result.Data? && remote.result.data.content != ""
                           then (if decoded.Some? then Content(decoded.value) else Raised)
                           else NoContent
    {
      request := None;
      if selectedRepo.None? {
        return NoContent, None;
      }
      if Truthy(file.content) {
        return Content(file.content.value), None;
      }
      request := Some(ContentsUrl(selectedRepo.value.full_name, file.path));
      if remote.Rejected? {
        outcome := Raised;
      } else if remote.result.Data? && remote.result.data.content != "" {
        outcome := if decoded.Some? then Content(decoded.value) else Raised;
      } else {
        outcome := NoContent;
      }
    }

    method UpdateFileState(path: string, p: Patch)
      requires Valid()
      modifies this`files
      ensures Valid()
      ensures files == UpdateFiles(old(files), path, p)
    {
      UpdatePreservesListing(files, path, p);
      files := UpdateFiles(files, path, p);
    }

    /** `handleGenerateDoc(file)` up to its first `await`: nothing happens when the
        file already has documentation or is being generated; otherwise the node
        is marked as generating. */
    method StartGenerateDoc(file: RepoFile) returns (started: bool)
      requires Valid()
      modifies this`files
      ensures Valid()
      ensures started <==> !HasDocumentation(file) && !IsGenerating(file)
      ensures files == if started then UpdateFiles(old(files), file.path, GeneratingPatch) else old(files)
    {
      if HasDocumentation(file) || IsGenerating(file) {
        return false;
      }
      UpdateFileState(file.path, GeneratingPatch);
      started := true;
    }

    /** `handleGenerateDoc(file)` after the content fetch settled with `content` and,
        when there was content, the documentation flow with `documentation`. */
    method FinishGenerateDoc(file: RepoFile, content: ContentOutcome, documentation: FlowOutcome<string>)
      requires Valid()
      modifies this`files
      ensures Valid()
      ensures files == UpdateFiles(old(files), file.path, FinishPatch(content, documentation))
    {
      if content.Content? && content.text != "" && documentation.Returned? {
        UpdateFileState(file.path, Patch(Some(content.text), Some(documentation.output), Some(false)));
      } else {
        UpdateFileState(file.path, Patch(None, Some(FailedDocumentation), Some(false)));
      }
    }
  }
}
