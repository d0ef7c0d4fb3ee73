/**
 * The similar-repository page (src/app/suggest/page.tsx): each name the
 * suggestion flow proposes is looked up; failed lookups are dropped and the
 * rest are ranked by star count, highest first.
 *
 * The lookups run concurrently in the source (`Promise.all`); here they are a
 * function from the requested name to the response it received.
 */
module Suggest {
  import opened Wrappers
  import opened GitHub
  import opened RepoList
  import opened AiFlows

  datatype RepoDetails = RepoDetails(
    id: int,
    name: string,
    full_name: string,
    description: string,
    html_url: string,
    stargazers_count: int,
    forks_count: int,
    language: string)

  datatype Suggestion = Suggestion(details: RepoDetails, reason: string)

  /** One entry of `similar_repositories` as the page reads it. */
  datatype Proposal = Proposal(name: string, reason: string)

  /** One element of `detailedSuggestions`: the lookup's result and the proposal's reason. */
  datatype Looked = Looked(details: Option<RepoDetails>, reason: string)

  /** The record `getRepoDetails` copies out of the response body. */
  function DetailsOf(g: GithubRepo): RepoDetails {
    RepoDetails(g.id, g.name, g.full_name, g.description, g.html_url, g.stargazers_count, g.forks_count, g.language)
  }

  /** `getRepoDetails`: `null` on a non-2xx status or on any exception. */
  function GetRepoDetails(response: Response<GithubRepo>): (r: Option<RepoDetails>)
    ensures r.Some? <==> response.Reply? && IsOk(response.status) && response.body.Json?
    ensures r.Some? ==> r.value == DetailsOf(response.body.value)
  {
    match response
    case Threw(_) => None
    case Reply(status, body) =>
      if !IsOk(status) then None
      else if body.Malformed? then None
      else Some(DetailsOf(body.value))
  }

  /** `similar_repositories.map(...)` under `Promise.all`. */
  function LookUpAll(similar: seq<Proposal>, lookup: string -> Response<GithubRepo>): (r: seq<Looked>)
    ensures |r| == |similar|
    ensures forall i :: 0 <= i < |similar| ==>
              r[i] == Looked(GetRepoDetails(lookup(similar[i].name)), similar[i].reason)
  {
    if similar == [] then []
    else [Looked(GetRepoDetails(lookup(similar[0].name)), similar[0].reason)] + LookUpAll(similar[1..], lookup)
  }

  /** `detailedSuggestions.filter(s => s.details !== null)` */
  function KeepFound(looked: seq<Looked>): (r: seq<Suggestion>)
    ensures |r| <= |looked|
    ensures (forall i :: 0 <= i < |looked| ==> looked[i].details.Some?) ==> |r| == |looked|
    ensures (forall i :: 0 <= i < |looked| ==> looked[i].details.None?) ==> r == []
  {
    if looked == [] then []
    else if looked[0].details.Some? then [Suggestion(looked[0].details.value, looked[0].reason)] + KeepFound(looked[1..])
    else KeepFound(looked[1..])
  }

  /** Exactly the entries whose lookup returned a record survive, each with its own reason. */
  lemma {:induction false} KeepFoundMembers(looked: seq<Looked>, s: Suggestion)
    ensures s in KeepFound(looked) <==> exists i :: 0 <= i < |looked| && looked[i] == Looked(Some(s.details), s.reason)
  {
    if looked != [] {
      KeepFoundMembers(looked[1..], s);
      if s in KeepFound(looked[1..]) {
        var i :| 0 <= i < |looked[1..]| && looked[1..][i] == Looked(Some(s.details), s.reason);
        assert looked[i + 1] == Looked(Some(s.details), s.reason);
      }
      if exists i :: 0 <= i < |looked| && looked[i] == Looked(Some(s.details), s.reason) {
        var i :| 0 <= i < |looked| && looked[i] == Looked(Some(s.details), s.reason);
        if i > 0 { assert looked[1..][i - 1] == looked[i]; }
      }
    }
  }

  /** The filter works entry by entry: nothing is merged, so duplicates survive. */
  lemma {:induction false} KeepFoundConcat(a: seq<Looked>, b: seq<Looked>)
    ensures KeepFound(a + b) == KeepFound(a) + KeepFound(b)
  {
    if a != [] {
      assert (a + b)[0] == a[0];
      assert (a + b)[1..] == a[1..] + b;
      KeepFoundConcat(a[1..], b);
    } else {
      assert a + b == b;
    }
  }

  // ---------------------------------------------------------------------------
  // validSuggestions.sort((a, b) => b.details.stargazers_count - a.details.stargazers_count)

  function Stars(s: Suggestion): int {
    s.details.stargazers_count
  }

  predicate RankedByStars(s: seq<Suggestion>) {
    forall i, j :: 0 <= i < j < |s| ==> Stars(s[i]) >= Stars(s[j])
  }

  /** The suggestions with exactly `k` stars, in order. */
  function WithStars(s: seq<Suggestion>, k: int): seq<Suggestion> {
    if s == [] then []
    else (if Stars(s[0]) == k then [s[0]] else []) + WithStars(s[1..], k)
  }

  lemma {:induction false} WithStarsConcat(a: seq<Suggestion>, b: seq<Suggestion>, k: int)
    ensures WithStars(a + b, k) == WithStars(a, k) + WithStars(b, k)
  {
    if a != [] {
      assert (a + b)[0] == a[0];
      assert (a + b)[1..] == a[1..] + b;
      WithStarsConcat(a[1..], b, k);
    } else {
      assert a + b == b;
    }
  }

  /** Insertion before the first suggestion with no more stars, so that equal
      counts keep their order. */
  function InsertByStars(x: Suggestion, s: seq<Suggestion>): (r: seq<Suggestion>)
    ensures multiset(r) == multiset(s) + multiset{x}
  {
    if s == [] then [x]
    else if Stars(x) >= Stars(s[0]) then [x] + s
    else
      assert s == [s[0]] + s[1..];
      [s[0]] + InsertByStars(x, s[1..])
  }

  /** Insertion brings in no star count above a bound that `x` and `s` respect. */
  lemma {:induction false} InsertByStarsBounded(x: Suggestion, s: seq<Suggestion>, bound: int)
    requires Stars(x) <= bound
    requires forall i :: 0 <= i < |s| ==> Stars(s[i]) <= bound
    ensures forall j :: 0 <= j < |InsertByStars(x, s)| ==> Stars(InsertByStars(x, s)[j]) <= bound
  {
    var r := InsertByStars(x, s);
    if s == [] {
    } else if Stars(x) >= Stars(s[0]) {
      forall j | 0 <= j < |r| ensures Stars(r[j]) <= bound {
        if j > 0 { assert r[j] == s[j - 1]; }
      }
    } else {
      var rest := InsertByStars(x, s[1..]);
      InsertByStarsBounded(x, s[1..], bound);
      forall j | 0 <= j < |r| ensures Stars(r[j]) <= bound {
        if j > 0 { assert r[j] == rest[j - 1]; }
      }
    }
  }

  lemma {:induction false} InsertByStarsRanked(x: Suggestion, s: seq<Suggestion>)
    requires RankedByStars(s)
    ensures RankedByStars(InsertByStars(x, s))
  {
    if s != [] && Stars(x) < Stars(s[0]) {
      var rest := InsertByStars(x, s[1..]);
      InsertByStarsRanked(x, s[1..]);
      InsertByStarsBounded(x, s[1..], Stars(s[0]));
      var r := [s[0]] + rest;
      forall i, j | 0 <= i < j < |r| ensures Stars(r[i]) >= Stars(r[j]) {
        assert r[j] == rest[j - 1];
        if i > 0 { assert r[i] == rest[i - 1]; }
      }
    } else if s != [] {
      var r := [x] + s;
      forall i, j | 0 <= i < j < |r| ensures Stars(r[i]) >= Stars(r[j]) {
        assert r[j] == s[j - 1];
        if i > 0 { assert r[i] == s[i - 1]; }
      }
    }
  }

  lemma WithStarsCons(y: Suggestion, t: seq<Suggestion>, k: int)
    ensures WithStars([y] + t, k) == (if Stars(y) == k then [y] else []) + WithStars(t, k)
  {
    assert ([y] + t)[0] == y;
    assert ([y] + t)[1..] == t;
  }

  lemma {:induction false} InsertByStarsStable(x: Suggestion, s: seq<Suggestion>, k: int)
    ensures WithStars(InsertByStars(x, s), k) == (if Stars(x) == k then [x] else []) + WithStars(s, k)
  {
    if s == [] {
      WithStarsCons(x, [], k);
    } else if Stars(x) >= Stars(s[0]) {
      WithStarsCons(x, s, k);
    } else {
      var rest := InsertByStars(x, s[1..]);
      assert InsertByStars(x, s) == [s[0]] + rest;
      WithStarsCons(s[0], rest, k);
      WithStarsCons(s[0], s[1..], k);
      assert [s[0]] + s[1..] == s;
      InsertByStarsStable(x, s[1..], k);
      var tail := WithStars(s[1..], k);
      if Stars(s[0]) == k {
        assert WithStars(InsertByStars(x, s), k) == [s[0]] + ([] + tail);
      } else {
        assert WithStars(InsertByStars(x, s), k) == [] + ((if Stars(x) == k then [x] else []) + tail);
      }
    }
  }

  /** The stable sort `Array.prototype.sort` performs with the page's comparator. */
  function RankByStars(s: seq<Suggestion>): (r: seq<Suggestion>)
    ensures multiset(r) == multiset(s)
    ensures RankedByStars(r)
  {
    if s == [] then []
    else
      var rest := RankByStars(s[1..]);
      InsertByStarsRanked(s[0], rest);
      assert s == [s[0]] + s[1..];
      InsertByStars(s[0], rest)
  }

  /** Suggestions with equal star counts keep their lookup order. */
  lemma {:induction false} RankByStarsStable(s: seq<Suggestion>, k: int)
    ensures WithStars(RankByStars(s), k) == WithStars(s, k)
  {
    if s != [] {
      RankByStarsStable(s[1..], k);
      InsertByStarsStable(s[0], RankByStars(s[1..]), k);
    }
  }

  /** The suggestions the page shows for the looked-up proposals: exactly the
      found ones, with their reasons, highest star count first, ties in lookup order. */
  function Reconcile(looked: seq<Looked>): (r: seq<Suggestion>)
    ensures RankedByStars(r)
    ensures multiset(r) == multiset(KeepFound(looked))
    ensures forall k :: WithStars(r, k) == WithStars(KeepFound(looked), k)
  {
    var r := RankByStars(KeepFound(looked));
    forall k ensures WithStars(r, k) == WithStars(KeepFound(looked), k) {
      RankByStarsStable(KeepFound(looked), k);
    }
    r
  }

  // ---------------------------------------------------------------------------
  // onSubmit

  /** The fields the page reads from the flow's result; `None` where the
      property is absent (reading `.length` of it throws a TypeError). */
  datatype SuggestReply = SuggestReply(similar: Option<seq<Proposal>>, keywords: Option<seq<string>>)

  /** How `onSubmit`'s `try` block ends: suggestions set, the early exit for
      "no similar repositories", or the `catch` branch. */
  datatype SubmitOutcome = Shown(suggestions: seq<Suggestion>) | NoMatches(keywords: seq<string>) | Failed

  function Submit(reply: FlowOutcome<SuggestReply>, lookup: string -> Response<GithubRepo>): (r: SubmitOutcome)
    ensures reply.Threw? || reply.output.similar.None? ==> r == Failed
    ensures r.NoMatches? ==> |r.keywords| > 0 && reply.Returned? && reply.output.similar == Some([])
    ensures r.Shown? ==> reply.Returned? && reply.output.similar.Some? &&
                         |r.suggestions| <= |reply.output.similar.value|
    ensures reply.Returned? && reply.output.similar == Some([]) && reply.output.keywords.None? ==> r == Failed
    ensures reply.Returned? && reply.output.similar == Some([]) && reply.output.keywords == Some([]) ==> r == Shown([])
    ensures reply.Returned? && reply.output.similar.Some? && |reply.output.similar.value| > 0 ==>
              r == Shown(Reconcile(LookUpAll(reply.output.similar.value, lookup)))
  {
    match reply
    case Threw => Failed
    case Returned(r) =>
      if r.similar.None? then Failed
      else if |r.similar.value| == 0 && r.keywords.None? then Failed
      else if |r.similar.value| == 0 && |r.keywords.value| > 0 then NoMatches(r.keywords.value)
      else
        var looked := LookUpAll(r.similar.value, lookup);
        assert |Reconcile(looked)| == |multiset(Reconcile(looked))| == |KeepFound(looked)|;
        Shown(Reconcile(looked))
  }

  /** With no proposals and some keywords, the page stops before any lookup:
      the outcome does not depend on the lookups at all. */
  lemma EarlyExit(keywords: seq<string>, lookup1: string -> Response<GithubRepo>, lookup2: string -> Response<GithubRepo>)
    requires |keywords| > 0
    ensures Submit(Returned(SuggestReply(Some([]), Some(keywords))), lookup1) == NoMatches(keywords)
    ensures Submit(Returned(SuggestReply(Some([]), Some(keywords))), lookup2) == NoMatches(keywords)
  {
  }

  /** Every suggestion shown was proposed under that reason and its lookup found that record. */
  lemma ShownWereFound(similar: seq<Proposal>, keywords: Option<seq<string>>,
                       lookup: string -> Response<GithubRepo>, s: Suggestion)
    requires Submit(Returned(SuggestReply(Some(similar), keywords)), lookup).Shown?
    requires s in Submit(Returned(SuggestReply(Some(similar), keywords)), lookup).suggestions
    ensures exists i :: 0 <= i < |similar| && similar[i].reason == s.reason &&
              GetRepoDetails(lookup(similar[i].name)) == Some(s.details)
  {
    var looked := LookUpAll(similar, lookup);
    assert s in multiset(Reconcile(looked));
    assert s in KeepFound(looked);
    KeepFoundMembers(looked, s);
    var i :| 0 <= i < |looked| && looked[i] == Looked(Some(s.details), s.reason);
    assert similar[i].reason == s.reason;
  }

  // ---------------------------------------------------------------------------
  // The flow's declared output (src/ai/flows/suggest-similar-repos.ts)

  datatype FlowSuggestion = FlowSuggestion(fullName: string, reason: string)
  datatype FlowOutput = FlowOutput(suggestions: seq<FlowSuggestion>)

  /** What the page's property reads find on the flow's output as declared: it
      has neither `similar_repositories` nor `keywords`. */
  function ReplyAsWritten(out: FlowOutput): SuggestReply {
    SuggestReply(None, None)
  }

  /** As written, every successful flow call ends in the `catch` branch, so
      nothing is ever suggested. */
  lemma SubmitAsWrittenAlwaysFails(out: FlowOutput, lookup: string -> Response<GithubRepo>)
    ensures Submit(Returned(ReplyAsWritten(out)), lookup) == Failed
  {
  }

  function Proposals(suggestions: seq<FlowSuggestion>): (r: seq<Proposal>)
    ensures |r| == |suggestions|
    ensures forall i :: 0 <= i < |r| ==> r[i] == Proposal(suggestions[i].fullName, suggestions[i].reason)
  {
    if suggestions == [] then [] else [Proposal(suggestions[0].fullName, suggestions[0].reason)] + Proposals(suggestions[1..])
  }

  /** The reading of the flow's output the page evidently intends: `suggestions`
      and `fullName`; the flow declares no keywords. */
  function ReplyFromFlow(out: FlowOutput): SuggestReply {
    SuggestReply(Some(Proposals(out.suggestions)), Some([]))
  }

  /** Read that way, a successful flow call shows the reconciled suggestions: each
      comes from a proposal whose full name was found, with that proposal's reason. */
  lemma SubmitFromFlow(out: FlowOutput, lookup: string -> Response<GithubRepo>, s: Suggestion)
    ensures Submit(Returned(ReplyFromFlow(out)), lookup) ==
            Shown(Reconcile(LookUpAll(Proposals(out.suggestions), lookup)))
    ensures s in Submit(Returned(ReplyFromFlow(out)), lookup).suggestions ==>
              exists i :: 0 <= i < |out.suggestions| && out.suggestions[i].reason == s.reason &&
                GetRepoDetails(lookup(out.suggestions[i].fullName)) == Some(s.details)
  {
    var similar := Proposals(out.suggestions);
    if s in Submit(Returned(ReplyFromFlow(out)), lookup).suggestions {
      ShownWereFound(similar, Some([]), lookup, s);
    }
  }

  // ---------------------------------------------------------------------------
  // The page

  class SuggestPage {
    var suggestions: seq<Suggestion>
    var isLoading: bool

    constructor ()
      ensures suggestions == [] && !isLoading
    {
      suggestions, isLoading := [], false;
    }

    /** `onSubmit` up to the flow call. */
    method BeginSubmit()
      modifies this
      ensures isLoading && suggestions == []
    {
      isLoading := true;
      suggestions := [];
    }

    /** `onSubmit` after the flow settled with `reply`; `lookup` answers the detail requests. */
    method FinishSubmit(reply: FlowOutcome<SuggestReply>, lookup: string -> Response<GithubRepo>)
      modifies this
      ensures !isLoading
      ensures suggestions == match Submit(reply, lookup)
                             case Shown(shown) => shown
                             case _ => old(suggestions)
    {
      var outcome := Submit(reply, lookup);
      if outcome.Shown? {
        suggestions := outcome.suggestions;
      }
      isLoading := false;
    }
  }
}
