/**
 * The architecture-summary page (src/app/analyze/page.tsx): a one-field form
 * prefilled from the `repoUrl` query value, submitted automatically when the
 * query also says `analyze=true`, and a submit handler that clears the old
 * summary, asks the summary flow, and shows what it returned.
 */
module Analyze {
  import opened Wrappers
  import opened Js
  import opened AiFlows

  datatype AnalysisResult = AnalysisResult(summary: string)

  /** The form's default `repoUrl`: the query value, or "" when it is absent or empty. */
  function DefaultRepoUrl(repoUrlFromQuery: Option<string>): (r: string)
    ensures Truthy(repoUrlFromQuery) ==> r == repoUrlFromQuery.value
    ensures !Truthy(repoUrlFromQuery) ==> r == ""
  {
    if Truthy(repoUrlFromQuery) then repoUrlFromQuery.value else ""
  }

  /** Whether the mount effect submits: a `repoUrl` is present and `analyze` is exactly "true". */
  predicate AutoSubmits(repoUrlFromQuery: Option<string>, shouldAnalyze: Option<string>)
    ensures AutoSubmits(repoUrlFromQuery, shouldAnalyze) ==> repoUrlFromQuery.Some? && DefaultRepoUrl(repoUrlFromQuery) == repoUrlFromQuery.value
  {
    Truthy(repoUrlFromQuery) && shouldAnalyze == Some("true")
  }

  /** Any other spelling of the flag, or no URL, only prefills the form. */
  lemma OnlyExactFlag(repoUrlFromQuery: Option<string>, shouldAnalyze: Option<string>)
    ensures AutoSubmits(repoUrlFromQuery, shouldAnalyze) ==> shouldAnalyze.value == "true"
    ensures !AutoSubmits(repoUrlFromQuery, Some("True")) && !AutoSubmits(repoUrlFromQuery, Some("1"))
    ensures !AutoSubmits(None, shouldAnalyze) && !AutoSubmits(Some(""), shouldAnalyze)
  {
    assert "True"[0] != "true"[0];
  }

  class AnalyzePage {
    /** The form's `repoUrl` value. */
    var repoUrl: string
    var analysisResult: Option<AnalysisResult>
    var isLoading: bool

    constructor (repoUrlFromQuery: Option<string>)
      ensures repoUrl == DefaultRepoUrl(repoUrlFromQuery)
      ensures analysisResult.None? && !isLoading
    {
      repoUrl := DefaultRepoUrl(repoUrlFromQuery);
      analysisResult := None;
      isLoading := false;
    }

    /** `onSubmit(values)` up to the flow call; returns the flow's input. */
    method BeginSubmit(values: string) returns (request: string)
      modifies this`analysisResult, this`isLoading
      ensures isLoading && analysisResult.None?
      ensures request == values
    {
      isLoading := true;
      analysisResult := None;
      request := values;
    }

    /** `onSubmit` after the flow settled: its output is shown, a throw leaves no summary. */
    method FinishSubmit(outcome: FlowOutcome<AnalysisResult>)
      modifies this`analysisResult, this`isLoading
      ensures !isLoading
      ensures outcome.Returned? ==> analysisResult == Some(outcome.output)
      ensures outcome.Threw? ==> analysisResult == old(analysisResult)
    {
      if outcome.Returned? {
        analysisResult := Some(outcome.output);
      }
      isLoading := false;
    }

    /** The mount effect: returns the flow input of the submit it starts, if any. */
    method Mount(repoUrlFromQuery: Option<string>, shouldAnalyze: Option<string>)
      returns (submitted: Option<string>)
      modifies this
      ensures repoUrl == if Truthy(repoUrlFromQuery) then repoUrlFromQuery.value else old(repoUrl)
      ensures submitted.Some? <==> AutoSubmits(repoUrlFromQuery, shouldAnalyze)
      ensures submitted.Some? ==> submitted.value == repoUrlFromQuery.value && isLoading && analysisResult.None?
      ensures submitted.None? ==> isLoading == old(isLoading) && analysisResult == old(analysisResult)
    {
      submitted := None;
      if Truthy(repoUrlFromQuery) {
        repoUrl := repoUrlFromQuery.value;
        if shouldAnalyze == Some("true") {
          var request := BeginSubmit(repoUrlFromQuery.value);
          submitted := Some(request);
        }
      }
    }
  }
}
