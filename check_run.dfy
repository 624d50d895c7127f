/**
 * The payload of the single `checks.create` call (index.ts:57-69): a check
 * run created already completed, whose conclusion and summary come from the
 * linter's counts and whose output carries every annotation at once.
 */
module CheckRun {
  import opened Wrappers
  import opened Decimal
  import opened Lint
  import opened Annotation

  /** The `CONCLUSION` enum (index.ts:10-13). */
  datatype Conclusion = Success | Failure {
    function Wire(): (s: string)
      ensures (s == "success") == (this == Conclusion.Success)
      ensures (s == "failure") == (this == Conclusion.Failure)
    {
      match this
      case Success => "success"
      case Failure => "failure"
    }
  }

  /** Owner, repository and head commit, taken from the workflow context
      (index.ts:17). */
  datatype RepoContext = RepoContext(owner: string, repo: string, headSha: string)

  datatype Output = Output(title: string, summary: string, annotations: seq<Annotation>)

  datatype CreateParams = CreateParams(
    owner: string,
    repo: string,
    headSha: string,
    name: string,
    status: string,
    conclusion: Conclusion,
    output: Output)

  const CheckName := "Linter"
  const CompletedStatus := "completed"
  const ReportTitle := "Tslint Check Results"
  const ErrorsWord := " errors\n"
  const WarningsWord := " warnings"

  /** `errorCount ? FAILURE : SUCCESS`: a count is truthy unless it is zero. */
  function ConclusionOf(errorCount: nat): Conclusion {
    if errorCount != 0 then Conclusion.Failure else Conclusion.Success
  }

  /** The template `${errorCount} errors\n${warningCount} warnings`. */
  function Summary(errorCount: nat, warningCount: nat): string {
    NatToDecimal(errorCount) + ErrorsWord + NatToDecimal(warningCount) + WarningsWord
  }

  /** Reads the two counts back out of a summary, or fails if the text does
      not have the summary's layout. */
  function ParseSummary(s: string): Option<(nat, nat)> {
    var k := LeadingDigits(s);
    if 0 < k && k + |ErrorsWord| <= |s| && s[k..k + |ErrorsWord|] == ErrorsWord then
      var rest := s[k + |ErrorsWord|..];
      var k2 := LeadingDigits(rest);
      if 0 < k2 && rest[k2..] == WarningsWord then
        Some((DecimalValue(s[..k]), DecimalValue(rest[..k2])))
      else None
    else None
  }

  /** The summary states both counts recoverably: parsing it gives them back. */
  lemma SummaryRoundTrip(errorCount: nat, warningCount: nat)
    ensures ParseSummary(Summary(errorCount, warningCount)) == Some((errorCount, warningCount))
  {
    var e, w := NatToDecimal(errorCount), NatToDecimal(warningCount);
    var s := Summary(errorCount, warningCount);
    assert s == e + (ErrorsWord + w + WarningsWord);
    LeadingDigitsOfConcat(e, ErrorsWord + w + WarningsWord);
    assert s[..|e|] == e;
    assert s[|e|..|e| + |ErrorsWord|] == ErrorsWord;
    var rest := s[|e| + |ErrorsWord|..];
    assert rest == w + WarningsWord;
    LeadingDigitsOfConcat(w, WarningsWord);
    assert rest[..|w|] == w;
    assert rest[|w|..] == WarningsWord;
    DecimalRoundTrip(errorCount);
    DecimalRoundTrip(warningCount);
  }

  /** Different counts never produce the same summary. */
  lemma SummaryInjective(e1: nat, w1: nat, e2: nat, w2: nat)
    requires Summary(e1, w1) == Summary(e2, w2)
    ensures e1 == e2 && w1 == w2
  {
    SummaryRoundTrip(e1, w1);
    SummaryRoundTrip(e2, w2);
  }

  /** The argument of `gitToolkit.checks.create`. */
  function BuildReport(ctx: RepoContext, result: LintResult): (p: CreateParams)
    ensures p.owner == ctx.owner && p.repo == ctx.repo && p.headSha == ctx.headSha
    ensures p.name == "Linter" && p.status == "completed" && p.output.title == "Tslint Check Results"
    ensures p.conclusion == Conclusion.Failure <==> result.errorCount != 0
    ensures p.conclusion.Wire() == (if result.errorCount == 0 then "success" else "failure")
    ensures p.output.summary == NatToDecimal(result.errorCount) + " errors\n" + NatToDecimal(result.warningCount) + " warnings"
    ensures ParseSummary(p.output.summary) == Some((result.errorCount, result.warningCount))
    ensures |p.output.annotations| == |result.failures|
    ensures p.output.annotations == Annotations(result.failures)
  {
    SummaryRoundTrip(result.errorCount, result.warningCount);
    CreateParams(
      ctx.owner, ctx.repo, ctx.headSha,
      CheckName, CompletedStatus, ConclusionOf(result.errorCount),
      Output(ReportTitle, Summary(result.errorCount, result.warningCount), Annotations(result.failures)))
  }

  /** When the linter's error count is the number of `error` failures, the
      run fails exactly when some annotation is at level `failure`. */
  lemma ConclusionMatchesAnnotations(ctx: RepoContext, result: LintResult)
    requires ErrorCountAgrees(result)
    ensures var p := BuildReport(ctx, result);
      p.conclusion == Conclusion.Failure <==>
        exists i :: 0 <= i < |p.output.annotations| && p.output.annotations[i].level == Level.Failure
  {
    var anns := Annotations(result.failures);
    LevelCountsMatchSeverities(result.failures);
    CountLevelPositive(anns, Level.Failure);
  }

  /** With no failures and zero counts the run succeeds with an empty
      annotation list and the summary "0 errors\n0 warnings". */
  lemma CleanReport(ctx: RepoContext, result: LintResult)
    requires result.failures == [] && result.errorCount == 0 && result.warningCount == 0
    ensures BuildReport(ctx, result).conclusion == Conclusion.Success
    ensures BuildReport(ctx, result).output.annotations == []
    ensures BuildReport(ctx, result).output.summary == "0 errors\n0 warnings"
  {
  }
}
