/**
 * What the linter hands back after every file has been linted
 * (`linter.getResult()`, index.ts:34). The linter itself, its configuration
 * lookup and the files it reads are not part of this model; only its output
 * is, as plain values.
 */
module Lint {

  /** One rule violation (a tslint `RuleFailure`), reduced to the accessors
      the action calls: `getFileName`, `getRuleName`, `getFailure`,
      `getRuleSeverity`, and the `line` of the start and end positions
      (0-based, as `getLineAndCharacter` reports them). */
  datatype LintFailure = LintFailure(
    fileName: string,
    ruleName: string,
    failure: string,
    ruleSeverity: string,
    startLine: nat,
    endLine: nat)

  /** The fields of the linter's result that the action reads. The two counts
      come from the linter and are not derived here from `failures`. */
  datatype LintResult = LintResult(
    failures: seq<LintFailure>,
    errorCount: nat,
    warningCount: nat)

  /** How many failures carry the given severity. */
  function CountSeverity(fs: seq<LintFailure>, severity: string): nat
    decreases |fs|
  {
    if fs == [] then 0
    else (if fs[0].ruleSeverity == severity then 1 else 0) + CountSeverity(fs[1..], severity)
  }

  /** The linter's error count is the number of failures of severity `error`. */
  predicate ErrorCountAgrees(r: LintResult) {
    r.errorCount == CountSeverity(r.failures, "error")
  }
}
