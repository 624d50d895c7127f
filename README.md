# ts-lint-action: the lint-report projection

This project models the part of the `ts-lint-action` GitHub Action (`index.ts`)
that turns the linter's result into the check run it publishes. After tslint has
linted every matched file, the action:

- maps each lint failure to one check-run annotation. The annotation has the
  failure's file as `path`, its start and end line copied unchanged, a level
  looked up from the failure's severity (`warning` → `warning`, `error` →
  `failure`, `off` → `notice`, anything else → `notice`), and the message
  `<rule name>: <failure text>`;
- derives the conclusion `failure` when the error count is non-zero, else
  `success`;
- writes the summary `<errorCount> errors\n<warningCount> warnings`;
- sends one `checks.create` payload. The run is named `Linter`, created with
  status `completed` and titled `Tslint Check Results`. It carries that
  conclusion, that summary and every annotation in a single call.

The model is pure: datatypes, functions over sequences, and lemmas. There are
five modules:

- `Wrappers` holds an `Option` type.
- `Decimal` renders a count as a template literal does, and parses the digits back.
- `Lint` holds the linter's output as values.
- `Annotation` covers lines 38-47 of `index.ts`.
- `CheckRun` covers lines 57-69.

`index.ts` has no `mode` input and no pull-request lookup, it does not split
annotations into batches, it does not create, update and then complete a run
in separate calls, and it does not shift line numbers by one. The model has
none of these either: it copies lines unchanged and sends all annotations in
one payload.

## Model

| member | source | states |
|---|---|---|
| `Decimal.NatToDecimal` | index.ts:66 | a count interpolated into the summary renders as a non-empty string of digits with no leading zero (one digit exactly for counts below ten) |
| `Decimal.DecimalRoundTrip` | index.ts:66 | the rendered digits denote the count they were rendered from |
| `Annotation.Level.Wire` | index.ts:8 | every annotation level goes on the wire as one of `notice`, `warning`, `failure`, and each string belongs to exactly one level (`Failure` is sent as `failure`, `Warning` as `warning`, `Notice` as `notice`) |
| `Annotation.LevelOf` | index.ts:39 | severity `error` gives `failure`, and nothing else does. `warning` gives `warning`, and nothing else does. Every other severity, `off` and unrecognised strings alike, gives the default `notice` |
| `Annotation.Annotations` | index.ts:38-47 | exactly one annotation per failure, at the same index (none dropped, `off` included). Each has the failure's file as path, its start and end lines unchanged, the level looked up from its severity, and message `<rule>: <text>` |
| `Annotation.LineRangesPreserved` | index.ts:42-43 | lines are copied with no offset, so a failure whose start line is at most its end line yields an annotation with the same property |
| `Annotation.LevelCountsMatchSeverities` | index.ts:38-39 | the number of `failure` annotations equals the number of `error` failures. The number of `warning` annotations equals the number of `warning` failures. All remaining failures become `notice` annotations |
| `Annotation.MessageRoundTrip` | index.ts:45 | for a rule name without a colon, splitting the message at its first `": "` gives back the rule name and the failure text |
| `CheckRun.Conclusion.Wire` | index.ts:10-13 | the conclusion goes on the wire as `success` exactly for `Success` and as `failure` exactly for `Failure` |
| `CheckRun.SummaryRoundTrip` | index.ts:66 | parsing the summary `<e> errors\n<w> warnings` recovers both counts |
| `CheckRun.SummaryInjective` | index.ts:66 | different (error, warning) count pairs never produce the same summary |
| `CheckRun.BuildReport` | index.ts:57-69 | the payload has the context's owner, repo and head SHA. It is named `Linter`, has status `completed` and title `Tslint Check Results`. Its conclusion is `failure` exactly when the error count is non-zero; the warning count plays no part. Its summary is exactly `<errorCount> errors\n<warningCount> warnings`, each count in plain decimal digits, and it parses back to the two counts. It carries the full annotation list for all failures in one payload |
| `CheckRun.ConclusionMatchesAnnotations` | index.ts:63 | when the linter's error count equals its number of `error` failures, the conclusion is `failure` exactly when some annotation has level `failure` |
| `CheckRun.CleanReport` | index.ts:57-69 | with no failures and zero counts the payload has an empty annotation list, conclusion `success` and summary `0 errors\n0 warnings` |

## Left out

- Reading the action inputs (`lintFile`, `pattern`, `token`, and the unused `strict`, index.ts:20-23) is host I/O. The model does not cover it.
- Glob expansion and file reads (index.ts:27-29) are file-system I/O through foreign libraries.
- The tslint `Linter` and `Configuration.findConfiguration` (index.ts:25, 30-34) are a foreign rule engine. Only their output is modelled: a sequence of failures and two counts, all taken as inputs. The linter's own counting is not modelled. `CheckRun.ConclusionMatchesAnnotations` states as its precondition the error-count agreement it relies on.
- Constructing the Octokit client, the debug `git.getTree` call and `console.log` (index.ts:16, 36, 49-55) are network and logging that have no effect on the payload.
- Delivering the payload through `checks.create`, and the `core.setFailed` path taken when anything throws (index.ts:57, 70-72), are network and error reporting. Only the payload record is modelled.
- `Annotation.LevelOf`: the model treats the object literal at index.ts:39 as a three-entry table. JavaScript would also find keys inherited from `Object.prototype` (such as `constructor`). tslint types a rule severity as `warning | error | off`, so those keys cannot arise.
- `Decimal.NatToDecimal`: JavaScript writes numbers of 10^21 and above in exponent notation. The model writes every count as plain digits, because no lint run reaches such counts.
- `Annotation.MessageRoundTrip`: it covers only rule names without a colon. tslint rule names are kebab-case identifiers.
