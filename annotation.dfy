/**
 * The projection of lint failures onto check-run annotations
 * (index.ts:38-47): one annotation per failure, in order, with the
 * severity translated through a fixed table that defaults to `notice`.
 */
module Annotation {
  import opened Wrappers
  import opened Lint

  /** The annotation levels the checks API accepts (`LEVEL`, index.ts:8). */
  datatype Level = Notice | Warning | Failure {
    /** The level's name on the wire. */
    function Wire(): (s: string)
      ensures s == "notice" || s == "warning" || s == "failure"
      ensures (s == "notice") == (this == Notice)
      ensures (s == "warning") == (this == Warning)
      ensures (s == "failure") == (this == Failure)
    {
      match this
      case Notice => "notice"
      case Warning => "warning"
      case Failure => "failure"
    }
  }

  /** The object literal that translates a rule severity into a level. */
  const LevelTable: map<string, Level> := map["warning" := Warning, "error" := Failure, "off" := Notice]

  /** Table lookup with `notice` for any severity the table lacks. */
  function LevelOf(severity: string): (level: Level)
    ensures level == Failure <==> severity == "error"
    ensures level == Warning <==> severity == "warning"
    ensures level == Notice <==> severity != "error" && severity != "warning"
  {
    if severity in LevelTable then LevelTable[severity] else Notice
  }

  datatype Annotation = Annotation(
    path: string,
    startLine: nat,
    endLine: nat,
    level: Level,
    message: string)

  /** The annotation message: rule name, a colon and a space, failure text. */
  function Message(ruleName: string, failure: string): string {
    ruleName + ": " + failure
  }

  /** The callback passed to `failures.map`. */
  function ToAnnotation(f: LintFailure): Annotation {
    Annotation(f.fileName, f.startLine, f.endLine, LevelOf(f.ruleSeverity), Message(f.ruleName, f.failure))
  }

  /** `lintResult.failures.map(...)`: exactly one annotation per failure, at
      the same position, none dropped whatever its severity. */
  function Annotations(fs: seq<LintFailure>): (anns: seq<Annotation>)
    ensures |anns| == |fs|
    ensures forall i :: 0 <= i < |fs| ==>
      && anns[i].path == fs[i].fileName
      && anns[i].startLine == fs[i].startLine
      && anns[i].endLine == fs[i].endLine
      && anns[i].level == LevelOf(fs[i].ruleSeverity)
      && anns[i].message == Message(fs[i].ruleName, fs[i].failure)
    decreases |fs|
  {
    if fs == [] then [] else [ToAnnotation(fs[0])] + Annotations(fs[1..])
  }

  /** Lines are copied, not shifted, so a well-ordered range stays one. */
  lemma LineRangesPreserved(fs: seq<LintFailure>, i: nat)
    requires i < |fs| && fs[i].startLine <= fs[i].endLine
    ensures Annotations(fs)[i].startLine <= Annotations(fs)[i].endLine
  {
  }

  /** How many annotations carry the given level. */
  function CountLevel(anns: seq<Annotation>, level: Level): nat
    decreases |anns|
  {
    if anns == [] then 0
    else (if anns[0].level == level then 1 else 0) + CountLevel(anns[1..], level)
  }

  lemma {:induction false} CountLevelPositive(anns: seq<Annotation>, level: Level)
    ensures CountLevel(anns, level) > 0 <==> exists i :: 0 <= i < |anns| && anns[i].level == level
    decreases |anns|
  {
    if anns != [] {
      CountLevelPositive(anns[1..], level);
      if CountLevel(anns[1..], level) > 0 {
        var j :| 0 <= j < |anns[1..]| && anns[1..][j].level == level;
        assert anns[j + 1].level == level;
      }
      if exists i :: 0 <= i < |anns| && anns[i].level == level {
        var i :| 0 <= i < |anns| && anns[i].level == level;
        if i > 0 {
          assert anns[1..][i - 1].level == level;
        }
      }
    }
  }

  /** Errors become `failure` annotations, warnings `warning` annotations, and
      every other failure (`off` or unrecognised) a `notice`: the level
      counts partition the failures. */
  lemma {:induction false} LevelCountsMatchSeverities(fs: seq<LintFailure>)
    ensures CountLevel(Annotations(fs), Failure) == CountSeverity(fs, "error")
    ensures CountLevel(Annotations(fs), Warning) == CountSeverity(fs, "warning")
    ensures CountLevel(Annotations(fs), Notice) + CountSeverity(fs, "error") + CountSeverity(fs, "warning") == |fs|
    decreases |fs|
  {
    if fs != [] {
      var anns := Annotations(fs);
      assert anns[1..] == Annotations(fs[1..]);
      LevelCountsMatchSeverities(fs[1..]);
    }
  }

  /** The index of the first colon in `m`, or `|m|` when there is none. */
  function IndexOfColon(m: string): (i: nat)
    ensures i <= |m|
    ensures i < |m| ==> m[i] == ':'
    ensures forall j :: 0 <= j < i ==> m[j] != ':'
    decreases |m|
  {
    if m == [] || m[0] == ':' then 0 else 1 + IndexOfColon(m[1..])
  }

  /** Splits a message at its first ": " into rule name and failure text. */
  function SplitMessage(m: string): Option<(string, string)> {
    var i := IndexOfColon(m);
    if i + 2 <= |m| && m[i + 1] == ' ' then Some((m[..i], m[i + 2..])) else None
  }

  /** Rule names carry no colon, so the message determines both the rule
      that fired and the failure text. */
  lemma MessageRoundTrip(ruleName: string, failure: string)
    requires forall k :: 0 <= k < |ruleName| ==> ruleName[k] != ':'
    ensures SplitMessage(Message(ruleName, failure)) == Some((ruleName, failure))
  {
    var m := Message(ruleName, failure);
    assert forall k :: 0 <= k < |ruleName| ==> m[k] == ruleName[k];
    assert m[|ruleName|] == ':' && m[|ruleName| + 1] == ' ';
    assert IndexOfColon(m) == |ruleName|;
    assert m[..|ruleName|] == ruleName;
    assert m[|ruleName| + 2..] == failure;
  }
}
