/**
 * The Semgrep adapter: runs the external analyser, reads its JSON report
 * and turns each result into a finding. Running the command and parsing
 * its output are parameters; `now` stands for the clock used in ids.
 */
module Semgrep {
  import opened Common

  const SEMGREP_ID_PREFIX := "SEMGREP-"
  const DEFAULT_CATEGORY := "Security Misconfiguration"
  const DEFAULT_ISSUE := "Potential Vulnerability"
  const DEFAULT_DESCRIPTION := "Semgrep identified a potential security issue."
  const DEFAULT_REMEDIATION := "Review the code pattern and apply secure coding practices."
  const COMMAND_HEAD := "semgrep scan --config auto --json \""

  /** One entry of the report's `results`; an absent field is None. */
  datatype SemgrepResult = SemgrepResult(
    path: Option<string>,
    line: Option<nat>,
    message: Option<string>,
    owasp: Option<string>,
    severity: Option<string>,
    fix: Option<string>)

  /** The parsed report: `results` may be absent. */
  datatype SemgrepOutput = SemgrepOutput(results: Option<seq<SemgrepResult>>)

  /** `value || fallback` on an optional string. */
  function OrDefault(value: Option<string>, fallback: string): (r: string)
    ensures value.Some? && value.value != "" ==> r == value.value
    ensures value.None? || value.value == "" ==> r == fallback
  {
    if value.Some? && value.value != "" then value.value else fallback
  }

  /** Template rendering of an optional value: absent renders as "undefined". */
  function Render(value: Option<string>): string {
    if value.Some? then value.value else "undefined"
  }

  function ToUpperChar(c: char): (u: char)
    ensures 'a' <= c <= 'z' ==> u as int == c as int - 32
    ensures !('a' <= c <= 'z') ==> u == c
  {
    if 'a' <= c <= 'z' then (c as int - 32) as char else c
  }

  /** `s.toUpperCase()` on ASCII letters. */
  function ToUpper(s: string): (r: string)
    ensures |r| == |s|
    ensures forall k :: 0 <= k < |s| ==> r[k] == ToUpperChar(s[k])
  {
    seq(|s|, k requires 0 <= k < |s| => ToUpperChar(s[k]))
  }

  lemma UpperIdempotent(s: string)
    ensures ToUpper(ToUpper(s)) == ToUpper(s)
  {
    forall k | 0 <= k < |s| ensures ToUpper(ToUpper(s))[k] == ToUpper(s)[k] {
      assert ToUpperChar(ToUpperChar(s[k])) == ToUpperChar(s[k]);
    }
  }

  /** mapSeverity: Semgrep's levels to the finding scale, compared in upper case. */
  function MapSeverity(severity: Option<string>): (r: string)
    ensures r == HIGH <==> severity.Some? && ToUpper(severity.value) == "ERROR"
    ensures r == LOW <==> severity.Some? && ToUpper(severity.value) == "INFO"
    ensures r == MEDIUM <==> severity.None? || ToUpper(severity.value) !in {"ERROR", "INFO"}
    ensures r != CRITICAL
  {
    if severity.None? then MEDIUM
    else
      match ToUpper(severity.value)
      case "ERROR" => HIGH
      case "WARNING" => MEDIUM
      case "INFO" => LOW
      case _ => MEDIUM
  }

  /** The mapping ignores letter case: a level and its upper-case form map alike. */
  lemma MapSeverityIgnoresCase(s: string)
    ensures MapSeverity(Some(s)) == MapSeverity(Some(ToUpper(s)))
  {
    UpperIdempotent(s);
  }

  /** The finding for the `index`-th result. */
  function SemgrepFinding(r: SemgrepResult, index: nat, now: nat): (f: Reasoning)
    ensures f.id == SEMGREP_ID_PREFIX + NatToString(index) + "-" + NatToString(now)
    ensures f.category == OrDefault(r.owasp, DEFAULT_CATEGORY)
    ensures f.issue == OrDefault(r.message, DEFAULT_ISSUE)
    ensures f.description == OrDefault(r.message, DEFAULT_DESCRIPTION)
    ensures f.severity == MapSeverity(r.severity) && f.severity != CRITICAL
    ensures f.remediation == OrDefault(r.fix, DEFAULT_REMEDIATION)
    ensures f.evidence == "File: " + Render(r.path) + ":"
      + Render(if r.line.Some? then Some(NatToString(r.line.value)) else None)
  {
    Reasoning(
      SEMGREP_ID_PREFIX + NatToString(index) + "-" + NatToString(now),
      OrDefault(r.owasp, DEFAULT_CATEGORY),
      OrDefault(r.message, DEFAULT_ISSUE),
      OrDefault(r.message, DEFAULT_DESCRIPTION),
      MapSeverity(r.severity),
      "File: " + Render(r.path) + ":" + Render(if r.line.Some? then Some(NatToString(r.line.value)) else None),
      OrDefault(r.fix, DEFAULT_REMEDIATION))
  }

  /** The findings for a report's results, one per result, in order. */
  function SemgrepFindings(results: seq<SemgrepResult>, now: nat): (fs: seq<Reasoning>)
    ensures |fs| == |results|
    ensures forall i :: 0 <= i < |results| ==> fs[i] == SemgrepFinding(results[i], i, now)
  {
    seq(|results|, i requires 0 <= i < |results| => SemgrepFinding(results[i], i, now))
  }

  /** In a digit string followed by a dash, the first dash is the one after the digits. */
  lemma DashAfterDigits(a: string, x: string)
    requires forall k :: 0 <= k < |a| ==> IsDigit(a[k])
    ensures IndexOf(a + "-" + x, '-') == |a|
  {
    var s := a + "-" + x;
    assert s[|a|] == '-';
    assert forall k :: 0 <= k < |a| ==> s[k] == a[k];
  }

  /** Two digit strings each followed by a dash and anything agree when the whole strings do. */
  lemma DigitsBeforeDash(a: string, b: string, x: string, y: string)
    requires forall k :: 0 <= k < |a| ==> IsDigit(a[k])
    requires forall k :: 0 <= k < |b| ==> IsDigit(b[k])
    requires a + "-" + x == b + "-" + y
    ensures a == b
  {
    DashAfterDigits(a, x);
    DashAfterDigits(b, y);
    assert a == (a + "-" + x)[..|a|];
    assert b == (b + "-" + y)[..|b|];
  }

  /** Findings of one report have pairwise distinct ids. */
  lemma SemgrepIdsDistinct(results: seq<SemgrepResult>, now: nat, i: nat, j: nat)
    requires i < j < |results|
    ensures SemgrepFindings(results, now)[i].id != SemgrepFindings(results, now)[j].id
  {
    var fs := SemgrepFindings(results, now);
    if fs[i].id == fs[j].id {
      var rest := NatToString(now);
      var a := NatToString(i);
      var b := NatToString(j);
      var n := |SEMGREP_ID_PREFIX|;
      assert fs[i].id[n..] == a + "-" + rest;
      assert fs[j].id[n..] == b + "-" + rest;
      DigitsBeforeDash(a, b, rest, rest);
      NatToStringInjective(i, j);
    }
  }

  /** The command line the adapter runs for a target directory. */
  function ScanCommand(targetPath: string): string {
    COMMAND_HEAD + targetPath + "\""
  }

  /**
   * scan: a failing command, unparsable output or a report without
   * `results` gives no findings; otherwise one finding per result.
   */
  function ScanReport(targetPath: string, exec: string -> Option<string>,
                      parse: string -> Option<SemgrepOutput>, now: nat): (fs: seq<Reasoning>)
    ensures exec(ScanCommand(targetPath)).None? ==> fs == []
    ensures exec(ScanCommand(targetPath)).Some? && parse(exec(ScanCommand(targetPath)).value).None? ==> fs == []
    ensures var out := exec(ScanCommand(targetPath));
      out.Some? && parse(out.value).Some? && parse(out.value).value.results.None? ==> fs == []
    ensures var out := exec(ScanCommand(targetPath));
      out.Some? && parse(out.value).Some? && parse(out.value).value.results.Some? ==>
        var results := parse(out.value).value.results.value;
        && |fs| == |results|
        && forall i :: 0 <= i < |results| ==> fs[i] == SemgrepFinding(results[i], i, now)
    ensures forall f :: f in fs ==> f.severity != CRITICAL
  {
    match exec(ScanCommand(targetPath))
    case None => []
    case Some(stdout) =>
      match parse(stdout)
      case None => []
      case Some(output) =>
        if output.results.Some? then SemgrepFindings(output.results.value, now) else []
  }

  /** scan as the source runs it: one push per result inside the `forEach`. */
  method Scan(targetPath: string, exec: string -> Option<string>,
              parse: string -> Option<SemgrepOutput>, now: nat) returns (findings: seq<Reasoning>)
    ensures findings == ScanReport(targetPath, exec, parse, now)
  {
    findings := [];
    var stdout := exec(ScanCommand(targetPath));
    if stdout.None? {
      return;
    }
    var output := parse(stdout.value);
    if output.None? || output.value.results.None? {
      return;
    }
    var results := output.value.results.value;
    var index := 0;
    while index < |results|
      invariant 0 <= index <= |results|
      invariant findings == SemgrepFindings(results[..index], now)
    {
      findings := findings + [SemgrepFinding(results[index], index, now)];
      index := index + 1;
    }
    assert results[..index] == results;
  }
}
