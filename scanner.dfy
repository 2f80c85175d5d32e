/**
 * The scan orchestrator: looks a scan up, validates its target, runs the
 * repository or the web pipeline, persists one finding per issue, appends
 * progress lines to the scan's log and records its status, and on any
 * failure marks the scan FAILED with the error before rethrowing.
 *
 * Reconnaissance enters as functions of the target (`Pipeline`), whose
 * own models are in Agents; reasoning is Reasoner's, run against the
 * intelligence dispatcher and its cache. The store is the one the
 * orchestrator writes to; generated ids and the clock are parameters.
 */
module Scanner {
  import opened Common
  import Agents
  import Intelligence
  import Reasoner
  import opened Store

  const NOT_FOUND := "Scan mission not found in database."
  const ERROR_HEAD := "Critical Error: "
  const UNKNOWN_FAILURE := "Unknown Failure"
  const GITHUB_HOST := "github.com"

  const VALIDATED_LOG := "Target validated. Initiating heuristics engine..."
  const DETECTED_REPO_LOG := "Detected GitHub Repository. Launching Source Audit pipeline..."
  const MAPPING_REPO_LOG := "Mapping repository structure via raw content edge..."
  const RECON_COUNT_HEAD := "Recon complete: Found "
  const RECON_COUNT_TAIL := " key configuration files."
  const SECRET_SCANNER_LOG := "Launching heuristic secret scanner..."
  const REPO_ENGAGE_TAIL := " Intelligence for context-aware source audit..."
  const PROBING_LOG := "Probing Web Infrastructure headers and services..."
  const HEAD_REQUEST_HEAD := "Executing HEAD request to "
  const HEADER_COUNT_HEAD := "Infrastructure mapping complete. Analyzed "
  const HEADER_COUNT_TAIL := " headers."
  const HTML_SCANNED_LOG := "Scanned HTML surface for leaked secrets."
  const WEB_ENGAGE_TAIL := " Intelligence for deep reasoning mission..."
  const ENGAGE_HEAD := "Engaging "
  const FINDING_HEAD := "[Finding] Identified "
  const REPO_FINDING_TAIL := " in mission parameters."
  const VIA_INTELLIGENCE := " via Intelligence."
  const VIA_HEURISTICS := " via Heuristics."
  const FINALIZED_LOG := "Analysis engine finalized mission telemetry."
  const SYNCHRONIZED_LOG := "Persistence synchronized. Mission Success."

  /** URL parsing, the two reconnaissance stages, and the JSON and provider oracles the reasoning uses. */
  datatype Pipeline = Pipeline(
    parseUrl: string -> Option<Agents.Url>,
    webRecon: string -> Agents.ReconResult,
    repoRecon: string -> Agents.RepoReconResult,
    json: Reasoner.Json,
    exec: Intelligence.Exec)

  type Cache = map<string, Intelligence.LlmResponse>

  /** `{ success: true, count }`, or the error the orchestrator rethrows. */
  datatype Outcome = Completed(count: nat) | Threw(message: string)

  /**
   * What one run does: the updates it issues on the scan, the findings it
   * creates, its outcome, and the intelligence cache it leaves behind.
   */
  datatype Run = Run(patches: seq<ScanPatch>, created: seq<FindingData>, outcome: Outcome, cache: Cache)

  predicate IsGithub(url: string) {
    Contains(url, GITHUB_HOST)
  }

  /** `llmConfig?.key` is truthy. */
  predicate Engaged(llm: Option<Intelligence.LlmConfig>) {
    llm.Some? && llm.value.key != ""
  }

  /** `Critical Error: ${error.message || "Unknown Failure"}` */
  function ErrorLine(message: string): (r: string)
    ensures StartsWith(r, ERROR_HEAD)
    ensures message != "" ==> r[|ERROR_HEAD|..] == message
    ensures message == "" ==> r[|ERROR_HEAD|..] == UNKNOWN_FAILURE
  {
    ERROR_HEAD + (if message == "" then UNKNOWN_FAILURE else message)
  }

  function Logs(lines: seq<string>): ScanPatch {
    ScanPatch(None, Some(lines))
  }

  /** The log line written for one persisted finding. */
  function FindingLine(issue: Reasoning, web: bool): string {
    var report := Agents.GenerateSecurityReport(issue);
    FINDING_HEAD + report.title + " (" + report.severity + ")"
      + if !web then REPO_FINDING_TAIL
        else if StartsWith(issue.id, "LLM") then VIA_INTELLIGENCE
        else VIA_HEURISTICS
  }

  /** The `data` passed to finding.create for one issue. */
  function FindingRecord(issue: Reasoning, scanId: string): (d: FindingData)
    ensures d.id.None? && d.scanId == scanId
    ensures d.findingType == issue.issue && d.severity == issue.severity
    ensures d.description == issue.description && d.evidence == issue.evidence
    ensures d.location == issue.category
  {
    var report := Agents.GenerateSecurityReport(issue);
    FindingData(None, scanId, report.title, report.severity, report.description, report.evidence,
                report.category)
  }

  function FindingLines(issues: seq<Reasoning>, web: bool): (r: seq<string>)
    ensures |r| == |issues|
  {
    seq(|issues|, i requires 0 <= i < |issues| => FindingLine(issues[i], web))
  }

  function FindingRecords(issues: seq<Reasoning>, scanId: string): (r: seq<FindingData>)
    ensures |r| == |issues|
  {
    seq(|issues|, i requires 0 <= i < |issues| => FindingRecord(issues[i], scanId))
  }

  /** The stored findings for a run's records, the k-th taking the k-th generated id. */
  function Materialize(records: seq<FindingData>, ids: nat -> string, now: int): (r: seq<Finding>)
    ensures |r| == |records|
  {
    seq(|records|, i requires 0 <= i < |records| => NewFinding(records[i], ids(i), now))
  }

  /**
   * The issues a validated target produces and the cache afterwards:
   * repository reasoning for GitHub URLs, web reasoning otherwise.
   */
  function Issues(url: string, llm: Option<Intelligence.LlmConfig>, p: Pipeline, cache: Cache): (seq<Reasoning>, Cache) {
    if IsGithub(url) then Reasoner.RepoReasoning(cache, p.repoRecon(url), llm, p.json, p.exec)
    else Reasoner.WebReasoning(cache, p.webRecon(url), llm, p.json, p.exec)
  }

  /** The progress lines written between validation and the findings, one update per `scan.update`. */
  function StageLogs(url: string, llm: Option<Intelligence.LlmConfig>, p: Pipeline): seq<ScanPatch> {
    if IsGithub(url) then
      var recon := p.repoRecon(url);
      [Logs([DETECTED_REPO_LOG, MAPPING_REPO_LOG]),
       Logs([RECON_COUNT_HEAD + NatToString(|recon.foundFiles|) + RECON_COUNT_TAIL, SECRET_SCANNER_LOG])]
      + if Engaged(llm) then [Logs([ENGAGE_HEAD + llm.value.provider + REPO_ENGAGE_TAIL])] else []
    else
      var recon := p.webRecon(url);
      [Logs([PROBING_LOG, HEAD_REQUEST_HEAD + url]),
       Logs([HEADER_COUNT_HEAD + NatToString(|recon.serverHeaders|) + HEADER_COUNT_TAIL, HTML_SCANNED_LOG])]
      + if Engaged(llm) then [Logs([ENGAGE_HEAD + llm.value.provider + WEB_ENGAGE_TAIL])] else []
  }

  const OPENING := ScanPatch(Some(RUNNING), Some([VALIDATED_LOG]))
  const CLOSING := ScanPatch(Some(COMPLETED), Some([FINALIZED_LOG, SYNCHRONIZED_LOG]))

  /** The updates of a run whose target passed validation. */
  function SuccessPatches(url: string, llm: Option<Intelligence.LlmConfig>, p: Pipeline,
                          issues: seq<Reasoning>): seq<ScanPatch> {
    [OPENING] + StageLogs(url, llm, p) + [Logs(FindingLines(issues, !IsGithub(url))), CLOSING]
  }

  /** The update the failure handler issues. */
  function FailurePatch(message: string): ScanPatch {
    ScanPatch(Some(FAILED), Some([ErrorLine(message)]))
  }

  /** runFullSecurityScan as a description: what it writes and how it ends, given the stored scan. */
  function PlanRun(scan: Option<Scan>, scanId: string, llm: Option<Intelligence.LlmConfig>, p: Pipeline,
                   cache: Cache): Run {
    match scan
    case None => Run([FailurePatch(NOT_FOUND)], [], Threw(NOT_FOUND), cache)
    case Some(s) =>
      var v := Agents.ValidateTarget(p.parseUrl(s.url), s.consent);
      if !v.isValid then
        Run([ScanPatch(Some(FAILED), None), FailurePatch(v.reason)], [], Threw(v.reason), cache)
      else
        var (issues, cache') := Issues(s.url, llm, p, cache);
        Run(SuccessPatches(s.url, llm, p, issues), FindingRecords(issues, scanId), Completed(|issues|), cache')
  }

  // ---------------------------------------------------------------------------
  // The orchestrator over the store

  /** One scan.update, recorded against the series issued so far. */
  method Update(store: MockStore, scanId: string, patch: ScanPatch,
                ghost base: seq<Scan>, ghost done: seq<ScanPatch>)
    requires store.scans == PatchAll(base, scanId, done)
    modifies store
    ensures store.scans == PatchAll(base, scanId, done + [patch])
    ensures store.findings == old(store.findings) && store.sessions == old(store.sessions)
  {
    var _ := store.UpdateScan(scanId, patch);
    PatchAllSnoc(base, scanId, done, patch);
  }

  /** A series of scan.update calls, in order. */
  method UpdateAll(store: MockStore, scanId: string, ps: seq<ScanPatch>,
                   ghost base: seq<Scan>, ghost done: seq<ScanPatch>)
    requires store.scans == PatchAll(base, scanId, done)
    modifies store
    ensures store.scans == PatchAll(base, scanId, done + ps)
    ensures store.findings == old(store.findings) && store.sessions == old(store.sessions)
  {
    var k := 0;
    assert done + ps[..0] == done;
    while k < |ps|
      invariant 0 <= k <= |ps|
      invariant store.scans == PatchAll(base, scanId, done + ps[..k])
      invariant store.findings == old(store.findings) && store.sessions == old(store.sessions)
    {
      Update(store, scanId, ps[k], base, done + ps[..k]);
      assert done + ps[..k + 1] == done + ps[..k] + [ps[k]];
      k := k + 1;
    }
    assert ps[..k] == ps;
  }

  /** The issues' `map`: one finding.create per issue, in order, collecting the log lines. */
  method PersistFindings(store: MockStore, scanId: string, issues: seq<Reasoning>, web: bool,
                         ids: nat -> string, now: int) returns (lines: seq<string>)
    modifies store
    ensures lines == FindingLines(issues, web)
    ensures store.findings == old(store.findings) + Materialize(FindingRecords(issues, scanId), ids, now)
    ensures store.scans == old(store.scans) && store.sessions == old(store.sessions)
  {
    lines := [];
    var k := 0;
    while k < |issues|
      invariant 0 <= k <= |issues|
      invariant lines == FindingLines(issues[..k], web)
      invariant store.findings == old(store.findings) + Materialize(FindingRecords(issues[..k], scanId), ids, now)
      invariant store.scans == old(store.scans) && store.sessions == old(store.sessions)
    {
      var _ := store.CreateFinding(FindingRecord(issues[k], scanId), ids(k), now);
      lines := lines + [FindingLine(issues[k], web)];
      assert issues[..k + 1] == issues[..k] + [issues[k]];
      k := k + 1;
    }
    assert issues[..k] == issues;
  }

  /**
   * The pipeline after validation: the branch's progress lines, the
   * reasoning through the dispatcher, the findings, the completion update.
   */
  method RunValidated(store: MockStore, d: Intelligence.IntelligenceDispatcher, scanId: string, url: string,
                      llm: Option<Intelligence.LlmConfig>, p: Pipeline, ids: nat -> string, now: int,
                      ghost base: seq<Scan>) returns (issues: seq<Reasoning>)
    requires store.scans == base
    requires d.Valid()
    modifies store, d
    ensures d.Valid()
    ensures (issues, d.cache) == Issues(url, llm, p, old(d.cache))
    ensures store.scans == PatchAll(base, scanId, SuccessPatches(url, llm, p, issues))
    ensures store.findings == old(store.findings) + Materialize(FindingRecords(issues, scanId), ids, now)
    ensures store.sessions == old(store.sessions)
  {
    var stages := StageLogs(url, llm, p);
    UpdateAll(store, scanId, [OPENING] + stages, base, []);
    if IsGithub(url) {
      issues := Reasoner.ReasonRepo(d, p.repoRecon(url), llm, p.json, p.exec);
    } else {
      issues := Reasoner.ReasonWeb(d, p.webRecon(url), llm, p.json, p.exec);
    }
    var lines := PersistFindings(store, scanId, issues, !IsGithub(url), ids, now);
    UpdateAll(store, scanId, [Logs(lines), CLOSING], base, [] + ([OPENING] + stages));
    assert [] + ([OPENING] + stages) + [Logs(lines), CLOSING] == SuccessPatches(url, llm, p, issues);
  }

  /** runFullSecurityScan: carries out exactly the run `PlanRun` describes for the stored scan. */
  method RunFullSecurityScan(store: MockStore, d: Intelligence.IntelligenceDispatcher, scanId: string,
                             llm: Option<Intelligence.LlmConfig>, p: Pipeline, ids: nat -> string, now: int)
    returns (outcome: Outcome)
    requires d.Valid()
    modifies store, d
    ensures d.Valid()
    ensures var run := PlanRun(FindScan(old(store.scans), scanId), scanId, llm, p, old(d.cache));
      && outcome == run.outcome
      && d.cache == run.cache
      && store.scans == PatchAll(old(store.scans), scanId, run.patches)
      && store.findings == old(store.findings) + Materialize(run.created, ids, now)
      && store.sessions == old(store.sessions)
  {
    ghost var base := store.scans;
    var found := FindScan(store.scans, scanId);
    if found.None? {
      Update(store, scanId, FailurePatch(NOT_FOUND), base, []);
      assert [] + [FailurePatch(NOT_FOUND)] == [FailurePatch(NOT_FOUND)];
      return Threw(NOT_FOUND);
    }
    var scan := found.value;
    var v := Agents.ValidateTarget(p.parseUrl(scan.url), scan.consent);
    if !v.isValid {
      Update(store, scanId, ScanPatch(Some(FAILED), None), base, []);
      Update(store, scanId, FailurePatch(v.reason), base, [] + [ScanPatch(Some(FAILED), None)]);
      assert [] + [ScanPatch(Some(FAILED), None)] + [FailurePatch(v.reason)]
          == [ScanPatch(Some(FAILED), None), FailurePatch(v.reason)];
      return Threw(v.reason);
    }
    var issues := RunValidated(store, d, scanId, scan.url, llm, p, ids, now, base);
    outcome := Completed(|issues|);
  }

  // ---------------------------------------------------------------------------
  // Properties of a run

  /**
   * Between validation and the findings the run logs two updates, plus the
   * intelligence line exactly when an LLM key is configured; the first line
   * announces the repository pipeline exactly when the URL names github.com.
   */
  lemma {:induction false} StageLogsSpec(url: string, llm: Option<Intelligence.LlmConfig>, p: Pipeline)
    ensures var st := StageLogs(url, llm, p);
      var lines := PatchLogs(st);
      && |st| == (if Engaged(llm) then 3 else 2)
      && StatusWrites(st) == []
      && |lines| == (if Engaged(llm) then 5 else 4)
      && (IsGithub(url) <==> lines[0] == DETECTED_REPO_LOG)
      && (Engaged(llm) ==> lines[4] == ENGAGE_HEAD + llm.value.provider
                                      + if IsGithub(url) then REPO_ENGAGE_TAIL else WEB_ENGAGE_TAIL)
  {
    var st := StageLogs(url, llm, p);
    assert st[0].logs.Some? && st[1].logs.Some?;
    assert |PROBING_LOG| != |DETECTED_REPO_LOG|;
    if Engaged(llm) {
      assert st == [st[0], st[1]] + [st[2]];
      PatchLogsAppend([st[0], st[1]], [st[2]]);
      PatchLogsAppend([st[0]], [st[1]]);
      StatusWritesAppend([st[0], st[1]], [st[2]]);
      StatusWritesAppend([st[0]], [st[1]]);
    } else {
      assert st == [st[0]] + [st[1]];
      PatchLogsAppend([st[0]], [st[1]]);
      StatusWritesAppend([st[0]], [st[1]]);
    }
  }

  /** The failure handler's updates on a stored scan: FAILED, with the error line as the one new log line. */
  lemma {:induction false} FailureSeries(scans: seq<Scan>, scanId: string, ps: seq<ScanPatch>, message: string)
    requires ScanIndex(scans, scanId) != -1
    requires ps == [ScanPatch(Some(FAILED), None), FailurePatch(message)]
    ensures var i := ScanIndex(scans, scanId);
      var r := PatchAll(scans, scanId, ps);
      && StatusWrites(ps) == [FAILED, FAILED]
      && 0 <= i < |r| && r == scans[i := r[i]]
      && r[i].status == FAILED
      && r[i].logs == scans[i].logs + [ErrorLine(message)]
  {
    var i := ScanIndex(scans, scanId);
    PatchAllSpec(scans, scanId, ps);
    PatchSeriesLogs(scans[i], ps);
    PatchSeriesStatus(scans[i], ps);
    assert PatchLogs(ps[1..][1..]) == [];
    assert StatusWrites(ps[1..][1..]) == [];
  }

  /** The completed run's updates on a stored scan: RUNNING, then the stage and finding lines, then COMPLETED. */
  lemma {:induction false} SuccessSeries(scans: seq<Scan>, scanId: string, stages: seq<ScanPatch>, lines: seq<string>)
    requires ScanIndex(scans, scanId) != -1
    requires StatusWrites(stages) == []
    ensures var ps := [OPENING] + stages + [Logs(lines), CLOSING];
      var i := ScanIndex(scans, scanId);
      var r := PatchAll(scans, scanId, ps);
      && StatusWrites(ps) == [RUNNING, COMPLETED]
      && 0 <= i < |r| && r == scans[i := r[i]]
      && r[i].status == COMPLETED
      && r[i].logs == scans[i].logs + ([VALIDATED_LOG] + PatchLogs(stages) + lines
                                       + [FINALIZED_LOG, SYNCHRONIZED_LOG])
  {
    var ps := [OPENING] + stages + [Logs(lines), CLOSING];
    var i := ScanIndex(scans, scanId);
    PatchAllSpec(scans, scanId, ps);
    PatchSeriesLogs(scans[i], ps);
    PatchSeriesStatus(scans[i], ps);
    assert PatchAll(scans, scanId, ps)[i] == PatchSeries(scans[i], ps);
    SuccessLogs(stages, lines);
    StatusWritesOfSuccess(stages, lines);
  }

  lemma {:induction false} SuccessLogs(stages: seq<ScanPatch>, lines: seq<string>)
    ensures PatchLogs([OPENING] + stages + [Logs(lines), CLOSING])
            == [VALIDATED_LOG] + PatchLogs(stages) + lines + [FINALIZED_LOG, SYNCHRONIZED_LOG]
  {
    var tail := [Logs(lines), CLOSING];
    PatchLogsAppend([OPENING] + stages, tail);
    PatchLogsAppend([OPENING], stages);
    assert PatchLogs(tail[1..][1..]) == [];
  }

  /** A scan id the store does not hold: the run throws, and neither scans nor findings change. */
  lemma {:induction false} MissingScanChangesNothing(scans: seq<Scan>, scanId: string, llm: Option<Intelligence.LlmConfig>,
                                  p: Pipeline, cache: Cache)
    requires FindScan(scans, scanId).None?
    ensures var run := PlanRun(FindScan(scans, scanId), scanId, llm, p, cache);
      && run.outcome == Threw(NOT_FOUND)
      && run.created == []
      && run.cache == cache
      && PatchAll(scans, scanId, run.patches) == scans
  {
    var run := PlanRun(None, scanId, llm, p, cache);
    PatchAllUnknownId(scans, scanId, run.patches);
  }

  /**
   * A target that fails validation: the run throws the validation reason,
   * creates no finding, and leaves the scan FAILED with that reason as its
   * one new log line; no other scan changes.
   */
  lemma {:induction false} RejectedTargetFails(scans: seq<Scan>, scanId: string, s: Scan,
                            llm: Option<Intelligence.LlmConfig>, p: Pipeline, cache: Cache)
    requires FindScan(scans, scanId) == Some(s)
    requires !Agents.ValidateTarget(p.parseUrl(s.url), s.consent).isValid
    ensures var reason := Agents.ValidateTarget(p.parseUrl(s.url), s.consent).reason;
      var run := PlanRun(Some(s), scanId, llm, p, cache);
      var i := ScanIndex(scans, scanId);
      var r := PatchAll(scans, scanId, run.patches);
      && run.outcome == Threw(reason)
      && run.created == []
      && run.cache == cache
      && StatusWrites(run.patches) == [FAILED, FAILED]
      && 0 <= i < |r| && r == scans[i := r[i]]
      && r[i].status == FAILED
      && r[i].logs == s.logs + [ErrorLine(reason)]
  {
    var reason := Agents.ValidateTarget(p.parseUrl(s.url), s.consent).reason;
    FailureSeries(scans, scanId, PlanRun(Some(s), scanId, llm, p, cache).patches, reason);
  }

  /**
   * A target that passes validation: the run completes with one finding
   * per issue, writes RUNNING then COMPLETED, and appends to the scan's log
   * the validation line, the stage lines, one line per finding and the two
   * closing lines, in that order; no other scan changes.
   */
  lemma {:induction false} CompletedRunLogs(scans: seq<Scan>, scanId: string, s: Scan,
                         llm: Option<Intelligence.LlmConfig>, p: Pipeline, cache: Cache)
    requires FindScan(scans, scanId) == Some(s)
    requires Agents.ValidateTarget(p.parseUrl(s.url), s.consent).isValid
    ensures var issues := Issues(s.url, llm, p, cache).0;
      var run := PlanRun(Some(s), scanId, llm, p, cache);
      var i := ScanIndex(scans, scanId);
      var r := PatchAll(scans, scanId, run.patches);
      && run.outcome == Completed(|issues|)
      && run.created == FindingRecords(issues, scanId)
      && run.cache == Issues(s.url, llm, p, cache).1
      && StatusWrites(run.patches) == [RUNNING, COMPLETED]
      && 0 <= i < |r| && r == scans[i := r[i]]
      && r[i].status == COMPLETED
      && r[i].logs == s.logs + ([VALIDATED_LOG] + PatchLogs(StageLogs(s.url, llm, p))
                                + FindingLines(issues, !IsGithub(s.url)) + [FINALIZED_LOG, SYNCHRONIZED_LOG])
  {
    StageLogsSpec(s.url, llm, p);
    SuccessSeries(scans, scanId, StageLogs(s.url, llm, p), FindingLines(Issues(s.url, llm, p, cache).0, !IsGithub(s.url)));
  }

  /**
   * A validated target's issues start with the branch's heuristic findings,
   * unchanged; without an LLM configured they are exactly those and the
   * cache is left as it was.
   */
  lemma {:induction false} IssuesStartWithHeuristics(url: string, llm: Option<Intelligence.LlmConfig>, p: Pipeline,
                                                     cache: Cache)
    ensures var (issues, cache') := Issues(url, llm, p, cache);
      var h := if IsGithub(url) then Agents.RepoHeuristics(p.repoRecon(url))
               else Agents.WebHeuristics(p.webRecon(url));
      && |issues| >= |h| && issues[..|h|] == h
      && (!Reasoner.LlmEnabled(llm) ==> issues == h && cache' == cache)
  {
    if IsGithub(url) {
      Reasoner.RepoReasoningShape(cache, p.repoRecon(url), llm, p.json, p.exec);
    } else {
      Reasoner.WebReasoningShape(cache, p.webRecon(url), llm, p.json, p.exec);
    }
  }

  /** A run without an LLM configured leaves the intelligence cache as it found it. */
  lemma {:induction false} RunWithoutLlmKeepsCache(scan: Option<Scan>, scanId: string, llm: Option<Intelligence.LlmConfig>,
                                                   p: Pipeline, cache: Cache)
    requires !Reasoner.LlmEnabled(llm)
    ensures PlanRun(scan, scanId, llm, p, cache).cache == cache
  {
    if scan.Some? {
      IssuesStartWithHeuristics(scan.value.url, llm, p, cache);
    }
  }

  /**
   * Status writes of any run: RUNNING then COMPLETED when it completes;
   * otherwise only FAILED, so a scan never goes back to RUNNING and is
   * never marked COMPLETED by a failed run.
   */
  lemma {:induction false} StatusOrder(scan: Option<Scan>, scanId: string, llm: Option<Intelligence.LlmConfig>, p: Pipeline,
                                       cache: Cache)
    ensures var run := PlanRun(scan, scanId, llm, p, cache);
      var w := StatusWrites(run.patches);
      && (run.outcome.Completed? ==> w == [RUNNING, COMPLETED])
      && (run.outcome.Threw? ==> w == [FAILED] || w == [FAILED, FAILED])
  {
    var run := PlanRun(scan, scanId, llm, p, cache);
    if scan.None? {
      assert StatusWrites(run.patches[1..]) == [];
    } else if Agents.ValidateTarget(p.parseUrl(scan.value.url), scan.value.consent).isValid {
      var stages := StageLogs(scan.value.url, llm, p);
      StageLogsSpec(scan.value.url, llm, p);
      StatusWritesOfSuccess(stages, FindingLines(Issues(scan.value.url, llm, p, cache).0, !IsGithub(scan.value.url)));
    } else {
      assert StatusWrites(run.patches[1..][1..]) == [];
    }
  }

  lemma {:induction false} StatusWritesOfSuccess(stages: seq<ScanPatch>, lines: seq<string>)
    requires StatusWrites(stages) == []
    ensures StatusWrites([OPENING] + stages + [Logs(lines), CLOSING]) == [RUNNING, COMPLETED]
  {
    var tail := [Logs(lines), CLOSING];
    StatusWritesAppend([OPENING] + stages, tail);
    StatusWritesAppend([OPENING], stages);
    assert StatusWrites(tail[1..][1..]) == [];
  }
  /** A web finding's line credits Intelligence exactly when the issue id starts with "LLM". */
  lemma {:induction false} WebFindingLabel(issue: Reasoning)
    ensures EndsWith(FindingLine(issue, true), VIA_INTELLIGENCE) <==> StartsWith(issue.id, "LLM")
    ensures !StartsWith(issue.id, "LLM") ==> EndsWith(FindingLine(issue, true), VIA_HEURISTICS)
  {
    var line := FindingLine(issue, true);
    if !StartsWith(issue.id, "LLM") {
      assert line[|line| - |VIA_HEURISTICS|..] == VIA_HEURISTICS;
      assert line[|line| - 2] == VIA_HEURISTICS[|VIA_HEURISTICS| - 2];
      assert VIA_INTELLIGENCE[|VIA_INTELLIGENCE| - 2] != VIA_HEURISTICS[|VIA_HEURISTICS| - 2];
    }
  }

  /** One stored finding per issue, in order, each tied to the scan and carrying its issue's report. */
  lemma {:induction false} CreatedFindingsMatchIssues(issues: seq<Reasoning>, scanId: string, ids: nat -> string, now: int)
    ensures var fs := Materialize(FindingRecords(issues, scanId), ids, now);
      && |fs| == |issues|
      && forall k :: 0 <= k < |fs| ==>
           && fs[k].id == ids(k) && fs[k].scanId == scanId && fs[k].createdAt == now
           && fs[k].findingType == issues[k].issue && fs[k].severity == issues[k].severity
           && fs[k].description == issues[k].description && fs[k].evidence == issues[k].evidence
           && fs[k].location == issues[k].category
  {
  }
}
