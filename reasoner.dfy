/**
 * reasonVulnerabilities and reasonRepoVulnerabilities: the heuristic rule
 * lists followed, when an LLM is configured, by the findings parsed out of
 * the dispatcher's response. JSON encoding and decoding are the oracles of
 * a `Json` value.
 */
module Reasoner {
  import opened Common
  import opened Agents
  import opened Intelligence

  /** One object of the JSON array an LLM returns; `id` is present only if the model wrote one. */
  datatype ParsedEntry = ParsedEntry(
    id: Option<string>,
    category: string,
    issue: string,
    description: string,
    severity: string,
    evidence: string,
    remediation: string)

  /**
   * `JSON.stringify` of a header record and of a string list, and
   * `JSON.parse` of an array of findings (None when it throws or the value
   * is not an array, so that `forEach` throws).
   */
  datatype Json = Json(
    stringifyHeaders: map<string, string> -> string,
    stringifyList: seq<string> -> string,
    parse: string -> Option<seq<ParsedEntry>>)

  /** An optional string that JavaScript treats as true. */
  predicate Present(o: Option<string>) {
    o.Some? && o.value != ""
  }

  /** The reply text: choices first, then content, then candidates, else "". */
  function ExtractText(r: LlmResponse): (text: string)
    ensures Present(r.choiceText) ==> text == r.choiceText.value
    ensures !Present(r.choiceText) && Present(r.contentText) ==> text == r.contentText.value
    ensures (!Present(r.choiceText) && !Present(r.contentText) && Present(r.candidateText)) ==>
              text == r.candidateText.value
    ensures text == "" <==> !Present(r.choiceText) && !Present(r.contentText) && !Present(r.candidateText)
  {
    if Present(r.choiceText) then r.choiceText.value
    else if Present(r.contentText) then r.contentText.value
    else if Present(r.candidateText) then r.candidateText.value
    else ""
  }

  /**
   * `content.substring(content.indexOf('['), content.lastIndexOf(']') + 1)`,
   * attempted only when both brackets occur.
   */
  function BracketSlice(content: string): (r: Option<string>)
    ensures r.Some? <==> '[' in content && ']' in content
  {
    var start := IndexOf(content, '[');
    var end := LastIndexOf(content, ']');
    if start == -1 || end == -1 then None
    else Some(JsSubstring(content, start, end + 1))
  }

  /**
   * When the first '[' precedes the last ']' the slice runs from one to the
   * other inclusive; otherwise `substring` swaps its arguments and the slice
   * lies strictly between the last ']' and the first '[', holding neither.
   */
  lemma BracketSliceSpec(content: string)
    requires '[' in content && ']' in content
    ensures var start := IndexOf(content, '[');
      var end := LastIndexOf(content, ']');
      var s := BracketSlice(content).value;
      && (start < end ==>
            && s == content[start..end + 1]
            && |s| >= 2 && s[0] == '[' && s[|s| - 1] == ']'
            && '[' !in content[..start] && ']' !in content[end + 1..])
      && (end < start ==> s == content[end + 1..start] && '[' !in s && ']' !in s)
  {
    var start := IndexOf(content, '[');
    var end := LastIndexOf(content, ']');
    if end < start {
      var s := content[end + 1..start];
      assert forall k :: 0 <= k < |s| ==> s[k] == content[end + 1 + k];
    }
  }

  /** The finding built from the `idx`-th parsed entry: `{ id: prefix + idx, ...entry }`. */
  function LlmFinding(e: ParsedEntry, prefix: string, idx: nat): (f: Reasoning)
    ensures e.id.None? ==> f.id == prefix + NatToString(idx)
    ensures e.id.Some? ==> f.id == e.id.value
    ensures f.issue == e.issue && f.category == e.category && f.description == e.description
    ensures f.severity == e.severity && f.evidence == e.evidence && f.remediation == e.remediation
  {
    Reasoning(e.id.GetOr(prefix + NatToString(idx)), e.category, e.issue, e.description,
              e.severity, e.evidence, e.remediation)
  }

  /** The findings parsed from a dispatcher response; none when any step fails. */
  function LlmFindings(resp: Option<LlmResponse>, parse: string -> Option<seq<ParsedEntry>>,
                       prefix: string): seq<Reasoning>
  {
    if resp.None? then []
    else match BracketSlice(ExtractText(resp.value))
      case None => []
      case Some(slice) =>
        match parse(slice)
        case None => []
        case Some(entries) =>
          seq(|entries|, i requires 0 <= i < |entries| => LlmFinding(entries[i], prefix, i))
  }

  /**
   * Without a response, without both brackets in its text, or when parsing
   * fails, no finding is added; otherwise exactly one per parsed entry, in
   * order, numbered by position unless the entry has its own id.
   */
  lemma LlmFindingsSpec(resp: Option<LlmResponse>, parse: string -> Option<seq<ParsedEntry>>, prefix: string)
    ensures var fs := LlmFindings(resp, parse, prefix);
      if resp.Some? && '[' in ExtractText(resp.value) && ']' in ExtractText(resp.value)
         && parse(BracketSlice(ExtractText(resp.value)).value).Some?
      then
        var entries := parse(BracketSlice(ExtractText(resp.value)).value).value;
        && |fs| == |entries|
        && forall i :: 0 <= i < |entries| ==>
             && fs[i].issue == entries[i].issue
             && fs[i].severity == entries[i].severity
             && fs[i].evidence == entries[i].evidence
             && fs[i].id == (if entries[i].id.Some? then entries[i].id.value else prefix + NatToString(i))
      else fs == []
  {
  }

  /** An error response carries no reply text, so it adds no finding. */
  lemma TextlessResponseAddsNothing(r: LlmResponse, parse: string -> Option<seq<ParsedEntry>>, prefix: string)
    requires !Present(r.choiceText) && !Present(r.contentText) && !Present(r.candidateText)
    ensures LlmFindings(Some(r), parse, prefix) == []
  {
  }

  /** `llmConfig?.key && llmConfig.provider` */
  predicate LlmEnabled(llm: Option<LlmConfig>) {
    llm.Some? && llm.value.key != "" && llm.value.provider != ""
  }

  const WEB_LLM_PREFIX := "LLM-REASON-"
  const REPO_LLM_PREFIX := "LLM-REPO-REASON-"

  const WEB_PROMPT_HEAD := "\n            Perform a professional security analysis based on this reconnaissance data:\n            Target Tech Stack: "
  const WEB_PROMPT_HEADERS := "\n            Headers: "
  const WEB_PROMPT_SECRETS := "\n            Secrets Found: "
  const WEB_PROMPT_TAIL := "\n            \n            Identify 1-2 sophisticated or contextual vulnerabilities based on this stack.\n            Return results ONLY as a JSON array of objects with these fields:\n            issue, category, description, severity (Low/Medium/High/Critical), evidence, remediation.\n            Do not include any conversational text.\n        "
  const REPO_PROMPT_HEAD := "\n            Perform a professional repository security analysis:\n            Detected Files: "
  const REPO_PROMPT_STACK := "\n            Tech Stack: "
  const REPO_PROMPT_SCORE := "\n            Risk Score: "
  const REPO_PROMPT_TAIL := "\n            \n            Identify potential architecture or configuration flaws specific to this repository structure.\n            Return results ONLY as a JSON array of objects with these fields:\n            issue, category, description, severity (Low/Medium/High/Critical), evidence, remediation.\n            Do not include any conversational text.\n        "

  /** The web prompt: the fixed opening, then the reconnaissance data and the instructions. */
  function WebPrompt(recon: ReconResult, json: Json): string {
    WEB_PROMPT_HEAD + WebPromptBody(recon, json)
  }

  function WebPromptBody(recon: ReconResult, json: Json): string {
    Join(recon.techStack, ", ")
    + WEB_PROMPT_HEADERS + json.stringifyHeaders(recon.serverHeaders)
    + WEB_PROMPT_SECRETS + json.stringifyList(recon.secretsFound)
    + WEB_PROMPT_TAIL
  }

  /** The repository prompt: the opening up to the found files, then the rest of the data and the instructions. */
  function RepoPrompt(recon: RepoReconResult): string {
    RepoPromptOpening(recon.foundFiles) + RepoPromptBody(recon)
  }

  function RepoPromptBody(recon: RepoReconResult): string {
    Join(recon.techStack, ", ") + REPO_PROMPT_SCORE + NatToString(recon.riskScore) + REPO_PROMPT_TAIL
  }

  /** The repository prompt up to the tech stack, which is where the found files end. */
  function RepoPromptOpening(files: seq<string>): string {
    REPO_PROMPT_HEAD + Join(files, ", ") + REPO_PROMPT_STACK
  }

  /**
   * The fixed opening of the web prompt is longer than the hundred characters
   * the cache key keeps, so every web prompt has the same key for a provider.
   */
  lemma {:induction false} WebPromptKeyIsConstant(recon: ReconResult, json: Json, provider: string)
    ensures CacheKey(provider, WebPrompt(recon, json)) == provider + ":" + WEB_PROMPT_HEAD[..PREFIX_LENGTH]
  {
    assert |WEB_PROMPT_HEAD| == 120;
    PrefixOfLongHead(WEB_PROMPT_HEAD, WebPromptBody(recon, json), PREFIX_LENGTH);
  }

  /**
   * Consequently, once one web analysis has been answered successfully, every
   * later web analysis with the same provider, whatever its target, is
   * answered from the cache with that same response and requests no provider.
   */
  lemma WebAnalysesShareCacheEntry(cache: map<string, LlmResponse>, first: ReconResult,
                                   later: ReconResult, json: Json, cfg: LlmConfig,
                                   exec: Exec, laterExec: Exec)
    requires Succeeded(Dispatch(cache, WebPrompt(first, json), cfg, exec).result)
    ensures var d := Dispatch(cache, WebPrompt(first, json), cfg, exec);
      Dispatch(d.cache, WebPrompt(later, json), cfg, laterExec) == Dispatched(d.result, d.cache, [])
  {
    WebPromptKeyIsConstant(first, json, cfg.provider);
    WebPromptKeyIsConstant(later, json, cfg.provider);
    WarmCallIsCached(cache, WebPrompt(first, json), cfg, exec, laterExec);
  }

  /**
   * The repository prompt's key depends on the found-file list alone: the
   * fixed opening is 94 characters and the text after the list is longer
   * than the six characters left.
   */
  lemma {:induction false} RepoPromptKeyDependsOnFiles(r1: RepoReconResult, r2: RepoReconResult, provider: string)
    requires r1.foundFiles == r2.foundFiles
    ensures CacheKey(provider, RepoPrompt(r1)) == CacheKey(provider, RepoPrompt(r2))
  {
    var opening := RepoPromptOpening(r1.foundFiles);
    assert |opening| >= PREFIX_LENGTH by {
      assert |REPO_PROMPT_HEAD| == 94;
      assert |REPO_PROMPT_STACK| == 25;
    }
    PrefixOfLongHead(opening, RepoPromptBody(r1), PREFIX_LENGTH);
    PrefixOfLongHead(opening, RepoPromptBody(r2), PREFIX_LENGTH);
  }

  /** The findings and the cache after reasonVulnerabilities, from the cache before it. */
  function WebReasoning(cache: map<string, LlmResponse>, recon: ReconResult, llm: Option<LlmConfig>,
                        json: Json, exec: Exec): (seq<Reasoning>, map<string, LlmResponse>)
  {
    if !LlmEnabled(llm) then (WebHeuristics(recon), cache)
    else
      var dd := Dispatch(cache, WebPrompt(recon, json), llm.value, exec);
      (WebHeuristics(recon) + LlmFindings(dd.result, json.parse, WEB_LLM_PREFIX), dd.cache)
  }

  /** The findings and the cache after reasonRepoVulnerabilities, from the cache before it. */
  function RepoReasoning(cache: map<string, LlmResponse>, recon: RepoReconResult, llm: Option<LlmConfig>,
                         json: Json, exec: Exec): (seq<Reasoning>, map<string, LlmResponse>)
  {
    if !LlmEnabled(llm) then (RepoHeuristics(recon), cache)
    else
      var dd := Dispatch(cache, RepoPrompt(recon), llm.value, exec);
      (RepoHeuristics(recon) + LlmFindings(dd.result, json.parse, REPO_LLM_PREFIX), dd.cache)
  }

  /**
   * The heuristic findings come first and unchanged; whatever the LLM adds
   * follows them, and nothing is added or cached without an LLM configured.
   */
  lemma WebReasoningShape(cache: map<string, LlmResponse>, recon: ReconResult, llm: Option<LlmConfig>,
                          json: Json, exec: Exec)
    ensures var (fs, cache') := WebReasoning(cache, recon, llm, json, exec);
      var h := WebHeuristics(recon);
      && |fs| >= |h| && fs[..|h|] == h
      && (!LlmEnabled(llm) ==> fs == h && cache' == cache)
      && (LlmEnabled(llm) ==>
            fs[|h|..] == LlmFindings(Dispatch(cache, WebPrompt(recon, json), llm.value, exec).result,
                                     json.parse, WEB_LLM_PREFIX))
  {
  }

  lemma RepoReasoningShape(cache: map<string, LlmResponse>, recon: RepoReconResult, llm: Option<LlmConfig>,
                           json: Json, exec: Exec)
    ensures var (fs, cache') := RepoReasoning(cache, recon, llm, json, exec);
      var h := RepoHeuristics(recon);
      && |fs| >= |h| && fs[..|h|] == h
      && (!LlmEnabled(llm) ==> fs == h && cache' == cache)
      && (LlmEnabled(llm) ==>
            fs[|h|..] == LlmFindings(Dispatch(cache, RepoPrompt(recon), llm.value, exec).result,
                                     json.parse, REPO_LLM_PREFIX))
  {
  }

  /** reasonVulnerabilities: the heuristic findings, then those of the LLM when one is configured. */
  method ReasonWeb(d: IntelligenceDispatcher, recon: ReconResult, llm: Option<LlmConfig>,
                   json: Json, exec: Exec) returns (findings: seq<Reasoning>)
    requires d.Valid()
    modifies d
    ensures d.Valid()
    ensures (findings, d.cache) == WebReasoning(old(d.cache), recon, llm, json, exec)
  {
    findings := WebHeuristics(recon);
    if LlmEnabled(llm) {
      var response, _ := d.Call(WebPrompt(recon, json), llm.value, exec);
      findings := findings + LlmFindings(response, json.parse, WEB_LLM_PREFIX);
    }
  }

  /** reasonRepoVulnerabilities: the repository rules, then those of the LLM when one is configured. */
  method ReasonRepo(d: IntelligenceDispatcher, recon: RepoReconResult, llm: Option<LlmConfig>,
                    json: Json, exec: Exec) returns (findings: seq<Reasoning>)
    requires d.Valid()
    modifies d
    ensures d.Valid()
    ensures (findings, d.cache) == RepoReasoning(old(d.cache), recon, llm, json, exec)
  {
    findings := RepoHeuristics(recon);
    if LlmEnabled(llm) {
      var response, _ := d.Call(RepoPrompt(recon), llm.value, exec);
      findings := findings + LlmFindings(response, json.parse, REPO_LLM_PREFIX);
    }
  }
}
