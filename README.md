# Security Agent: a Dafny model of the scan pipeline

Security Agent is a web application that scans a public website or a GitHub
repository for security weaknesses. A scan record is created with the
target URL and the user's consent. The orchestrator `runFullSecurityScan`
then runs these stages:

- it validates the target;
- it runs the web reconnaissance agent (HEAD and GET probes, an HTML secret
  scan, path probes) or the repository reconnaissance agent (raw-file
  probes of a `github.com/<user>/<repo>` path);
- it maps the reconnaissance result to findings: fixed heuristic rules,
  plus, when an LLM key is configured, findings parsed from a provider's
  reply;
- the provider reply is obtained through a prompt cache with a fallback
  rotation over the other configured providers;
- it stores one finding per issue and appends progress lines to the scan's
  log, ending with COMPLETED or FAILED.

Around the pipeline sit:

- a URL sanitiser and a per-client rate limiter;
- the in-memory store used when no database client is present;
- two static analysers, the Semgrep adapter and the built-in pattern
  scanner (secret regexes and `eval(` detection).

The model has one module per source file:

| module | file | models |
|---|---|---|
| `Common` | common.dfy | Option/Result, the finding record (`Reasoning`), JavaScript string helpers (`includes`, `substring`, `indexOf`, decimal rendering) |
| `Agents` | agents.dfy | `validateTarget`, `performRecon` and `performRepoRecon` as functions of the probe answers, the heuristic rules, `generateSecurityReport` |
| `Intelligence` | intelligence.dfy | `callLlmIntelligence`: the cache (a class with a `map` field), the primary request and the fallback loop |
| `Reasoner` | reasoner.dfy | `reasonVulnerabilities` and `reasonRepoVulnerabilities`: the prompts, reply-text extraction, the bracket slice, numbering of parsed entries |
| `Store` | store.dfy | the mock store (a class with `seq` fields), its `create`/`update`/`delete`/`findMany`/`findUnique` operations, `applyOrderBy` as a stable insertion sort (proved stable for every key value), `includeRelations` |
| `Scanner` | scanner.dfy | `runFullSecurityScan` as a method over the store, proved against a function (`PlanRun`) describing the whole run |
| `Security` | security.dfy | `sanitizeUrl` and `checkRateLimit` (a class with the record map) |
| `Semgrep` | semgrep.dfy | `SemgrepWrapper.scan` and `mapSeverity` |
| `PatternScanner` | pattern_scanner.dfy | `PatternScanner.scan` and `scanSecrets`; both regular expressions are matched the way a global JavaScript regex steps `lastIndex` |

Network requests, process execution, file reading, JSON encoding and
decoding, the clock and id generation are parameters of the operations
that use them. Methods that loop or change state are proved to produce
exactly what a specification function gives. The properties are then
proved about that function.

## Model

| member | source | states |
|---|---|---|
| `Agents.ValidateTarget` | src/lib/agents/AgentSystem.ts:32-52 | No consent gives the consent error. A URL that does not parse gives the malformed error. A target is valid exactly when consent is given, the URL parses and the hostname is not private. Each outcome carries its own reason. |
| `Agents.In172BlockIff` | src/lib/agents/AgentSystem.ts:41 | The `172.(1[6-9]\|2[0-9]\|3[0-1]).` pattern accepts exactly the hostnames that start with `172.n.` for a number n from 16 to 31. |
| `Agents.PrivateHostCases` | src/lib/agents/AgentSystem.ts:40-46 | A hostname is rejected as private exactly when it is one of these: `localhost`, a 127., 10. or 192.168. prefix, a 172.16–31 prefix, or a `.local` suffix. |
| `Agents.KeySecrets` | src/lib/agents/AgentSystem.ts:95 | One entry per API-key capture, in order: entry i is "Potential Key: ", the first four characters of capture i, then "****". |
| `Agents.IpSecrets` | src/lib/agents/AgentSystem.ts:96 | One entry per internal-IP match, in order: entry i is "Internal IP Disclosure: " followed by the whole match i. |
| `Agents.ProbedOkUnfold` | src/lib/agents/AgentSystem.ts:101-118 | A probe key is set by a list of paths exactly when the first path answered ok with that key, or the rest of the list sets it. |
| `Agents.WithProbeKeysSpec` | src/lib/agents/AgentSystem.ts:101-118 | After the path probes, a `probe:<path>` key reads "found" exactly when that path's HEAD answered ok. Every other header is unchanged. |
| `Agents.ProbedGitKey` | src/lib/agents/AgentSystem.ts:102-117 | When the `/.git/config` probe answers ok, the headers hold `probe:/.git/config` = "found". |
| `Agents.ProbedHeadersFromTarget` | src/lib/agents/AgentSystem.ts:61-65 | Every recorded header that is not a `probe:` key is the target's own response header, with its value. |
| `Agents.StackFromHeadersSpec` | src/lib/agents/AgentSystem.ts:68-72 | Each header rule that holds contributes its tag (the powered-by value first), nothing else is added, at most five tags result, and the list is empty exactly when no rule holds. |
| `Agents.WebReconSpec` | src/lib/agents/AgentSystem.ts:55-129 | `WebRecon` on a reachable target: the stack is the tags of its own headers, or "Unknown Web Platform" exactly when they give none. The auth surface is "standard" exactly when the target set a non-empty cookie, "none" otherwise. The entry points are the fixed four, and every own header outside the `probe:` keys is kept with its value. |
| `Agents.ProbedHeadersKeepOwn` | src/lib/agents/AgentSystem.ts:59-117 | Outside the `probe:` keys, a header is recorded exactly when the reachable target sent it, with the target's value. |
| `Agents.NotProbeKey` | src/lib/agents/AgentSystem.ts:106-117 | A header name outside the `probe:` namespace is never set by a path probe. |
| `Agents.UnreachableTarget` | src/lib/agents/AgentSystem.ts:74-76 | When the target's HEAD request throws, the stack is exactly the "Unreachable" tag and the auth surface is "none". |
| `Agents.SecretsComeFromHtml` | src/lib/agents/AgentSystem.ts:78-99 | Only for an ok `text/html` response whose body could be read is the HTML kept and a secret reported per regex match: first every redacted key entry, then every IP entry, each with its exact text. Otherwise the HTML is empty and no secret is reported. |
| `Agents.RunLength` | src/lib/agents/AgentSystem.ts:282 | The greedy `[^/]+` run stays inside the string and contains no '/'. |
| `Agents.RepoMatchAtSound` | src/lib/agents/AgentSystem.ts:282-284 | A match at a position really is `github.com/<user>/<repo>` there, with both parts non-empty and free of '/'. The repository name is maximal, as the greedy class makes it: it ends at the end of the text or at a '/'. |
| `Agents.RepoMatchAtComplete` | src/lib/agents/AgentSystem.ts:282-284 | Wherever a `github.com/<user>/<repo>` path occurs, the expression matches at that position, capturing that owner and a repository name that begins with the path's name. |
| `Agents.RepoPathParts` | src/lib/agents/AgentSystem.ts:282 | A repository path at a position spells the prefix, the owner, a '/' and the name there. |
| `Agents.RunLengthCovers` | src/lib/agents/AgentSystem.ts:282 | A '/'-free stretch lies inside the greedy `[^/]+` run that starts with it. |
| `Agents.RunLengthStopsAtSlash` | src/lib/agents/AgentSystem.ts:282 | A run of non-'/' characters that ends at a '/' is exactly the run the greedy class consumes. |
| `Agents.FindRepoSpec` | src/lib/agents/AgentSystem.ts:282-284 | The search succeeds exactly when some repository path occurs at or after the start. |
| `Agents.FindRepoLeftmost` | src/lib/agents/AgentSystem.ts:282-284 | The search returns the match at the leftmost position where a repository path occurs: none occurs between the start and that position. |
| `Agents.FoundFiles` | src/lib/agents/AgentSystem.ts:295-312 | Only checked files are reported. |
| `Agents.FoundFilesMember` | src/lib/agents/AgentSystem.ts:295-312 | A file is reported exactly when it is in the list and its raw-file HEAD request answered ok. |
| `Agents.RepoReconWithoutPath` | src/lib/agents/AgentSystem.ts:282-320 | Without a repository path nothing is found, the score is 20 and the stack is "Unidentified". |
| `Agents.RepoReconScores` | src/lib/agents/AgentSystem.ts:285-320 | `RepoRecon` on a repository path: the risk score is 90 exactly when `.env` answered, and 20 otherwise. The stack is "Unidentified" exactly when neither package.json nor Dockerfile answered. |
| `Agents.RepoSummarySpec` | src/lib/agents/AgentSystem.ts:306-320 | The same conditions stated on the list of found files, and package.json and Dockerfile contribute Node.js and Docker. |
| `Agents.SecretFindingFields` | src/lib/agents/AgentSystem.ts:191-200 | Secret finding i has id `SEC-EXT-i` and the secret as evidence. It is titled "Internal IP Disclosure" exactly when the secret contains "IP", and "Potential API Key Exposure" otherwise. It is Critical exactly when the secret contains "Key", and Medium otherwise. |
| `Agents.SecretFindings` | src/lib/agents/AgentSystem.ts:190-202 | One finding per secret, in order: entry `i` is `SEC-EXT-i` with the secret as evidence, titled as an IP disclosure exactly when the secret contains "IP", and Critical exactly when it contains "Key". |
| `Agents.HeaderRulesSpec` | src/lib/agents/AgentSystem.ts:136-187 | `HeaderRules`: HSTS-001 is present exactly when the HSTS header is missing or empty, and CSP-001 likewise for CSP. INF-001 is present exactly when the server header is non-empty and longer than 10 characters; it is then Low with evidence "Server: " and the value. SEC-003 is present exactly when the git probe key is set. Nothing else appears, and the order is HSTS, CSP, INF, SEC. |
| `Agents.RankedRules` | src/lib/agents/AgentSystem.ts:136-187 | Four rules appended in a fixed order: each id is present exactly when its rule fires, only those findings appear, and their ranks strictly increase. |
| `Agents.WebHeuristicsShape` | src/lib/agents/AgentSystem.ts:137-202 | `WebHeuristics`: the list is exactly `HeaderRules` of the headers followed by exactly one finding per secret, in order. Entry i is `SEC-EXT-i` with the secret as evidence, and its severity is decided by "Key". |
| `Agents.MissingSecurityHeaders` | src/lib/agents/AgentSystem.ts:137-161 | Missing HSTS and CSP headers give a Medium HSTS-001 followed by a High CSP-001. |
| `Agents.ExposedGitConfig` | src/lib/agents/AgentSystem.ts:101-187 | A `/.git/config` probe that answers ok always leads to the Critical SEC-003 finding. |
| `Agents.SecretIdsDistinct` | src/lib/agents/AgentSystem.ts:191-193 | No two secret findings in one list share an id. |
| `Agents.SecretIdsDiffer` | src/lib/agents/AgentSystem.ts:193 | Different indices give different `SEC-EXT-` ids. |
| `Agents.KeySecretFinding` | src/lib/agents/AgentSystem.ts:95-197 | The finding for any redacted key is Critical, and it is titled "Internal IP Disclosure" exactly when the key's first four characters contain "IP". |
| `Agents.KeySecretText` | src/lib/agents/AgentSystem.ts:95-197 | A redacted key entry contains "Key", and contains "IP" exactly when its four kept characters do. |
| `Agents.IpSecretFinding` | src/lib/agents/AgentSystem.ts:96-197 | The finding for any IP entry is titled "Internal IP Disclosure", and it is Critical exactly when the match contains "Key". |
| `Agents.IpSecretText` | src/lib/agents/AgentSystem.ts:96-197 | An IP entry contains "IP", and contains "Key" exactly when the match does. |
| `Agents.RepoHeuristicsSpec` | src/lib/agents/AgentSystem.ts:327-350 | An exposed `.env` gives exactly one Critical finding (SEC-001). docker-compose.yml gives SEC-002. No other finding is produced and there are at most two. |
| `Agents.ReportKeepsAllButId` | src/lib/agents/AgentSystem.ts:256-267 | Two findings give the same report exactly when they differ at most in their id. |
| `Intelligence.CacheKey` | src/lib/agents/AgentSystem.ts:407 | The key is the provider, a colon and at most the first 100 characters of the prompt. |
| `Intelligence.SharedPrefixSharesKey` | src/lib/agents/AgentSystem.ts:407 | Prompts that agree on their first 100 characters share an entry. |
| `Intelligence.CacheKeyInjective` | src/lib/agents/AgentSystem.ts:407 | For provider names without ':', equal keys mean the same provider and the same prompt prefix. |
| `Intelligence.Fallbacks` | src/lib/agents/AgentSystem.ts:421 | The fallbacks are exactly the configured providers other than the primary whose key is non-empty. |
| `Intelligence.FallbacksAppend` | src/lib/agents/AgentSystem.ts:421 | The filter keeps the configured order: filtering two lists one after the other is filtering each and concatenating. |
| `Intelligence.FallbacksSingle` | src/lib/agents/AgentSystem.ts:421 | A single entry survives exactly when it names another provider and holds a key. |
| `Intelligence.Names` | src/lib/agents/AgentSystem.ts:423-425 | The provider names of the entries, position by position. |
| `Intelligence.FirstSuccess` | src/lib/agents/AgentSystem.ts:423-430 | Gives the first fallback whose request succeeds, with every earlier one failing. It gives none when all of them fail. |
| `Intelligence.DispatchCacheHit` | src/lib/agents/AgentSystem.ts:410-413 | A cache hit returns the cached response, requests no provider and leaves the cache as it was. |
| `Intelligence.DispatchCachesOnlySuccess` | src/lib/agents/AgentSystem.ts:410-436 | The cache holds only successful responses. Only the prompt's own key can change, and it is added exactly when the call returns a success. A cached key answers with its entry. |
| `Intelligence.DispatchPrimarySuccess` | src/lib/agents/AgentSystem.ts:416-436 | A successful primary is returned and cached, and no fallback is requested. |
| `Intelligence.DispatchNoFallbackKeys` | src/lib/agents/AgentSystem.ts:419-436 | Without `allKeys`, a failed primary is returned as it is and nothing is cached. |
| `Intelligence.DispatchFallback` | src/lib/agents/AgentSystem.ts:419-436 | `Dispatch`: after a failed primary, the fallbacks are requested in order up to the first success. That one is returned and cached under the primary's key. If none succeeds, the primary's result is returned and the cache is unchanged. |
| `Intelligence.WarmCallIsCached` | src/lib/agents/AgentSystem.ts:410-434 | After a successful call, the same provider and prompt are answered from the cache, whatever the providers would now answer. |
| `Intelligence.RotateFallbacks` | src/lib/agents/AgentSystem.ts:423-430 | The loop returns the first successful fallback and the providers it requested. If none succeeds it returns nothing, after requesting all of them. |
| `Intelligence.IntelligenceDispatcher.constructor` | src/lib/agents/AgentSystem.ts:402 | The cache starts empty. |
| `Intelligence.IntelligenceDispatcher.Call` | src/lib/agents/AgentSystem.ts:405-437 | Returns the response and leaves the cache exactly as `Dispatch` describes, keeping the invariant that only successes are cached. |
| `Reasoner.ExtractText` | src/lib/agents/AgentSystem.ts:224-231 | The reply text is `choices` if truthy, else `content`, else `candidates`, else empty. It is empty exactly when none of the three holds text. |
| `Reasoner.BracketSlice` | src/lib/agents/AgentSystem.ts:234-237 | A slice is attempted exactly when both '[' and ']' occur. |
| `Reasoner.BracketSliceSpec` | src/lib/agents/AgentSystem.ts:234-237 | With '[' before the last ']', the slice runs from the first '[' to the last ']' inclusive. Otherwise `substring` swaps its bounds and the slice contains neither bracket. |
| `Reasoner.LlmFinding` | src/lib/agents/AgentSystem.ts:239-243 | The finding takes every field of the entry. Its id is the numbered prefix unless the entry has its own id. |
| `Reasoner.LlmFindingsSpec` | src/lib/agents/AgentSystem.ts:220-248 | No response, a reply without both brackets, or a parse failure adds nothing. Otherwise exactly one finding is added per parsed entry, in order. |
| `Reasoner.TextlessResponseAddsNothing` | src/lib/agents/AgentSystem.ts:224-236 | A response without reply text adds no finding. |
| `Reasoner.WebPromptKeyIsConstant` | src/lib/agents/AgentSystem.ts:208-220 | The fixed opening of the web prompt is longer than 100 characters, so every web prompt has the same cache key for a provider. |
| `Reasoner.WebAnalysesShareCacheEntry` | src/lib/agents/AgentSystem.ts:405-413 | After one successful web analysis, every later web analysis with that provider, whatever its target, is answered from the cache with the same response. |
| `Reasoner.RepoPromptKeyDependsOnFiles` | src/lib/agents/AgentSystem.ts:356-368 | The repository prompt's cache key depends on the found-file list alone. |
| `Reasoner.WebReasoningShape` | src/lib/agents/AgentSystem.ts:132-253 | The heuristic findings come first and unchanged, and the LLM findings follow them. Without an LLM nothing is added and the cache is untouched. |
| `Reasoner.RepoReasoningShape` | src/lib/agents/AgentSystem.ts:324-400 | The same for the repository reasoning. |
| `Reasoner.ReasonWeb` | src/lib/agents/AgentSystem.ts:132-253 | Returns the findings and leaves the cache as `WebReasoning` describes. |
| `Reasoner.ReasonRepo` | src/lib/agents/AgentSystem.ts:324-400 | Returns the findings and leaves the cache as `RepoReasoning` describes. |
| `Scanner.ErrorLine` | src/lib/scanner.ts:149 | The failure line is "Critical Error: " followed by the message, or by "Unknown Failure" when the message is empty. |
| `Scanner.FindingRecord` | src/lib/scanner.ts:67-121 | The stored finding takes its type, severity, description, evidence and location from the issue's report, under this scan's id. |
| `Scanner.FindingLines` | src/lib/scanner.ts:79-125 | One log line per issue. |
| `Scanner.FindingRecords` | src/lib/scanner.ts:67-123 | One record per issue. |
| `Scanner.Materialize` | src/lib/scanner.ts:69-112 | One stored finding per record. |
| `Scanner.Update` | src/lib/scanner.ts:23-26 | One `scan.update` extends the series of updates applied to the scan. Findings and sessions are untouched. |
| `Scanner.UpdateAll` | src/lib/scanner.ts:45-105 | A series of updates is applied in order. Findings and sessions are untouched. |
| `Scanner.PersistFindings` | src/lib/scanner.ts:67-125 | Creates one finding per issue, in order, and returns one log line per issue. Scans and sessions are untouched. |
| `Scanner.RunValidated` | src/lib/scanner.ts:31-142 | After validation, the issues and the dispatcher's cache are what the branch's reasoning gives on the old cache, and the store holds the success updates and the findings created for those issues. |
| `Scanner.RunFullSecurityScan` | src/lib/scanner.ts:11-155 | The run's outcome, the scan updates, the created findings and the dispatcher's cache afterwards are exactly those `PlanRun` describes for the stored scan and the cache before. |
| `Scanner.StageLogsSpec` | src/lib/scanner.ts:44-105 | Between validation and the findings there are two updates, plus the intelligence line exactly when an LLM key is set. They write no status. The first line announces the repository pipeline exactly when the URL contains github.com. |
| `Scanner.FailureSeries` | src/lib/scanner.ts:22-153 | The failure updates mark the scan FAILED and add the error line as the only new log line. No other scan changes. |
| `Scanner.SuccessSeries` | src/lib/scanner.ts:31-140 | A completed run writes RUNNING and then COMPLETED. It appends the validation, stage, finding and closing lines in order. No other scan changes. |
| `Scanner.SuccessLogs` | src/lib/scanner.ts:35-137 | The log lines of a completed run are in the order they are issued. |
| `Scanner.MissingScanChangesNothing` | src/lib/scanner.ts:18-153 | An unknown scan id throws the not-found error, creates nothing, changes no scan and leaves the cache alone. |
| `Scanner.RejectedTargetFails` | src/lib/scanner.ts:21-153 | A rejected target throws its reason, creates no finding and leaves the cache alone. It leaves the scan FAILED with that reason as its one new log line. |
| `Scanner.CompletedRunLogs` | src/lib/scanner.ts:21-142 | A validated target completes with one finding per issue and ends COMPLETED. The log gets the whole success sequence. |
| `Scanner.IssuesStartWithHeuristics` | src/lib/scanner.ts:64-107 | A validated target's issues begin with the branch's heuristic findings, unchanged. Without an LLM configured they are exactly those, and the cache is unchanged. |
| `Scanner.RunWithoutLlmKeepsCache` | src/lib/scanner.ts:11-155 | A run without an LLM configured leaves the intelligence cache as it found it. |
| `Scanner.StatusOrder` | src/lib/scanner.ts:11-155 | `PlanRun`: a completed run writes exactly RUNNING and then COMPLETED. A failed run writes only FAILED. |
| `Scanner.StatusWritesOfSuccess` | src/lib/scanner.ts:34-136 | The success updates write RUNNING and then COMPLETED. |
| `Scanner.WebFindingLabel` | src/lib/scanner.ts:122 | A web finding's line ends "via Intelligence." exactly when the issue id starts with "LLM", and ends "via Heuristics." otherwise. |
| `Scanner.CreatedFindingsMatchIssues` | src/lib/scanner.ts:67-121 | The stored findings correspond one to one with the issues, in order. Each carries its generated id, the scan id and its issue's report. |
| `Store.ScanIndex` | src/lib/db.ts:88 | The position of the first scan with the id, or -1 exactly when there is none. |
| `Store.FindScan` | src/lib/db.ts:81 | The stored scan with the id, or nothing exactly when no scan has it. |
| `Store.SessionIndex` | src/lib/db.ts:212-214 | The position of the first session matching the id or the token, or -1 exactly when none matches. |
| `Store.Patched` | src/lib/db.ts:89-96 | An update keeps the scan's identity. It writes the given status, if any, and appends the given log lines rather than replacing them. |
| `Store.PatchLogsAppend` | src/lib/db.ts:91-95 | The lines appended by two series of updates are the lines of the first series followed by those of the second. |
| `Store.StatusWritesAppend` | src/lib/db.ts:95 | The same for the statuses written. |
| `Store.PatchSeriesLogs` | src/lib/db.ts:89-96 | A series of updates keeps the record's identity and appends all its log lines in order. |
| `Store.PatchSeriesStatus` | src/lib/db.ts:95 | The status after a series is the last one written, or the old one when none is written. |
| `Store.PatchScansSpec` | src/lib/db.ts:87-97 | One update on an existing scan changes only that record and keeps its position. |
| `Store.PatchAllSpec` | src/lib/db.ts:87-97 | A series of updates changes only that record and applies the whole series to it. |
| `Store.PatchAllSnoc` | src/lib/db.ts:87-98 | One more update after a series is the series extended by that update. |
| `Store.PatchAllUnknownId` | src/lib/db.ts:88-98 | Updates on an id that no scan has change nothing. |
| `Store.Reverse` | src/lib/db.ts:70-134 | The default order is the stored order reversed: same length, element i from the end, same multiset. |
| `Store.FindingsOfScan` | src/lib/db.ts:126-127 | Exactly the findings of that scan. |
| `Store.FindingsNotOfScan` | src/lib/db.ts:106 | Exactly the findings of other scans. |
| `Store.FindingsOfScanAppend` | src/lib/db.ts:127 | Keeping a scan's findings distributes over concatenation, so stored order and duplicates are kept. |
| `Store.FindingsNotOfScanAppend` | src/lib/db.ts:106 | Removing a scan's findings distributes over concatenation, so the rest keep their stored order. |
| `Store.FindingsOfScanSingle` | src/lib/db.ts:23 | One finding is kept by the scan's filter exactly when it carries the scan id, and by the other filter exactly when it does not. |
| `Store.FindingsPartition` | src/lib/db.ts:100-110 | Removing a scan's findings and keeping them partition the findings. |
| `Store.SortedAllPairs` | src/lib/db.ts:40-47 | Neighbour-wise order under the comparator is order between any two positions. |
| `Store.Insert` | src/lib/db.ts:40-47 | Inserting into a sorted list keeps it sorted and makes it one element longer. |
| `Store.InsertPermutes` | src/lib/db.ts:40 | Insertion adds exactly the one element: the result is the old multiset plus that element. |
| `Store.SortItems` | src/lib/db.ts:34-48 | The result is sorted on the key in the requested direction and is a permutation of the items. |
| `Store.InsertTiedGoesLast` | src/lib/db.ts:44-46 | An element that ties with every earlier one goes last. |
| `Store.InsertBehindHead` | src/lib/db.ts:44-46 | An element whose key ties with the head is inserted behind it, into the rest of the list. |
| `Store.SortTiesKeepsOrder` | src/lib/db.ts:40-47 | Records whose keys all tie keep their stored order. |
| `Store.KeyedAsAppend` | src/lib/db.ts:40-47 | Picking the records with one key value from two lists one after the other is picking from each and concatenating. |
| `Store.KeyedAsNone` | src/lib/db.ts:40-47 | When no record has the key value, none is picked. |
| `Store.KeyedAsSingle` | src/lib/db.ts:40-47 | A single record is picked exactly when it has the key value. |
| `Store.InsertKeyedAs` | src/lib/db.ts:40-47 | Inserting into a sorted list puts the new record behind every record with the same key value. |
| `Store.SortStable` | src/lib/db.ts:34-48 | The sort is stable: for every key value, the records with that value come out in their stored order. |
| `Store.OrderItems` | src/lib/db.ts:66-135 | With `orderBy` the result is sorted. Without it, it is the reversed stored order. It is always a permutation of the items. |
| `Store.IncludeScan` | src/lib/db.ts:17-24 | Findings are attached only when requested, and they are exactly that scan's findings. |
| `Store.IncludeFinding` | src/lib/db.ts:17-28 | The scan is attached only when requested, and it is the finding's scan or null. |
| `Store.IncludedFindingsBelongToScan` | src/lib/db.ts:22-24 | The attached findings are exactly the stored findings naming the scan. |
| `Store.NoIncludeReturnsItems` | src/lib/db.ts:18 | Without `include` a record is returned as it is. |
| `Store.MockStore.constructor` | src/lib/db.ts:2-7 | The store starts with no scans, findings or sessions. |
| `Store.MockStore.CreateScan` | src/lib/db.ts:52-62 | Appends the new scan. The status and logs are always the initial ones, and the id is the caller's or a fresh one. Nothing else changes. |
| `Store.MockStore.UpdateScan` | src/lib/db.ts:87-99 | On a known id, the first such record is patched with its logs appended. On an unknown id nothing changes and the data comes back with the requested id. |
| `Store.MockStore.DeleteScan` | src/lib/db.ts:100-110 | Removes the first scan with the id and all of its findings and returns it. Returns null, changing nothing, for an unknown id. |
| `Store.MockStore.CreateFinding` | src/lib/db.ts:113-121 | Appends the new finding and nothing else. |
| `Store.MockStore.DeleteSession` | src/lib/db.ts:211-221 | Removes the first session matching the id or the token. Returns null, changing nothing, when none matches. |
| `Store.MockStore.FindScans` | src/lib/db.ts:63-79 | Every stored scan exactly once, in the order `OrderItems` gives (sorted on `orderBy`, else newest first), each with its relations attached as `include` requests. |
| `Store.MockStore.FindScanById` | src/lib/db.ts:80-86 | The first scan with the id, or null exactly when there is none. Its findings are attached exactly when `include.findings` is set, and they are then exactly the stored findings of that scan. |
| `Store.MockStore.FindFindings` | src/lib/db.ts:122-143 | Exactly the findings kept by the `scanId` filter (all of them when it is absent or empty), each once, in the order `OrderItems` gives, each with its scan attached as `include` requests. |
| `Store.Views` | src/lib/db.ts:75 | The records behind a list of query results, in order. |
| `Store.FindingViews` | src/lib/db.ts:139 | The same for findings. |
| `Security.SanitizeUrl` | src/lib/security.ts:1-16 | Accepts exactly the parsed http and https URLs with a dotted hostname and returns their serialisation. Every failure gives "Invalid URL format". |
| `Security.FirstCallAllowed` | src/lib/security.ts:26-39 | The first call from an unseen client is allowed and opens its window at that moment. |
| `Security.KnownClientStep` | src/lib/security.ts:28-39 | Past the window a call restarts it. Within the window, once the client has five accepted calls the call is refused and nothing changes. Otherwise the count grows by one. |
| `Security.RateStepFrame` | src/lib/security.ts:21-40 | A call never touches another client's record and keeps every count between 1 and 5. |
| `Security.AtMostLimitPerWindow` | src/lib/security.ts:22-35 | Calls within one window are allowed no more often than the record has room left, so at most five per window. |
| `Security.RateLimiter.constructor` | src/lib/security.ts:19 | The record map starts empty. |
| `Security.RateLimiter.CheckRateLimit` | src/lib/security.ts:21-40 | Returns the decision and leaves the records as `RateStep` describes, keeping every count between 1 and 5. |
| `Semgrep.OrDefault` | src/lib/static-analysis/SemgrepWrapper.ts:33-38 | A present, non-empty value is kept. Anything else takes the default. |
| `Semgrep.ToUpperChar` | src/lib/static-analysis/SemgrepWrapper.ts:50 | ASCII lower-case letters move to upper case. Every other character is unchanged. |
| `Semgrep.ToUpper` | src/lib/static-analysis/SemgrepWrapper.ts:50 | Upper-cases character by character, keeping the length. |
| `Semgrep.UpperIdempotent` | src/lib/static-analysis/SemgrepWrapper.ts:50 | Upper-casing twice is upper-casing once. |
| `Semgrep.MapSeverity` | src/lib/static-analysis/SemgrepWrapper.ts:49-56 | ERROR maps to High and INFO to Low, in any letter case. Anything else, including no value, maps to Medium. The result is never Critical. |
| `Semgrep.MapSeverityIgnoresCase` | src/lib/static-analysis/SemgrepWrapper.ts:50 | A level and its upper-case form map alike. |
| `Semgrep.SemgrepFinding` | src/lib/static-analysis/SemgrepWrapper.ts:31-39 | The id is `SEMGREP-<index>-<time>`. Missing or empty fields take their defaults, and the severity is the mapped one, never Critical. The evidence is `File: <path>:<line>`, with `undefined` for a missing part. |
| `Semgrep.SemgrepFindings` | src/lib/static-analysis/SemgrepWrapper.ts:29-41 | One finding per result, numbered by position. |
| `Semgrep.DashAfterDigits` | src/lib/static-analysis/SemgrepWrapper.ts:32 | In `<digits>-<rest>`, the first dash is the one after the digits. |
| `Semgrep.DigitsBeforeDash` | src/lib/static-analysis/SemgrepWrapper.ts:32 | Equal `<digits>-<rest>` strings have equal digit parts. |
| `Semgrep.SemgrepIdsDistinct` | src/lib/static-analysis/SemgrepWrapper.ts:30-32 | The findings of one report have pairwise distinct ids. |
| `Semgrep.ScanReport` | src/lib/static-analysis/SemgrepWrapper.ts:20-47 | A failing command, unparsable output or a report without `results` gives no findings. Otherwise there is exactly one finding per result, in order, finding i built from result i. No finding is ever Critical. |
| `Semgrep.Scan` | src/lib/static-analysis/SemgrepWrapper.ts:20-47 | The `forEach` loop pushes exactly `ScanReport`'s findings. |
| `PatternScanner.IsAvailable` | src/lib/static-analysis/PatternScanner.ts:9-11 | The pattern scanner is always available. |
| `PatternScanner.KeywordLengthSpec` | src/lib/static-analysis/PatternScanner.ts:74 | A non-zero length is that of a keyword occurring at the position, ignoring ASCII case. Zero means no keyword occurs there. |
| `PatternScanner.RunEnd` | src/lib/static-analysis/PatternScanner.ts:74-75 | A character-class run ends inside the string. |
| `PatternScanner.RunEndSpec` | src/lib/static-analysis/PatternScanner.ts:74 | The run is maximal: every character in it is in the class, and the one after it is not. |
| `PatternScanner.KeywordMatchAt` | src/lib/static-analysis/PatternScanner.ts:74 | A match at a position ends after it and within the content. |
| `PatternScanner.OneKeywordAt` | src/lib/static-analysis/PatternScanner.ts:74 | At most one keyword occurs at any position, so the alternation never needs to try a second one. |
| `PatternScanner.RunEndAt` | src/lib/static-analysis/PatternScanner.ts:74 | A run of class characters closed by a character outside the class, or by the end, is the run found. |
| `PatternScanner.KeywordMatchAtSound` | src/lib/static-analysis/PatternScanner.ts:74 | A match found at a position is a match of the expression there: a keyword, a non-empty separator run, a quote, at least 20 value characters, a quote. Its capture is the value. |
| `PatternScanner.KeywordMatchAtComplete` | src/lib/static-analysis/PatternScanner.ts:74 | Every match of the expression at a position is found there, capturing exactly its value and moving past its closing quote. |
| `PatternScanner.KeywordMatchShape` | src/lib/static-analysis/PatternScanner.ts:74 | The captured value has at least 20 value characters, is followed by a quote and occurs in the content. |
| `PatternScanner.NextKeyword` | src/lib/static-analysis/PatternScanner.ts:80 | `exec` resumes at or after `lastIndex` and moves it forward. |
| `PatternScanner.NextKeywordShape` | src/lib/static-analysis/PatternScanner.ts:74-80 | The value `exec` captures has the keyword-secret shape. |
| `PatternScanner.NextKeywordNone` | src/lib/static-analysis/PatternScanner.ts:80 | `exec` finds nothing exactly when the expression matches at no position from `lastIndex` on. |
| `PatternScanner.NextKeywordLeftmost` | src/lib/static-analysis/PatternScanner.ts:80 | `exec` returns the match at the leftmost position from `lastIndex` where the expression matches. |
| `PatternScanner.NoKeywordMatchAfter` | src/lib/static-analysis/PatternScanner.ts:74-80 | When `exec` finds nothing, no match of the expression starts at or after `lastIndex`. |
| `PatternScanner.KeywordSecretsShape` | src/lib/static-analysis/PatternScanner.ts:78-83 | Every keyword capture has that shape. |
| `PatternScanner.SkLiveMatchAt` | src/lib/static-analysis/PatternScanner.ts:75 | A match at a position ends after it and within the content. |
| `PatternScanner.NextSkLive` | src/lib/static-analysis/PatternScanner.ts:80 | `exec` resumes at or after `lastIndex` and moves it forward. |
| `PatternScanner.NextSkLiveShape` | src/lib/static-analysis/PatternScanner.ts:75-80 | The match is `sk_live_` followed by 24 letters or digits, and it occurs in the content. |
| `PatternScanner.NextSkLiveNone` | src/lib/static-analysis/PatternScanner.ts:80 | `exec` finds nothing exactly when `sk_live_` and 24 letters or digits occur at no position from `lastIndex` on. |
| `PatternScanner.NextSkLiveLeftmost` | src/lib/static-analysis/PatternScanner.ts:80 | `exec` returns the match at the leftmost position from `lastIndex` where the expression matches. |
| `PatternScanner.SkLiveKeysShape` | src/lib/static-analysis/PatternScanner.ts:78-83 | Every sk_live match has that shape. |
| `PatternScanner.ExecKeyword` | src/lib/static-analysis/PatternScanner.ts:80 | The position loop returns the leftmost keyword match at or after `lastIndex`. |
| `PatternScanner.ScanKeywords` | src/lib/static-analysis/PatternScanner.ts:78-83 | The `while (exec)` loop collects exactly the keyword captures. |
| `PatternScanner.ExecSkLive` | src/lib/static-analysis/PatternScanner.ts:80 | The position loop returns the leftmost sk_live match at or after `lastIndex`. |
| `PatternScanner.ScanSkLive` | src/lib/static-analysis/PatternScanner.ts:78-83 | The `while (exec)` loop collects exactly the sk_live matches. |
| `PatternScanner.ScanSecrets` | src/lib/static-analysis/PatternScanner.ts:71-85 | Gives the keyword captures followed by the sk_live matches. |
| `PatternScanner.SecretFinding` | src/lib/static-analysis/PatternScanner.ts:29-37 | A Critical "Hardcoded Secret" whose evidence is the relative path and the secret's first ten characters. |
| `PatternScanner.EvalFinding` | src/lib/static-analysis/PatternScanner.ts:43-51 | A Critical "Dangerous Function Execution". |
| `PatternScanner.SecretFindings` | src/lib/static-analysis/PatternScanner.ts:28-38 | One finding per secret, in order: each is Critical with the secret issue, numbered by its index, with `<path>: <first 10 characters>...` as evidence. |
| `PatternScanner.PushSecretFindings` | src/lib/static-analysis/PatternScanner.ts:28-38 | The `forEach` appends one finding per secret, in order. |
| `PatternScanner.ScanFile` | src/lib/static-analysis/PatternScanner.ts:27-53 | One file's loop body appends exactly that file's findings. |
| `PatternScanner.Scan` | src/lib/static-analysis/PatternScanner.ts:13-60 | The file loop returns exactly `PatternReport`: nothing when the tree cannot be listed, and the findings gathered before the first unreadable file. |
| `PatternScanner.AllCritical` | src/lib/static-analysis/PatternScanner.ts:34-48 | `Collected`: every finding the scanner reports is Critical. |
| `PatternScanner.FailureKeepsEarlierFindings` | src/lib/static-analysis/PatternScanner.ts:22-59 | A file that cannot be read ends the scan, keeping exactly what the earlier files gave. |
| `PatternScanner.FileFindingsSpec` | src/lib/static-analysis/PatternScanner.ts:27-53 | A file gives one secret finding per secret, in order, with the path and prefix as evidence. It then gives one eval finding exactly when a `.js` or `.ts` file contains `eval(`. |
| `PatternScanner.SecretsFound` | src/lib/static-analysis/PatternScanner.ts:71-85 | `Secrets`: only strings found in the file are reported: first the keyword values of at least 20 characters, then the sk_live keys. |

## Left out

- Network requests (`fetch` HEAD/GET and the provider HTTP calls in `executeLlmRequest`) are parameters. Their answers are oracles (`head`, `get`, `exec`). Provider request formats, local providers and HTTP status handling are not modelled.
- The two HTML regular expressions of `performRecon` (src/lib/agents/AgentSystem.ts:89-96) are an oracle, `scanHtml`, that returns their matches. The pattern scanner's two expressions are modelled in full.
- `new URL(...)` is a parameter giving the parsed protocol, hostname and serialisation, or nothing when it throws.
- `JSON.parse` and `JSON.stringify` are parameters.
- LLM entries with missing or non-string fields, or with extra fields that the object spread would copy, are not modelled: a parsed entry has the six string fields and an optional id.
- `generateId`, `Date.now()` and `new Date()` are parameters (`freshId`, `ids`, `now`). One `now` is used per call, whereas the source reads the clock once per finding. `updatedAt` is not modelled.
- `generateSecurityReport`'s constant `confidence: 1.0` (a float) is not modelled.
- Header names are assumed already lower-cased by the `head` oracle (`key.toLowerCase()` at src/lib/agents/AgentSystem.ts:64 is not modelled).
- Strings are sequences of characters, not UTF-16 code units: lengths and indices of text outside the Basic Multilingual Plane differ from JavaScript's.
- `ToUpper` folds ASCII letters only, and the `i` flag of the keyword expression folds ASCII letters only. Non-ASCII case mapping is not modelled: for instance `toUpperCase` maps the dotless "ı" to "I", so the source reads the severity "ınfo" as Low where the model gives Medium.
- `Promise.all` is modelled as sequential. Findings are created, and probes answered, in list order, and the concurrent interleaving of the store writes is not modelled.
- Concurrent runs are not modelled. The scan route starts `runFullSecurityScan` without awaiting it (src/app/api/scan/route.ts:31), so two runs can interleave between the cache lookup and the cache write (src/lib/agents/AgentSystem.ts:410-433) and across their store writes. Each call in the model is atomic.
- A `forEach` over Semgrep results can throw part-way, on a null entry or a severity that is not a string (src/lib/static-analysis/SemgrepWrapper.ts:30-46). The findings for the results before the failing one are then returned, and that result and the later ones are dropped. The model cannot represent such entries: every result has the typed optional fields.
- Console logging is not modelled.
- `runFullSecurityScan` takes reconnaissance as parameters (`Pipeline`), and their models are `Agents.WebRecon` and `Agents.RepoRecon`. Reasoning is `Reasoner.ReasonWeb` or `Reasoner.ReasonRepo`, run on the intelligence dispatcher. Its store is the in-memory store; the real Prisma client is not modelled.
- `Store.OrderItems`: the `orderBy` key is a numeric projection of the record. JavaScript's `<` on strings and dates is not modelled.
- Users (`user.create`, `findMany`, `findUnique`, `update`), `session.create`, `session.findUnique` and `finding.findUnique` (src/lib/db.ts:144-150) are not part of this model. The scan pipeline does not use them.
- `SemgrepWrapper.isAvailable` only runs `semgrep --version`, so it is left out as process execution. The command in `scan` is a parameter (`exec`).
- `PatternScanner.getFiles` (the directory walk), `fs.readFile` and `path.relative` are parameters: `files`, `readFile` and `relative`.
- The `git-utils.ts` helpers and the API route handlers are not part of this model.
