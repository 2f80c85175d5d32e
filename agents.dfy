/**
 * The deterministic agents of the scan pipeline: target validation, the
 * derivations that turn probe responses into reconnaissance results, the
 * fixed heuristic rule lists, and the report shape built from one finding.
 * Every network request is an oracle argument (`head`, `get`) and the two
 * HTML regular expressions are an oracle (`scanHtml`).
 */
module Agents {
  import opened Common

  // ---------------------------------------------------------------------------
  // Target validation

  /** The parts of a parsed URL (`new URL(target)`) that the pipeline reads. */
  datatype Url = Url(protocol: string, hostname: string, href: string)

  datatype ValidationResult = ValidationResult(isValid: bool, reason: string)

  const CONSENT_MISSING := "User consent not provided"
  const PRIVATE_FORBIDDEN := "Analysis of internal or private networks is strictly prohibited."
  const TARGET_VALIDATED := "Target validated."
  const MALFORMED_URL := "The provided URL is malformed."

  /** `/^172\.(1[6-9]|2[0-9]|3[0-1])\./` */
  predicate In172Block(h: string) {
    && |h| >= 7
    && h[..4] == "172."
    && h[6] == '.'
    && ((h[4] == '1' && '6' <= h[5] <= '9')
        || (h[4] == '2' && '0' <= h[5] <= '9')
        || (h[4] == '3' && '0' <= h[5] <= '1'))
  }

  /** The five private-network patterns, tested in the order they are listed. */
  predicate MatchesPrivatePattern(h: string) {
    || h == "localhost"
    || StartsWith(h, "127.")
    || StartsWith(h, "10.")
    || In172Block(h)
    || StartsWith(h, "192.168.")
  }

  predicate IsPrivateHost(h: string) {
    MatchesPrivatePattern(h) || EndsWith(h, ".local")
  }

  /**
   * validateTarget. `target` is the result of parsing the target string
   * (None when `new URL` throws).
   */
  function ValidateTarget(target: Option<Url>, confirmed: bool): (r: ValidationResult)
    ensures !confirmed ==> r == ValidationResult(false, CONSENT_MISSING)
    ensures confirmed && target.None? ==> r == ValidationResult(false, MALFORMED_URL)
    ensures r.isValid <==> confirmed && target.Some? && !IsPrivateHost(target.value.hostname)
    ensures r.isValid ==> r.reason == TARGET_VALIDATED
    ensures confirmed && target.Some? && !r.isValid ==> r.reason == PRIVATE_FORBIDDEN
  {
    if !confirmed then ValidationResult(false, CONSENT_MISSING)
    else match target
      case None => ValidationResult(false, MALFORMED_URL)
      case Some(url) =>
        if IsPrivateHost(url.hostname) then ValidationResult(false, PRIVATE_FORBIDDEN)
        else ValidationResult(true, TARGET_VALIDATED)
  }

  /** The 172.16.0.0/12 range spelled out with its second octet as a number. */
  ghost predicate In172Range(h: string) {
    exists n :: 16 <= n <= 31 && StartsWith(h, "172." + NatToString(n) + ".")
  }

  lemma {:induction false} In172BlockIff(h: string)
    ensures In172Block(h) <==> In172Range(h)
  {
    if In172Block(h) {
      var n := DigitValue(h[4]) * 10 + DigitValue(h[5]);
      TwoDigits(n);
      assert h[..7] == "172." + NatToString(n) + ".";
    }
    if In172Range(h) {
      var n :| 16 <= n <= 31 && StartsWith(h, "172." + NatToString(n) + ".");
      TwoDigits(n);
      assert h[..7] == "172." + NatToString(n) + ".";
      assert h[4] == DigitChar(n / 10) && h[5] == DigitChar(n % 10);
    }
  }

  /** Which hostnames validation treats as private, as an independent list of cases. */
  lemma PrivateHostCases(h: string)
    ensures IsPrivateHost(h) <==>
      || h == "localhost"
      || StartsWith(h, "127.")
      || StartsWith(h, "10.")
      || StartsWith(h, "192.168.")
      || In172Range(h)
      || EndsWith(h, ".local")
  {
    In172BlockIff(h);
  }

  // ---------------------------------------------------------------------------
  // Web reconnaissance (performRecon after its requests have been answered)

  /** Outcome of a HEAD request: thrown, or a response with its `ok` flag and case-folded headers. */
  datatype HeadProbe = HeadFailed | HeadResponse(ok: bool, headers: map<string, string>)

  /** Outcome of a GET request; `body` is None when reading the text throws. */
  datatype GetProbe =
    | GetFailed
    | GetResponse(ok: bool, contentType: Option<string>, body: Option<string>)

  /** What the API-key and internal-IP regular expressions find in an HTML body. */
  datatype HtmlMatches = HtmlMatches(keyCaptures: seq<string>, internalIps: seq<string>)

  datatype AuthSurface = AuthNone | AuthWeak | AuthStandard | AuthStrong

  datatype ReconResult = ReconResult(
    techStack: seq<string>,
    possibleEntryPoints: seq<string>,
    authSurface: AuthSurface,
    analysisNotes: string,
    serverHeaders: map<string, string>,
    htmlContent: string,
    secretsFound: seq<string>)

  const UNREACHABLE := "Unreachable (Direct Probe Failed)"
  const UNKNOWN_PLATFORM := "Unknown Web Platform"
  const ENTRY_POINTS := ["/", "/api", "/login", "/wp-admin"]
  const PROBE_PATHS := ["/robots.txt", "/.git/config", "/package.json", "/.env"]
  const GIT_PROBE_KEY := "probe:/.git/config"
  const WEB_NOTES_HEAD := "Deep analysis complete. Probed "
  const WEB_NOTES_TAIL := " headers and scanned HTML surface for secrets."

  /** A header value that JavaScript treats as true: present and not empty. */
  predicate Truthy(h: map<string, string>, k: string) {
    k in h && h[k] != ""
  }

  /** The technology tags read off the target's own response headers. */
  function StackFromHeaders(h: map<string, string>): seq<string> {
    (if Truthy(h, "x-powered-by") then [h["x-powered-by"]] else [])
    + (if Truthy(h, "server") then [h["server"]] else [])
    + (if Truthy(h, "x-nextjs-cache") || Truthy(h, "x-vercel-id") then ["Next.js/Vercel"] else [])
    + (if "via" in h && Contains(h["via"], "vegur") then ["Heroku"] else [])
    + (if "content-type" in h && Contains(h["content-type"], "text/html") then ["Web Frontend"] else [])
  }

  const KEY_SECRET_HEAD := "Potential Key: "
  const KEY_SECRET_TAIL := "****"
  const IP_SECRET_HEAD := "Internal IP Disclosure: "

  /** One redacted entry per API-key capture: its first four characters, then asterisks. */
  function KeySecrets(captures: seq<string>): (r: seq<string>)
    ensures |r| == |captures|
    ensures forall i :: 0 <= i < |captures| ==>
      r[i] == KEY_SECRET_HEAD + Prefix(captures[i], 4) + KEY_SECRET_TAIL
  {
    if captures == [] then []
    else [KEY_SECRET_HEAD + Prefix(captures[0], 4) + KEY_SECRET_TAIL] + KeySecrets(captures[1..])
  }

  /** One entry per internal address match, carrying the whole match. */
  function IpSecrets(ips: seq<string>): (r: seq<string>)
    ensures |r| == |ips|
    ensures forall i :: 0 <= i < |ips| ==> r[i] == IP_SECRET_HEAD + ips[i]
  {
    if ips == [] then [] else [IP_SECRET_HEAD + ips[0]] + IpSecrets(ips[1..])
  }

  /** Is this GET response an HTML page whose body could be read? */
  predicate IsReadableHtml(g: GetProbe) {
    g.GetResponse? && g.ok && Contains(g.contentType.GetOr(""), "text/html") && g.body.Some?
  }

  /** The HTML body kept for the result and the redacted secrets found in it. */
  function HtmlStage(g: GetProbe, scanHtml: string -> HtmlMatches): (string, seq<string>) {
    if IsReadableHtml(g) then
      var m := scanHtml(g.body.value);
      (g.body.value, KeySecrets(m.keyCaptures) + IpSecrets(m.internalIps))
    else ("", [])
  }

  /** `target.replace(/\/$/, '')` */
  function TrimTrailingSlash(s: string): string {
    if |s| > 0 && s[|s| - 1] == '/' then s[..|s| - 1] else s
  }

  predicate HeadOk(p: HeadProbe) {
    p.HeadResponse? && p.ok
  }

  /** Records a synthetic `probe:<path>` header for every path whose HEAD request was ok. */
  function WithProbeKeys(h: map<string, string>, target: string, paths: seq<string>,
                         head: string -> HeadProbe): map<string, string>
    decreases |paths|
  {
    if paths == [] then h
    else
      var h' := if HeadOk(head(TrimTrailingSlash(target) + paths[0]))
                then h["probe:" + paths[0] := "found"] else h;
      WithProbeKeys(h', target, paths[1..], head)
  }

  /** performRecon: the result assembled from the answers to its requests. */
  function WebRecon(target: string, head: string -> HeadProbe, get: string -> GetProbe,
                    scanHtml: string -> HtmlMatches): ReconResult
  {
    var first := head(target);
    var stack := if first.HeadResponse? then StackFromHeaders(first.headers) else [UNREACHABLE];
    var (html, secrets) := HtmlStage(get(target), scanHtml);
    var h := ProbedHeaders(target, head);
    ReconResult(
      if stack != [] then stack else [UNKNOWN_PLATFORM],
      ENTRY_POINTS,
      if Truthy(h, "set-cookie") then AuthStandard else AuthNone,
      WEB_NOTES_HEAD + NatToString(|h|) + WEB_NOTES_TAIL,
      h, html, secrets)
  }

  /** The target's own headers (none when unreachable) plus the probe keys. */
  function ProbedHeaders(target: string, head: string -> HeadProbe): map<string, string> {
    var first := head(target);
    WithProbeKeys(if first.HeadResponse? then first.headers else map[], target, PROBE_PATHS, head)
  }

  /** Some path of `paths` has probe key `k` and its HEAD request was ok. */
  ghost predicate ProbedOk(k: string, target: string, paths: seq<string>, head: string -> HeadProbe) {
    exists i :: 0 <= i < |paths| && k == "probe:" + paths[i]
                && HeadOk(head(TrimTrailingSlash(target) + paths[i]))
  }

  lemma ProbedOkUnfold(k: string, target: string, paths: seq<string>, head: string -> HeadProbe)
    requires paths != []
    ensures ProbedOk(k, target, paths, head) <==>
      (k == "probe:" + paths[0] && HeadOk(head(TrimTrailingSlash(target) + paths[0])))
      || ProbedOk(k, target, paths[1..], head)
  {
    if ProbedOk(k, target, paths[1..], head) {
      var i :| 0 <= i < |paths[1..]| && k == "probe:" + paths[1..][i]
               && HeadOk(head(TrimTrailingSlash(target) + paths[1..][i]));
      assert paths[i + 1] == paths[1..][i];
    }
    if ProbedOk(k, target, paths, head) {
      var i :| 0 <= i < |paths| && k == "probe:" + paths[i]
               && HeadOk(head(TrimTrailingSlash(target) + paths[i]));
      if i > 0 {
        assert paths[1..][i - 1] == paths[i];
      }
    }
  }

  lemma {:induction false} WithProbeKeysSpec(h: map<string, string>, target: string,
                                            paths: seq<string>, head: string -> HeadProbe, k: string)
    ensures var r := WithProbeKeys(h, target, paths, head);
      if ProbedOk(k, target, paths, head) then k in r && r[k] == "found"
      else (k in r <==> k in h) && (k in h ==> r[k] == h[k])
    decreases |paths|
  {
    if paths != [] {
      var h' := if HeadOk(head(TrimTrailingSlash(target) + paths[0]))
                then h["probe:" + paths[0] := "found"] else h;
      WithProbeKeysSpec(h', target, paths[1..], head, k);
      ProbedOkUnfold(k, target, paths, head);
    }
  }

  /** The exposed-git key is present when its HEAD probe was ok. */
  lemma {:induction false} ProbedGitKey(target: string, head: string -> HeadProbe)
    requires HeadOk(head(TrimTrailingSlash(target) + "/.git/config"))
    ensures var h := ProbedHeaders(target, head);
      GIT_PROBE_KEY in h && h[GIT_PROBE_KEY] == "found"
  {
    var first := head(target);
    var base := if first.HeadResponse? then first.headers else map[];
    assert GIT_PROBE_KEY == "probe:" + PROBE_PATHS[1];
    assert ProbedOk(GIT_PROBE_KEY, target, PROBE_PATHS, head);
    WithProbeKeysSpec(base, target, PROBE_PATHS, head, GIT_PROBE_KEY);
  }

  /** Every header outside the `probe:` keys comes unchanged from the target's own response. */
  lemma {:induction false} ProbedHeadersFromTarget(target: string, head: string -> HeadProbe, k: string)
    requires k in ProbedHeaders(target, head) && !StartsWith(k, "probe:")
    ensures head(target).HeadResponse? && k in head(target).headers
    ensures ProbedHeaders(target, head)[k] == head(target).headers[k]
  {
    var first := head(target);
    var base := if first.HeadResponse? then first.headers else map[];
    forall i | 0 <= i < |PROBE_PATHS| ensures k != "probe:" + PROBE_PATHS[i] {
      assert StartsWith("probe:" + PROBE_PATHS[i], "probe:");
    }
    assert !ProbedOk(k, target, PROBE_PATHS, head);
    WithProbeKeysSpec(base, target, PROBE_PATHS, head, k);
  }

  /**
   * An unreachable target is tagged as such and never has a session-cookie
   * auth surface (the probe keys cannot stand for `set-cookie`).
   */
  lemma UnreachableTarget(target: string, head: string -> HeadProbe, get: string -> GetProbe,
                          scanHtml: string -> HtmlMatches)
    requires head(target) == HeadFailed
    ensures var r := WebRecon(target, head, get, scanHtml);
      r.techStack == [UNREACHABLE] && r.authSurface == AuthNone
  {
    assert WebRecon(target, head, get, scanHtml).serverHeaders == ProbedHeaders(target, head);
    WithProbeKeysSpec(map[], target, PROBE_PATHS, head, "set-cookie");
    forall i | 0 <= i < |PROBE_PATHS| ensures "set-cookie" != "probe:" + PROBE_PATHS[i] {
      assert ("probe:" + PROBE_PATHS[i])[0] == 'p';
    }
  }

  /**
   * Secrets are reported only for a readable HTML response, one per regex
   * match: first every redacted API key, then every internal address.
   */
  lemma SecretsComeFromHtml(target: string, head: string -> HeadProbe, get: string -> GetProbe,
                            scanHtml: string -> HtmlMatches)
    ensures var r := WebRecon(target, head, get, scanHtml);
      if IsReadableHtml(get(target)) then
        var m := scanHtml(get(target).body.value);
        var nk := |m.keyCaptures|;
        && r.htmlContent == get(target).body.value
        && |r.secretsFound| == nk + |m.internalIps|
        && (forall i :: 0 <= i < nk ==>
              r.secretsFound[i] == KEY_SECRET_HEAD + Prefix(m.keyCaptures[i], 4) + KEY_SECRET_TAIL)
        && (forall j :: 0 <= j < |m.internalIps| ==>
              r.secretsFound[nk + j] == IP_SECRET_HEAD + m.internalIps[j])
      else r.htmlContent == "" && r.secretsFound == []
  {
  }

  /**
   * The tags read off a header map: each present header contributes its tag,
   * nothing else is ever added, and the list is empty exactly when no header
   * contributes; the powered-by value, when present, comes first.
   */
  lemma StackFromHeadersSpec(h: map<string, string>)
    ensures var st := StackFromHeaders(h);
      var poweredBy := Truthy(h, "x-powered-by");
      var server := Truthy(h, "server");
      var vercel := Truthy(h, "x-nextjs-cache") || Truthy(h, "x-vercel-id");
      var heroku := "via" in h && Contains(h["via"], "vegur");
      var frontend := "content-type" in h && Contains(h["content-type"], "text/html");
      && |st| <= 5
      && (poweredBy ==> st[0] == h["x-powered-by"])
      && (server ==> h["server"] in st)
      && (vercel ==> "Next.js/Vercel" in st)
      && (heroku ==> "Heroku" in st)
      && (frontend ==> "Web Frontend" in st)
      && (forall t :: t in st ==>
            || (poweredBy && t == h["x-powered-by"])
            || (server && t == h["server"])
            || (vercel && t == "Next.js/Vercel")
            || (heroku && t == "Heroku")
            || (frontend && t == "Web Frontend"))
      && (st == [] <==> !poweredBy && !server && !vercel && !heroku && !frontend)
  {
  }

  /**
   * A reachable target: the stack is the tags of its own headers, or
   * "Unknown Web Platform" when they give none; the auth surface is
   * "standard" exactly when the target set a cookie, "none" otherwise; and
   * its own headers are kept beside the probe keys.
   */
  lemma {:induction false} WebReconSpec(target: string, head: string -> HeadProbe, get: string -> GetProbe,
                                       scanHtml: string -> HtmlMatches)
    requires head(target).HeadResponse?
    ensures var r := WebRecon(target, head, get, scanHtml);
      var own := head(target).headers;
      var st := StackFromHeaders(own);
      && (st == [] ==> r.techStack == [UNKNOWN_PLATFORM])
      && (st != [] ==> r.techStack == st)
      && (r.authSurface == AuthStandard <==> Truthy(own, "set-cookie"))
      && (r.authSurface != AuthStandard ==> r.authSurface == AuthNone)
      && r.possibleEntryPoints == ENTRY_POINTS
      && (forall k :: k in own && !StartsWith(k, "probe:") ==>
            k in r.serverHeaders && r.serverHeaders[k] == own[k])
  {
    var r := WebRecon(target, head, get, scanHtml);
    assert r.serverHeaders == ProbedHeaders(target, head);
    assert "set-cookie"[..6][0] != "probe:"[0];
    ProbedHeadersKeepOwn(target, head, "set-cookie");
    forall k | k in head(target).headers && !StartsWith(k, "probe:")
      ensures k in r.serverHeaders && r.serverHeaders[k] == head(target).headers[k]
    {
      ProbedHeadersKeepOwn(target, head, k);
    }
  }

  /** Outside the `probe:` keys the probed headers are exactly the target's own. */
  lemma ProbedHeadersKeepOwn(target: string, head: string -> HeadProbe, k: string)
    requires !StartsWith(k, "probe:")
    ensures var h := ProbedHeaders(target, head);
      && (k in h <==> head(target).HeadResponse? && k in head(target).headers)
      && (k in h ==> h[k] == head(target).headers[k])
  {
    var first := head(target);
    NotProbeKey(k);
    WithProbeKeysSpec(if first.HeadResponse? then first.headers else map[], target, PROBE_PATHS, head, k);
  }

  /** A key outside the `probe:` namespace is never set by a path probe. */
  lemma NotProbeKey(k: string)
    requires !StartsWith(k, "probe:")
    ensures forall target, head :: !ProbedOk(k, target, PROBE_PATHS, head)
  {
    forall i | 0 <= i < |PROBE_PATHS| ensures k != "probe:" + PROBE_PATHS[i] {
      assert StartsWith("probe:" + PROBE_PATHS[i], "probe:");
    }
  }

  // ---------------------------------------------------------------------------
  // Repository reconnaissance (performRepoRecon after its requests have been answered)

  datatype RepoReconResult = RepoReconResult(
    foundFiles: seq<string>,
    techStack: seq<string>,
    riskScore: nat,
    analysisNotes: string)

  const FILES_TO_CHECK := [".env", "docker-compose.yml", "package.json", "Dockerfile", "README.md"]
  const GITHUB_PREFIX := "github.com/"

  /** Length of the run of characters other than '/' that starts at `i` (`[^/]+` is greedy). */
  function RunLength(s: string, i: nat): (n: nat)
    requires i <= |s|
    ensures i + n <= |s|
    ensures forall k :: i <= k < i + n ==> s[k] != '/'
    ensures i + n < |s| ==> s[i + n] == '/'
    decreases |s| - i
  {
    if i == |s| || s[i] == '/' then 0 else 1 + RunLength(s, i + 1)
  }

  /** The two capture groups of `/github\.com\/([^/]+)\/([^/]+)/` when a match starts at `i`. */
  function RepoMatchAt(s: string, i: nat): Option<(string, string)> {
    if !OccursAt(s, GITHUB_PREFIX, i) then None
    else
      var j := i + |GITHUB_PREFIX|;
      var u := RunLength(s, j);
      if u == 0 || j + u == |s| then None
      else
        var k := j + u + 1;
        var r := RunLength(s, k);
        if r == 0 then None else Some((s[j..j + u], s[k..k + r]))
  }

  /** The leftmost match at or after `from`. */
  function FindRepo(s: string, from: nat): Option<(string, string)>
    decreases |s| - from
  {
    if from > |s| then None
    else if RepoMatchAt(s, from).Some? then RepoMatchAt(s, from)
    else FindRepo(s, from + 1)
  }

  predicate SlashFree(x: string) {
    forall k :: 0 <= k < |x| ==> x[k] != '/'
  }

  /** A repository path `github.com/<user>/<repo>` with both parts non-empty and free of '/'. */
  predicate RepoPathAt(s: string, user: string, repo: string, i: int) {
    user != [] && repo != [] && SlashFree(user) && SlashFree(repo)
    && OccursAt(s, GITHUB_PREFIX + user + "/" + repo, i)
  }

  /**
   * A match is a repository path at `i` whose repository name runs as far
   * as the greedy class allows: to the end of the text or to the next '/'.
   */
  lemma {:induction false} RepoMatchAtSound(s: string, i: nat)
    requires RepoMatchAt(s, i).Some?
    ensures var (u, r) := RepoMatchAt(s, i).value;
      var end := i + |GITHUB_PREFIX| + |u| + 1 + |r|;
      && RepoPathAt(s, u, r, i)
      && end <= |s| && (end == |s| || s[end] == '/')
  {
    var j := i + |GITHUB_PREFIX|;
    var u := RunLength(s, j);
    var k := j + u + 1;
    var r := RunLength(s, k);
    assert s[i..i + |GITHUB_PREFIX + s[j..j + u] + "/" + s[k..k + r]|]
        == GITHUB_PREFIX + s[j..j + u] + "/" + s[k..k + r];
  }

  /**
   * Every repository path at `i` is matched there: the match captures the
   * same owner, and a repository name that the path's name begins.
   */
  lemma {:induction false} RepoMatchAtComplete(s: string, user: string, repo: string, i: nat)
    requires RepoPathAt(s, user, repo, i)
    ensures RepoMatchAt(s, i).Some?
    ensures RepoMatchAt(s, i).value.0 == user
    ensures StartsWith(RepoMatchAt(s, i).value.1, repo)
  {
    var j := i + |GITHUB_PREFIX|;
    var k := j + |user| + 1;
    RepoPathParts(s, user, repo, i);
    RunLengthStopsAtSlash(s, j, |user|);
    RunLengthCovers(s, k, |repo|);
    var r := RunLength(s, k);
    assert s[k..k + r][..|repo|] == s[k..k + |repo|] == repo;
  }

  /** The characters of a repository path at `i`: the prefix, the owner, a '/', the name. */
  lemma RepoPathParts(s: string, user: string, repo: string, i: nat)
    requires RepoPathAt(s, user, repo, i)
    ensures var j := i + |GITHUB_PREFIX|;
      && OccursAt(s, GITHUB_PREFIX, i)
      && j + |user| + 1 + |repo| <= |s|
      && s[j..j + |user|] == user && s[j + |user|] == '/'
      && s[j + |user| + 1..j + |user| + 1 + |repo|] == repo
  {
    var w := GITHUB_PREFIX + user + "/" + repo;
    var j := i + |GITHUB_PREFIX|;
    assert s[i..i + |w|] == w;
    assert s[i..i + |GITHUB_PREFIX|] == w[..|GITHUB_PREFIX|];
    assert s[j..j + |user|] == w[|GITHUB_PREFIX|..|GITHUB_PREFIX| + |user|];
    assert s[j + |user|] == w[|GITHUB_PREFIX| + |user|];
    assert s[j + |user| + 1..j + |user| + 1 + |repo|] == w[|GITHUB_PREFIX| + |user| + 1..];
  }

  /** A '/'-free stretch from `j` lies inside the run starting at `j`. */
  lemma {:induction false} RunLengthCovers(s: string, j: nat, n: nat)
    requires j + n <= |s|
    requires forall k :: j <= k < j + n ==> s[k] != '/'
    ensures n <= RunLength(s, j)
    decreases n
  {
    if n > 0 {
      RunLengthCovers(s, j + 1, n - 1);
    }
  }

  lemma {:induction false} RunLengthStopsAtSlash(s: string, j: nat, n: nat)
    requires j + n < |s| && s[j + n] == '/'
    requires forall k :: j <= k < j + n ==> s[k] != '/'
    ensures RunLength(s, j) == n
    decreases n
  {
    if n > 0 {
      RunLengthStopsAtSlash(s, j + 1, n - 1);
    }
  }

  lemma {:induction false} FindRepoSpec(s: string, from: nat)
    ensures FindRepo(s, from).Some? ==>
      exists i :: from <= i && RepoPathAt(s, FindRepo(s, from).value.0, FindRepo(s, from).value.1, i)
    ensures FindRepo(s, from).None? ==>
      forall i: nat, user, repo :: from <= i ==> !RepoPathAt(s, user, repo, i)
    decreases |s| - from
  {
    if from > |s| {
      forall i: nat, user, repo | from <= i ensures !RepoPathAt(s, user, repo, i) {
      }
    } else if RepoMatchAt(s, from).Some? {
      RepoMatchAtSound(s, from);
    } else {
      FindRepoSpec(s, from + 1);
      forall i: nat, user, repo | from <= i && RepoPathAt(s, user, repo, i)
        ensures FindRepo(s, from).Some?
      {
        RepoMatchAtComplete(s, user, repo, i);
      }
    }
  }

  /**
   * The search finds the match at `start`, the leftmost position from
   * `from` on where a repository path occurs.
   */
  lemma {:induction false} FindRepoLeftmost(s: string, from: nat) returns (start: nat)
    requires FindRepo(s, from).Some?
    ensures from <= start <= |s| && FindRepo(s, from) == RepoMatchAt(s, start)
    ensures forall i: nat, user, repo :: from <= i < start ==> !RepoPathAt(s, user, repo, i)
    decreases |s| - from
  {
    if RepoMatchAt(s, from).Some? {
      start := from;
    } else {
      start := FindRepoLeftmost(s, from + 1);
      forall i: nat, user, repo | from <= i < start && RepoPathAt(s, user, repo, i)
        ensures false
      {
        RepoMatchAtComplete(s, user, repo, i);
      }
    }
  }

  function RawFileUrl(user: string, repo: string, file: string): string {
    "https://raw.githubusercontent.com/" + user + "/" + repo + "/main/" + file
  }

  /** The files of `files` (in order) whose HEAD request was ok. */
  function FoundFiles(files: seq<string>, user: string, repo: string,
                      head: string -> HeadProbe): (r: seq<string>)
    ensures forall f :: f in r ==> f in files
  {
    if files == [] then []
    else (if HeadOk(head(RawFileUrl(user, repo, files[0]))) then [files[0]] else [])
         + FoundFiles(files[1..], user, repo, head)
  }

  /** performRepoRecon: the result assembled from the answers to its requests. */
  function RepoRecon(target: string, head: string -> HeadProbe): RepoReconResult {
    var found := match FindRepo(target, 0)
      case None => []
      case Some((user, repo)) => FoundFiles(FILES_TO_CHECK, user, repo, head);
    RepoSummary(found)
  }

  const REPO_NOTES_HEAD := "Probed repository. Detected "
  const REPO_NOTES_TAIL := " key configuration files."

  /** The stack, risk score and notes derived from the files that answered. */
  function RepoSummary(found: seq<string>): RepoReconResult {
    var stack := (if "package.json" in found then ["Node.js"] else [])
                 + (if "Dockerfile" in found then ["Docker"] else []);
    RepoReconResult(
      found,
      if stack != [] then stack else ["Unidentified"],
      if ".env" in found then 90 else 20,
      REPO_NOTES_HEAD + NatToString(|found|) + REPO_NOTES_TAIL)
  }

  lemma {:induction false} FoundFilesMember(files: seq<string>, user: string, repo: string,
                                           head: string -> HeadProbe, f: string)
    ensures f in FoundFiles(files, user, repo, head) <==>
      f in files && HeadOk(head(RawFileUrl(user, repo, f)))
    decreases |files|
  {
    if files != [] {
      FoundFilesMember(files[1..], user, repo, head, f);
      if f != files[0] {
        assert f in files <==> f in files[1..];
      }
    }
  }

  /** Without a github.com/user/repo path in the target nothing is probed or found. */
  lemma RepoReconWithoutPath(target: string, head: string -> HeadProbe)
    requires forall i, user, repo :: !RepoPathAt(target, user, repo, i)
    ensures var r := RepoRecon(target, head);
      r.foundFiles == [] && r.riskScore == 20 && r.techStack == ["Unidentified"]
  {
    FindRepoSpec(target, 0);
  }

  /**
   * With the leftmost repository path `user/repo`: the risk score is 90 exactly
   * when `.env` answered and 20 otherwise, and the stack falls back to
   * "Unidentified" exactly when neither package.json nor Dockerfile answered.
   */
  lemma RepoReconScores(target: string, head: string -> HeadProbe)
    requires FindRepo(target, 0).Some?
    ensures var (user, repo) := FindRepo(target, 0).value;
      var r := RepoRecon(target, head);
      && (r.riskScore == 90 <==> HeadOk(head(RawFileUrl(user, repo, ".env"))))
      && (r.riskScore != 90 ==> r.riskScore == 20)
      && (r.techStack == ["Unidentified"] <==>
            !HeadOk(head(RawFileUrl(user, repo, "package.json")))
            && !HeadOk(head(RawFileUrl(user, repo, "Dockerfile"))))
  {
    var (user, repo) := FindRepo(target, 0).value;
    var found := FoundFiles(FILES_TO_CHECK, user, repo, head);
    assert RepoRecon(target, head) == RepoSummary(found);
    RepoSummarySpec(found);
    assert FILES_TO_CHECK[0] == ".env" && FILES_TO_CHECK[2] == "package.json"
      && FILES_TO_CHECK[3] == "Dockerfile";
    FoundFilesMember(FILES_TO_CHECK, user, repo, head, ".env");
    FoundFilesMember(FILES_TO_CHECK, user, repo, head, "package.json");
    FoundFilesMember(FILES_TO_CHECK, user, repo, head, "Dockerfile");
  }

  /** The summary's score and stack as conditions on the files that answered. */
  lemma RepoSummarySpec(found: seq<string>)
    ensures var r := RepoSummary(found);
      && r.foundFiles == found
      && (r.riskScore == 90 <==> ".env" in found)
      && (r.riskScore != 90 ==> r.riskScore == 20)
      && (r.techStack == ["Unidentified"] <==> "package.json" !in found && "Dockerfile" !in found)
      && ("package.json" in found ==> "Node.js" in r.techStack)
      && ("Dockerfile" in found ==> "Docker" in r.techStack)
  {
    var stack := (if "package.json" in found then ["Node.js"] else [])
                 + (if "Dockerfile" in found then ["Docker"] else []);
    if stack != [] {
      assert stack[0] != "Unidentified";
    }
  }

  // ---------------------------------------------------------------------------
  // Heuristic rules

  const HSTS_DESCRIPTION := "The server does not enforce HTTPS through the Strict-Transport-Security header, making it vulnerable to SSL stripping attacks."
  const HSTS_EVIDENCE := "Header 'strict-transport-security' was not found in server response."
  const HSTS_REMEDIATION := "Implement HSTS by adding the 'Strict-Transport-Security' header with a long max-age (e.g., 31536000)."
  const HSTS_001 := Reasoning("HSTS-001", "A05:2021-Security Misconfiguration", "Missing HSTS Header",
    HSTS_DESCRIPTION, MEDIUM, HSTS_EVIDENCE, HSTS_REMEDIATION)

  const CSP_DESCRIPTION := "No Content Security Policy (CSP) is implemented. This increases the risk of Cross-Site Scripting (XSS) and Clickjacking."
  const CSP_EVIDENCE := "Header 'content-security-policy' was not found."
  const CSP_REMEDIATION := "Define a strict CSP to restrict where scripts and other resources can be loaded from."
  const CSP_001 := Reasoning("CSP-001", "A03:2021-Injection", "Missing Content Security Policy",
    CSP_DESCRIPTION, HIGH, CSP_EVIDENCE, CSP_REMEDIATION)

  const INF_DESCRIPTION := "The 'Server' header reveals specific version information about the underlying infrastructure."
  const INF_REMEDIATION := "Configure the server to omit or genericize the 'Server' header to prevent fingerprinting."

  function Inf001(server: string): Reasoning {
    Reasoning(
      "INF-001", "A01:2021-Broken Access Control", "Server Version Disclosure",
      INF_DESCRIPTION, LOW, "Server: " + server, INF_REMEDIATION)
  }

  const GIT_EXPOSURE_DESCRIPTION := "The .git configuration file is accessible. This can lead to full source code disclosure and exposure of development history."
  const GIT_EXPOSURE_EVIDENCE := "/.git/config is accessible."
  const GIT_EXPOSURE_REMEDIATION := "Immediately restrict access to the .git directory via server configuration or remove it from the web root."
  const SEC_003 := Reasoning("SEC-003", "A05:2021-Security Misconfiguration", "Git Configuration Exposure",
    GIT_EXPOSURE_DESCRIPTION, CRITICAL, GIT_EXPOSURE_EVIDENCE, GIT_EXPOSURE_REMEDIATION)

  const SECRET_ID_PREFIX := "SEC-EXT-"
  const SECRET_CATEGORY := "A03:2021-Injection"
  const SECRET_DESCRIPTION_HEAD := "A pattern matching sensitive information ("
  const SECRET_DESCRIPTION_TAIL := ") was discovered in the public HTML source."
  const SECRET_REMEDIATION := "Immediately sanitize the public-facing HTML. Move sensitive keys to backend environment variables and ensure internal IP addresses are not leaked in comments or scripts."

  const IP_ISSUE := "Internal IP Disclosure"
  const KEY_ISSUE := "Potential API Key Exposure"

  /** The finding for the `index`-th secret found in the HTML. */
  function SecretFinding(secret: string, index: nat): Reasoning {
    var isIp := Contains(secret, "IP");
    Reasoning(
      SECRET_ID_PREFIX + NatToString(index),
      SECRET_CATEGORY,
      if isIp then IP_ISSUE else KEY_ISSUE,
      SECRET_DESCRIPTION_HEAD + (if isIp then "Internal IP" else "API Token") + SECRET_DESCRIPTION_TAIL,
      if Contains(secret, "Key") then CRITICAL else MEDIUM,
      secret,
      SECRET_REMEDIATION)
  }

  /**
   * A secret's finding: titled as an internal IP disclosure exactly when its
   * text contains "IP" (as an API key exposure otherwise), Critical exactly
   * when it contains "Key" (Medium otherwise), with the secret as evidence.
   */
  lemma SecretFindingFields(secret: string, index: nat)
    ensures var f := SecretFinding(secret, index);
      && f.id == SECRET_ID_PREFIX + NatToString(index)
      && f.evidence == secret
      && (f.issue == IP_ISSUE <==> Contains(secret, "IP"))
      && (f.issue == KEY_ISSUE <==> !Contains(secret, "IP"))
      && (f.severity == CRITICAL <==> Contains(secret, "Key"))
      && (f.severity == MEDIUM <==> !Contains(secret, "Key"))
  {
    assert CRITICAL != MEDIUM;
    assert IP_ISSUE != KEY_ISSUE;
  }

  /** One finding per secret, numbered by its position (the `forEach` index). */
  function SecretFindings(secrets: seq<string>): (r: seq<Reasoning>)
    ensures |r| == |secrets|
    ensures forall i :: 0 <= i < |secrets| ==>
      && r[i].id == SECRET_ID_PREFIX + NatToString(i)
      && r[i].evidence == secrets[i]
      && (r[i].issue == IP_ISSUE <==> Contains(secrets[i], "IP"))
      && (r[i].severity == CRITICAL <==> Contains(secrets[i], "Key"))
  {
    seq(|secrets|, i requires 0 <= i < |secrets| => SecretFinding(secrets[i], i))
  }

  /** The finding `f` when its rule fires, nothing otherwise. */
  function Fire(fires: bool, f: Reasoning): seq<Reasoning> {
    if fires then [f] else []
  }

  /** The value of the server header, empty when there is none. */
  function ServerValue(h: map<string, string>): string {
    if "server" in h then h["server"] else ""
  }

  /** The four header rules, each fired independently, in source order. */
  function HeaderRules(h: map<string, string>): seq<Reasoning> {
    Fire(!Truthy(h, "strict-transport-security"), HSTS_001)
    + Fire(!Truthy(h, "content-security-policy"), CSP_001)
    + Fire(Truthy(h, "server") && |h["server"]| > 10, Inf001(ServerValue(h)))
    + Fire(Truthy(h, GIT_PROBE_KEY), SEC_003)
  }

  /** The position of each header rule in the order the rules are checked. */
  function RuleRank(id: string): nat {
    if id == "HSTS-001" then 0
    else if id == "CSP-001" then 1
    else if id == "INF-001" then 2
    else if id == "SEC-003" then 3
    else 4
  }

  predicate HasId(fs: seq<Reasoning>, id: string) {
    exists k :: 0 <= k < |fs| && fs[k].id == id
  }

  /**
   * Each header rule fires exactly when its condition holds: HSTS-001 when
   * strict-transport-security is missing or empty, CSP-001 likewise for
   * content-security-policy, INF-001 when the server header is longer than
   * ten characters, SEC-003 when the .git/config probe answered. INF-001 is
   * Low with the server value as evidence; every entry is one of the four
   * rule findings, and they come in that order, each at most once.
   */
  lemma HeaderRulesSpec(h: map<string, string>)
    ensures var fs := HeaderRules(h);
      && (HasId(fs, "HSTS-001") <==> !Truthy(h, "strict-transport-security"))
      && (HasId(fs, "CSP-001") <==> !Truthy(h, "content-security-policy"))
      && (HasId(fs, "INF-001") <==> Truthy(h, "server") && |h["server"]| > 10)
      && (HasId(fs, "SEC-003") <==> Truthy(h, GIT_PROBE_KEY))
      && (forall k :: 0 <= k < |fs| ==>
            fs[k] == HSTS_001 || fs[k] == CSP_001 || fs[k] == Inf001(ServerValue(h)) || fs[k] == SEC_003)
      && (forall k :: 0 <= k < |fs| && fs[k].id == "INF-001" ==>
            Truthy(h, "server") && fs[k].severity == LOW && fs[k].evidence == "Server: " + h["server"])
      && (forall j, k :: 0 <= j < k < |fs| ==> RuleRank(fs[j].id) < RuleRank(fs[k].id))
  {
    var inf := Inf001(ServerValue(h));
    assert HSTS_001.id == "HSTS-001" && CSP_001.id == "CSP-001" && inf.id == "INF-001" && SEC_003.id == "SEC-003";
    RankedRules(!Truthy(h, "strict-transport-security"), HSTS_001,
                !Truthy(h, "content-security-policy"), CSP_001,
                Truthy(h, "server") && |h["server"]| > 10, inf,
                Truthy(h, GIT_PROBE_KEY), SEC_003);
  }

  /**
   * Four optional findings with ranks 0 to 3, kept in that order: a rank's
   * id occurs exactly when its finding fires, and nothing else occurs.
   */
  lemma {:induction false} RankedRules(a: bool, x: Reasoning, b: bool, y: Reasoning,
                                      c: bool, z: Reasoning, d: bool, w: Reasoning)
    requires RuleRank(x.id) == 0 && RuleRank(y.id) == 1 && RuleRank(z.id) == 2 && RuleRank(w.id) == 3
    ensures var fs := Fire(a, x) + Fire(b, y) + Fire(c, z) + Fire(d, w);
      && (HasId(fs, x.id) <==> a) && (HasId(fs, y.id) <==> b)
      && (HasId(fs, z.id) <==> c) && (HasId(fs, w.id) <==> d)
      && (forall k :: 0 <= k < |fs| ==> fs[k] == x || fs[k] == y || fs[k] == z || fs[k] == w)
      && (forall k :: 0 <= k < |fs| && fs[k].id == z.id ==> c && fs[k] == z)
      && (forall j, k :: 0 <= j < k < |fs| ==> RuleRank(fs[j].id) < RuleRank(fs[k].id))
  {
    var p, q, r, t := Fire(a, x), Fire(b, y), Fire(c, z), Fire(d, w);
    FiredEntries(p, x, q, y, r, z, t, w);
    FiredIds(p, x, q, y, r, z, t, w);
    FiredOrder(p, x, q, y, r, z, t, w);
  }

  /** A finding's id occurs among four concatenated optional findings exactly when its part holds it. */
  lemma FiredIds(p: seq<Reasoning>, x: Reasoning, q: seq<Reasoning>, y: Reasoning,
                 r: seq<Reasoning>, z: Reasoning, t: seq<Reasoning>, w: Reasoning)
    requires p == [] || p == [x]
    requires q == [] || q == [y]
    requires r == [] || r == [z]
    requires t == [] || t == [w]
    requires RuleRank(x.id) == 0 && RuleRank(y.id) == 1 && RuleRank(z.id) == 2 && RuleRank(w.id) == 3
    ensures var fs := p + q + r + t;
      && (HasId(fs, x.id) <==> p != []) && (HasId(fs, y.id) <==> q != [])
      && (HasId(fs, z.id) <==> r != []) && (HasId(fs, w.id) <==> t != [])
  {
    var fs := p + q + r + t;
    FiredEntries(p, x, q, y, r, z, t, w);
    if p != [] { assert fs[0].id == x.id; }
    if q != [] { assert fs[|p|].id == y.id; }
    if r != [] { assert fs[|p| + |q|].id == z.id; }
    if t != [] { assert fs[|p| + |q| + |r|].id == w.id; }
  }

  /** Four concatenated optional findings of ranks 0 to 3 are in strictly increasing rank. */
  lemma FiredOrder(p: seq<Reasoning>, x: Reasoning, q: seq<Reasoning>, y: Reasoning,
                   r: seq<Reasoning>, z: Reasoning, t: seq<Reasoning>, w: Reasoning)
    requires p == [] || p == [x]
    requires q == [] || q == [y]
    requires r == [] || r == [z]
    requires t == [] || t == [w]
    requires RuleRank(x.id) == 0 && RuleRank(y.id) == 1 && RuleRank(z.id) == 2 && RuleRank(w.id) == 3
    ensures var fs := p + q + r + t;
      forall j, k :: 0 <= j < k < |fs| ==> RuleRank(fs[j].id) < RuleRank(fs[k].id)
  {
    var fs := p + q + r + t;
    FiredEntries(p, x, q, y, r, z, t, w);
    forall j, k | 0 <= j < k < |fs| ensures RuleRank(fs[j].id) < RuleRank(fs[k].id) {
      assert |p| <= 1 && |q| <= 1 && |r| <= 1;
    }
  }

  /** Each entry of four concatenated optional findings is the finding of its part. */
  lemma FiredEntries(p: seq<Reasoning>, x: Reasoning, q: seq<Reasoning>, y: Reasoning,
                     r: seq<Reasoning>, z: Reasoning, t: seq<Reasoning>, w: Reasoning)
    requires p == [] || p == [x]
    requires q == [] || q == [y]
    requires r == [] || r == [z]
    requires t == [] || t == [w]
    ensures var fs := p + q + r + t;
      forall k :: 0 <= k < |fs| ==>
        fs[k] == (if k < |p| then x else if k < |p| + |q| then y else if k < |p| + |q| + |r| then z else w)
  {
    var fs := p + q + r + t;
    forall k | 0 <= k < |fs|
      ensures fs[k] == (if k < |p| then x else if k < |p| + |q| then y else if k < |p| + |q| + |r| then z else w)
    {
      if k < |p| {
        assert fs[k] == p[k];
      } else if k < |p| + |q| {
        assert fs[k] == q[k - |p|];
      } else if k < |p| + |q| + |r| {
        assert fs[k] == r[k - |p| - |q|];
      } else {
        assert fs[k] == t[k - |p| - |q| - |r|];
      }
    }
  }

  /** The heuristics phase of reasonVulnerabilities. */
  function WebHeuristics(recon: ReconResult): seq<Reasoning> {
    HeaderRules(recon.serverHeaders) + SecretFindings(recon.secretsFound)
  }

  /**
   * The heuristic list is the fired header rules followed by exactly one
   * finding per secret: entry `i` is SEC-EXT-i with the secret as evidence,
   * Critical exactly when the secret mentions "Key".
   */
  lemma {:induction false} WebHeuristicsShape(recon: ReconResult)
    ensures var fs := WebHeuristics(recon);
      var n := |HeaderRules(recon.serverHeaders)|;
      && |fs| == n + |recon.secretsFound|
      && fs[..n] == HeaderRules(recon.serverHeaders)
      && forall i :: 0 <= i < |recon.secretsFound| ==>
           && fs[n + i].id == SECRET_ID_PREFIX + NatToString(i)
           && fs[n + i].evidence == recon.secretsFound[i]
           && (fs[n + i].severity == CRITICAL <==> Contains(recon.secretsFound[i], "Key"))
           && (fs[n + i].severity == MEDIUM <==> !Contains(recon.secretsFound[i], "Key"))
  {
    var n := |HeaderRules(recon.serverHeaders)|;
    forall i | 0 <= i < |recon.secretsFound|
      ensures WebHeuristics(recon)[n + i] == SecretFinding(recon.secretsFound[i], i)
    {
    }
    forall i | 0 <= i < |recon.secretsFound|
      ensures var f := SecretFinding(recon.secretsFound[i], i);
        && f.id == SECRET_ID_PREFIX + NatToString(i)
        && f.evidence == recon.secretsFound[i]
        && (f.severity == CRITICAL <==> Contains(recon.secretsFound[i], "Key"))
        && (f.severity == MEDIUM <==> !Contains(recon.secretsFound[i], "Key"))
    {
      SecretFindingFields(recon.secretsFound[i], i);
    }
  }

  /** Missing HSTS and CSP headers yield a Medium HSTS-001 and a High CSP-001. */
  lemma {:induction false} MissingSecurityHeaders(recon: ReconResult)
    requires "strict-transport-security" !in recon.serverHeaders
    requires "content-security-policy" !in recon.serverHeaders
    ensures var fs := WebHeuristics(recon);
      |fs| >= 2 && fs[0] == HSTS_001 && fs[0].severity == MEDIUM
      && fs[1] == CSP_001 && fs[1].severity == HIGH
  {
  }

  /** An exposed .git/config (its probe answered ok) always produces SEC-003, Critical. */
  lemma {:induction false} ExposedGitConfig(target: string, head: string -> HeadProbe, get: string -> GetProbe,
                         scanHtml: string -> HtmlMatches)
    requires HeadOk(head(TrimTrailingSlash(target) + "/.git/config"))
    ensures SEC_003 in WebHeuristics(WebRecon(target, head, get, scanHtml))
  {
    var r := WebRecon(target, head, get, scanHtml);
    assert r.serverHeaders == ProbedHeaders(target, head);
    ProbedGitKey(target, head);
    var hr := HeaderRules(r.serverHeaders);
    assert SEC_003 == hr[|hr| - 1];
    assert WebHeuristics(r)[|hr| - 1] == SEC_003;
  }

  /** Every SEC-EXT id in one heuristic list is different from every other. */
  lemma {:induction false} SecretIdsDistinct(secrets: seq<string>, i: nat, j: nat)
    requires i < j < |secrets|
    ensures SecretFindings(secrets)[i].id != SecretFindings(secrets)[j].id
  {
    SecretIdsDiffer(i, j);
  }

  lemma SecretIdsDiffer(i: nat, j: nat)
    requires i != j
    ensures SECRET_ID_PREFIX + NatToString(i) != SECRET_ID_PREFIX + NatToString(j)
  {
    var p := SECRET_ID_PREFIX;
    if p + NatToString(i) == p + NatToString(j) {
      assert (p + NatToString(i))[|p|..] == NatToString(i);
      assert (p + NatToString(j))[|p|..] == NatToString(j);
      NatToStringInjective(i, j);
    }
  }

  /**
   * Every redacted API key is Critical (its text says "Key"), and it is
   * titled as an internal IP disclosure exactly when its first four
   * characters contain "IP": the fixed text around them never does.
   */
  lemma KeySecretFinding(capture: string, index: nat)
    ensures var f := SecretFinding(KEY_SECRET_HEAD + Prefix(capture, 4) + KEY_SECRET_TAIL, index);
      && f.severity == CRITICAL
      && (f.issue == IP_ISSUE <==> Contains(Prefix(capture, 4), "IP"))
  {
    var s := KEY_SECRET_HEAD + Prefix(capture, 4) + KEY_SECRET_TAIL;
    SecretFindingFields(s, index);
    KeySecretText(Prefix(capture, 4));
  }

  /** The redacted-key text always says "Key" and says "IP" only inside the kept characters. */
  lemma KeySecretText(p: string)
    ensures var s := KEY_SECRET_HEAD + p + KEY_SECRET_TAIL;
      Contains(s, "Key") && (Contains(s, "IP") <==> Contains(p, "IP"))
  {
    var s := KEY_SECRET_HEAD + p + KEY_SECRET_TAIL;
    assert s[10..13] == "Key";
    OccurrenceIsContained(s, "Key", 10);
    ContainsInMiddle(KEY_SECRET_HEAD, p, KEY_SECRET_TAIL, "IP");
  }

  /**
   * Every internal address is titled as an internal IP disclosure, and it is
   * Critical exactly when the matched text itself contains "Key".
   */
  lemma IpSecretFinding(ip: string, index: nat)
    ensures var f := SecretFinding(IP_SECRET_HEAD + ip, index);
      && f.issue == IP_ISSUE
      && (f.severity == CRITICAL <==> Contains(ip, "Key"))
  {
    SecretFindingFields(IP_SECRET_HEAD + ip, index);
    IpSecretText(ip);
  }

  /** The address text always says "IP" and says "Key" only inside the matched address. */
  lemma IpSecretText(ip: string)
    ensures var s := IP_SECRET_HEAD + ip;
      Contains(s, "IP") && (Contains(s, "Key") <==> Contains(ip, "Key"))
  {
    var s := IP_SECRET_HEAD + ip;
    assert s[9..11] == "IP";
    OccurrenceIsContained(s, "IP", 9);
    assert s == IP_SECRET_HEAD + ip + "";
    ContainsInMiddle(IP_SECRET_HEAD, ip, "", "Key");
  }

  /** The repository heuristics of reasonRepoVulnerabilities. */
  const ENV_EXPOSURE_DESCRIPTION := "A .env file was discovered in the repository root. This often contains sensitive credentials, API keys, and database passwords."
  const ENV_EXPOSURE_EVIDENCE := "Accessible at repo root via raw.githubusercontent.com"
  const ENV_EXPOSURE_REMEDIATION := "Immediately remove the .env file from the repository and add it to .gitignore. Rotate any exposed credentials."
  const SEC_001 := Reasoning("SEC-001", "A05:2021-Security Misconfiguration", "Exposed Environment File",
    ENV_EXPOSURE_DESCRIPTION, CRITICAL, ENV_EXPOSURE_EVIDENCE, ENV_EXPOSURE_REMEDIATION)

  const COMPOSE_EXPOSURE_DESCRIPTION := "A docker-compose file is exposed. This reveals internal network topology and service configurations."
  const COMPOSE_EXPOSURE_EVIDENCE := "docker-compose.yml detected in root."
  const COMPOSE_EXPOSURE_REMEDIATION := "Ensure infrastructure manifests are not stored in public repositories or are appropriately sanitized."
  const SEC_002 := Reasoning("SEC-002", "A01:2021-Broken Access Control", "Exposed Infrastructure Config",
    COMPOSE_EXPOSURE_DESCRIPTION, MEDIUM, COMPOSE_EXPOSURE_EVIDENCE, COMPOSE_EXPOSURE_REMEDIATION)

  function RepoHeuristics(recon: RepoReconResult): seq<Reasoning> {
    (if ".env" in recon.foundFiles then [SEC_001] else [])
    + (if "docker-compose.yml" in recon.foundFiles then [SEC_002] else [])
  }

  /**
   * An exposed `.env` yields exactly one Critical finding (SEC-001), a
   * docker-compose file one Medium SEC-002, and nothing else is produced.
   */
  lemma RepoHeuristicsSpec(recon: RepoReconResult)
    ensures var fs := RepoHeuristics(recon);
      && CountSeverity(fs, CRITICAL) == (if ".env" in recon.foundFiles then 1 else 0)
      && (SEC_001 in fs <==> ".env" in recon.foundFiles)
      && (SEC_002 in fs <==> "docker-compose.yml" in recon.foundFiles)
      && (forall f :: f in fs ==> f == SEC_001 || f == SEC_002)
      && |fs| <= 2
  {
    var fs := RepoHeuristics(recon);
    var a := if ".env" in recon.foundFiles then [SEC_001] else [];
    var b := if "docker-compose.yml" in recon.foundFiles then [SEC_002] else [];
    assert fs == a + b;
    assert CountSeverity(b, CRITICAL) == 0 by {
      if b != [] {
        assert b[1..] == [];
      }
    }
    if a != [] {
      assert fs[1..] == b;
    }
  }

  // ---------------------------------------------------------------------------
  // Report

  /** What generateSecurityReport returns (its constant confidence is not modelled). */
  datatype Report = Report(
    title: string,
    category: string,
    severity: string,
    description: string,
    evidence: string,
    remediation: string)

  function GenerateSecurityReport(v: Reasoning): Report {
    Report(v.issue, v.category, v.severity, v.description, v.evidence, v.remediation)
  }

  /**
   * The report keeps everything a finding says except its id: two findings
   * give the same report exactly when they differ at most in their ids.
   */
  lemma ReportKeepsAllButId(a: Reasoning, b: Reasoning)
    ensures GenerateSecurityReport(a) == GenerateSecurityReport(b) <==> a.(id := b.id) == b
  {
  }
}
