/**
 * The built-in pattern scanner: for every file of a checked-out tree it
 * reports hard-coded secrets found by two regular expressions and, in
 * JavaScript and TypeScript files, uses of `eval(`. Listing the tree,
 * reading files and relative paths are parameters; `now` stands for the
 * clock used in ids.
 *
 * The two expressions are matched exactly as a global JavaScript regular
 * expression does, position by position from `lastIndex`:
 *   keyword:  (?:api_key|apikey|secret|token|password|key)[\s:=]+['"]([a-zA-Z0-9_\-]{20,})['"]  (flags g, i)
 *   sk_live:  sk_live_[0-9a-zA-Z]{24}  (flag g)
 * Neither needs backtracking to decide a match: no keyword is a prefix of
 * another, and each repeated class is followed by a quote it excludes.
 */
module PatternScanner {
  import opened Common

  const KEYWORDS := ["api_key", "apikey", "secret", "token", "password", "key"]
  const SK_LIVE := "sk_live_"
  const SK_LIVE_TAIL := 24
  const MIN_SECRET := 20
  const EVIDENCE_PREFIX := 10

  const SECRET_ID_HEAD := "PATTERN-SECRET-"
  const EVAL_ID_HEAD := "PATTERN-EVAL-"
  const SECRET_CATEGORY := "A07:2021-Identification and Authentication Failures"
  const SECRET_ISSUE := "Hardcoded Secret"
  const SECRET_DESCRIPTION := "A potential hardcoded secret (API key, token, or password) was detected."
  const SECRET_REMEDIATION := "Move secrets to environment variables."
  const EVAL_CATEGORY := "A03:2021-Injection"
  const EVAL_ISSUE := "Dangerous Function Execution"
  const EVAL_DESCRIPTION := "Usage of eval() detected. This can lead to remote code execution."
  const EVAL_EVIDENCE_TAIL := ": matches 'eval('"
  const EVAL_REMEDIATION := "Avoid using eval(). Use JSON.parse() or other safer alternatives."
  const EVAL_CALL := "eval("

  /** isAvailable: the scanner is the always-present fallback. */
  function IsAvailable(): (r: bool)
    ensures r
  {
    true
  }

  // ---------------------------------------------------------------------------
  // Character classes

  /** JavaScript `\s`: white space and line terminators. */
  predicate IsJsSpace(c: char) {
    c == '\t' || c == '\n' || c == '\U{000B}' || c == '\U{000C}' || c == '\r' || c == ' '
    || c == '\U{00A0}' || c == '\U{1680}' || ('\U{2000}' <= c <= '\U{200A}')
    || c == '\U{2028}' || c == '\U{2029}' || c == '\U{202F}' || c == '\U{205F}'
    || c == '\U{3000}' || c == '\U{FEFF}'
  }

  /** `[\s:=]` */
  predicate IsSeparator(c: char) {
    IsJsSpace(c) || c == ':' || c == '='
  }

  /** `['"]` */
  predicate IsQuote(c: char) {
    c == '\'' || c == '"'
  }

  predicate IsAlnum(c: char) {
    ('0' <= c <= '9') || ('a' <= c <= 'z') || ('A' <= c <= 'Z')
  }

  /** `[a-zA-Z0-9_\-]` */
  predicate IsValueChar(c: char) {
    IsAlnum(c) || c == '_' || c == '-'
  }

  /** Case folding under the `i` flag: only ASCII letters fold onto ASCII letters. */
  function FoldChar(c: char): char {
    if 'A' <= c <= 'Z' then (c as int + 32) as char else c
  }

  // ---------------------------------------------------------------------------
  // The keyword expression

  /** Does keyword `kw` (lower case) occur at `i`, ignoring ASCII case? */
  predicate KeywordOccursAt(content: string, i: nat, kw: string) {
    i + |kw| <= |content| && forall k :: 0 <= k < |kw| ==> FoldChar(content[i + k]) == kw[k]
  }

  /** Length of the first alternative that occurs at `i`, or 0. */
  function KeywordLength(content: string, i: nat, kws: seq<string>): nat
  {
    if kws == [] then 0
    else if kws[0] != "" && KeywordOccursAt(content, i, kws[0]) then |kws[0]|
    else KeywordLength(content, i, kws[1..])
  }

  /** A nonzero length is that of an alternative occurring at `i`; zero means none occurs there. */
  lemma {:induction false} KeywordLengthSpec(content: string, i: nat, kws: seq<string>)
    ensures var n := KeywordLength(content, i, kws);
      && (n > 0 ==> exists k :: 0 <= k < |kws| && n == |kws[k]| && KeywordOccursAt(content, i, kws[k]))
      && (n == 0 ==> forall k :: 0 <= k < |kws| && kws[k] != "" ==> !KeywordOccursAt(content, i, kws[k]))
    decreases |kws|
  {
    if kws != [] && !(kws[0] != "" && KeywordOccursAt(content, i, kws[0])) {
      KeywordLengthSpec(content, i, kws[1..]);
      assert forall k :: 1 <= k < |kws| ==> kws[k] == kws[1..][k - 1];
    }
  }

  /** End of the longest run of `inClass` characters starting at `p`. */
  function RunEnd(s: string, p: nat, inClass: char -> bool): (e: nat)
    requires p <= |s|
    ensures p <= e <= |s|
    decreases |s| - p
  {
    if p == |s| || !inClass(s[p]) then p else RunEnd(s, p + 1, inClass)
  }

  /** The run is maximal: every character in it is in the class, and the one after it is not. */
  lemma {:induction false} RunEndSpec(s: string, p: nat, inClass: char -> bool)
    requires p <= |s|
    ensures var e := RunEnd(s, p, inClass);
      && (forall k :: p <= k < e ==> inClass(s[k]))
      && (e < |s| ==> !inClass(s[e]))
    decreases |s| - p
  {
    if p < |s| && inClass(s[p]) {
      RunEndSpec(s, p + 1, inClass);
    }
  }

  /**
   * A match of either expression: the string scanSecrets pushes for it
   * (`match[1] || match[0]`) and the `lastIndex` the engine moves to.
   */
  datatype Match = Match(secret: string, next: nat)

  /** The keyword expression tried at `i` alone, as the engine does at each start position. */
  function KeywordMatchAt(content: string, i: nat): (r: Option<Match>)
    requires i <= |content|
    ensures r.Some? ==> i < r.value.next <= |content|
  {
    var n := KeywordLength(content, i, KEYWORDS);
    if n == 0 || i + n > |content| then None
    else
      var p := i + n;
      var sepEnd := RunEnd(content, p, IsSeparator);
      if sepEnd == p || sepEnd == |content| || !IsQuote(content[sepEnd]) then None
      else
        var q := sepEnd + 1;
        var e := RunEnd(content, q, IsValueChar);
        if e < q + MIN_SECRET || e == |content| || !IsQuote(content[e]) then None
        else Some(Match(content[q..e], e + 1))
  }

  /**
   * A keyword match is a keyword, separators and a quote, then the value:
   * at least twenty value characters, found in the content right before
   * the closing quote.
   */
  lemma KeywordMatchShape(content: string, i: nat)
    requires i <= |content| && KeywordMatchAt(content, i).Some?
    ensures var m := KeywordMatchAt(content, i).value;
      && |m.secret| >= MIN_SECRET
      && i + |m.secret| < m.next
      && (forall k :: 0 <= k < |m.secret| ==> IsValueChar(m.secret[k]))
      && IsQuote(content[m.next - 1])
      && OccursAt(content, m.secret, m.next - 1 - |m.secret|)
  {
    var m := KeywordMatchAt(content, i).value;
    var q := m.next - 1 - |m.secret|;
    RunEndSpec(content, q, IsValueChar);
    assert forall k :: 0 <= k < |m.secret| ==> m.secret[k] == content[q + k];
  }

  /**
   * The keyword expression matches at `i` with keyword `kw`: a separator
   * run fills `[i + |kw|, q - 1)`, an opening quote sits at `q - 1`, the
   * value fills `[q, e)` with at least twenty value characters, and a
   * closing quote sits at `e`.
   */
  predicate KeywordRegexMatch(content: string, i: nat, kw: string, q: nat, e: nat) {
    && kw in KEYWORDS && KeywordOccursAt(content, i, kw)
    && i + |kw| + 1 < q && q + MIN_SECRET <= e < |content|
    && (forall k :: i + |kw| <= k < q - 1 ==> IsSeparator(content[k]))
    && IsQuote(content[q - 1])
    && (forall k :: q <= k < e ==> IsValueChar(content[k]))
    && IsQuote(content[e])
  }

  /** At most one keyword occurs at a position: they differ in the first letter, or, for the two API spellings, in the fourth. */
  lemma OneKeywordAt(content: string, i: nat, a: string, b: string)
    requires a in KEYWORDS && b in KEYWORDS
    requires KeywordOccursAt(content, i, a) && KeywordOccursAt(content, i, b)
    ensures a == b
  {
    assert a[0] == FoldChar(content[i]) == b[0];
    if a[0] == 'a' {
      assert a[3] == FoldChar(content[i + 3]) == b[3];
    }
  }

  /** A run of class characters closed by one outside the class (or by the end) is the run `RunEnd` finds. */
  lemma {:induction false} RunEndAt(s: string, p: nat, inClass: char -> bool, e: nat)
    requires p <= e <= |s|
    requires forall k :: p <= k < e ==> inClass(s[k])
    requires e == |s| || !inClass(s[e])
    ensures RunEnd(s, p, inClass) == e
    decreases e - p
  {
    if p < e {
      RunEndAt(s, p + 1, inClass, e);
    }
  }

  /** A match found at `i` is a match of the expression, with keyword `kw` and value from `q`, capturing its value. */
  lemma KeywordMatchAtSound(content: string, i: nat) returns (kw: string, q: nat)
    requires i <= |content| && KeywordMatchAt(content, i).Some?
    ensures var m := KeywordMatchAt(content, i).value;
      KeywordRegexMatch(content, i, kw, q, m.next - 1) && m.secret == content[q..m.next - 1]
  {
    var n := KeywordLength(content, i, KEYWORDS);
    KeywordLengthSpec(content, i, KEYWORDS);
    var t :| 0 <= t < |KEYWORDS| && n == |KEYWORDS[t]| && KeywordOccursAt(content, i, KEYWORDS[t]);
    kw := KEYWORDS[t];
    var sepEnd := RunEnd(content, i + n, IsSeparator);
    RunEndSpec(content, i + n, IsSeparator);
    q := sepEnd + 1;
    RunEndSpec(content, q, IsValueChar);
  }

  /** Every match of the expression at `i` is the one found there, with its value as the capture. */
  lemma KeywordMatchAtComplete(content: string, i: nat, kw: string, q: nat, e: nat)
    requires KeywordRegexMatch(content, i, kw, q, e)
    ensures KeywordMatchAt(content, i) == Some(Match(content[q..e], e + 1))
  {
    var n := KeywordLength(content, i, KEYWORDS);
    KeywordLengthSpec(content, i, KEYWORDS);
    var t :| 0 <= t < |KEYWORDS| && n == |KEYWORDS[t]| && KeywordOccursAt(content, i, KEYWORDS[t]);
    OneKeywordAt(content, i, kw, KEYWORDS[t]);
    RunEndAt(content, i + n, IsSeparator, q - 1);
    RunEndAt(content, q, IsValueChar, e);
  }

  /** `regex.exec` for the keyword expression: the leftmost match at or after `lastIndex`. */
  function NextKeyword(content: string, lastIndex: nat): (r: Option<Match>)
    requires lastIndex <= |content|
    ensures r.Some? ==> lastIndex < r.value.next <= |content|
    decreases |content| - lastIndex
  {
    if lastIndex == |content| then None
    else if KeywordMatchAt(content, lastIndex).Some? then KeywordMatchAt(content, lastIndex)
    else NextKeyword(content, lastIndex + 1)
  }

  /** `exec` finds nothing exactly when the expression matches at no position from `lastIndex` on. */
  lemma {:induction false} NextKeywordNone(content: string, lastIndex: nat)
    requires lastIndex <= |content|
    ensures NextKeyword(content, lastIndex).None? <==>
      forall j :: lastIndex <= j < |content| ==> KeywordMatchAt(content, j).None?
    decreases |content| - lastIndex
  {
    if lastIndex < |content| && KeywordMatchAt(content, lastIndex).None? {
      NextKeywordNone(content, lastIndex + 1);
    }
  }

  /** What `exec` finds is the match at `start`, the leftmost position from `lastIndex` on where the expression matches. */
  lemma {:induction false} NextKeywordLeftmost(content: string, lastIndex: nat) returns (start: nat)
    requires lastIndex <= |content| && NextKeyword(content, lastIndex).Some?
    ensures lastIndex <= start < |content|
    ensures NextKeyword(content, lastIndex) == KeywordMatchAt(content, start)
    ensures forall j :: lastIndex <= j < start ==> KeywordMatchAt(content, j).None?
    decreases |content| - lastIndex
  {
    var here := KeywordMatchAt(content, lastIndex);
    if here.Some? {
      start := lastIndex;
    } else {
      assert NextKeyword(content, lastIndex) == NextKeyword(content, lastIndex + 1);
      start := NextKeywordLeftmost(content, lastIndex + 1);
      assert forall j :: lastIndex + 1 <= j < start ==> KeywordMatchAt(content, j).None?;
    }
  }

  /** No match of the expression starts at or after `lastIndex` when `exec` finds none. */
  lemma NoKeywordMatchAfter(content: string, lastIndex: nat, j: nat, kw: string, q: nat, e: nat)
    requires lastIndex <= j <= |content| && NextKeyword(content, lastIndex).None?
    ensures !KeywordRegexMatch(content, j, kw, q, e)
  {
    NextKeywordNone(content, lastIndex);
    if KeywordRegexMatch(content, j, kw, q, e) {
      KeywordMatchAtComplete(content, j, kw, q, e);
    }
  }

  /**
   * The captured values of every keyword match from `lastIndex` on, as the
   * global expression finds them: each search resumes past the previous
   * match's closing quote.
   */
  function KeywordSecrets(content: string, lastIndex: nat): seq<string>
    requires lastIndex <= |content|
    decreases |content| - lastIndex
  {
    match NextKeyword(content, lastIndex)
    case None => []
    case Some(m) => [m.secret] + KeywordSecrets(content, m.next)
  }

  /** A value of at least twenty value characters that occurs in the content. */
  predicate IsKeywordSecret(content: string, v: string) {
    |v| >= MIN_SECRET && (forall k :: 0 <= k < |v| ==> IsValueChar(v[k])) && Contains(content, v)
  }

  /** The value `exec` captures has that shape. */
  lemma {:induction false} NextKeywordShape(content: string, lastIndex: nat)
    requires lastIndex <= |content| && NextKeyword(content, lastIndex).Some?
    ensures IsKeywordSecret(content, NextKeyword(content, lastIndex).value.secret)
    decreases |content| - lastIndex
  {
    var m := KeywordMatchAt(content, lastIndex);
    if m.Some? {
      KeywordMatchShape(content, lastIndex);
      OccurrenceIsContained(content, m.value.secret, m.value.next - 1 - |m.value.secret|);
    } else {
      NextKeywordShape(content, lastIndex + 1);
    }
  }

  /** Every keyword capture has that shape. */
  lemma {:induction false} KeywordSecretsShape(content: string, lastIndex: nat)
    requires lastIndex <= |content|
    ensures forall v :: v in KeywordSecrets(content, lastIndex) ==> IsKeywordSecret(content, v)
    decreases |content| - lastIndex
  {
    var next := NextKeyword(content, lastIndex);
    if next.Some? {
      NextKeywordShape(content, lastIndex);
      KeywordSecretsShape(content, next.value.next);
      assert KeywordSecrets(content, lastIndex) == [next.value.secret] + KeywordSecrets(content, next.value.next);
    }
  }

  // ---------------------------------------------------------------------------
  // The sk_live expression

  /** The sk_live expression tried at `i` alone: the whole 32-character match. */
  function SkLiveMatchAt(content: string, i: nat): (r: Option<Match>)
    requires i <= |content|
    ensures r.Some? ==> i < r.value.next <= |content|
  {
    var end := i + |SK_LIVE| + SK_LIVE_TAIL;
    if end <= |content| && content[i..i + |SK_LIVE|] == SK_LIVE
       && forall k :: i + |SK_LIVE| <= k < end ==> IsAlnum(content[k])
    then Some(Match(content[i..end], end))
    else None
  }

  /** `regex.exec` for the sk_live expression: the leftmost match at or after `lastIndex`. */
  function NextSkLive(content: string, lastIndex: nat): (r: Option<Match>)
    requires lastIndex <= |content|
    ensures r.Some? ==> lastIndex < r.value.next <= |content|
    decreases |content| - lastIndex
  {
    if lastIndex == |content| then None
    else if SkLiveMatchAt(content, lastIndex).Some? then SkLiveMatchAt(content, lastIndex)
    else NextSkLive(content, lastIndex + 1)
  }

  /** `exec` finds nothing exactly when the expression matches at no position from `lastIndex` on. */
  lemma {:induction false} NextSkLiveNone(content: string, lastIndex: nat)
    requires lastIndex <= |content|
    ensures NextSkLive(content, lastIndex).None? <==>
      forall j :: lastIndex <= j < |content| ==> SkLiveMatchAt(content, j).None?
    decreases |content| - lastIndex
  {
    if lastIndex < |content| && SkLiveMatchAt(content, lastIndex).None? {
      NextSkLiveNone(content, lastIndex + 1);
    }
  }

  /** What `exec` finds is the match at `start`, the leftmost position from `lastIndex` on where the expression matches. */
  lemma {:induction false} NextSkLiveLeftmost(content: string, lastIndex: nat) returns (start: nat)
    requires lastIndex <= |content| && NextSkLive(content, lastIndex).Some?
    ensures lastIndex <= start < |content|
    ensures NextSkLive(content, lastIndex) == SkLiveMatchAt(content, start)
    ensures forall j :: lastIndex <= j < start ==> SkLiveMatchAt(content, j).None?
    decreases |content| - lastIndex
  {
    if SkLiveMatchAt(content, lastIndex).Some? {
      start := lastIndex;
    } else {
      start := NextSkLiveLeftmost(content, lastIndex + 1);
    }
  }

  /** Every sk_live match from `lastIndex` on, whole; each search resumes after the previous match. */
  function SkLiveKeys(content: string, lastIndex: nat): seq<string>
    requires lastIndex <= |content|
    decreases |content| - lastIndex
  {
    match NextSkLive(content, lastIndex)
    case None => []
    case Some(m) => [m.secret] + SkLiveKeys(content, m.next)
  }

  /** The prefix and 24 letters or digits, occurring in the content. */
  predicate IsSkLiveKey(content: string, v: string) {
    && |v| == |SK_LIVE| + SK_LIVE_TAIL
    && StartsWith(v, SK_LIVE)
    && (forall k :: |SK_LIVE| <= k < |v| ==> IsAlnum(v[k]))
    && Contains(content, v)
  }

  /** The match `exec` returns has that shape. */
  lemma {:induction false} NextSkLiveShape(content: string, lastIndex: nat)
    requires lastIndex <= |content| && NextSkLive(content, lastIndex).Some?
    ensures IsSkLiveKey(content, NextSkLive(content, lastIndex).value.secret)
    decreases |content| - lastIndex
  {
    if SkLiveMatchAt(content, lastIndex).Some? {
      var end := lastIndex + |SK_LIVE| + SK_LIVE_TAIL;
      var v := content[lastIndex..end];
      assert v[..|SK_LIVE|] == content[lastIndex..lastIndex + |SK_LIVE|];
      assert forall k :: 0 <= k < |v| ==> v[k] == content[lastIndex + k];
      OccurrenceIsContained(content, v, lastIndex);
    } else {
      NextSkLiveShape(content, lastIndex + 1);
    }
  }

  /** Every sk_live key has that shape. */
  lemma {:induction false} SkLiveKeysShape(content: string, lastIndex: nat)
    requires lastIndex <= |content|
    ensures forall v :: v in SkLiveKeys(content, lastIndex) ==> IsSkLiveKey(content, v)
    decreases |content| - lastIndex
  {
    var next := NextSkLive(content, lastIndex);
    if next.Some? {
      NextSkLiveShape(content, lastIndex);
      SkLiveKeysShape(content, next.value.next);
      assert SkLiveKeys(content, lastIndex) == [next.value.secret] + SkLiveKeys(content, next.value.next);
    }
  }

  /** scanSecrets: every keyword match, then every sk_live match. */
  function Secrets(content: string): seq<string> {
    KeywordSecrets(content, 0) + SkLiveKeys(content, 0)
  }

  /** `regex.exec(content)` for the keyword expression with `lastIndex` at `from`. */
  method ExecKeyword(content: string, from: nat) returns (r: Option<Match>)
    requires from <= |content|
    ensures r == NextKeyword(content, from)
  {
    var pos := from;
    while pos < |content|
      invariant from <= pos <= |content|
      invariant NextKeyword(content, pos) == NextKeyword(content, from)
    {
      var m := KeywordMatchAt(content, pos);
      if m.Some? {
        return m;
      }
      pos := pos + 1;
    }
    return None;
  }

  /** The first `while (regex.exec(...))` loop of scanSecrets, pushing each capture. */
  method ScanKeywords(content: string) returns (secrets: seq<string>)
    ensures secrets == KeywordSecrets(content, 0)
  {
    secrets := [];
    var lastIndex := 0;
    var m := ExecKeyword(content, 0);
    while m.Some?
      invariant lastIndex <= |content|
      invariant m == NextKeyword(content, lastIndex)
      invariant secrets + KeywordSecrets(content, lastIndex) == KeywordSecrets(content, 0)
      decreases |content| - lastIndex
    {
      assert KeywordSecrets(content, lastIndex) == [m.value.secret] + KeywordSecrets(content, m.value.next);
      assert secrets + ([m.value.secret] + KeywordSecrets(content, m.value.next))
          == (secrets + [m.value.secret]) + KeywordSecrets(content, m.value.next);
      secrets := secrets + [m.value.secret];
      lastIndex := m.value.next;
      m := ExecKeyword(content, lastIndex);
    }
    assert secrets + [] == secrets;
  }

  /** `regex.exec(content)` for the sk_live expression with `lastIndex` at `from`. */
  method ExecSkLive(content: string, from: nat) returns (r: Option<Match>)
    requires from <= |content|
    ensures r == NextSkLive(content, from)
  {
    var pos := from;
    while pos < |content|
      invariant from <= pos <= |content|
      invariant NextSkLive(content, pos) == NextSkLive(content, from)
    {
      var m := SkLiveMatchAt(content, pos);
      if m.Some? {
        return m;
      }
      pos := pos + 1;
    }
    return None;
  }

  /** The second loop of scanSecrets, pushing each whole sk_live match. */
  method ScanSkLive(content: string) returns (keys: seq<string>)
    ensures keys == SkLiveKeys(content, 0)
  {
    keys := [];
    var lastIndex := 0;
    var m := ExecSkLive(content, 0);
    while m.Some?
      invariant lastIndex <= |content|
      invariant m == NextSkLive(content, lastIndex)
      invariant keys + SkLiveKeys(content, lastIndex) == SkLiveKeys(content, 0)
      decreases |content| - lastIndex
    {
      assert SkLiveKeys(content, lastIndex) == [m.value.secret] + SkLiveKeys(content, m.value.next);
      assert keys + ([m.value.secret] + SkLiveKeys(content, m.value.next))
          == (keys + [m.value.secret]) + SkLiveKeys(content, m.value.next);
      keys := keys + [m.value.secret];
      lastIndex := m.value.next;
      m := ExecSkLive(content, lastIndex);
    }
    assert keys + [] == keys;
  }

  /** scanSecrets: the keyword captures, then the sk_live keys. */
  method ScanSecrets(content: string) returns (secrets: seq<string>)
    ensures secrets == Secrets(content)
  {
    var captures := ScanKeywords(content);
    var keys := ScanSkLive(content);
    secrets := captures + keys;
  }

  // ---------------------------------------------------------------------------
  // Findings per file

  function SecretFinding(secret: string, index: nat, relPath: string, now: nat): (f: Reasoning)
    ensures f.severity == CRITICAL && f.issue == SECRET_ISSUE
    ensures f.evidence == relPath + ": " + Prefix(secret, EVIDENCE_PREFIX) + "..."
  {
    Reasoning(SECRET_ID_HEAD + NatToString(index) + "-" + NatToString(now), SECRET_CATEGORY, SECRET_ISSUE,
              SECRET_DESCRIPTION, CRITICAL, relPath + ": " + Prefix(secret, EVIDENCE_PREFIX) + "...",
              SECRET_REMEDIATION)
  }

  function EvalFinding(relPath: string, now: nat): (f: Reasoning)
    ensures f.severity == CRITICAL && f.issue == EVAL_ISSUE
  {
    Reasoning(EVAL_ID_HEAD + NatToString(now), EVAL_CATEGORY, EVAL_ISSUE, EVAL_DESCRIPTION, CRITICAL,
              relPath + EVAL_EVIDENCE_TAIL, EVAL_REMEDIATION)
  }

  /** The eval rule applies to `.js` and `.ts` files that contain `eval(`. */
  predicate EvalApplies(file: string, content: string) {
    (EndsWith(file, ".js") || EndsWith(file, ".ts")) && Contains(content, EVAL_CALL)
  }

  function SecretFindings(secrets: seq<string>, relPath: string, now: nat): (fs: seq<Reasoning>)
    ensures |fs| == |secrets|
    ensures forall i :: 0 <= i < |secrets| ==>
      && fs[i].id == SECRET_ID_HEAD + NatToString(i) + "-" + NatToString(now)
      && fs[i].severity == CRITICAL && fs[i].issue == SECRET_ISSUE
      && fs[i].evidence == relPath + ": " + Prefix(secrets[i], EVIDENCE_PREFIX) + "..."
  {
    seq(|secrets|, i requires 0 <= i < |secrets| => SecretFinding(secrets[i], i, relPath, now))
  }

  /** The findings for one file: one per secret, in order, then at most one eval finding. */
  function FileFindings(file: string, relPath: string, content: string, now: nat): seq<Reasoning> {
    SecretFindings(Secrets(content), relPath, now)
      + if EvalApplies(file, content) then [EvalFinding(relPath, now)] else []
  }

  /** The findings for the files in order, stopping at the first file that cannot be read. */
  function Collected(files: seq<string>, readFile: string -> Option<string>, relative: string -> string,
                     now: nat): seq<Reasoning>
    decreases |files|
  {
    if files == [] then []
    else match readFile(files[0])
      case None => []
      case Some(content) =>
        FileFindings(files[0], relative(files[0]), content, now) + Collected(files[1..], readFile, relative, now)
  }

  /** scan: an unreadable tree gives nothing; otherwise the findings collected before any failure. */
  function PatternReport(files: Option<seq<string>>, readFile: string -> Option<string>,
                         relative: string -> string, now: nat): seq<Reasoning> {
    if files.None? then [] else Collected(files.value, readFile, relative, now)
  }

  /** The `forEach` over one file's secrets, pushing a finding per secret. */
  method PushSecretFindings(findings: seq<Reasoning>, secrets: seq<string>, relPath: string, now: nat)
    returns (out: seq<Reasoning>)
    ensures out == findings + SecretFindings(secrets, relPath, now)
  {
    out := findings;
    var idx := 0;
    while idx < |secrets|
      invariant 0 <= idx <= |secrets|
      invariant out == findings + SecretFindings(secrets[..idx], relPath, now)
    {
      assert SecretFindings(secrets[..idx + 1], relPath, now)
          == SecretFindings(secrets[..idx], relPath, now) + [SecretFinding(secrets[idx], idx, relPath, now)];
      out := out + [SecretFinding(secrets[idx], idx, relPath, now)];
      idx := idx + 1;
    }
    assert secrets[..idx] == secrets;
  }

  /** The body of the file loop for a file that was read: secrets, then the eval rule. */
  method ScanFile(findings: seq<Reasoning>, file: string, relPath: string, content: string, now: nat)
    returns (out: seq<Reasoning>)
    ensures out == findings + FileFindings(file, relPath, content, now)
  {
    var secrets := ScanSecrets(content);
    out := PushSecretFindings(findings, secrets, relPath, now);
    if (EndsWith(file, ".js") || EndsWith(file, ".ts")) && Contains(content, EVAL_CALL) {
      out := out + [EvalFinding(relPath, now)];
    }
  }

  /** scan as the source runs it: a loop over the files, ended by the first read that fails. */
  method Scan(files: Option<seq<string>>, readFile: string -> Option<string>, relative: string -> string,
              now: nat) returns (findings: seq<Reasoning>)
    ensures findings == PatternReport(files, readFile, relative, now)
  {
    findings := [];
    if files.None? {
      return;
    }
    var fs := files.value;
    var k := 0;
    while k < |fs|
      invariant 0 <= k <= |fs|
      invariant findings + Collected(fs[k..], readFile, relative, now) == Collected(fs, readFile, relative, now)
    {
      var content := readFile(fs[k]);
      if content.None? {
        assert Collected(fs[k..], readFile, relative, now) == [];
        return;
      }
      var relPath := relative(fs[k]);
      ghost var here := FileFindings(fs[k], relPath, content.value, now);
      ghost var rest := Collected(fs[k + 1..], readFile, relative, now);
      assert fs[k..][1..] == fs[k + 1..];
      assert Collected(fs[k..], readFile, relative, now) == here + rest;
      assert findings + (here + rest) == (findings + here) + rest;
      findings := ScanFile(findings, fs[k], relPath, content.value, now);
      k := k + 1;
    }
  }

  // ---------------------------------------------------------------------------
  // Properties

  /** Every finding the scanner reports is Critical. */
  lemma {:induction false} AllCritical(files: seq<string>, readFile: string -> Option<string>,
                                       relative: string -> string, now: nat)
    ensures forall f :: f in Collected(files, readFile, relative, now) ==> f.severity == CRITICAL
    decreases |files|
  {
    if files != [] && readFile(files[0]).Some? {
      AllCritical(files[1..], readFile, relative, now);
    }
  }

  /** A file that cannot be read ends the scan: the result is what the earlier files gave. */
  lemma {:induction false} FailureKeepsEarlierFindings(files: seq<string>, readFile: string -> Option<string>,
                                                       relative: string -> string, now: nat, k: nat)
    requires k < |files| && readFile(files[k]).None?
    ensures Collected(files, readFile, relative, now) == Collected(files[..k], readFile, relative, now)
    decreases k
  {
    if k > 0 {
      assert files[..k][1..] == files[1..][..k - 1];
      FailureKeepsEarlierFindings(files[1..], readFile, relative, now, k - 1);
    }
  }

  /**
   * One file: a Hardcoded Secret finding per secret, in order, whose
   * evidence is the relative path and the secret's first ten characters;
   * then one eval finding exactly when the eval rule applies.
   */
  lemma FileFindingsSpec(file: string, relPath: string, content: string, now: nat)
    ensures var fs := FileFindings(file, relPath, content, now);
      var secrets := Secrets(content);
      && |fs| == |secrets| + (if EvalApplies(file, content) then 1 else 0)
      && (forall i :: 0 <= i < |secrets| ==>
            fs[i].issue == SECRET_ISSUE && fs[i].severity == CRITICAL
            && fs[i].evidence == relPath + ": " + Prefix(secrets[i], EVIDENCE_PREFIX) + "...")
      && (EvalApplies(file, content) ==> fs[|fs| - 1].issue == EVAL_ISSUE)
  {
  }

  /**
   * scanSecrets reports only strings found in the file: first the keyword
   * values, each at least twenty value characters, then the sk_live keys.
   */
  lemma SecretsFound(content: string)
    ensures var secrets := Secrets(content);
      var n := |KeywordSecrets(content, 0)|;
      && (forall j :: 0 <= j < n ==> IsKeywordSecret(content, secrets[j]))
      && (forall j :: n <= j < |secrets| ==> IsSkLiveKey(content, secrets[j]))
      && (forall v :: v in secrets ==> Contains(content, v) && |v| >= MIN_SECRET)
  {
    KeywordSecretsShape(content, 0);
    SkLiveKeysShape(content, 0);
    var ks := KeywordSecrets(content, 0);
    var ls := SkLiveKeys(content, 0);
    assert forall j :: |ks| <= j < |ks + ls| ==> (ks + ls)[j] == ls[j - |ks|];
  }
}
