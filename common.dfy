/** Values and string operations shared by every part of the scan pipeline. */
module Common {

  datatype Option<+T> = None | Some(value: T) {
    function GetOr(default: T): T {
      match this
      case Some(v) => v
      case None => default
    }
  }

  datatype Result<+T> = Ok(value: T) | Err(message: string)

  /** The pre-persistence shape of a finding (VulnerabilityReasoning). */
  datatype Reasoning = Reasoning(
    id: string,
    category: string,
    issue: string,
    description: string,
    severity: string,
    evidence: string,
    remediation: string)

  const LOW := "Low"
  const MEDIUM := "Medium"
  const HIGH := "High"
  const CRITICAL := "Critical"

  /** Number of findings in `fs` whose severity is `sev`. */
  function CountSeverity(fs: seq<Reasoning>, sev: string): nat {
    if fs == [] then 0
    else (if fs[0].severity == sev then 1 else 0) + CountSeverity(fs[1..], sev)
  }

  // ---------------------------------------------------------------------------
  // String predicates (JavaScript startsWith / endsWith / includes)

  predicate StartsWith(s: string, p: string) {
    |p| <= |s| && s[..|p|] == p
  }

  predicate EndsWith(s: string, p: string) {
    |p| <= |s| && s[|s| - |p|..] == p
  }

  predicate OccursAt(s: string, p: string, i: int) {
    0 <= i && i + |p| <= |s| && s[i..i + |p|] == p
  }

  /** `s.includes(p)`, computed by trying every start position in turn. */
  predicate Contains(s: string, p: string)
    decreases |s|
  {
    StartsWith(s, p) || (|s| > 0 && Contains(s[1..], p))
  }

  lemma {:induction false} OccurrenceIsContained(s: string, p: string, i: int)
    requires OccursAt(s, p, i)
    ensures Contains(s, p)
    decreases i
  {
    if i == 0 {
      assert s[..|p|] == p;
    } else {
      assert s[1..][i - 1..i - 1 + |p|] == s[i..i + |p|];
      OccurrenceIsContained(s[1..], p, i - 1);
    }
  }

  lemma {:induction false} ContainedHasOccurrence(s: string, p: string) returns (i: int)
    requires Contains(s, p)
    ensures OccursAt(s, p, i)
    decreases |s|
  {
    if StartsWith(s, p) {
      i := 0;
    } else {
      var j := ContainedHasOccurrence(s[1..], p);
      assert s[1..][j..j + |p|] == s[j + 1..j + 1 + |p|];
      i := j + 1;
    }
  }

  /**
   * When the text before `p` never holds the first character of `w` and the
   * text after it never holds the last, `w` occurs in the whole exactly
   * when it occurs in `p`.
   */
  lemma ContainsInMiddle(a: string, p: string, b: string, w: string)
    requires |w| > 0
    requires forall k :: 0 <= k < |a| ==> a[k] != w[0]
    requires forall k :: 0 <= k < |b| ==> b[k] != w[|w| - 1]
    ensures Contains(a + p + b, w) <==> Contains(p, w)
  {
    var s := a + p + b;
    if Contains(s, w) {
      var i := ContainedHasOccurrence(s, w);
      OccurrenceInMiddle(a, p, b, w, i);
      OccurrenceIsContained(p, w, i - |a|);
    }
    if Contains(p, w) {
      var i := ContainedHasOccurrence(p, w);
      assert s[i + |a|..i + |a| + |w|] == p[i..i + |w|];
      OccurrenceIsContained(s, w, i + |a|);
    }
  }

  /** An occurrence of `w` in `a + p + b`, under the conditions above, lies inside `p`. */
  lemma OccurrenceInMiddle(a: string, p: string, b: string, w: string, i: int)
    requires |w| > 0
    requires forall k :: 0 <= k < |a| ==> a[k] != w[0]
    requires forall k :: 0 <= k < |b| ==> b[k] != w[|w| - 1]
    requires OccursAt(a + p + b, w, i)
    ensures OccursAt(p, w, i - |a|)
  {
    var s := a + p + b;
    var j := i + |w| - 1;
    assert s[i] == w[0] by { assert s[i..i + |w|][0] == w[0]; }
    assert s[j] == w[|w| - 1] by { assert s[i..i + |w|][|w| - 1] == w[|w| - 1]; }
    assert |a| <= i;
    assert j < |a| + |p|;
    assert p[i - |a|..i - |a| + |w|] == s[i..i + |w|];
  }

  /** `Contains` agrees with the positional definition of a substring occurrence. */
  lemma ContainsIff(s: string, p: string)
    ensures Contains(s, p) <==> exists i :: OccursAt(s, p, i)
  {
    if Contains(s, p) {
      var i := ContainedHasOccurrence(s, p);
    }
    forall i | OccursAt(s, p, i) ensures Contains(s, p) {
      OccurrenceIsContained(s, p, i);
    }
  }

  /** JavaScript `s.substring(0, n)`. */
  function Prefix(s: string, n: nat): (r: string)
    ensures |r| == if n < |s| then n else |s|
    ensures StartsWith(s, r)
  {
    if n < |s| then s[..n] else s
  }

  /** Taking a prefix no longer than the first part of a concatenation only sees that part. */
  lemma PrefixOfLongHead(a: string, b: string, n: nat)
    requires n <= |a|
    ensures Prefix(a + b, n) == a[..n]
  {
  }

  /**
   * JavaScript `s.substring(a, b)` for indices already inside the string:
   * the two arguments are swapped when `b < a`.
   */
  function JsSubstring(s: string, a: nat, b: nat): (r: string)
    requires a <= |s| && b <= |s|
    ensures a <= b ==> r == s[a..b]
    ensures b < a ==> r == s[b..a]
  {
    if a <= b then s[a..b] else s[b..a]
  }

  /** `s.indexOf(c)`: the first position of `c`, or -1. */
  function IndexOf(s: string, c: char): (r: int)
    ensures -1 <= r < |s|
    ensures r == -1 <==> c !in s
    ensures 0 <= r ==> s[r] == c && forall j :: 0 <= j < r ==> s[j] != c
  {
    if |s| == 0 then -1
    else if s[0] == c then 0
    else var k := IndexOf(s[1..], c); if k == -1 then -1 else k + 1
  }

  /** `s.lastIndexOf(c)`: the last position of `c`, or -1. */
  function LastIndexOf(s: string, c: char): (r: int)
    ensures -1 <= r < |s|
    ensures r == -1 <==> c !in s
    ensures 0 <= r ==> s[r] == c && forall j :: r < j < |s| ==> s[j] != c
  {
    if |s| == 0 then -1
    else if s[|s| - 1] == c then |s| - 1
    else LastIndexOf(s[..|s| - 1], c)
  }

  /** `xs.join(sep)`. */
  function Join(xs: seq<string>, sep: string): string {
    if xs == [] then ""
    else if |xs| == 1 then xs[0]
    else xs[0] + sep + Join(xs[1..], sep)
  }

  // ---------------------------------------------------------------------------
  // Decimal rendering of naturals (template literals such as `${n}`)

  predicate IsDigit(c: char) {
    '0' <= c <= '9'
  }

  function DigitChar(d: nat): (c: char)
    requires d < 10
    ensures IsDigit(c)
  {
    ('0' as int + d) as char
  }

  function NatToString(n: nat): (s: string)
    ensures |s| >= 1
    ensures forall k :: 0 <= k < |s| ==> IsDigit(s[k])
    ensures n < 10 <==> |s| == 1
    decreases n
  {
    if n < 10 then [DigitChar(n)] else NatToString(n / 10) + [DigitChar(n % 10)]
  }

  function DigitValue(c: char): (d: nat)
    requires IsDigit(c)
    ensures d < 10 && DigitChar(d) == c
  {
    c as int - '0' as int
  }

  /** Reads a string of decimal digits back as a number. */
  function ParseDecimal(s: string): nat
    requires forall k :: 0 <= k < |s| ==> IsDigit(s[k])
  {
    if s == [] then 0
    else ParseDecimal(s[..|s| - 1]) * 10 + DigitValue(s[|s| - 1])
  }

  lemma {:induction false} DecimalRoundTrip(n: nat)
    ensures ParseDecimal(NatToString(n)) == n
    decreases n
  {
    var s := NatToString(n);
    if n >= 10 {
      DecimalRoundTrip(n / 10);
      assert s[..|s| - 1] == NatToString(n / 10);
    }
  }

  /** Distinct numbers render as distinct strings, so indexed ids never collide. */
  lemma NatToStringInjective(a: nat, b: nat)
    requires NatToString(a) == NatToString(b)
    ensures a == b
  {
    DecimalRoundTrip(a);
    DecimalRoundTrip(b);
  }

  lemma TwoDigits(n: nat)
    requires 10 <= n < 100
    ensures NatToString(n) == [DigitChar(n / 10), DigitChar(n % 10)]
  {
  }
}
