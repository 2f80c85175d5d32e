/**
 * The intelligence dispatcher: a module-level cache of provider responses,
 * the primary provider request and the fallback rotation over the other
 * configured providers. A provider request is the oracle `exec`, which
 * answers None for a provider it does not know (JavaScript `undefined`).
 */
module Intelligence {
  import opened Common

  /**
   * The parts of a provider response the pipeline reads: its `error` flag
   * and the three places a reply text can sit (`choices[0].message.content`,
   * `content[0].text`, `candidates[0].content.parts[0].text`).
   */
  datatype LlmResponse = LlmResponse(
    error: bool,
    choiceText: Option<string>,
    contentText: Option<string>,
    candidateText: Option<string>)

  /** executeLlmRequest(provider, key, prompt) */
  type Exec = (string, string, string) -> Option<LlmResponse>

  /**
   * The configuration object. `allKeys` is the record of provider keys,
   * as its entries in `Object.keys` order.
   */
  datatype LlmConfig = LlmConfig(provider: string, key: string, allKeys: Option<seq<(string, string)>>)

  /** `result && !result.error` */
  predicate Succeeded(r: Option<LlmResponse>) {
    r.Some? && !r.value.error
  }

  const PREFIX_LENGTH := 100

  /** `${provider}:${prompt.substring(0, 100)}` */
  function CacheKey(provider: string, prompt: string): (k: string)
    ensures StartsWith(k, provider + ":")
    ensures |k| == |provider| + 1 + (if |prompt| < PREFIX_LENGTH then |prompt| else PREFIX_LENGTH)
  {
    provider + ":" + Prefix(prompt, PREFIX_LENGTH)
  }

  /** Prompts that agree on their first hundred characters share one cache entry per provider. */
  lemma SharedPrefixSharesKey(provider: string, p1: string, p2: string)
    requires Prefix(p1, PREFIX_LENGTH) == Prefix(p2, PREFIX_LENGTH)
    ensures CacheKey(provider, p1) == CacheKey(provider, p2)
  {
  }

  /**
   * For provider names without ':' the key tells the provider and the prompt
   * prefix apart, so two providers never share an entry.
   */
  lemma CacheKeyInjective(p1: string, x1: string, p2: string, x2: string)
    requires ':' !in p1 && ':' !in p2
    requires CacheKey(p1, x1) == CacheKey(p2, x2)
    ensures p1 == p2 && Prefix(x1, PREFIX_LENGTH) == Prefix(x2, PREFIX_LENGTH)
  {
    var k := CacheKey(p1, x1);
    assert k == CacheKey(p2, x2);
    assert IndexOf(k, ':') == |p1| by {
      assert k[|p1|] == ':';
      forall j | 0 <= j < |p1| ensures k[j] != ':' {
        assert k[j] == p1[j];
      }
    }
    assert IndexOf(k, ':') == |p2| by {
      assert k[|p2|] == ':';
      forall j | 0 <= j < |p2| ensures k[j] != ':' {
        assert k[j] == p2[j];
      }
    }
    assert p1 == k[..|p1|] == p2;
    assert Prefix(x1, PREFIX_LENGTH) == k[|p1| + 1..] == Prefix(x2, PREFIX_LENGTH);
  }

  /** `Object.keys(allKeys).filter(p => p !== provider && allKeys[p])` */
  function Fallbacks(provider: string, keys: seq<(string, string)>): (r: seq<(string, string)>)
    ensures |r| <= |keys|
    ensures forall e :: e in r <==> e in keys && e.0 != provider && e.1 != ""
  {
    if keys == [] then []
    else
      (if keys[0].0 != provider && keys[0].1 != "" then [keys[0]] else [])
      + Fallbacks(provider, keys[1..])
  }

  /**
   * The filter keeps the order of the keys and their duplicates: filtering a
   * concatenation filters each part in turn.
   */
  lemma {:induction false} FallbacksAppend(provider: string, a: seq<(string, string)>, b: seq<(string, string)>)
    ensures Fallbacks(provider, a + b) == Fallbacks(provider, a) + Fallbacks(provider, b)
    decreases |a|
  {
    if a == [] {
      assert a + b == b;
    } else {
      var head := if a[0].0 != provider && a[0].1 != "" then [a[0]] else [];
      assert (a + b)[0] == a[0];
      assert (a + b)[1..] == a[1..] + b;
      FallbacksAppend(provider, a[1..], b);
      calc {
        Fallbacks(provider, a + b);
        head + Fallbacks(provider, a[1..] + b);
        head + (Fallbacks(provider, a[1..]) + Fallbacks(provider, b));
        (head + Fallbacks(provider, a[1..])) + Fallbacks(provider, b);
      }
    }
  }

  /** One entry survives exactly when it names another provider and holds a key. */
  lemma FallbacksSingle(provider: string, e: (string, string))
    ensures Fallbacks(provider, [e]) == if e.0 != provider && e.1 != "" then [e] else []
  {
    assert [e][1..] == [];
  }

  /** The provider names of a list of entries, in order. */
  function Names(entries: seq<(string, string)>): (r: seq<string>)
    ensures |r| == |entries|
    ensures forall i :: 0 <= i < |entries| ==> r[i] == entries[i].0
  {
    seq(|entries|, i requires 0 <= i < |entries| => entries[i].0)
  }

  /** The position of the first entry whose request succeeds, if any. */
  function FirstSuccess(entries: seq<(string, string)>, prompt: string, exec: Exec): (r: Option<nat>)
    ensures r.Some? ==>
      && r.value < |entries|
      && Succeeded(exec(entries[r.value].0, entries[r.value].1, prompt))
      && forall j :: 0 <= j < r.value ==> !Succeeded(exec(entries[j].0, entries[j].1, prompt))
    ensures r.None? ==>
      forall j :: 0 <= j < |entries| ==> !Succeeded(exec(entries[j].0, entries[j].1, prompt))
  {
    if entries == [] then None
    else if Succeeded(exec(entries[0].0, entries[0].1, prompt)) then Some(0)
    else match FirstSuccess(entries[1..], prompt, exec)
      case None => None
      case Some(i) => Some(i + 1)
  }

  /** The returned response, the cache afterwards and the providers requested, in order. */
  datatype Dispatched = Dispatched(
    result: Option<LlmResponse>,
    cache: map<string, LlmResponse>,
    calls: seq<string>)

  /** callLlmIntelligence as a function of the cache before the call. */
  function Dispatch(cache: map<string, LlmResponse>, prompt: string, cfg: LlmConfig,
                    exec: Exec): Dispatched
  {
    var k := CacheKey(cfg.provider, prompt);
    if k in cache then Dispatched(Some(cache[k]), cache, [])
    else
      var primary := exec(cfg.provider, cfg.key, prompt);
      if !Succeeded(primary) && cfg.allKeys.Some? then
        var fbs := Fallbacks(cfg.provider, cfg.allKeys.value);
        match FirstSuccess(fbs, prompt, exec)
        case Some(i) =>
          var r := exec(fbs[i].0, fbs[i].1, prompt);
          Dispatched(r, cache[k := r.value], [cfg.provider] + Names(fbs[..i + 1]))
        case None => Dispatched(primary, cache, [cfg.provider] + Names(fbs))
      else if Succeeded(primary) then Dispatched(primary, cache[k := primary.value], [cfg.provider])
      else Dispatched(primary, cache, [cfg.provider])
  }

  /** Every cached response is a successful one. */
  ghost predicate OnlySuccesses(cache: map<string, LlmResponse>) {
    forall k :: k in cache ==> !cache[k].error
  }

  /** A cache hit returns the cached response and requests no provider. */
  lemma DispatchCacheHit(cache: map<string, LlmResponse>, prompt: string, cfg: LlmConfig, exec: Exec)
    requires CacheKey(cfg.provider, prompt) in cache
    ensures var d := Dispatch(cache, prompt, cfg, exec);
      d.result == Some(cache[CacheKey(cfg.provider, prompt)]) && d.calls == [] && d.cache == cache
  {
  }

  /**
   * Only the primary's key can change, only to a successful response, and
   * exactly when the call returns a success it did not find in the cache.
   */
  lemma {:induction false} DispatchCachesOnlySuccess(cache: map<string, LlmResponse>, prompt: string,
                                                    cfg: LlmConfig, exec: Exec)
    requires OnlySuccesses(cache)
    ensures var d := Dispatch(cache, prompt, cfg, exec);
      var k := CacheKey(cfg.provider, prompt);
      && OnlySuccesses(d.cache)
      && (forall k' :: k' != k ==> (k' in d.cache <==> k' in cache))
      && (forall k' :: k' != k && k' in cache ==> d.cache[k'] == cache[k'])
      && (k in cache ==> d.cache[k] == cache[k])
      && (k !in cache ==> (k in d.cache <==> Succeeded(d.result)))
      && (k in d.cache ==> d.result == Some(d.cache[k]))
  {
  }

  /** A successful primary is returned, cached under its key, and no fallback is tried. */
  lemma DispatchPrimarySuccess(cache: map<string, LlmResponse>, prompt: string, cfg: LlmConfig, exec: Exec)
    requires CacheKey(cfg.provider, prompt) !in cache
    requires Succeeded(exec(cfg.provider, cfg.key, prompt))
    ensures var d := Dispatch(cache, prompt, cfg, exec);
      && d.result == exec(cfg.provider, cfg.key, prompt)
      && d.calls == [cfg.provider]
      && d.cache == cache[CacheKey(cfg.provider, prompt) := d.result.value]
  {
  }

  /** Without `allKeys` a failed primary is returned as it is and nothing is cached. */
  lemma DispatchNoFallbackKeys(cache: map<string, LlmResponse>, prompt: string, cfg: LlmConfig, exec: Exec)
    requires CacheKey(cfg.provider, prompt) !in cache
    requires cfg.allKeys.None?
    requires !Succeeded(exec(cfg.provider, cfg.key, prompt))
    ensures Dispatch(cache, prompt, cfg, exec)
      == Dispatched(exec(cfg.provider, cfg.key, prompt), cache, [cfg.provider])
  {
  }

  /**
   * After a failed primary the other providers with a key are requested in
   * order, up to and including the first that succeeds; that one is returned
   * and cached under the primary's key. When none succeeds the primary's own
   * result is returned and the cache is unchanged.
   */
  lemma {:induction false} DispatchFallback(cache: map<string, LlmResponse>, prompt: string,
                                           cfg: LlmConfig, exec: Exec)
    requires CacheKey(cfg.provider, prompt) !in cache
    requires cfg.allKeys.Some?
    requires !Succeeded(exec(cfg.provider, cfg.key, prompt))
    ensures var d := Dispatch(cache, prompt, cfg, exec);
      var fbs := Fallbacks(cfg.provider, cfg.allKeys.value);
      && 1 <= |d.calls| <= |fbs| + 1
      && d.calls == [cfg.provider] + Names(fbs[..|d.calls| - 1])
      && (forall j :: 1 <= j < |d.calls| ==> d.calls[j] != cfg.provider)
      && (forall j :: 0 <= j < |d.calls| - 2 ==> !Succeeded(exec(fbs[j].0, fbs[j].1, prompt)))
      && (if exists j :: 0 <= j < |fbs| && Succeeded(exec(fbs[j].0, fbs[j].1, prompt)) then
            && |d.calls| >= 2
            && d.result == exec(fbs[|d.calls| - 2].0, fbs[|d.calls| - 2].1, prompt)
            && Succeeded(d.result)
            && d.cache == cache[CacheKey(cfg.provider, prompt) := d.result.value]
          else
            && d.result == exec(cfg.provider, cfg.key, prompt)
            && |d.calls| == |fbs| + 1
            && d.cache == cache)
  {
    var fbs := Fallbacks(cfg.provider, cfg.allKeys.value);
    var d := Dispatch(cache, prompt, cfg, exec);
    forall j | 0 <= j < |fbs| ensures fbs[j].0 != cfg.provider {
      assert fbs[j] in fbs;
    }
    match FirstSuccess(fbs, prompt, exec)
    case Some(i) =>
      assert d.calls == [cfg.provider] + Names(fbs[..i + 1]);
    case None =>
      assert fbs[..|fbs|] == fbs;
  }

  /**
   * Once a call has returned a success, the same prompt and provider are
   * answered from the cache with that response, whatever the providers would
   * answer now.
   */
  lemma WarmCallIsCached(cache: map<string, LlmResponse>, prompt: string, cfg: LlmConfig,
                         exec: Exec, later: Exec)
    requires Succeeded(Dispatch(cache, prompt, cfg, exec).result)
    ensures var d := Dispatch(cache, prompt, cfg, exec);
      Dispatch(d.cache, prompt, cfg, later) == Dispatched(d.result, d.cache, [])
  {
  }

  /**
   * The `for … of otherProviders` loop: requests each entry in turn and
   * stops at the first success, returning it and the providers requested.
   */
  method RotateFallbacks(fbs: seq<(string, string)>, prompt: string, exec: Exec)
    returns (found: Option<LlmResponse>, tried: seq<string>)
    ensures match FirstSuccess(fbs, prompt, exec)
      case Some(i) => found == exec(fbs[i].0, fbs[i].1, prompt) && tried == Names(fbs[..i + 1])
      case None => found == None && tried == Names(fbs)
  {
    tried := [];
    var i := 0;
    while i < |fbs|
      invariant 0 <= i <= |fbs|
      invariant tried == Names(fbs[..i])
      invariant forall j :: 0 <= j < i ==> !Succeeded(exec(fbs[j].0, fbs[j].1, prompt))
    {
      var r := exec(fbs[i].0, fbs[i].1, prompt);
      tried := tried + [fbs[i].0];
      assert Names(fbs[..i + 1]) == Names(fbs[..i]) + [fbs[i].0];
      if Succeeded(r) {
        assert FirstSuccess(fbs, prompt, exec) == Some(i);
        return r, tried;
      }
      i := i + 1;
    }
    assert fbs[..i] == fbs;
    return None, tried;
  }

  /** The module-level intelligence cache and the function that consults it. */
  class IntelligenceDispatcher {
    var cache: map<string, LlmResponse>

    ghost predicate Valid()
      reads this
    {
      OnlySuccesses(cache)
    }

    constructor()
      ensures cache == map[] && Valid()
    {
      cache := map[];
    }

    /** callLlmIntelligence: returns the response and the providers it requested, in order. */
    method Call(prompt: string, cfg: LlmConfig, exec: Exec) returns (result: Option<LlmResponse>, calls: seq<string>)
      requires Valid()
      modifies this
      ensures Valid()
      ensures Dispatched(result, cache, calls) == Dispatch(old(cache), prompt, cfg, exec)
    {
      var k := CacheKey(cfg.provider, prompt);
      if k in cache {
        return Some(cache[k]), [];
      }
      result := exec(cfg.provider, cfg.key, prompt);
      calls := [cfg.provider];
      if !Succeeded(result) && cfg.allKeys.Some? {
        var found, tried := RotateFallbacks(Fallbacks(cfg.provider, cfg.allKeys.value), prompt, exec);
        calls := calls + tried;
        if found.Some? {
          cache := cache[k := found.value];
          return found, calls;
        }
      }
      if Succeeded(result) {
        cache := cache[k := result.value];
      }
    }
  }
}
