/**
 * URL sanitising and the per-client rate limiter in front of scan
 * creation. URL parsing and the clock are parameters.
 */
module Security {
  import opened Common
  import Agents

  const INVALID_URL := "Invalid URL format"

  /**
   * sanitizeUrl on an already parsed URL (None when parsing threw): only
   * http and https with a dotted hostname pass, serialised again; every
   * failure surfaces as the same error.
   */
  function SanitizeUrl(parsed: Option<Agents.Url>): (r: Result<string>)
    ensures r.Ok? <==> && parsed.Some?
                       && (parsed.value.protocol == "http:" || parsed.value.protocol == "https:")
                       && '.' in parsed.value.hostname
    ensures r.Ok? ==> r.value == parsed.value.href
    ensures r.Err? ==> r.message == INVALID_URL
  {
    match parsed
    case None => Err(INVALID_URL)
    case Some(u) =>
      if u.protocol != "http:" && u.protocol != "https:" then Err(INVALID_URL)
      else if '.' !in u.hostname then Err(INVALID_URL)
      else Ok(u.href)
  }

  /** Accepted requests allowed per window. */
  const LIMIT := 5
  /** One hour in milliseconds. */
  const WINDOW_MS := 3600000

  datatype RateRecord = RateRecord(count: nat, lastTime: int)

  /** One checkRateLimit call on the record map: whether it is allowed, and the map afterwards. */
  function RateStep(records: map<string, RateRecord>, ip: string, now: int): (bool, map<string, RateRecord>) {
    var current := if ip in records then records[ip] else RateRecord(0, now);
    if now - current.lastTime > WINDOW_MS then (true, records[ip := RateRecord(1, now)])
    else if current.count >= LIMIT then (false, records)
    else (true, records[ip := RateRecord(current.count + 1, current.lastTime)])
  }

  /** Every stored record has between one and five accepted calls. */
  predicate WellFormed(records: map<string, RateRecord>) {
    forall ip :: ip in records ==> 1 <= records[ip].count <= LIMIT
  }

  /** The first call from an unseen client is allowed and opens its window at `now`. */
  lemma FirstCallAllowed(records: map<string, RateRecord>, ip: string, now: int)
    requires ip !in records
    ensures RateStep(records, ip, now) == (true, records[ip := RateRecord(1, now)])
  {
  }

  /**
   * A call from a known client: past the window it restarts the window at
   * `now`; within it, a fifth accepted call blocks further ones and leaves
   * the record alone, and otherwise the count grows by one with the window
   * start unmoved.
   */
  lemma KnownClientStep(records: map<string, RateRecord>, ip: string, now: int)
    requires ip in records
    ensures var rec := records[ip];
      var (allowed, after) := RateStep(records, ip, now);
      && (now - rec.lastTime > WINDOW_MS ==> allowed && after == records[ip := RateRecord(1, now)])
      && (now - rec.lastTime <= WINDOW_MS && rec.count >= LIMIT ==> !allowed && after == records)
      && (now - rec.lastTime <= WINDOW_MS && rec.count < LIMIT ==>
            allowed && after == records[ip := RateRecord(rec.count + 1, rec.lastTime)])
  {
  }

  /** A call never touches another client's record, and it keeps every record within the limit. */
  lemma RateStepFrame(records: map<string, RateRecord>, ip: string, now: int)
    requires WellFormed(records)
    ensures var after := RateStep(records, ip, now).1;
      && WellFormed(after)
      && ip in after
      && (forall other :: other != ip ==> (other in after <==> other in records))
      && (forall other :: other != ip && other in records ==> after[other] == records[other])
  {
  }

  /** Number of allowed calls among calls from one client at the given times, in order. */
  function Allowed(records: map<string, RateRecord>, ip: string, times: seq<int>): nat
    decreases |times|
  {
    if times == [] then 0
    else
      var (ok, after) := RateStep(records, ip, times[0]);
      (if ok then 1 else 0) + Allowed(after, ip, times[1..])
  }

  /**
   * Calls that all fall within the window opened by a client's record are
   * allowed at most as often as the record has room left: five per window.
   */
  lemma {:induction false} AtMostLimitPerWindow(records: map<string, RateRecord>, ip: string, times: seq<int>)
    requires ip in records && records[ip].count <= LIMIT
    requires forall k :: 0 <= k < |times| ==> times[k] - records[ip].lastTime <= WINDOW_MS
    ensures Allowed(records, ip, times) <= LIMIT - records[ip].count
    decreases |times|
  {
    if times != [] {
      var after := RateStep(records, ip, times[0]).1;
      assert after[ip].lastTime == records[ip].lastTime;
      AtMostLimitPerWindow(after, ip, times[1..]);
    }
  }

  /** The limiter's record map (`rateLimits`). */
  class RateLimiter {
    var records: map<string, RateRecord>

    ghost predicate Valid()
      reads this
    {
      WellFormed(records)
    }

    constructor()
      ensures Valid() && records == map[]
    {
      records := map[];
    }

    /** checkRateLimit at time `now`. */
    method CheckRateLimit(ip: string, now: int) returns (allowed: bool)
      requires Valid()
      modifies this
      ensures Valid()
      ensures (allowed, records) == RateStep(old(records), ip, now)
    {
      var current := if ip in records then records[ip] else RateRecord(0, now);
      if now - current.lastTime > WINDOW_MS {
        records := records[ip := RateRecord(1, now)];
        return true;
      }
      if current.count >= LIMIT {
        return false;
      }
      current := current.(count := current.count + 1);
      records := records[ip := current];
      allowed := true;
    }
  }
}
