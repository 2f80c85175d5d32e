/**
 * The in-memory persistence store used when no database client is
 * available: arrays of scans, findings and sessions, and the operations
 * the scan pipeline and the API perform on them. Identifiers and
 * timestamps are parameters (`freshId`, `now`).
 */
module Store {
  import opened Common

  const RUNNING := "RUNNING"
  const COMPLETED := "COMPLETED"
  const FAILED := "FAILED"
  const INITIAL_LOG := "Initializing Agent Mission..."

  datatype Scan = Scan(id: string, url: string, consent: bool, status: string, logs: seq<string>, createdAt: int)

  datatype Finding = Finding(
    id: string,
    scanId: string,
    findingType: string,
    severity: string,
    description: string,
    evidence: string,
    location: string,
    createdAt: int)

  datatype Session = Session(id: string, token: string, userId: string)

  /** `data` of scan.create; a caller-supplied status or log list is accepted and then overridden. */
  datatype ScanData = ScanData(id: Option<string>, url: string, consent: bool,
                               status: Option<string>, logs: Option<seq<string>>)

  /** `data` of finding.create. */
  datatype FindingData = FindingData(
    id: Option<string>,
    scanId: string,
    findingType: string,
    severity: string,
    description: string,
    evidence: string,
    location: string)

  /** The record finding.create stores: the generated id unless `data` names one, and the creation time. */
  function NewFinding(data: FindingData, freshId: string, now: int): Finding {
    Finding(data.id.GetOr(freshId), data.scanId, data.findingType, data.severity,
            data.description, data.evidence, data.location, now)
  }

  /** `data` of scan.update: the fields it carries. */
  datatype ScanPatch = ScanPatch(status: Option<string>, logs: Option<seq<string>>)

  /** What scan.update returns: the updated record, or the data with the requested id. */
  datatype UpdateResult = Updated(scan: Scan) | Unmatched(id: string, patch: ScanPatch)

  /** `where` of session.delete: an id, a token, or both. */
  datatype SessionWhere = SessionWhere(id: Option<string>, token: Option<string>)

  // ---------------------------------------------------------------------------
  // Lookups

  /** `scans.findIndex(s => s.id === id)` */
  function ScanIndex(scans: seq<Scan>, id: string): (i: int)
    ensures -1 <= i < |scans|
    ensures i == -1 <==> forall j :: 0 <= j < |scans| ==> scans[j].id != id
    ensures 0 <= i ==> scans[i].id == id && forall j :: 0 <= j < i ==> scans[j].id != id
  {
    if scans == [] then -1
    else if scans[0].id == id then 0
    else var k := ScanIndex(scans[1..], id); if k == -1 then -1 else k + 1
  }

  /** `scans.find(s => s.id === id)`, None for `undefined`. */
  function FindScan(scans: seq<Scan>, id: string): (r: Option<Scan>)
    ensures r.None? <==> forall j :: 0 <= j < |scans| ==> scans[j].id != id
    ensures r.Some? ==> r.value in scans && r.value.id == id
  {
    var i := ScanIndex(scans, id);
    if i == -1 then None else Some(scans[i])
  }

  predicate SessionMatches(s: Session, w: SessionWhere) {
    (w.id.Some? && s.id == w.id.value) || (w.token.Some? && s.token == w.token.value)
  }

  /** `sessions.findIndex(s => s.id === where.id || s.token === where.token)` */
  function SessionIndex(sessions: seq<Session>, w: SessionWhere): (i: int)
    ensures -1 <= i < |sessions|
    ensures i == -1 <==> forall j :: 0 <= j < |sessions| ==> !SessionMatches(sessions[j], w)
    ensures 0 <= i ==>
              SessionMatches(sessions[i], w) && forall j :: 0 <= j < i ==> !SessionMatches(sessions[j], w)
  {
    if sessions == [] then -1
    else if SessionMatches(sessions[0], w) then 0
    else var k := SessionIndex(sessions[1..], w); if k == -1 then -1 else k + 1
  }

  // ---------------------------------------------------------------------------
  // The effect of scan.update on the scan list

  /** The record after `{ ...scan, ...data }` with the log list appended rather than replaced. */
  function Patched(s: Scan, p: ScanPatch): (r: Scan)
    ensures r.id == s.id && r.url == s.url && r.consent == s.consent && r.createdAt == s.createdAt
    ensures r.status == (if p.status.Some? then p.status.value else s.status)
    ensures r.logs == s.logs + (if p.logs.Some? then p.logs.value else [])
  {
    Scan(s.id, s.url, s.consent, p.status.GetOr(s.status),
         if p.logs.Some? then s.logs + p.logs.value else s.logs, s.createdAt)
  }

  /** The scan list after scan.update(id, patch). */
  function PatchScans(scans: seq<Scan>, id: string, p: ScanPatch): seq<Scan> {
    var i := ScanIndex(scans, id);
    if i == -1 then scans else scans[i := Patched(scans[i], p)]
  }

  /** The scan list after a series of scan.update calls on one id. */
  function PatchAll(scans: seq<Scan>, id: string, ps: seq<ScanPatch>): seq<Scan>
    decreases |ps|
  {
    if ps == [] then scans else PatchAll(PatchScans(scans, id, ps[0]), id, ps[1..])
  }

  /** All log lines a series of patches appends, in order. */
  function PatchLogs(ps: seq<ScanPatch>): seq<string> {
    if ps == [] then [] else (if ps[0].logs.Some? then ps[0].logs.value else []) + PatchLogs(ps[1..])
  }

  /** The statuses a series of patches writes, in order. */
  function StatusWrites(ps: seq<ScanPatch>): seq<string> {
    if ps == [] then [] else (if ps[0].status.Some? then [ps[0].status.value] else []) + StatusWrites(ps[1..])
  }

  lemma {:induction false} PatchLogsAppend(a: seq<ScanPatch>, b: seq<ScanPatch>)
    ensures PatchLogs(a + b) == PatchLogs(a) + PatchLogs(b)
    decreases |a|
  {
    if a != [] {
      assert (a + b)[0] == a[0];
      assert (a + b)[1..] == a[1..] + b;
      PatchLogsAppend(a[1..], b);
      var h := if a[0].logs.Some? then a[0].logs.value else [];
      assert PatchLogs(a) == h + PatchLogs(a[1..]);
      assert PatchLogs(a + b) == h + PatchLogs(a[1..] + b);
      assert h + (PatchLogs(a[1..]) + PatchLogs(b)) == (h + PatchLogs(a[1..])) + PatchLogs(b);
    } else {
      assert a + b == b;
    }
  }

  lemma {:induction false} StatusWritesAppend(a: seq<ScanPatch>, b: seq<ScanPatch>)
    ensures StatusWrites(a + b) == StatusWrites(a) + StatusWrites(b)
    decreases |a|
  {
    if a != [] {
      assert (a + b)[0] == a[0];
      assert (a + b)[1..] == a[1..] + b;
      StatusWritesAppend(a[1..], b);
      var h := if a[0].status.Some? then [a[0].status.value] else [];
      assert StatusWrites(a) == h + StatusWrites(a[1..]);
      assert StatusWrites(a + b) == h + StatusWrites(a[1..] + b);
      assert h + (StatusWrites(a[1..]) + StatusWrites(b)) == (h + StatusWrites(a[1..])) + StatusWrites(b);
    } else {
      assert a + b == b;
    }
  }

  /** The record after a series of updates, applied in order. */
  function PatchSeries(s: Scan, ps: seq<ScanPatch>): Scan
    decreases |ps|
  {
    if ps == [] then s else PatchSeries(Patched(s, ps[0]), ps[1..])
  }

  /** A series of updates keeps the record's identity and appends all its log lines in order. */
  lemma {:induction false} PatchSeriesLogs(s: Scan, ps: seq<ScanPatch>)
    ensures var r := PatchSeries(s, ps);
      && r.id == s.id && r.url == s.url && r.consent == s.consent && r.createdAt == s.createdAt
      && r.logs == s.logs + PatchLogs(ps)
    decreases |ps|
  {
    if ps != [] {
      var t := Patched(s, ps[0]);
      PatchSeriesLogs(t, ps[1..]);
      var head := if ps[0].logs.Some? then ps[0].logs.value else [];
      assert PatchLogs(ps) == head + PatchLogs(ps[1..]);
      assert t.logs == s.logs + head;
      assert t.logs + PatchLogs(ps[1..]) == s.logs + (head + PatchLogs(ps[1..]));
    }
  }

  /** A series of updates leaves the last status it writes, or the old one when it writes none. */
  lemma {:induction false} PatchSeriesStatus(s: Scan, ps: seq<ScanPatch>)
    ensures var w := StatusWrites(ps);
      PatchSeries(s, ps).status == if w == [] then s.status else w[|w| - 1]
    decreases |ps|
  {
    if ps != [] {
      PatchSeriesStatus(Patched(s, ps[0]), ps[1..]);
    }
  }

  /** One update on an existing scan touches only that record and keeps its position. */
  lemma {:induction false} PatchScansSpec(scans: seq<Scan>, id: string, p: ScanPatch)
    requires ScanIndex(scans, id) != -1
    ensures var i := ScanIndex(scans, id);
      var r := PatchScans(scans, id, p);
      && ScanIndex(r, id) == i
      && r == scans[i := Patched(scans[i], p)]
  {
    var i := ScanIndex(scans, id);
    var r := PatchScans(scans, id, p);
    assert r[i].id == id;
    forall j | 0 <= j < i ensures r[j].id != id {
      assert r[j] == scans[j];
    }
  }

  /**
   * A series of updates on an existing scan leaves every other record and
   * the scan's position alone and applies the whole series to that scan.
   */
  lemma {:induction false} PatchAllSpec(scans: seq<Scan>, id: string, ps: seq<ScanPatch>)
    requires ScanIndex(scans, id) != -1
    ensures var i := ScanIndex(scans, id);
      var r := PatchAll(scans, id, ps);
      ScanIndex(r, id) == i && r == scans[i := PatchSeries(scans[i], ps)]
    decreases |ps|
  {
    if ps != [] {
      var i := ScanIndex(scans, id);
      PatchScansSpec(scans, id, ps[0]);
      PatchAllSpec(PatchScans(scans, id, ps[0]), id, ps[1..]);
    }
  }

  /** Issuing one more update after a series is the series extended by that update. */
  lemma {:induction false} PatchAllSnoc(scans: seq<Scan>, id: string, ps: seq<ScanPatch>, p: ScanPatch)
    ensures PatchAll(scans, id, ps + [p]) == PatchScans(PatchAll(scans, id, ps), id, p)
    decreases |ps|
  {
    if ps == [] {
      assert ps + [p] == [p];
    } else {
      assert (ps + [p])[1..] == ps[1..] + [p];
      PatchAllSnoc(PatchScans(scans, id, ps[0]), id, ps[1..], p);
    }
  }

  /** Updates on an id no scan has change nothing. */
  lemma {:induction false} PatchAllUnknownId(scans: seq<Scan>, id: string, ps: seq<ScanPatch>)
    requires ScanIndex(scans, id) == -1
    ensures PatchAll(scans, id, ps) == scans
    decreases |ps|
  {
    if ps != [] {
      PatchAllUnknownId(scans, id, ps[1..]);
    }
  }

  // ---------------------------------------------------------------------------
  // Queries (findMany, findUnique, includeRelations, applyOrderBy)

  /** `[...xs].reverse()` */
  function Reverse<T>(xs: seq<T>): (r: seq<T>)
    ensures |r| == |xs|
    ensures forall i :: 0 <= i < |xs| ==> r[i] == xs[|xs| - 1 - i]
    ensures multiset(r) == multiset(xs)
  {
    if xs == [] then []
    else
      assert xs == xs[..|xs| - 1] + [xs[|xs| - 1]];
      [xs[|xs| - 1]] + Reverse(xs[..|xs| - 1])
  }

  /** `f.scanId === scanId` over the findings, in order. */
  function FindingsOfScan(findings: seq<Finding>, scanId: string): (r: seq<Finding>)
    ensures forall f :: f in r <==> f in findings && f.scanId == scanId
    ensures |r| <= |findings|
  {
    if findings == [] then []
    else (if findings[0].scanId == scanId then [findings[0]] else [])
         + FindingsOfScan(findings[1..], scanId)
  }

  /** `f.scanId !== scanId` over the findings, in order. */
  function FindingsNotOfScan(findings: seq<Finding>, scanId: string): (r: seq<Finding>)
    ensures forall f :: f in r <==> f in findings && f.scanId != scanId
    ensures |r| <= |findings|
  {
    if findings == [] then []
    else (if findings[0].scanId != scanId then [findings[0]] else [])
         + FindingsNotOfScan(findings[1..], scanId)
  }

  /**
   * Both filters keep the stored order and the duplicates: filtering a
   * concatenation filters each part in turn.
   */
  lemma {:induction false} FindingsOfScanAppend(a: seq<Finding>, b: seq<Finding>, scanId: string)
    ensures FindingsOfScan(a + b, scanId) == FindingsOfScan(a, scanId) + FindingsOfScan(b, scanId)
    decreases |a|
  {
    if a == [] {
      assert a + b == b;
    } else {
      var head := if a[0].scanId == scanId then [a[0]] else [];
      assert (a + b)[0] == a[0];
      assert (a + b)[1..] == a[1..] + b;
      FindingsOfScanAppend(a[1..], b, scanId);
      calc {
        FindingsOfScan(a + b, scanId);
        head + FindingsOfScan(a[1..] + b, scanId);
        head + (FindingsOfScan(a[1..], scanId) + FindingsOfScan(b, scanId));
        (head + FindingsOfScan(a[1..], scanId)) + FindingsOfScan(b, scanId);
      }
    }
  }

  lemma {:induction false} FindingsNotOfScanAppend(a: seq<Finding>, b: seq<Finding>, scanId: string)
    ensures FindingsNotOfScan(a + b, scanId) == FindingsNotOfScan(a, scanId) + FindingsNotOfScan(b, scanId)
    decreases |a|
  {
    if a == [] {
      assert a + b == b;
    } else {
      var head := if a[0].scanId != scanId then [a[0]] else [];
      assert (a + b)[0] == a[0];
      assert (a + b)[1..] == a[1..] + b;
      FindingsNotOfScanAppend(a[1..], b, scanId);
      calc {
        FindingsNotOfScan(a + b, scanId);
        head + FindingsNotOfScan(a[1..] + b, scanId);
        head + (FindingsNotOfScan(a[1..], scanId) + FindingsNotOfScan(b, scanId));
        (head + FindingsNotOfScan(a[1..], scanId)) + FindingsNotOfScan(b, scanId);
      }
    }
  }

  /** One finding is kept by exactly one of the two filters. */
  lemma FindingsOfScanSingle(f: Finding, scanId: string)
    ensures FindingsOfScan([f], scanId) == if f.scanId == scanId then [f] else []
    ensures FindingsNotOfScan([f], scanId) == if f.scanId != scanId then [f] else []
  {
    assert [f][1..] == [];
  }

  /** Removing a scan's findings and keeping them are complementary: together they are all the findings. */
  lemma {:induction false} FindingsPartition(findings: seq<Finding>, scanId: string)
    ensures |FindingsOfScan(findings, scanId)| + |FindingsNotOfScan(findings, scanId)| == |findings|
    ensures multiset(FindingsOfScan(findings, scanId)) + multiset(FindingsNotOfScan(findings, scanId))
            == multiset(findings)
  {
    if findings != [] {
      FindingsPartition(findings[1..], scanId);
      assert findings == [findings[0]] + findings[1..];
    }
  }

  /** `orderBy: { <key>: direction }`, with the key as a numeric projection of the record. */
  datatype OrderBy<!T> = OrderBy(key: T -> int, direction: string)

  /** Does `a` stay ahead of `b` under the comparator (`direction === 'asc'` ascending, else descending)? */
  predicate InOrder(a: int, b: int, ascending: bool) {
    if ascending then a <= b else a >= b
  }

  /** Each element stays ahead of the next one under the comparator. */
  predicate SortedBy<T>(xs: seq<T>, key: T -> int, ascending: bool)
    decreases |xs|
  {
    |xs| <= 1 || (InOrder(key(xs[0]), key(xs[1]), ascending) && SortedBy(xs[1..], key, ascending))
  }

  /** Neighbour-wise order is order between any two positions. */
  lemma {:induction false} SortedAllPairs<T>(xs: seq<T>, key: T -> int, ascending: bool, i: int, j: int)
    requires SortedBy(xs, key, ascending)
    requires 0 <= i < j < |xs|
    ensures InOrder(key(xs[i]), key(xs[j]), ascending)
    decreases j
  {
    if i == 0 {
      if j > 1 {
        SortedAllPairs(xs[1..], key, ascending, 0, j - 1);
      }
    } else {
      SortedAllPairs(xs[1..], key, ascending, i - 1, j - 1);
    }
  }

  /** Places `x` after every element that does not sort strictly after it (a stable insertion). */
  function Insert<T>(xs: seq<T>, x: T, key: T -> int, ascending: bool): (r: seq<T>)
    requires SortedBy(xs, key, ascending)
    ensures SortedBy(r, key, ascending)
    ensures |r| == |xs| + 1
    ensures r[0] == x || (xs != [] && r[0] == xs[0])
    decreases |xs|
  {
    if xs == [] then [x]
    else if InOrder(key(xs[0]), key(x), ascending) then
      var rest := Insert(xs[1..], x, key, ascending);
      assert ([xs[0]] + rest)[1..] == rest;
      [xs[0]] + rest
    else
      assert ([x] + xs)[1..] == xs;
      [x] + xs
  }

  /** Insertion adds exactly the one element. */
  lemma {:induction false} InsertPermutes<T>(xs: seq<T>, x: T, key: T -> int, ascending: bool)
    requires SortedBy(xs, key, ascending)
    ensures multiset(Insert(xs, x, key, ascending)) == multiset(xs) + multiset{x}
    decreases |xs|
  {
    if xs != [] && InOrder(key(xs[0]), key(x), ascending) {
      InsertPermutes(xs[1..], x, key, ascending);
      assert xs == [xs[0]] + xs[1..];
    }
  }

  /** applyOrderBy: the items sorted stably on the key in the requested direction. */
  function SortItems<T>(items: seq<T>, key: T -> int, ascending: bool): (r: seq<T>)
    ensures SortedBy(r, key, ascending)
    ensures multiset(r) == multiset(items)
    ensures |r| == |items|
    decreases |items|
  {
    if items == [] then []
    else
      var init, last := items[..|items| - 1], items[|items| - 1];
      var sorted := SortItems(init, key, ascending);
      InsertPermutes(sorted, last, key, ascending);
      assert multiset(items) == multiset(init) + multiset{last} by {
        assert items == init + [last];
      }
      Insert(sorted, last, key, ascending)
  }

  /** An element whose key ties with every earlier one goes to the end. */
  lemma {:induction false} InsertTiedGoesLast<T>(xs: seq<T>, x: T, key: T -> int, ascending: bool)
    requires SortedBy(xs, key, ascending)
    requires forall k :: 0 <= k < |xs| ==> key(xs[k]) == key(x)
    ensures Insert(xs, x, key, ascending) == xs + [x]
    decreases |xs|
  {
    if xs != [] {
      var tail := xs[1..];
      forall k | 0 <= k < |tail| ensures key(tail[k]) == key(x) {
        assert tail[k] == xs[k + 1];
      }
      InsertBehindHead(xs, x, key, ascending);
      InsertTiedGoesLast(tail, x, key, ascending);
      assert [xs[0]] + (tail + [x]) == ([xs[0]] + tail) + [x];
      assert [xs[0]] + tail == xs;
    } else {
      assert [] + [x] == [x];
    }
  }

  /** An element that does not sort strictly before the head is inserted into the tail. */
  lemma InsertBehindHead<T>(xs: seq<T>, x: T, key: T -> int, ascending: bool)
    requires SortedBy(xs, key, ascending) && xs != [] && key(xs[0]) == key(x)
    ensures SortedBy(xs[1..], key, ascending)
    ensures Insert(xs, x, key, ascending) == [xs[0]] + Insert(xs[1..], x, key, ascending)
  {
  }

  /** The sort is stable: records whose keys all tie keep their stored order. */
  lemma {:induction false} SortTiesKeepsOrder<T>(items: seq<T>, key: T -> int, ascending: bool, c: int)
    requires forall k :: 0 <= k < |items| ==> key(items[k]) == c
    ensures SortItems(items, key, ascending) == items
    decreases |items|
  {
    if items != [] {
      var init := items[..|items| - 1];
      SortTiesKeepsOrder(init, key, ascending, c);
      InsertTiedGoesLast(init, items[|items| - 1], key, ascending);
      assert init + [items[|items| - 1]] == items;
    }
  }

  /** The items whose key is `k`, in their order in `xs`. */
  function KeyedAs<T>(xs: seq<T>, key: T -> int, k: int): seq<T>
    decreases |xs|
  {
    if xs == [] then []
    else (if key(xs[0]) == k then [xs[0]] else []) + KeyedAs(xs[1..], key, k)
  }

  lemma {:induction false} KeyedAsAppend<T>(a: seq<T>, b: seq<T>, key: T -> int, k: int)
    ensures KeyedAs(a + b, key, k) == KeyedAs(a, key, k) + KeyedAs(b, key, k)
    decreases |a|
  {
    if a == [] {
      assert a + b == b;
    } else {
      var head := if key(a[0]) == k then [a[0]] else [];
      assert (a + b)[0] == a[0];
      assert (a + b)[1..] == a[1..] + b;
      KeyedAsAppend(a[1..], b, key, k);
      calc {
        KeyedAs(a + b, key, k);
        head + KeyedAs(a[1..] + b, key, k);
        head + (KeyedAs(a[1..], key, k) + KeyedAs(b, key, k));
        (head + KeyedAs(a[1..], key, k)) + KeyedAs(b, key, k);
      }
    }
  }

  /** No item has key `k`: none is kept. */
  lemma {:induction false} KeyedAsNone<T>(xs: seq<T>, key: T -> int, k: int)
    requires forall j :: 0 <= j < |xs| ==> key(xs[j]) != k
    ensures KeyedAs(xs, key, k) == []
    decreases |xs|
  {
    if xs != [] {
      assert forall j :: 0 <= j < |xs[1..]| ==> xs[1..][j] == xs[j + 1];
      KeyedAsNone(xs[1..], key, k);
    }
  }

  /** Inserting `x` puts it behind every element already sorted under its key. */
  lemma {:induction false} InsertKeyedAs<T>(xs: seq<T>, x: T, key: T -> int, ascending: bool, k: int)
    requires SortedBy(xs, key, ascending)
    ensures KeyedAs(Insert(xs, x, key, ascending), key, k)
            == KeyedAs(xs, key, k) + (if key(x) == k then [x] else [])
    decreases |xs|
  {
    var single := if key(x) == k then [x] else [];
    if xs == [] {
      assert KeyedAs([x], key, k) == single + KeyedAs([x][1..], key, k);
      assert [x][1..] == [];
    } else if InOrder(key(xs[0]), key(x), ascending) {
      var head := if key(xs[0]) == k then [xs[0]] else [];
      var rest := Insert(xs[1..], x, key, ascending);
      InsertKeyedAs(xs[1..], x, key, ascending, k);
      assert ([xs[0]] + rest)[0] == xs[0];
      assert ([xs[0]] + rest)[1..] == rest;
      calc {
        KeyedAs(Insert(xs, x, key, ascending), key, k);
        KeyedAs([xs[0]] + rest, key, k);
        head + KeyedAs(rest, key, k);
        head + (KeyedAs(xs[1..], key, k) + single);
        (head + KeyedAs(xs[1..], key, k)) + single;
      }
    } else {
      // every key already present sorts strictly after key(x)
      forall j | 0 <= j < |xs| ensures key(xs[j]) != key(x) {
        if j > 0 {
          SortedAllPairs(xs, key, ascending, 0, j);
        }
      }
      assert ([x] + xs)[0] == x;
      assert ([x] + xs)[1..] == xs;
      assert KeyedAs([x] + xs, key, k) == single + KeyedAs(xs, key, k);
      if key(x) == k {
        KeyedAsNone(xs, key, k);
      }
    }
  }

  /**
   * The sort is stable: for every key value, the items with that key come
   * out in the order they were stored in.
   */
  lemma {:induction false} SortStable<T>(items: seq<T>, key: T -> int, ascending: bool, k: int)
    ensures KeyedAs(SortItems(items, key, ascending), key, k) == KeyedAs(items, key, k)
    decreases |items|
  {
    if items != [] {
      var init := items[..|items| - 1];
      var last := items[|items| - 1];
      SortStable(init, key, ascending, k);
      var sorted := SortItems(init, key, ascending);
      assert SortItems(items, key, ascending) == Insert(sorted, last, key, ascending);
      InsertKeyedAs(sorted, last, key, ascending, k);
      KeyedAsAppend(init, [last], key, k);
      KeyedAsSingle(last, key, k);
      assert init + [last] == items;
    }
  }

  lemma KeyedAsSingle<T>(x: T, key: T -> int, k: int)
    ensures KeyedAs([x], key, k) == if key(x) == k then [x] else []
  {
    assert [x][1..] == [];
  }

  /** `args.orderBy` present: sorted copy; absent: reverse insertion order. */
  function OrderItems<T>(items: seq<T>, orderBy: Option<OrderBy<T>>): (r: seq<T>)
    ensures multiset(r) == multiset(items)
    ensures orderBy.Some? ==> SortedBy(r, orderBy.value.key, orderBy.value.direction == "asc")
    ensures orderBy.None? ==> r == Reverse(items)
  {
    match orderBy
    case None => Reverse(items)
    case Some(o) => SortItems(items, o.key, o.direction == "asc")
  }

  /** A scan as returned by a query: with its findings attached when `include.findings` is set. */
  datatype ScanView = ScanView(scan: Scan, findings: Option<seq<Finding>>)

  /** Whether `include.scan` was requested and, if so, the finding's scan or null. */
  datatype ScanAttachment = NotRequested | Attached(scan: Option<Scan>)

  datatype FindingView = FindingView(finding: Finding, scan: ScanAttachment)

  /** includeRelations for a scan: `includeFlag` is None when absent, else its `findings` flag. */
  function IncludeScan(findings: seq<Finding>, s: Scan, includeFlag: Option<bool>): (v: ScanView)
    ensures v.scan == s
    ensures v.findings.Some? <==> includeFlag == Some(true)
    ensures v.findings.Some? ==> forall f :: f in v.findings.value <==> f in findings && f.scanId == s.id
  {
    if includeFlag == Some(true) then ScanView(s, Some(FindingsOfScan(findings, s.id)))
    else ScanView(s, None)
  }

  /** includeRelations for a finding: `includeFlag` is None when absent, else its `scan` flag. */
  function IncludeFinding(scans: seq<Scan>, f: Finding, includeFlag: Option<bool>): (v: FindingView)
    ensures v.finding == f
    ensures v.scan.Attached? <==> includeFlag == Some(true)
    ensures v.scan.Attached? ==> v.scan.scan == FindScan(scans, f.scanId)
  {
    if includeFlag == Some(true) then FindingView(f, Attached(FindScan(scans, f.scanId)))
    else FindingView(f, NotRequested)
  }

  /** A scan's findings, found by its id, are exactly the stored findings that name it. */
  lemma IncludedFindingsBelongToScan(findings: seq<Finding>, s: Scan)
    ensures var v := IncludeScan(findings, s, Some(true));
      v.findings.Some? && forall f :: f in v.findings.value <==> f in findings && f.scanId == s.id
  {
  }

  /** With no `include` every record is returned as it is. */
  lemma NoIncludeReturnsItems(findings: seq<Finding>, s: Scan)
    ensures IncludeScan(findings, s, None) == ScanView(s, None)
  {
  }

  // ---------------------------------------------------------------------------
  // The store

  class MockStore {
    var scans: seq<Scan>
    var findings: seq<Finding>
    var sessions: seq<Session>

    constructor()
      ensures scans == [] && findings == [] && sessions == []
    {
      scans := [];
      findings := [];
      sessions := [];
    }

    /** scan.create: status and logs are always the initial ones, whatever `data` says. */
    method CreateScan(data: ScanData, freshId: string, now: int) returns (s: Scan)
      modifies this
      ensures s == Scan(data.id.GetOr(freshId), data.url, data.consent, RUNNING, [INITIAL_LOG], now)
      ensures scans == old(scans) + [s]
      ensures findings == old(findings) && sessions == old(sessions)
    {
      s := Scan(data.id.GetOr(freshId), data.url, data.consent, RUNNING, [INITIAL_LOG], now);
      scans := scans + [s];
    }

    /**
     * scan.update: on a known id the first such record takes the patch, its
     * logs extended rather than replaced; on an unknown id nothing changes
     * and the data comes back with the requested id.
     */
    method UpdateScan(id: string, patch: ScanPatch) returns (r: UpdateResult)
      modifies this
      ensures scans == PatchScans(old(scans), id, patch)
      ensures findings == old(findings) && sessions == old(sessions)
      ensures ScanIndex(old(scans), id) == -1 ==> r == Unmatched(id, patch) && scans == old(scans)
      ensures ScanIndex(old(scans), id) != -1 ==>
        r == Updated(Patched(old(scans)[ScanIndex(old(scans), id)], patch))
    {
      var i := ScanIndex(scans, id);
      if i == -1 {
        return Unmatched(id, patch);
      }
      var updated := Patched(scans[i], patch);
      scans := scans[i := updated];
      r := Updated(updated);
    }

    /** scan.delete: removes the first scan with the id and every finding of it. */
    method DeleteScan(id: string) returns (r: Option<Scan>)
      modifies this
      ensures sessions == old(sessions)
      ensures ScanIndex(old(scans), id) == -1 ==>
        r == None && scans == old(scans) && findings == old(findings)
      ensures ScanIndex(old(scans), id) != -1 ==>
        var i := ScanIndex(old(scans), id);
        && r == Some(old(scans)[i])
        && scans == old(scans)[..i] + old(scans)[i + 1..]
        && findings == FindingsNotOfScan(old(findings), id)
    {
      var i := ScanIndex(scans, id);
      if i == -1 {
        return None;
      }
      var deleted := scans[i];
      scans := scans[..i] + scans[i + 1..];
      findings := FindingsNotOfScan(findings, deleted.id);
      r := Some(deleted);
    }

    /** finding.create */
    method CreateFinding(data: FindingData, freshId: string, now: int) returns (f: Finding)
      modifies this
      ensures f == NewFinding(data, freshId, now)
      ensures findings == old(findings) + [f]
      ensures scans == old(scans) && sessions == old(sessions)
    {
      f := NewFinding(data, freshId, now);
      findings := findings + [f];
    }

    /** session.delete: removes the first session matching the id or the token. */
    method DeleteSession(w: SessionWhere) returns (r: Option<Session>)
      modifies this
      ensures scans == old(scans) && findings == old(findings)
      ensures SessionIndex(old(sessions), w) == -1 ==> r == None && sessions == old(sessions)
      ensures SessionIndex(old(sessions), w) != -1 ==>
        var i := SessionIndex(old(sessions), w);
        r == Some(old(sessions)[i]) && sessions == old(sessions)[..i] + old(sessions)[i + 1..]
    {
      var i := SessionIndex(sessions, w);
      if i == -1 {
        return None;
      }
      r := Some(sessions[i]);
      sessions := sessions[..i] + sessions[i + 1..];
    }

    /** scan.findMany */
    function FindScans(orderBy: Option<OrderBy<Scan>>, includeFlag: Option<bool>): (r: seq<ScanView>)
      reads this
      ensures |r| == |scans|
      ensures Views(r) == OrderItems(scans, orderBy) && multiset(Views(r)) == multiset(scans)
      ensures forall i :: 0 <= i < |r| ==> r[i] == IncludeScan(findings, r[i].scan, includeFlag)
    {
      var ordered := OrderItems(scans, orderBy);
      var fs := findings;
      var r := seq(|ordered|, i requires 0 <= i < |ordered| => IncludeScan(fs, ordered[i], includeFlag));
      assert Views(r) == ordered;
      r
    }

    /** scan.findUnique */
    function FindScanById(id: string, includeFlag: Option<bool>): (r: Option<ScanView>)
      reads this
      ensures r.None? <==> ScanIndex(scans, id) == -1
      ensures r.Some? ==> r.value.scan == scans[ScanIndex(scans, id)]
      ensures r.Some? ==> r.value == IncludeScan(findings, scans[ScanIndex(scans, id)], includeFlag)
      ensures r.Some? ==> (r.value.findings.Some? <==> includeFlag == Some(true))
      ensures r.Some? && includeFlag == Some(true) ==> r.value.findings == Some(FindingsOfScan(findings, id))
    {
      match FindScan(scans, id)
      case None => None
      case Some(s) => Some(IncludeScan(findings, s, includeFlag))
    }

    /** finding.findMany; `scanId` is the `where.scanId` filter when truthy. */
    function FindFindings(scanId: Option<string>, orderBy: Option<OrderBy<Finding>>,
                          includeFlag: Option<bool>): (r: seq<FindingView>)
      reads this
      ensures var base := if scanId.Some? && scanId.value != "" then FindingsOfScan(findings, scanId.value)
                          else findings;
        && |r| == |base| && multiset(FindingViews(r)) == multiset(base)
        && FindingViews(r) == OrderItems(base, orderBy)
      ensures forall i :: 0 <= i < |r| ==> r[i] == IncludeFinding(scans, r[i].finding, includeFlag)
    {
      var base := if scanId.Some? && scanId.value != "" then FindingsOfScan(findings, scanId.value)
                  else findings;
      var ordered := OrderItems(base, orderBy);
      var ss := scans;
      var r := seq(|ordered|, i requires 0 <= i < |ordered| => IncludeFinding(ss, ordered[i], includeFlag));
      assert FindingViews(r) == ordered;
      r
    }
  }

  /** The scan records of a list of views. */
  function Views(vs: seq<ScanView>): (r: seq<Scan>)
    ensures |r| == |vs| && forall i :: 0 <= i < |vs| ==> r[i] == vs[i].scan
  {
    seq(|vs|, i requires 0 <= i < |vs| => vs[i].scan)
  }

  function FindingViews(vs: seq<FindingView>): (r: seq<Finding>)
    ensures |r| == |vs| && forall i :: 0 <= i < |vs| ==> r[i] == vs[i].finding
  {
    seq(|vs|, i requires 0 <= i < |vs| => vs[i].finding)
  }
}
