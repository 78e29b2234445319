/**
 * `HierarchicalCache` (app/cache/hierarchical_cache.py): an L1 tier with a
 * time-to-live (Redis) in front of a durable L2 table (SQLite), keyed by a
 * SHA-256 digest of the normalised query and its scope.
 *
 * SHA-256 is an uninterpreted deterministic function; the clock is a `nat`
 * of seconds; a Redis or SQLite error is a fault parameter. L1 maps keys to
 * entries with an expiry time; L2 is the table's rows in rowid order.
 */
module HierCache {
  import opened Common
  import opened Text

  // ---------------------------------------------------------------------------
  // keys

  /** `" ".join(query.lower().strip().split())`. */
  function NormalizeQuery(query: string): string {
    Join(" ", SplitWords(Strip(Lower(query))))
  }

  /** Normalising keeps exactly the lowercased words of the query. */
  lemma NormalizedWords(query: string)
    ensures SplitWords(NormalizeQuery(query)) == SplitWords(Lower(query))
    ensures AllLower(NormalizeQuery(query))
  {
    var ws := SplitWords(Strip(Lower(query)));
    SplitOfStrip(Lower(query));
    SplitJoin(ws);
    LowerIsLower(query);
    SplitAllLower(Lower(query));
    JoinAllLower(" ", ws);
  }

  /** Two queries normalise alike exactly when they have the same words up to ASCII case. */
  lemma NormalizeSameWords(a: string, b: string)
    ensures NormalizeQuery(a) == NormalizeQuery(b) <==> SplitWords(Lower(a)) == SplitWords(Lower(b))
  {
    NormalizedWords(a);
    NormalizedWords(b);
    SplitOfStrip(Lower(a));
    SplitOfStrip(Lower(b));
  }

  /** Normalising twice is normalising once. */
  lemma NormalizeIdempotent(query: string)
    ensures NormalizeQuery(NormalizeQuery(query)) == NormalizeQuery(query)
  {
    var n := NormalizeQuery(query);
    NormalizedWords(query);
    AllLowerFixed(n);
    NormalizeSameWords(n, query);
  }

  /** `_generate_cache_key`. */
  function CacheKey(sha256: string -> string, query: string, userId: string, sessionId: string, docSetVersion: string): string {
    sha256(NormalizeQuery(query) + "|" + userId + "|" + sessionId + "|" + docSetVersion)
  }

  /** Queries that differ only in ASCII case or in spacing share a key. */
  lemma KeyIgnoresCaseAndSpacing(sha256: string -> string, a: string, b: string, userId: string, sessionId: string, docSetVersion: string)
    requires SplitWords(Lower(a)) == SplitWords(Lower(b))
    ensures CacheKey(sha256, a, userId, sessionId, docSetVersion) == CacheKey(sha256, b, userId, sessionId, docSetVersion)
  {
    NormalizeSameWords(a, b);
  }

  // ---------------------------------------------------------------------------
  // the two tiers

  /** The JSON document stored in L1. */
  datatype CacheData = CacheData(
    query: string, answer: string, judgeScore: real, userId: string, sessionId: string,
    metadata: map<string, Json>, cachedAt: nat)

  datatype L1Entry = L1Entry(data: CacheData, expiresAt: nat)

  /** A row of the `cache` table. */
  datatype Row = Row(
    cacheKey: string, query: string, answer: string, judgeScore: real, userId: string,
    sessionId: string, metadata: map<string, Json>, createdAt: nat, accessedAt: nat, accessCount: nat)

  /** What `get` returns: the cached document tagged with the tier it came from. */
  datatype Hit = L1Hit(data: CacheData) | L2Hit(row: Row) {
    function Answer(): string {
      match this
      case L1Hit(d) => d.answer
      case L2Hit(r) => r.answer
    }
  }

  /** The UNIQUE constraint on `cache_key`. */
  ghost predicate UniqueKeys(rows: seq<Row>) {
    forall i, j :: 0 <= i < j < |rows| ==> rows[i].cacheKey != rows[j].cacheKey
  }

  predicate Live(l1: map<string, L1Entry>, key: string, now: nat) {
    key in l1 && now < l1[key].expiresAt
  }

  /** `SELECT * FROM cache WHERE cache_key = ? LIMIT 1`: the index of the first matching row. */
  function FindRow(rows: seq<Row>, key: string): (r: Option<nat>)
    ensures r.Some? ==> r.value < |rows| && rows[r.value].cacheKey == key
    ensures r.Some? ==> forall j :: 0 <= j < r.value ==> rows[j].cacheKey != key
    ensures r.None? ==> forall j :: 0 <= j < |rows| ==> rows[j].cacheKey != key
  {
    if |rows| == 0 then None
    else if rows[0].cacheKey == key then Some(0)
    else match FindRow(rows[1..], key)
      case None => None
      case Some(i) => Some(i + 1)
  }

  /** The rows whose key differs from `key`, in order. */
  function WithoutKey(rows: seq<Row>, key: string): (r: seq<Row>)
    ensures forall j :: 0 <= j < |r| ==> r[j].cacheKey != key
    ensures forall x :: x in r <==> x in rows && x.cacheKey != key
  {
    if |rows| == 0 then []
    else if rows[0].cacheKey == key then WithoutKey(rows[1..], key)
    else [rows[0]] + WithoutKey(rows[1..], key)
  }

  /** INSERT OR REPLACE: the conflicting row is deleted and the new row is appended. */
  function Replace(rows: seq<Row>, row: Row): seq<Row> {
    WithoutKey(rows, row.cacheKey) + [row]
  }

  lemma {:induction false} WithoutKeyUnique(rows: seq<Row>, key: string)
    requires UniqueKeys(rows)
    ensures UniqueKeys(WithoutKey(rows, key))
  {
    if |rows| > 0 {
      WithoutKeyUnique(rows[1..], key);
      var rest := WithoutKey(rows[1..], key);
      forall x | x in rest ensures x.cacheKey != rows[0].cacheKey {
        var i :| 0 <= i < |rows[1..]| && rows[1..][i] == x;
        assert rows[i + 1] == x;
      }
    }
  }

  /** At most one row per key survives an INSERT OR REPLACE, and it is the new one. */
  lemma ReplaceKeepsKeysUnique(rows: seq<Row>, row: Row)
    requires UniqueKeys(rows)
    ensures UniqueKeys(Replace(rows, row))
    ensures FindRow(Replace(rows, row), row.cacheKey) == Some(|Replace(rows, row)| - 1)
  {
    WithoutKeyUnique(rows, row.cacheKey);
    var r := Replace(rows, row);
    var w := WithoutKey(rows, row.cacheKey);
    assert r[|r| - 1] == row;
    assert forall j :: 0 <= j < |r| - 1 ==> r[j] == w[j];
    var found := FindRow(r, row.cacheKey);
    assert found.Some?;
    assert found.value == |r| - 1;
  }

  /** The L2 hit's bookkeeping: `accessed_at` set to now, `access_count` incremented. */
  function Touch(rows: seq<Row>, i: nat, now: nat): (r: seq<Row>)
    requires i < |rows|
    ensures |r| == |rows|
    ensures r[i].accessCount == rows[i].accessCount + 1 && r[i].accessedAt == now
    ensures r[i] == rows[i].(accessedAt := now, accessCount := rows[i].accessCount + 1)
    ensures forall j :: 0 <= j < |rows| && j != i ==> r[j] == rows[j]
  {
    rows[i := rows[i].(accessedAt := now, accessCount := rows[i].accessCount + 1)]
  }

  lemma TouchKeepsKeysUnique(rows: seq<Row>, i: nat, now: nat)
    requires UniqueKeys(rows) && i < |rows|
    ensures UniqueKeys(Touch(rows, i, now))
  {
  }

  /** What `get` returns: L1 first when Redis is available, then L2; errors are misses. */
  function Lookup(redisAvailable: bool, l1: map<string, L1Entry>, l2: seq<Row>, key: string, now: nat,
                  l1Fault: bool, l2Fault: bool): (r: Option<Hit>)
    ensures (r.Some? && r.value.L1Hit?) <==> redisAvailable && !l1Fault && Live(l1, key, now)
    ensures r.Some? && r.value.L1Hit? ==> r.value.data == l1[key].data
    ensures r.Some? && r.value.L2Hit? ==>
      !l2Fault && r.value.row.cacheKey == key && r.value.row in l2
      && exists i :: 0 <= i < |l2| && l2[i] == r.value.row && forall j :: 0 <= j < i ==> l2[j].cacheKey != key
  {
    if redisAvailable && !l1Fault && Live(l1, key, now) then Some(L1Hit(l1[key].data))
    else if l2Fault then None
    else match FindRow(l2, key)
      case None => None
      case Some(i) => Some(L2Hit(l2[i]))
  }

  /** L1 after `set`: written with expiry now + ttl when Redis is available and the write succeeds. */
  function StoreL1(redisAvailable: bool, l1: map<string, L1Entry>, key: string, data: CacheData,
                   ttl: int, now: nat, l1Fault: bool): map<string, L1Entry>
  {
    // SETEX refuses a non-positive expiry with an error, which `set` ignores
    if redisAvailable && !l1Fault && ttl > 0 then l1[key := L1Entry(data, now + ttl)] else l1
  }

  /** `get` returns None only when both tiers miss (or fail). */
  lemma LookupNoneIffBothMiss(redisAvailable: bool, l1: map<string, L1Entry>, l2: seq<Row>, key: string, now: nat,
                              l1Fault: bool, l2Fault: bool)
    ensures Lookup(redisAvailable, l1, l2, key, now, l1Fault, l2Fault).None? <==>
      !(redisAvailable && !l1Fault && Live(l1, key, now))
      && (l2Fault || forall j :: 0 <= j < |l2| ==> l2[j].cacheKey != key)
  {
    if FindRow(l2, key).Some? {
      var i := FindRow(l2, key).value;
      assert l2[i].cacheKey == key;
    }
  }

  /**
   * `set` followed by `get` for the same key returns the answer just stored,
   * provided the L2 write succeeded and L1 holds no older live entry for the
   * key (either the L1 write succeeded, or nothing was live there).
   */
  lemma SetThenGet(redisAvailable: bool, l1: map<string, L1Entry>, l2: seq<Row>, data: CacheData, row: Row,
                   ttl: int, setTime: nat, getTime: nat, l1FaultSet: bool, l1FaultGet: bool)
    requires UniqueKeys(l2)
    requires row.answer == data.answer
    requires var l1After := StoreL1(redisAvailable, l1, row.cacheKey, data, ttl, setTime, l1FaultSet);
      !Live(l1, row.cacheKey, getTime) || l1After != l1
    ensures var hit := Lookup(redisAvailable, StoreL1(redisAvailable, l1, row.cacheKey, data, ttl, setTime, l1FaultSet),
                              Replace(l2, row), row.cacheKey, getTime, l1FaultGet, false);
      hit.Some? && hit.value.Answer() == data.answer
  {
    ReplaceKeepsKeysUnique(l2, row);
  }

  /**
   * Without that proviso the property fails: an L1 write error leaves the
   * previous answer live in L1, and `get` returns it although L2 holds the
   * new one.
   */
  lemma StaleL1WinsAfterFailedWrite(previous: CacheData, data: CacheData, row: Row)
    requires previous.answer != data.answer && row.answer == data.answer
    ensures var l1 := map[row.cacheKey := L1Entry(previous, 10)];
      var hit := Lookup(true, StoreL1(true, l1, row.cacheKey, data, 3600, 5, true), Replace([], row),
                        row.cacheKey, 6, false, false);
      hit == Some(L1Hit(previous)) && hit.value.Answer() != data.answer
  {
  }

  // ---------------------------------------------------------------------------
  // statistics

  /** The judge scores `AVG(judge_score) ... WHERE judge_score > 0` averages, in table order. */
  function PositiveScores(rows: seq<Row>): (ps: seq<real>)
    ensures |ps| <= |rows|
    ensures |ps| == 0 <==> forall i :: 0 <= i < |rows| ==> rows[i].judgeScore <= 0.0
  {
    if |rows| == 0 then []
    else
      assert forall i :: 1 <= i < |rows| ==> rows[i] == rows[1..][i - 1];
      (if rows[0].judgeScore > 0.0 then [rows[0].judgeScore] else []) + PositiveScores(rows[1..])
  }

  function Total(xs: seq<real>): real {
    if |xs| == 0 then 0.0 else xs[0] + Total(xs[1..])
  }

  /** `avg_judge_score`: SQL's AVG over the positive scores, and 0 (`or 0`) when there are none. */
  function AvgJudgeScore(rows: seq<Row>): real {
    var ps := PositiveScores(rows);
    if |ps| == 0 then 0.0 else Total(ps) / |ps| as real
  }

  /** What `get_stats` reports; the SQLite path is left out. */
  datatype CacheStats = CacheStats(totalCachedQueries: nat, avgJudgeScore: real, redisAvailable: bool)

  /** Every averaged score is positive and at most `hi` when every row's is. */
  lemma {:induction false} PositiveScoresBelow(rows: seq<Row>, hi: real)
    requires forall i :: 0 <= i < |rows| ==> rows[i].judgeScore <= hi
    ensures forall j :: 0 <= j < |PositiveScores(rows)| ==> 0.0 < PositiveScores(rows)[j] <= hi
  {
    if |rows| > 0 {
      assert forall i :: 0 <= i < |rows| - 1 ==> rows[1..][i] == rows[i + 1];
      PositiveScoresBelow(rows[1..], hi);
      if rows[0].judgeScore > 0.0 {
        assert PositiveScores(rows) == [rows[0].judgeScore] + PositiveScores(rows[1..]);
      } else {
        assert PositiveScores(rows) == PositiveScores(rows[1..]);
      }
    }
  }

  /** One more value of at most `hi` raises the bound `n * hi` by `hi`. */
  lemma AddBound(x: real, t: real, n: real, hi: real)
    requires x <= hi && t <= n * hi
    ensures x + t <= (n + 1.0) * hi
  {
  }

  /** A sum of `n` values in (0, hi] lies in (0, n * hi]. */
  lemma {:induction false} TotalBounds(xs: seq<real>, hi: real)
    requires forall j :: 0 <= j < |xs| ==> 0.0 < xs[j] <= hi
    ensures 0.0 <= Total(xs) <= |xs| as real * hi
    ensures |xs| > 0 ==> Total(xs) > 0.0
  {
    if |xs| > 0 {
      TotalBounds(xs[1..], hi);
      AddBound(xs[0], Total(xs[1..]), |xs[1..]| as real, hi);
    }
  }

  /** A mean of values in (0, hi] lies in (0, hi]. */
  lemma MeanBounds(total: real, n: real, hi: real)
    requires n >= 1.0 && 0.0 < total <= n * hi
    ensures 0.0 < total / n <= hi
  {
  }

  /**
   * The average is 0 when no row has a positive score; otherwise it is
   * positive and no larger than the largest score.
   */
  lemma AvgJudgeScoreBounds(rows: seq<Row>, hi: real)
    requires forall i :: 0 <= i < |rows| ==> rows[i].judgeScore <= hi
    ensures (forall i :: 0 <= i < |rows| ==> rows[i].judgeScore <= 0.0) <==> AvgJudgeScore(rows) == 0.0
    ensures (exists i :: 0 <= i < |rows| && rows[i].judgeScore > 0.0) ==> 0.0 < AvgJudgeScore(rows) <= hi
  {
    PositiveScoresBelow(rows, hi);
    var ps := PositiveScores(rows);
    TotalBounds(ps, hi);
    if |ps| > 0 {
      MeanBounds(Total(ps), |ps| as real, hi);
    }
  }

  // ---------------------------------------------------------------------------
  // the cache object

  class HierarchicalCache {
    const sha256: string -> string
    /** Set once by the constructor, from whether Redis answered a ping. */
    const redisAvailable: bool
    var l1: map<string, L1Entry>
    var l2: seq<Row>

    ghost predicate Valid()
      reads this
    {
      UniqueKeys(l2)
    }

    constructor (sha256: string -> string, redisAvailable: bool)
      ensures Valid()
      ensures this.sha256 == sha256 && this.redisAvailable == redisAvailable
      ensures l1 == map[] && l2 == []
    {
      this.sha256 := sha256;
      this.redisAvailable := redisAvailable;
      l1 := map[];
      l2 := [];
    }

    /**
     * `get`: L1 (when available) then L2. An L2 hit updates only that row's
     * access bookkeeping and returns the row as it was read; nothing is
     * copied into L1.
     */
    method Get(query: string, userId: string, sessionId: string, docSetVersion: string, now: nat,
               l1Fault: bool, l2Fault: bool) returns (r: Option<Hit>)
      requires Valid()
      modifies this`l2
      ensures Valid()
      ensures var key := CacheKey(sha256, query, userId, sessionId, docSetVersion);
        r == Lookup(redisAvailable, l1, old(l2), key, now, l1Fault, l2Fault)
        && (if r.Some? && r.value.L2Hit? then l2 == Touch(old(l2), FindRow(old(l2), key).value, now)
            else l2 == old(l2))
    {
      var key := CacheKey(sha256, query, userId, sessionId, docSetVersion);
      if redisAvailable && !l1Fault && Live(l1, key, now) {
        return Some(L1Hit(l1[key].data));
      }
      if l2Fault {
        return None;
      }
      var found := FindRow(l2, key);
      if found.None? {
        return None;
      }
      var i := found.value;
      r := Some(L2Hit(l2[i]));
      TouchKeepsKeysUnique(l2, i, now);
      l2 := Touch(l2, i, now);
    }

    /**
     * `set`: L1 write (errors ignored) then INSERT OR REPLACE into L2; the
     * result says whether the L2 write succeeded. A replaced row starts again
     * with access_count 0.
     */
    method Set(query: string, answer: string, judgeScore: real, userId: string, sessionId: string,
               docSetVersion: string, metadata: map<string, Json>, ttl: int, now: nat,
               l1Fault: bool, l2Fault: bool) returns (ok: bool)
      requires Valid()
      modifies this`l1, this`l2
      ensures Valid()
      ensures ok == !l2Fault
      ensures var key := CacheKey(sha256, query, userId, sessionId, docSetVersion);
        l1 == StoreL1(redisAvailable, old(l1), key,
                      CacheData(query, answer, judgeScore, userId, sessionId, metadata, now), ttl, now, l1Fault)
        && l2 == if ok then Replace(old(l2), Row(key, query, answer, judgeScore, userId, sessionId, metadata, now, now, 0))
                 else old(l2)
    {
      var key := CacheKey(sha256, query, userId, sessionId, docSetVersion);
      l1 := StoreL1(redisAvailable, l1, key,
                    CacheData(query, answer, judgeScore, userId, sessionId, metadata, now), ttl, now, l1Fault);
      if l2Fault {
        return false;
      }
      var row := Row(key, query, answer, judgeScore, userId, sessionId, metadata, now, now, 0);
      ReplaceKeepsKeysUnique(l2, row);
      l2 := Replace(l2, row);
      return true;
    }

    /** `clear`: flush L1, then delete every L2 row; an L1 error skips the L2 delete. */
    method Clear(l1Fault: bool, l2Fault: bool) returns (ok: bool)
      requires Valid()
      modifies this`l1, this`l2
      ensures Valid()
      ensures ok <==> !(redisAvailable && l1Fault) && !l2Fault
      ensures l1 == if redisAvailable && !l1Fault then map[] else old(l1)
      ensures l2 == if ok then [] else old(l2)
    {
      if redisAvailable {
        if l1Fault {
          return false;
        }
        l1 := map[];
      }
      if l2Fault {
        return false;
      }
      l2 := [];
      return true;
    }

    /** `get_stats`: the row count, the mean positive judge score and the Redis flag; `{}` (None) on a database fault. */
    method GetStats(fault: bool) returns (stats: Option<CacheStats>)
      ensures fault ==> stats.None?
      ensures !fault ==> stats == Some(CacheStats(|l2|, AvgJudgeScore(l2), redisAvailable))
    {
      if fault {
        return None;
      }
      return Some(CacheStats(|l2|, AvgJudgeScore(l2), redisAvailable));
    }
  }
}
