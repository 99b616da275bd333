/**
 * The coordinating agent: fetching quotes with exponential-backoff retries,
 * storing price snapshots, detecting opportunities and opening positions,
 * monitoring, and the adaptive polling interval.
 *
 * Randomness is an input: `fail(k)` is whether the simulated API failure
 * fires on attempt `k`, `place(j)` whether the 70% order placement happens
 * for the `j`-th new position, `factor(id)` the resolution draw. Sleeps are
 * recorded rather than performed, and the clock is the integer `now`.
 */
module Agent {
  import opened Wrappers
  import opened Numeric
  import opened Text
  import opened Models
  import opened Categorize
  import opened Ids
  import opened Solver
  import opened Matcher
  import opened OpportunityStore
  import opened Positions

  /** `self.max_retries`. */
  const DefaultRetries: int := 5
  /** `POLL_INTERVAL_SECONDS`. */
  const BasePollInterval: int := 60
  /** Positions opened per detection run, `opportunities[:10]`. */
  const MaxNewPositions: nat := 10

  // ---------------------------------------------------------------------
  // _fetch_with_retry
  // ---------------------------------------------------------------------

  /** What one call of `fetch_func` does: return a value, return None, or raise. */
  datatype Attempt<T> = Returned(value: T) | ReturnedNone | Raised(message: string)

  /** A `log_task` call, before the document is built. */
  datatype LogRequest = LogRequest(action: string, status: string, details: string, error: Option<string>)

  /** What `_fetch_with_retry` logs: a retry after waiting `wait` seconds, or the final failure after `attempts` attempts. */
  datatype FetchEvent = RetryEvent(wait: int, error: string) | FailureEvent(attempts: int, error: string)

  /** The recorded behaviour of one `_fetch_with_retry` call. */
  datatype RetryRun<T> = RetryRun(result: Option<T>, sleeps: seq<int>, logs: seq<FetchEvent>, attempts: nat, calls: nat)

  /** `max_retries or self.max_retries`: None and 0 are both falsy. */
  function EffectiveRetries(maxRetries: Option<int>): (n: int)
    ensures maxRetries.None? ==> n == DefaultRetries
    ensures maxRetries.Some? && maxRetries.value != 0 ==> n == maxRetries.value
    ensures maxRetries == Some(0) ==> n == DefaultRetries
  {
    if maxRetries.None? || maxRetries.value == 0 then DefaultRetries else maxRetries.value
  }

  /** The simulated failure is raised only before the last attempt (`attempt < max_retries - 1`). */
  predicate Injected(fail: nat -> bool, n: int, k: nat) {
    fail(k) && k < n - 1
  }

  /** What attempt `k` amounts to once the simulated failure is taken into account. */
  function Effective<T>(fetch: nat -> Attempt<T>, fail: nat -> bool, platform: string, n: int, k: nat): Attempt<T> {
    if Injected(fail, n, k) then Raised("Simulated " + platform + " API failure") else fetch(k)
  }

  /** The `log_task` call each event makes. */
  function FetchLog(platform: string, ev: FetchEvent): LogRequest {
    match ev
    case RetryEvent(wait, error) =>
      LogRequest("fetch_data", "retry", platform + " API failed, retrying in " + IntToString(wait) + "s", Some(error))
    case FailureEvent(n, error) =>
      LogRequest("fetch_data", "failure", platform + " API failed after " + IntToString(n) + " attempts", Some(error))
  }

  /**
   * The attempt loop of `_fetch_with_retry` from attempt `k` on: a value ends
   * it, None moves on without waiting, an exception before the last attempt
   * waits `delay * 2^k` and moves on, one on the last attempt ends it.
   */
  function RetryFrom<T>(fetch: nat -> Attempt<T>, fail: nat -> bool, platform: string, n: int, delay: int, k: nat): RetryRun<T>
    decreases if k < n then n - k else 0
  {
    if k >= n then RetryRun(None, [], [], 0, 0)
    else
      var called := if Injected(fail, n, k) then 0 else 1;
      match Effective(fetch, fail, platform, n, k)
      case Returned(v) => RetryRun(Some(v), [], [], 1, called)
      case ReturnedNone =>
        var rest := RetryFrom(fetch, fail, platform, n, delay, k + 1);
        rest.(attempts := rest.attempts + 1, calls := rest.calls + called)
      case Raised(e) =>
        if k < n - 1 then
          var wait := delay * Pow2(k);
          var rest := RetryFrom(fetch, fail, platform, n, delay, k + 1);
          RetryRun(rest.result, [wait] + rest.sleeps, [RetryEvent(wait, e)] + rest.logs,
                   rest.attempts + 1, rest.calls + called)
        else RetryRun(None, [], [FailureEvent(n, e)], 1, called)
  }

  /** The whole call, from attempt 0. */
  function Retry<T>(fetch: nat -> Attempt<T>, fail: nat -> bool, platform: string, n: int, delay: int): RetryRun<T> {
    RetryFrom(fetch, fail, platform, n, delay, 0)
  }

  /**
   * At most `n - k` attempts, `fetch_func` called at most once per attempt,
   * and at most one sleep per attempt but the last.
   */
  lemma {:induction false} RetryBounds<T>(fetch: nat -> Attempt<T>, fail: nat -> bool, platform: string, n: int, delay: int, k: nat)
    requires k <= n
    ensures var r := RetryFrom(fetch, fail, platform, n, delay, k);
      r.calls <= r.attempts <= n - k && (k < n ==> |r.sleeps| <= n - k - 1) && (k == n ==> r.sleeps == [])
    decreases n - k
  {
    if k < n {
      RetryBounds(fetch, fail, platform, n, delay, k + 1);
    }
  }

  /** The step of the attempt loop on an exception before the last attempt. */
  lemma RetryRaisedStep<T>(fetch: nat -> Attempt<T>, fail: nat -> bool, platform: string, n: int, delay: int, k: nat)
    requires k < n - 1 && Effective(fetch, fail, platform, n, k).Raised?
    ensures var r := RetryFrom(fetch, fail, platform, n, delay, k);
      var rest := RetryFrom(fetch, fail, platform, n, delay, k + 1);
      r.result == rest.result && r.sleeps == [delay * Pow2(k)] + rest.sleeps &&
      r.logs == [RetryEvent(delay * Pow2(k), Effective(fetch, fail, platform, n, k).message)] + rest.logs
  {
  }

  /** An exception on the last attempt ends the call with None and one failure log. */
  lemma RetryLastRaised<T>(fetch: nat -> Attempt<T>, fail: nat -> bool, platform: string, n: int, delay: int, k: nat)
    requires k == n - 1 && Effective(fetch, fail, platform, n, k).Raised?
    ensures var r := RetryFrom(fetch, fail, platform, n, delay, k);
      r.result.None? && r.sleeps == [] && r.logs == [FailureEvent(n, Effective(fetch, fail, platform, n, k).message)]
  {
  }

  /** The step of the attempt loop on a None result. */
  lemma RetryNoneStep<T>(fetch: nat -> Attempt<T>, fail: nat -> bool, platform: string, n: int, delay: int, k: nat)
    requires k < n && Effective(fetch, fail, platform, n, k).ReturnedNone?
    ensures var r := RetryFrom(fetch, fail, platform, n, delay, k);
      var rest := RetryFrom(fetch, fail, platform, n, delay, k + 1);
      r.result == rest.result && r.sleeps == rest.sleeps && r.logs == rest.logs
  {
  }

  /** `w` is the backoff wait `delay * 2^a` of an attempt `a` with `lo <= a < hi`. */
  ghost predicate IsBackoff(w: int, delay: int, lo: int, hi: int) {
    exists a: nat :: lo <= a < hi && w == delay * Pow2(a)
  }

  /** `s` is a run of backoff waits, the `j`-th from attempt `lo + j` or later. */
  ghost predicate BackedOff(s: seq<int>, delay: int, lo: int, hi: int) {
    forall j :: 0 <= j < |s| ==> IsBackoff(s[j], delay, lo + j, hi)
  }

  lemma IsBackoffWeaken(w: int, delay: int, lo: int, hi: int)
    requires IsBackoff(w, delay, lo + 1, hi)
    ensures IsBackoff(w, delay, lo, hi)
  {
    var a: nat :| lo + 1 <= a < hi && w == delay * Pow2(a);
    assert lo <= a < hi;
  }

  lemma BackedOffCons(s: seq<int>, delay: int, k: nat, hi: int)
    requires BackedOff(s, delay, k + 1, hi) && k < hi
    ensures BackedOff([delay * Pow2(k)] + s, delay, k, hi)
  {
    var t := [delay * Pow2(k)] + s;
    forall j | 0 <= j < |t| ensures IsBackoff(t[j], delay, k + j, hi) {
      if j == 0 {
        assert k <= k < hi && t[0] == delay * Pow2(k);
      } else {
        assert t[j] == s[j - 1];
        assert IsBackoff(s[j - 1], delay, k + 1 + (j - 1), hi);
      }
    }
  }

  lemma BackedOffWeaken(s: seq<int>, delay: int, k: nat, hi: int)
    requires BackedOff(s, delay, k + 1, hi)
    ensures BackedOff(s, delay, k, hi)
  {
    forall j | 0 <= j < |s| ensures IsBackoff(s[j], delay, k + j, hi) {
      assert IsBackoff(s[j], delay, k + 1 + j, hi);
      IsBackoffWeaken(s[j], delay, k + j, hi);
    }
  }

  /**
   * Every sleep is `delay * 2^a` for one of the attempts `a` before the last,
   * and the `j`-th sleep comes from attempt `k + j` or later.
   */
  lemma {:induction false} RetrySleepsBackOff<T>(fetch: nat -> Attempt<T>, fail: nat -> bool, platform: string, n: int, delay: int, k: nat)
    ensures BackedOff(RetryFrom(fetch, fail, platform, n, delay, k).sleeps, delay, k, n - 1)
    decreases if k < n then n - k else 0
  {
    if k < n {
      RetrySleepsBackOff(fetch, fail, platform, n, delay, k + 1);
      var rest := RetryFrom(fetch, fail, platform, n, delay, k + 1);
      var eff := Effective(fetch, fail, platform, n, k);
      if eff.Raised? && k < n - 1 {
        RetryRaisedStep(fetch, fail, platform, n, delay, k);
        BackedOffCons(rest.sleeps, delay, k, n - 1);
      } else if eff.ReturnedNone? {
        RetryNoneStep(fetch, fail, platform, n, delay, k);
        BackedOffWeaken(rest.sleeps, delay, k, n - 1);
      }
    }
  }

  /**
   * When every attempt fails, the call returns None after `n - k` logged
   * failures and `n - k - 1` sleeps: `n - k - 1` retry entries, then one
   * final failure entry.
   */
  lemma {:induction false} RetryAllFail<T>(fetch: nat -> Attempt<T>, fail: nat -> bool, platform: string, n: int, delay: int, k: nat)
    requires k < n
    requires forall a: nat :: k <= a < n ==> fetch(a).Raised?
    ensures var r := RetryFrom(fetch, fail, platform, n, delay, k);
      r.result.None? && |r.sleeps| == n - k - 1 && |r.logs| == n - k &&
      (forall j :: 0 <= j < |r.logs| ==> (r.logs[j].RetryEvent? <==> j < n - k - 1)) &&
      r.logs[n - k - 1].FailureEvent? && r.logs[n - k - 1].attempts == n
    decreases n - k
  {
    assert Effective(fetch, fail, platform, n, k).Raised?;
    if k == n - 1 {
      RetryLastRaised(fetch, fail, platform, n, delay, k);
    } else {
      RetryAllFail(fetch, fail, platform, n, delay, k + 1);
      RetryRaisedStep(fetch, fail, platform, n, delay, k);
      var logs := RetryFrom(fetch, fail, platform, n, delay, k).logs;
      var rest := RetryFrom(fetch, fail, platform, n, delay, k + 1).logs;
      forall j | 0 <= j < |logs| ensures logs[j].RetryEvent? <==> j < n - k - 1 {
        if j > 0 {
          assert logs[j] == rest[j - 1];
        }
      }
      assert logs[n - k - 1] == rest[n - (k + 1) - 1];
    }
  }

  /** When every attempt fails, the sleeps are exactly `delay * 2^k, ..., delay * 2^(n-2)`. */
  lemma {:induction false} RetryAllFailWaits<T>(fetch: nat -> Attempt<T>, fail: nat -> bool, platform: string, n: int, delay: int, k: nat)
    requires k < n
    requires forall a: nat :: k <= a < n ==> fetch(a).Raised?
    ensures var s := RetryFrom(fetch, fail, platform, n, delay, k).sleeps;
      forall j :: 0 <= j < |s| ==> s[j] == delay * Pow2(k + j)
    decreases n - k
  {
    assert Effective(fetch, fail, platform, n, k).Raised?;
    if k == n - 1 {
      RetryLastRaised(fetch, fail, platform, n, delay, k);
    } else {
      RetryAllFailWaits(fetch, fail, platform, n, delay, k + 1);
      RetryRaisedStep(fetch, fail, platform, n, delay, k);
      var s := RetryFrom(fetch, fail, platform, n, delay, k).sleeps;
      var rest := RetryFrom(fetch, fail, platform, n, delay, k + 1).sleeps;
      forall j | 0 <= j < |s| ensures s[j] == delay * Pow2(k + j) {
        if j > 0 {
          assert s[j] == rest[j - 1];
          assert rest[j - 1] == delay * Pow2(k + 1 + (j - 1));
          assert k + 1 + (j - 1) == k + j;
        } else {
          assert k + j == k;
        }
      }
    }
  }

  /** With the defaults (five attempts, delay 1) a call whose every attempt fails sleeps 1, 2, 4 and 8 seconds. */
  lemma DefaultBackoff<T>(fetch: nat -> Attempt<T>, fail: nat -> bool, platform: string)
    requires forall a: nat :: a < 5 ==> fetch(a).Raised?
    ensures Retry(fetch, fail, platform, EffectiveRetries(None), 1).sleeps == [1, 2, 4, 8]
  {
    RetryAllFail(fetch, fail, platform, 5, 1, 0);
    RetryAllFailWaits(fetch, fail, platform, 5, 1, 0);
    var s := Retry(fetch, fail, platform, 5, 1).sleeps;
    assert s[0] == Pow2(0) && s[1] == Pow2(1) && s[2] == Pow2(2) && s[3] == Pow2(3);
  }

  /**
   * The result is the value of the first attempt that returns one, and None
   * exactly when no attempt returns one.
   */
  lemma {:induction false} RetryResult<T>(fetch: nat -> Attempt<T>, fail: nat -> bool, platform: string, n: int, delay: int, k: nat)
    ensures var r := RetryFrom(fetch, fail, platform, n, delay, k);
      (r.result.None? <==> forall a: nat :: k <= a < n ==> !Effective(fetch, fail, platform, n, a).Returned?) &&
      (r.result.Some? ==> exists a: nat :: k <= a < n && Effective(fetch, fail, platform, n, a) == Returned(r.result.value) &&
                                          forall b: nat :: k <= b < a ==> !Effective(fetch, fail, platform, n, b).Returned?)
    decreases if k < n then n - k else 0
  {
    if k < n {
      RetryResult(fetch, fail, platform, n, delay, k + 1);
      var r := RetryFrom(fetch, fail, platform, n, delay, k);
      var eff := Effective(fetch, fail, platform, n, k);
      if eff.Returned? {
        assert r.result == Some(eff.value);
      } else if eff.Raised? && k == n - 1 {
        assert r.result.None?;
        forall a: nat | k <= a < n ensures !Effective(fetch, fail, platform, n, a).Returned? {
          assert a == k;
        }
      } else {
        assert r.result == RetryFrom(fetch, fail, platform, n, delay, k + 1).result;
      }
    }
  }

  /** The last attempt is never a simulated failure: if `fetch_func` succeeds there, the call succeeds. */
  lemma LastAttemptNotInjected<T>(fetch: nat -> Attempt<T>, fail: nat -> bool, platform: string, n: int, delay: int)
    requires n >= 1 && fetch(n - 1).Returned?
    ensures Effective(fetch, fail, platform, n, n - 1) == fetch(n - 1)
    ensures Retry(fetch, fail, platform, n, delay).result.Some?
  {
    RetryResult(fetch, fail, platform, n, delay, 0);
    assert Effective(fetch, fail, platform, n, n - 1).Returned?;
  }

  /** A log request turned into task-log entries, two uuid draws each. */
  function Entries(reqs: seq<LogRequest>, gen: nat -> string, base: nat, now: int): (es: seq<TaskLogDoc>)
    ensures |es| == |reqs|
    decreases |reqs|
  {
    if reqs == [] then []
    else
      var q := reqs[0];
      [LogEntry(q.action, q.status, q.details, q.error, gen, base, now)] + Entries(reqs[1..], gen, base + 2, now)
  }

  /** Entry `i` of a run of log requests is request `i` with draws `base + 2 * i` and `base + 2 * i + 1`. */
  lemma {:induction false} EntriesAt(reqs: seq<LogRequest>, gen: nat -> string, base: nat, now: int, i: nat)
    requires i < |reqs|
    ensures Entries(reqs, gen, base, now)[i]
         == LogEntry(reqs[i].action, reqs[i].status, reqs[i].details, reqs[i].error, gen, base + 2 * i, now)
    decreases i
  {
    if i > 0 {
      EntriesAt(reqs[1..], gen, base + 2, now, i - 1);
    }
  }

  lemma {:induction false} EntriesAppend(reqs: seq<LogRequest>, more: seq<LogRequest>, gen: nat -> string, base: nat, now: int)
    ensures Entries(reqs + more, gen, base, now)
         == Entries(reqs, gen, base, now) + Entries(more, gen, base + 2 * |reqs|, now)
    decreases |reqs|
  {
    if reqs == [] {
      assert reqs + more == more;
    } else {
      assert (reqs + more)[1..] == reqs[1..] + more;
      EntriesAppend(reqs[1..], more, gen, base + 2, now);
    }
  }

  // ---------------------------------------------------------------------
  // store_market_prices
  // ---------------------------------------------------------------------

  /** The documents `store_market_prices` builds: a yes and a no document per record, in input order. */
  function PriceDocs(prices: seq<Quote>, platform: string, now: int): (docs: seq<MarketPriceDoc>)
    ensures |docs| == 2 * |prices|
    ensures forall i :: 0 <= i < |prices| ==>
      docs[2 * i] == CreateMarketPriceDoc(prices[i].marketId, platform, prices[i].eventName, Yes, prices[i].yesPrice, now) &&
      docs[2 * i + 1] == CreateMarketPriceDoc(prices[i].marketId, platform, prices[i].eventName, No, prices[i].noPrice, now)
  {
    if prices == [] then []
    else
      var q := prices[|prices| - 1];
      var init := PriceDocs(prices[..|prices| - 1], platform, now);
      init + [CreateMarketPriceDoc(q.marketId, platform, q.eventName, Yes, q.yesPrice, now),
              CreateMarketPriceDoc(q.marketId, platform, q.eventName, No, q.noPrice, now)]
  }

  /** `PriceDocs` under a non-recursive name, for contracts. */
  function Snapshots(prices: seq<Quote>, platform: string, now: int): seq<MarketPriceDoc> {
    PriceDocs(prices, platform, now)
  }

  /** The document-building loop of `store_market_prices`. */
  method PriceDocuments(prices: seq<Quote>, platform: string, now: int) returns (docs: seq<MarketPriceDoc>)
    ensures docs == Snapshots(prices, platform, now)
  {
    docs := [];
    for i := 0 to |prices|
      invariant docs == PriceDocs(prices[..i], platform, now)
    {
      var p := prices[i];
      var yesDoc := CreateMarketPriceDoc(p.marketId, platform, p.eventName, Yes, p.yesPrice, now);
      docs := docs + [yesDoc];
      var noDoc := CreateMarketPriceDoc(p.marketId, platform, p.eventName, No, p.noPrice, now);
      docs := docs + [noDoc];
      assert prices[..i + 1][..i] == prices[..i];
    }
    assert prices[..|prices|] == prices;
  }

  /** The keys of the first documents of a batch. */
  function KeysOf(docs: seq<MarketPriceDoc>): set<string> {
    set i | 0 <= i < |docs| :: docs[i].key
  }

  /** The `i`-th document of the batch hits the unique index: its key is stored already or earlier in the batch. */
  predicate CollidesAt(stored: map<string, MarketPriceDoc>, docs: seq<MarketPriceDoc>, i: nat)
    requires i < |docs|
  {
    docs[i].key in stored || exists j :: 0 <= j < i && docs[j].key == docs[i].key
  }

  /** Some document of the batch hits the unique index. */
  predicate Collision(stored: map<string, MarketPriceDoc>, docs: seq<MarketPriceDoc>) {
    exists i :: 0 <= i < |docs| && CollidesAt(stored, docs, i)
  }

  /**
   * `insert_many(docs, ordered=False)`: every document whose key is free is
   * inserted, the rest are rejected; nothing stored is overwritten.
   */
  function InsertUnordered(stored: map<string, MarketPriceDoc>, docs: seq<MarketPriceDoc>): (r: map<string, MarketPriceDoc>)
    ensures r.Keys == stored.Keys + KeysOf(docs)
    ensures forall k :: k in stored ==> k in r && r[k] == stored[k]
  {
    if docs == [] then stored
    else
      var d := docs[|docs| - 1];
      var init := InsertUnordered(stored, docs[..|docs| - 1]);
      assert KeysOf(docs) == KeysOf(docs[..|docs| - 1]) + {d.key} by {
        assert docs == docs[..|docs| - 1] + [d];
        forall x | x in KeysOf(docs) ensures x in KeysOf(docs[..|docs| - 1]) + {d.key} {
          var i :| 0 <= i < |docs| && docs[i].key == x;
          if i < |docs| - 1 { assert docs[..|docs| - 1][i] == docs[i]; }
        }
        forall x | x in KeysOf(docs[..|docs| - 1]) ensures x in KeysOf(docs) {
          var i :| 0 <= i < |docs| - 1 && docs[..|docs| - 1][i].key == x;
          assert docs[i].key == x;
        }
      }
      if d.key in init then init else init[d.key := d]
  }

  lemma CollidesAtPrefix(stored: map<string, MarketPriceDoc>, docs: seq<MarketPriceDoc>, d: MarketPriceDoc, i: nat)
    requires i < |docs|
    ensures CollidesAt(stored, docs + [d], i) <==> CollidesAt(stored, docs, i)
  {
    var all := docs + [d];
    assert all[i] == docs[i];
    assert forall j :: 0 <= j < i ==> all[j] == docs[j];
  }

  lemma CollidesAtLast(stored: map<string, MarketPriceDoc>, docs: seq<MarketPriceDoc>, d: MarketPriceDoc)
    ensures CollidesAt(stored, docs + [d], |docs|) <==> d.key in InsertUnordered(stored, docs)
  {
    var all := docs + [d];
    assert all[|docs|] == d;
    assert forall j :: 0 <= j < |docs| ==> all[j] == docs[j];
    if d.key in InsertUnordered(stored, docs) && d.key !in stored {
      assert d.key in KeysOf(docs);
      var j :| 0 <= j < |docs| && docs[j].key == d.key;
      assert all[j].key == all[|docs|].key;
    }
  }

  lemma CollisionSnoc(stored: map<string, MarketPriceDoc>, docs: seq<MarketPriceDoc>, d: MarketPriceDoc)
    ensures Collision(stored, docs + [d]) <==> Collision(stored, docs) || d.key in InsertUnordered(stored, docs)
  {
    CollidesAtLast(stored, docs, d);
    if Collision(stored, docs) {
      var i :| 0 <= i < |docs| && CollidesAt(stored, docs, i);
      CollidesAtPrefix(stored, docs, d, i);
    }
    if Collision(stored, docs + [d]) {
      var i :| 0 <= i < |docs + [d]| && CollidesAt(stored, docs + [d], i);
      if i < |docs| {
        CollidesAtPrefix(stored, docs, d, i);
      }
    }
  }

  /** Without a collision every document of the batch is stored under its own key. */
  lemma {:induction false} InsertWithoutCollision(stored: map<string, MarketPriceDoc>, docs: seq<MarketPriceDoc>)
    requires !Collision(stored, docs)
    ensures var r := InsertUnordered(stored, docs);
      |r| == |stored| + |docs| && forall i :: 0 <= i < |docs| ==> docs[i].key in r && r[docs[i].key] == docs[i]
  {
    if docs != [] {
      var init := docs[..|docs| - 1];
      var d := docs[|docs| - 1];
      assert docs == init + [d];
      CollisionSnoc(stored, init, d);
      InsertWithoutCollision(stored, init);
      var m := InsertUnordered(stored, init);
      var r := InsertUnordered(stored, docs);
      assert r == m[d.key := d];
      forall i | 0 <= i < |docs| ensures docs[i].key in r && r[docs[i].key] == docs[i] {
        if i < |docs| - 1 {
          assert init[i] == docs[i];
          assert docs[i].key != d.key;
        }
      }
    }
  }

  lemma CancelOuter(a: string, b: string, x: string, c: string)
    requires a + b + c == a + x + c
    ensures b == x
  {
    assert |b| == |x|;
    forall i | 0 <= i < |b| ensures b[i] == x[i] {
      assert (a + b + c)[|a| + i] == b[i];
      assert (a + x + c)[|a| + i] == x[i];
    }
  }

  lemma CancelSuffix(b: string, x: string, c: string)
    requires b + c == x + c
    ensures b == x
  {
    assert |b| == |x|;
    forall i | 0 <= i < |b| ensures b[i] == x[i] {
      assert (b + c)[i] == b[i];
      assert (x + c)[i] == x[i];
    }
  }

  /** The key with its fixed platform prefix and second suffix split off. */
  lemma PriceKeyShape(platform: string, m: string, o: Outcome, second: int)
    ensures PriceKey(platform, m, o, second) == (platform + "_") + (m + "_" + o.Name()) + ("_" + IntToString(second))
  {
  }

  /** A price key determines its market and outcome, for one platform and one second. */
  lemma PriceKeyInjective(platform: string, m1: string, o1: Outcome, m2: string, o2: Outcome, second: int)
    requires PriceKey(platform, m1, o1, second) == PriceKey(platform, m2, o2, second)
    ensures m1 == m2 && o1 == o2
  {
    var mid1 := m1 + "_" + o1.Name();
    var mid2 := m2 + "_" + o2.Name();
    PriceKeyShape(platform, m1, o1, second);
    PriceKeyShape(platform, m2, o2, second);
    CancelOuter(platform + "_", mid1, mid2, "_" + IntToString(second));
    assert mid1[|mid1| - 1] == (if o1 == Yes then 's' else 'o');
    assert mid2[|mid2| - 1] == (if o2 == Yes then 's' else 'o');
    assert o1 == o2;
    assert mid1 == m1 + ("_" + o1.Name()) && mid2 == m2 + ("_" + o1.Name());
    CancelSuffix(m1, m2, "_" + o1.Name());
  }

  /** The key of the `i`-th document of a batch. */
  lemma PriceDocKey(prices: seq<Quote>, platform: string, now: int, i: nat)
    requires i < 2 * |prices|
    ensures PriceDocs(prices, platform, now)[i].key
         == PriceKey(platform, prices[i / 2].marketId, if i % 2 == 0 then Yes else No, now)
  {
    var a := i / 2;
    assert i == 2 * a || i == 2 * a + 1;
  }

  /** Records with distinct market ids, none stored yet in this second, never collide. */
  lemma DistinctMarketsDoNotCollide(stored: map<string, MarketPriceDoc>, prices: seq<Quote>, platform: string, now: int)
    requires forall i, j :: 0 <= i < j < |prices| ==> prices[i].marketId != prices[j].marketId
    requires forall i :: 0 <= i < |prices| ==>
      PriceKey(platform, prices[i].marketId, Yes, now) !in stored && PriceKey(platform, prices[i].marketId, No, now) !in stored
    ensures !Collision(stored, PriceDocs(prices, platform, now))
  {
    var docs := PriceDocs(prices, platform, now);
    forall i | 0 <= i < |docs| ensures docs[i].key !in stored && forall j :: 0 <= j < i ==> docs[j].key != docs[i].key {
      PriceDocKey(prices, platform, now, i);
      forall j | 0 <= j < i ensures docs[j].key != docs[i].key {
        PriceDocKey(prices, platform, now, j);
        if docs[j].key == docs[i].key {
          PriceKeyInjective(platform, prices[i / 2].marketId, if i % 2 == 0 then Yes else No,
                            prices[j / 2].marketId, if j % 2 == 0 then Yes else No, now);
        }
      }
    }
  }

  // ---------------------------------------------------------------------
  // get_adaptive_poll_interval and the loop sleep
  // ---------------------------------------------------------------------

  /** The highest `success_rate` among the categories listed in `types`, 0 when none has a document. */
  function BestRateOver(perf: map<MarketType, PerformanceDoc>, types: seq<MarketType>): (b: real)
    ensures forall i :: 0 <= i < |types| && types[i] in perf ==> perf[types[i]].successRate <= b
    ensures (exists i :: 0 <= i < |types| && types[i] in perf) ==>
      exists i :: 0 <= i < |types| && types[i] in perf && perf[types[i]].successRate == b
  {
    if types == [] then 0.0
    else
      var init := BestRateOver(perf, types[..|types| - 1]);
      var t := types[|types| - 1];
      var seenBefore := exists i :: 0 <= i < |types| - 1 && types[i] in perf;
      assert forall i :: 0 <= i < |types| - 1 ==> types[..|types| - 1][i] == types[i];
      if t !in perf then init
      else if !seenBefore || perf[t].successRate > init then perf[t].successRate
      else init
  }

  /** `max(performance, key=success_rate)["success_rate"]` over the stored documents. */
  function BestRate(perf: map<MarketType, PerformanceDoc>): (b: real)
    requires |perf| > 0
    ensures forall mt :: mt in perf ==> perf[mt].successRate <= b
    ensures exists mt :: mt in perf && perf[mt].successRate == b
  {
    var b := BestRateOver(perf, AllTypes);
    var mt :| mt in perf;
    AllTypesComplete(mt);
    var i :| 0 <= i < |AllTypes| && AllTypes[i] == mt;
    forall t | t in perf ensures perf[t].successRate <= b {
      AllTypesComplete(t);
      var j :| 0 <= j < |AllTypes| && AllTypes[j] == t;
    }
    b
  }

  /** The three-way threshold on the best success rate. */
  function IntervalFor(best: real, base: int): int {
    if best > 50.0 then Max(30, base / 2)
    else if best > 30.0 then base
    else base * 2
  }

  function Max(a: int, b: int): int {
    if a >= b then a else b
  }

  /** `get_adaptive_poll_interval`: the base interval when no category has data yet. */
  function AdaptivePollInterval(perf: map<MarketType, PerformanceDoc>, base: int): int {
    if |perf| == 0 then base else IntervalFor(BestRate(perf), base)
  }

  /** A better best rate never lengthens the interval, for any base of at least 30 seconds. */
  lemma IntervalNonIncreasing(r1: real, r2: real, base: int)
    requires r1 <= r2 && base >= 30
    ensures IntervalFor(r2, base) <= IntervalFor(r1, base)
  {
  }

  /** With the configured 60-second base the interval is 30, 60 or 120 seconds, by the thresholds 50 and 30. */
  lemma DefaultIntervals(perf: map<MarketType, PerformanceDoc>)
    ensures var p := AdaptivePollInterval(perf, BasePollInterval);
      (|perf| == 0 ==> p == 60) &&
      (|perf| > 0 ==> (p == 30 <==> BestRate(perf) > 50.0) && (p == 120 <==> BestRate(perf) <= 30.0)) &&
      (p == 30 || p == 60 || p == 120)
  {
  }

  /** A base below 30 seconds breaks monotonicity: the best-performing case then waits longer than the middle one. */
  lemma SmallBaseNotMonotone()
    ensures IntervalFor(60.0, 20) > IntervalFor(40.0, 20)
  {
  }

  /** `max(0, poll_interval - elapsed)`. */
  function SleepTime(pollInterval: int, elapsed: real): (s: real)
    ensures s >= 0.0
    ensures s == 0.0 <==> elapsed >= pollInterval as real
    ensures elapsed < pollInterval as real ==> elapsed + s == pollInterval as real
  {
    if pollInterval as real - elapsed > 0.0 then pollInterval as real - elapsed else 0.0
  }

  // ---------------------------------------------------------------------
  // Logging helpers shared by the agent's steps
  // ---------------------------------------------------------------------

  /** What a run of `log_task` calls adds to the task log: nothing when inserts fail. */
  function Logged(writable: bool, reqs: seq<LogRequest>, gen: nat -> string, base: nat, now: int): (es: seq<TaskLogDoc>)
    ensures |es| == if writable then |reqs| else 0
  {
    if writable then Entries(reqs, gen, base, now) else []
  }

  /** The entry `_resume_from_state` logs on every start. */
  const RecoverRequest: LogRequest := LogRequest("recover", "success", "Agent restarting - resuming from MongoDB state", None)

  /** The `log_task` calls one `_fetch_with_retry` call makes. */
  function FetchLogs(platform: string, evs: seq<FetchEvent>): (reqs: seq<LogRequest>)
    ensures |reqs| == |evs|
    decreases |evs|
  {
    if evs == [] then [] else [FetchLog(platform, evs[0])] + FetchLogs(platform, evs[1..])
  }

  /**
   * What the `log_task` calls of `_fetch_with_retry` for `evs` add to the task
   * log. Contracts name this non-recursive form.
   */
  function FetchLogged(writable: bool, platform: string, evs: seq<FetchEvent>, gen: nat -> string, base: nat, now: int): (es: seq<TaskLogDoc>)
    ensures |es| == if writable then |evs| else 0
  {
    Logged(writable, FetchLogs(platform, evs), gen, base, now)
  }

  /** Logging `more` events after `evs` extends the log by their entries. */
  lemma FetchLoggedStep(writable: bool, platform: string, evs: seq<FetchEvent>, more: seq<FetchEvent>, gen: nat -> string,
                        base: nat, now: int, log0: seq<TaskLogDoc>, log1: seq<TaskLogDoc>, log2: seq<TaskLogDoc>)
    requires log1 == log0 + FetchLogged(writable, platform, evs, gen, base, now)
    requires log2 == log1 + FetchLogged(writable, platform, more, gen, base + 2 * |evs|, now)
    ensures log2 == log0 + FetchLogged(writable, platform, evs + more, gen, base, now)
  {
    FetchLogsAppend(platform, evs, more);
    LoggedAppend(writable, FetchLogs(platform, evs), FetchLogs(platform, more), gen, base, now);
    AppendAssoc(log0, FetchLogged(writable, platform, evs, gen, base, now), FetchLogged(writable, platform, more, gen, base + 2 * |evs|, now));
  }

  lemma LoggedAppend(writable: bool, reqs: seq<LogRequest>, more: seq<LogRequest>, gen: nat -> string, base: nat, now: int)
    ensures Logged(writable, reqs + more, gen, base, now)
         == Logged(writable, reqs, gen, base, now) + Logged(writable, more, gen, base + 2 * |reqs|, now)
  {
    EntriesAppend(reqs, more, gen, base, now);
  }

  lemma AppendAssoc<X>(a: seq<X>, b: seq<X>, c: seq<X>)
    ensures (a + b) + c == a + (b + c)
  {
  }

  /** A prefix of a prefix is a prefix. */
  lemma PrefixTrans<X>(c: seq<X>, b: seq<X>, a: seq<X>)
    requires |b| <= |c| && c[..|b|] == b && |a| <= |b| && b[..|a|] == a
    ensures c[..|a|] == a
  {
    assert c[..|a|] == c[..|b|][..|a|];
  }

  lemma {:induction false} FetchLogsAppend(platform: string, evs: seq<FetchEvent>, more: seq<FetchEvent>)
    ensures FetchLogs(platform, evs + more) == FetchLogs(platform, evs) + FetchLogs(platform, more)
    decreases |evs|
  {
    if evs == [] {
      assert evs + more == more;
    } else {
      assert (evs + more)[1..] == evs[1..] + more;
      FetchLogsAppend(platform, evs[1..], more);
    }
  }

  /** One event makes one `log_task` call. */
  lemma OneFetchLogged(writable: bool, platform: string, ev: FetchEvent, gen: nat -> string, base: nat, now: int)
    ensures var q := FetchLog(platform, ev);
      FetchLogged(writable, platform, [ev], gen, base, now)
        == if writable then [LogEntry(q.action, q.status, q.details, q.error, gen, base, now)] else []
  {
    assert FetchLogs(platform, [ev]) == [FetchLog(platform, ev)];
  }

  /** What one attempt logs: an exception is logged as a retry, or, on the last attempt, as the failure. */
  function AttemptEvents<T>(eff: Attempt<T>, n: int, delay: int, k: nat): (evs: seq<FetchEvent>)
    ensures |evs| == if eff.Raised? then 1 else 0
  {
    match eff
    case Raised(e) => [if k < n - 1 then RetryEvent(delay * Pow2(k), e) else FailureEvent(n, e)]
    case _ => []
  }

  /** What one attempt sleeps: only an exception before the last attempt waits. */
  function AttemptWaits<T>(eff: Attempt<T>, n: int, delay: int, k: nat): seq<int> {
    if eff.Raised? && k < n - 1 then [delay * Pow2(k)] else []
  }

  /** The loop of `_fetch_with_retry` before attempt `k`: what is left to do is `RetryFrom` at `k`. */
  /** The bookkeeping of `_fetch_with_retry` once its attempts are over, restated for the whole run. */
  lemma RetryFinished<T>(run: RetryRun<T>, result: Option<T>, writable: bool, platform: string, gen: nat -> string, now: int,
                         waits0: seq<int>, waits: seq<int>, evs: seq<FetchEvent>, base: nat, drawn: nat,
                         log0: seq<TaskLogDoc>, log: seq<TaskLogDoc>)
    requires run.result == result && waits0 + run.sleeps == waits && run.logs == evs
    requires drawn == base + 2 * |evs| && log == log0 + FetchLogged(writable, platform, evs, gen, base, now)
    ensures result == run.result && waits == waits0 + run.sleeps && drawn == base + 2 * |run.logs|
    ensures log == log0 + FetchLogged(writable, platform, run.logs, gen, base, now)
  {
  }

  ghost predicate RetryProgress<T>(fetch: nat -> Attempt<T>, fail: nat -> bool, platform: string, n: int, k: nat,
                                   run: RetryRun<T>, waits0: seq<int>, waits: seq<int>, evs: seq<FetchEvent>) {
    var rest := RetryFrom(fetch, fail, platform, n, 1, k);
    run.result == rest.result && waits0 + run.sleeps == waits + rest.sleeps && run.logs == evs + rest.logs
  }

  lemma RetryStep<T>(fetch: nat -> Attempt<T>, fail: nat -> bool, platform: string, n: int, k: nat,
                     run: RetryRun<T>, waits0: seq<int>, waits: seq<int>, evs: seq<FetchEvent>)
    requires k < n && RetryProgress(fetch, fail, platform, n, k, run, waits0, waits, evs)
    ensures var eff := Effective(fetch, fail, platform, n, k);
      var w := waits + AttemptWaits(eff, n, 1, k);
      var e := evs + AttemptEvents(eff, n, 1, k);
      (eff.Returned? ==> run.result == Some(eff.value) && waits0 + run.sleeps == w && run.logs == e) &&
      (eff.Raised? && k == n - 1 ==> run.result == None && waits0 + run.sleeps == w && run.logs == e) &&
      (eff.ReturnedNone? || (eff.Raised? && k < n - 1) ==> RetryProgress(fetch, fail, platform, n, k + 1, run, waits0, w, e))
  {
    var eff := Effective(fetch, fail, platform, n, k);
    var rest := RetryFrom(fetch, fail, platform, n, 1, k);
    var next := RetryFrom(fetch, fail, platform, n, 1, k + 1);
    match eff
    case Returned(v) =>
    case ReturnedNone =>
    case Raised(e) =>
      if k < n - 1 {
        assert rest.sleeps == [Pow2(k)] + next.sleeps;
        assert waits + rest.sleeps == (waits + [Pow2(k)]) + next.sleeps;
        assert evs + rest.logs == (evs + [RetryEvent(Pow2(k), e)]) + next.logs;
      }
  }

  /** The entry `store_market_prices` logs after a clean insert of `count` documents. */
  function StoredRequest(count: nat, platform: string): LogRequest {
    LogRequest("store_prices", "success", "Stored " + NatToString(count) + " prices from " + platform, None)
  }

  /** How many documents `store_market_prices` reports: none for an empty batch or a duplicate key, else all. */
  function StoredCount(stored: map<string, MarketPriceDoc>, docs: seq<MarketPriceDoc>): nat {
    if docs == [] || Collision(stored, docs) then 0 else |docs|
  }

  /** What `store_market_prices` logs after storing `count` documents. */
  function StoreLogs(count: nat, platform: string): seq<LogRequest> {
    if count > 0 then [StoredRequest(count, platform)] else []
  }

  // ---------------------------------------------------------------------
  // fetch_and_store_prices
  // ---------------------------------------------------------------------

  const FetchStart: LogRequest := LogRequest("fetch_prices", "start", "Beginning price fetch cycle", None)

  /** `max_retries` left at its default. */
  function DefaultRetry<T>(fetch: nat -> Attempt<T>, fail: nat -> bool, platform: string): RetryRun<T> {
    Retry(fetch, fail, platform, EffectiveRetries(None), 1)
  }

  /** The quotes one platform yields to the cycle: the fetched list, or `[]` when the fetch gave up. */
  function Fetched(fetch: nat -> Attempt<seq<Quote>>, fail: nat -> bool, platform: string): seq<Quote> {
    DefaultRetry(fetch, fail, platform).result.GetOr([])
  }

  /** The log requests of one platform's half of the cycle: the fetch's retries and failure, then the store's count. */
  function PlatformLogs(fetch: nat -> Attempt<seq<Quote>>, fail: nat -> bool, platform: string, name: string,
                        stored: map<string, MarketPriceDoc>, now: int): seq<LogRequest> {
    FetchLogs(platform, DefaultRetry(fetch, fail, platform).logs) +
    StoreLogs(StoredCount(stored, Snapshots(Fetched(fetch, fail, platform), name, now)), name)
  }

  /** The market prices after one platform's half of the cycle. */
  function PlatformStored(fetch: nat -> Attempt<seq<Quote>>, fail: nat -> bool, platform: string, name: string,
                          stored: map<string, MarketPriceDoc>, now: int): map<string, MarketPriceDoc> {
    InsertUnordered(stored, Snapshots(Fetched(fetch, fail, platform), name, now))
  }

  /** The log requests of a whole fetch cycle starting from the market prices `stored`. */
  function CycleLogs(pmFetch: nat -> Attempt<seq<Quote>>, pmFail: nat -> bool,
                     kFetch: nat -> Attempt<seq<Quote>>, kFail: nat -> bool,
                     stored: map<string, MarketPriceDoc>, now: int): seq<LogRequest> {
    [FetchStart] + PlatformLogs(pmFetch, pmFail, "Polymarket", "polymarket", stored, now) +
    PlatformLogs(kFetch, kFail, "Kalshi", "kalshi", PlatformStored(pmFetch, pmFail, "Polymarket", "polymarket", stored, now), now)
  }

  lemma PrefixChain<X>(a: seq<X>, b: seq<X>, c: seq<X>, d: seq<X>)
    requires a <= b && b <= c && c <= d
    ensures a <= d
  {
  }

  /** A fetch's log followed by a store's log is the log of their joint requests. */
  lemma PlatformLogged(writable: bool, platform: string, name: string, evs: seq<FetchEvent>, count: nat,
                       gen: nat -> string, base: nat, mid: nat, now: int,
                       log0: seq<TaskLogDoc>, log1: seq<TaskLogDoc>, log2: seq<TaskLogDoc>)
    requires mid == base + 2 * |evs|
    requires log1 == log0 + FetchLogged(writable, platform, evs, gen, base, now)
    requires log2 == log1 + Logged(writable && count > 0, [StoredRequest(count, name)], gen, mid, now)
    ensures log2 == log0 + Logged(writable, FetchLogs(platform, evs) + StoreLogs(count, name), gen, base, now)
  {
    LoggedAppend(writable, FetchLogs(platform, evs), StoreLogs(count, name), gen, base, now);
    if count == 0 {
      assert FetchLogs(platform, evs) + StoreLogs(count, name) == FetchLogs(platform, evs);
    }
  }

  /** Two requests logged one after the other are the log of both. */
  lemma TwoLogged(writable: bool, r1: LogRequest, r2: LogRequest, gen: nat -> string, base: nat, mid: nat, now: int,
                  log0: seq<TaskLogDoc>, log1: seq<TaskLogDoc>, log2: seq<TaskLogDoc>)
    requires mid == base + 2
    requires log1 == log0 + Logged(writable, [r1], gen, base, now)
    requires log2 == log1 + Logged(writable, [r2], gen, mid, now)
    ensures log2 == log0 + Logged(writable, [r1, r2], gen, base, now)
  {
    assert [r1] + [r2] == [r1, r2];
    LoggedAppend(writable, [r1], [r2], gen, base, now);
    AppendAssoc(log0, Logged(writable, [r1], gen, base, now), Logged(writable, [r2], gen, mid, now));
  }

  /** Three runs of requests logged one after the other are the log of the whole run. */
  lemma CycleLogged(writable: bool, a: seq<LogRequest>, b: seq<LogRequest>, c: seq<LogRequest>,
                    gen: nat -> string, base: nat, mid1: nat, mid2: nat, now: int,
                    log0: seq<TaskLogDoc>, log1: seq<TaskLogDoc>, log2: seq<TaskLogDoc>, log3: seq<TaskLogDoc>)
    requires mid1 == base + 2 * |a| && mid2 == mid1 + 2 * |b|
    requires log1 == log0 + Logged(writable, a, gen, base, now)
    requires log2 == log1 + Logged(writable, b, gen, mid1, now)
    requires log3 == log2 + Logged(writable, c, gen, mid2, now)
    ensures log3 == log0 + Logged(writable, a + b + c, gen, base, now)
  {
    var la, lb, lc := Logged(writable, a, gen, base, now), Logged(writable, b, gen, mid1, now), Logged(writable, c, gen, mid2, now);
    LoggedAppend(writable, a, b, gen, base, now);
    assert Logged(writable, a + b, gen, base, now) == la + lb;
    assert base + 2 * |a + b| == mid2;
    LoggedAppend(writable, a + b, c, gen, base, now);
    assert Logged(writable, a + b + c, gen, base, now) == la + lb + lc;
    AppendAssoc(log0, la, lb);
    AppendAssoc(log0, la + lb, lc);
  }

  // ---------------------------------------------------------------------
  // detect_arbitrage
  // ---------------------------------------------------------------------

  const DetectStart: LogRequest := LogRequest("detect_arbitrage", "start", "Beginning arbitrage detection", None)
  const NoneFound: LogRequest := LogRequest("detect_arbitrage", "success", "No opportunities found", None)
  /** `str(e)` of the `ZeroDivisionError` a degenerate quote raises. */
  const DivisionMessage: string := "float division by zero"
  const DetectFailed: LogRequest :=
    LogRequest("detect_arbitrage", "failure", "Error detecting arbitrage: " + DivisionMessage, Some(DivisionMessage))

  function DetectSummary(found: nat, created: nat): LogRequest {
    LogRequest("detect_arbitrage", "success",
               "Found " + NatToString(found) + " opportunities, created " + NatToString(created) + " positions", None)
  }

  /** `opportunities[:10]`. */
  function FirstNew(opps: seq<Opportunity>): (b: seq<Opportunity>)
    ensures |b| <= MaxNewPositions && |b| <= |opps| && b == opps[..|b|]
    ensures |opps| <= MaxNewPositions ==> b == opps
    ensures |opps| > MaxNewPositions ==> |b| == MaxNewPositions
  {
    if |opps| <= MaxNewPositions then opps else opps[..MaxNewPositions]
  }

  /** The fields `create_position_from_opportunity` reads off a detected opportunity, which has a profit but no expiration date. */
  function RequestFor(o: Opportunity): PositionRequest {
    PositionRequest(o.eventName, o.platformA, o.platformB, o.alloc.betAmountA, o.alloc.betAmountB,
                    o.alloc.platformAPrice, o.alloc.platformBPrice, Some(o.alloc.profit), None)
  }

  /** uuid draws for one new position: two for the document and two for its log entry, four more when orders are placed. */
  function OpenDraws(placed: bool): nat {
    if placed then 8 else 4
  }

  /** Whether the order-placement draw of the `j`-th new position succeeds. */
  function PlacedAt(place: nat -> bool, j: nat): bool {
    place(j)
  }

  /** The uuid draws new positions `from` to `to - 1` take. */
  function DrawsBetween(place: nat -> bool, from: nat, to: nat): nat
    decreases to
  {
    if to <= from then 0 else DrawsBetween(place, from, to - 1) + OpenDraws(PlacedAt(place, to - 1))
  }

  /**
   * The draws the first `j` new positions take, with `place(i)` the 70%
   * order-placement draw of the `i`-th. Contracts name this non-recursive
   * form, so that a caller and its callee speak of the same term.
   */
  function DrawsBefore(place: nat -> bool, j: nat): nat {
    DrawsBetween(place, 0, j)
  }

  /** A new position as the detection loop leaves it: created watching, then entered if its orders were placed. */
  function Opened(o: Opportunity, now: int, gen: nat -> string, base: nat, placed: bool): PositionDoc {
    var p := NewPosition(RequestFor(o), now, gen, base);
    if placed then Updated(p, Entered, None, now) else p
  }

  /** The positions the detection loop opens for the first `n` entries of `batch`, in order. */
  function OpenedFirst(batch: seq<Opportunity>, n: nat, now: int, gen: nat -> string, base: nat, place: nat -> bool): (ps: seq<PositionDoc>)
    requires n <= |batch|
    ensures |ps| == n
  {
    if n == 0 then []
    else OpenedFirst(batch, n - 1, now, gen, base, place) + [Opened(batch[n - 1], now, gen, base + DrawsBefore(place, n - 1), PlacedAt(place, n - 1))]
  }

  /** The positions the detection loop opens for `batch`, in order; contracts name this non-recursive form. */
  function OpenedAll(batch: seq<Opportunity>, now: int, gen: nat -> string, base: nat, place: nat -> bool): (ps: seq<PositionDoc>)
    ensures |ps| == |batch|
  {
    OpenedFirst(batch, |batch|, now, gen, base, place)
  }

  /**
   * The positions after a detection that stored `opps` with uuid draws from
   * `base` on: `ps` followed by the openings for the first ten.
   */
  function AfterOpening(ps: seq<PositionDoc>, opps: seq<Opportunity>, now: int, gen: nat -> string, base: nat,
                        place: nat -> bool): seq<PositionDoc> {
    ps + OpenedAll(FirstNew(opps), now, gen, base + 2 * |opps|, place)
  }

  /**
   * The performance view after the agent's `monitor_positions` over `ps`:
   * rebuilt from the monitored positions when any of them expired, kept
   * as it was otherwise.
   */
  function MonitoredView(perf: map<MarketType, PerformanceDoc>, ps: seq<PositionDoc>, now: int,
                         factor: string -> real): map<MarketType, PerformanceDoc> {
    if CountExpiring(ps, now) > 0 then Rebuilt(perf, MonitorAll(ps, now, factor), now) else perf
  }

  /** The uuid draws of a detection that stored `opps`: start entry, records, openings, summary entry. */
  function DetectDraws(opps: seq<Opportunity>, place: nat -> bool): nat {
    2 + 2 * |opps| + DrawsBefore(place, |FirstNew(opps)|) + 2
  }

  /**
   * The task-log entries of a detection that stored `opps` with uuid draws
   * from `base` on: the start entry, the openings' entries `openLog`, the summary.
   */
  function DetectedLog(writable: bool, opps: seq<Opportunity>, openLog: seq<TaskLogDoc>, gen: nat -> string, base: nat,
                       now: int, place: nat -> bool): seq<TaskLogDoc> {
    Logged(writable, [DetectStart], gen, base, now) + openLog +
    Logged(writable, [DetectSummary(|opps|, |FirstNew(opps)|)], gen, base + 2 + 2 * |opps| + DrawsBefore(place, |FirstNew(opps)|), now)
  }

  /** The three parts of a detection's log, logged one after the other, are its `DetectedLog`. */
  lemma DetectedLogged(writable: bool, opps: seq<Opportunity>, openLog: seq<TaskLogDoc>, gen: nat -> string, base: nat, mid: nat,
                       now: int, place: nat -> bool, log0: seq<TaskLogDoc>, log1: seq<TaskLogDoc>, log2: seq<TaskLogDoc>, log3: seq<TaskLogDoc>)
    requires mid == base + 2 + 2 * |opps| + DrawsBefore(place, |FirstNew(opps)|)
    requires log1 == log0 + Logged(writable, [DetectStart], gen, base, now)
    requires log2 == log1 + openLog
    requires log3 == log2 + Logged(writable, [DetectSummary(|opps|, |FirstNew(opps)|)], gen, mid, now)
    ensures log3 == log0 + DetectedLog(writable, opps, openLog, gen, base, now, place)
  {
    var a, b := Logged(writable, [DetectStart], gen, base, now), Logged(writable, [DetectSummary(|opps|, |FirstNew(opps)|)], gen, mid, now);
    assert DetectedLog(writable, opps, openLog, gen, base, now, place) == a + openLog + b;
    AppendedThree(log0, a, openLog, b, log1, log2, log3);
  }

  /** Three pieces appended one after the other to `log0`. */
  lemma AppendedThree<X>(log0: seq<X>, a: seq<X>, m: seq<X>, b: seq<X>, log1: seq<X>, log2: seq<X>, log3: seq<X>)
    requires log1 == log0 + a && log2 == log1 + m && log3 == log2 + b
    ensures log3 == log0 + (a + m + b)
  {
  }

  /** The openings for the first `n` entries depend on those entries only. */
  lemma {:induction false} OpenedFirstPrefix(b1: seq<Opportunity>, b2: seq<Opportunity>, n: nat, now: int, gen: nat -> string, base: nat, place: nat -> bool)
    requires n <= |b1| && n <= |b2| && b1[..n] == b2[..n]
    ensures OpenedFirst(b1, n, now, gen, base, place) == OpenedFirst(b2, n, now, gen, base, place)
  {
    if n > 0 {
      assert b1[n - 1] == b1[..n][n - 1] == b2[..n][n - 1] == b2[n - 1];
      assert b1[..n - 1] == b1[..n][..n - 1] == b2[..n][..n - 1] == b2[..n - 1];
      OpenedFirstPrefix(b1, b2, n - 1, now, gen, base, place);
    }
  }

  /**
   * Every position the detection opens is for its opportunity's event and
   * venues, classified by the event name, targets the opportunity's profit,
   * expires thirty days on, is unresolved, and is entered exactly when its
   * orders were placed (watching otherwise).
   */
  lemma OpenedFacts(o: Opportunity, now: int, gen: nat -> string, base: nat, placed: bool)
    ensures var p := Opened(o, now, gen, base, placed);
      p.positionId == gen(base + 1) && p.eventName == o.eventName &&
      p.platformA == o.platformA && p.platformB == o.platformB &&
      p.amountBetA == o.alloc.betAmountA && p.amountBetB == o.alloc.betAmountB &&
      p.marketType == CategorizeEvent(o.eventName) && p.targetProfit == o.alloc.profit &&
      p.expirationDate == Some(now + DefaultHorizon) && p.actualProfit.None? && p.resolvedAt.None? &&
      p.createdAt == now && p.lastChecked == now &&
      p.state == (if placed then Entered else Watching)
  {
    NewPositionFacts(RequestFor(o), now, gen, base);
  }

  lemma OpenedAllSnoc(batch: seq<Opportunity>, j: nat, now: int, gen: nat -> string, base: nat, place: nat -> bool)
    requires j < |batch|
    ensures OpenedAll(batch[..j + 1], now, gen, base, place)
         == OpenedAll(batch[..j], now, gen, base, place) + [Opened(batch[j], now, gen, base + DrawsBefore(place, j), PlacedAt(place, j))]
  {
    assert batch[..j + 1][..j] == batch[..j];
    OpenedFirstPrefix(batch[..j + 1], batch[..j], j, now, gen, base, place);
  }

  /** One more opening extends the positions opened so far by the next one. */
  lemma OpenedNext(ps0: seq<PositionDoc>, batch: seq<Opportunity>, j: nat, now: int, gen: nat -> string, base: nat,
                   place: nat -> bool, ps1: seq<PositionDoc>, ps2: seq<PositionDoc>)
    requires j < |batch|
    requires ps1 == ps0 + OpenedAll(batch[..j], now, gen, base, place)
    requires ps2 == ps1 + [Opened(batch[j], now, gen, base + DrawsBefore(place, j), PlacedAt(place, j))]
    ensures ps2 == ps0 + OpenedAll(batch[..j + 1], now, gen, base, place)
  {
    OpenedAllSnoc(batch, j, now, gen, base, place);
    AppendAssoc(ps0, OpenedAll(batch[..j], now, gen, base, place), [Opened(batch[j], now, gen, base + DrawsBefore(place, j), PlacedAt(place, j))]);
  }

  /** A matching result with at least one opportunity. */
  predicate Finds(found: Result<seq<Opportunity>, SolverError>) {
    found.Success? && found.value != []
  }

  /** What `detect_arbitrage` logs after the start entry when it opens nothing. */
  function QuietOutcome(found: Result<seq<Opportunity>, SolverError>): LogRequest {
    if found.Failure? then DetectFailed else NoneFound
  }

  /** The entry one request becomes with uuid draws `gen(base)` and `gen(base + 1)`. */
  function EntryOf(req: LogRequest, gen: nat -> string, base: nat, now: int): TaskLogDoc {
    LogEntry(req.action, req.status, req.details, req.error, gen, base, now)
  }

  // ---------------------------------------------------------------------
  // The agent
  // ---------------------------------------------------------------------

  /**
   * `ArbitrageAgent`: one position manager, the opportunities collection and
   * the stored price snapshots, all drawing document ids from one uuid source.
   * `waits` records every `time.sleep` of the retry loop, in seconds.
   */
  class ArbitrageAgent {
    const manager: PositionManager
    const opportunities: OpportunityCollection
    const ids: IdSource
    /** `self.retry_delay`: set to 1 at start and reset to 1 on every successful fetch. */
    var retryDelay: int
    var waits: seq<int>
    /** The `market_prices` collection, keyed by its `_id`. */
    var marketPrices: map<string, MarketPriceDoc>

    ghost predicate Valid()
      reads this, manager, opportunities, ids
    {
      manager.ids == ids && opportunities.ids == ids &&
      manager.Valid() && opportunities.Valid() && retryDelay == 1
    }

    /** `__init__`: the agent over the existing collections, followed by `_resume_from_state`. */
    constructor (manager: PositionManager, opportunities: OpportunityCollection,
                 marketPrices: map<string, MarketPriceDoc>, now: int)
      requires manager.Valid() && opportunities.Valid() && manager.ids == opportunities.ids
      modifies manager, manager.ids
      ensures Valid() && this.manager == manager && this.opportunities == opportunities && ids == manager.ids
      ensures waits == [] && this.marketPrices == marketPrices
      ensures manager.positions == old(manager.positions) && opportunities.records == old(opportunities.records)
      ensures manager.taskLog == old(manager.taskLog) +
        Logged(manager.logWritable, [RecoverRequest], ids.gen, old(manager.ids.drawn), now)
      ensures manager.performance == Rebuilt(old(manager.performance), manager.positions, now)
    {
      this.manager := manager;
      this.opportunities := opportunities;
      this.ids := manager.ids;
      retryDelay := 1;
      waits := [];
      this.marketPrices := marketPrices;
      new;
      ResumeFromState(now);
    }

    /**
     * `_resume_from_state`: log the restart as a successful recovery and
     * rebuild the performance view; each restart so adds one to the
     * recovery count whenever the log accepts the entry.
     */
    method ResumeFromState(now: int)
      requires Valid()
      modifies manager, ids
      ensures Valid() && ids.drawn == old(ids.drawn) + 2
      ensures manager.positions == old(manager.positions)
      ensures manager.taskLog == old(manager.taskLog) +
        Logged(manager.logWritable, [RecoverRequest], ids.gen, old(ids.drawn), now)
      ensures CountRecoveries(manager.taskLog) == CountRecoveries(old(manager.taskLog)) + (if manager.logWritable then 1 else 0)
      ensures manager.performance == Rebuilt(old(manager.performance), manager.positions, now)
    {
      manager.LogTask(RecoverRequest.action, RecoverRequest.status, RecoverRequest.details, None, now);
      RecalculatePerformance(now);
      if manager.logWritable {
        var entry := LogEntry(RecoverRequest.action, RecoverRequest.status, RecoverRequest.details, None, ids.gen, old(ids.drawn), now);
        assert Logged(true, [RecoverRequest], ids.gen, old(ids.drawn), now) == [entry];
        assert IsRecovery(entry);
        assert manager.taskLog == old(manager.taskLog) + [entry];
        CountRecoveriesAppend(old(manager.taskLog), entry);
      } else {
        assert manager.taskLog == old(manager.taskLog);
      }
    }

    /** `position_manager.log_task` for one request, seen from the agent. */
    method Log(req: LogRequest, now: int)
      requires Valid()
      modifies manager`taskLog, ids
      ensures Valid() && ids.drawn == old(ids.drawn) + 2
      ensures manager.taskLog == old(manager.taskLog) + Logged(manager.logWritable, [req], ids.gen, old(ids.drawn), now)
    {
      manager.LogTask(req.action, req.status, req.details, req.error, now);
      assert Logged(manager.logWritable, [req], ids.gen, old(ids.drawn), now)
          == if manager.logWritable then [LogEntry(req.action, req.status, req.details, req.error, ids.gen, old(ids.drawn), now)] else [];
    }

    /** `store_arbitrage_opportunities`, seen from the agent. */
    method StoreOpportunities(opps: seq<Opportunity>, now: int)
      requires Valid()
      modifies opportunities, ids
      ensures Valid() && ids.drawn == old(ids.drawn) + 2 * |opps|
      ensures opportunities.records == Stored(old(opportunities.records), opps, now, ids.gen, old(ids.drawn))
    {
      opportunities.StoreArbitrageOpportunities(opps, now);
    }

    /** `calculate_historical_performance`, seen from the agent. */
    method RecalculatePerformance(now: int)
      requires Valid()
      modifies manager`performance
      ensures Valid()
      ensures manager.performance == Rebuilt(old(manager.performance), manager.positions, now)
    {
      manager.CalculateHistoricalPerformance(now);
    }

    /**
     * `_fetch_with_retry`: the attempts, sleeps and log entries are exactly
     * those of `Retry` with the reset delay of one second, and nothing but
     * the task log, the waits and the uuid count changes.
     */
    method FetchWithRetry<T>(fetch: nat -> Attempt<T>, fail: nat -> bool, platform: string, maxRetries: Option<int>, now: int)
      returns (result: Option<T>)
      requires Valid()
      modifies this`waits, this`retryDelay, manager`taskLog, ids
      ensures Valid()
      ensures var run := Retry(fetch, fail, platform, EffectiveRetries(maxRetries), 1);
        result == run.result && waits == old(waits) + run.sleeps &&
        ids.drawn == old(ids.drawn) + 2 * |run.logs| &&
        manager.taskLog == old(manager.taskLog) +
          FetchLogged(manager.logWritable, platform, run.logs, ids.gen, old(ids.drawn), now)
    {
      var n := EffectiveRetries(maxRetries);
      ghost var run := Retry(fetch, fail, platform, n, 1);
      ghost var base := ids.drawn;
      ghost var log0 := manager.taskLog;
      ghost var waits0 := waits;
      ghost var evs: seq<FetchEvent> := [];
      var attempt: nat := 0;
      while attempt < n
        invariant Valid()
        invariant RetryProgress(fetch, fail, platform, n, attempt, run, waits0, waits, evs)
        invariant ids.drawn == base + 2 * |evs|
        invariant manager.taskLog == log0 + FetchLogged(manager.logWritable, platform, evs, ids.gen, base, now)
        decreases n - attempt
      {
        var outcome;
        outcome, evs := AttemptStep(fetch, fail, platform, n, attempt, now, run, waits0, log0, base, evs);
        match outcome
        case Returned(v) =>
          retryDelay := 1;
          RetryFinished(run, Some(v), manager.logWritable, platform, ids.gen, now, waits0, waits, evs, base, ids.drawn, log0, manager.taskLog);
          return Some(v);
        case ReturnedNone =>
          attempt := attempt + 1;
        case Raised(e) =>
          if attempt < n - 1 {
            attempt := attempt + 1;
          } else {
            RetryFinished(run, None, manager.logWritable, platform, ids.gen, now, waits0, waits, evs, base, ids.drawn, log0, manager.taskLog);
            return None;
          }
      }
      assert run.logs == evs && waits0 + run.sleeps == waits by {
        assert RetryFrom(fetch, fail, platform, n, 1, attempt).logs == [];
        assert evs + [] == evs && waits + [] == waits;
      }
      RetryFinished(run, None, manager.logWritable, platform, ids.gen, now, waits0, waits, evs, base, ids.drawn, log0, manager.taskLog);
      return None;
    }

    /**
     * One pass of the attempt loop together with its bookkeeping: the events
     * it logs extend `evs`, and either the call ends here as `run` says, or
     * the loop goes on at the next attempt.
     */
    method AttemptStep<T>(fetch: nat -> Attempt<T>, fail: nat -> bool, platform: string, n: int, attempt: nat, now: int,
                          ghost run: RetryRun<T>, ghost waits0: seq<int>, ghost log0: seq<TaskLogDoc>, ghost base: nat,
                          ghost evs: seq<FetchEvent>)
      returns (outcome: Attempt<T>, ghost evs': seq<FetchEvent>)
      requires Valid() && attempt < n
      requires RetryProgress(fetch, fail, platform, n, attempt, run, waits0, waits, evs)
      requires ids.drawn == base + 2 * |evs|
      requires manager.taskLog == log0 + FetchLogged(manager.logWritable, platform, evs, ids.gen, base, now)
      modifies this`waits, manager`taskLog, ids
      ensures Valid()
      ensures outcome == Effective(fetch, fail, platform, n, attempt)
      ensures ids.drawn == base + 2 * |evs'|
      ensures manager.taskLog == log0 + FetchLogged(manager.logWritable, platform, evs', ids.gen, base, now)
      ensures outcome.Returned? ==> run.result == Some(outcome.value) && waits0 + run.sleeps == waits && run.logs == evs'
      ensures outcome.Raised? && attempt == n - 1 ==> run.result == None && waits0 + run.sleeps == waits && run.logs == evs'
      ensures outcome.ReturnedNone? || (outcome.Raised? && attempt < n - 1) ==>
        RetryProgress(fetch, fail, platform, n, attempt + 1, run, waits0, waits, evs')
    {
      ghost var waits1 := waits;
      ghost var log1 := manager.taskLog;
      outcome := OneAttempt(fetch, fail, platform, n, attempt, now);
      ghost var logged := AttemptEvents(outcome, n, retryDelay, attempt);
      FetchLoggedStep(manager.logWritable, platform, evs, logged, ids.gen, base, now, log0, log1, manager.taskLog);
      RetryStep(fetch, fail, platform, n, attempt, run, waits0, waits1, evs);
      evs' := evs + logged;
    }

    /**
     * Attempt `attempt` of the loop: the simulated failure or the call itself,
     * and for an exception the log entry and (before the last attempt) the sleep.
     */
    method OneAttempt<T>(fetch: nat -> Attempt<T>, fail: nat -> bool, platform: string, n: int, attempt: nat, now: int)
      returns (outcome: Attempt<T>)
      requires Valid() && attempt < n && retryDelay == 1
      modifies this`waits, manager`taskLog, ids
      ensures Valid()
      ensures outcome == Effective(fetch, fail, platform, n, attempt)
      ensures waits == old(waits) + AttemptWaits(outcome, n, retryDelay, attempt)
      ensures var evs := AttemptEvents(outcome, n, retryDelay, attempt);
        ids.drawn == old(ids.drawn) + 2 * |evs| &&
        manager.taskLog == old(manager.taskLog) + FetchLogged(manager.logWritable, platform, evs, ids.gen, old(ids.drawn), now)
    {
      if fail(attempt) && attempt < n - 1 {
        outcome := Raised("Simulated " + platform + " API failure");
      } else {
        outcome := fetch(attempt);
      }
      if outcome.Raised? {
        var e := outcome.message;
        if attempt < n - 1 {
          var waitTime := retryDelay * Pow2(attempt);
          manager.LogTask("fetch_data", "retry", platform + " API failed, retrying in " + IntToString(waitTime) + "s", Some(e), now);
          waits := waits + [waitTime];
        } else {
          manager.LogTask("fetch_data", "failure", platform + " API failed after " + IntToString(n) + " attempts", Some(e), now);
        }
        OneFetchLogged(manager.logWritable, platform, AttemptEvents(outcome, n, retryDelay, attempt)[0], ids.gen, old(ids.drawn), now);
      }
    }

    /**
     * `store_market_prices`: a yes and a no snapshot per record, inserted
     * unordered. A duplicate key fails the call (the free keys still go in)
     * and is passed over without a log entry; otherwise every document is
     * stored and the count is logged and returned.
     */
    method StoreMarketPrices(prices: seq<Quote>, platform: string, now: int) returns (count: nat)
      requires Valid()
      modifies this`marketPrices, manager`taskLog, ids
      ensures Valid()
      ensures var docs := Snapshots(prices, platform, now);
        marketPrices == InsertUnordered(old(marketPrices), docs) &&
        count == StoredCount(old(marketPrices), docs)
      ensures count > 0 ==> |marketPrices| == |old(marketPrices)| + count
      ensures ids.drawn == old(ids.drawn) + (if count > 0 then 2 else 0)
      ensures manager.taskLog == old(manager.taskLog) +
        Logged(manager.logWritable && count > 0, [StoredRequest(count, platform)], ids.gen, old(ids.drawn), now)
    {
      var docs := PriceDocuments(prices, platform, now);
      count := StoreDocuments(docs, platform, now, marketPrices, manager.taskLog, ids.drawn);
    }

    /** The insert and the log entry of `store_market_prices`; the ghost parameters name the state on entry. */
    method StoreDocuments(docs: seq<MarketPriceDoc>, platform: string, now: int,
                          ghost mp0: map<string, MarketPriceDoc>, ghost log0: seq<TaskLogDoc>, ghost d0: nat)
      returns (count: nat)
      requires Valid() && marketPrices == mp0 && manager.taskLog == log0 && ids.drawn == d0
      modifies this`marketPrices, manager`taskLog, ids
      ensures Valid()
      ensures marketPrices == InsertUnordered(mp0, docs) && count == StoredCount(mp0, docs)
      ensures count > 0 ==> |marketPrices| == |mp0| + count
      ensures ids.drawn == d0 + (if count > 0 then 2 else 0)
      ensures manager.taskLog == log0 + Logged(manager.logWritable && count > 0, [StoredRequest(count, platform)], ids.gen, d0, now)
    {
      if docs == [] {
        return 0;
      }
      var duplicate := InsertMany(docs);
      if duplicate {
        return 0;
      }
      count := |docs|;
      Log(StoredRequest(count, platform), now);
    }

    /**
     * `market_prices.insert_many(docs, ordered=False)`: the free keys are
     * inserted; `duplicate` is whether the call raised a duplicate-key error.
     * Without one, every document is stored under its key.
     */
    method InsertMany(docs: seq<MarketPriceDoc>) returns (duplicate: bool)
      requires Valid()
      modifies this`marketPrices
      ensures Valid()
      ensures marketPrices == InsertUnordered(old(marketPrices), docs)
      ensures duplicate == Collision(old(marketPrices), docs)
      ensures !duplicate ==> |marketPrices| == |old(marketPrices)| + |docs|
      ensures !duplicate ==> forall i :: 0 <= i < |docs| ==> docs[i].key in marketPrices && marketPrices[docs[i].key] == docs[i]
    {
      duplicate := Collision(marketPrices, docs);
      marketPrices := InsertUnordered(marketPrices, docs);
      if !duplicate {
        InsertWithoutCollision(old(marketPrices), docs);
      }
    }

    /**
     * One platform's half of `fetch_and_store_prices`: fetch with the default
     * retries and store a non-empty result under `name`. An empty or failed
     * fetch yields `[]` and stores nothing.
     */
    method FetchAndStore(fetch: nat -> Attempt<seq<Quote>>, fail: nat -> bool, platform: string, name: string, now: int)
      returns (prices: seq<Quote>)
      requires Valid()
      modifies this`waits, this`retryDelay, this`marketPrices, manager`taskLog, ids
      ensures Valid()
      ensures prices == Fetched(fetch, fail, platform)
      ensures waits == old(waits) + DefaultRetry(fetch, fail, platform).sleeps
      ensures marketPrices == PlatformStored(fetch, fail, platform, name, old(marketPrices), now)
      ensures var reqs := PlatformLogs(fetch, fail, platform, name, old(marketPrices), now);
        ids.drawn == old(ids.drawn) + 2 * |reqs| &&
        manager.taskLog == old(manager.taskLog) + Logged(manager.logWritable, reqs, ids.gen, old(ids.drawn), now)
    {
      ghost var log0, d0 := manager.taskLog, ids.drawn;
      var result := FetchWithRetry(fetch, fail, platform, None, now);
      prices := result.GetOr([]);
      ghost var evs := DefaultRetry(fetch, fail, platform).logs;
      ghost var log1 := manager.taskLog;
      ghost var d1 := ids.drawn;
      var count: nat := 0;
      if prices != [] {
        count := StoreMarketPrices(prices, name, now);
      } else {
        assert Snapshots(prices, name, now) == [];
      }
      PlatformLogged(manager.logWritable, platform, name, evs, count, ids.gen, d0, d1, now, log0, log1, manager.taskLog);
    }

    /**
     * `fetch_and_store_prices` outside dummy mode: log the start, then fetch
     * and store Polymarket's quotes, then Kalshi's; each list is `[]` when
     * its fetch gave up.
     */
    method FetchAndStorePrices(pmFetch: nat -> Attempt<seq<Quote>>, pmFail: nat -> bool,
                               kFetch: nat -> Attempt<seq<Quote>>, kFail: nat -> bool, now: int)
      returns (pm: seq<Quote>, ks: seq<Quote>)
      requires Valid()
      modifies this`waits, this`retryDelay, this`marketPrices, manager`taskLog, ids
      ensures Valid()
      ensures pm == Fetched(pmFetch, pmFail, "Polymarket") && ks == Fetched(kFetch, kFail, "Kalshi")
      ensures waits == old(waits) + DefaultRetry(pmFetch, pmFail, "Polymarket").sleeps + DefaultRetry(kFetch, kFail, "Kalshi").sleeps
      ensures var mid := PlatformStored(pmFetch, pmFail, "Polymarket", "polymarket", old(marketPrices), now);
        marketPrices == PlatformStored(kFetch, kFail, "Kalshi", "kalshi", mid, now)
      ensures var reqs := CycleLogs(pmFetch, pmFail, kFetch, kFail, old(marketPrices), now);
        ids.drawn == old(ids.drawn) + 2 * |reqs| &&
        manager.taskLog == old(manager.taskLog) + Logged(manager.logWritable, reqs, ids.gen, old(ids.drawn), now)
    {
      ghost var log0, d0 := manager.taskLog, ids.drawn;
      Log(FetchStart, now);
      ghost var log1, d1 := manager.taskLog, ids.drawn;
      ghost var mp0 := marketPrices;
      pm := FetchAndStore(pmFetch, pmFail, "Polymarket", "polymarket", now);
      ghost var log2, d2 := manager.taskLog, ids.drawn;
      ks := FetchAndStore(kFetch, kFail, "Kalshi", "kalshi", now);
      CycleLogged(manager.logWritable, [FetchStart], PlatformLogs(pmFetch, pmFail, "Polymarket", "polymarket", mp0, now),
                  PlatformLogs(kFetch, kFail, "Kalshi", "kalshi", PlatformStored(pmFetch, pmFail, "Polymarket", "polymarket", mp0, now), now), ids.gen, d0, d1, d2, now,
                  log0, log1, log2, manager.taskLog);
    }

    /**
     * The agent's `monitor_positions`: the manager's monitoring pass, then a
     * performance rebuild when anything expired. `factor` stands for the
     * resolution draws.
     */
    method MonitorPositions(now: int, factor: string -> real)
      requires Valid()
      modifies manager`positions, manager`performance, manager`taskLog, ids
      ensures Valid()
      ensures manager.positions == MonitorAll(old(manager.positions), now, factor)
      ensures var updated := CountExpiring(old(manager.positions), now);
        ids.drawn == old(ids.drawn) + 2 * MonitorLogCalls(updated) &&
        manager.performance == if updated > 0 then Rebuilt(old(manager.performance), manager.positions, now)
                               else old(manager.performance)
      ensures old(manager.taskLog) <= manager.taskLog
      ensures var updated := CountExpiring(old(manager.positions), now);
        |manager.taskLog| == |old(manager.taskLog)| + (if manager.logWritable then MonitorLogCalls(updated) else 0) &&
        (manager.logWritable && updated > 0 ==>
          manager.taskLog[|manager.taskLog| - 1] ==
            LogEntry("monitor_positions", "success", "Updated " + NatToString(updated) + " expired positions",
                     None, ids.gen, ids.drawn - 2, now))
    {
      var updated := manager.MonitorPositions(now, factor);
      if updated > 0 {
        RecalculatePerformance(now);
      }
    }

    /**
     * `run_once` outside dummy mode: fetch and store both platforms' quotes,
     * run the detection only when both lists are non-empty, and always
     * monitor the positions.
     */
    method RunOnce(pmFetch: nat -> Attempt<seq<Quote>>, pmFail: nat -> bool,
                   kFetch: nat -> Attempt<seq<Quote>>, kFail: nat -> bool,
                   now: int, place: nat -> bool, factor: string -> real)
      returns (ghost found: Result<seq<Opportunity>, SolverError>, ghost base: nat)
      requires Valid()
      modifies this`waits, this`retryDelay, this`marketPrices, manager, ids, opportunities
      ensures Valid()
      ensures waits == old(waits) + DefaultRetry(pmFetch, pmFail, "Polymarket").sleeps + DefaultRetry(kFetch, kFail, "Kalshi").sleeps
      ensures var mid := PlatformStored(pmFetch, pmFail, "Polymarket", "polymarket", old(marketPrices), now);
        marketPrices == PlatformStored(kFetch, kFail, "Kalshi", "kalshi", mid, now)
      ensures var pm, ks := Fetched(pmFetch, pmFail, "Polymarket"), Fetched(kFetch, kFail, "Kalshi");
        found == Matches(pm, Lookup(ks)) &&
        (pm == [] || ks == [] || !Finds(found) ==>
          opportunities.records == old(opportunities.records) &&
          manager.positions == MonitorAll(old(manager.positions), now, factor))
      ensures base == old(ids.drawn) + 2 * |CycleLogs(pmFetch, pmFail, kFetch, kFail, old(marketPrices), now)| + 2
      ensures Fetched(pmFetch, pmFail, "Polymarket") != [] && Fetched(kFetch, kFail, "Kalshi") != [] && Finds(found) ==>
          opportunities.records == Stored(old(opportunities.records), found.value, now, ids.gen, base) &&
          manager.positions == MonitorAll(AfterOpening(old(manager.positions), found.value, now, ids.gen, base, place), now, factor)
      ensures Fetched(pmFetch, pmFail, "Polymarket") == [] || Fetched(kFetch, kFail, "Kalshi") == [] || !Finds(found) ==>
          manager.performance == MonitoredView(old(manager.performance), old(manager.positions), now, factor)
      ensures Fetched(pmFetch, pmFail, "Polymarket") != [] && Fetched(kFetch, kFail, "Kalshi") != [] && Finds(found) ==>
          var ps1 := AfterOpening(old(manager.positions), found.value, now, ids.gen, base, place);
          manager.performance == MonitoredView(Rebuilt(old(manager.performance), ps1, now), ps1, now, factor)
      ensures old(manager.taskLog) <= manager.taskLog
    {
      var pm, ks := FetchAndStorePrices(pmFetch, pmFail, kFetch, kFail, now);
      ghost var log1 := manager.taskLog;
      assert old(manager.taskLog) <= log1;
      base := ids.drawn + 2;
      found := DetectThenMonitor(pm, ks, now, place, factor, base, opportunities.records, manager.positions,
                                 manager.performance, log1);
      PrefixChain(old(manager.taskLog), log1, log1, manager.taskLog);
    }

    /**
     * The detection and monitoring steps of `run_once`, started with `base - 2`
     * uuids drawn. The ghost parameters name the state on entry.
     */
    method DetectThenMonitor(pm: seq<Quote>, ks: seq<Quote>, now: int, place: nat -> bool, factor: string -> real,
                             ghost base: nat, ghost rec0: map<string, OpportunityDoc>, ghost ps0: seq<PositionDoc>,
                             ghost perf0: map<MarketType, PerformanceDoc>, ghost log0: seq<TaskLogDoc>)
      returns (ghost found: Result<seq<Opportunity>, SolverError>)
      requires Valid() && ids.drawn + 2 == base && opportunities.records == rec0
      requires manager.positions == ps0 && manager.performance == perf0 && manager.taskLog == log0
      modifies manager, ids, opportunities
      ensures Valid()
      ensures found == Matches(pm, Lookup(ks))
      ensures pm == [] || ks == [] || !Finds(found) ==>
        opportunities.records == rec0 && manager.positions == MonitorAll(ps0, now, factor)
      ensures pm != [] && ks != [] && Finds(found) ==>
        opportunities.records == Stored(rec0, found.value, now, ids.gen, base) &&
        manager.positions == MonitorAll(AfterOpening(ps0, found.value, now, ids.gen, base, place), now, factor)
      ensures pm == [] || ks == [] || !Finds(found) ==> manager.performance == MonitoredView(perf0, ps0, now, factor)
      ensures pm != [] && ks != [] && Finds(found) ==>
        var ps1 := AfterOpening(ps0, found.value, now, ids.gen, base, place);
        manager.performance == MonitoredView(Rebuilt(perf0, ps1, now), ps1, now, factor)
      ensures log0 <= manager.taskLog
    {
      found := DetectIfPriced(pm, ks, now, place, rec0, ps0, perf0, log0);
      ghost var log1 := manager.taskLog;
      MonitorPositions(now, factor);
      PrefixChain(log0, log1, log1, manager.taskLog);
    }

    /**
     * The detection step of `run_once`: skipped unless both quote lists are
     * non-empty, and then changing no record, no position and no performance
     * entry unless the matching finds something (it still logs). The ghost
     * parameters name the state on entry.
     */
    method DetectIfPriced(pm: seq<Quote>, ks: seq<Quote>, now: int, place: nat -> bool,
                          ghost rec0: map<string, OpportunityDoc>, ghost ps0: seq<PositionDoc>,
                          ghost perf0: map<MarketType, PerformanceDoc>, ghost log0: seq<TaskLogDoc>)
      returns (ghost found: Result<seq<Opportunity>, SolverError>)
      requires Valid() && opportunities.records == rec0
      requires manager.positions == ps0 && manager.performance == perf0 && manager.taskLog == log0
      modifies manager, ids, opportunities
      ensures Valid()
      ensures found == Matches(pm, Lookup(ks))
      ensures pm == [] || ks == [] || !Finds(found) ==>
        opportunities.records == rec0 && manager.positions == ps0
      ensures pm != [] && ks != [] && Finds(found) ==>
          opportunities.records == Stored(old(opportunities.records), found.value, now, ids.gen, old(ids.drawn) + 2) &&
          manager.positions == AfterOpening(old(manager.positions), found.value, now, ids.gen, old(ids.drawn) + 2, place)
      ensures pm == [] || ks == [] || !Finds(found) ==> manager.performance == perf0
      ensures pm != [] && ks != [] && Finds(found) ==> manager.performance == Rebuilt(perf0, manager.positions, now)
      ensures pm == [] || ks == [] ==> manager.taskLog == log0
      ensures log0 <= manager.taskLog
    {
      if pm != [] && ks != [] {
        ghost var openLog;
        found, openLog := DetectArbitrage(pm, ks, now, place);
      } else {
        found := Matches(pm, Lookup(ks));
      }
    }

    /**
     * One pass of the loop body of `detect_arbitrage`: create the position,
     * then, when the placement draw says so, place its orders, which always
     * succeeds on a position just created.
     */
    method OpenPosition(o: Opportunity, now: int, placed: bool)
      requires Valid()
      modifies manager`positions, manager`taskLog, ids
      ensures Valid() && manager.performance == old(manager.performance)
      ensures manager.positions == old(manager.positions) + [Opened(o, now, ids.gen, old(ids.drawn), placed)]
      ensures ids.drawn == old(ids.drawn) + OpenDraws(placed)
      ensures |manager.taskLog| >= |old(manager.taskLog)| && manager.taskLog[..|old(manager.taskLog)|] == old(manager.taskLog)
    {
      var id := manager.CreatePositionFromOpportunity(RequestFor(o), now);
      if placed {
        ghost var ps := manager.positions;
        ghost var log := manager.taskLog;
        ghost var p := NewPosition(RequestFor(o), now, ids.gen, old(ids.drawn));
        FindUnique(ps, |ps| - 1);
        NewPositionFacts(RequestFor(o), now, ids.gen, old(ids.drawn));
        var ok := manager.SimulateOrderPlacement(id, now);
        assert ok;
        assert (old(manager.positions) + [p])[|ps| - 1 := Updated(p, Entered, None, now)]
            == old(manager.positions) + [Updated(p, Entered, None, now)];
        assert manager.taskLog[..|log|] == log;
        assert log[..|old(manager.taskLog)|] == old(manager.taskLog);
      }
    }

    /** The loop of `detect_arbitrage` over `opportunities[:10]`. */
    method OpenPositions(batch: seq<Opportunity>, now: int, place: nat -> bool,
                         ghost base: nat, ghost ps0: seq<PositionDoc>, ghost log0: seq<TaskLogDoc>) returns (created: nat)
      requires Valid() && ids.drawn == base && manager.positions == ps0 && manager.taskLog == log0
      modifies manager`positions, manager`taskLog, ids
      ensures Valid() && manager.performance == old(manager.performance)
      ensures created == |batch|
      ensures manager.positions == ps0 + OpenedAll(batch, now, ids.gen, base, place)
      ensures ids.drawn == base + DrawsBefore(place, |batch|)
      ensures |manager.taskLog| >= |log0| && manager.taskLog[..|log0|] == log0
    {
      created := 0;
      for j := 0 to |batch|
        invariant ids.drawn == base + DrawsBefore(place, j)
        invariant |manager.taskLog| >= |log0| && manager.taskLog[..|log0|] == log0
        invariant Valid() && manager.performance == old(manager.performance) && created == j
        invariant manager.positions == ps0 + OpenedAll(batch[..j], now, ids.gen, base, place)
      {
        OpenNext(batch, j, now, place, base, ps0, log0);
        created := created + 1;
      }
      assert batch[..|batch|] == batch;
    }

    /** Pass `j` of the loop over `opportunities[:10]`: the positions opened so far gain the `j`-th. */
    method OpenNext(batch: seq<Opportunity>, j: nat, now: int, place: nat -> bool,
                    ghost base: nat, ghost ps0: seq<PositionDoc>, ghost log0: seq<TaskLogDoc>)
      requires Valid() && j < |batch|
      requires ids.drawn == base + DrawsBefore(place, j)
      requires manager.positions == ps0 + OpenedAll(batch[..j], now, ids.gen, base, place)
      requires |manager.taskLog| >= |log0| && manager.taskLog[..|log0|] == log0
      modifies manager`positions, manager`taskLog, ids
      ensures Valid() && manager.performance == old(manager.performance)
      ensures ids.drawn == base + DrawsBefore(place, j + 1)
      ensures manager.positions == ps0 + OpenedAll(batch[..j + 1], now, ids.gen, base, place)
      ensures |manager.taskLog| >= |log0| && manager.taskLog[..|log0|] == log0
    {
      ghost var log1 := manager.taskLog;
      ghost var ps1 := manager.positions;
      assert DrawsBefore(place, j + 1) == DrawsBefore(place, j) + OpenDraws(PlacedAt(place, j));
      OpenPosition(batch[j], now, PlacedAt(place, j));
      PrefixTrans(manager.taskLog, log1, log0);
      OpenedNext(ps0, batch, j, now, ids.gen, base, place, ps1, manager.positions);
    }

    /**
     * `detect_arbitrage`: log the start and match the quotes. The division
     * error and an empty match are each logged and change nothing else.
     * Otherwise every opportunity is stored, a position is opened for each
     * of the first ten, the summary is logged and the performance view
     * rebuilt; `openLog` are the entries the openings log in between.
     */
    method DetectArbitrage(pms: seq<Quote>, ks: seq<Quote>, now: int, place: nat -> bool)
      returns (ghost found: Result<seq<Opportunity>, SolverError>, ghost openLog: seq<TaskLogDoc>)
      requires Valid()
      modifies manager, ids, opportunities
      ensures found == Matches(pms, Lookup(ks))
      ensures Valid()
      ensures !Finds(found) ==>
          opportunities.records == old(opportunities.records) && manager.positions == old(manager.positions) &&
          manager.performance == old(manager.performance) && ids.drawn == old(ids.drawn) + 4 &&
          manager.taskLog == old(manager.taskLog) +
            Logged(manager.logWritable, [DetectStart, QuietOutcome(found)], ids.gen, old(ids.drawn), now)
      ensures Finds(found) ==>
          opportunities.records == Stored(old(opportunities.records), found.value, now, ids.gen, old(ids.drawn) + 2)
      ensures Finds(found) ==>
          manager.positions == AfterOpening(old(manager.positions), found.value, now, ids.gen, old(ids.drawn) + 2, place)
      ensures Finds(found) ==>
          ids.drawn == old(ids.drawn) + DetectDraws(found.value, place)
      ensures Finds(found) ==>
          manager.performance == Rebuilt(old(manager.performance), manager.positions, now)
      ensures Finds(found) ==>
          manager.taskLog == old(manager.taskLog) +
            DetectedLog(manager.logWritable, found.value, openLog, ids.gen, old(ids.drawn), now, place)
    {
      var matched := Matches(pms, Lookup(ks));
      found := matched;
      openLog := ReportDetection(matched, now, place);
    }

    /**
     * `detect_arbitrage` once the matching has produced `found`: the start
     * entry, then either the failure or "none found" entry, or the store,
     * the openings, the summary and the performance rebuild.
     */
    method ReportDetection(found: Result<seq<Opportunity>, SolverError>, now: int, place: nat -> bool)
      returns (ghost openLog: seq<TaskLogDoc>)
      requires Valid()
      modifies manager, ids, opportunities
      ensures Valid()
      ensures !Finds(found) ==>
        opportunities.records == old(opportunities.records) && manager.positions == old(manager.positions) &&
        manager.performance == old(manager.performance) && ids.drawn == old(ids.drawn) + 4 &&
        manager.taskLog == old(manager.taskLog) +
          Logged(manager.logWritable, [DetectStart, QuietOutcome(found)], ids.gen, old(ids.drawn), now)
      ensures Finds(found) ==>
        opportunities.records == Stored(old(opportunities.records), found.value, now, ids.gen, old(ids.drawn) + 2)
      ensures Finds(found) ==>
        manager.positions == AfterOpening(old(manager.positions), found.value, now, ids.gen, old(ids.drawn) + 2, place)
      ensures Finds(found) ==>
        ids.drawn == old(ids.drawn) + DetectDraws(found.value, place)
      ensures Finds(found) ==>
        manager.performance == Rebuilt(old(manager.performance), manager.positions, now)
      ensures Finds(found) ==>
        manager.taskLog == old(manager.taskLog) +
          DetectedLog(manager.logWritable, found.value, openLog, ids.gen, old(ids.drawn), now, place)
    {
      if !Finds(found) {
        ReportQuiet(found, now);
        openLog := [];
      } else {
        var created;
        created, openLog := StoreAndOpen(found.value, now, place, old(ids.drawn), old(opportunities.records),
                                         old(manager.positions), old(manager.performance), old(manager.taskLog));
      }
    }

    /** `detect_arbitrage` when matching failed or found nothing: the start entry and the outcome entry. */
    method ReportQuiet(found: Result<seq<Opportunity>, SolverError>, now: int)
      requires Valid()
      modifies manager`taskLog, ids
      ensures Valid() && ids.drawn == old(ids.drawn) + 4 &&
        manager.taskLog == old(manager.taskLog) +
          Logged(manager.logWritable, [DetectStart, QuietOutcome(found)], ids.gen, old(ids.drawn), now)
    {
      ghost var log0, d0 := manager.taskLog, ids.drawn;
      Log(DetectStart, now);
      ghost var log1, d1 := manager.taskLog, ids.drawn;
      Log(QuietOutcome(found), now);
      TwoLogged(manager.logWritable, DetectStart, QuietOutcome(found), ids.gen, d0, d1, now, log0, log1, manager.taskLog);
    }

    /**
     * The branch of `detect_arbitrage` that found opportunities: the start
     * entry, then store them all, open positions for the first ten, log the
     * summary and rebuild the performance view. The ghost parameters name
     * the state on entry.
     */
    method StoreAndOpen(opps: seq<Opportunity>, now: int, place: nat -> bool,
                        ghost base: nat, ghost rec0: map<string, OpportunityDoc>, ghost ps0: seq<PositionDoc>,
                        ghost perf0: map<MarketType, PerformanceDoc>, ghost log0: seq<TaskLogDoc>)
      returns (created: nat, ghost openLog: seq<TaskLogDoc>)
      requires Valid() && ids.drawn == base && opportunities.records == rec0
      requires manager.positions == ps0 && manager.performance == perf0 && manager.taskLog == log0
      modifies manager, ids, opportunities
      ensures Valid() && created == |FirstNew(opps)|
      ensures opportunities.records == Stored(rec0, opps, now, ids.gen, base + 2)
      ensures manager.positions == AfterOpening(ps0, opps, now, ids.gen, base + 2, place)
      ensures ids.drawn == base + DetectDraws(opps, place)
      ensures manager.performance == Rebuilt(perf0, manager.positions, now)
      ensures manager.taskLog == log0 + DetectedLog(manager.logWritable, opps, openLog, ids.gen, base, now, place)
    {
      Log(DetectStart, now);
      ghost var log1 := manager.taskLog;
      created, openLog := StoreThenOpen(opps, now, place, base + 2, rec0, ps0, log1);
      ghost var log2, mid := manager.taskLog, ids.drawn;
      Summarize(|opps|, created, now, mid, AfterOpening(ps0, opps, now, ids.gen, base + 2, place), perf0, log2);
      DetectedLogged(manager.logWritable, opps, openLog, ids.gen, base, mid, now, place, log0, log1, log2, manager.taskLog);
    }

    /** Store every opportunity, then open positions for the first ten; `openLog` are the entries the openings log. */
    method StoreThenOpen(opps: seq<Opportunity>, now: int, place: nat -> bool,
                         ghost base: nat, ghost rec0: map<string, OpportunityDoc>, ghost ps0: seq<PositionDoc>, ghost log0: seq<TaskLogDoc>)
      returns (created: nat, ghost openLog: seq<TaskLogDoc>)
      requires Valid() && ids.drawn == base && opportunities.records == rec0
      requires manager.positions == ps0 && manager.taskLog == log0
      modifies manager, ids, opportunities
      ensures Valid() && manager.performance == old(manager.performance) && created == |FirstNew(opps)|
      ensures opportunities.records == Stored(rec0, opps, now, ids.gen, base)
      ensures manager.positions == AfterOpening(ps0, opps, now, ids.gen, base, place)
      ensures ids.drawn == base + 2 * |opps| + DrawsBefore(place, |FirstNew(opps)|)
      ensures manager.taskLog == log0 + openLog
    {
      StoreOpportunities(opps, now);
      created := OpenPositions(FirstNew(opps), now, place, base + 2 * |opps|, ps0, log0);
      openLog := manager.taskLog[|log0|..];
      assert manager.taskLog == log0 + openLog;
    }

    /** The summary entry of `detect_arbitrage`, then the performance rebuild. */
    method Summarize(found: nat, created: nat, now: int,
                     ghost base: nat, ghost ps0: seq<PositionDoc>, ghost perf0: map<MarketType, PerformanceDoc>, ghost log0: seq<TaskLogDoc>)
      requires Valid() && ids.drawn == base && manager.positions == ps0
      requires manager.performance == perf0 && manager.taskLog == log0
      modifies manager, ids
      ensures Valid() && manager.positions == ps0 && ids.drawn == base + 2
      ensures manager.performance == Rebuilt(perf0, manager.positions, now)
      ensures manager.taskLog == log0 + Logged(manager.logWritable, [DetectSummary(found, created)], ids.gen, base, now)
    {
      Log(DetectSummary(found, created), now);
      RecalculatePerformance(now);
    }
  }
}
