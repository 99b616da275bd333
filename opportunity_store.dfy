/**
 * The `arbitrage_opportunities` collection, keyed by `opportunity_id` (the
 * field's unique index): `store_arbitrage_opportunities` and
 * `get_active_opportunities`.
 */
module OpportunityStore {
  import opened Wrappers
  import opened Numeric
  import opened Models
  import opened Matcher
  import opened Ids
  import opened Solver

  /** An opportunity counts as current for five minutes after detection. */
  const FreshnessWindow: int := 5 * 60
  /** The expiration reported for a record that has none: thirty days ahead. */
  const DefaultExpiry: int := 30 * 24 * 60 * 60
  /** `get_active_opportunities`' default limit. */
  const DefaultLimit: int := 50

  predicate IsStale(d: OpportunityDoc, now: int) {
    d.status == OpportunityStatus.Active && d.detectedAt < now - FreshnessWindow
  }

  predicate IsCurrent(d: OpportunityDoc, now: int) {
    d.status == OpportunityStatus.Active && d.detectedAt >= now - FreshnessWindow
  }

  predicate Keyed(records: map<string, OpportunityDoc>) {
    forall k | k in records :: records[k].opportunityId == k
  }

  /**
   * The `update_many` that flips every active record detected before
   * `now − 5 min` to expired. Records keep their keys and every field but the
   * status; exactly the stale ones change, and none is stale afterwards.
   */
  function ExpireStale(records: map<string, OpportunityDoc>, now: int): (r: map<string, OpportunityDoc>)
    ensures r.Keys == records.Keys
  {
    map k | k in records :: if IsStale(records[k], now) then records[k].(status := OpportunityStatus.Expired) else records[k]
  }

  lemma ExpireStaleFacts(records: map<string, OpportunityDoc>, now: int)
    ensures var r := ExpireStale(records, now);
      (forall k | k in r :: r[k].(status := records[k].status) == records[k]) &&
      (forall k | k in r :: r[k].status != records[k].status <==> IsStale(records[k], now)) &&
      (forall k | k in r :: !IsStale(r[k], now)) &&
      (Keyed(records) ==> Keyed(r))
  {
  }

  /** Running the expiry twice at the same time changes nothing the second time. */
  lemma ExpireStaleIdempotent(records: map<string, OpportunityDoc>, now: int)
    ensures ExpireStale(ExpireStale(records, now), now) == ExpireStale(records, now)
  {
    ExpireStaleFacts(records, now);
  }

  /** An `update_one(..., upsert=True)` by `opportunity_id`: replace the named fields of a match, or insert. */
  function Upsert(records: map<string, OpportunityDoc>, d: OpportunityDoc): (r: map<string, OpportunityDoc>)
    ensures r.Keys == records.Keys + {d.opportunityId}
    ensures d.opportunityId !in records ==> r == records[d.opportunityId := d]
  {
    var id := d.opportunityId;
    if id in records then
      // `$set` leaves the fields the new document lacks as they were; the
      // stored `_id` is kept (a `$set` that changed this immutable field would
      // be refused, and with fresh opportunity ids this branch is not reached).
      records[id := d.(docId := records[id].docId, profit := records[id].profit, expirationDate := records[id].expirationDate)]
    else records[id := d]
  }

  /** An upsert leaves every other record alone, inserts a new id as given, and keeps records under their own ids. */
  lemma UpsertFacts(records: map<string, OpportunityDoc>, d: OpportunityDoc)
    ensures var r := Upsert(records, d);
      (forall k | k in records && k != d.opportunityId :: r[k] == records[k]) &&
      (d.opportunityId !in records ==> r[d.opportunityId] == d) &&
      (Keyed(records) ==> Keyed(r))
  {
  }

  /** The document `store_arbitrage_opportunities` builds for `o`, with uuid draws `gen(base)` and `gen(base + 1)`. */
  function NewDoc(o: Opportunity, now: int, gen: nat -> string, base: nat): OpportunityDoc {
    CreateArbitrageOpportunityDoc(o.eventName, o.platformA, o.alloc.platformAPrice, o.platformB,
                                  o.alloc.platformBPrice, o.alloc.profitPercentage,
                                  o.alloc.betAmountA, o.alloc.betAmountB, None, gen(base), gen(base + 1), now)
  }

  /** The documents `store_arbitrage_opportunities` builds for `opps`, in order, from the draws after `base`. */
  function NewDocs(opps: seq<Opportunity>, now: int, gen: nat -> string, base: nat): (ds: seq<OpportunityDoc>)
    ensures |ds| == |opps|
  {
    seq(|opps|, j requires 0 <= j < |opps| => NewDoc(opps[j], now, gen, base + 2 * j))
  }

  /**
   * The records `store_arbitrage_opportunities` leaves behind: the stale
   * records expired, then one new document per opportunity upserted in
   * order. Contracts name this non-recursive form.
   */
  function Stored(records: map<string, OpportunityDoc>, opps: seq<Opportunity>, now: int, gen: nat -> string, base: nat): map<string, OpportunityDoc> {
    UpsertAll(ExpireStale(records, now), NewDocs(opps, now, gen, base))
  }

  /** The upserts of `docs`, one after the other. */
  function UpsertAll(records: map<string, OpportunityDoc>, docs: seq<OpportunityDoc>): map<string, OpportunityDoc>
    decreases |docs|
  {
    if docs == [] then records
    else Upsert(UpsertAll(records, docs[..|docs| - 1]), docs[|docs| - 1])
  }

  /** Upserts keep every record under its own id. */
  lemma {:induction false} UpsertAllKeyed(records: map<string, OpportunityDoc>, docs: seq<OpportunityDoc>)
    requires Keyed(records)
    ensures Keyed(UpsertAll(records, docs))
    decreases |docs|
  {
    if docs != [] {
      UpsertAllKeyed(records, docs[..|docs| - 1]);
      UpsertFacts(UpsertAll(records, docs[..|docs| - 1]), docs[|docs| - 1]);
    }
  }

  function IdsOf(docs: seq<OpportunityDoc>): set<string> {
    set j | 0 <= j < |docs| :: docs[j].opportunityId
  }

  predicate DistinctIds(docs: seq<OpportunityDoc>) {
    forall i, j :: 0 <= i < j < |docs| ==> docs[i].opportunityId != docs[j].opportunityId
  }

  ghost predicate DrawnBefore(gen: nat -> string, base: nat, k: string) {
    exists n: nat :: n < base && gen(n) == k
  }

  /**
   * Upserting documents whose ids are distinct and not yet present inserts
   * every one of them: the old records stay as they were, each document sits
   * under its own id, and nothing else is added.
   */
  lemma {:induction false} UpsertAllInserts(records: map<string, OpportunityDoc>, docs: seq<OpportunityDoc>)
    requires DistinctIds(docs)
    requires forall j | 0 <= j < |docs| :: docs[j].opportunityId !in records
    ensures UpsertAll(records, docs).Keys == records.Keys + IdsOf(docs)
    ensures forall k | k in records :: k in UpsertAll(records, docs) && UpsertAll(records, docs)[k] == records[k]
    ensures forall j | 0 <= j < |docs| :: docs[j].opportunityId in UpsertAll(records, docs) && UpsertAll(records, docs)[docs[j].opportunityId] == docs[j]
    ensures |UpsertAll(records, docs)| == |records| + |docs|
    decreases |docs|
  {
    if docs != [] {
      var n := |docs| - 1;
      var p := docs[..n];
      var d := docs[n];
      assert docs == p + [d];
      DistinctPrefix(p, d, records);
      UpsertAllInserts(records, p);
      UpsertAllSnoc(records, p, d);
      InsertLastKeys(records, UpsertAll(records, p), UpsertAll(records, docs), p, d);
      InsertLastValues(records, UpsertAll(records, p), UpsertAll(records, docs), p, d);
    }
  }

  lemma DistinctPrefix(p: seq<OpportunityDoc>, d: OpportunityDoc, records: map<string, OpportunityDoc>)
    requires DistinctIds(p + [d])
    requires forall j | 0 <= j < |p + [d]| :: (p + [d])[j].opportunityId !in records
    ensures DistinctIds(p) && forall j | 0 <= j < |p| :: p[j].opportunityId !in records
    ensures d.opportunityId !in IdsOf(p) && d.opportunityId !in records
  {
    assert forall j | 0 <= j < |p| :: (p + [d])[j] == p[j];
    assert (p + [d])[|p|] == d;
  }

  /** The step of the induction, for the keys: the last document adds one new key. */
  lemma InsertLastKeys(records: map<string, OpportunityDoc>, m: map<string, OpportunityDoc>, r: map<string, OpportunityDoc>,
                       p: seq<OpportunityDoc>, d: OpportunityDoc)
    requires d.opportunityId !in IdsOf(p) && d.opportunityId !in records
    requires m.Keys == records.Keys + IdsOf(p) && |m| == |records| + |p|
    requires r == m[d.opportunityId := d]
    ensures r.Keys == records.Keys + IdsOf(p + [d])
    ensures |r| == |records| + |p + [d]|
  {
    assert d.opportunityId !in m;
    IdsOfSnoc(p, d);
  }

  /** The step of the induction, for the values: the old records and the earlier documents stay put. */
  lemma InsertLastValues(records: map<string, OpportunityDoc>, m: map<string, OpportunityDoc>, r: map<string, OpportunityDoc>,
                         p: seq<OpportunityDoc>, d: OpportunityDoc)
    requires d.opportunityId !in m
    requires forall k | k in records :: k in m && m[k] == records[k]
    requires forall j | 0 <= j < |p| :: p[j].opportunityId in m && m[p[j].opportunityId] == p[j]
    requires r == m[d.opportunityId := d]
    ensures forall k | k in records :: k in r && r[k] == records[k]
    ensures forall j | 0 <= j < |p + [d]| :: (p + [d])[j].opportunityId in r && r[(p + [d])[j].opportunityId] == (p + [d])[j]
  {
    LastLookups(records, m, r, p, d);
  }

  lemma UpsertAllSnoc(records: map<string, OpportunityDoc>, p: seq<OpportunityDoc>, d: OpportunityDoc)
    requires d.opportunityId !in UpsertAll(records, p)
    ensures UpsertAll(records, p + [d]) == UpsertAll(records, p)[d.opportunityId := d]
  {
    assert (p + [d])[..|p|] == p;
  }

  lemma LastLookups(records: map<string, OpportunityDoc>, m: map<string, OpportunityDoc>,
                    r: map<string, OpportunityDoc>, p: seq<OpportunityDoc>, d: OpportunityDoc)
    requires d.opportunityId !in m && r == m[d.opportunityId := d]
    requires forall j | 0 <= j < |p| :: p[j].opportunityId in m && m[p[j].opportunityId] == p[j]
    ensures forall j | 0 <= j < |p + [d]| :: (p + [d])[j].opportunityId in r && r[(p + [d])[j].opportunityId] == (p + [d])[j]
  {
    var docs := p + [d];
    forall j | 0 <= j < |docs| ensures docs[j].opportunityId in r && r[docs[j].opportunityId] == docs[j] {
      if j < |p| {
        assert docs[j] == p[j];
      }
    }
  }

  lemma IdsOfSnoc(p: seq<OpportunityDoc>, d: OpportunityDoc)
    ensures IdsOf(p + [d]) == IdsOf(p) + {d.opportunityId}
  {
    var docs := p + [d];
    assert docs[|p|] == d;
    assert docs[|p|].opportunityId in IdsOf(docs);
    forall j | 0 <= j < |p| ensures docs[j].opportunityId in IdsOf(p) && p[j].opportunityId in IdsOf(docs) {
      assert docs[j] == p[j];
    }
    forall x | x in IdsOf(docs) ensures x in IdsOf(p) + {d.opportunityId} {
      var j :| 0 <= j < |docs| && docs[j].opportunityId == x;
      if j < |p| {
        assert docs[j] == p[j];
      }
    }
  }

  /** The documents built from fresh draws have distinct ids that no existing record uses. */
  lemma NewDocsFresh(opps: seq<Opportunity>, now: int, gen: nat -> string, base: nat, records: map<string, OpportunityDoc>)
    requires Injective(gen)
    requires forall k | k in records :: DrawnBefore(gen, base, k)
    ensures forall j | 0 <= j < |opps| :: NewDocs(opps, now, gen, base)[j].opportunityId == gen(base + 2 * j + 1)
    ensures DistinctIds(NewDocs(opps, now, gen, base))
    ensures forall j | 0 <= j < |opps| :: NewDocs(opps, now, gen, base)[j].opportunityId !in records
  {
    var ds := NewDocs(opps, now, gen, base);
    forall j | 0 <= j < |opps| ensures ds[j].opportunityId == gen(base + 2 * j + 1) {
      assert ds[j] == NewDoc(opps[j], now, gen, base + 2 * j);
    }
    forall j | 0 <= j < |opps| ensures ds[j].opportunityId !in records {
      forall k | k in records ensures k != ds[j].opportunityId {
        var n: nat :| n < base && gen(n) == k;
      }
    }
  }

  /**
   * What one call of `store_arbitrage_opportunities` leaves behind, when the
   * existing ids were all drawn before `base`: the old records, expired where
   * stale, plus each new document under its own fresh id; every id in the
   * result was drawn before the call's last draw.
   */
  lemma StoreInsertsAll(before: map<string, OpportunityDoc>, now: int, opps: seq<Opportunity>, gen: nat -> string, base: nat)
    requires Injective(gen)
    requires forall k | k in before :: DrawnBefore(gen, base, k)
    ensures var docs := NewDocs(opps, now, gen, base);
      var r := Stored(before, opps, now, gen, base);
      r.Keys == before.Keys + IdsOf(docs) &&
      (forall k | k in before :: k in r && r[k] == ExpireStale(before, now)[k]) &&
      (forall j | 0 <= j < |opps| :: docs[j].opportunityId in r && r[docs[j].opportunityId] == docs[j]) &&
      |r| == |before| + |opps|
  {
    var expired := ExpireStale(before, now);
    NewDocsFresh(opps, now, gen, base, expired);
    UpsertAllInserts(expired, NewDocs(opps, now, gen, base));
  }

  /** Every key after the call is an id drawn before the call's last draw. */
  lemma StoreKeysDrawn(before: map<string, OpportunityDoc>, after: map<string, OpportunityDoc>, docs: seq<OpportunityDoc>,
                       now: int, opps: seq<Opportunity>, gen: nat -> string, base: nat)
    requires docs == NewDocs(opps, now, gen, base)
    requires forall k | k in before :: DrawnBefore(gen, base, k)
    requires after.Keys == before.Keys + IdsOf(docs)
    ensures forall k | k in after :: DrawnBefore(gen, base + 2 * |opps|, k)
  {
    forall k | k in after ensures DrawnBefore(gen, base + 2 * |opps|, k) {
      if k in before {
        var n: nat :| n < base && gen(n) == k;
      } else {
        var j :| 0 <= j < |docs| && docs[j].opportunityId == k;
        assert docs[j] == NewDoc(opps[j], now, gen, base + 2 * j);
        assert gen(base + 2 * j + 1) == k;
      }
    }
  }

  /**
   * The collection's invariant survives a store: when every old key is a draw
   * made before `base`, every key afterwards is a draw made before the
   * store's last one, and each record still sits under its own id.
   */
  lemma StoreKeepsIssued(before: map<string, OpportunityDoc>, now: int, opps: seq<Opportunity>,
                         index: string -> nat, gen: nat -> string, base: nat)
    requires Inverts(index, gen) && Keyed(before)
    requires forall k | k in before :: index(k) < base && gen(index(k)) == k
    ensures var r := Stored(before, opps, now, gen, base);
      Keyed(r) && forall k | k in r :: index(k) < base + 2 * |opps| && gen(index(k)) == k
  {
    var expired := ExpireStale(before, now);
    var all := NewDocs(opps, now, gen, base);
    var r := Stored(before, opps, now, gen, base);
    forall k | k in before ensures DrawnBefore(gen, base, k) {
      assert gen(index(k)) == k;
    }
    ExpireStaleFacts(before, now);
    UpsertAllKeyed(expired, all);
    InvertsInjective(index, gen);
    StoreInsertsAll(before, now, opps, gen, base);
    StoreKeysDrawn(before, r, all, now, opps, gen, base);
    forall k | k in r ensures index(k) < base + 2 * |opps| && gen(index(k)) == k {
      var n: nat :| n < base + 2 * |opps| && gen(n) == k;
      assert index(gen(n)) == n;
    }
  }

  function BackfillExact(total: real, profitPercentage: real): real
    requires profitPercentage > 0.0
  {
    var q := profitPercentage / 100.0;
    total * q / (1.0 + q)
  }

  /** `round(total·p/(1+p), 2)` with `p = profit_percentage/100`, or 0 when `p <= 0`. */
  function BackfillFormula(total: real, profitPercentage: real): (p: real)
    ensures profitPercentage <= 0.0 ==> p == 0.0
    ensures profitPercentage > 0.0 ==> Abs(p - BackfillExact(total, profitPercentage)) <= 0.005
  {
    var q := profitPercentage / 100.0;
    if q > 0.0 then
      var exact := BackfillExact(total, profitPercentage);
      var r := Round(exact, 2);
      assert Pow10(2) == 100;
      assert Abs(r - exact) <= 0.5 / 100.0;
      r
    else 0.0
  }

  /** `profit` as reported: the stored value, or the backfill when it is absent or zero. */
  function BackfillProfit(d: OpportunityDoc): (p: real)
    ensures d.profit.Some? && d.profit.value != 0.0 ==> p == d.profit.value
    ensures d.profit.None? || d.profit.value == 0.0 ==> p == BackfillFormula(d.betAmountA + d.betAmountB, d.profitPercentage)
    ensures (d.profit.None? || d.profit.value == 0.0) && d.profitPercentage <= 0.0 ==> p == 0.0
    ensures (d.profit.None? || d.profit.value == 0.0) && d.profitPercentage > 0.0 ==>
      Abs(p - BackfillExact(d.betAmountA + d.betAmountB, d.profitPercentage)) <= 0.005
  {
    if d.profit.None? || d.profit.value == 0.0 then BackfillFormula(d.betAmountA + d.betAmountB, d.profitPercentage)
    else d.profit.value
  }

  /**
   * For an exact hedge at combined price `c` the backfill formula gives the
   * profit scaled by `c`: it is the profit as a share of the payout, not of
   * the stake, so it understates the solver's `total/c − total`.
   */
  lemma BackfillIsPayoutShare(total: real, c: real)
    requires 0.0 < c < 1.0
    ensures var q := Pct(c) / 100.0;
      q > 0.0 && total * q / (1.0 + q) == (total / c - total) * c
  {
    PctPositive(c);
    var q := Pct(c) / 100.0;
    assert q == 1.0 / c - 1.0;
    assert 1.0 + q == 1.0 / c;
    assert (1.0 / c) * c == 1.0;
    assert total * q / (1.0 + q) == total * q * c;
  }

  /** Mongo's `limit(n)`: 0 means no limit and a negative n acts as |n|. */
  function Cap(limit: int, n: nat): (k: nat)
    ensures k <= n
    ensures limit == 0 ==> k == n
    ensures limit != 0 ==> k == if Abs(limit as real) < n as real then Abs(limit as real).Floor else n
  {
    var l := if limit < 0 then -limit else limit;
    if limit == 0 || l > n then n else l
  }

  datatype ActiveOpportunity = ActiveOpportunity(doc: OpportunityDoc, profit: real, expirationDate: int)

  function Docs(r: seq<ActiveOpportunity>): (ds: seq<OpportunityDoc>)
    ensures |ds| == |r| && forall i :: 0 <= i < |r| ==> ds[i] == r[i].doc
  {
    seq(|r|, i requires 0 <= i < |r| => r[i].doc)
  }

  predicate SortedByProfit(docs: seq<OpportunityDoc>) {
    forall i, j :: 0 <= i < j < |docs| ==> docs[i].profitPercentage >= docs[j].profitPercentage
  }

  function CurrentKeys(records: map<string, OpportunityDoc>, now: int): set<string> {
    set k | k in records && IsCurrent(records[k], now)
  }

  /**
   * `docs` is an answer to `find(active, detected_at >= now − 5 min)
   * .sort(profit_percentage, −1).limit(limit)`: distinct current records,
   * best first, as many as the limit allows, and no current record left out
   * beats one returned. Ties may come in any order.
   */
  predicate QueryAnswer(records: map<string, OpportunityDoc>, limit: int, now: int, docs: seq<OpportunityDoc>) {
    var current := CurrentKeys(records, now);
    |docs| == Cap(limit, |current|) &&
    (forall i :: 0 <= i < |docs| ==> docs[i].opportunityId in current && docs[i] == records[docs[i].opportunityId]) &&
    (forall i, j :: 0 <= i < j < |docs| ==> docs[i].opportunityId != docs[j].opportunityId) &&
    SortedByProfit(docs) &&
    forall k | k in current ::
      (exists i :: 0 <= i < |docs| && docs[i].opportunityId == k) ||
      forall i :: 0 <= i < |docs| ==> records[k].profitPercentage <= docs[i].profitPercentage
  }

  class OpportunityCollection {
    var records: map<string, OpportunityDoc>
    const ids: IdSource

    ghost predicate Valid()
      reads this, ids
    {
      ids.Valid() && Keyed(records) && forall k | k in records :: ids.Issued(k)
    }

    /** A collection holding `existing`, whose ids were drawn from the same uuid source. */
    constructor (ids: IdSource, existing: map<string, OpportunityDoc>)
      requires ids.Valid() && Keyed(existing) && forall k | k in existing :: ids.Issued(k)
      ensures Valid() && this.ids == ids && records == existing
    {
      this.ids := ids;
      records := existing;
    }

    /**
     * Expire stale records, then upsert one fresh record per opportunity.
     * Every id is a new draw, so each upsert inserts: the old records change
     * only by expiry and the new ones are exactly the opportunities' documents.
     */
    method StoreArbitrageOpportunities(opps: seq<Opportunity>, now: int)
      requires Valid()
      modifies this, ids
      ensures Valid()
      ensures ids.drawn == old(ids.drawn) + 2 * |opps|
      ensures records == Stored(old(records), opps, now, ids.gen, old(ids.drawn))
    {
      ghost var base := ids.drawn;
      ghost var before := records;
      forall k | k in before ensures ids.index(k) < base && ids.gen(ids.index(k)) == k {
        assert ids.Issued(k);
      }
      StoreKeepsIssued(before, now, opps, ids.index, ids.gen, base);
      records := ExpireStale(records, now);
      InsertAll(opps, now, records, base);
    }

    /** The loop of `store_arbitrage_opportunities`: one new document per opportunity, upserted in order. */
    method InsertAll(opps: seq<Opportunity>, now: int, ghost start: map<string, OpportunityDoc>, ghost base: nat)
      requires ids.Valid() && records == start && ids.drawn == base
      modifies this`records, ids
      ensures ids.Valid() && ids.drawn == base + 2 * |opps|
      ensures records == UpsertAll(start, NewDocs(opps, now, ids.gen, base))
    {
      ghost var all := NewDocs(opps, now, ids.gen, base);
      for i := 0 to |opps|
        invariant ids.Valid() && ids.drawn == base + 2 * i
        invariant records == UpsertAll(start, all[..i])
      {
        var doc := BuildDoc(opps[i], now, base + 2 * i);
        assert all[..i + 1][..i] == all[..i];
        records := Upsert(records, doc);
      }
      assert all[..|opps|] == all;
    }

    /** The document built for one opportunity, from the next two uuid draws. */
    method BuildDoc(o: Opportunity, now: int, ghost n: nat) returns (doc: OpportunityDoc)
      requires ids.Valid() && ids.drawn == n
      modifies ids
      ensures ids.Valid() && ids.drawn == n + 2
      ensures doc == NewDoc(o, now, ids.gen, n)
    {
      var draw1 := ids.Fresh();
      var draw2 := ids.Fresh();
      doc := CreateArbitrageOpportunityDoc(o.eventName, o.platformA, o.alloc.platformAPrice, o.platformB,
                                           o.alloc.platformBPrice, o.alloc.profitPercentage,
                                           o.alloc.betAmountA, o.alloc.betAmountB, None, draw1, draw2, now);
    }

    /**
     * The query `find(active, detected_at >= now − 5 min).sort(profit_percentage, −1).limit(limit)`:
     * distinct current records, best first, as many as the limit allows, and
     * no current record left out beats one returned. Ties come in any order.
     */
    method Query(limit: int, now: int) returns (docs: seq<OpportunityDoc>)
      requires Valid()
      ensures QueryAnswer(records, limit, now, docs)
    {
      var current := CurrentKeys(records, now);
      var n := Cap(limit, |current|);
      var remaining := current;
      docs := [];
      while |docs| < n
        invariant Selecting(records, current, remaining, docs) && |docs| <= n
        decreases n - |docs|
      {
        MaxExists(remaining, records);
        var best :| best in remaining && forall k | k in remaining :: records[k].profitPercentage <= records[best].profitPercentage;
        SelectStep(records, current, remaining, docs, best);
        docs := docs + [records[best]];
        remaining := remaining - {best};
      }
      SelectDone(records, limit, now, remaining, docs);
    }

    /** `get_active_opportunities`: the query's records with `profit` and `expiration_date` filled in. */
    method GetActiveOpportunities(limit: int, now: int) returns (r: seq<ActiveOpportunity>)
      requires Valid()
      ensures QueryAnswer(records, limit, now, Docs(r))
      ensures forall i :: 0 <= i < |r| ==>
        r[i].profit == BackfillProfit(r[i].doc) &&
        r[i].expirationDate == r[i].doc.expirationDate.GetOr(now + DefaultExpiry)
    {
      var docs := Query(limit, now);
      r := [];
      for i := 0 to |docs|
        invariant Docs(r) == docs[..i]
        invariant forall j :: 0 <= j < i ==>
          r[j].profit == BackfillProfit(r[j].doc) && r[j].expirationDate == r[j].doc.expirationDate.GetOr(now + DefaultExpiry)
      {
        var d := docs[i];
        var profit := BackfillProfit(d);
        var expiration := if d.expirationDate.Some? then d.expirationDate.value else now + DefaultExpiry;
        assert docs[..i + 1] == docs[..i] + [d];
        r := r + [ActiveOpportunity(d, profit, expiration)];
      }
      assert docs[..|docs|] == docs;
    }
  }

  /** The selection loop's state: `docs` holds the best of `current − remaining`, in order. */
  predicate Selecting(records: map<string, OpportunityDoc>, current: set<string>, remaining: set<string>, docs: seq<OpportunityDoc>) {
    Keyed(records) && current <= records.Keys && remaining <= current && |docs| + |remaining| == |current| &&
    (forall i :: 0 <= i < |docs| ==> docs[i].opportunityId in current - remaining && docs[i] == records[docs[i].opportunityId]) &&
    (forall k | k in current - remaining :: exists i :: 0 <= i < |docs| && docs[i].opportunityId == k) &&
    (forall i, j :: 0 <= i < j < |docs| ==> docs[i].opportunityId != docs[j].opportunityId) &&
    SortedByProfit(docs) &&
    forall k | k in remaining :: forall i :: 0 <= i < |docs| ==> records[k].profitPercentage <= docs[i].profitPercentage
  }

  /** Taking a best remaining record keeps the selection invariant. */
  lemma SelectStep(records: map<string, OpportunityDoc>, current: set<string>, remaining: set<string>,
                   docs: seq<OpportunityDoc>, best: string)
    requires Selecting(records, current, remaining, docs)
    requires best in remaining
    requires forall k | k in remaining :: records[k].profitPercentage <= records[best].profitPercentage
    ensures Selecting(records, current, remaining - {best}, docs + [records[best]])
  {
    var docs' := docs + [records[best]];
    var remaining' := remaining - {best};
    assert |remaining'| == |remaining| - 1;
    forall i | 0 <= i < |docs'|
      ensures docs'[i].opportunityId in current - remaining' && docs'[i] == records[docs'[i].opportunityId]
    {
      if i == |docs| {
        assert docs'[i] == records[best];
      } else {
        assert docs'[i] == docs[i];
      }
    }
    forall k | k in current - remaining' ensures exists i :: 0 <= i < |docs'| && docs'[i].opportunityId == k {
      if k == best {
        assert docs'[|docs|].opportunityId == k;
      } else {
        assert k in current - remaining;
        var i :| 0 <= i < |docs| && docs[i].opportunityId == k;
        assert docs'[i] == docs[i];
      }
    }
    forall i, j | 0 <= i < j < |docs'| ensures docs'[i].opportunityId != docs'[j].opportunityId {
      if j == |docs| {
        assert docs'[i] == docs[i];
        assert docs[i].opportunityId in current - remaining;
      } else {
        assert docs'[i] == docs[i] && docs'[j] == docs[j];
      }
    }
    forall i, j | 0 <= i < j < |docs'| ensures docs'[i].profitPercentage >= docs'[j].profitPercentage {
      if j == |docs| {
        assert docs'[i] == docs[i];
      } else {
        assert docs'[i] == docs[i] && docs'[j] == docs[j];
      }
    }
    forall k, i | k in remaining' && 0 <= i < |docs'| ensures records[k].profitPercentage <= docs'[i].profitPercentage {
      if i < |docs| {
        assert docs'[i] == docs[i];
      }
    }
  }

  /** Once the limit is reached, the selection is an answer to the query. */
  lemma SelectDone(records: map<string, OpportunityDoc>, limit: int, now: int, remaining: set<string>, docs: seq<OpportunityDoc>)
    requires Selecting(records, CurrentKeys(records, now), remaining, docs)
    requires |docs| == Cap(limit, |CurrentKeys(records, now)|)
    ensures QueryAnswer(records, limit, now, docs)
  {
    var current := CurrentKeys(records, now);
    forall k | k in current
      ensures (exists i :: 0 <= i < |docs| && docs[i].opportunityId == k) ||
              forall i :: 0 <= i < |docs| ==> records[k].profitPercentage <= docs[i].profitPercentage
    {
      if k !in remaining {
        assert k in current - remaining;
      }
    }
  }

  lemma MaxExists(s: set<string>, records: map<string, OpportunityDoc>)
    requires s != {} && s <= records.Keys
    ensures exists b | b in s :: forall k | k in s :: records[k].profitPercentage <= records[b].profitPercentage
  {
    var x :| x in s;
    var rest := s - {x};
    if rest == {} {
      assert s == {x};
      assert forall k | k in s :: k == x;
    } else {
      MaxExists(rest, records);
      var b :| b in rest && forall k | k in rest :: records[k].profitPercentage <= records[b].profitPercentage;
      var best := if records[x].profitPercentage > records[b].profitPercentage then x else b;
      assert forall k | k in s :: k == x || k in rest;
      assert best in s && forall k | k in s :: records[k].profitPercentage <= records[best].profitPercentage;
    }
  }
}
