/**
 * `find_arbitrage_opportunities`: Polymarket and Kalshi quotes are joined on
 * their normalised event names, each matched pair is run through the solver,
 * and the profitable results are labelled with the venue of each leg.
 */
module Matcher {
  import opened Wrappers
  import opened Text
  import opened Numeric
  import opened Solver
  import opened Models

  /** One venue's quote for a binary market. */
  datatype Quote = Quote(marketId: string, eventName: string, yesPrice: real, noPrice: real)

  /** A detected opportunity: the solver's allocation with venues on its yes (A) and no (B) legs. */
  datatype Opportunity = Opportunity(eventName: string, platformA: Venue, platformB: Venue, alloc: Allocation)

  /**
   * `name.lower().strip().replace("'", "").replace('"', "")`: the lower-cased,
   * stripped name with every straight quote removed and every other
   * character kept as often as it occurs.
   */
  function NormalizeName(name: string): (r: string)
    ensures Lacks(r, '\'') && Lacks(r, '"')
    ensures forall i :: 0 <= i < |r| ==> !IsUpper(r[i])
    ensures forall x :: x != '\'' && x != '"' ==> multiset(r)[x] == multiset(Strip(Lower(name)))[x]
  {
    var l := Lower(name);
    var t := Strip(l);
    StripKeepsLower(l);
    var r := Delete(Delete(t, '\''), '"');
    DeleteKeepsChars(t, '\'');
    DeleteKeepsChars(Delete(t, '\''), '"');
    r
  }

  lemma StripKeepsLower(l: string)
    requires forall i :: 0 <= i < |l| ==> !IsUpper(l[i])
    ensures forall i :: 0 <= i < |Strip(l)| ==> !IsUpper(Strip(l)[i])
  {
    var s := TrimStart(l);
    TrimStartFacts(l);
    TrimEndFacts(s);
    forall i | 0 <= i < |s| ensures !IsUpper(s[i]) {
      assert s[i] == l[|l| - |s| + i];
    }
  }

  lemma {:induction false} DeleteKeepsChars(s: string, c: char)
    ensures forall i :: 0 <= i < |Delete(s, c)| ==> Delete(s, c)[i] in s
  {
    if s != [] {
      DeleteKeepsChars(s[1..], c);
      forall i | 0 <= i < |Delete(s, c)| ensures Delete(s, c)[i] in s {
        if s[0] != c && i == 0 {
        } else {
          var k := if s[0] == c then i else i - 1;
          assert Delete(s, c)[i] == Delete(s[1..], c)[k];
          assert Delete(s[1..], c)[k] in s[1..];
        }
      }
    }
  }

  /** Case never matters for matching. */
  lemma NormalizeIgnoresCase(name: string)
    ensures NormalizeName(Lower(name)) == NormalizeName(name)
  {
    LowerIdempotent(name);
  }

  /** Lower-casing keeps a non-space character non-space. */
  lemma LowerHasNonSpace(s: string)
    requires HasNonSpace(s)
    ensures HasNonSpace(Lower(s))
  {
    var i :| 0 <= i < |s| && !IsSpace(s[i]);
    assert Lower(s)[i] == LowerChar(s[i]);
  }

  /**
   * A straight quote between two parts that each hold a non-space character
   * never matters for matching. (A quote next to the surrounding whitespace
   * can: stripping comes before deleting, so "' x" normalises to " x".)
   */
  lemma NormalizeIgnoresQuote(a: string, q: char, b: string)
    requires q == '\'' || q == '"'
    requires HasNonSpace(a) && HasNonSpace(b)
    ensures NormalizeName(a + [q] + b) == NormalizeName(a + b)
  {
    var la, lb := Lower(a), Lower(b);
    assert Lower(a + [q] + b) == la + [q] + lb by {
      LowerAppend(a + [q], b);
      LowerAppend(a, [q]);
      assert Lower([q]) == [q];
    }
    assert Lower(a + b) == la + [] + lb by {
      LowerAppend(a, b);
      assert la + [] + lb == la + lb;
    }
    LowerHasNonSpace(a);
    LowerHasNonSpace(b);
    StripAround(la, [q], lb);
    StripAround(la, [], lb);
    var p, t := TrimStart(la), TrimEnd(lb);
    assert p + [] + t == p + t;
    DeleteQuoteBetween(p, q, t);
  }

  /** Deleting both kinds of quote removes a quote between two parts and keeps the parts in place. */
  lemma DeleteQuoteBetween(p: string, q: char, t: string)
    requires q == '\'' || q == '"'
    ensures Delete(Delete(p + [q] + t, '\''), '"') == Delete(Delete(p + t, '\''), '"')
  {
    DeleteSplits(p, q, t, '\'');
    DeleteAppend(p, t, '\'');
    var dp, dt := Delete(p, '\''), Delete(t, '\'');
    if q == '"' {
      assert Delete(p + [q] + t, '\'') == dp + [q] + dt;
      DeleteSplits(dp, q, dt, '"');
      DeleteAppend(dp, dt, '"');
    } else {
      assert Delete(p + [q] + t, '\'') == dp + dt by {
        assert dp + [] + dt == dp + dt;
      }
    }
  }

  function Key(q: Quote): string {
    NormalizeName(q.eventName)
  }

  /** A dict built from key/value pairs in order: one entry per key, the last pair wins. */
  function Index(keys: seq<string>, vals: seq<Quote>): (m: map<string, Quote>)
    requires |keys| == |vals|
    ensures forall n :: n in m <==> n in keys
  {
    if keys == [] then map[]
    else Index(keys[..|keys| - 1], vals[..|vals| - 1])[keys[|keys| - 1] := vals[|vals| - 1]]
  }

  lemma {:induction false} IndexLastWins(keys: seq<string>, vals: seq<Quote>, n: string)
    requires |keys| == |vals| && n in Index(keys, vals)
    ensures exists i | 0 <= i < |keys| ::
      vals[i] == Index(keys, vals)[n] && keys[i] == n && (forall j | i < j < |keys| :: keys[j] != n)
  {
    var last := |keys| - 1;
    var m := Index(keys, vals);
    var ki, vi := keys[..last], vals[..last];
    var m0 := Index(ki, vi);
    assert m == m0[keys[last] := vals[last]];
    if keys[last] != n {
      assert n in m0 && m[n] == m0[n];
      IndexLastWins(ki, vi, n);
      var i :| 0 <= i < |ki| && vi[i] == m0[n] && ki[i] == n && (forall j | i < j < |ki| :: ki[j] != n);
      assert vals[i] == vi[i] && keys[i] == ki[i];
      forall j | i < j < |keys| ensures keys[j] != n {
        if j < last { assert keys[j] == ki[j]; }
      }
    } else {
      assert vals[last] == m[n];
    }
  }

  function Names(ks: seq<Quote>): (r: seq<string>)
    ensures |r| == |ks| && forall i :: 0 <= i < |ks| ==> r[i] == Key(ks[i])
  {
    seq(|ks|, i requires 0 <= i < |ks| => Key(ks[i]))
  }

  /** `{normalize_name(p["event_name"]): p for p in kalshi_prices}`. */
  function Lookup(ks: seq<Quote>): map<string, Quote> {
    Index(Names(ks), ks)
  }

  /**
   * The lookup has an entry for exactly the normalised names of the Kalshi
   * quotes, and the entry for a name is the last quote carrying it.
   */
  lemma LookupLastWins(ks: seq<Quote>, n: string)
    ensures n in Lookup(ks) <==> exists i | 0 <= i < |ks| :: Key(ks[i]) == n
    ensures n in Lookup(ks) ==> exists i | 0 <= i < |ks| ::
      ks[i] == Lookup(ks)[n] && Key(ks[i]) == n && (forall j | i < j < |ks| :: Key(ks[j]) != n)
  {
    var names := Names(ks);
    if n in Lookup(ks) {
      IndexLastWins(names, ks, n);
    }
  }

  /** Direction 1 was chosen: yes on Polymarket, no on Kalshi. */
  predicate PolymarketYes(pm: Quote, k: Quote)
    requires pm.yesPrice + k.noPrice != 0.0 && k.yesPrice + pm.noPrice != 0.0
  {
    FirstDirectionWins(pm.yesPrice, k.noPrice, k.yesPrice, pm.noPrice)
  }

  /** The venues of the yes and no legs, read off the direction the solver took. */
  function Relabel(pm: Quote, k: Quote): (r: (Venue, Venue))
    requires pm.yesPrice + k.noPrice != 0.0 && k.yesPrice + pm.noPrice != 0.0
    ensures r.0 != r.1
    ensures r.0 == Polymarket <==> PolymarketYes(pm, k)
  {
    if PolymarketYes(pm, k) then (Polymarket, Kalshi) else (Kalshi, Polymarket)
  }

  /** The relabelling as written: direction 1 is assumed when the yes price is within 0.001 of Polymarket's. */
  function RelabelAsWritten(pm: Quote, a: Allocation): (r: (Venue, Venue))
    ensures r.0 != r.1
    ensures r.0 == Polymarket <==> Abs(a.platformAPrice - pm.yesPrice) < 0.001
  {
    if Abs(a.platformAPrice - pm.yesPrice) < 0.001 then (Polymarket, Kalshi) else (Kalshi, Polymarket)
  }

  function YesQuote(v: Venue, pm: Quote, k: Quote): real {
    if v == Polymarket then pm.yesPrice else k.yesPrice
  }

  function NoQuote(v: Venue, pm: Quote, k: Quote): real {
    if v == Polymarket then pm.noPrice else k.noPrice
  }

  function Solve(pm: Quote, k: Quote): Result<Option<Allocation>, SolverError> {
    CalculateArbitrage(pm.yesPrice, k.noPrice, k.yesPrice, pm.noPrice, DefaultInvestment)
  }

  /** The corrected labels name the venues whose quotes the allocation actually uses. */
  lemma RelabelNamesQuotedVenues(pm: Quote, k: Quote)
    requires Solve(pm, k).Success? && Solve(pm, k).value.Some?
    ensures var a := Solve(pm, k).value.value;
      var (va, vb) := Relabel(pm, k);
      YesQuote(va, pm, k) == a.platformAPrice && NoQuote(vb, pm, k) == a.platformBPrice
  {
  }

  /**
   * The written relabelling agrees with the corrected one except when the
   * solver took direction 2 and the venues' yes prices are within 0.001.
   */
  lemma RelabelAgreement(pm: Quote, k: Quote)
    requires Solve(pm, k).Success? && Solve(pm, k).value.Some?
    ensures RelabelAsWritten(pm, Solve(pm, k).value.value) == Relabel(pm, k) <==>
      PolymarketYes(pm, k) || Abs(k.yesPrice - pm.yesPrice) >= 0.001
  {
  }

  /**
   * Normalised quotes PM 0.5005/0.4995 and Kalshi 0.4999/0.5001: only yes on
   * Kalshi with no on Polymarket is a hedge, yet the written check labels the
   * yes leg Polymarket and the no leg Kalshi, whose no price is 0.5001 and
   * not the 0.4995 the allocation was sized with.
   */
  lemma RelabelMislabels()
    ensures var pm := Quote("pm", "e", 0.5005, 0.4995);
      var k := Quote("k", "e", 0.4999, 0.5001);
      var r := Solve(pm, k);
      r.Success? && r.value.Some? && !PolymarketYes(pm, k) &&
      RelabelAsWritten(pm, r.value.value) == (Polymarket, Kalshi) &&
      NoQuote(Kalshi, pm, k) != r.value.value.platformBPrice
  {
    var pm := Quote("pm", "e", 0.5005, 0.4995);
    var k := Quote("k", "e", 0.4999, 0.5001);
    ChoiceByCombinedPrice(pm.yesPrice, k.noPrice, k.yesPrice, pm.noPrice);
  }

  /** One Polymarket record: its Kalshi partner, the solver, the `profit_percentage > 0` filter and the labels. */
  function MatchOne(pm: Quote, lookup: map<string, Quote>): (r: Result<Option<Opportunity>, SolverError>)
    ensures Key(pm) !in lookup ==> r == Success(None)
    ensures r.Failure? <==> Key(pm) in lookup && Solve(pm, lookup[Key(pm)]).Failure?
    ensures r.Success? && r.value.Some? ==>
      var o := r.value.value;
      var k := lookup[Key(pm)];
      Key(pm) in lookup && o.eventName == pm.eventName &&
      Solve(pm, k) == Success(Some(o.alloc)) && o.alloc.profitPercentage > 0.0 &&
      YesQuote(o.platformA, pm, k) == o.alloc.platformAPrice && NoQuote(o.platformB, pm, k) == o.alloc.platformBPrice &&
      (o.platformA, o.platformB) == Relabel(pm, k)
    ensures (Key(pm) in lookup && Solve(pm, lookup[Key(pm)]).Success? && Solve(pm, lookup[Key(pm)]).value.Some? &&
             Solve(pm, lookup[Key(pm)]).value.value.profitPercentage > 0.0) ==> r.Success? && r.value.Some?
  {
    var n := Key(pm);
    if n !in lookup then Success(None)
    else
      var k := lookup[n];
      var s := Solve(pm, k);
      if s.Failure? then Failure(s.error)
      else if s.value.None? then Success(None)
      else
        var a := s.value.value;
        if a.profitPercentage > 0.0 then
          RelabelNamesQuotedVenues(pm, k);
          var (va, vb) := Relabel(pm, k);
          Success(Some(Opportunity(pm.eventName, va, vb, a)))
        else Success(None)
  }

  /**
   * One Polymarket record with the venue labels of the written 0.001 test:
   * the same partner, solver call and profit filter as `MatchOne`.
   */
  function MatchOneAsWritten(pm: Quote, lookup: map<string, Quote>): (r: Result<Option<Opportunity>, SolverError>)
    ensures Key(pm) !in lookup ==> r == Success(None)
    ensures r.Failure? <==> Key(pm) in lookup && Solve(pm, lookup[Key(pm)]).Failure?
    ensures r.Success? && r.value.Some? <==>
      Key(pm) in lookup && Solve(pm, lookup[Key(pm)]).Success? && Solve(pm, lookup[Key(pm)]).value.Some? &&
      Solve(pm, lookup[Key(pm)]).value.value.profitPercentage > 0.0
    ensures r.Success? && r.value.Some? ==>
      var o := r.value.value;
      o.eventName == pm.eventName && Solve(pm, lookup[Key(pm)]) == Success(Some(o.alloc)) &&
      (o.platformA, o.platformB) == RelabelAsWritten(pm, o.alloc)
  {
    var n := Key(pm);
    if n !in lookup then Success(None)
    else
      var k := lookup[n];
      var s := Solve(pm, k);
      if s.Failure? then Failure(s.error)
      else if s.value.None? then Success(None)
      else
        var a := s.value.value;
        if a.profitPercentage > 0.0 then
          var (va, vb) := RelabelAsWritten(pm, a);
          Success(Some(Opportunity(pm.eventName, va, vb, a)))
        else Success(None)
  }

  /**
   * The written and the corrected matching of a record differ exactly when
   * it yields an opportunity for which the solver took direction 2 while the
   * two yes prices lie within 0.001 of each other.
   */
  lemma MatchOneAgreement(pm: Quote, lookup: map<string, Quote>)
    ensures MatchOneAsWritten(pm, lookup) != MatchOne(pm, lookup) <==>
      Key(pm) in lookup && Solve(pm, lookup[Key(pm)]).Success? && Solve(pm, lookup[Key(pm)]).value.Some? &&
      Solve(pm, lookup[Key(pm)]).value.value.profitPercentage > 0.0 &&
      !PolymarketYes(pm, lookup[Key(pm)]) && Abs(lookup[Key(pm)].yesPrice - pm.yesPrice) < 0.001
  {
    if Key(pm) in lookup {
      var k := lookup[Key(pm)];
      var s := Solve(pm, k);
      if s.Success? && s.value.Some? && s.value.value.profitPercentage > 0.0 {
        RelabelAgreement(pm, k);
      }
    }
  }

  /** What each Polymarket record yields, in order. */
  function Outcomes(pms: seq<Quote>, lookup: map<string, Quote>): (r: seq<Result<Option<Opportunity>, SolverError>>)
    ensures |r| == |pms| && forall i :: 0 <= i < |pms| ==> r[i] == MatchOne(pms[i], lookup)
  {
    seq(|pms|, i requires 0 <= i < |pms| => MatchOne(pms[i], lookup))
  }

  /** The loop's meaning: the yielded opportunities in order, or the first solver failure. */
  function Collect(rs: seq<Result<Option<Opportunity>, SolverError>>): (r: Result<seq<Opportunity>, SolverError>)
    ensures r.Failure? <==> exists i | 0 <= i < |rs| :: rs[i].Failure?
    ensures r.Success? ==> |r.value| <= |rs|
  {
    if rs == [] then Success([])
    else
      var init := rs[..|rs| - 1];
      assert forall i | 0 <= i < |init| :: init[i] == rs[i];
      var prev := Collect(init);
      var m := rs[|rs| - 1];
      if prev.Failure? then prev
      else if m.Failure? then Failure(m.error)
      else if m.value.Some? then Success(prev.value + [m.value.value])
      else prev
  }

  /** Indices of the results that are an opportunity, in increasing order. */
  function Picked(rs: seq<Result<Option<Opportunity>, SolverError>>): (idx: seq<nat>)
    ensures forall j :: 0 <= j < |idx| ==> idx[j] < |rs|
    ensures forall j, j' :: 0 <= j < j' < |idx| ==> idx[j] < idx[j']
    ensures forall i :: 0 <= i < |rs| ==> (i in idx <==> rs[i].Success? && rs[i].value.Some?)
  {
    if rs == [] then []
    else
      var init := rs[..|rs| - 1];
      assert forall i | 0 <= i < |init| :: init[i] == rs[i];
      var m := rs[|rs| - 1];
      if m.Success? && m.value.Some? then Picked(init) + [|rs| - 1] else Picked(init)
  }

  /** A successful run holds exactly one entry per opportunity-yielding result, in input order. */
  lemma {:induction false} CollectFollowsInput(rs: seq<Result<Option<Opportunity>, SolverError>>)
    requires Collect(rs).Success?
    ensures var os := Collect(rs).value;
      var idx := Picked(rs);
      |os| == |idx| && forall j :: 0 <= j < |os| ==> rs[idx[j]] == Success(Some(os[j]))
  {
    if rs != [] {
      var init := rs[..|rs| - 1];
      assert forall i | 0 <= i < |init| :: init[i] == rs[i];
      CollectFollowsInput(init);
    }
  }

  function Matches(pms: seq<Quote>, lookup: map<string, Quote>): Result<seq<Opportunity>, SolverError> {
    Collect(Outcomes(pms, lookup))
  }

  /**
   * A run fails exactly when the solver fails on some matched pair; otherwise
   * its j-th opportunity is what the Picked[j]-th Polymarket record yields, so
   * there is at most one per record and they keep the input order.
   */
  lemma MatchesFollowInput(pms: seq<Quote>, lookup: map<string, Quote>)
    ensures Matches(pms, lookup).Failure? <==> exists i | 0 <= i < |pms| :: MatchOne(pms[i], lookup).Failure?
    ensures Matches(pms, lookup).Success? ==>
      var os := Matches(pms, lookup).value;
      var idx := Picked(Outcomes(pms, lookup));
      |os| == |idx| && forall j :: 0 <= j < |os| ==> MatchOne(pms[idx[j]], lookup) == Success(Some(os[j]))
  {
    var rs := Outcomes(pms, lookup);
    if Collect(rs).Success? {
      CollectFollowsInput(rs);
    }
    assert (exists i | 0 <= i < |rs| :: rs[i].Failure?) <==> exists i | 0 <= i < |pms| :: MatchOne(pms[i], lookup).Failure?;
  }

  /** Every opportunity found is profitable and carries the Polymarket record's original event name. */
  lemma MatchesSound(pms: seq<Quote>, lookup: map<string, Quote>)
    requires Matches(pms, lookup).Success?
    ensures forall o | o in Matches(pms, lookup).value ::
      o.alloc.profitPercentage > 0.0 && exists i | 0 <= i < |pms| :: pms[i].eventName == o.eventName
  {
    var os := Matches(pms, lookup).value;
    var idx := Picked(Outcomes(pms, lookup));
    MatchesFollowInput(pms, lookup);
    forall o | o in os ensures o.alloc.profitPercentage > 0.0 && exists i | 0 <= i < |pms| :: pms[i].eventName == o.eventName {
      var j :| 0 <= j < |os| && os[j] == o;
      assert MatchOne(pms[idx[j]], lookup) == Success(Some(o));
    }
  }

  lemma CollectFailsAt(rs: seq<Result<Option<Opportunity>, SolverError>>, i: nat)
    requires i < |rs| && rs[i].Failure?
    ensures Collect(rs) == Failure(DivisionByZero)
  {
    assert Collect(rs).Failure?;
    match Collect(rs).error
    case DivisionByZero =>
  }

  lemma CollectStep(rs: seq<Result<Option<Opportunity>, SolverError>>, i: nat, found: seq<Opportunity>)
    requires i < |rs| && Collect(rs[..i]) == Success(found) && rs[i].Success?
    ensures Collect(rs[..i + 1]) == Success(if rs[i].value.Some? then found + [rs[i].value.value] else found)
  {
    assert rs[..i + 1][..i] == rs[..i];
  }

  lemma OutcomeAt(pms: seq<Quote>, lookup: map<string, Quote>, i: nat)
    requires i < |pms|
    ensures Outcomes(pms, lookup)[i] == MatchOne(pms[i], lookup)
  {
  }

  method FindArbitrageOpportunities(pms: seq<Quote>, ks: seq<Quote>) returns (r: Result<seq<Opportunity>, SolverError>)
    ensures r == Matches(pms, Lookup(ks))
  {
    var lookup := Lookup(ks);
    ghost var rs := Outcomes(pms, lookup);
    var opportunities: seq<Opportunity> := [];
    for i := 0 to |pms|
      invariant Collect(rs[..i]) == Success(opportunities)
    {
      var m := MatchOne(pms[i], lookup);
      OutcomeAt(pms, lookup, i);
      if m.Failure? {
        CollectFailsAt(rs, i);
        return Failure(m.error);
      }
      CollectStep(rs, i, opportunities);
      if m.value.Some? {
        opportunities := opportunities + [m.value.value];
      }
    }
    assert rs[..|pms|] == rs;
    return Success(opportunities);
  }
}
