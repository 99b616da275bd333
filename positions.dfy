/**
 * Multi-day position tracking: the `positions`, `task_log` and
 * `market_type_performance` collections and the `PositionManager` operations
 * over them. A position is `watching` when created, `entered` once orders are
 * placed, and `expired` once its market's expiration date has passed.
 */
module Positions {
  import opened Wrappers
  import opened Text
  import opened Categorize
  import opened Models
  import opened Ids

  /** The expiration given to a position whose opportunity carries none: thirty days ahead. */
  const DefaultHorizon: int := 30 * 24 * 60 * 60
  const SecondsPerDay: int := 24 * 60 * 60
  const SecondsPerHour: int := 60 * 60

  /** The fields `create_position_from_opportunity` reads from an opportunity; `profit` and `expirationDate` may be absent. */
  datatype PositionRequest = PositionRequest(
    eventName: string,
    platformA: Venue,
    platformB: Venue,
    betAmountA: real,
    betAmountB: real,
    platformAPrice: real,
    platformBPrice: real,
    profit: Option<real>,
    expirationDate: Option<int>)

  /** The `position_id` unique index. */
  predicate DistinctPositionIds(ps: seq<PositionDoc>) {
    forall i, j :: 0 <= i < j < |ps| ==> ps[i].positionId != ps[j].positionId
  }

  /** `find_one({"position_id": id})` in natural order: the index of the first match. */
  function Find(ps: seq<PositionDoc>, id: string): (r: Option<nat>)
    ensures r.Some? ==> r.value < |ps| && ps[r.value].positionId == id
    ensures r.Some? ==> forall j :: 0 <= j < r.value ==> ps[j].positionId != id
    ensures r.None? <==> forall j :: 0 <= j < |ps| ==> ps[j].positionId != id
  {
    if ps == [] then None
    else if ps[0].positionId == id then Some(0)
    else match Find(ps[1..], id)
      case None => None
      case Some(k) => Some(k + 1)
  }

  /** Under the unique index, a position's own id finds that position. */
  lemma FindUnique(ps: seq<PositionDoc>, i: nat)
    requires DistinctPositionIds(ps) && i < |ps|
    ensures Find(ps, ps[i].positionId) == Some(i)
  {
    var r := Find(ps, ps[i].positionId);
    assert r.Some?;
  }

  /** `expiration_date` as stored: the given one, even if already past, or thirty days from `now`. */
  function ExpirationFor(given: Option<int>, now: int): (e: int)
    ensures given.Some? ==> e == given.value
    ensures given.None? ==> e == now + DefaultHorizon
  {
    match given
    case Some(d) => d
    case None => now + DefaultHorizon
  }

  /** The position `create_position_from_opportunity` builds, with uuid draws `gen(base)` and `gen(base + 1)`. */
  function NewPosition(req: PositionRequest, now: int, gen: nat -> string, base: nat): PositionDoc {
    CreatePositionDoc(req.eventName, req.platformA, req.platformB, req.betAmountA, req.betAmountB,
                      req.platformAPrice, req.platformBPrice, req.profit.GetOr(0.0),
                      ExpirationFor(req.expirationDate, now), CategorizeEvent(req.eventName),
                      None, gen(base), gen(base + 1), now)
  }

  /**
   * A new position is watching and unresolved, classified by its event name,
   * targets the opportunity's profit (0 when absent), and expires when the
   * opportunity says or thirty days on.
   */
  lemma NewPositionFacts(req: PositionRequest, now: int, gen: nat -> string, base: nat)
    ensures var p := NewPosition(req, now, gen, base);
      p.positionId == gen(base + 1) && p.docId == gen(base) &&
      p.state == Watching && p.daysHeld == 0 && p.actualProfit.None? && p.resolvedAt.None? &&
      p.createdAt == now && p.lastChecked == now &&
      p.marketType == CategorizeEvent(req.eventName) &&
      p.targetProfit == (if req.profit.Some? then req.profit.value else 0.0) &&
      p.expirationDate == Some(if req.expirationDate.Some? then req.expirationDate.value else now + DefaultHorizon) &&
      p.eventName == req.eventName && p.platformA == req.platformA && p.platformB == req.platformB &&
      p.amountBetA == req.betAmountA && p.amountBetB == req.betAmountB &&
      p.entryPriceA == req.platformAPrice && p.entryPriceB == req.platformBPrice
  {
  }

  /** The `$set` of `update_position_state`: state and check time always, profit and resolution time only with a profit. */
  function Updated(p: PositionDoc, st: PositionState, actualProfit: Option<real>, now: int): (q: PositionDoc)
    ensures q.state == st && q.lastChecked == now
    ensures actualProfit.Some? ==> q.actualProfit == actualProfit && q.resolvedAt == Some(now)
    ensures actualProfit.None? ==> q.actualProfit == p.actualProfit && q.resolvedAt == p.resolvedAt
    ensures q.(state := p.state, lastChecked := p.lastChecked, actualProfit := p.actualProfit, resolvedAt := p.resolvedAt) == p
  {
    match actualProfit
    case Some(a) => p.(state := st, lastChecked := now, actualProfit := Some(a), resolvedAt := Some(now))
    case None => p.(state := st, lastChecked := now)
  }

  /** `update_one({"position_id": id}, {"$set": ...})`: the first match is updated; with no match nothing is. */
  function SetState(ps: seq<PositionDoc>, id: string, st: PositionState, actualProfit: Option<real>, now: int): (r: seq<PositionDoc>)
    ensures |r| == |ps| && forall i :: 0 <= i < |ps| ==> r[i].positionId == ps[i].positionId
    ensures Find(ps, id).None? ==> r == ps
    ensures Find(ps, id).Some? ==> r == ps[Find(ps, id).value := Updated(ps[Find(ps, id).value], st, actualProfit, now)]
  {
    match Find(ps, id)
    case None => ps
    case Some(i) => ps[i := Updated(ps[i], st, actualProfit, now)]
  }

  /** A position whose market has closed: it has an expiration date and `now` is strictly past it. */
  predicate Expiring(p: PositionDoc, now: int) {
    p.expirationDate.Some? && now > p.expirationDate.value
  }

  /** The resolution `monitor_positions` simulates: the target profit scaled by the drawn factor. */
  function SimulatedProfit(p: PositionDoc, factor: real): real {
    p.targetProfit * factor
  }

  /** What one `monitor_positions` pass does to one position, with `factor` the draw of `uniform(0.8, 1.2)` for it. */
  function MonitorOne(p: PositionDoc, now: int, factor: real): (q: PositionDoc)
    ensures q.positionId == p.positionId
    ensures !p.state.IsOpen() ==> q == p
    ensures p.state.IsOpen() && Expiring(p, now) ==>
      q == Updated(p, PositionState.Expired, Some(SimulatedProfit(p, factor)), now)
    ensures p.state.IsOpen() && !Expiring(p, now) ==> q == p.(lastChecked := now)
  {
    if !p.state.IsOpen() then p
    else if Expiring(p, now) then Updated(p, PositionState.Expired, Some(SimulatedProfit(p, factor)), now)
    else p.(lastChecked := now)
  }

  /** The whole pass: every position as `MonitorOne` leaves it. */
  function MonitorAll(ps: seq<PositionDoc>, now: int, factor: string -> real): (r: seq<PositionDoc>)
    ensures |r| == |ps|
    ensures forall i :: 0 <= i < |ps| ==> r[i] == MonitorOne(ps[i], now, factor(ps[i].positionId))
  {
    seq(|ps|, i requires 0 <= i < |ps| => MonitorOne(ps[i], now, factor(ps[i].positionId)))
  }

  /** Loop state of a `monitor_positions` pass: the first `i` positions are done and the rest untouched. */
  ghost predicate MonitorProgress(ps0: seq<PositionDoc>, ps: seq<PositionDoc>, i: nat, now: int, factor: string -> real) {
    |ps| == |ps0| && i <= |ps0|
    && (forall j :: 0 <= j < i ==> ps[j] == MonitorOne(ps0[j], now, factor(ps0[j].positionId)))
    && (forall j :: i <= j < |ps0| ==> ps[j] == ps0[j])
  }

  lemma MonitorStep(ps0: seq<PositionDoc>, ps: seq<PositionDoc>, i: nat, now: int, factor: string -> real)
    requires MonitorProgress(ps0, ps, i, now, factor) && i < |ps0|
    ensures MonitorProgress(ps0, ps[i := MonitorOne(ps[i], now, factor(ps[i].positionId))], i + 1, now, factor)
  {
  }

  /** Resolving an expiring open position through `SetState` is what `MonitorOne` does to it. */
  lemma ExpireAt(ps: seq<PositionDoc>, i: nat, now: int, factor: real)
    requires DistinctPositionIds(ps) && i < |ps| && ps[i].state.IsOpen() && Expiring(ps[i], now)
    ensures SetState(ps, ps[i].positionId, PositionState.Expired, Some(SimulatedProfit(ps[i], factor)), now)
            == ps[i := MonitorOne(ps[i], now, factor)]
  {
    FindUnique(ps, i);
    MonitorOneExpires(ps[i], now, factor);
  }

  lemma MonitorOneExpires(p: PositionDoc, now: int, factor: real)
    requires p.state.IsOpen() && Expiring(p, now)
    ensures MonitorOne(p, now, factor) == Updated(p, PositionState.Expired, Some(SimulatedProfit(p, factor)), now)
  {
  }

  lemma MonitorDone(ps0: seq<PositionDoc>, ps: seq<PositionDoc>, now: int, factor: string -> real)
    requires MonitorProgress(ps0, ps, |ps0|, now, factor)
    ensures ps == MonitorAll(ps0, now, factor)
  {
  }

  predicate ExpiresNow(p: PositionDoc, now: int) {
    p.state.IsOpen() && Expiring(p, now)
  }

  /** How many open positions have passed their expiration date. */
  function CountExpiring(ps: seq<PositionDoc>, now: int): (n: nat)
    ensures n <= |ps|
    ensures n == 0 <==> forall i :: 0 <= i < |ps| ==> !ExpiresNow(ps[i], now)
  {
    if ps == [] then 0
    else CountExpiring(ps[..|ps| - 1], now) + (if ExpiresNow(ps[|ps| - 1], now) then 1 else 0)
  }

  lemma CountExpiringStep(ps: seq<PositionDoc>, i: nat, now: int)
    requires i < |ps|
    ensures CountExpiring(ps[..i + 1], now) == CountExpiring(ps[..i], now) + (if ExpiresNow(ps[i], now) then 1 else 0)
  {
    assert ps[..i + 1][..i] == ps[..i];
  }

  /**
   * A position changes state in the pass exactly when it was open and past
   * its expiration date; it then becomes expired, resolved at `now`, with a
   * profit between 0.8 and 1.2 times its target.
   */
  lemma MonitorExpiresExactly(ps: seq<PositionDoc>, now: int, factor: string -> real, i: nat)
    requires i < |ps|
    requires 0.8 <= factor(ps[i].positionId) <= 1.2
    ensures MonitorAll(ps, now, factor)[i].state != ps[i].state <==> ExpiresNow(ps[i], now)
    ensures ExpiresNow(ps[i], now) ==>
      var q := MonitorAll(ps, now, factor)[i];
      var t := ps[i].targetProfit;
      q.state == PositionState.Expired && q.resolvedAt == Some(now) && q.actualProfit.Some? &&
      (t >= 0.0 ==> 0.8 * t <= q.actualProfit.value <= 1.2 * t) &&
      (t < 0.0 ==> 1.2 * t <= q.actualProfit.value <= 0.8 * t)
  {
    var f := factor(ps[i].positionId);
    var q := MonitorAll(ps, now, factor)[i];
    assert q == MonitorOne(ps[i], now, f);
    if ExpiresNow(ps[i], now) {
      MonitorOneExpires(ps[i], now, f);
      assert q.actualProfit == Some(SimulatedProfit(ps[i], f));
      ScaledBetween(ps[i].targetProfit, f);
    }
  }

  lemma ScaledBetween(t: real, f: real)
    requires 0.8 <= f <= 1.2
    ensures t >= 0.0 ==> 0.8 * t <= t * f <= 1.2 * t
    ensures t < 0.0 ==> 1.2 * t <= t * f <= 0.8 * t
  {
    if t >= 0.0 {
      assert 0.8 * t <= t * f <= 1.2 * t;
    } else {
      assert 1.2 * t <= t * f <= 0.8 * t;
    }
  }

  /** Terminal positions (expired, profitable, loss) are never touched, and no position changes id. */
  lemma MonitorKeepsTerminal(ps: seq<PositionDoc>, now: int, factor: string -> real)
    ensures forall i :: 0 <= i < |ps| && !ps[i].state.IsOpen() ==> MonitorAll(ps, now, factor)[i] == ps[i]
    ensures forall i :: 0 <= i < |ps| ==> MonitorAll(ps, now, factor)[i].positionId == ps[i].positionId
  {
  }

  /** A second pass at the same time finds nothing left to expire and changes nothing. */
  lemma MonitorIdempotent(ps: seq<PositionDoc>, now: int, factor: string -> real, factor2: string -> real)
    ensures CountExpiring(MonitorAll(ps, now, factor), now) == 0
    ensures MonitorAll(MonitorAll(ps, now, factor), now, factor2) == MonitorAll(ps, now, factor)
  {
    var once := MonitorAll(ps, now, factor);
    forall i | 0 <= i < |once| ensures !ExpiresNow(once[i], now) {
      if ExpiresNow(ps[i], now) {
        assert once[i].state == PositionState.Expired;
      }
    }
    forall i | 0 <= i < |once| ensures MonitorAll(once, now, factor2)[i] == once[i] {
      if ps[i].state.IsOpen() && !Expiring(ps[i], now) {
        assert once[i] == ps[i].(lastChecked := now);
      }
    }
  }

  /** The market types in the order the performance pass considers them. */
  const AllTypes: seq<MarketType> := [Politics, Sports, Crypto, Economic, Tech, Other]

  lemma AllTypesComplete(mt: MarketType)
    ensures mt in AllTypes
  {
    match mt
    case Politics => assert AllTypes[0] == mt;
    case Sports => assert AllTypes[1] == mt;
    case Crypto => assert AllTypes[2] == mt;
    case Economic => assert AllTypes[3] == mt;
    case Tech => assert AllTypes[4] == mt;
    case Other => assert AllTypes[5] == mt;
  }

  /** `$sum: 1` of a `$group` on `market_type`. */
  function Found(ps: seq<PositionDoc>, mt: MarketType): (n: nat)
    ensures n <= |ps|
  {
    if ps == [] then 0
    else Found(ps[..|ps| - 1], mt) + (if ps[|ps| - 1].marketType == mt then 1 else 0)
  }

  /** A category's group is empty exactly when no position has that market type. */
  lemma {:induction false} FoundNone(ps: seq<PositionDoc>, mt: MarketType)
    ensures Found(ps, mt) == 0 <==> forall i :: 0 <= i < |ps| ==> ps[i].marketType != mt
  {
    if ps != [] {
      var init := ps[..|ps| - 1];
      FoundNone(init, mt);
      assert forall i :: 0 <= i < |init| ==> init[i] == ps[i];
    }
  }

  /** `$sum` of `$cond: [target_profit > 0, 1, 0]` within the group. */
  function ProfitableCount(ps: seq<PositionDoc>, mt: MarketType): (n: nat)
    ensures n <= Found(ps, mt)
  {
    if ps == [] then 0
    else ProfitableCount(ps[..|ps| - 1], mt) + (if ps[|ps| - 1].marketType == mt && ps[|ps| - 1].targetProfit > 0.0 then 1 else 0)
  }

  function SumTarget(ps: seq<PositionDoc>, mt: MarketType): real {
    if ps == [] then 0.0
    else SumTarget(ps[..|ps| - 1], mt) + (if ps[|ps| - 1].marketType == mt then ps[|ps| - 1].targetProfit else 0.0)
  }

  /** `$avg` of `target_profit` within a non-empty group. */
  function AvgTarget(ps: seq<PositionDoc>, mt: MarketType): (a: real)
    requires Found(ps, mt) > 0
    ensures a * Found(ps, mt) as real == SumTarget(ps, mt)
  {
    SumTarget(ps, mt) / Found(ps, mt) as real
  }

  /** The performance document the pass writes for a category present in `ps`. */
  function PerformanceOf(ps: seq<PositionDoc>, mt: MarketType, now: int): (d: PerformanceDoc)
    requires Found(ps, mt) > 0
    ensures d.marketType == mt && d.opportunitiesFound == Found(ps, mt) && d.profitableArbs == ProfitableCount(ps, mt)
    ensures d.avgProfitPct == AvgTarget(ps, mt) && d.lastUpdated == now
    ensures d.successRate == SuccessRate(d.profitableArbs, d.opportunitiesFound) && 0.0 <= d.successRate <= 100.0
  {
    CreateMarketPerformanceDoc(mt, Found(ps, mt), ProfitableCount(ps, mt), AvgTarget(ps, mt), now)
  }

  /**
   * The performance view after the pass: every category present in `ps` gets
   * a fresh document, every other category keeps the record it had.
   */
  function Rebuilt(perf: map<MarketType, PerformanceDoc>, ps: seq<PositionDoc>, now: int): map<MarketType, PerformanceDoc> {
    map mt | mt in perf.Keys + (set t | t in AllTypes && Found(ps, t) > 0) ::
      if Found(ps, mt) > 0 then PerformanceOf(ps, mt, now) else perf[mt]
  }

  /**
   * The performance view after the pass: every category present in `ps` gets
   * a fresh document, every other category keeps the record it had, and no
   * other category appears.
   */
  lemma RebuiltFacts(perf: map<MarketType, PerformanceDoc>, ps: seq<PositionDoc>, now: int)
    ensures var r := Rebuilt(perf, ps, now);
      (forall mt :: mt in r <==> mt in perf || Found(ps, mt) > 0) &&
      (forall mt | Found(ps, mt) > 0 :: mt in r && r[mt] == PerformanceOf(ps, mt, now)) &&
      (forall mt | mt in perf && Found(ps, mt) == 0 :: mt in r && r[mt] == perf[mt])
  {
    forall mt | Found(ps, mt) > 0 ensures mt in AllTypes {
      AllTypesComplete(mt);
    }
  }

  /** Every position is counted in exactly one category. */
  lemma {:induction false} FoundPartition(ps: seq<PositionDoc>)
    ensures Found(ps, Politics) + Found(ps, Sports) + Found(ps, Crypto)
          + Found(ps, Economic) + Found(ps, Tech) + Found(ps, Other) == |ps|
  {
    if ps != [] {
      FoundPartition(ps[..|ps| - 1]);
    }
  }

  /** `task_log` entries that `get_recovery_count` counts. */
  predicate IsRecovery(e: TaskLogDoc) {
    e.action == "recover" && e.status == "success"
  }

  /** `count_documents({"action": "recover", "status": "success"})`. */
  function CountRecoveries(log: seq<TaskLogDoc>): (n: nat)
    ensures n <= |log|
  {
    if log == [] then 0
    else CountRecoveries(log[..|log| - 1]) + (if IsRecovery(log[|log| - 1]) then 1 else 0)
  }

  /** The count is zero exactly when no entry records a successful recovery. */
  lemma {:induction false} CountRecoveriesNone(log: seq<TaskLogDoc>)
    ensures CountRecoveries(log) == 0 <==> forall i :: 0 <= i < |log| ==> !IsRecovery(log[i])
  {
    if log != [] {
      var init := log[..|log| - 1];
      CountRecoveriesNone(init);
      assert forall i :: 0 <= i < |init| ==> init[i] == log[i];
    }
  }

  /** Appending an entry adds one to the count exactly when it records a successful recovery. */
  lemma CountRecoveriesAppend(log: seq<TaskLogDoc>, e: TaskLogDoc)
    ensures CountRecoveries(log + [e]) == CountRecoveries(log) + (if IsRecovery(e) then 1 else 0)
  {
    assert (log + [e])[..|log|] == log;
  }

  /** The earliest `timestamp` in the log: what `find_one(sort=[("timestamp", 1)])` returns. */
  function EarliestTimestamp(log: seq<TaskLogDoc>): (t: int)
    requires log != []
    ensures forall i :: 0 <= i < |log| ==> t <= log[i].timestamp
    ensures exists i :: 0 <= i < |log| && log[i].timestamp == t
  {
    if |log| == 1 then log[0].timestamp
    else
      var rest := EarliestTimestamp(log[1..]);
      assert forall i :: 1 <= i < |log| ==> log[i] == log[1..][i - 1];
      if log[0].timestamp <= rest then log[0].timestamp else rest
  }

  datatype Uptime = Uptime(days: int, hours: int, positionsTracked: nat)

  /**
   * `get_agent_uptime`: the time since the first logged task as a `timedelta`
   * (whole days, then whole hours of the remaining seconds) and the number of
   * positions; all zeros while the log is empty.
   */
  function UptimeOf(log: seq<TaskLogDoc>, positionCount: nat, now: int): (u: Uptime)
    ensures log == [] ==> u == Uptime(0, 0, 0)
    ensures log != [] ==>
      var s := now - EarliestTimestamp(log);
      0 <= u.hours < 24 && u.positionsTracked == positionCount &&
      u.days * SecondsPerDay + u.hours * SecondsPerHour <= s < u.days * SecondsPerDay + (u.hours + 1) * SecondsPerHour
  {
    if log == [] then Uptime(0, 0, 0)
    else
      var s := now - EarliestTimestamp(log);
      Uptime(s / SecondsPerDay, (s % SecondsPerDay) / SecondsPerHour, positionCount)
  }

  /** How many `log_task` calls a monitoring pass makes: one per expired position, plus a summary if any expired. */
  function MonitorLogCalls(updated: nat): nat {
    updated + if updated > 0 then 1 else 0
  }

  /** The entry one `log_task` call builds, with uuid draws `gen(base)` and `gen(base + 1)`. */
  function LogEntry(action: string, status: string, details: string, error: Option<string>,
                    gen: nat -> string, base: nat, now: int): TaskLogDoc {
    CreateTaskLogDoc(action, status, details, error, None, gen(base), gen(base + 1), now)
  }

  function UpdateDetails(positionId: string, st: PositionState): string {
    "Updated position " + positionId + " to state " + st.Name()
  }

  class PositionManager {
    var positions: seq<PositionDoc>
    var taskLog: seq<TaskLogDoc>
    var performance: map<MarketType, PerformanceDoc>
    /** Whether inserts into `task_log` succeed; `log_task` reports a failed insert and carries on. */
    const logWritable: bool
    const ids: IdSource

    ghost predicate Valid()
      reads this, ids
    {
      ids.Valid() && DistinctPositionIds(positions) &&
      forall i :: 0 <= i < |positions| ==> ids.Issued(positions[i].positionId)
    }

    constructor (ids: IdSource, logWritable: bool, positions: seq<PositionDoc>, taskLog: seq<TaskLogDoc>,
                 performance: map<MarketType, PerformanceDoc>)
      requires ids.Valid() && DistinctPositionIds(positions)
      requires forall i :: 0 <= i < |positions| ==> ids.Issued(positions[i].positionId)
      ensures Valid() && this.ids == ids && this.logWritable == logWritable
      ensures this.positions == positions && this.taskLog == taskLog && this.performance == performance
    {
      this.ids := ids;
      this.logWritable := logWritable;
      this.positions := positions;
      this.taskLog := taskLog;
      this.performance := performance;
    }

    /** `log_task`: build an entry (two uuid draws) and append it when the insert succeeds. */
    method LogTask(action: string, status: string, details: string, error: Option<string>, now: int)
      requires Valid()
      modifies this`taskLog, ids
      ensures Valid() && ids.drawn == old(ids.drawn) + 2
      ensures taskLog == old(taskLog) + if logWritable then [LogEntry(action, status, details, error, ids.gen, old(ids.drawn), now)] else []
    {
      var draw1 := ids.Fresh();
      var draw2 := ids.Fresh();
      var entry := CreateTaskLogDoc(action, status, details, error, None, draw1, draw2, now);
      if logWritable {
        taskLog := taskLog + [entry];
      }
    }

    /**
     * `create_position_from_opportunity`: insert exactly one new position,
     * under a fresh id, and log it. No existing position changes.
     */
    method CreatePositionFromOpportunity(req: PositionRequest, now: int) returns (id: string)
      requires Valid()
      modifies this`positions, this`taskLog, ids
      ensures Valid() && ids.drawn == old(ids.drawn) + 4
      ensures positions == old(positions) + [NewPosition(req, now, ids.gen, old(ids.drawn))]
      ensures id == NewPosition(req, now, ids.gen, old(ids.drawn)).positionId
      ensures Find(old(positions), id).None?
      ensures performance == old(performance)
      ensures taskLog == old(taskLog) +
        if logWritable then [LogEntry("create_position", "success", "Created position for " + Prefix(req.eventName, 50),
                                      None, ids.gen, old(ids.drawn) + 2, now)]
        else []
    {
      var marketType := CategorizeEvent(req.eventName);
      var expiration := if req.expirationDate.Some? then req.expirationDate.value else now + DefaultHorizon;
      var draw1 := ids.Fresh();
      var draw2 := ids.Fresh();
      var position := CreatePositionDoc(req.eventName, req.platformA, req.platformB, req.betAmountA, req.betAmountB,
                                        req.platformAPrice, req.platformBPrice, req.profit.GetOr(0.0),
                                        expiration, marketType, None, draw1, draw2, now);
      assert position == NewPosition(req, now, ids.gen, old(ids.drawn));
      positions := positions + [position];
      LogTask("create_position", "success", "Created position for " + Prefix(req.eventName, 50), None, now);
      id := position.positionId;
    }

    /** `update_position_state`: set the state (and the profit, if given) of the position with this id, then log. */
    method UpdatePositionState(positionId: string, newState: PositionState, actualProfit: Option<real>, now: int)
      requires Valid()
      modifies this`positions, this`taskLog, ids
      ensures Valid() && ids.drawn == old(ids.drawn) + 2
      ensures positions == SetState(old(positions), positionId, newState, actualProfit, now)
      ensures taskLog == old(taskLog) +
        if logWritable then [LogEntry("update_position", "success", UpdateDetails(positionId, newState), None, ids.gen, old(ids.drawn), now)]
        else []
    {
      positions := SetState(positions, positionId, newState, actualProfit, now);
      LogTask("update_position", "success", UpdateDetails(positionId, newState), None, now);
    }
  
    /**
     * `simulate_order_placement`: a position found in the watching state is
     * moved to entered and the placement is logged; any other id changes nothing.
     */
    method SimulateOrderPlacement(positionId: string, now: int) returns (placed: bool)
      requires Valid()
      modifies this`positions, this`taskLog, ids
      ensures Valid() && performance == old(performance)
      ensures placed <==> Find(old(positions), positionId).Some? &&
                          old(positions)[Find(old(positions), positionId).value].state == Watching
      ensures !placed ==> positions == old(positions) && taskLog == old(taskLog) && ids.drawn == old(ids.drawn)
      ensures placed ==> positions == SetState(old(positions), positionId, Entered, None, now) && ids.drawn == old(ids.drawn) + 4
      ensures placed && !logWritable ==> taskLog == old(taskLog)
      ensures placed && logWritable ==>
                taskLog == old(taskLog) +
                  [LogEntry("update_position", "success", UpdateDetails(positionId, Entered), None, ids.gen, old(ids.drawn), now),
                   LogEntry("place_orders", "success",
                            "Simulated order placement for " + Prefix(old(positions)[Find(old(positions), positionId).value].eventName, 50),
                            None, ids.gen, old(ids.drawn) + 2, now)]
    {
      var found := Find(positions, positionId);
      if found.None? {
        return false;
      }
      var position := positions[found.value];
      if position.state == Watching {
        UpdatePositionState(positionId, Entered, None, now);
        LogTask("place_orders", "success", "Simulated order placement for " + Prefix(position.eventName, 50), None, now);
        return true;
      }
      return false;
    }

    /**
     * `monitor_positions`: every open position past its expiration date is
     * resolved as expired, every other open position has its check time
     * refreshed, and a summary is logged when anything expired.
     * `factor(id)` stands for the `random.uniform(0.8, 1.2)` drawn for that position.
     */
    method MonitorPositions(now: int, factor: string -> real) returns (updated: nat)
      requires Valid()
      modifies this`positions, this`taskLog, ids
      ensures Valid()
      ensures positions == MonitorAll(old(positions), now, factor)
      ensures updated == CountExpiring(old(positions), now)
      ensures ids.drawn == old(ids.drawn) + 2 * MonitorLogCalls(updated)
      ensures |taskLog| == |old(taskLog)| + (if logWritable then MonitorLogCalls(updated) else 0)
      ensures taskLog[..|old(taskLog)|] == old(taskLog)
      ensures logWritable && updated > 0 ==>
        taskLog[|taskLog| - 1] == LogEntry("monitor_positions", "success", "Updated " + NatToString(updated) + " expired positions",
                                           None, ids.gen, ids.drawn - 2, now)
    {
      ghost var log0 := taskLog;
      updated := MonitorPass(now, factor);
      if updated > 0 {
        ghost var t := taskLog;
        LogTask("monitor_positions", "success", "Updated " + NatToString(updated) + " expired positions", None, now);
        assert taskLog[..|log0|] == t[..|log0|];
      }
    }

    /** The loop of `monitor_positions`, over every position in turn. */
    method MonitorPass(now: int, factor: string -> real) returns (updated: nat)
      requires Valid()
      modifies this`positions, this`taskLog, ids
      ensures Valid()
      ensures positions == MonitorAll(old(positions), now, factor)
      ensures updated == CountExpiring(old(positions), now)
      ensures ids.drawn == old(ids.drawn) + 2 * updated
      ensures |taskLog| == |old(taskLog)| + (if logWritable then updated else 0)
      ensures taskLog[..|old(taskLog)|] == old(taskLog)
    {
      ghost var ps0 := positions;
      ghost var log0 := taskLog;
      ghost var drawn0 := ids.drawn;
      updated := 0;
      var n := |positions|;
      for i := 0 to n
        invariant Valid()
        invariant MonitorProgress(ps0, positions, i, now, factor)
        invariant updated == CountExpiring(ps0[..i], now)
        invariant ids.drawn == drawn0 + 2 * updated
        invariant |taskLog| == |log0| + (if logWritable then updated else 0)
        invariant taskLog[..|log0|] == log0
      {
        ghost var before := positions;
        CountExpiringStep(ps0, i, now);
        ghost var t := taskLog;
        var expired := MonitorAt(i, now, factor(positions[i].positionId));
        assert taskLog[..|log0|] == t[..|log0|];
        if expired {
          updated := updated + 1;
        }
        MonitorStep(ps0, before, i, now, factor);
      }
      MonitorDone(ps0, positions, now, factor);
      assert ps0[..n] == ps0;
    }

    /** One turn of the `monitor_positions` loop, on the position at index `i`. */
    method MonitorAt(i: nat, now: int, factor: real) returns (expired: bool)
      requires Valid() && i < |positions|
      modifies this`positions, this`taskLog, ids
      ensures Valid()
      ensures positions == old(positions)[i := MonitorOne(old(positions)[i], now, factor)]
      ensures expired == ExpiresNow(old(positions)[i], now)
      ensures ids.drawn == old(ids.drawn) + (if expired then 2 else 0)
      ensures |taskLog| == |old(taskLog)| + (if expired && logWritable then 1 else 0)
      ensures taskLog[..|old(taskLog)|] == old(taskLog)
    {
      var position := positions[i];
      expired := false;
      if position.state.IsOpen() {
        if position.expirationDate.Some? && now > position.expirationDate.value {
          ExpireAt(positions, i, now, factor);
          UpdatePositionState(position.positionId, PositionState.Expired, Some(SimulatedProfit(position, factor)), now);
          expired := true;
        } else {
          positions := positions[i := position.(lastChecked := now)];
        }
      } else {
        assert positions == positions[i := MonitorOne(position, now, factor)];
      }
    }

    /**
     * `calculate_historical_performance`: for every market type that has at
     * least one position, upsert its counts, its share of positive targets and
     * its mean target profit; types without positions keep their old document.
     */
    method CalculateHistoricalPerformance(now: int)
      modifies this`performance
      ensures performance == Rebuilt(old(performance), positions, now)
    {
      for k := 0 to |AllTypes|
        invariant forall mt :: mt in performance <==> mt in old(performance) || (mt in AllTypes[..k] && Found(positions, mt) > 0)
        invariant forall mt | mt in AllTypes[..k] && Found(positions, mt) > 0 :: mt in performance && performance[mt] == PerformanceOf(positions, mt, now)
        invariant forall mt | mt in old(performance) && !(mt in AllTypes[..k] && Found(positions, mt) > 0) :: mt in performance && performance[mt] == old(performance)[mt]
      {
        var mt := AllTypes[k];
        assert AllTypes[..k + 1] == AllTypes[..k] + [mt];
        var found := Found(positions, mt);
        if found > 0 {
          var doc := CreateMarketPerformanceDoc(mt, found, ProfitableCount(positions, mt), AvgTarget(positions, mt), now);
          performance := performance[mt := doc];
        }
      }
      forall mt ensures mt in AllTypes { AllTypesComplete(mt); }
      assert AllTypes[..|AllTypes|] == AllTypes;
      RebuiltFacts(old(performance), positions, now);
    }
  }
}
