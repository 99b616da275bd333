/**
 * The documents the engine writes to its collections, and the constructors
 * that build them. The wall clock (`now`, in whole seconds) and the uuid draws
 * are parameters.
 */
module Models {
  import opened Wrappers
  import opened Text
  import opened Categorize

  datatype Venue = Polymarket | Kalshi {
    function Name(): string {
      match this
      case Polymarket => "polymarket"
      case Kalshi => "kalshi"
    }
  }

  datatype Outcome = Yes | No {
    function Name(): string {
      match this
      case Yes => "yes"
      case No => "no"
    }
  }

  datatype OpportunityStatus = Active | Expired

  /** watching → entered → expired; profitable and loss are terminal states no code path sets. */
  datatype PositionState = Watching | Entered | Expired | Profitable | Loss {
    function Name(): string {
      match this
      case Watching => "watching"
      case Entered => "entered"
      case Expired => "expired"
      case Profitable => "profitable"
      case Loss => "loss"
    }
    predicate IsOpen() {
      this == Watching || this == Entered
    }
  }

  /** A stored arbitrage opportunity. `profit` and `expirationDate` are absent on records this engine writes; other writers may add them. */
  datatype OpportunityDoc = OpportunityDoc(
    docId: string,
    opportunityId: string,
    eventName: string,
    platformA: Venue,
    platformAPrice: real,
    platformB: Venue,
    platformBPrice: real,
    profitPercentage: real,
    betAmountA: real,
    betAmountB: real,
    detectedAt: int,
    status: OpportunityStatus,
    profit: Option<real>,
    expirationDate: Option<int>)

  datatype PositionDoc = PositionDoc(
    docId: string,
    positionId: string,
    eventName: string,
    platformA: Venue,
    platformB: Venue,
    amountBetA: real,
    amountBetB: real,
    entryPriceA: real,
    entryPriceB: real,
    targetProfit: real,
    expirationDate: Option<int>,
    marketType: MarketType,
    state: PositionState,
    daysHeld: int,
    createdAt: int,
    lastChecked: int,
    actualProfit: Option<real>,
    resolvedAt: Option<int>)

  datatype TaskLogDoc = TaskLogDoc(
    docId: string,
    taskId: string,
    action: string,
    status: string,
    details: string,
    error: Option<string>,
    timestamp: int)

  datatype PerformanceDoc = PerformanceDoc(
    marketType: MarketType,
    opportunitiesFound: nat,
    profitableArbs: nat,
    avgProfitPct: real,
    successRate: real,
    lastUpdated: int)

  datatype MarketPriceDoc = MarketPriceDoc(
    key: string,
    marketId: string,
    platform: string,
    eventName: string,
    outcome: Outcome,
    price: real,
    timestamp: int)

  /** Python's `given or str(uuid4())`: a missing or empty id is replaced by a draw. */
  function ChooseId(given: Option<string>, draw: string): (id: string)
    ensures given.Some? && given.value != "" ==> id == given.value
    ensures given.None? || given.value == "" ==> id == draw
  {
    if given.Some? && given.value != "" then given.value else draw
  }

  /** The price document key `platform_market_outcome_<unix second>`. */
  function PriceKey(platform: string, marketId: string, outcome: Outcome, second: int): string {
    platform + "_" + marketId + "_" + outcome.Name() + "_" + IntToString(second)
  }

  function CreateMarketPriceDoc(marketId: string, platform: string, eventName: string,
                                outcome: Outcome, price: real, now: int): (d: MarketPriceDoc)
    ensures d.key == PriceKey(platform, marketId, outcome, now)
    ensures d.marketId == marketId && d.platform == platform && d.eventName == eventName
    ensures d.outcome == outcome && d.price == price && d.timestamp == now
  {
    MarketPriceDoc(PriceKey(platform, marketId, outcome, now), marketId, platform, eventName, outcome, price, now)
  }

  function CreateArbitrageOpportunityDoc(eventName: string, platformA: Venue, platformAPrice: real,
                                         platformB: Venue, platformBPrice: real, profitPercentage: real,
                                         betAmountA: real, betAmountB: real, opportunityId: Option<string>,
                                         draw1: string, draw2: string, now: int): (d: OpportunityDoc)
    ensures d.docId == ChooseId(opportunityId, draw1) && d.opportunityId == ChooseId(opportunityId, draw2)
    ensures d.eventName == eventName && d.platformA == platformA && d.platformAPrice == platformAPrice
    ensures d.platformB == platformB && d.platformBPrice == platformBPrice
    ensures d.profitPercentage == profitPercentage && d.betAmountA == betAmountA && d.betAmountB == betAmountB
    ensures d.status == OpportunityStatus.Active && d.detectedAt == now
    ensures d.profit.None? && d.expirationDate.None?
  {
    OpportunityDoc(ChooseId(opportunityId, draw1), ChooseId(opportunityId, draw2), eventName,
                   platformA, platformAPrice, platformB, platformBPrice, profitPercentage,
                   betAmountA, betAmountB, now, OpportunityStatus.Active, None, None)
  }

  function CreatePositionDoc(eventName: string, platformA: Venue, platformB: Venue,
                             amountBetA: real, amountBetB: real, priceA: real, priceB: real,
                             targetProfit: real, expirationDate: int, marketType: MarketType,
                             positionId: Option<string>, draw1: string, draw2: string, now: int): (d: PositionDoc)
    ensures d.docId == ChooseId(positionId, draw1) && d.positionId == ChooseId(positionId, draw2)
    ensures d.eventName == eventName && d.platformA == platformA && d.platformB == platformB
    ensures d.amountBetA == amountBetA && d.amountBetB == amountBetB
    ensures d.entryPriceA == priceA && d.entryPriceB == priceB
    ensures d.targetProfit == targetProfit && d.expirationDate == Some(expirationDate) && d.marketType == marketType
    ensures d.state == Watching && d.daysHeld == 0
    ensures d.createdAt == now && d.lastChecked == now
    ensures d.actualProfit.None? && d.resolvedAt.None?
  {
    PositionDoc(ChooseId(positionId, draw1), ChooseId(positionId, draw2), eventName, platformA, platformB,
                amountBetA, amountBetB, priceA, priceB, targetProfit, Some(expirationDate), marketType,
                Watching, 0, now, now, None, None)
  }

  function CreateTaskLogDoc(action: string, status: string, details: string, error: Option<string>,
                            taskId: Option<string>, draw1: string, draw2: string, now: int): (d: TaskLogDoc)
    ensures d.docId == ChooseId(taskId, draw1) && d.taskId == ChooseId(taskId, draw2)
    ensures d.action == action && d.status == status && d.details == details && d.error == error
    ensures d.timestamp == now
  {
    TaskLogDoc(ChooseId(taskId, draw1), ChooseId(taskId, draw2), action, status, details, error, now)
  }

  /** Percentage of a category's positions that were profitable; 0 for an empty category. */
  function SuccessRate(profitableArbs: int, opportunitiesFound: int): (r: real)
    ensures opportunitiesFound > 0 ==> r * opportunitiesFound as real == profitableArbs as real * 100.0
    ensures opportunitiesFound > 0 && 0 <= profitableArbs <= opportunitiesFound ==> 0.0 <= r <= 100.0
    ensures opportunitiesFound <= 0 ==> r == 0.0
  {
    if opportunitiesFound > 0 then profitableArbs as real / opportunitiesFound as real * 100.0 else 0.0
  }

  function CreateMarketPerformanceDoc(marketType: MarketType, opportunitiesFound: nat,
                                      profitableArbs: nat, avgProfitPct: real, now: int): (d: PerformanceDoc)
    ensures d.marketType == marketType && d.opportunitiesFound == opportunitiesFound
    ensures d.profitableArbs == profitableArbs && d.avgProfitPct == avgProfitPct
    ensures d.successRate == SuccessRate(profitableArbs, opportunitiesFound)
    ensures d.lastUpdated == now
  {
    PerformanceDoc(marketType, opportunitiesFound, profitableArbs, avgProfitPct,
                   SuccessRate(profitableArbs, opportunitiesFound), now)
  }

  /**
   * The two ids of a document coincide exactly when an id was supplied or
   * the two independent draws happen to agree.
   */
  lemma OpportunityIdsCoincide(eventName: string, platformA: Venue, platformAPrice: real,
                               platformB: Venue, platformBPrice: real, profitPercentage: real,
                               betAmountA: real, betAmountB: real, opportunityId: Option<string>,
                               draw1: string, draw2: string, now: int)
    ensures var d := CreateArbitrageOpportunityDoc(eventName, platformA, platformAPrice, platformB, platformBPrice,
                                                   profitPercentage, betAmountA, betAmountB, opportunityId,
                                                   draw1, draw2, now);
      d.docId == d.opportunityId <==> (opportunityId.Some? && opportunityId.value != "") || draw1 == draw2
  {
  }

  /** The yes and no documents of one market in one second never share a key. */
  lemma YesNoKeysDiffer(platform: string, marketId: string, second: int)
    ensures PriceKey(platform, marketId, Yes, second) != PriceKey(platform, marketId, No, second)
  {
    var p := platform + "_" + marketId + "_";
    var y := PriceKey(platform, marketId, Yes, second);
    var n := PriceKey(platform, marketId, No, second);
    assert y == p + ("yes" + "_" + IntToString(second));
    assert n == p + ("no" + "_" + IntToString(second));
    assert y[|p|] == 'y' && n[|p|] == 'n';
  }

  /** Two prices of the same market and outcome taken in the same second collide on the key, whatever their values. */
  lemma SameSecondCollides(marketId: string, platform: string, name1: string, name2: string,
                           outcome: Outcome, price1: real, price2: real, now: int)
    ensures CreateMarketPriceDoc(marketId, platform, name1, outcome, price1, now).key
         == CreateMarketPriceDoc(marketId, platform, name2, outcome, price2, now).key
  {
  }
}
