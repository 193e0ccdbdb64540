/** Values shared by every component: market events, virtual orders and emitted events. Floats and timestamps are
    reals; timestamps are in milliseconds. */
module Types {
  datatype Option<+T> = None | Some(value: T)

  datatype Side = Buy | Sell

  function Opposite(side: Side): Side {
    if side.Buy? then Sell else Buy
  }

  function Max(x: real, y: real): real {
    if x >= y then x else y
  }

  function Min(x: real, y: real): real {
    if x <= y then x else y
  }

  function Abs(x: real): real {
    if x >= 0.0 then x else -x
  }

  /** `exp`, of which only positivity, strict monotonicity and `exp(0) = 1` are used. */
  ghost predicate ExpLike(f: real -> real) {
    && f(0.0) == 1.0
    && (forall x :: f(x) > 0.0)
    && (forall x, y :: x < y ==> f(x) < f(y))
  }

  function Hyperbola(x: real): real {
    if x >= 0.0 then 1.0 + x else 1.0 / (1.0 - x)
  }

  lemma HyperbolaRises(x: real, y: real)
    requires x < y
    ensures 0.0 < Hyperbola(x) < Hyperbola(y)
  {
    if y < 0.0 {
      var p, q := 1.0 - x, 1.0 - y;
      assert 1.0 / q - 1.0 / p == (p - q) / (p * q);
      assert p * q > 0.0;
    }
  }

  lemma HyperbolaIsExpLike()
    ensures ExpLike(Hyperbola)
  {
    forall x, y | x < y ensures Hyperbola(x) < Hyperbola(y) {
      HyperbolaRises(x, y);
    }
    forall x ensures Hyperbola(x) > 0.0 {
      HyperbolaRises(x, x + 1.0);
    }
  }

  type ExpFn = f: real -> real | ExpLike(f) ghost witness (HyperbolaIsExpLike(); Hyperbola)

  /** Order ids are the projector's counter at the time of placement. */
  type OrderId = nat

  datatype Direction = Neutral | SellShock | BuyShock

  /** The tuple of everything that is hashed into a forced-flow event id. */
  datatype ShockId = ShockId(ts: real, venue: string, symbol: string, sequence: Option<int>,
                             forceRatio: real, buy: real, sell: real, depth: real, direction: Direction)

  datatype Reason =
    | NotInitialized | NoSnapshot | SequenceNotMonotonic
    | NoFreshFairSources | InsufficientFairSources | InvalidFair | InvalidFairPrice
    | NoRecentShock | WaitingAfterShock | AftershockRebuild
    | MissingSpread | SpreadTooWide | BookTooThin | ActivationTooLow | InvalidInventoryEquity
    | InventoryTooSkewed | PairSpecUnfetched | StatusNotNormal | PairStopFlag | BookStale
    | LastTradeDeviation | FillBurstCooldown | FairDriftTooLarge
    | QuoteBalanceInsufficient | BaseBalanceInsufficient | MaxBaseQty | MaxQuoteUsage
    | MaxInventoryNotional | OneSideChangeLimit
    | RiskBlock | StaleOrReplaced | Replaced

  datatype FairState = FairState(fair: Option<real>, sourceCount: nat, spreadBps: Option<real>,
                                 isValid: bool, reason: Option<Reason>, sources: seq<string>,
                                 deviationBps: Option<real>)

  datatype ShockState = ShockState(activation: real, forceRatio: real, buy: real, sell: real, depth: real,
                                   lastShockTs: Option<real>, reason: Reason, direction: Direction,
                                   bidActivation: real, askActivation: real,
                                   lastShockId: Option<ShockId>, shockAgeMs: Option<real>)

  datatype RiskDecision = RiskDecision(allowQuote: bool, allowBuy: bool, allowSell: bool,
                                       maxOrderSize: real, reason: Option<Reason>,
                                       cooldownUntilMs: Option<real>, sideReasons: map<Side, Reason>)

  function Allows(d: RiskDecision, side: Side): bool {
    if side.Buy? then d.allowBuy else d.allowSell
  }

  datatype Quote = Quote(side: Side, price: real, size: real, level: nat, activation: real,
                         inventorySkew: real, fair: real, shockId: Option<ShockId>,
                         shockDirection: Direction, shockAgeMs: Option<real>)

  datatype ActiveOrder = ActiveOrder(id: OrderId, side: Side, price: real, size: real, level: nat,
                                     createdAt: real, expiresAt: real, activation: real,
                                     inventorySkew: real, fair: real, shockId: Option<ShockId>,
                                     shockDirection: Direction, shockAgeMs: Option<real>)

  /** Why an order is not sent to the exchange. */
  datatype GateReason =
    | ModeNotLive | VenueNotBitbank | LiveOrdersDisabled | EnvVarMissing | ApiKeyMissing | PairSpecMissing
    | ExchangeNotNormal | PostOnlyNotForced | UnmanagedOrdersOpen | WithdrawalUnconfirmed | QualityGateNotPassed
    | NotBtcJpy | GatePairDisabled | GatePairStopped | GateBuyStopped | GateSellStopped | ClockDriftTooHigh
    | RiskKernelBlocked | WouldCross | Invalid(verdict: Verdict) | SubmissionDisabled

  /** The outcome of the exchange's order rules. */
  datatype Verdict =
    | Accepted | PairMustBeBtcJpy | PairDisabled | PairOrderStopped | BuyStopped | SellStopped
    | AmountBelowUnit | AmountAboveLimit | AmountPrecision | PricePrecision

  /** What a risk update reports about the book. */
  datatype BookReport = BookReport(spreadBps: Option<real>, depth: real, stale: bool, staleReason: Option<Reason>)

  datatype OrderEvent =
    | Placed(sequence: nat, order: ActiveOrder)
    | Canceled(sequence: nat, order: ActiveOrder, ts: real, reason: Reason)

  datatype Fill = Fill(sequence: nat, orderId: OrderId, side: Side, price: real, size: real, ts: real,
                       venue: string, symbol: string, fee: real, makerFeeBps: real, queueAhead: real,
                       fairAtFill: Option<real>, fairAfter1s: Option<real>, fairAfter5s: Option<real>,
                       fairAfter30s: Option<real>, activation: real, shockId: Option<ShockId>,
                       shockDirection: Direction, shockAgeMs: Option<real>)

  datatype Emitted =
    | MarkPrice(ts: real, state: FairState)
    | ForcedFlow(id: ShockId)
    | VirtualFill(fill: Fill)
    | RiskUpdate(ts: real, decision: RiskDecision, shock: ShockState, fairState: FairState, book: BookReport,
                 skew: Option<real>)
    | Order(change: OrderEvent)
    | LiveIntent(order: ActiveOrder)
    | LiveBlocked(order: ActiveOrder, reason: GateReason)

  datatype PriceLevel = PriceLevel(price: real, amount: real)

  datatype PairSpec = PairSpec(isBtcJpy: bool, unitAmount: real, limitMaxAmount: real, priceDigits: int,
                               amountDigits: int, makerFeeRateQuote: real, isEnabled: bool,
                               stopOrder: bool, stopOrderAndCancel: bool,
                               stopBuyOrder: bool, stopSellOrder: bool)

  /** The taker side of a trade may be any text; anything but "buy" and "sell" is None. */
  datatype Payload =
    | Snapshot(bids: seq<PriceLevel>, asks: seq<PriceLevel>)
    | Delta(bids: seq<PriceLevel>, asks: seq<PriceLevel>)
    | Trade(side: Option<Side>, price: real, amount: real)
    | Ticker(buy: Option<real>, sell: Option<real>, last: Option<real>)
    | ExternalFair(fairJpy: Option<real>, btcUsd: Option<real>, usdJpy: Option<real>,
                   source: Option<string>, tsMs: Option<real>, spreadBps: Option<real>)
    | PairSpecInfo(spec: PairSpec)
    | StatusInfo(normal: Option<bool>)  // None: the status or min_amount key is missing
    | Recorded(output: Emitted)         // an event some earlier run had emitted
    | Unrelated(eventType: string)

  /** `sequence` is the parsed sequence, None when it is absent or not an integer; `text` is the raw one as text. */
  datatype Event = Event(ts: real, venue: string, symbol: string, sequence: Option<int>, text: string,
                         payload: Payload)

  ghost predicate Chronological(events: seq<Event>) {
    forall i, j :: 0 <= i < j < |events| ==> events[i].ts <= events[j].ts
  }
}
