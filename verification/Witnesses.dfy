/** Concrete runs that reach what the general results speak of: an order that is placed, partly filled and outlives
    its expiry, and a log whose own fill makes the summary and the inventory disagree. */
module Witnesses {
  import opened Types
  import opened Windows
  import opened OrderBooks
  import opened Statistics
  import opened FairPrice
  import opened Shocks
  import opened FillModels
  import opened FillLaws
  import opened Projectors
  import opened Inventories
  import opened Rounding
  import opened QuoteSurfaces
  import opened Risks
  import opened RiskLaws
  import opened LiveGates
  import opened Pipelines
  import opened Ledgers
  import opened TraceLogs
  import opened Runs
  import opened HistoryRuns
  import opened QueueRuns
  import opened Replays
  import opened Metrics

  // ----- a fill in the input -----

  lemma RecordedFillCompletes(cfg: Config, e: Event)
    requires e.payload.Recorded?
    ensures !Run(cfg, [e]).raised
  {
    hide Run, RunFrom, StepWithFair, FromMarketEvent, Observed;
    assert [e][..0] == [];
    RunSnoc(cfg, [e]);
    NothingRunYet(cfg);
    RecordedObserved(cfg, e);
    var s := Initial(cfg);
    var u := FromMarketEvent(cfg.fair, s.sources, s.book, e);
    NoTradeCompletes(cfg, s.(sources := u.sources), e, u.state.value);
  }

  lemma NothingRunYet(cfg: Config)
    ensures Run(cfg, []) == RunResult(Initial(cfg), [], false)
  {
    hide Initial;
  }

  lemma RecordedObserved(cfg: Config, e: Event)
    requires e.payload.Recorded?
    ensures var s := Initial(cfg);
            Observed(cfg, s, e) == s && FromMarketEvent(cfg.fair, s.sources, s.book, e).state.Some?
  {
  }

  lemma NoTradeNoFills(cfg: Config, s: PipelineState, e: Event, fair: FairState)
    requires !e.payload.Trade? || s.fills.orders == map[]
    ensures var w := WalkOf(cfg.fill, s.fills, e, fair);
            w.fills == [] && w.touches == [] && w.orders == s.fills.orders
    ensures !SettledFills(cfg, s, e, fair).raised && SettledFills(cfg, s, e, fair).emitted == []
  {
    CandidatesCurrent(cfg.fill, s.fills, e);
    assert Candidates(cfg.fill, s.fills, e) == [];
  }

  lemma NoTradeCompletes(cfg: Config, s: PipelineState, e: Event, fair: FairState)
    requires !e.payload.Trade? || s.fills.orders == map[]
    ensures !StepWithFair(cfg, s, e, fair).raised
  {
    NoTradeNoFills(cfg, s, e, fair);
    hide WalkOf, ShockStep, QuoteStep, AfterFills, HeadOutput;
  }

  /** For every configuration: a log that contains just a buy fill completes, and the balances recomputed from its
      output are not the inventory. */
  lemma RecordedFillDisagrees(cfg: Config, e: Event)
    requires e.payload.Recorded? && e.payload.output.VirtualFill?
    requires e.payload.output.fill.side.Buy? && e.payload.output.fill.size > 0.0
    ensures !Run(cfg, [e]).raised
    ensures Booked(Inventory(cfg.initialBase, cfg.initialQuote), FillsOfOutput(Enriched(OutputOf(cfg, [e]))))
            != Run(cfg, [e]).state.inventory
  {
    hide Run, OutputOf, Enriched, FillsOfOutput;
    RecordedFillCompletes(cfg, e);
    LedgerAgreesIff(cfg, [e]);
    assert [e][..0] == [];
    var f := e.payload.output.fill;
    assert FillsRecordedIn([e]) == [f];
    NetOne(f);
  }

  // ----- a partial fill that outlives its order's expiry -----

  const FAIR_CFG := FairConfig(10000.0, 1000000.0, 1, 1000000.0, 80.0, true)
  const RISK_CFG := RiskConfig(10.0, 10000.0, 0.0, 0.0, 10.0, false, false, false, false, 0.0, 0.0, 0, 0.0, 0.0,
                               0.0, 0.0, 0.0, 0.0, true, 0.0, 0.0, 0.0, 0.0, 0.0)
  const SHOCK_CFG := ShockConfig(5000.0, 0.0, 1.0, 0.0, 0.0, 30000.0, 1.0)
  const AMM_CFG := AmmConfig(1, 4.0, 0.0, 0.0, 0.0, 0.0, 1.0, 10.0, 1.0, 1.0)
  const PROJECTOR_CFG := ProjectorConfig(20, 1.0, 0.0, 0.0, 0.0)
  const GATE_CFG := GateConfig(false, false, false, false, false, false, false, false, false, false, 0.0)
  const FILL_CFG := FillConfig(0.0, 0.0)
  const INVENTORY_CFG := InventoryConfig(0.5, true)

  function WitnessConfig(exp: ExpFn): Config {
    Config(exp, INVENTORY_CFG, 1.0, 100.0, FAIR_CFG, RISK_CFG, SHOCK_CFG, AMM_CFG, PROJECTOR_CFG, FILL_CFG, GATE_CFG,
           0.0, false, false)
  }

  /** One level a side, a sell that is a shock, and a sell that fills half of the order placed behind it. */
  function WitnessLog(venue: string, symbol: string): seq<Event> {
    [Event(0.0, venue, symbol, None, "None", Snapshot([PriceLevel(99.0, 1.0)], [PriceLevel(101.0, 1.0)])),
     Event(1.0, venue, symbol, None, "None", Trade(Some(Sell), 99.0, 1.0)),
     Event(2.0, venue, symbol, None, "None", Trade(Some(Sell), 100.0, 1.0))]
  }

  const BOOK := BookState(map[99.0 := 1.0], map[101.0 := 1.0], None, Some(0.0), false, None)

  lemma SnapshotIsBook()
    ensures ApplySnapshot([PriceLevel(99.0, 1.0)], [PriceLevel(101.0, 1.0)], None, 0.0) == BOOK
  {
    assert [PriceLevel(99.0, 1.0)][..0] == [] && [PriceLevel(101.0, 1.0)][..0] == [];
  }

  lemma BookReads()
    ensures BestBid(BOOK) == Some(99.0) && BestAsk(BOOK) == Some(101.0)
    ensures Mid(BOOK) == Some(100.0) && SpreadBps(BOOK) == Some(200.0)
  {
    BestOfBook();
    hide BestBid, BestAsk;
    assert (101.0 - 99.0) / ((99.0 + 101.0) / 2.0) * 10000.0 == 200.0;
    assert SpreadBps(BOOK) == Some((101.0 - 99.0) / ((99.0 + 101.0) / 2.0) * 10000.0);
  }

  lemma BestOfBook()
    ensures BestBid(BOOK) == Some(99.0) && BestAsk(BOOK) == Some(101.0)
  {
    assert BOOK.bids.Keys == {99.0} && BOOK.asks.Keys == {101.0};
  }

  lemma BookIsThin(bps: real)
    requires 0.0 <= bps <= 20.0
    ensures DepthAroundMid(BOOK, bps) == 0.0
  {
    BookReads();
    var floor, ceiling := 100.0 * (1.0 - bps / 10000.0), 100.0 * (1.0 + bps / 10000.0);
    assert 99.0 < floor && ceiling < 101.0;
    assert (set p | p in BOOK.bids && p >= floor) == {};
    assert (set p | p in BOOK.asks && p <= ceiling) == {};
  }

  function BookSourceAt(now: real): Source {
    Source(BOOK_SOURCE, 100.0, now, Some(200.0))
  }

  const FAIR_STATE := FairState(Some(100.0), 1, Some(200.0), true, None, [BOOK_SOURCE], Some(0.0))

  lemma OneSource(now: real)
    ensures FromSources(FAIR_CFG, [BookSourceAt(now)], now) == Some(FAIR_STATE)
  {
    var x := BookSourceAt(now);
    assert [x][..0] == [];
    assert Fresh(FAIR_CFG, [x], now) == [x];
    assert Fairs([x]) == [100.0];
    MedianOfOne(100.0);
    assert DeviationBps(100.0, 100.0) == 0.0;
    assert Near(FAIR_CFG, [x], 100.0) == [x];
    assert Pick(SPREAD, [x]) == [200.0];
    MedianOfOne(200.0);
    assert MaxDeviation([x], 100.0) == Some(0.0) by {
      assert (set y | y in [x] :: DeviationBps(y.fair, 100.0)) == {0.0};
    }
    assert Names([x]) == [BOOK_SOURCE];
  }

  lemma MedianOfOne(v: real)
    ensures Median([v]) == v
  {
    assert [v][..0] == [];
    assert Sort([v]) == [v];
  }

  lemma SourceOfBook(now: real)
    requires 0.0 <= now <= 2.0
    ensures SourceFromBook(FAIR_CFG, BOOK, now) == Present(BookSourceAt(now))
  {
    BookReads();
    hide BestBid, BestAsk;
    assert 2.0 / 100.0 * 10000.0 == 200.0;
  }

  lemma FairFromBook(sources: seq<Source>, e: Event)
    requires 0.0 <= e.ts <= 2.0 && (e.payload.Snapshot? || e.payload.Trade?)
    requires sources == [] || exists t :: sources == [BookSourceAt(t)]
    ensures FromMarketEvent(FAIR_CFG, sources, BOOK, e) == FairUpdate([BookSourceAt(e.ts)], Some(FAIR_STATE))
  {
    SourceOfBook(e.ts);
    OneSource(e.ts);
    hide SourceFromBook, FromSources;
    assert Reported(sources, e) == sources;
    assert Upsert(sources, BookSourceAt(e.ts)) == [BookSourceAt(e.ts)];
  }

  // ----- the first two steps -----

  /** What matters of the state in front of the first sell. */
  ghost predicate Quiet(cfg: Config, s: PipelineState) {
    && s.book == BOOK && (s.sources == [] || exists t :: s.sources == [BookSourceAt(t)])
    && s.shock == NO_SHOCK && s.projector == ProjectorState([], 0) && s.fills == FillState(map[], 0, 0.0)
    && s.inventory == Inventory(1.0, 100.0) && s.spec.None? && s.statusNormal.None? && s.risk.cooldownUntil == map[]
  }

  lemma NothingHappens(exp: ExpFn, s: PipelineState, e: Event)
    requires Quiet(WitnessConfig(exp), s) && e.payload.Snapshot? && e.ts == 0.0
    ensures var step := StepWithFair(WitnessConfig(exp), s, e, FAIR_STATE);
            !step.raised && Quiet(WitnessConfig(exp), step.state) && FillsIn(step.emitted) == []
  {
    var cfg := WitnessConfig(exp);
    NoShockWithoutTrades(exp, e);
    NoTradeNoFills(cfg, s, e, FAIR_STATE);
    NoTradeCompletes(cfg, s, e, FAIR_STATE);
    StepLogs(cfg, s, e, FAIR_STATE);
    var next := AfterFills(cfg, s, e, FAIR_STATE);
    QuietAfterFills(exp, s, e);
    QuietQuoting(exp, next, e);
    hide StepWithFair, AfterFills, QuoteStep, WalkOf, Quiet;
    StepEndsQuoting(cfg, s, e, FAIR_STATE);
  }

  lemma StepEndsQuoting(cfg: Config, s: PipelineState, e: Event, fair: FairState)
    requires !StepWithFair(cfg, s, e, fair).raised
    ensures var next := AfterFills(cfg, s, e, fair);
            StepWithFair(cfg, s, e, fair).state == QuoteStep(cfg, next, e, fair, next.lastShock).state
  {
    hide SettledFills, AfterFills, QuoteStep, WalkOf, HeadOutput;
  }

  lemma NoShockWithoutTrades(exp: ExpFn, e: Event)
    requires e.payload.Snapshot?
    ensures var u := ShockStep(SHOCK_CFG, exp, NO_SHOCK, e, BOOK, FAIR_STATE);
            && u.memory == NO_SHOCK && u.shock.None?
            && u.state.bidActivation == 0.0 && u.state.askActivation == 0.0 && u.state.activation == 0.0
  {
    BookIsThin(0.0);
    hide DepthAroundMid, Activation;
    assert [] + TradeFlow(e) == [];
  }

  lemma QuietAfterFills(exp: ExpFn, s: PipelineState, e: Event)
    requires Quiet(WitnessConfig(exp), s) && e.payload.Snapshot?
    ensures var next := AfterFills(WitnessConfig(exp), s, e, FAIR_STATE);
            && Quiet(WitnessConfig(exp), next) && next.lastFair == FAIR_STATE
            && next.lastShock.bidActivation == 0.0 && next.lastShock.askActivation == 0.0
  {
    var cfg := WitnessConfig(exp);
    NoShockWithoutTrades(exp, e);
    var shocked := AfterShock(cfg, s, e, FAIR_STATE);
    NoTradeNoFills(cfg, shocked, e, FAIR_STATE);
    hide ShockStep, WalkOf;
    assert SettleFills(cfg, shocked.inventory, shocked.risk, [], []).active == [];
  }

  lemma QuietQuoting(exp: ExpFn, next: PipelineState, e: Event)
    requires Quiet(WitnessConfig(exp), next) && next.lastFair == FAIR_STATE
    requires next.lastShock.bidActivation == 0.0 && next.lastShock.askActivation == 0.0
    ensures Quiet(WitnessConfig(exp), QuoteStep(WitnessConfig(exp), next, e, FAIR_STATE, next.lastShock).state)
  {
    var cfg := WitnessConfig(exp);
    var i := RiskInputOf(cfg, next, next.lastShock, FAIR_STATE, e.ts);
    EvaluationLetsCooldownsRun(cfg.risk, next.risk, i);
    hide Evaluate, Generated, Skew, Report, LiveOutput;
    assert Quotes(cfg, next, next.lastShock, FAIR_STATE) == [] by {
      NotQuoting(SurfaceFor(cfg.amm, cfg.exp, next.spec), QuoteInputOf(cfg, next, next.lastShock, FAIR_STATE));
    }
    hide Quotes;
    NothingToSync(PROJECTOR_CFG, MarketOf(next.book, Evaluate(cfg.risk, next.risk, i).decision, e.ts));
    hide Sync;
  }

  lemma NotQuoting(s: Surface, i: QuoteInput)
    requires !Quoting(i)
    ensures Generated(s, i) == []
  {
  }

  lemma NothingToSync(pc: ProjectorConfig, m: Market)
    ensures Sync(pc, ProjectorState([], 0), [], m) == SyncResult([], 0, [])
  {
    assert Desired(pc, [], m) == [];
  }

  /** The sell that is a shock. */
  ghost predicate FirstSell(e: Event) {
    e.ts == 1.0 && e.payload == Trade(Some(Sell), 99.0, 1.0)
  }

  lemma FlowOfOne(x: Timed<Flow>, side: Side)
    ensures FlowSum([x], side) == if x.value.side == Some(side) then x.value.notional else 0.0
  {
    assert [x][..0] == [];
    assert FlowSum([], side) == 0.0;
  }

  lemma SellObserved(e: Event)
    requires FirstSell(e)
    ensures DropExpired([] + TradeFlow(e), 1.0, 5000.0) == TradeFlow(e)
    ensures Observe(SHOCK_CFG, TradeFlow(e), BOOK) == Observation(0.0, 99.0, 0.0, 99.0, SellShock)
  {
    hide DepthAroundMid, FlowSum;
    BookIsThin(0.0);
    var x := Timed(1.0, Flow(Some(Sell), 99.0));
    assert TradeFlow(e) == [x] && [] + [x] == [x];
    FlowOfOne(x, Buy);
    FlowOfOne(x, Sell);
  }

  lemma SellIsShock(exp: ExpFn, e: Event)
    requires FirstSell(e)
    ensures var u := ShockStep(SHOCK_CFG, exp, NO_SHOCK, e, BOOK, FAIR_STATE);
            && u.shock.Some? && u.state.activation == 0.5
            && u.state.bidActivation == 0.5 && u.state.askActivation == 0.5
            && u.state.direction == SellShock && u.state.shockAgeMs == Some(0.0)
  {
    SellObserved(e);
    HalfActive(exp, 99.0);
    hide Observe, Activation, DropExpired, TradeFlow;
  }

  lemma HalfActive(exp: ExpFn, force: real)
    ensures Activation(SHOCK_CFG, exp, force, 0.0) == 0.5
  {
    assert -SHOCK_CFG.temperature * (force - SHOCK_CFG.threshold) == 0.0;
    assert -0.0 / Max(SHOCK_CFG.decayMs, 1.0) == 0.0;
    assert exp(0.0) == 1.0;
  }

  /** Inputs that no gate of the witness configuration stops, whatever its drift limits. */
  ghost predicate Calm(i: RiskInput) {
    && i.book == BOOK && i.fair.isValid && i.fair.fair.Some? && i.fair.fair.value > 0.0 && i.shock.activation >= 0.0
    && i.inventory == Inventory(1.0, 100.0) && i.inventoryCfg == INVENTORY_CFG && i.spec.None?
    && i.statusNormal.None?
  }

  function RiskWithDrop(maxDropBps1s: real): RiskConfig {
    RISK_CFG.(maxDropBps1s := maxDropBps1s)
  }

  lemma SmallSkew(fair: real)
    requires fair > 0.0
    ensures var skew := Skew(INVENTORY_CFG, Inventory(1.0, 100.0), Some(fair)); skew.Some? && Abs(skew.value) <= 10.0
  {
    var equity := fair + 100.0;
    var ratio := fair / equity;
    DivideMono(0.0, fair, equity);
    DivideMono(fair, equity, equity);
    assert Skew(INVENTORY_CFG, Inventory(1.0, 100.0), Some(fair)) == Some(ratio - 0.5);
  }

  lemma CalmPasses(drop: real, r: RiskState, i: RiskInput)
    requires Calm(i)
    ensures Evaluate(RiskWithDrop(drop), r, i).recorded
  {
    BookReads();
    BookIsThin(20.0);
    SmallSkew(i.fair.fair.value);
    hide SpreadBps, DepthAroundMid, Skew, BestBid, BestAsk;
    assert Gate(RiskWithDrop(drop), i).None?;
    hide Gate, InventoryReasons, DriftBlocked;
  }

  lemma CalmHasNoLimits(drop: real, r: RiskState, i: RiskInput)
    requires Calm(i) && r.cooldownUntil == map[]
    ensures var g := GroundsOf(RiskWithDrop(drop), r, i); g.limits == map[] && g.cooldowns == map[]
  {
    hide DriftBlocked, SideNotional, RecentChanges;
  }

  lemma DecidesYes(r: RiskState, i: RiskInput)
    requires r.cooldownUntil == map[] && Calm(i)
    ensures var d := Evaluate(RISK_CFG, r, i).decision; d.allowQuote && d.allowBuy && d.allowSell
  {
    assert RiskWithDrop(0.0) == RISK_CFG;
    CalmPasses(0.0, r, i);
    CalmHasNoLimits(0.0, r, i);
    AllowedIff(RISK_CFG, r, i, Buy);
    AllowedIff(RISK_CFG, r, i, Sell);
    GroundsDrift(RISK_CFG, r, i);
    NoDrift(r.fairHistory, i.now, i.fair.fair.value);
    hide Evaluate, GroundsOf, DriftBlocked;
    AllowedQuotes(r, i);
  }

  lemma NoDrift(history: seq<Timed<real>>, now: real, fair: real)
    ensures DriftBlocked(RISK_CFG, history, now, fair) == {}
  {
    hide FairAtOrBefore;
  }

  lemma AllowedQuotes(r: RiskState, i: RiskInput)
    requires Allows(Evaluate(RISK_CFG, r, i).decision, Buy)
    ensures Evaluate(RISK_CFG, r, i).decision.allowQuote
  {
    hide Gate, LastTradeDeviates, DriftBlocked, InventoryReasons, SideReasons;
  }

  // ----- a drop that goes unnoticed -----

  function InputAt(fair: real, now: real): RiskInput {
    RiskInput(BOOK, FAIR_STATE.(fair := Some(fair)), NO_SHOCK_STATE, Inventory(1.0, 100.0), INVENTORY_CFG, None, None,
              now)
  }

  /** A drop limit of one percent a second, and a fair that halves: seen against the full history, buying has to stop;
      the kernel allows it. */
  lemma DropGoesUnnoticed()
    ensures var cfg := RiskWithDrop(100.0);
            var r1 := Evaluate(cfg, NO_RISK_HISTORY, InputAt(100.0, 0.0)).state;
            var r2 := Evaluate(cfg, r1, InputAt(100.0, 5001.0)).state;
            && Buy in DriftBlocked(cfg, [Timed(0.0, 100.0), Timed(5001.0, 100.0)], 5500.0, 50.0)
            && Allows(Evaluate(cfg, r2, InputAt(50.0, 5500.0)).decision, Buy)
  {
    hide Evaluate, GroundsOf, DriftBlocked;
    var cfg, a, b, c := RiskWithDrop(100.0), InputAt(100.0, 0.0), InputAt(100.0, 5001.0), InputAt(50.0, 5500.0);
    var r1 := Evaluate(cfg, NO_RISK_HISTORY, a).state;
    var r2 := Evaluate(cfg, r1, b).state;
    CalmPasses(100.0, NO_RISK_HISTORY, a);
    CalmPasses(100.0, r1, b);
    CalmPasses(100.0, r2, c);
    CooldownsStayEmpty(cfg, NO_RISK_HISTORY, a);
    CooldownsStayEmpty(cfg, r1, b);
    CalmHasNoLimits(100.0, r2, c);
    assert Fell(100.0, 50.0, 100.0);
    DriftMissedAfterGap(cfg, NO_RISK_HISTORY, a, b, c);
    assert [Timed(0.0, 100.0)] + [Timed(5001.0, 100.0)] == [Timed(0.0, 100.0), Timed(5001.0, 100.0)];
  }

  lemma CooldownsStayEmpty(cfg: RiskConfig, r: RiskState, i: RiskInput)
    requires r.cooldownUntil == map[]
    ensures Evaluate(cfg, r, i).state.cooldownUntil == map[]
  {
    EvaluationLetsCooldownsRun(cfg, r, i);
    hide Evaluate;
  }

  function WitnessInput(id: Option<ShockId>): QuoteInput {
    QuoteInput(100.0, 0.0, 0.5, 0.5, id, SellShock, Some(0.0))
  }

  function WitnessQuotes(id: Option<ShockId>): seq<Quote> {
    [Quote(Buy, 100.0, 2.0, 0, 0.5, 0.0, 100.0, id, SellShock, Some(0.0)),
     Quote(Sell, 100.0, 2.0, 0, 0.5, 0.0, 100.0, id, SellShock, Some(0.0))]
  }

  lemma WholeSteps(k: int)
    ensures FloorToStep(k as real, 1.0) == k as real && CeilToStep(k as real, 1.0) == k as real
  {
    assert TenTo(-0) == 1.0 && Multiple(k, 1.0) == k as real;
    FloorOfMultiple(k, 0);
    StepsExact(k as real, 0);
    assert CeilSteps(k as real, 1.0) == k;
  }

  lemma GeneratesTwo(exp: ExpFn, id: Option<ShockId>)
    ensures Generated(SurfaceFor(AMM_CFG, exp, None), WitnessInput(id)) == WitnessQuotes(id)
  {
    var s, i := SurfaceFor(AMM_CFG, exp, None), WitnessInput(id);
    assert exp(0.0) == 1.0;
    assert BidTarget(s, i, 0) == 100.0 && AskTarget(s, i, 0) == 100.0;
    assert RawSize(s, i, Buy) == 2.0 && RawSize(s, i, Sell) == 2.0;
    WholeSteps(100);
    WholeSteps(2);
    hide FloorToStep, CeilToStep, BidTarget, AskTarget, RawSize;
    assert BidSize(s, i) == Some(2.0) && AskSize(s, i) == Some(2.0);
    assert LevelsUpTo(s, i, 0) == [];
    assert LevelsUpTo(s, i, 1) == LevelsUpTo(s, i, 0) + LevelQuotes(s, i, 0);
  }

  function PlacedBuy(id: Option<ShockId>): ActiveOrder {
    NewOrder(PROJECTOR_CFG, WitnessQuotes(id)[0], 1, 1.0)
  }

  function PlacedSell(id: Option<ShockId>): ActiveOrder {
    NewOrder(PROJECTOR_CFG, WitnessQuotes(id)[1], 2, 1.0)
  }

  lemma SyncPlacesTwo(id: Option<ShockId>, m: Market)
    requires m.now == 1.0 && m.bid == Some(99.0) && m.ask == Some(101.0)
    requires m.risk.allowQuote && m.risk.allowBuy && m.risk.allowSell
    ensures Sync(PROJECTOR_CFG, ProjectorState([], 0), WitnessQuotes(id), m) ==
            SyncResult([PlacedBuy(id), PlacedSell(id)], 2, [Placed(1, PlacedBuy(id)), Placed(2, PlacedSell(id))])
  {
    var quotes := WitnessQuotes(id);
    assert quotes[..2] == quotes && quotes[..1] == [quotes[0]] && [quotes[0]][..0] == [];
    assert SafeQuotes([], m) == [] && SafeQuotes([quotes[0]], m) == [quotes[0]];
    assert SafeQuotes(quotes, m) == quotes;
    assert Desired(PROJECTOR_CFG, quotes, m) == quotes;
    RefreshesTwo(id);
  }

  lemma RefreshesTwo(id: Option<ShockId>)
    ensures Refresh(PROJECTOR_CFG, [], WitnessQuotes(id), 1.0, 0) ==
            SyncResult([PlacedBuy(id), PlacedSell(id)], 2, [Placed(1, PlacedBuy(id)), Placed(2, PlacedSell(id))])
  {
    var quotes := WitnessQuotes(id);
    assert quotes[1..] == [quotes[1]] && [quotes[1]][1..] == [];
    var one := RefreshOne(PROJECTOR_CFG, [], quotes[0], 1.0, 0);
    assert one == SyncResult([PlacedBuy(id)], 1, [Placed(1, PlacedBuy(id))]);
    var two := RefreshOne(PROJECTOR_CFG, one.active, quotes[1], 1.0, 1);
    assert two == SyncResult([PlacedBuy(id), PlacedSell(id)], 2, [Placed(2, PlacedSell(id))]);
    assert Refresh(PROJECTOR_CFG, two.active, [], 1.0, 2) == SyncResult(two.active, 2, []);
    assert Refresh(PROJECTOR_CFG, one.active, [quotes[1]], 1.0, 1) == two;
  }

  lemma TracksTwo(id: Option<ShockId>)
    ensures var orders := FollowEvents(FILL_CFG, map[], [Placed(1, PlacedBuy(id)), Placed(2, PlacedSell(id))], BOOK);
            orders == map[1 := Track(FILL_CFG, PlacedBuy(id), BOOK), 2 := Track(FILL_CFG, PlacedSell(id), BOOK)]
  {
    hide Track;
    var a, b := Placed(1, PlacedBuy(id)), Placed(2, PlacedSell(id));
    var buy, sell := Track(FILL_CFG, PlacedBuy(id), BOOK), Track(FILL_CFG, PlacedSell(id), BOOK);
    assert [a, b][1..] == [b] && [b][1..] == [];
    TracksOwnId(PlacedBuy(id));
    TracksOwnId(PlacedSell(id));
    var one: OrderTable := map[1 := buy];
    var both: OrderTable := map[1 := buy, 2 := sell];
    assert OnOrderEvent(FILL_CFG, map[], a, BOOK) == one && OnOrderEvent(FILL_CFG, one, b, BOOK) == both;
    assert FollowEvents(FILL_CFG, both, [], BOOK) == both;
    assert FollowEvents(FILL_CFG, one, [b], BOOK) == both;
  }

  lemma TracksOwnId(o: ActiveOrder)
    ensures Track(FILL_CFG, o, BOOK).id == o.id
  {
  }

  /** What matters of the state between the two sells. */
  ghost predicate TwoRest(s: PipelineState, id: Option<ShockId>) {
    && s.book == BOOK && (exists t :: s.sources == [BookSourceAt(t)])
    && s.projector == ProjectorState([PlacedBuy(id), PlacedSell(id)], 2)
    && s.fills.orders == map[1 := Track(FILL_CFG, PlacedBuy(id), BOOK), 2 := Track(FILL_CFG, PlacedSell(id), BOOK)]
  }

  lemma SellAfterFills(exp: ExpFn, s: PipelineState, e: Event) returns (id: Option<ShockId>)
    requires Quiet(WitnessConfig(exp), s) && FirstSell(e)
    ensures var cfg, next := WitnessConfig(exp), AfterFills(WitnessConfig(exp), s, e, FAIR_STATE);
            && next.book == BOOK && next.sources == s.sources && next.projector == ProjectorState([], 0)
            && next.fills.orders == map[] && next.inventory == Inventory(1.0, 100.0)
            && next.spec.None? && next.statusNormal.None? && next.risk.cooldownUntil == map[]
            && next.lastShock.activation == 0.5
            && QuoteInputOf(cfg, next, next.lastShock, FAIR_STATE) == WitnessInput(id)
  {
    var cfg := WitnessConfig(exp);
    SellIsShock(exp, e);
    var shocked := AfterShock(cfg, s, e, FAIR_STATE);
    NoTradeNoFills(cfg, shocked, e, FAIR_STATE);
    id := shocked.lastShock.lastShockId;
    hide ShockStep, WalkOf;
    assert SettleFills(cfg, shocked.inventory, shocked.risk, [], []).active == [];
    assert Skew(INVENTORY_CFG, Inventory(1.0, 100.0), Some(100.0)) == Some(0.0);
  }

  lemma SellSyncs(exp: ExpFn, s: PipelineState, e: Event) returns (id: Option<ShockId>)
    requires Quiet(WitnessConfig(exp), s) && FirstSell(e)
    ensures var cfg, next := WitnessConfig(exp), AfterFills(WitnessConfig(exp), s, e, FAIR_STATE);
            && next.book == BOOK && next.sources == s.sources && next.fills.orders == map[]
            && SyncOf(cfg, next, FAIR_STATE, 1.0) ==
               SyncResult([PlacedBuy(id), PlacedSell(id)], 2, [Placed(1, PlacedBuy(id)), Placed(2, PlacedSell(id))])
  {
    var cfg, next := WitnessConfig(exp), AfterFills(WitnessConfig(exp), s, e, FAIR_STATE);
    id := SellAfterFills(exp, s, e);
    BookReads();
    GeneratesTwo(exp, id);
    DecidesYes(next.risk, DecisionInput(cfg, next, FAIR_STATE, 1.0));
    var decision := Evaluate(cfg.risk, next.risk, DecisionInput(cfg, next, FAIR_STATE, 1.0)).decision;
    hide AfterFills, Generated, Evaluate, QuoteInputOf, SurfaceFor, Sync, BestBid, BestAsk, NewOrder;
    SyncPlacesTwo(id, MarketOf(BOOK, decision, 1.0));
  }

  lemma FirstSellPlaces(exp: ExpFn, s: PipelineState, e: Event) returns (id: Option<ShockId>)
    requires Quiet(WitnessConfig(exp), s) && FirstSell(e) && exists t :: s.sources == [BookSourceAt(t)]
    ensures var step := StepWithFair(WitnessConfig(exp), s, e, FAIR_STATE);
            && !step.raised && TwoRest(step.state, id) && FillsIn(step.emitted) == []
            && PlacesBuy(step.emitted, id)
  {
    hide StepWithFair, AfterFills, SyncOf, WalkOf, Track, NewOrder, FollowEvents, PlacesBuy, TwoRest;
    var cfg := WitnessConfig(exp);
    NoTradeNoFills(cfg, s, e, FAIR_STATE);
    NoTradeCompletes(cfg, s, e, FAIR_STATE);
    StepLogs(cfg, s, e, FAIR_STATE);
    id := SellSyncs(exp, s, e);
    TwoRestAfter(exp, s, e, id);
    BuyEmitted(cfg, s, e, id);
  }

  lemma TwoRestAfter(exp: ExpFn, s: PipelineState, e: Event, id: Option<ShockId>)
    requires !StepWithFair(WitnessConfig(exp), s, e, FAIR_STATE).raised && e.ts == 1.0
    requires WalkOf(FILL_CFG, s.fills, e, FAIR_STATE).orders == map[] && exists t :: s.sources == [BookSourceAt(t)]
    requires var next := AfterFills(WitnessConfig(exp), s, e, FAIR_STATE);
             && next.book == BOOK && next.sources == s.sources
             && SyncOf(WitnessConfig(exp), next, FAIR_STATE, 1.0) ==
                SyncResult([PlacedBuy(id), PlacedSell(id)], 2, [Placed(1, PlacedBuy(id)), Placed(2, PlacedSell(id))])
    ensures TwoRest(StepWithFair(WitnessConfig(exp), s, e, FAIR_STATE).state, id)
  {
    hide StepWithFair, AfterFills, SyncOf, WalkOf, Track, NewOrder, FollowEvents;
    StepStateParts(WitnessConfig(exp), s, e, FAIR_STATE);
    StepKeepsMarket(WitnessConfig(exp), s, e, FAIR_STATE);
    TracksTwo(id);
  }

  ghost predicate PlacesBuy(out: seq<Emitted>, id: Option<ShockId>) {
    exists k :: PlacesAt(out, k, 1) && out[k].change.order == PlacedBuy(id)
  }

  lemma BuyEmitted(cfg: Config, s: PipelineState, e: Event, id: Option<ShockId>)
    requires !StepWithFair(cfg, s, e, FAIR_STATE).raised
    requires var events := SyncOf(cfg, AfterFills(cfg, s, e, FAIR_STATE), FAIR_STATE, e.ts).events;
             |events| == 2 && events[0] == Placed(1, PlacedBuy(id))
    ensures PlacesBuy(StepWithFair(cfg, s, e, FAIR_STATE).emitted, id)
  {
    EmittedParts(cfg, s, e, FAIR_STATE);
    var next, out := AfterFills(cfg, s, e, FAIR_STATE), StepWithFair(cfg, s, e, FAIR_STATE).emitted;
    var head, events := HeadOutput(cfg, s, e, FAIR_STATE), SyncOf(cfg, next, FAIR_STATE, e.ts).events;
    hide StepWithFair, AfterFills, SyncOf, Evaluate, HeadOutput, LiveOutput, UpdateOf;
    assert out[|head| + 1] == Order(events[0]);
    assert PlacesAt(out, |head| + 1, 1);
  }

  lemma StepKeepsMarket(cfg: Config, s: PipelineState, e: Event, fair: FairState)
    requires !StepWithFair(cfg, s, e, fair).raised
    ensures var step, next := StepWithFair(cfg, s, e, fair), AfterFills(cfg, s, e, fair);
            && step.state.book == next.book && step.state.sources == next.sources
            && step.state.projector == ProjectorState(SyncOf(cfg, next, fair, e.ts).active,
                                                      SyncOf(cfg, next, fair, e.ts).counter)
  {
    hide Evaluate, Sync, Quotes, FollowEvents, OrderOutput, LiveOutput, SettledFills, ShockStep, WalkOf, UpdateOf,
      HeadOutput;
  }

  // ----- the second sell -----

  ghost predicate SecondSell(e: Event) {
    e.ts == 2.0 && e.payload == Trade(Some(Sell), 100.0, 1.0)
  }

  lemma OnlyBuyEligible(st: FillState, e: Event, id: Option<ShockId>)
    requires st.orders == map[1 := Track(FILL_CFG, PlacedBuy(id), BOOK), 2 := Track(FILL_CFG, PlacedSell(id), BOOK)]
    requires SecondSell(e)
    ensures Candidates(FILL_CFG, st, e) == [Track(FILL_CFG, PlacedBuy(id), BOOK)]
  {
    var buy := Track(FILL_CFG, PlacedBuy(id), BOOK);
    TableIds(FILL_CFG, st.orders, Sell, 100.0, 2.0);
    var all := EligibleSet(FILL_CFG, st.orders, Sell, 100.0, 2.0);
    assert all == {buy};
    RankingUnique(Sell, Ranking(Sell, all), [buy], all);
  }

  lemma BuyStartsWithoutQueue(id: Option<ShockId>)
    ensures var buy := Track(FILL_CFG, PlacedBuy(id), BOOK);
            buy.id == 1 && buy.remaining == 2.0 && buy.queueAhead == 0.0
  {
    hide QueueAt;
    assert QueueAt(BOOK, Buy, 100.0) * FILL_CFG.queueAheadMultiplier == 0.0;
  }

  lemma SecondSellFills(exp: ExpFn, s: PipelineState, e: Event, id: Option<ShockId>)
    requires TwoRest(s, id) && SecondSell(e)
    ensures var fills := WalkOf(FILL_CFG, s.fills, e, FAIR_STATE).fills;
            |fills| == 1 && fills[0].orderId == 1 && fills[0].size == 1.0
    ensures !StepWithFair(WitnessConfig(exp), s, e, FAIR_STATE).raised
  {
    var cfg, buy := WitnessConfig(exp), Track(FILL_CFG, PlacedBuy(id), BOOK);
    OnlyBuyEligible(s.fills, e, id);
    BuyStartsWithoutQueue(id);
    var ctx := ContextOf(s.fills, e, FAIR_STATE);
    hide Track, Candidates, NewOrder;
    HalfFill(s.fills.orders, buy, ctx, s.fills.counter);
    OneFillSettles(exp, s, e);
  }

  lemma HalfFill(orders: OrderTable, buy: Tracked, ctx: TradeContext, counter: nat)
    requires buy.id == 1 && buy.remaining == 2.0 && buy.queueAhead == 0.0
    ensures var fills := Walk(orders, [buy], 1.0, ctx, counter).fills;
            |fills| == 1 && fills[0].orderId == 1 && fills[0].size == 1.0
  {
    var c := Consume(buy, 1.0);
    assert c.filled == 1.0 && c.flow == 0.0;
    assert [buy][1..] == [];
    assert Walk(Settle(orders, c), [], 0.0, ctx, counter + 1).fills == [];
  }

  lemma OneFillSettles(exp: ExpFn, s: PipelineState, e: Event)
    requires |WalkOf(FILL_CFG, s.fills, e, FAIR_STATE).fills| == 1
    ensures !StepWithFair(WitnessConfig(exp), s, e, FAIR_STATE).raised
  {
    var cfg, fills := WitnessConfig(exp), WalkOf(FILL_CFG, s.fills, e, FAIR_STATE).fills;
    hide WalkOf, ShockStep, AfterFills, HeadOutput, RecordFill, RemoveFilled, ApplyFill;
    hide Evaluate, Sync, Quotes, FollowEvents, OrderOutput, LiveOutput, UpdateOf;
    assert fills[1..] == [];
    assert !SettleFills(cfg, s.inventory, s.risk, s.projector.active, fills).raised by {
      var f := fills[0];
      assert !SettleFills(cfg, ApplyFill(s.inventory, f.side, f.price, f.size, f.fee),
                          RecordFill(cfg.risk, s.risk, f.side, f.ts, f.price, f.size),
                          RemoveFilled(s.projector.active, f.orderId), []).raised;
    }
  }

  // ----- the run -----

  lemma {:induction false} FilledSomewhere(trace: seq<Emitted>, id: OrderId) returns (k: int)
    requires TraceFilled(trace, id) != 0.0
    ensures FillsAt(trace, k, id)
    decreases |trace|
  {
    if trace[0].VirtualFill? && trace[0].fill.orderId == id {
      k := 0;
    } else {
      var rest := FilledSomewhere(trace[1..], id);
      k := rest + 1;
    }
  }

  lemma StepFromBook(cfg: Config, s: PipelineState, e: Event)
    requires cfg.fair == FAIR_CFG && Observed(cfg, s, e).book == BOOK
    requires 0.0 <= e.ts <= 2.0 && (e.payload.Snapshot? || e.payload.Trade?)
    requires Observed(cfg, s, e).sources == [] || exists t :: Observed(cfg, s, e).sources == [BookSourceAt(t)]
    ensures Step(cfg, s, e) == StepWithFair(cfg, Observed(cfg, s, e).(sources := [BookSourceAt(e.ts)]), e, FAIR_STATE)
  {
    FairFromBook(Observed(cfg, s, e).sources, e);
    hide FromMarketEvent, Observed, StepWithFair;
  }

  lemma FirstStep(exp: ExpFn, e: Event)
    requires e.ts == 0.0 && e.sequence.None?
    requires e.payload == Snapshot([PriceLevel(99.0, 1.0)], [PriceLevel(101.0, 1.0)])
    ensures var step := Step(WitnessConfig(exp), Initial(WitnessConfig(exp)), e);
            && !step.raised && Quiet(WitnessConfig(exp), step.state) && FillsIn(step.emitted) == []
            && (exists t :: step.state.sources == [BookSourceAt(t)])
  {
    var cfg := WitnessConfig(exp);
    var s := Initial(cfg);
    SnapshotIsBook();
    assert Observed(cfg, s, e) == s.(book := BOOK);
    StepFromBook(cfg, s, e);
    var seen := s.(book := BOOK, sources := [BookSourceAt(0.0)]);
    NothingHappens(exp, seen, e);
    SourcesKept(cfg, seen, e);
    hide StepWithFair;
  }

  lemma SourcesKept(cfg: Config, s: PipelineState, e: Event)
    ensures StepWithFair(cfg, s, e, FAIR_STATE).state.sources == s.sources
  {
    hide Evaluate, Sync, Quotes, FollowEvents, OrderOutput, LiveOutput, SettledFills, ShockStep, WalkOf, UpdateOf,
      HeadOutput;
  }

  lemma SecondStep(exp: ExpFn, s: PipelineState, e: Event) returns (id: Option<ShockId>)
    requires Quiet(WitnessConfig(exp), s) && FirstSell(e) && exists t :: s.sources == [BookSourceAt(t)]
    ensures var step := Step(WitnessConfig(exp), s, e);
            !step.raised && TwoRest(step.state, id) && FillsIn(step.emitted) == [] && PlacesBuy(step.emitted, id)
  {
    var cfg := WitnessConfig(exp);
    var seen := Observed(cfg, s, e);
    TradeObserved(cfg, s, e);
    hide StepWithFair, Step, PlacesBuy, TwoRest, Observed;
    StepFromBook(cfg, s, e);
    id := FirstSellPlaces(exp, seen.(sources := [BookSourceAt(1.0)]), e);
  }

  lemma ThirdStep(exp: ExpFn, s: PipelineState, e: Event, id: Option<ShockId>)
    requires TwoRest(s, id) && SecondSell(e)
    ensures var step := Step(WitnessConfig(exp), s, e);
            !step.raised && FilledBy(FillsIn(step.emitted), 1) == 1.0
  {
    var cfg := WitnessConfig(exp);
    var seen := Observed(cfg, s, e);
    TradeObserved(cfg, s, e);
    hide StepWithFair, Step, TwoRest, Observed;
    StepFromBook(cfg, s, e) by { TwoRestBook(s, id); }
    var t := seen.(sources := [BookSourceAt(2.0)]);
    TwoRestElsewhere(s, t, id);
    ThirdStepFills(exp, t, e, id);
  }

  lemma TradeObserved(cfg: Config, s: PipelineState, e: Event)
    requires e.payload.Trade?
    ensures Observed(cfg, s, e) == s.(risk := RecordTrade(s.risk, e.payload.price, e.ts))
  {
    hide RecordTrade;
  }

  lemma TwoRestBook(s: PipelineState, id: Option<ShockId>)
    requires TwoRest(s, id)
    ensures s.book == BOOK && exists t :: s.sources == [BookSourceAt(t)]
  {
    hide Track, NewOrder;
  }

  lemma TwoRestElsewhere(s: PipelineState, t: PipelineState, id: Option<ShockId>)
    requires TwoRest(s, id) && t.book == s.book && t.projector == s.projector && t.fills.orders == s.fills.orders
    requires t.sources == [BookSourceAt(2.0)]
    ensures TwoRest(t, id)
  {
    hide Track, NewOrder;
  }

  lemma ThirdStepFills(exp: ExpFn, s: PipelineState, e: Event, id: Option<ShockId>)
    requires TwoRest(s, id) && SecondSell(e)
    ensures var step := StepWithFair(WitnessConfig(exp), s, e, FAIR_STATE);
            !step.raised && FilledBy(FillsIn(step.emitted), 1) == 1.0
  {
    hide StepWithFair, TwoRest, WalkOf, FillsIn, ShocksIn, ShockStep;
    SecondSellFills(exp, s, e, id);
    StepLogs(WitnessConfig(exp), s, e, FAIR_STATE);
    var fills := WalkOf(FILL_CFG, s.fills, e, FAIR_STATE).fills;
    assert fills[1..] == [];
  }

  lemma RunOfThree(cfg: Config, a: Event, b: Event, c: Event)
    ensures var s1 := Step(cfg, Initial(cfg), a);
            !s1.raised ==>
              var s2 := Step(cfg, s1.state, b);
              !s2.raised ==>
                var s3 := Step(cfg, s2.state, c);
                Run(cfg, [a, b, c]) == RunResult(s3.state, s1.emitted + s2.emitted + s3.emitted, s3.raised)
  {
    hide Step;
    assert [a, b, c][..2] == [a, b] && [a, b][..1] == [a] && [a][..0] == [];
    var s1 := Step(cfg, Initial(cfg), a);
    assert [] + s1.emitted == s1.emitted;
    RunSnoc(cfg, [a]);
    assert Run(cfg, [a]) == RunResult(s1.state, s1.emitted, s1.raised);
    if !s1.raised {
      var s2 := Step(cfg, s1.state, b);
      assert Run(cfg, [a, b]) == RunResult(s2.state, s1.emitted + s2.emitted, s2.raised);
    }
  }

  /** The order with this id was placed, has expired by `now`, is partly filled and still tracked, though not
      active. */
  ghost predicate OutlivesExpiry(r: RunResult, id: OrderId, now: real) {
    && !r.raised && id in r.state.fills.orders
    && (forall a :: a in r.state.projector.active ==> a.id != id)
    && exists i :: PlacesAt(r.trace, i, id) && r.trace[i].change.order.expiresAt <= now
                   && 0.0 < TraceFilled(r.trace, id) < r.trace[i].change.order.size
  }

  lemma PlacedInMiddle(a: seq<Emitted>, b: seq<Emitted>, c: seq<Emitted>, id: Option<ShockId>) returns (i: int)
    requires PlacesBuy(b, id)
    ensures PlacesAt(a + b + c, i, 1) && (a + b + c)[i].change.order == PlacedBuy(id)
  {
    var k :| PlacesAt(b, k, 1) && b[k].change.order == PlacedBuy(id);
    i := |a| + k;
    assert (a + b + c)[i] == b[k];
  }

  lemma FilledInThird(a: seq<Emitted>, b: seq<Emitted>, c: seq<Emitted>)
    requires FillsIn(a) == [] && FillsIn(b) == [] && FilledBy(FillsIn(c), 1) == 1.0
    ensures TraceFilled(a + b + c, 1) == 1.0
  {
    FillsConcat(a + b, c);
    FillsConcat(a, b);
    FilledByTrace(a + b + c, 1);
    assert [] + FillsIn(c) == FillsIn(c);
  }

  /** With any exponential, the three events of the witness log make a run in which order 1 is partly filled at the
      moment of its expiry, leaves the projector, and stays in the fill model. */
  lemma PartialFillOutlivesExpiry(exp: ExpFn, venue: string, symbol: string)
    ensures OutlivesExpiry(Run(WitnessConfig(exp), WitnessLog(venue, symbol)), 1, 2.0)
  {
    var cfg, log := WitnessConfig(exp), WitnessLog(venue, symbol);
    RunOfThree(cfg, log[0], log[1], log[2]);
    FirstStep(exp, log[0]);
    var s1 := Step(cfg, Initial(cfg), log[0]);
    var id := SecondStep(exp, s1.state, log[1]);
    var s2 := Step(cfg, s1.state, log[1]);
    ThirdStep(exp, s2.state, log[2], id);
    var s3 := Step(cfg, s2.state, log[2]);
    hide Step, Run, Quiet, TwoRest, PlacesBuy, FilledBy, FillsIn, WitnessConfig;
    FilledInThird(s1.emitted, s2.emitted, s3.emitted);
    var i := PlacedInMiddle(s1.emitted, s2.emitted, s3.emitted, id);
    HalfFilledOutlives(cfg, log, i, id);
  }

  lemma HalfFilledOutlives(cfg: Config, log: seq<Event>, i: int, id: Option<ShockId>)
    requires !Run(cfg, log).raised && PlacesAt(Run(cfg, log).trace, i, 1)
    requires Run(cfg, log).trace[i].change.order == PlacedBuy(id) && TraceFilled(Run(cfg, log).trace, 1) == 1.0
    ensures OutlivesExpiry(Run(cfg, log), 1, 2.0)
  {
    hide Run, TraceFilled;
    var k := FilledSomewhere(Run(cfg, log).trace, 1);
    RemainderNeverExpires(cfg, log, i, k, 1);
    FilledIsInactive(cfg, log, i, 1);
  }

  lemma FilledIsInactive(cfg: Config, log: seq<Event>, i: int, id: OrderId)
    requires !Run(cfg, log).raised && PlacesAt(Run(cfg, log).trace, i, id) &&
             TraceFilled(Run(cfg, log).trace, id) != 0.0
    ensures forall a :: a in Run(cfg, log).state.projector.active ==> a.id != id
  {
    var r, d := Run(cfg, log), DelaysOf(cfg);
    RunAgrees(cfg, log);
    PlacementOf(d, r.trace, i, id);
    EveryOrderAccountedFor(cfg, log, i, id);
    hide Run, TraceFilled;
    ActivePlaced(cfg, r.state, NoteAll(d, BLANK, r.trace), id);
  }

  lemma ActivePlaced(cfg: Config, s: PipelineState, l: Ledger, id: OrderId)
    requires Agrees(cfg, s, l) && id in l.placed && l.placed[id] !in s.projector.active
    ensures forall a :: a in s.projector.active ==> a.id != id
  {
  }
}
