/** One replay step: market data, fair price, shock, fills, risk, quotes, orders. */
module Pipelines {
  import opened Types
  import opened OrderBooks
  import opened FairPrice
  import opened Shocks
  import opened FillModels
  import opened Projectors
  import opened Inventories
  import opened BitbankRules
  import opened QuoteSurfaces
  import opened Risks
  import opened LiveGates

  datatype Config = Config(exp: ExpFn, inventory: InventoryConfig, initialBase: real, initialQuote: real,
                           fair: FairConfig, risk: RiskConfig, shock: ShockConfig, amm: AmmConfig,
                           projector: ProjectorConfig, fill: FillConfig, gate: GateConfig, fallbackFeeBps: real,
                           feeFromPairSpec: bool, clampNegativeFee: bool)

  datatype PipelineState = PipelineState(
    inventory: Inventory, book: BookState, sources: seq<Source>, risk: RiskState, shock: ShockMemory,
    projector: ProjectorState, fills: FillState, spec: Option<PairSpec>, statusNormal: Option<bool>,
    lastFair: FairState, lastShock: ShockState, lastRisk: RiskDecision)

  const NO_FAIR := FairState(None, 0, None, false, Some(NotInitialized), [], None)
  const NO_SHOCK_STATE := ShockState(0.0, 0.0, 0.0, 0.0, 0.0, None, NotInitialized, Neutral, 0.0, 0.0, None, None)
  const NO_DECISION := RiskDecision(false, false, false, 0.0, Some(NotInitialized), None, map[])

  function Initial(cfg: Config): PipelineState {
    PipelineState(Inventory(cfg.initialBase, cfg.initialQuote), EMPTY_BOOK, [], NO_RISK_HISTORY, NO_SHOCK,
                  ProjectorState([], 0), FillState(map[], 0, cfg.fallbackFeeBps), None, None,
                  NO_FAIR, NO_SHOCK_STATE, NO_DECISION)
  }

  /** `emitted` is what the step returns; it is empty when the step raises. `touches` and `recorded` describe the
      step's flow sharing and whether risk recorded the fair. */
  datatype StepResult = StepResult(state: PipelineState, emitted: seq<Emitted>, raised: bool,
                                   touches: seq<Touch>, recorded: bool)

  // ----- market data -----

  function IngestMetadata(cfg: Config, s: PipelineState, e: Event): PipelineState {
    match e.payload
    case PairSpecInfo(spec) =>
      var fee := if cfg.feeFromPairSpec then MakerFeeBps(spec, cfg.clampNegativeFee) else s.fills.makerFeeBps;
      s.(spec := Some(spec), fills := s.fills.(makerFeeBps := fee))
    case StatusInfo(normal) => if normal.Some? then s.(statusNormal := normal) else s
    case _ => s
  }

  function ApplyMarketData(s: PipelineState, e: Event): PipelineState {
    match e.payload
    case Snapshot(_, _) => s.(book := ApplyEvent(s.book, e))
    case Delta(_, _) => s.(book := ApplyEvent(s.book, e))
    case Trade(_, price, _) => s.(risk := RecordTrade(s.risk, price, e.ts))
    case _ => s
  }

  function Observed(cfg: Config, s: PipelineState, e: Event): PipelineState {
    ApplyMarketData(IngestMetadata(cfg, s, e), e)
  }

  // ----- fills -----

  datatype Settled = Settled(inventory: Inventory, risk: RiskState, active: seq<ActiveOrder>, emitted: seq<Emitted>,
                             raised: bool)

  /** Books the fills one by one; an overdraft raises after the balances have changed. */
  function SettleFills(cfg: Config, inv: Inventory, r: RiskState, active: seq<ActiveOrder>, fills: seq<Fill>): Settled
    decreases |fills|
  {
    if fills == [] then Settled(inv, r, active, [], false) else
    var f := fills[0];
    var paid := ApplyFill(inv, f.side, f.price, f.size, f.fee);
    if Overdrawn(cfg.inventory, paid) then Settled(paid, r, active, [], true) else
    var rest := SettleFills(cfg, paid, RecordFill(cfg.risk, r, f.side, f.ts, f.price, f.size),
                            RemoveFilled(active, f.orderId), fills[1..]);
    rest.(emitted := [VirtualFill(f)] + rest.emitted)
  }

  // ----- quotes and orders -----

  function RiskInputOf(cfg: Config, s: PipelineState, shock: ShockState, fair: FairState, now: real): RiskInput {
    RiskInput(s.book, fair, shock, s.inventory, cfg.inventory, s.spec, s.statusNormal, now)
  }

  function SkewOrZero(cfg: Config, s: PipelineState, fair: FairState): real {
    var skew := Skew(cfg.inventory, s.inventory, fair.fair);
    if skew.Some? then skew.value else 0.0
  }

  function QuoteInputOf(cfg: Config, s: PipelineState, shock: ShockState, fair: FairState): QuoteInput
    requires fair.fair.Some?
  {
    QuoteInput(fair.fair.value, SkewOrZero(cfg, s, fair), shock.bidActivation, shock.askActivation,
               shock.lastShockId, shock.direction, shock.shockAgeMs)
  }

  function Quotes(cfg: Config, s: PipelineState, shock: ShockState, fair: FairState): seq<Quote> {
    if fair.isValid && fair.fair.Some? then
      Generated(SurfaceFor(cfg.amm, cfg.exp, s.spec), QuoteInputOf(cfg, s, shock, fair))
    else []
  }

  /** The fill model follows the projector only through the emitted order events. */
  function FollowEvents(cfg: FillConfig, orders: OrderTable, events: seq<OrderEvent>, b: BookState): OrderTable
    decreases |events|
  {
    if events == [] then orders else FollowEvents(cfg, OnOrderEvent(cfg, orders, events[0], b), events[1..], b)
  }

  function OrderOutput(events: seq<OrderEvent>): (r: seq<Emitted>)
    ensures |r| == |events| && forall i :: 0 <= i < |r| ==> r[i] == Order(events[i])
  {
    seq(|events|, i requires 0 <= i < |events| => Order(events[i]))
  }

  /** One intent and one blocked event for each placed order. */
  function LiveOutput(v: GateView, events: seq<OrderEvent>): seq<Emitted>
    decreases |events|
  {
    if events == [] then [] else
    LiveEvents(v, events[0]) + LiveOutput(v, events[1..])
  }

  function LiveEvents(v: GateView, change: OrderEvent): seq<Emitted> {
    if change.Placed? then [LiveIntent(change.order), LiveBlocked(change.order, GateReasonOf(v, change.order))] else []
  }

  function ViewOf(cfg: Config, s: PipelineState, decision: RiskDecision): GateView {
    GateView(cfg.gate, s.spec, s.statusNormal, s.book, decision)
  }

  function Report(b: BookState): BookReport {
    BookReport(SpreadBps(b), DepthAroundMid(b, 20.0), b.stale, b.staleReason)
  }

  function UpdateOf(cfg: Config, s: PipelineState, now: real, decision: RiskDecision, shock: ShockState,
                    fair: FairState): Emitted {
    RiskUpdate(now, decision, shock, fair, Report(s.book), Skew(cfg.inventory, s.inventory, fair.fair))
  }

  function MarkOutput(e: Event, fair: FairState): seq<Emitted> {
    if fair.fair.Some? then [MarkPrice(e.ts, fair)] else []
  }

  function ShockOutput(shock: Option<ShockId>): seq<Emitted> {
    if shock.Some? then [ForcedFlow(shock.value)] else []
  }

  lemma QuotesDependOn(cfg: Config, s: PipelineState, t: PipelineState, shock: ShockState, fair: FairState)
    requires s.spec == t.spec && s.inventory == t.inventory
    ensures Quotes(cfg, s, shock, fair) == Quotes(cfg, t, shock, fair)
  {
    hide Generated, Skew, SurfaceFor;
  }

  lemma FollowStart(v: GateView, events: seq<OrderEvent>)
    ensures events[0..] == events && [] + LiveOutput(v, events) == LiveOutput(v, events)
  {
  }

  lemma FollowOne(cfg: FillConfig, orders: OrderTable, v: GateView, events: seq<OrderEvent>, i: nat, b: BookState)
    requires i < |events|
    ensures FollowEvents(cfg, orders, events[i..], b) ==
              FollowEvents(cfg, OnOrderEvent(cfg, orders, events[i], b), events[i + 1..], b)
    ensures LiveOutput(v, events[i..]) == LiveEvents(v, events[i]) + LiveOutput(v, events[i + 1..])
  {
    hide OnOrderEvent, LiveEvents;
    assert events[i..][1..] == events[i + 1..];
  }

  lemma FollowEnd(cfg: FillConfig, orders: OrderTable, v: GateView, events: seq<OrderEvent>, b: BookState)
    ensures FollowEvents(cfg, orders, events[|events|..], b) == orders && LiveOutput(v, events[|events|..]) == []
  {
  }

  // ----- the step -----

  /** Risk, quotes and orders, after the fills of the event have been settled. */
  function QuoteStep(cfg: Config, s: PipelineState, e: Event, fair: FairState, shock: ShockState): StepResult {
    var ev := Evaluate(cfg.risk, s.risk, RiskInputOf(cfg, s, shock, fair, e.ts));
    var synced := Sync(cfg.projector, s.projector, Quotes(cfg, s, shock, fair), MarketOf(s.book, ev.decision, e.ts));
    var update := UpdateOf(cfg, s, e.ts, ev.decision, shock, fair);
    StepResult(s.(risk := ev.state, lastRisk := ev.decision,
                  projector := ProjectorState(synced.active, synced.counter),
                  fills := s.fills.(orders := FollowEvents(cfg.fill, s.fills.orders, synced.events, s.book))),
               [update] + OrderOutput(synced.events) + LiveOutput(ViewOf(cfg, s, ev.decision), synced.events),
               false, [], ev.recorded)
  }

  ghost function SettledFills(cfg: Config, s: PipelineState, e: Event, fair: FairState): Settled {
    SettleFills(cfg, s.inventory, s.risk, s.projector.active, WalkOf(cfg.fill, s.fills, e, fair).fills)
  }

  function AfterShock(cfg: Config, s: PipelineState, e: Event, fair: FairState): PipelineState {
    var su := ShockStep(cfg.shock, cfg.exp, s.shock, e, s.book, fair);
    s.(lastFair := fair, shock := su.memory, lastShock := su.state)
  }

  ghost function SettledState(cfg: Config, s: PipelineState, e: Event, fair: FairState): PipelineState {
    var settled := SettledFills(cfg, s, e, fair);
    s.(fills := AfterMarket(cfg.fill, s.fills, e, fair), inventory := settled.inventory, risk := settled.risk,
       projector := s.projector.(active := settled.active))
  }

  /** The state after shock detection and fills. */
  ghost function AfterFills(cfg: Config, s: PipelineState, e: Event, fair: FairState): PipelineState {
    SettledState(cfg, AfterShock(cfg, s, e, fair), e, fair)
  }

  /** What a step emits before the risk state. */
  ghost function HeadOutput(cfg: Config, s: PipelineState, e: Event, fair: FairState): seq<Emitted> {
    MarkOutput(e, fair) + ShockOutput(ShockStep(cfg.shock, cfg.exp, s.shock, e, s.book, fair).shock)
    + SettledFills(cfg, s, e, fair).emitted
  }

  ghost function StepWithFair(cfg: Config, s: PipelineState, e: Event, fair: FairState): StepResult {
    var next, touches := AfterFills(cfg, s, e, fair), WalkOf(cfg.fill, s.fills, e, fair).touches;
    if SettledFills(cfg, s, e, fair).raised then StepResult(next, [], true, touches, false) else
    var quoted := QuoteStep(cfg, next, e, fair, next.lastShock);
    quoted.(emitted := HeadOutput(cfg, s, e, fair) + quoted.emitted, touches := touches)
  }

  ghost function Step(cfg: Config, s: PipelineState, e: Event): StepResult {
    var seen := Observed(cfg, s, e);
    var u := FromMarketEvent(cfg.fair, seen.sources, seen.book, e);
    var next := seen.(sources := u.sources);
    if u.state.None? then StepResult(next, [], true, [], false) else StepWithFair(cfg, next, e, u.state.value)
  }

  lemma QuotingCompletes(cfg: Config, s: PipelineState, e: Event, fair: FairState, shock: ShockState)
    ensures !QuoteStep(cfg, s, e, fair, shock).raised
  {
    hide Evaluate, Sync, Quotes, FollowEvents, OrderOutput, LiveOutput, UpdateOf;
  }

  // ----- the object -----

  class GhostAmmPipeline {
    const cfg: Config
    const inventory: InventoryState
    const book: OrderBook
    const fairEngine: FairPriceEngine
    const risk: RiskKernel
    const shock: ShockActivator
    const projector: OrderProjector
    const fillModel: ConservativeQueueFillModel
    var pairSpec: Option<PairSpec>
    var statusNormal: Option<bool>
    var lastFair: FairState
    var lastShock: ShockState
    var lastRisk: RiskDecision

    ghost predicate Valid() {
      && inventory.cfg == cfg.inventory && fairEngine.cfg == cfg.fair && risk.cfg == cfg.risk
      && shock.cfg == cfg.shock && shock.exp == cfg.exp && projector.cfg == cfg.projector && fillModel.cfg == cfg.fill
    }

    ghost function Parts(): set<object> {
      {this, inventory, book, fairEngine, risk, shock, projector, fillModel}
    }

    ghost function State(): PipelineState
      reads Parts()
    {
      PipelineState(inventory.State(), book.State(), fairEngine.sources, risk.State(), shock.State(), projector.State(),
                    fillModel.State(), pairSpec, statusNormal, lastFair, lastShock, lastRisk)
    }

    constructor (cfg: Config)
      ensures this.cfg == cfg && Valid() && State() == Initial(cfg) && fresh(Parts())
    {
      this.cfg := cfg;
      inventory := new InventoryState(cfg.inventory, cfg.initialBase, cfg.initialQuote);
      book := new OrderBook();
      fairEngine := new FairPriceEngine(cfg.fair);
      risk := new RiskKernel(cfg.risk);
      shock := new ShockActivator(cfg.shock, cfg.exp);
      projector := new OrderProjector(cfg.projector);
      fillModel := new ConservativeQueueFillModel(cfg.fill, cfg.fallbackFeeBps);
      pairSpec, statusNormal := None, None;
      lastFair, lastShock, lastRisk := NO_FAIR, NO_SHOCK_STATE, NO_DECISION;
    }

    /** None when the step raises: without a fair to average, or on a fill that overdraws the inventory. */
    method Process(e: Event) returns (emitted: Option<seq<Emitted>>)
      requires Valid()
      modifies Parts()
      ensures var step := Step(cfg, old(State()), e);
              State() == step.state && emitted == if step.raised then None else Some(step.emitted)
    {
      hide FromMarketEvent, IngestMetadata, ApplyMarketData, AfterFills, SettledFills, HeadOutput, QuoteStep;
      Ingest(e);
      ReadMarketData(e);
      assert State() == Observed(cfg, old(State()), e);
      var fair := fairEngine.Update(book, e);
      if fair.None? {
        return None;
      }
      var head, ok := Trade(e, fair.value);
      if !ok {
        return None;
      }
      QuotingCompletes(cfg, State(), e, fair.value, lastShock);
      var tail := QuoteAndOrder(e, fair.value, lastShock);
      emitted := Some(head + tail);
    }

    method Ingest(e: Event)
      requires Valid()
      modifies this, fillModel
      ensures State() == IngestMetadata(cfg, old(State()), e)
    {
      match e.payload {
        case PairSpecInfo(spec) =>
          pairSpec := Some(spec);
          if cfg.feeFromPairSpec {
            fillModel.SetMakerFeeBps(MakerFeeBps(spec, cfg.clampNegativeFee));
          }
        case StatusInfo(normal) =>
          if normal.Some? {
            statusNormal := normal;
          }
        case _ =>
      }
    }

    method ReadMarketData(e: Event)
      requires Valid()
      modifies book, risk
      ensures State() == ApplyMarketData(old(State()), e)
    {
      match e.payload {
        case Snapshot(_, _) => book.Apply(e);
        case Delta(_, _) => book.Apply(e);
        case Trade(_, price, _) => risk.Trade(price, e.ts);
        case _ =>
      }
    }

    /** Shock detection and fills; not ok where booking a fill raises. */
    method Trade(e: Event, fair: FairState) returns (head: seq<Emitted>, ok: bool)
      requires Valid()
      modifies Parts()
      ensures State() == AfterFills(cfg, old(State()), e, fair)
      ensures ok == !SettledFills(cfg, old(State()), e, fair).raised
      ensures ok ==> head == HeadOutput(cfg, old(State()), e, fair)
    {
      ghost var s := State();
      var flow := DetectShock(e, fair);
      ghost var detected := State();
      var output;
      output, ok := FillAndSettle(e, fair);
      assert AfterFills(cfg, s, e, fair) == SettledState(cfg, detected, e, fair);
      head := MarkOutput(e, fair) + ShockOutput(flow) + output;
    }

    method DetectShock(e: Event, fair: FairState) returns (flow: Option<ShockId>)
      requires Valid()
      modifies this, shock
      ensures State() == AfterShock(cfg, old(State()), e, fair)
      ensures flow == ShockStep(cfg.shock, cfg.exp, old(State()).shock, e, old(State()).book, fair).shock
    {
      ghost var su := ShockStep(cfg.shock, cfg.exp, shock.State(), e, book.State(), fair);
      var state;
      state, flow := shock.Update(e, book, fair);
      assert ShockUpdate(shock.State(), state, flow) == su;
      lastFair, lastShock := fair, state;
    }

    method FillAndSettle(e: Event, fair: FairState) returns (output: seq<Emitted>, ok: bool)
      requires Valid()
      modifies inventory, risk, projector, fillModel
      ensures State() == SettledState(cfg, old(State()), e, fair)
      ensures ok == !SettledFills(cfg, old(State()), e, fair).raised
      ensures ok ==> output == SettledFills(cfg, old(State()), e, fair).emitted
    {
      var fills := fillModel.OnMarketEvent(e, fair);
      output, ok := SettleAll(fills);
    }

    method SettleAll(fills: seq<Fill>) returns (output: seq<Emitted>, ok: bool)
      requires Valid()
      modifies inventory, risk, projector
      ensures var settled := SettleFills(cfg, old(inventory.State()), old(risk.State()), old(projector.active), fills);
              && ok == !settled.raised
              && inventory.State() == settled.inventory && risk.State() == settled.risk
              && projector.State() == ProjectorState(settled.active, old(projector.counter))
              && (ok ==> output == settled.emitted)
    {
      output := [];
      ok := true;
      ghost var total := SettleFills(cfg, inventory.State(), risk.State(), projector.active, fills);
      assert fills[0..] == fills && [] + total.emitted == total.emitted;
      for i := 0 to |fills|
        invariant ok && projector.counter == old(projector.counter)
        invariant var rest := SettleFills(cfg, inventory.State(), risk.State(), projector.active, fills[i..]);
                  total == rest.(emitted := output + rest.emitted)
      {
        assert fills[i..][1..] == fills[i + 1..];
        ghost var rest := SettleFills(cfg, inventory.State(), risk.State(), projector.active, fills[i..]);
        var more;
        more, ok := SettleOne(fills[i]);
        if !ok {
          return [], false;
        }
        ghost var next := SettleFills(cfg, inventory.State(), risk.State(), projector.active, fills[i + 1..]);
        assert rest == next.(emitted := [more] + next.emitted);
        assert output + ([more] + next.emitted) == output + [more] + next.emitted;
        output := output + [more];
      }
    }

    method SettleOne(f: Fill) returns (output: Emitted, ok: bool)
      requires Valid()
      modifies inventory, risk, projector
      ensures inventory.State() == ApplyFill(old(inventory.State()), f.side, f.price, f.size, f.fee)
      ensures ok == !Overdrawn(cfg.inventory, inventory.State()) && output == VirtualFill(f)
      ensures projector.counter == old(projector.counter)
      ensures risk.State() == if ok then RecordFill(cfg.risk, old(risk.State()), f.side, f.ts, f.price, f.size)
              else old(risk.State())
      ensures projector.active == if ok then RemoveFilled(old(projector.active), f.orderId) else old(projector.active)
    {
      output := VirtualFill(f);
      ok := inventory.Apply(f.side, f.price, f.size, f.fee);
      if ok {
        risk.Fill(f.side, f.ts, f.price, f.size);
        projector.Forget(f.orderId);
      }
    }

    method QuoteAndOrder(e: Event, fair: FairState, shockState: ShockState) returns (output: seq<Emitted>)
      requires Valid()
      modifies this, risk, projector, fillModel
      ensures var step := QuoteStep(cfg, old(State()), e, fair, shockState);
              State() == step.state && output == step.emitted
    {
      hide Evaluate, Sync, Quotes, FollowEvents, LiveOutput, OrderOutput, Skew, Report, MarketOf;
      var decision, recorded := risk.Assess(RiskInput(book.State(), fair, shockState, inventory.State(), cfg.inventory,
                                                      pairSpec, statusNormal, e.ts));
      lastRisk := decision;
      var skew := Skew(cfg.inventory, inventory.State(), fair.fair);
      output := [RiskUpdate(e.ts, decision, shockState, fair, Report(book.State()), skew)];
      var quotes := MakeQuotes(fair, shockState);
      assert quotes == Quotes(cfg, old(State()), shockState, fair) by {
        QuotesDependOn(cfg, State(), old(State()), shockState, fair);
      }
      var events := projector.SyncQuotes(quotes, book, decision, e.ts);
      var live := Follow(events, GateView(cfg.gate, pairSpec, statusNormal, book.State(), decision));
      output := output + OrderOutput(events) + live;
    }

    method MakeQuotes(fair: FairState, shockState: ShockState) returns (quotes: seq<Quote>)
      requires Valid()
      ensures quotes == Quotes(cfg, State(), shockState, fair)
    {
      quotes := [];
      if fair.isValid && fair.fair.Some? {
        var skew := Skew(cfg.inventory, inventory.State(), fair.fair);
        var shift := if skew.Some? then skew.value else 0.0;
        quotes := Generate(SurfaceFor(cfg.amm, cfg.exp, pairSpec),
                           QuoteInput(fair.fair.value, shift, shockState.bidActivation, shockState.askActivation,
                                      shockState.lastShockId, shockState.direction, shockState.shockAgeMs));
      }
    }

    method Follow(events: seq<OrderEvent>, view: GateView) returns (live: seq<Emitted>)
      requires Valid()
      modifies fillModel`orders
      ensures fillModel.orders == FollowEvents(cfg.fill, old(fillModel.orders), events, old(book.State()))
      ensures live == LiveOutput(view, events)
    {
      hide FollowEvents, OnOrderEvent, GateReasonOf, LiveOutput;
      live := [];
      var b := book.State();
      FollowStart(view, events);
      for i := 0 to |events|
        invariant book.State() == b
        invariant FollowEvents(cfg.fill, fillModel.orders, events[i..], b) ==
                    FollowEvents(cfg.fill, old(fillModel.orders), events, b)
        invariant live + LiveOutput(view, events[i..]) == LiveOutput(view, events)
      {
        FollowOne(cfg.fill, fillModel.orders, view, events, i, b);
        var more := FollowEvent(events[i], view);
        live := live + more;
      }
      FollowEnd(cfg.fill, fillModel.orders, view, events, b);
    }

    method FollowEvent(change: OrderEvent, view: GateView) returns (live: seq<Emitted>)
      requires Valid()
      modifies fillModel`orders
      ensures fillModel.orders == OnOrderEvent(cfg.fill, old(fillModel.orders), change, old(book.State()))
      ensures live == LiveEvents(view, change)
    {
      match change {
        case Placed(sequence, o) =>
          fillModel.OnVirtualOrder(sequence, o, book);
          live := [LiveIntent(o), LiveBlocked(o, GateReasonOf(view, o))];
        case Canceled(_, o, _, _) =>
          fillModel.OnCancel(o.id);
          live := [];
      }
    }
  }
}
