/** What can block an order that the replay core places. */
module GateLaws {
  import opened Types
  import opened OrderBooks
  import opened BitbankRules
  import opened LiveGates
  import opened QuoteSurfaces
  import opened FairPrice
  import opened Projectors
  import opened ProjectorLaws
  import opened Risks
  import opened Pipelines
  import opened Runs
  import opened HistoryRuns
  import opened RunSafety
  import opened QueueRuns

  ghost predicate PlacedFor(quotes: seq<Quote>, o: ActiveOrder) {
    exists q :: q in quotes && q.side == o.side && q.price == o.price && q.size == o.size
  }

  ghost predicate PlacesQuotes(events: seq<OrderEvent>, quotes: seq<Quote>) {
    forall i :: 0 <= i < |events| && events[i].Placed? ==> PlacedFor(quotes, events[i].order)
  }

  lemma OnePlacesQuote(pc: ProjectorConfig, active: seq<ActiveOrder>, q: Quote, now: real, counter: nat,
                       quotes: seq<Quote>)
    requires q in quotes
    ensures PlacesQuotes(RefreshOne(pc, active, q, now, counter).events, quotes)
  {
  }

  lemma PlacesConcat(a: seq<OrderEvent>, b: seq<OrderEvent>, quotes: seq<Quote>)
    requires PlacesQuotes(a, quotes) && PlacesQuotes(b, quotes)
    ensures PlacesQuotes(a + b, quotes)
  {
    forall i | 0 <= i < |a + b| && (a + b)[i].Placed? ensures PlacedFor(quotes, (a + b)[i].order) {
      if i < |a| { assert (a + b)[i] == a[i]; } else { assert (a + b)[i] == b[i - |a|]; }
    }
  }

  lemma {:induction false} RefreshPlacesQuotes(pc: ProjectorConfig, active: seq<ActiveOrder>, quotes: seq<Quote>,
        now: real, counter: nat, all: seq<Quote>)
    requires forall q :: q in quotes ==> q in all
    ensures PlacesQuotes(Refresh(pc, active, quotes, now, counter).events, all)
    decreases |quotes|
  {
    if quotes != [] {
      hide RefreshOne, PlacedFor;
      var one := RefreshOne(pc, active, quotes[0], now, counter);
      assert quotes[0] in quotes;
      OnePlacesQuote(pc, active, quotes[0], now, counter, all);
      RefreshPlacesQuotes(pc, one.active, quotes[1..], now, one.counter, all);
      hide PlacesQuotes;
      PlacesConcat(one.events, Refresh(pc, one.active, quotes[1..], now, one.counter).events, all);
    }
  }

  /** A sync places orders only when risk did not block it, and only for desired quotes. */
  lemma SyncPlacesDesired(pc: ProjectorConfig, st: ProjectorState, quotes: seq<Quote>, m: Market)
    ensures PlacesQuotes(Sync(pc, st, quotes, m).events, if m.risk.allowQuote then Desired(pc, quotes, m) else [])
  {
    if !m.risk.allowQuote {
      var reason := if m.risk.reason.Some? then m.risk.reason.value else RiskBlock;
      CancelAllPlacesNothing(st.active, m.now, st.counter, reason);
    } else {
      var desired := Desired(pc, quotes, m);
      var swept := Sweep(st.active, KeysOf(desired), m, st.counter);
      SweepPlacesNothing(st.active, KeysOf(desired), m, st.counter);
      assert PlacesQuotes(swept.events, desired);
      RefreshPlacesQuotes(pc, swept.active, desired, m.now, swept.counter, desired);
      hide Sweep, Refresh, Desired, KeysOf, PlacesQuotes;
      PlacesConcat(swept.events, Refresh(pc, swept.active, desired, m.now, swept.counter).events, desired);
    }
  }

  /** The reasons that are left for an order that sync placed: configuration, the pair's own flags, the maximum
      amount, or none at all. */
  predicate MayBlockPlaced(reason: GateReason) {
    && reason != RiskKernelBlocked && reason != WouldCross
    && (reason.Invalid? ==> reason.verdict == AmountAboveLimit)
  }

  lemma OrderGatePassed(spec: PairSpec, b: BookState, risk: RiskDecision, now: real, o: ActiveOrder)
    requires risk.allowQuote && PostOnlySafe(o.side, o.price, MarketOf(b, risk, now))
    requires ValidateOrder(spec, o.side, o.price, o.size) in {Accepted, AmountAboveLimit}
    ensures MayBlockPlaced(OrderGate(spec, b, risk, o))
  {
    hide ValidateOrder, BestBid, BestAsk;
  }

  lemma PairGateCovers(cfg: GateConfig, spec: PairSpec, side: Side)
    requires PairGateReason(cfg, spec, side).None?
    ensures PairVerdict(spec, side).Accepted?
  {
  }

  lemma EarlyReasons(cfg: GateConfig, spec: Option<PairSpec>, normal: Option<bool>)
    ensures ConfigGate(cfg, spec, normal).Some? ==> MayBlockPlaced(ConfigGate(cfg, spec, normal).value)
    ensures spec.Some? ==> forall side :: PairGateReason(cfg, spec.value, side).Some? ==>
              MayBlockPlaced(PairGateReason(cfg, spec.value, side).value)
  {
  }

  /** An order placed for a generated, post-only safe quote passes the gates on risk, crossing, precision and
      minimum. */
  lemma QuotedOrderPasses(cfg: Config, s: PipelineState, v: GateView, i: QuoteInput, q: Quote, now: real,
                          o: ActiveOrder)
    requires v.spec == s.spec && v.risk.allowQuote
    requires q in Generated(SurfaceFor(cfg.amm, cfg.exp, s.spec), i) &&
             PostOnlySafe(q.side, q.price, MarketOf(v.book, v.risk, now))
    requires q.side == o.side && q.price == o.price && q.size == o.size
    ensures MayBlockPlaced(GateReasonOf(v, o))
  {
    EarlyReasons(v.cfg, v.spec, v.normal);
    if v.spec.Some? {
      var spec := v.spec.value;
      GeneratedQuotesValidate(cfg.amm, cfg.exp, spec, i, q);
      hide Generated, ValidateOrder, PairVerdict, ConfigGate, PairGateReason, OrderGate, MayBlockPlaced, MarketOf,
        SurfaceFor;
      if PairGateReason(v.cfg, spec, o.side).None? {
        PairGateCovers(v.cfg, spec, o.side);
        OrderGatePassed(spec, v.book, v.risk, now, o);
      }
    }
  }

  ghost predicate BlockedWell(out: seq<Emitted>) {
    forall i :: 0 <= i < |out| && out[i].LiveBlocked? ==> MayBlockPlaced(out[i].reason)
  }

  lemma BlockedWellConcat(a: seq<Emitted>, b: seq<Emitted>)
    requires BlockedWell(a) && BlockedWell(b)
    ensures BlockedWell(a + b)
  {
    forall i | 0 <= i < |a + b| && (a + b)[i].LiveBlocked? ensures MayBlockPlaced((a + b)[i].reason) {
      if i < |a| { assert (a + b)[i] == a[i]; } else { assert (a + b)[i] == b[i - |a|]; }
    }
  }

  lemma {:induction false} LiveBlockedWell(v: GateView, events: seq<OrderEvent>)
    requires forall i :: 0 <= i < |events| && events[i].Placed? ==> MayBlockPlaced(GateReasonOf(v, events[i].order))
    ensures BlockedWell(LiveOutput(v, events))
    decreases |events|
  {
    if events != [] {
      hide GateReasonOf, MayBlockPlaced;
      LiveBlockedWell(v, events[1..]);
      assert BlockedWell(LiveEvents(v, events[0]));
      hide BlockedWell;
      BlockedWellConcat(LiveEvents(v, events[0]), LiveOutput(v, events[1..]));
    }
  }

  lemma QuoteStepBlocksWell(cfg: Config, next: PipelineState, fair: FairState, now: real, decision: RiskDecision)
    requires decision == Evaluate(cfg.risk, next.risk, DecisionInput(cfg, next, fair, now)).decision
    ensures BlockedWell(LiveOutput(ViewOf(cfg, next, decision), SyncOf(cfg, next, fair, now).events))
  {
    hide Evaluate, Sync, Generated, Desired, QuoteInputOf, GateReasonOf, MayBlockPlaced, BlockedWell, PostOnlySafe;
    var quotes, m := Quotes(cfg, next, next.lastShock, fair), MarketOf(next.book, decision, now);
    var events, v := SyncOf(cfg, next, fair, now).events, ViewOf(cfg, next, decision);
    SyncPlacesDesired(cfg.projector, next.projector, quotes, m);
    DesiredSafe(cfg.projector, quotes, m);
    forall i | 0 <= i < |events| && events[i].Placed? ensures MayBlockPlaced(GateReasonOf(v, events[i].order)) {
      var o := events[i].order;
      var q :| q in (if m.risk.allowQuote then Desired(cfg.projector, quotes, m) else [])
               && q.side == o.side && q.price == o.price && q.size == o.size;
      QuotedOrderPasses(cfg, next, v, QuoteInputOf(cfg, next, next.lastShock, fair), q, now, o);
    }
    LiveBlockedWell(v, events);
  }

  lemma StepWithFairBlocksWell(cfg: Config, s: PipelineState, e: Event, fair: FairState)
    requires !StepWithFair(cfg, s, e, fair).raised
    ensures BlockedWell(StepWithFair(cfg, s, e, fair).emitted)
  {
    hide StepWithFair, AfterFills, HeadOutput, Evaluate, SyncOf, LiveOutput, BlockedWell, UpdateOf, OrderOutput;
    EmittedParts(cfg, s, e, fair);
    HeadBlocksNothing(cfg, s, e, fair);
    var next := AfterFills(cfg, s, e, fair);
    var decision := Evaluate(cfg.risk, next.risk, DecisionInput(cfg, next, fair, e.ts)).decision;
    QuoteStepBlocksWell(cfg, next, fair, e.ts, decision);
    UpdateIsRiskUpdate(cfg, next, e.ts, decision, next.lastShock, fair);
    PiecesBlockWell(HeadOutput(cfg, s, e, fair), UpdateOf(cfg, next, e.ts, decision, next.lastShock, fair),
                    SyncOf(cfg, next, fair, e.ts).events,
                    LiveOutput(ViewOf(cfg, next, decision), SyncOf(cfg, next, fair, e.ts).events));
  }

  lemma PiecesBlockWell(head: seq<Emitted>, update: Emitted, events: seq<OrderEvent>, live: seq<Emitted>)
    requires BlockedWell(head) && update.RiskUpdate? && BlockedWell(live)
    ensures BlockedWell(head + ([update] + OrderOutput(events) + live))
  {
    hide MayBlockPlaced;
    assert BlockedWell([update]) && BlockedWell(OrderOutput(events));
    hide BlockedWell, OrderOutput;
    BlockedWellConcat([update], OrderOutput(events));
    BlockedWellConcat([update] + OrderOutput(events), live);
    BlockedWellConcat(head, [update] + OrderOutput(events) + live);
  }

  lemma UpdateIsRiskUpdate(cfg: Config, s: PipelineState, now: real, decision: RiskDecision, shock: ShockState,
                           fair: FairState)
    ensures UpdateOf(cfg, s, now, decision, shock, fair).RiskUpdate?
  {
  }

  lemma HeadBlocksNothing(cfg: Config, s: PipelineState, e: Event, fair: FairState)
    requires !StepWithFair(cfg, s, e, fair).raised
    ensures BlockedWell(HeadOutput(cfg, s, e, fair))
  {
    hide HeadOutput, StepWithFair;
    HeadKinds(cfg, s, e, fair);
    KindsByIndex(HeadOutput(cfg, s, e, fair));
  }

  lemma StepBlocksWell(cfg: Config, s: PipelineState, e: Event)
    ensures BlockedWell(Step(cfg, s, e).emitted)
  {
    var seen := Observed(cfg, s, e);
    var u := FromMarketEvent(cfg.fair, seen.sources, seen.book, e);
    if !Step(cfg, s, e).raised {
      hide FromMarketEvent, Observed, StepWithFair, BlockedWell;
      StepWithFairBlocksWell(cfg, seen.(sources := u.sources), e, u.state.value);
    } else {
      RaisedEmitsNothing(cfg, s, e);
    }
  }

  /** Over any run: no order placed by the replay core is blocked by the risk gate, for crossing the book, for its
      precision or for being below the minimum; only configuration, the pair's flags, the maximum amount, or the
      final override can block it. */
  lemma {:induction false} RunBlocksWell(cfg: Config, events: seq<Event>)
    ensures BlockedWell(Run(cfg, events).trace)
  {
    if events != [] {
      var before := Run(cfg, events[..|events| - 1]);
      RunBlocksWell(cfg, events[..|events| - 1]);
      if !before.raised {
        hide BlockedWell, Step;
        StepBlocksWell(cfg, before.state, events[|events| - 1]);
        BlockedWellConcat(before.trace, Step(cfg, before.state, events[|events| - 1]).emitted);
      }
    }
  }
}
