/** What holds after every completed step of a run: the book, the resting orders and the priority of trades. */
module RunSafety {
  import opened Types
  import opened OrderBooks
  import opened Inspection
  import opened FairPrice
  import opened Shocks
  import opened FillModels
  import opened FillLaws
  import opened Projectors
  import opened ProjectorLaws
  import opened QuoteSurfaces
  import opened BitbankRules
  import opened Inventories
  import opened Risks
  import opened RiskLaws
  import opened Pipelines
  import opened Ledgers
  import opened Coupling
  import opened Runs
  import opened HistoryRuns

  // ----- the book of a run is the replayed book -----

  lemma StepBook(cfg: Config, s: PipelineState, e: Event)
    ensures Step(cfg, s, e).state.book == ApplyEvent(s.book, e)
  {
    BookObserved(cfg, s, e);
    hide Observed, FromMarketEvent, StepWithFair;
    var seen := Observed(cfg, s, e);
    var u := FromMarketEvent(cfg.fair, seen.sources, seen.book, e);
    if u.state.Some? {
      StepWithFairBook(cfg, seen.(sources := u.sources), e, u.state.value);
    }
  }

  lemma BookObserved(cfg: Config, s: PipelineState, e: Event)
    ensures Observed(cfg, s, e).book == ApplyEvent(s.book, e)
  {
  }

  lemma StepWithFairBook(cfg: Config, s: PipelineState, e: Event, fair: FairState)
    ensures StepWithFair(cfg, s, e, fair).state.book == s.book
  {
    hide Evaluate, Sync, Quotes, FollowEvents, OrderOutput, LiveOutput, SettledFills, ShockStep, WalkOf, UpdateOf,
      HeadOutput;
  }

  lemma {:induction false} RunBook(cfg: Config, events: seq<Event>)
    requires !Run(cfg, events).raised
    ensures Run(cfg, events).state.book == Replay(events)
  {
    if events != [] {
      var init := events[..|events| - 1];
      RunBook(cfg, init);
      StepBook(cfg, Run(cfg, init).state, events[|events| - 1]);
    }
  }

  /** When every snapshot has a sequence, inspection reports no violation exactly when the book of a completed run
      was fresh after every prefix that contains a snapshot. */
  lemma InspectionDecidesRun(cfg: Config, events: seq<Event>)
    requires forall i :: 0 <= i < |events| && events[i].payload.Snapshot? ==> events[i].sequence.Some?
    requires forall n :: 0 <= n <= |events| ==> !Run(cfg, events[..n]).raised
    ensures Scan(events).violations == 0 <==>
            forall n :: 0 <= n <= |events| && HasSnapshot(events[..n]) ==> !Run(cfg, events[..n]).state.book.stale
  {
    InspectionDecidesStaleness(events);
    forall n | 0 <= n <= |events| ensures Run(cfg, events[..n]).state.book == Replay(events[..n]) {
      RunBook(cfg, events[..n]);
    }
  }

  // ----- resting orders -----

  /** Post-only safe against the current book on a side that the last decision allows, and unexpired. */
  ghost predicate RestsSafely(cfg: ProjectorConfig, s: PipelineState, now: real) {
    forall a :: a in s.projector.active ==> Resting(cfg, a, MarketOf(s.book, s.lastRisk, now))
  }

  /** The quotes of a state's own fair, shock, skew and pair spec. */
  function CurrentQuotes(cfg: Config, s: PipelineState): seq<Quote> {
    Quotes(cfg, s, s.lastShock, s.lastFair)
  }

  /** Every active order stands for a current quote: it was made for it now, or the replace rule keeps it for it. */
  ghost predicate StandsForQuotes(cfg: Config, prior: seq<ActiveOrder>, s: PipelineState, now: real) {
    forall a :: a in s.projector.active ==> Justified(cfg.projector, prior, a, CurrentQuotes(cfg, s), now)
  }

  /** What every completed step leaves in the projector. */
  ghost predicate RestingWell(cfg: Config, prior: seq<ActiveOrder>, s: PipelineState, now: real) {
    && RestsSafely(cfg.projector, s, now) && UniqueKeys(s.projector.active)
    && StandsForQuotes(cfg, prior, s, now)
    && (!s.lastRisk.allowQuote ==> s.projector.active == [])
    && (cfg.projector.maxActiveOrders >= 0 ==> |s.projector.active| <= cfg.projector.maxActiveOrders)
  }

  lemma QuoteStepRests(cfg: Config, s: PipelineState, e: Event, fair: FairState)
    requires UniqueKeys(s.projector.active) && s.lastFair == fair
    ensures RestingWell(cfg, s.projector.active, QuoteStep(cfg, s, e, fair, s.lastShock).state, e.ts)
  {
    var decision := Evaluate(cfg.risk, s.risk, RiskInputOf(cfg, s, s.lastShock, fair, e.ts)).decision;
    var m, quotes := MarketOf(s.book, decision, e.ts), Quotes(cfg, s, s.lastShock, fair);
    hide Evaluate, Sync, Quotes, FollowEvents, OrderOutput, LiveOutput, Resting, StandsFor, UniqueKeys, Skew, Report;
    if decision.allowQuote {
      SyncOutcome(cfg.projector, s.projector, quotes, m);
      DesiredSafe(cfg.projector, quotes, m);
      forall a | a in Sync(cfg.projector, s.projector, quotes, m).active
        ensures Justified(cfg.projector, s.projector.active, a, quotes, e.ts)
      {
        JustifiedByMore(cfg.projector, s.projector.active, a, Desired(cfg.projector, quotes, m), quotes, e.ts);
      }
    } else {
      SyncEmpties(cfg.projector, s.projector, quotes, m);
      NoKeys();
    }
    CurrentQuotesKept(cfg, s, e, fair);
  }

  lemma NoKeys()
    ensures UniqueKeys([])
  {
  }

  lemma JustifiedByMore(cfg: ProjectorConfig, prior: seq<ActiveOrder>, o: ActiveOrder, some: seq<Quote>,
                        all: seq<Quote>, now: real)
    requires Justified(cfg, prior, o, some, now) && forall q :: q in some ==> q in all
    ensures Justified(cfg, prior, o, all, now)
  {
  }

  /** Quoting changes nothing that quotes depend on. */
  lemma CurrentQuotesKept(cfg: Config, s: PipelineState, e: Event, fair: FairState)
    requires s.lastFair == fair
    ensures CurrentQuotes(cfg, QuoteStep(cfg, s, e, fair, s.lastShock).state) == Quotes(cfg, s, s.lastShock, fair)
  {
    hide Evaluate, Sync, FollowEvents, OrderOutput, LiveOutput, Generated, Skew;
  }

  /** After every completed step from a state that satisfies the invariant: every active order, new or kept, is
      post-only safe on an allowed side, unexpired, and stands for a current quote of its own side and level; one
      per side and level, at most `maxActiveOrders`, none if risk blocked quoting. */
  lemma StepRestsSafely(cfg: Config, s: PipelineState, e: Event, l: Ledger)
    requires Agrees(cfg, s, l) && !Step(cfg, s, e).raised
    ensures RestingWell(cfg, s.projector.active, Step(cfg, s, e).state, e.ts)
  {
    ObservedAgrees(cfg, s, e, l);
    hide FromMarketEvent, StepWithFair, RestingWell, Agrees;
    var seen := Observed(cfg, s, e);
    var u := FromMarketEvent(cfg.fair, seen.sources, seen.book, e);
    ObservedKeepsProjector(cfg, s, e);
    hide Observed;
    AgreesIgnoresSources(cfg, seen, u.sources, l);
    StepWithFairRests(cfg, seen.(sources := u.sources), e, u.state.value, l);
  }

  lemma ObservedKeepsProjector(cfg: Config, s: PipelineState, e: Event)
    ensures Observed(cfg, s, e).projector == s.projector
  {
    hide ApplyEvent, RecordTrade, MakerFeeBps;
  }

  lemma AgreesIgnoresSources(cfg: Config, s: PipelineState, sources: seq<Source>, l: Ledger)
    requires Agrees(cfg, s, l)
    ensures Agrees(cfg, s.(sources := sources), l)
  {
  }

  lemma StepWithFairRests(cfg: Config, s: PipelineState, e: Event, fair: FairState, l: Ledger)
    requires Agrees(cfg, s, l) && !StepWithFair(cfg, s, e, fair).raised
    ensures RestingWell(cfg, s.projector.active, StepWithFair(cfg, s, e, fair).state, e.ts)
  {
    HeadKeys(cfg, s, e, fair, l);
    var next := AfterFills(cfg, s, e, fair);
    QuoteStepRests(cfg, next, e, fair);
    hide RestingWell, QuoteStep, AfterFills;
    var after := StepWithFair(cfg, s, e, fair).state;
    assert after == QuoteStep(cfg, next, e, fair, next.lastShock).state;
    EarlierPrior(cfg, next.projector.active, s.projector.active, after, e.ts);
  }

  lemma EarlierPrior(cfg: Config, prior: seq<ActiveOrder>, before: seq<ActiveOrder>, s: PipelineState, now: real)
    requires RestingWell(cfg, prior, s, now) && forall a :: a in prior ==> a in before
    ensures RestingWell(cfg, before, s, now)
  {
    hide KeepExisting, CurrentQuotes, RestsSafely, UniqueKeys;
    forall a | a in s.projector.active ensures Justified(cfg.projector, before, a, CurrentQuotes(cfg, s), now) {
      var q :| q in CurrentQuotes(cfg, s) && StandsFor(cfg.projector, prior, a, q, now);
      assert StandsFor(cfg.projector, before, a, q, now);
    }
  }

  lemma HeadKeys(cfg: Config, s: PipelineState, e: Event, fair: FairState, l: Ledger)
    requires Agrees(cfg, s, l) && !StepWithFair(cfg, s, e, fair).raised
    ensures UniqueKeys(AfterFills(cfg, s, e, fair).projector.active)
    ensures forall a :: a in AfterFills(cfg, s, e, fair).projector.active ==> a in s.projector.active
    ensures AfterFills(cfg, s, e, fair).lastFair == fair
  {
    var next := AfterFills(cfg, s, e, fair);
    assert SettledFills(cfg, s, e, fair) == SettledFills(cfg, AfterShock(cfg, s, e, fair), e, fair);
    HeadAgrees(cfg, s, e, fair, l);
    CoupledKeys(DelaysOf(cfg), next.projector.active, next.projector.counter, next.fills.orders,
                NoteAll(DelaysOf(cfg), l, HeadOutput(cfg, s, e, fair)));
    SettleRemovesOnly(cfg, s.inventory, s.risk, s.projector.active, WalkOf(cfg.fill, s.fills, e, fair).fills);
  }

  lemma {:induction false} SettleRemovesOnly(cfg: Config, inv: Inventory, r: RiskState, active: seq<ActiveOrder>,
        fills: seq<Fill>)
    ensures forall a :: a in SettleFills(cfg, inv, r, active, fills).active ==> a in active
    decreases |fills|
  {
    if fills != [] {
      var f := fills[0];
      RemoveFilledOnly(active, f.orderId);
      SettleRemovesOnly(cfg, ApplyFill(inv, f.side, f.price, f.size, f.fee),
                        RecordFill(cfg.risk, r, f.side, f.ts, f.price, f.size),
                        RemoveFilled(active, f.orderId), fills[1..]);
    }
  }

  lemma {:induction false} RemoveFilledOnly(active: seq<ActiveOrder>, id: OrderId)
    ensures forall a :: a in RemoveFilled(active, id) ==> a in active
  {
    if active != [] {
      RemoveFilledOnly(active[1..], id);
    }
  }

  /** The same for whole runs. */
  lemma RunRestsSafely(cfg: Config, events: seq<Event>)
    requires !Run(cfg, events).raised && events != []
    ensures var prior := Run(cfg, events[..|events| - 1]).state.projector.active;
            RestingWell(cfg, prior, Run(cfg, events).state, events[|events| - 1].ts)
  {
    var before := Run(cfg, events[..|events| - 1]);
    RunAgrees(cfg, events[..|events| - 1]);
    hide Step, RestingWell, Agrees;
    StepRestsSafely(cfg, before.state, events[|events| - 1], NoteAll(DelaysOf(cfg), BLANK, before.trace));
  }

  // ----- the resting ladder, without replace tolerance -----

  ghost predicate CreatedBy(active: seq<ActiveOrder>, now: real) {
    forall a :: a in active ==> a.createdAt <= now
  }

  lemma CreatedSoFar(cfg: Config, prior: seq<ActiveOrder>, s: PipelineState, earlier: real, now: real)
    requires RestingWell(cfg, prior, s, now) && CreatedBy(prior, earlier) && earlier <= now
    ensures CreatedBy(s.projector.active, now)
  {
    forall a | a in s.projector.active ensures a.createdAt <= now {
      var q :| q in CurrentQuotes(cfg, s) && StandsFor(cfg.projector, prior, a, q, now);
    }
  }

  /** In time order, no active order was created after the last event. */
  lemma {:induction false} RunCreated(cfg: Config, events: seq<Event>, now: real)
    requires Chronological(events) && !Run(cfg, events).raised
    requires events != [] ==> now == events[|events| - 1].ts
    ensures CreatedBy(Run(cfg, events).state.projector.active, now)
  {
    if events != [] {
      var init := events[..|events| - 1];
      var earlier := if init == [] then now else init[|init| - 1].ts;
      RunRestsSafely(cfg, events);
      RunPrefix(cfg, events);
      RunCreated(cfg, init, earlier);
      hide Run, RestingWell, CreatedBy;
      CreatedSoFar(cfg, Run(cfg, init).state.projector.active, Run(cfg, events).state, earlier, now);
    }
  }

  /** `o` has exactly the price and size of the current quote of its side and level. */
  ghost predicate IsCurrent(cfg: Config, s: PipelineState, o: ActiveOrder) {
    exists q :: q in CurrentQuotes(cfg, s) && QuoteKey(q) == OrderKey(o) && q.price == o.price && q.size == o.size
  }

  /** On every completed run in time order with no replace tolerance, the resting ladder is the current one. */
  lemma LadderIsCurrent(cfg: Config, events: seq<Event>)
    requires Chronological(events) && !Run(cfg, events).raised && events != [] && ReplacesAlways(cfg.projector)
    ensures forall o :: o in Run(cfg, events).state.projector.active ==> IsCurrent(cfg, Run(cfg, events).state, o)
  {
    var now, init := events[|events| - 1].ts, events[..|events| - 1];
    var earlier := if init == [] then now else init[|init| - 1].ts;
    RunRestsSafely(cfg, events);
    RunPrefix(cfg, events);
    RunCreated(cfg, init, earlier);
    hide Run, CurrentQuotes, ReplacesAlways, RestsSafely, UniqueKeys;
    var s, prior := Run(cfg, events).state, Run(cfg, init).state.projector.active;
    forall o | o in s.projector.active ensures IsCurrent(cfg, s, o) {
      StandingIsCurrent(cfg, prior, s, o, now);
    }
  }

  lemma StandingIsCurrent(cfg: Config, prior: seq<ActiveOrder>, s: PipelineState, o: ActiveOrder, now: real)
    requires ReplacesAlways(cfg.projector) && CreatedBy(prior, now)
    requires Justified(cfg.projector, prior, o, CurrentQuotes(cfg, s), now)
    ensures IsCurrent(cfg, s, o)
  {
    hide CurrentQuotes;
    var q :| q in CurrentQuotes(cfg, s) && StandsFor(cfg.projector, prior, o, q, now);
    if !MadeFor(o, q, now) {
      KeptIsCurrent(cfg.projector, o, q, now);
    }
  }

  /** Then a resting buy is above a resting sell only if the distances of their levels from the fair sum to less than
      nothing: never with a half-spread and step that are not negative. */
  lemma RestingLadderUncrossed(cfg: Config, events: seq<Event>, buy: ActiveOrder, sell: ActiveOrder)
    requires Chronological(events) && !Run(cfg, events).raised && events != [] && ReplacesAlways(cfg.projector)
    requires buy in Run(cfg, events).state.projector.active && sell in Run(cfg, events).state.projector.active
    requires buy.side.Buy? && sell.side.Sell?
    ensures var s := SurfaceFor(cfg.amm, cfg.exp, Run(cfg, events).state.spec);
            Distance(s, buy.level) + Distance(s, sell.level) >= 0.0 ==> buy.price <= sell.price
    ensures cfg.amm.halfSpreadBps >= 0.0 && cfg.amm.stepBps >= 0.0 ==> buy.price <= sell.price
  {
    LadderIsCurrent(cfg, events);
    CurrentUncrossed(cfg, Run(cfg, events).state, buy, sell);
  }

  lemma CurrentUncrossed(cfg: Config, s: PipelineState, buy: ActiveOrder, sell: ActiveOrder)
    requires IsCurrent(cfg, s, buy) && IsCurrent(cfg, s, sell) && buy.side.Buy? && sell.side.Sell?
    ensures var surface := SurfaceFor(cfg.amm, cfg.exp, s.spec);
            Distance(surface, buy.level) + Distance(surface, sell.level) >= 0.0 ==> buy.price <= sell.price
    ensures cfg.amm.halfSpreadBps >= 0.0 && cfg.amm.stepBps >= 0.0 ==> buy.price <= sell.price
  {
    var p :| p in CurrentQuotes(cfg, s) && QuoteKey(p) == OrderKey(buy) && p.price == buy.price && p.size == buy.size;
    var q :| q in CurrentQuotes(cfg, s) && QuoteKey(q) == OrderKey(sell) && q.price == sell.price &&
      q.size == sell.size;
    var surface, input := SurfaceFor(cfg.amm, cfg.exp, s.spec), QuoteInputOf(cfg, s, s.lastShock, s.lastFair);
    hide Generated, Distance, SurfaceFor, QuoteInputOf;
    LadderOrdered(surface, input, p, q);
    LadderUncrossedIff(surface, p.level, q.level);
    SurfaceSteps(cfg, s.spec);
  }

  lemma SurfaceSteps(cfg: Config, spec: Option<PairSpec>)
    ensures SurfaceFor(cfg.amm, cfg.exp, spec).cfg == cfg.amm
  {
  }

  // ----- allowed sides -----

  /** After every completed run an allowed side has room for one more order of maximal size at the current fair,
      within balances, position, quote usage and inventory notional as the fills have left them. */
  lemma RunAllowedHasRoom(cfg: Config, events: seq<Event>, side: Side)
    requires !Run(cfg, events).raised && events != [] && Allows(Run(cfg, events).state.lastRisk, side)
    ensures var s := Run(cfg, events).state;
            s.lastFair.fair.Some? && HasRoom(cfg.risk, s.inventory, s.lastFair.fair.value, side)
  {
    StepAllowedHasRoom(cfg, Run(cfg, events[..|events| - 1]).state, events[|events| - 1], side);
  }

  lemma StepAllowedHasRoom(cfg: Config, s: PipelineState, e: Event, side: Side)
    requires !Step(cfg, s, e).raised && Allows(Step(cfg, s, e).state.lastRisk, side)
    ensures var next := Step(cfg, s, e).state;
            next.lastFair.fair.Some? && HasRoom(cfg.risk, next.inventory, next.lastFair.fair.value, side)
  {
    hide FromMarketEvent, StepWithFair, HasRoom, Allows;
    var seen := Observed(cfg, s, e);
    var u := FromMarketEvent(cfg.fair, seen.sources, seen.book, e);
    var quoting := seen.(sources := u.sources);
    StepDecision(cfg, quoting, e, u.state.value);
    var next := AfterFills(cfg, quoting, e, u.state.value);
    hide AfterFills, Evaluate;
    AllowedHasRoom(cfg.risk, next.risk, DecisionInput(cfg, next, u.state.value, e.ts), side);
  }

  // ----- open orders, and priority over whole runs -----

  ghost predicate AllOpen(orders: OrderTable) {
    forall id :: id in orders ==> orders[id].remaining > 0.0
  }

  /** The minimum order sizes that quoting can use are positive. */
  ghost predicate PositiveSizes(cfg: Config, spec: Option<PairSpec>) {
    cfg.amm.minOrderSizeFallback > 0.0 && (spec.Some? ==> spec.value.unitAmount > 0.0)
  }

  ghost predicate PlacesPositive(events: seq<OrderEvent>) {
    forall i :: 0 <= i < |events| && events[i].Placed? ==> events[i].order.size > 0.0
  }

  ghost predicate PositiveQuotes(quotes: seq<Quote>) {
    forall q :: q in quotes ==> q.size > 0.0
  }

  lemma {:induction false} RefreshPlacesPositive(pc: ProjectorConfig, active: seq<ActiveOrder>, quotes: seq<Quote>,
        now: real, counter: nat)
    requires PositiveQuotes(quotes)
    ensures PlacesPositive(Refresh(pc, active, quotes, now, counter).events)
    decreases |quotes|
  {
    if quotes != [] {
      var one := RefreshOne(pc, active, quotes[0], now, counter);
      assert quotes[0] in quotes;
      RefreshPlacesPositive(pc, one.active, quotes[1..], now, one.counter);
    }
  }

  lemma {:induction false} SweepPlacesNothing(active: seq<ActiveOrder>, keys: set<Key>, m: Market, counter: nat)
    ensures forall i :: 0 <= i < |Sweep(active, keys, m, counter).events| ==>
              Sweep(active, keys, m, counter).events[i].Canceled?
  {
    if active != [] {
      SweepPlacesNothing(active[1..], keys, m, if Stays(active[0], keys, m) then counter else counter + 1);
    }
  }

  lemma {:induction false} CancelAllPlacesNothing(active: seq<ActiveOrder>, now: real, counter: nat, reason: Reason)
    ensures forall i :: 0 <= i < |CancelAll(active, now, counter, reason).events| ==>
              CancelAll(active, now, counter, reason).events[i].Canceled?
  {
    if active != [] {
      CancelAllPlacesNothing(active[1..], now, counter + 1, reason);
    }
  }

  lemma SyncPlacesPositive(pc: ProjectorConfig, st: ProjectorState, quotes: seq<Quote>, m: Market)
    requires PositiveQuotes(quotes)
    ensures PlacesPositive(Sync(pc, st, quotes, m).events)
  {
    if !m.risk.allowQuote {
      var reason := if m.risk.reason.Some? then m.risk.reason.value else RiskBlock;
      CancelAllPlacesNothing(st.active, m.now, st.counter, reason);
    } else {
      var desired := Desired(pc, quotes, m);
      var swept := Sweep(st.active, KeysOf(desired), m, st.counter);
      forall q | q in desired ensures q.size > 0.0 {
        assert q in SafeQuotes(quotes, m);
      }
      SweepPlacesNothing(st.active, KeysOf(desired), m, st.counter);
      RefreshPlacesPositive(pc, swept.active, desired, m.now, swept.counter);
    }
  }

  lemma {:induction false} FollowKeepsOpen(cfg: FillConfig, orders: OrderTable, events: seq<OrderEvent>, b: BookState)
    requires AllOpen(orders) && PlacesPositive(events)
    ensures AllOpen(FollowEvents(cfg, orders, events, b))
    decreases |events|
  {
    if events != [] {
      FollowKeepsOpen(cfg, OnOrderEvent(cfg, orders, events[0], b), events[1..], b);
    }
  }

  lemma WalkKeepsOpen(cfg: FillConfig, st: FillState, e: Event, fair: FairState)
    requires AllOpen(st.orders)
    ensures AllOpen(AfterMarket(cfg, st, e, fair).orders)
  {
    var w := WalkOf(cfg, st, e, fair);
    CandidatesCurrent(cfg, st, e);
    WalkAddsNone(st.orders, Candidates(cfg, st, e), Volume(e), ContextOf(st, e, fair), st.counter);
    forall id | id in w.orders ensures w.orders[id].remaining > 0.0 {
      WalkAbsorbs(st.orders, Candidates(cfg, st, e), Volume(e), ContextOf(st, e, fair), st.counter, id);
    }
  }

  lemma QuotesPositive(cfg: Config, s: PipelineState, shock: ShockState, fair: FairState)
    requires PositiveSizes(cfg, s.spec)
    ensures PositiveQuotes(Quotes(cfg, s, shock, fair))
  {
    if fair.isValid && fair.fair.Some? {
      GeneratedQuoted(SurfaceFor(cfg.amm, cfg.exp, s.spec), QuoteInputOf(cfg, s, shock, fair));
    }
  }

  lemma StepKeepsOpen(cfg: Config, s: PipelineState, e: Event)
    requires AllOpen(s.fills.orders) && PositiveSizes(cfg, s.spec) && !Step(cfg, s, e).raised
    requires e.payload.PairSpecInfo? ==> e.payload.spec.unitAmount > 0.0
    ensures AllOpen(Step(cfg, s, e).state.fills.orders) && PositiveSizes(cfg, Step(cfg, s, e).state.spec)
  {
    hide FromMarketEvent, StepWithFair;
    var seen := Observed(cfg, s, e);
    var u := FromMarketEvent(cfg.fair, seen.sources, seen.book, e);
    assert seen.fills.orders == s.fills.orders && PositiveSizes(cfg, seen.spec);
    StepWithFairKeepsOpen(cfg, seen.(sources := u.sources), e, u.state.value);
  }

  lemma StepWithFairKeepsOpen(cfg: Config, s: PipelineState, e: Event, fair: FairState)
    requires AllOpen(s.fills.orders) && PositiveSizes(cfg, s.spec) && !StepWithFair(cfg, s, e, fair).raised
    ensures AllOpen(StepWithFair(cfg, s, e, fair).state.fills.orders) &&
            StepWithFair(cfg, s, e, fair).state.spec == s.spec
  {
    var next := AfterFills(cfg, s, e, fair);
    WalkKeepsOpen(cfg.fill, s.fills, e, fair);
    assert next.fills == AfterMarket(cfg.fill, s.fills, e, fair) && next.spec == s.spec;
    QuotesPositive(cfg, next, next.lastShock, fair);
    var decision := Evaluate(cfg.risk, next.risk, RiskInputOf(cfg, next, next.lastShock, fair, e.ts)).decision;
    var m := MarketOf(next.book, decision, e.ts);
    var quotes := Quotes(cfg, next, next.lastShock, fair);
    SyncPlacesPositive(cfg.projector, next.projector, quotes, m);
    FollowKeepsOpen(cfg.fill, next.fills.orders, Sync(cfg.projector, next.projector, quotes, m).events, next.book);
  }

  /** With positive minimum sizes no tracked order of a run ever has nothing left to fill. */
  lemma {:induction false} RunKeepsOpen(cfg: Config, events: seq<Event>)
    requires !Run(cfg, events).raised && cfg.amm.minOrderSizeFallback > 0.0
    requires forall i :: 0 <= i < |events| && events[i].payload.PairSpecInfo? ==>
               events[i].payload.spec.unitAmount > 0.0
    ensures AllOpen(Run(cfg, events).state.fills.orders) && PositiveSizes(cfg, Run(cfg, events).state.spec)
  {
    if events != [] {
      RunKeepsOpen(cfg, events[..|events| - 1]);
      StepKeepsOpen(cfg, Run(cfg, events[..|events| - 1]).state, events[|events| - 1]);
    }
  }
}
