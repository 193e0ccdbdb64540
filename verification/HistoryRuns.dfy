/** Over whole runs, the rolling windows and pruned histories stand for the full histories. */
module HistoryRuns {
  import opened Types
  import opened Windows
  import opened FairPrice
  import opened Shocks
  import opened FillModels
  import opened FillLaws
  import opened Inventories
  import opened Projectors
  import opened Risks
  import opened RiskLaws
  import opened Pipelines
  import opened TraceLogs
  import opened Runs

  // ----- the output of a step, by kind -----

  lemma QuoteOutputPlain(cfg: Config, s: PipelineState, e: Event, fair: FairState, shock: ShockState)
    ensures FillsIn(QuoteStep(cfg, s, e, fair, shock).emitted) == [] &&
            ShocksIn(QuoteStep(cfg, s, e, fair, shock).emitted) == []
  {
    var decision := Evaluate(cfg.risk, s.risk, RiskInputOf(cfg, s, shock, fair, e.ts)).decision;
    var events := Sync(cfg.projector, s.projector, Quotes(cfg, s, shock, fair),
                       MarketOf(s.book, decision, e.ts)).events;
    LiveIsSilent(ViewOf(cfg, s, decision), events);
    hide Evaluate, Sync, Quotes, FollowEvents, LiveOutput, FillsIn, ShocksIn, Skew, Report;
    NoFillsNorShocks(QuoteStep(cfg, s, e, fair, shock).emitted);
  }

  lemma MarkPlain(e: Event, fair: FairState)
    ensures FillsIn(MarkOutput(e, fair)) == [] && ShocksIn(MarkOutput(e, fair)) == []
  {
    NoFillsNorShocks(MarkOutput(e, fair));
  }

  lemma SettledLog(cfg: Config, s: PipelineState, e: Event, fair: FairState)
    requires !SettledFills(cfg, s, e, fair).raised
    ensures var out := SettledFills(cfg, s, e, fair).emitted;
            FillsIn(out) == WalkOf(cfg.fill, s.fills, e, fair).fills && ShocksIn(out) == []
  {
    var fills := WalkOf(cfg.fill, s.fills, e, fair).fills;
    SettleEmitsFills(cfg, s.inventory, s.risk, s.projector.active, fills);
    OnlyFills(fills, SettledFills(cfg, s, e, fair).emitted);
  }

  /** A step's fills and forced flows, read off its output. */
  lemma StepLogs(cfg: Config, s: PipelineState, e: Event, fair: FairState)
    requires !StepWithFair(cfg, s, e, fair).raised
    ensures var out := StepWithFair(cfg, s, e, fair).emitted;
            var shock := ShockStep(cfg.shock, cfg.exp, s.shock, e, s.book, fair).shock;
            && FillsIn(out) == WalkOf(cfg.fill, s.fills, e, fair).fills
            && ShocksIn(out) == if shock.Some? then [shock.value] else []
  {
    SettledNotRaised(cfg, s, e, fair);
    hide StepWithFair, AfterFills, SettledFills, QuoteStep, WalkOf, ShockStep, MarkOutput, FillsIn, ShocksIn;
    var next := AfterFills(cfg, s, e, fair);
    var mark, shocks := MarkOutput(e, fair), ShockOutput(ShockStep(cfg.shock, cfg.exp, s.shock, e, s.book, fair).shock);
    var settled, tail := SettledFills(cfg, s, e, fair).emitted, QuoteStep(cfg, next, e, fair, next.lastShock).emitted;
    StepOutputPieces(cfg, s, e, fair, mark, shocks, settled, tail);
    MarkPlain(e, fair);
    ShockLog(shocks);
    SettledLog(cfg, s, e, fair);
    QuoteOutputPlain(cfg, next, e, fair, next.lastShock);
    LogsOfPieces(mark, shocks, settled, tail);
  }

  lemma SettledNotRaised(cfg: Config, s: PipelineState, e: Event, fair: FairState)
    requires !StepWithFair(cfg, s, e, fair).raised
    ensures !SettledFills(cfg, s, e, fair).raised
  {
    hide AfterFills, SettledFills, QuoteStep, WalkOf, HeadOutput;
  }

  lemma StepOutputPieces(cfg: Config, s: PipelineState, e: Event, fair: FairState,
                         mark: seq<Emitted>, shocks: seq<Emitted>, settled: seq<Emitted>, tail: seq<Emitted>)
    requires !StepWithFair(cfg, s, e, fair).raised
    requires mark == MarkOutput(e, fair) && shocks ==
               ShockOutput(ShockStep(cfg.shock, cfg.exp, s.shock, e, s.book, fair).shock)
    requires settled == SettledFills(cfg, s, e, fair).emitted
    requires var next := AfterFills(cfg, s, e, fair); tail == QuoteStep(cfg, next, e, fair, next.lastShock).emitted
    ensures StepWithFair(cfg, s, e, fair).emitted == mark + shocks + settled + tail
  {
    hide AfterFills, SettledFills, QuoteStep, WalkOf, ShockStep, MarkOutput, ShockOutput;
  }

  lemma ShockLog(out: seq<Emitted>)
    requires |out| <= 1 && forall i :: 0 <= i < |out| ==> out[i].ForcedFlow?
    ensures FillsIn(out) == [] && ShocksIn(out) == if out == [] then [] else [out[0].id]
  {
    if out != [] { assert out[1..] == []; }
  }

  lemma {:induction false} WalkFillsNow(orders: OrderTable, ranked: seq<Tracked>, flow: real, ctx: TradeContext,
                                        counter: nat)
    ensures forall f :: f in Walk(orders, ranked, flow, ctx, counter).fills ==> f.ts == ctx.ts
    decreases |ranked|
  {
    if ranked != [] && flow > 0.0 {
      var c := Consume(ranked[0], flow);
      WalkFillsNow(Settle(orders, c), ranked[1..], c.flow, ctx, counter + |FillsOf(ctx, counter, c)|);
    }
  }

  // ----- forced flows are more than one window apart -----

  ghost predicate Spaced(log: seq<ShockId>, windowMs: real) {
    forall i :: 0 < i < |log| ==> log[i].ts - log[i - 1].ts > windowMs
  }

  ghost predicate ShocksSpaced(cfg: Config, m: ShockMemory, log: seq<ShockId>) {
    && Spaced(log, cfg.shock.windowMs)
    && m.lastTs == if log == [] then None else Some(log[|log| - 1].ts)
  }

  lemma StepSpaced(cfg: Config, s: PipelineState, e: Event, log: seq<ShockId>)
    requires ShocksSpaced(cfg, s.shock, log) && !Step(cfg, s, e).raised
    ensures ShocksSpaced(cfg, Step(cfg, s, e).state.shock, log + ShocksIn(Step(cfg, s, e).emitted))
  {
    hide FromMarketEvent, StepWithFair;
    var seen := Observed(cfg, s, e);
    var u := FromMarketEvent(cfg.fair, seen.sources, seen.book, e);
    assert seen.shock == s.shock;
    StepWithFairSpaced(cfg, seen.(sources := u.sources), e, u.state.value, log);
  }

  lemma StepWithFairSpaced(cfg: Config, s: PipelineState, e: Event, fair: FairState, log: seq<ShockId>)
    requires ShocksSpaced(cfg, s.shock, log) && !StepWithFair(cfg, s, e, fair).raised
    ensures ShocksSpaced(cfg, StepWithFair(cfg, s, e, fair).state.shock,
                         log + ShocksIn(StepWithFair(cfg, s, e, fair).emitted))
  {
    StepLogs(cfg, s, e, fair);
    ShockRemembered(cfg.shock, cfg.exp, s.shock, e, s.book, fair);
    LastShockPublished(cfg, s, e, fair);
    hide ShockStep, StepWithFair, ShocksSpaced, ShocksIn;
    var su := ShockStep(cfg.shock, cfg.exp, s.shock, e, s.book, fair);
    ShockStepSpaced(cfg, s.shock, su, log);
  }

  lemma ShockStepSpaced(cfg: Config, m: ShockMemory, su: ShockUpdate, log: seq<ShockId>)
    requires ShocksSpaced(cfg, m, log)
    requires su.memory.lastTs == if su.shock.Some? then Some(su.shock.value.ts) else m.lastTs
    requires su.shock.Some? && m.lastTs.Some? ==> su.shock.value.ts - m.lastTs.value > cfg.shock.windowMs
    ensures ShocksSpaced(cfg, su.memory, log + if su.shock.Some? then [su.shock.value] else [])
  {
    if su.shock.None? { assert log + [] == log; }
  }

  /** With no assumption on timestamps: consecutive forced flows of any run are strictly more than one window apart. */
  lemma {:induction false} ForcedFlowsSpaced(cfg: Config, events: seq<Event>)
    ensures Spaced(ShocksIn(Run(cfg, events).trace), cfg.shock.windowMs)
    ensures !Run(cfg, events).raised ==> ShocksSpaced(cfg, Run(cfg, events).state.shock,
                                                      ShocksIn(Run(cfg, events).trace))
  {
    if events != [] {
      RunSnoc(cfg, events);
      var init, e := events[..|events| - 1], events[|events| - 1];
      ForcedFlowsSpaced(cfg, init);
      hide Run, Step, ShocksIn;
      var before, step := Run(cfg, init), Step(cfg, Run(cfg, init).state, e);
      if !before.raised {
        LogsConcat(before.trace, step.emitted);
        if step.raised {
          RaisedEmitsNothing(cfg, before.state, e);
          assert before.trace + [] == before.trace;
        } else {
          StepSpaced(cfg, before.state, e, ShocksIn(before.trace));
        }
      }
    }
  }

  // ----- full histories -----

  function TradesIn(events: seq<Event>): seq<Timed<Flow>> {
    if events == [] then [] else TradesIn(events[..|events| - 1]) + TradeFlow(events[|events| - 1])
  }

  function FillSides(fills: seq<Fill>): seq<Timed<Side>> {
    seq(|fills|, i requires 0 <= i < |fills| => Timed(fills[i].ts, fills[i].side))
  }

  function FillChanges(fills: seq<Fill>): seq<Timed<Change>> {
    seq(|fills|, i requires 0 <= i < |fills| =>
        Timed(fills[i].ts, Change(fills[i].side, FillNotional(fills[i].price, fills[i].size))))
  }

  /** The fair prices that risk recorded, step by step. */
  ghost function RecordedFairs(cfg: Config, events: seq<Event>): seq<Timed<real>> {
    if events == [] || Run(cfg, events[..|events| - 1]).raised then [] else
    var step := Step(cfg, Run(cfg, events[..|events| - 1]).state, events[|events| - 1]);
    RecordedFairs(cfg, events[..|events| - 1])
    + (if step.recorded && step.state.lastFair.fair.Some? then
       [Timed(events[|events| - 1].ts, step.state.lastFair.fair.value)] else [])
  }

  ghost predicate FairsPruned(q: seq<Timed<real>>, h: seq<Timed<real>>, now: real) {
    if h == [] then q == [] else PrunedTo(q, h, h[|h| - 1].ts) && h[|h| - 1].ts <= now
  }

  ghost predicate RiskRemembers(cfg: RiskConfig, r: RiskState, fills: seq<Fill>, now: real) {
    && (cfg.maxSameSideFills > 0 ==> RemembersFills(cfg, r, FillSides(fills), now))
    && RemembersChanges(r, FillChanges(fills), now)
  }

  lemma FillKeepsMemory(cfg: RiskConfig, r: RiskState, fills: seq<Fill>, before: real, f: Fill)
    requires RiskRemembers(cfg, r, fills, before) && before <= f.ts
    ensures RiskRemembers(cfg, RecordFill(cfg, r, f.side, f.ts, f.price, f.size), fills + [f], f.ts)
  {
    assert FillSides(fills + [f]) == FillSides(fills) + [Timed(f.ts, f.side)];
    assert FillChanges(fills + [f]) == FillChanges(fills)
      + [Timed(f.ts, Change(f.side, FillNotional(f.price, f.size)))];
    if cfg.maxSameSideFills > 0 {
      FillRemembered(cfg, r, FillSides(fills), before, f.side, f.ts, f.price, f.size);
    }
    ChangeRemembered(cfg, r, FillChanges(fills), before, f.side, f.ts, f.price, f.size);
  }

  lemma {:induction false} SettleKeepsMemory(cfg: Config, inv: Inventory, r: RiskState, active: seq<ActiveOrder>,
        fills: seq<Fill>, seen: seq<Fill>, before: real, now: real)
    requires RiskRemembers(cfg.risk, r, seen, before) && before <= now
    requires forall f :: f in fills ==> f.ts == now
    requires !SettleFills(cfg, inv, r, active, fills).raised
    ensures var settled := SettleFills(cfg, inv, r, active, fills);
            RiskRemembers(cfg.risk, settled.risk, seen + fills, if fills == [] then before else now)
            && settled.risk.fairHistory == r.fairHistory
    decreases |fills|
  {
    if fills == [] {
      assert seen + fills == seen;
    } else {
      var f := fills[0];
      assert f in fills;
      FillKeepsMemory(cfg.risk, r, seen, before, f);
      assert seen + [f] + fills[1..] == seen + fills;
      SettleKeepsMemory(cfg, ApplyFill(inv, f.side, f.price, f.size, f.fee),
                        RecordFill(cfg.risk, r, f.side, f.ts, f.price, f.size),
                        RemoveFilled(active, f.orderId), fills[1..], seen + [f], now, now);
    }
  }

  lemma EvaluationKeepsMemory(cfg: RiskConfig, r: RiskState, fills: seq<Fill>, before: real, i: RiskInput)
    requires RiskRemembers(cfg, r, fills, before) && before <= i.now
    ensures RiskRemembers(cfg, Evaluate(cfg, r, i).state, fills, i.now)
  {
    if cfg.maxSameSideFills > 0 {
      EvaluationRemembers(cfg, r, FillSides(fills), before, i);
    }
    ChangesPruned(cfg, r, FillChanges(fills), before, i);
  }

  lemma TradeKeepsMemory(cfg: RiskConfig, r: RiskState, fills: seq<Fill>, now: real, price: real, ts: real)
    requires RiskRemembers(cfg, r, fills, now)
    ensures RiskRemembers(cfg, RecordTrade(r, price, ts), fills, now)
  {
    if cfg.maxSameSideFills > 0 {
      TradeRemembers(cfg, r, FillSides(fills), now, price, ts);
    }
  }

  /** Everything remembered at time `now`, against the full histories. */
  ghost predicate Remembers(cfg: Config, s: PipelineState, trades: seq<Timed<Flow>>, fills: seq<Fill>,
                            fairs: seq<Timed<real>>, now: real) {
    && Tracks(s.shock.trades, trades, now, cfg.shock.windowMs)
    && RiskRemembers(cfg.risk, s.risk, fills, now)
    && FairsPruned(s.risk.fairHistory, fairs, now)
  }

  lemma TradeWindow(q: seq<Timed<Flow>>, trades: seq<Timed<Flow>>, before: real, e: Event, window: real)
    requires Tracks(q, trades, before, window) && before <= e.ts
    ensures var kept, all := DropExpired(q + TradeFlow(e), e.ts, window), trades + TradeFlow(e);
            Tracks(kept, all, e.ts, window) && kept == Recent(all, e.ts, window)
  {
    var grown, all := q + TradeFlow(e), trades + TradeFlow(e);
    if TradeFlow(e) == [] {
      assert grown == q && all == trades;
      LaterTracks(q, trades, before, e.ts, window);
    } else {
      AppendTracks(q, trades, before, TradeFlow(e)[0], window);
      assert grown == q + [TradeFlow(e)[0]] && all == trades + [TradeFlow(e)[0]];
    }
    ExpireTracks(grown, all, e.ts, e.ts, window);
    ExpireIsRecent(grown, all, e.ts, e.ts, window);
  }

  /** The published taker sums are the sums over all past trades inside the window. */
  lemma ShockStepRemembers(cfg: Config, m: ShockMemory, e: Event, s: PipelineState, fair: FairState,
                           trades: seq<Timed<Flow>>, before: real)
    requires Tracks(m.trades, trades, before, cfg.shock.windowMs) && before <= e.ts
    ensures var u, all := ShockStep(cfg.shock, cfg.exp, m, e, s.book, fair), trades + TradeFlow(e);
            && Tracks(u.memory.trades, all, e.ts, cfg.shock.windowMs)
            && u.state.buy == FlowSum(Recent(all, e.ts, cfg.shock.windowMs), Buy)
            && u.state.sell == FlowSum(Recent(all, e.ts, cfg.shock.windowMs), Sell)
  {
    TradeWindow(m.trades, trades, before, e, cfg.shock.windowMs);
  }

  /** The risk memory after the fills of a step, at the step's time. */
  lemma SettledRemembers(cfg: Config, s: PipelineState, e: Event, fair: FairState, fills: seq<Fill>, before: real)
    requires RiskRemembers(cfg.risk, s.risk, fills, before) && before <= e.ts && !SettledFills(cfg, s, e, fair).raised
    ensures var settled := SettledFills(cfg, s, e, fair);
            && settled.risk.fairHistory == s.risk.fairHistory
            && exists t :: t <= e.ts && RiskRemembers(cfg.risk, settled.risk,
                                                      fills + WalkOf(cfg.fill, s.fills, e, fair).fills, t)
  {
    var w := WalkOf(cfg.fill, s.fills, e, fair);
    WalkFillsNow(s.fills.orders, Candidates(cfg.fill, s.fills, e), Volume(e), ContextOf(s.fills, e, fair),
                 s.fills.counter);
    SettleKeepsMemory(cfg, s.inventory, s.risk, s.projector.active, w.fills, fills, before, e.ts);
  }

  function FairSample(recorded: bool, now: real, fair: FairState): seq<Timed<real>> {
    if recorded && fair.fair.Some? then [Timed(now, fair.fair.value)] else []
  }

  lemma EvaluationPrunesFairs(cfg: RiskConfig, r: RiskState, fairs: seq<Timed<real>>, before: real, i: RiskInput)
    requires FairsPruned(r.fairHistory, fairs, before) && before <= i.now
    ensures var ev := Evaluate(cfg, r, i);
            FairsPruned(ev.state.fairHistory, fairs + FairSample(ev.recorded, i.now, i.fair), i.now)
  {
    var ev := Evaluate(cfg, r, i);
    if ev.recorded {
      if fairs == [] {
        assert Tracks(r.fairHistory, fairs, i.now, FAIR_HISTORY_MS);
        RecordedFairTracked(cfg, r, fairs, i.now, i);
      } else {
        RecordedFairTracked(cfg, r, fairs, fairs[|fairs| - 1].ts, i);
      }
    } else {
      assert fairs + [] == fairs;
    }
  }

  lemma StepWithFairRemembers(cfg: Config, s: PipelineState, e: Event, fair: FairState,
                              trades: seq<Timed<Flow>>, fills: seq<Fill>, fairs: seq<Timed<real>>, before: real)
    requires Remembers(cfg, s, trades, fills, fairs, before) && before <= e.ts && !StepWithFair(cfg, s, e, fair).raised
    ensures var step := StepWithFair(cfg, s, e, fair);
            Remembers(cfg, step.state, trades + TradeFlow(e), fills + FillsIn(step.emitted),
                      fairs + FairSample(step.recorded, e.ts, fair), e.ts)
  {
    var next := AfterFills(cfg, s, e, fair);
    var shocked := AfterShock(cfg, s, e, fair);
    assert SettledFills(cfg, s, e, fair) == SettledFills(cfg, shocked, e, fair);
    StepLogs(cfg, s, e, fair);
    ShockStepRemembers(cfg, s.shock, e, s, fair, trades, before);
    SettledRemembers(cfg, s, e, fair, fills, before);
    var all := fills + WalkOf(cfg.fill, s.fills, e, fair).fills;
    var t :| t <= e.ts && RiskRemembers(cfg.risk, next.risk, all, t);
    var i := RiskInputOf(cfg, next, next.lastShock, fair, e.ts);
    EvaluationKeepsMemory(cfg.risk, next.risk, all, t, i);
    EvaluationPrunesFairs(cfg.risk, next.risk, fairs, before, i);
  }

  lemma ObservedRemembers(cfg: Config, s: PipelineState, e: Event, trades: seq<Timed<Flow>>, fills: seq<Fill>,
                          fairs: seq<Timed<real>>, now: real)
    requires Remembers(cfg, s, trades, fills, fairs, now)
    ensures Remembers(cfg, Observed(cfg, s, e), trades, fills, fairs, now)
  {
    match e.payload
    case Trade(_, price, _) => TradeKeepsMemory(cfg.risk, s.risk, fills, now, price, e.ts);
    case _ =>
  }

  lemma StepRemembers(cfg: Config, s: PipelineState, e: Event, trades: seq<Timed<Flow>>, fills: seq<Fill>,
                      fairs: seq<Timed<real>>, before: real)
    requires Remembers(cfg, s, trades, fills, fairs, before) && before <= e.ts && !Step(cfg, s, e).raised
    ensures var step := Step(cfg, s, e);
            Remembers(cfg, step.state, trades + TradeFlow(e), fills + FillsIn(step.emitted),
                      fairs + FairSample(step.recorded, e.ts, step.state.lastFair), e.ts)
  {
    ObservedRemembers(cfg, s, e, trades, fills, fairs, before);
    var seen := Observed(cfg, s, e);
    var u := FromMarketEvent(cfg.fair, seen.sources, seen.book, e);
    StepWithFairRemembers(cfg, seen.(sources := u.sources), e, u.state.value, trades, fills, fairs, before);
  }

  lemma RunStepRemembers(cfg: Config, events: seq<Event>, before: real)
    requires events != [] && !Run(cfg, events).raised && before <= events[|events| - 1].ts
    requires var init := events[..|events| - 1];
             Remembers(cfg, Run(cfg, init).state, TradesIn(init), FillsIn(Run(cfg, init).trace),
                       RecordedFairs(cfg, init), before)
    ensures var r := Run(cfg, events);
            Remembers(cfg, r.state, TradesIn(events), FillsIn(r.trace), RecordedFairs(cfg, events),
                      events[|events| - 1].ts)
  {
    var init, e := events[..|events| - 1], events[|events| - 1];
    var r := Run(cfg, init);
    StepRemembers(cfg, r.state, e, TradesIn(init), FillsIn(r.trace), RecordedFairs(cfg, init), before);
    FillsConcat(r.trace, Step(cfg, r.state, e).emitted);
  }

  lemma NothingToRemember(cfg: Config, now: real)
    ensures Remembers(cfg, Run(cfg, []).state, TradesIn([]), FillsIn(Run(cfg, []).trace), RecordedFairs(cfg, []), now)
  {
  }

  /** Over any completed run in time order, everything is remembered at the time `now` of the last event. */
  lemma {:induction false} RunRemembers(cfg: Config, events: seq<Event>, now: real)
    requires Chronological(events) && !Run(cfg, events).raised
    requires events != [] ==> now == events[|events| - 1].ts
    ensures var r := Run(cfg, events);
            Remembers(cfg, r.state, TradesIn(events), FillsIn(r.trace), RecordedFairs(cfg, events), now)
  {
    hide Run, Remembers, RecordedFairs, TradesIn, FillsIn;
    if events == [] {
      NothingToRemember(cfg, now);
    } else {
      var init := events[..|events| - 1];
      var earlier := if init == [] then now else init[|init| - 1].ts;
      RunPrefix(cfg, events);
      RunRemembers(cfg, init, earlier);
      RunStepRemembers(cfg, events, earlier);
    }
  }

  lemma RunPrefix(cfg: Config, events: seq<Event>)
    requires events != [] && !Run(cfg, events).raised && Chronological(events)
    ensures var init := events[..|events| - 1];
            !Run(cfg, init).raised && Chronological(init) &&
              (init != [] ==> init[|init| - 1].ts <= events[|events| - 1].ts)
  {
    RunSnoc(cfg, events);
    hide Run, Step;
  }

  /** What is remembered in front of the last event of a run. */
  lemma RemembersBeforeLast(cfg: Config, events: seq<Event>) returns (s: PipelineState, seen: seq<Emitted>,
                            earlier: real)
    requires Chronological(events) && !Run(cfg, events).raised && events != []
    ensures var before := events[..|events| - 1];
            s == Run(cfg, before).state && seen == Run(cfg, before).trace && earlier <= events[|events| - 1].ts
            && Remembers(cfg, s, TradesIn(before), FillsIn(seen), RecordedFairs(cfg, before), earlier)
    ensures var step := Step(cfg, s, events[|events| - 1]);
            !step.raised && Run(cfg, events) == RunResult(step.state, seen + step.emitted, false)
            && FillsIn(Run(cfg, events).trace) == FillsIn(seen) + FillsIn(step.emitted)
  {
    RunPrefix(cfg, events);
    RunSnoc(cfg, events);
    hide Run, Step, Remembers, FillsIn, RecordedFairs, TradesIn;
    var n := |events| - 1;
    s, seen := Run(cfg, events[..n]).state, Run(cfg, events[..n]).trace;
    earlier := if n == 0 then events[0].ts else events[n - 1].ts;
    RunRemembers(cfg, events[..n], earlier);
    FillsConcat(seen, Step(cfg, s, events[n]).emitted);
  }

  // ----- main results -----

  /** On every completed run in time order, the last published taker sums are the sums over all trades of the log
      that are at most one window old. */
  lemma TakerSumsExact(cfg: Config, events: seq<Event>)
    requires Chronological(events) && !Run(cfg, events).raised && events != []
    ensures var shock, recent := Run(cfg, events).state.lastShock,
            Recent(TradesIn(events), events[|events| - 1].ts, cfg.shock.windowMs);
            shock.buy == FlowSum(recent, Buy) && shock.sell == FlowSum(recent, Sell)
  {
    var s, seen, earlier := RemembersBeforeLast(cfg, events);
    StepTakerSums(cfg, s, events[|events| - 1], TradesIn(events[..|events| - 1]), earlier);
  }

  lemma StepTakerSums(cfg: Config, s: PipelineState, e: Event, trades: seq<Timed<Flow>>, before: real)
    requires Tracks(s.shock.trades, trades, before, cfg.shock.windowMs) && before <= e.ts && !Step(cfg, s, e).raised
    ensures var shock, recent := Step(cfg, s, e).state.lastShock,
            Recent(trades + TradeFlow(e), e.ts, cfg.shock.windowMs);
            shock.buy == FlowSum(recent, Buy) && shock.sell == FlowSum(recent, Sell)
  {
    hide FromMarketEvent, StepWithFair;
    var seen := Observed(cfg, s, e);
    var u := FromMarketEvent(cfg.fair, seen.sources, seen.book, e);
    assert seen.shock == s.shock;
    StepWithFairTakerSums(cfg, seen.(sources := u.sources), e, u.state.value, trades, before);
  }

  lemma StepWithFairTakerSums(cfg: Config, s: PipelineState, e: Event, fair: FairState, trades: seq<Timed<Flow>>,
                              before: real)
    requires Tracks(s.shock.trades, trades, before, cfg.shock.windowMs) && before <= e.ts
    ensures var shock, recent := StepWithFair(cfg, s, e, fair).state.lastShock,
            Recent(trades + TradeFlow(e), e.ts, cfg.shock.windowMs);
            shock.buy == FlowSum(recent, Buy) && shock.sell == FlowSum(recent, Sell)
  {
    LastShockPublished(cfg, s, e, fair);
    ShockStepRemembers(cfg, s.shock, e, s, fair, trades, before);
  }

  lemma LastShockPublished(cfg: Config, s: PipelineState, e: Event, fair: FairState)
    ensures var step, su := StepWithFair(cfg, s, e, fair), ShockStep(cfg.shock, cfg.exp, s.shock, e, s.book, fair);
            step.state.lastShock == su.state && step.state.shock == su.memory
  {
    hide Evaluate, Sync, Quotes, FollowEvents, OrderOutput, LiveOutput, SettledFills, ShockStep, WalkOf, UpdateOf,
      HeadOutput;
  }

  /** On every completed run in time order: a side with a burst of fills less than one cooldown ago is disallowed by
      the last decision. Every decision of a run is the last one of some prefix. */
  lemma BurstsDisallow(cfg: Config, events: seq<Event>, k: int)
    requires Chronological(events) && !Run(cfg, events).raised && events != [] && cfg.risk.maxSameSideFills > 0
    requires var fills := FillSides(FillsIn(Run(cfg, events).trace));
             0 <= k < |fills| && Bursts(cfg.risk, fills, k) &&
               events[|events| - 1].ts < fills[k].ts + cfg.risk.burstCooldownMs
    ensures !Allows(Run(cfg, events).state.lastRisk, FillSides(FillsIn(Run(cfg, events).trace))[k].value)
  {
    var s, seen, earlier := RemembersBeforeLast(cfg, events);
    LastDecisionDisallows(cfg, s, events[|events| - 1], FillsIn(seen), earlier, k);
  }

  lemma ObservedKeepsMemory(cfg: Config, s: PipelineState, e: Event, fills: seq<Fill>, now: real)
    requires RiskRemembers(cfg.risk, s.risk, fills, now)
    ensures RiskRemembers(cfg.risk, Observed(cfg, s, e).risk, fills, now)
  {
    match e.payload
    case Trade(_, price, _) => TradeKeepsMemory(cfg.risk, s.risk, fills, now, price, e.ts);
    case _ =>
  }

  lemma LastDecisionDisallows(cfg: Config, s: PipelineState, e: Event, fills: seq<Fill>, before: real, k: int)
    requires RiskRemembers(cfg.risk, s.risk, fills, before) && before <= e.ts && !Step(cfg, s, e).raised
    requires cfg.risk.maxSameSideFills > 0
    requires var all := FillSides(fills + FillsIn(Step(cfg, s, e).emitted));
             0 <= k < |all| && Bursts(cfg.risk, all, k) && e.ts < all[k].ts + cfg.risk.burstCooldownMs
    ensures !Allows(Step(cfg, s, e).state.lastRisk, FillSides(fills + FillsIn(Step(cfg, s, e).emitted))[k].value)
  {
    var seen := Observed(cfg, s, e);
    var u := FromMarketEvent(cfg.fair, seen.sources, seen.book, e);
    ObservedKeepsMemory(cfg, s, e, fills, before);
    StepDisallows(cfg, seen.(sources := u.sources), e, u.state.value, fills, before, k);
  }

  /** What the last decision of a step is made from. */
  function DecisionInput(cfg: Config, next: PipelineState, fair: FairState, now: real): RiskInput {
    RiskInputOf(cfg, next, next.lastShock, fair, now)
  }

  lemma StepDecision(cfg: Config, s: PipelineState, e: Event, fair: FairState)
    requires !StepWithFair(cfg, s, e, fair).raised
    ensures var step, next := StepWithFair(cfg, s, e, fair), AfterFills(cfg, s, e, fair);
            var ev := Evaluate(cfg.risk, next.risk, DecisionInput(cfg, next, fair, e.ts));
            && step.state.lastRisk == ev.decision && step.recorded == ev.recorded && step.state.risk == ev.state
            && step.state.lastFair == fair && step.state.inventory == next.inventory
  {
    hide Evaluate, Sync, Quotes, FollowEvents, OrderOutput, LiveOutput, SettledFills, ShockStep, WalkOf, AfterMarket;
  }

  /** The kernel's memory when a step decides, against all fills up to then. */
  lemma MemoryAtDecision(cfg: Config, s: PipelineState, e: Event, fair: FairState, fills: seq<Fill>, before: real)
    returns (t: real)
    requires RiskRemembers(cfg.risk, s.risk, fills, before) && before <= e.ts && !StepWithFair(cfg, s, e, fair).raised
    ensures var next := AfterFills(cfg, s, e, fair);
            && t <= e.ts && next.risk.fairHistory == s.risk.fairHistory
            && RiskRemembers(cfg.risk, next.risk, fills + FillsIn(StepWithFair(cfg, s, e, fair).emitted), t)
  {
    StepLogs(cfg, s, e, fair);
    MemorySettled(cfg, s, e, fair);
    SettledRemembers(cfg, s, e, fair, fills, before);
    hide AfterFills, StepWithFair, RiskRemembers, SettledFills, WalkOf;
    var all := fills + WalkOf(cfg.fill, s.fills, e, fair).fills;
    t :| t <= e.ts && RiskRemembers(cfg.risk, SettledFills(cfg, s, e, fair).risk, all, t);
  }

  lemma MemorySettled(cfg: Config, s: PipelineState, e: Event, fair: FairState)
    requires !StepWithFair(cfg, s, e, fair).raised
    ensures !SettledFills(cfg, s, e, fair).raised
    ensures AfterFills(cfg, s, e, fair).risk == SettledFills(cfg, s, e, fair).risk
  {
    hide SettleFills, WalkOf, ShockStep, QuoteStep, AfterMarket;
    assert SettledFills(cfg, s, e, fair) == SettledFills(cfg, AfterShock(cfg, s, e, fair), e, fair);
  }

  lemma StepDisallows(cfg: Config, s: PipelineState, e: Event, fair: FairState, fills: seq<Fill>, before: real, k: int)
    requires RiskRemembers(cfg.risk, s.risk, fills, before) && before <= e.ts && !StepWithFair(cfg, s, e, fair).raised
    requires cfg.risk.maxSameSideFills > 0
    requires var all := FillSides(fills + FillsIn(StepWithFair(cfg, s, e, fair).emitted));
             0 <= k < |all| && Bursts(cfg.risk, all, k) && e.ts < all[k].ts + cfg.risk.burstCooldownMs
    ensures !Allows(StepWithFair(cfg, s, e, fair).state.lastRisk,
                    FillSides(fills + FillsIn(StepWithFair(cfg, s, e, fair).emitted))[k].value)
  {
    StepDecision(cfg, s, e, fair);
    var t := MemoryAtDecision(cfg, s, e, fair, fills, before);
    var next, all := AfterFills(cfg, s, e, fair), FillSides(fills + FillsIn(StepWithFair(cfg, s, e, fair).emitted));
    hide StepWithFair, AfterFills, FillSides, FillsIn, Evaluate, Bursts, RemembersFills;
    EvaluationRemembers(cfg.risk, next.risk, all, t, DecisionInput(cfg, next, fair, e.ts));
  }

  /** Whatever `q` answers, `h` answers too; `q` has no answer exactly when every sample of `h` at or before the
      target is more than five seconds older than the last one. */
  ghost predicate AnswersLike(q: seq<Timed<real>>, h: seq<Timed<real>>, target: real) {
    && (FairAtOrBefore(q, target).Some? ==> FairAtOrBefore(q, target) == FairAtOrBefore(h, target))
    && (FairAtOrBefore(q, target).None? <==>
          forall j :: 0 <= j < |h| && h[j].ts <= target ==> h[|h| - 1].ts - h[j].ts > FAIR_HISTORY_MS)
  }

  lemma PrunedAnswers(q: seq<Timed<real>>, h: seq<Timed<real>>, now: real, target: real)
    requires FairsPruned(q, h, now)
    ensures AnswersLike(q, h, target)
  {
    if h != [] {
      PrunedFairRefines(q, h, h[|h| - 1].ts, target);
    }
  }

  /** On every completed run in time order, the kernel's pruned fair history answers like the full history of
      recorded fairs. */
  lemma FairHistoryRefines(cfg: Config, events: seq<Event>, target: real)
    requires Chronological(events) && !Run(cfg, events).raised
    ensures AnswersLike(Run(cfg, events).state.risk.fairHistory, RecordedFairs(cfg, events), target)
  {
    var now := if events == [] then 0.0 else events[|events| - 1].ts;
    RunRemembers(cfg, events, now);
    var q, h := Run(cfg, events).state.risk.fairHistory, RecordedFairs(cfg, events);
    assert FairsPruned(q, h, now);
    PrunedAnswers(q, h, now, target);
  }

  /** The last decision from full histories: what it names for a side, given the fills and the earlier recorded
      fairs. */
  ghost predicate DecidesFromHistory(cfg: RiskConfig, r: RiskState, d: RiskDecision, fills: seq<Fill>,
                                     fairs: seq<Timed<real>>, now: real, fair: real, side: Side) {
    var last := if fairs == [] then now else fairs[|fairs| - 1].ts;
    var cooling := BlockedFor(d, side, FillBurstCooldown);
    && (BlockedFor(d, side, FairDriftTooLarge) <==> !cooling && side in FullDrift(cfg, fairs, last, now, fair))
    && (cfg.maxOneSideChange > 0.0 ==> r.changes == Recent(FillChanges(fills), now, CHANGE_HISTORY_MS))
    && (cfg.maxOneSideChange > 0.0 ==>
          (BlockedFor(d, side, OneSideChangeLimit) <==>
             !cooling && side !in FullDrift(cfg, fairs, last, now, fair) &&
               OverMinute(cfg, FillChanges(fills), now, side, fair)))
    && (side in FullDrift(cfg, fairs, last, now, fair) ==> !Allows(d, side))
  }

  /** On every completed run in time order whose last evaluation recorded a fair: the last decision blocks a side
      for drift, or for the one-side limit, exactly when the full histories of recorded fairs and of fills say so;
      for drift, samples more than five seconds older than the last earlier one do not count. */
  lemma DecisionFromHistory(cfg: Config, events: seq<Event>, side: Side)
    requires Chronological(events) && !Run(cfg, events).raised && events != []
    requires Step(cfg, Run(cfg, events[..|events| - 1]).state, events[|events| - 1]).recorded
    ensures var r := Run(cfg, events);
            && r.state.lastFair.fair.Some?
            && DecidesFromHistory(cfg.risk, r.state.risk, r.state.lastRisk, FillsIn(r.trace),
                                  RecordedFairs(cfg, events[..|events| - 1]),
                                  events[|events| - 1].ts, r.state.lastFair.fair.value, side)
  {
    var s, seen, earlier := RemembersBeforeLast(cfg, events);
    LastDecisionFromHistory(cfg, s, events[|events| - 1], FillsIn(seen), RecordedFairs(cfg, events[..|events| - 1]),
                            earlier, side);
  }

  lemma LastDecisionFromHistory(cfg: Config, s: PipelineState, e: Event, fills: seq<Fill>, fairs: seq<Timed<real>>,
                                before: real, side: Side)
    requires RiskRemembers(cfg.risk, s.risk, fills, before) && FairsPruned(s.risk.fairHistory, fairs, before)
    requires before <= e.ts && !Step(cfg, s, e).raised && Step(cfg, s, e).recorded
    ensures var step := Step(cfg, s, e);
            && step.state.lastFair.fair.Some?
            && DecidesFromHistory(cfg.risk, step.state.risk, step.state.lastRisk, fills + FillsIn(step.emitted),
                                  fairs, e.ts,
                                  step.state.lastFair.fair.value, side)
  {
    hide FromMarketEvent, StepWithFair, DecidesFromHistory, RiskRemembers, FairsPruned;
    var seen := Observed(cfg, s, e);
    var u := FromMarketEvent(cfg.fair, seen.sources, seen.book, e);
    ObservedKeepsMemory(cfg, s, e, fills, before);
    assert seen.risk.fairHistory == s.risk.fairHistory;
    StepFromHistory(cfg, seen.(sources := u.sources), e, u.state.value, fills, fairs, before, side);
  }

  lemma StepFromHistory(cfg: Config, s: PipelineState, e: Event, fair: FairState, fills: seq<Fill>,
                        fairs: seq<Timed<real>>, before: real, side: Side)
    requires RiskRemembers(cfg.risk, s.risk, fills, before) && FairsPruned(s.risk.fairHistory, fairs, before)
    requires before <= e.ts && !StepWithFair(cfg, s, e, fair).raised && StepWithFair(cfg, s, e, fair).recorded
    ensures var step := StepWithFair(cfg, s, e, fair);
            && step.state.lastFair == fair && fair.fair.Some?
            && DecidesFromHistory(cfg.risk, step.state.risk, step.state.lastRisk, fills + FillsIn(step.emitted),
                                  fairs, e.ts,
                                  fair.fair.value, side)
  {
    StepDecision(cfg, s, e, fair);
    var t := MemoryAtDecision(cfg, s, e, fair, fills, before);
    var next, all := AfterFills(cfg, s, e, fair), fills + FillsIn(StepWithFair(cfg, s, e, fair).emitted);
    hide StepWithFair, AfterFills, FillsIn, Evaluate, DecidesFromHistory;
    EvaluationFromHistory(cfg.risk, next.risk, all, t, fairs, before, DecisionInput(cfg, next, fair, e.ts), side);
  }

  lemma EvaluationFromHistory(cfg: RiskConfig, r: RiskState, fills: seq<Fill>, t: real, fairs: seq<Timed<real>>,
                              before: real, i: RiskInput, side: Side)
    requires RemembersChanges(r, FillChanges(fills), t) && t <= i.now
    requires FairsPruned(r.fairHistory, fairs, before) && before <= i.now
    requires Evaluate(cfg, r, i).recorded
    ensures i.fair.fair.Some?
    ensures DecidesFromHistory(cfg, Evaluate(cfg, r, i).state, Evaluate(cfg, r, i).decision, fills, fairs, i.now,
                               i.fair.fair.value, side)
  {
    ReasonIff(cfg, r, i, side);
    AllowedIff(cfg, r, i, side);
    DriftOfPruned(cfg, r.fairHistory, fairs, before, i.now, i.fair.fair.value);
    if cfg.maxOneSideChange > 0.0 {
      OneMinuteNotionalExact(cfg, r, FillChanges(fills), t, i, side);
    }
    hide Evaluate, BlockedFor, FullDrift, DriftBlocked, LiveCooldowns, InventoryReasons, OverMinute, Allows,
      RecentChanges;
  }

  lemma DriftOfPruned(cfg: RiskConfig, q: seq<Timed<real>>, fairs: seq<Timed<real>>, before: real, now: real,
                      fair: real)
    requires FairsPruned(q, fairs, before)
    ensures var last := if fairs == [] then now else fairs[|fairs| - 1].ts;
            DriftBlocked(cfg, q, now, fair) == FullDrift(cfg, fairs, last, now, fair)
  {
    if fairs != [] {
      DriftFromFullHistory(cfg, q, fairs, fairs[|fairs| - 1].ts, now, fair);
    }
  }

  /** On every completed run in time order: a side whose fills of the last minute plus one maximal order at the last
      fair exceed the one-side limit is disallowed by the last decision. */
  lemma OneSideLimitHolds(cfg: Config, events: seq<Event>, side: Side)
    requires Chronological(events) && !Run(cfg, events).raised && events != [] && cfg.risk.maxOneSideChange > 0.0
    ensures var r := Run(cfg, events);
            LimitHolds(cfg.risk, FillsIn(r.trace), events[|events| - 1].ts, side, r.state.lastFair.fair,
                       r.state.lastRisk)
  {
    var s, seen, earlier := RemembersBeforeLast(cfg, events);
    LastDecisionLimits(cfg, s, events[|events| - 1], FillsIn(seen), earlier, side);
  }

  /** The one-side limit at the last decision, from the fills of the last minute. */
  ghost predicate LimitHolds(cfg: RiskConfig, fills: seq<Fill>, now: real, side: Side, fair: Option<real>,
                             decision: RiskDecision) {
    fair.Some? && OverMinute(cfg, FillChanges(fills), now, side, fair.value) ==> !Allows(decision, side)
  }

  lemma LastDecisionLimits(cfg: Config, s: PipelineState, e: Event, fills: seq<Fill>, before: real, side: Side)
    requires RiskRemembers(cfg.risk, s.risk, fills, before) && before <= e.ts && !Step(cfg, s, e).raised
    requires cfg.risk.maxOneSideChange > 0.0
    ensures var step := Step(cfg, s, e);
            LimitHolds(cfg.risk, fills + FillsIn(step.emitted), e.ts, side, step.state.lastFair.fair,
                       step.state.lastRisk)
  {
    hide FromMarketEvent, StepWithFair, LimitHolds, RiskRemembers;
    var seen := Observed(cfg, s, e);
    var u := FromMarketEvent(cfg.fair, seen.sources, seen.book, e);
    ObservedKeepsMemory(cfg, s, e, fills, before);
    StepLimits(cfg, seen.(sources := u.sources), e, u.state.value, fills, before, side);
  }

  lemma StepLimits(cfg: Config, s: PipelineState, e: Event, fair: FairState, fills: seq<Fill>, before: real, side: Side)
    requires RiskRemembers(cfg.risk, s.risk, fills, before) && before <= e.ts && !StepWithFair(cfg, s, e, fair).raised
    requires cfg.risk.maxOneSideChange > 0.0
    ensures var step := StepWithFair(cfg, s, e, fair);
            && step.state.lastFair == fair
            && LimitHolds(cfg.risk, fills + FillsIn(step.emitted), e.ts, side, fair.fair, step.state.lastRisk)
  {
    StepDecision(cfg, s, e, fair);
    var t := MemoryAtDecision(cfg, s, e, fair, fills, before);
    var next, all := AfterFills(cfg, s, e, fair), fills + FillsIn(StepWithFair(cfg, s, e, fair).emitted);
    hide StepWithFair, AfterFills, FillsIn, Evaluate, FillChanges, OverMinute, RemembersFills;
    OneMinuteNotionalExact(cfg.risk, next.risk, FillChanges(all), t, DecisionInput(cfg, next, fair, e.ts), side);
  }

  // ----- volume over whole runs -----

  function TradedVolume(events: seq<Event>): real {
    if events == [] then 0.0 else TradedVolume(events[..|events| - 1]) + Max(Volume(events[|events| - 1]), 0.0)
  }

  lemma StepFillsWithinVolume(cfg: Config, s: PipelineState, e: Event)
    ensures TotalFilled(FillsIn(Step(cfg, s, e).emitted)) <= Max(Volume(e), 0.0)
  {
    if Step(cfg, s, e).raised {
      RaisedEmitsNothing(cfg, s, e);
    } else {
      hide FromMarketEvent, StepWithFair, Observed, FillsIn, TotalFilled, WalkOf, ShockStep;
      var seen := Observed(cfg, s, e);
      var u := FromMarketEvent(cfg.fair, seen.sources, seen.book, e);
      var next := seen.(sources := u.sources);
      StepLogs(cfg, next, e, u.state.value);
      TradeFlowConserved(cfg.fill, next.fills, e, u.state.value);
    }
  }

  /** Over any run, the virtual fills together never exceed the traded volume. */
  lemma {:induction false} RunFillsWithinVolume(cfg: Config, events: seq<Event>)
    ensures TotalFilled(FillsIn(Run(cfg, events).trace)) <= TradedVolume(events)
  {
    if events != [] {
      RunSnoc(cfg, events);
      var init, e := events[..|events| - 1], events[|events| - 1];
      RunFillsWithinVolume(cfg, init);
      hide Run, Step, FillsIn, TotalFilled, Volume;
      var before, emitted := Run(cfg, init), Step(cfg, Run(cfg, init).state, e).emitted;
      FillsConcat(before.trace, emitted);
      TotalFilledConcat(FillsIn(before.trace), FillsIn(emitted));
      StepFillsWithinVolume(cfg, before.state, e);
    }
  }
}
