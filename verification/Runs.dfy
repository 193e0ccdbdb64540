/** Whole runs of the pipeline, from its initial state over any event log. */
module Runs {
  import opened Types
  import opened FairPrice
  import opened Shocks
  import opened FillModels
  import opened FillLaws
  import opened Projectors
  import opened ProjectorLaws
  import opened Inventories
  import opened QuoteSurfaces
  import opened Risks
  import opened LiveGates
  import opened Pipelines
  import opened Ledgers
  import opened Coupling

  /** A step that raises ends the run; its output is lost. */
  datatype RunResult = RunResult(state: PipelineState, trace: seq<Emitted>, raised: bool)

  ghost function RunFrom(cfg: Config, start: PipelineState, events: seq<Event>): RunResult {
    if events == [] then RunResult(start, [], false) else
    var before := RunFrom(cfg, start, events[..|events| - 1]);
    if before.raised then before else
    var step := Step(cfg, before.state, events[|events| - 1]);
    RunResult(step.state, before.trace + step.emitted, step.raised)
  }

  /** From the initial state. */
  ghost function Run(cfg: Config, events: seq<Event>): RunResult {
    RunFrom(cfg, Initial(cfg), events)
  }

  /** One more event. */
  lemma RunSnoc(cfg: Config, events: seq<Event>)
    requires events != []
    ensures var before := Run(cfg, events[..|events| - 1]);
            var step := Step(cfg, before.state, events[|events| - 1]);
            Run(cfg, events) ==
            if before.raised then before else RunResult(step.state, before.trace + step.emitted, step.raised)
  {
    hide Step;
  }

  lemma RaisedEmitsNothing(cfg: Config, s: PipelineState, e: Event)
    requires Step(cfg, s, e).raised
    ensures Step(cfg, s, e).emitted == []
  {
    hide FromMarketEvent, Observed, AfterFills, SettledFills, QuoteStep, WalkOf, HeadOutput;
    var seen := Observed(cfg, s, e);
    var u := FromMarketEvent(cfg.fair, seen.sources, seen.book, e);
    if u.state.Some? {
      var next := AfterFills(cfg, seen.(sources := u.sources), e, u.state.value);
      QuotingCompletes(cfg, next, e, u.state.value, next.lastShock);
    }
  }

  // ----- the invariant -----

  function DelaysOf(cfg: Config): Delays {
    Delays(cfg.shock.minWaitMs, cfg.shock.minWaitMs + cfg.fill.minRestingMs)
  }

  /** The shock memory points at an emitted forced flow. */
  ghost predicate ShockKnown(m: ShockMemory, shocks: set<ShockId>) {
    && (m.lastTs.Some? <==> m.lastId.Some?)
    && (m.lastId.Some? ==> m.lastId.value in shocks && m.lastId.value.ts == m.lastTs.value)
  }

  ghost predicate Agrees(cfg: Config, s: PipelineState, l: Ledger) {
    && ShockKnown(s.shock, l.shocks)
    && Coupled(DelaysOf(cfg), s.projector.active, s.projector.counter, s.fills.orders, l)
  }

  lemma InitiallyAgrees(cfg: Config)
    ensures Agrees(cfg, Initial(cfg), BLANK)
  {
  }

  lemma ObservedAgrees(cfg: Config, s: PipelineState, e: Event, l: Ledger)
    requires Agrees(cfg, s, l)
    ensures Agrees(cfg, Observed(cfg, s, e), l)
  {
    var seen := Observed(cfg, s, e);
    assert seen.shock == s.shock && seen.projector == s.projector && seen.fills.orders == s.fills.orders;
  }

  // ----- the phases of a step -----

  lemma ShockAgrees(cfg: Config, s: PipelineState, e: Event, fair: FairState, l: Ledger)
    requires Agrees(cfg, s, l)
    ensures var su := ShockStep(cfg.shock, cfg.exp, s.shock, e, s.book, fair);
            Agrees(cfg, AfterShock(cfg, s, e, fair), NoteAll(DelaysOf(cfg), l, ShockOutput(su.shock)))
  {
    ShockRemembered(cfg.shock, cfg.exp, s.shock, e, s.book, fair);
    hide ShockStep, Coupled, DelaysOf;
    var su := ShockStep(cfg.shock, cfg.exp, s.shock, e, s.book, fair);
    if su.shock.Some? {
      assert ShockOutput(su.shock)[1..] == [];
      MoreShocks(DelaysOf(cfg), s.projector.active, s.projector.counter, s.fills.orders, l, su.shock.value);
    }
  }

  lemma MoreShocks(d: Delays, active: seq<ActiveOrder>, counter: nat, orders: OrderTable, l: Ledger, id: ShockId)
    requires Coupled(d, active, counter, orders, l)
    ensures Coupled(d, active, counter, orders, l.(shocks := l.shocks + {id}))
  {
    var l' := l.(shocks := l.shocks + {id});
    forall o | o in l'.placed ensures DueTo(l'.shocks, l'.placed[o].shockId, l'.placed[o].createdAt, d.place) {
      assert DueTo(l.shocks, l.placed[o].shockId, l.placed[o].createdAt, d.place);
    }
  }

  function FillOutput(fills: seq<Fill>): seq<Emitted> {
    seq(|fills|, i requires 0 <= i < |fills| => VirtualFill(fills[i]))
  }

  /** Settling emits every fill and makes the projector forget every filled order. */
  lemma {:induction false} SettleEmitsFills(cfg: Config, inv: Inventory, r: RiskState, active: seq<ActiveOrder>,
                                            fills: seq<Fill>)
    requires !SettleFills(cfg, inv, r, active, fills).raised
    ensures var settled := SettleFills(cfg, inv, r, active, fills);
            settled.emitted == FillOutput(fills) && settled.active == RemoveAll(active, fills)
    decreases |fills|
  {
    if fills != [] {
      var f := fills[0];
      SettleEmitsFills(cfg, ApplyFill(inv, f.side, f.price, f.size, f.fee),
                       RecordFill(cfg.risk, r, f.side, f.ts, f.price, f.size),
                       RemoveFilled(active, f.orderId), fills[1..]);
      assert FillOutput(fills) == [VirtualFill(f)] + FillOutput(fills[1..]);
    }
  }

  lemma {:induction false} NoteFillOutput(d: Delays, l: Ledger, fills: seq<Fill>)
    ensures NoteAll(d, l, FillOutput(fills)) == NoteFills(d, l, fills)
    ensures NoteFills(d, l, fills).shocks == l.shocks
    decreases |fills|
  {
    if fills != [] {
      assert FillOutput(fills)[1..] == FillOutput(fills[1..]);
      NoteFillOutput(d, Note(d, l, VirtualFill(fills[0])), fills[1..]);
    }
  }

  lemma CandidatesRested(cfg: FillConfig, st: FillState, e: Event)
    ensures Rested(Candidates(cfg, st, e), e.ts, cfg.minRestingMs)
  {
  }

  lemma FillsAgree(cfg: Config, s: PipelineState, e: Event, fair: FairState, l: Ledger)
    requires Agrees(cfg, s, l) && !SettledFills(cfg, s, e, fair).raised
    ensures Agrees(cfg, SettledState(cfg, s, e, fair), NoteAll(DelaysOf(cfg), l, SettledFills(cfg, s, e, fair).emitted))
  {
    var d, w := DelaysOf(cfg), WalkOf(cfg.fill, s.fills, e, fair);
    SettleEmitsFills(cfg, s.inventory, s.risk, s.projector.active, w.fills);
    NoteFillOutput(d, l, w.fills);
    CandidatesCurrent(cfg.fill, s.fills, e);
    CandidatesRested(cfg.fill, s.fills, e);
    WalkKeeps(d, s.projector.active, s.projector.counter, s.fills.orders, l, Candidates(cfg.fill, s.fills, e),
              Volume(e), ContextOf(s.fills, e, fair), s.fills.counter, w);
  }

  lemma {:induction false} NoteOrderOutput(d: Delays, l: Ledger, events: seq<OrderEvent>)
    ensures NoteAll(d, l, OrderOutput(events)) == NoteOrders(d, l, events)
    decreases |events|
  {
    if events != [] {
      assert OrderOutput(events)[1..] == OrderOutput(events[1..]);
      NoteOrderOutput(d, Note(d, l, Order(events[0])), events[1..]);
    }
  }

  ghost predicate Silent(out: seq<Emitted>) {
    forall i :: 0 <= i < |out| ==> out[i].MarkPrice? || out[i].RiskUpdate? || out[i].LiveIntent? || out[i].LiveBlocked?
  }

  lemma {:induction false} SilentChangesNothing(d: Delays, l: Ledger, out: seq<Emitted>)
    requires Silent(out)
    ensures NoteAll(d, l, out) == l
    decreases |out|
  {
    if out != [] {
      SilentChangesNothing(d, l, out[1..]);
    }
  }

  lemma {:induction false} LiveIsSilent(v: GateView, events: seq<OrderEvent>)
    ensures Silent(LiveOutput(v, events))
    decreases |events|
  {
    if events != [] {
      LiveIsSilent(v, events[1..]);
    }
  }

  /** Quotes exist only when the last shock is known and has aged past the minimum wait. */
  lemma QuotesAreDue(cfg: Config, s: PipelineState, e: Event, fair: FairState, settled: PipelineState, l: Ledger)
    requires ShockKnown(AfterShock(cfg, s, e, fair).shock, l.shocks)
    ensures QuotesDue(DelaysOf(cfg), Quotes(cfg, settled, AfterShock(cfg, s, e, fair).lastShock, fair), l.shocks, e.ts)
  {
    var shock := AfterShock(cfg, s, e, fair).lastShock;
    ActiveOnlyAfterWait(cfg.shock, cfg.exp, s.shock, e, s.book, fair);
    if fair.isValid && fair.fair.Some? {
      GeneratedQuoted(SurfaceFor(cfg.amm, cfg.exp, settled.spec), QuoteInputOf(cfg, settled, shock, fair));
    }
  }

  lemma QuotingAgrees(cfg: Config, s: PipelineState, e: Event, fair: FairState, shock: ShockState, l: Ledger)
    requires Agrees(cfg, s, l) && QuotesDue(DelaysOf(cfg), Quotes(cfg, s, shock, fair), l.shocks, e.ts)
    ensures var step := QuoteStep(cfg, s, e, fair, shock);
            Agrees(cfg, step.state, NoteAll(DelaysOf(cfg), l, step.emitted))
  {
    var d, step := DelaysOf(cfg), QuoteStep(cfg, s, e, fair, shock);
    var decision := Evaluate(cfg.risk, s.risk, RiskInputOf(cfg, s, shock, fair, e.ts)).decision;
    var quotes, m := Quotes(cfg, s, shock, fair), MarketOf(s.book, decision, e.ts);
    var synced := Sync(cfg.projector, s.projector, quotes, m);
    SyncFollows(cfg.fill, d, cfg.projector, s.projector, quotes, m, s.fills.orders, l, s.book);
    OrdersKeepShocks(d, l, synced.events);
    QuoteOutputNoted(cfg, s, e, fair, shock, l);
  }

  lemma QuoteOutputNoted(cfg: Config, s: PipelineState, e: Event, fair: FairState, shock: ShockState, l: Ledger)
    ensures var decision := Evaluate(cfg.risk, s.risk, RiskInputOf(cfg, s, shock, fair, e.ts)).decision;
            var synced := Sync(cfg.projector, s.projector, Quotes(cfg, s, shock, fair),
                               MarketOf(s.book, decision, e.ts));
            NoteAll(DelaysOf(cfg), l, QuoteStep(cfg, s, e, fair, shock).emitted) ==
              NoteOrders(DelaysOf(cfg), l, synced.events)
  {
    var d := DelaysOf(cfg);
    var decision := Evaluate(cfg.risk, s.risk, RiskInputOf(cfg, s, shock, fair, e.ts)).decision;
    var events := Sync(cfg.projector, s.projector, Quotes(cfg, s, shock, fair),
                       MarketOf(s.book, decision, e.ts)).events;
    var update, live := [UpdateOf(cfg, s, e.ts, decision, shock, fair)], LiveOutput(ViewOf(cfg, s, decision), events);
    NoteThree(d, l, update, OrderOutput(events), live);
    NoteOrderOutput(d, l, events);
    SilentChangesNothing(d, l, update);
    LiveIsSilent(ViewOf(cfg, s, decision), events);
    SilentChangesNothing(d, NoteOrders(d, l, events), live);
  }

  lemma NoteThree(d: Delays, l: Ledger, a: seq<Emitted>, b: seq<Emitted>, c: seq<Emitted>)
    ensures NoteAll(d, l, a + b + c) == NoteAll(d, NoteAll(d, NoteAll(d, l, a), b), c)
  {
    NoteConcat(d, l, a + b, c);
    NoteConcat(d, l, a, b);
  }

  // ----- steps and runs -----

  lemma ShockKeepsFills(cfg: Config, s: PipelineState, e: Event, fair: FairState)
    ensures SettledFills(cfg, s, e, fair) == SettledFills(cfg, AfterShock(cfg, s, e, fair), e, fair)
  {
    hide ShockStep, WalkOf;
  }

  lemma MarksAreSilent(e: Event, fair: FairState)
    ensures Silent(MarkOutput(e, fair))
  {
  }

  lemma HeadAgrees(cfg: Config, s: PipelineState, e: Event, fair: FairState, l: Ledger)
    requires Agrees(cfg, s, l) && !SettledFills(cfg, AfterShock(cfg, s, e, fair), e, fair).raised
    ensures Agrees(cfg, AfterFills(cfg, s, e, fair), NoteAll(DelaysOf(cfg), l, HeadOutput(cfg, s, e, fair)))
    ensures SettledFills(cfg, s, e, fair) == SettledFills(cfg, AfterShock(cfg, s, e, fair), e, fair)
  {
    ShockKeepsFills(cfg, s, e, fair);
    hide Agrees, ShockStep, SettledFills, SettledState, AfterShock, WalkOf, NoteAll, Silent, ShockOutput, DelaysOf;
    var d := DelaysOf(cfg);
    var shocks := ShockOutput(ShockStep(cfg.shock, cfg.exp, s.shock, e, s.book, fair).shock);
    var fills := SettledFills(cfg, s, e, fair).emitted;
    MarksAreSilent(e, fair);
    SilentChangesNothing(d, l, MarkOutput(e, fair));
    NoteThree(d, l, MarkOutput(e, fair), shocks, fills);
    ShockAgrees(cfg, s, e, fair, l);
    FillsAgree(cfg, AfterShock(cfg, s, e, fair), e, fair, NoteAll(d, l, shocks));
  }

  lemma StepWithFairAgrees(cfg: Config, s: PipelineState, e: Event, fair: FairState, l: Ledger)
    requires Agrees(cfg, s, l) && !StepWithFair(cfg, s, e, fair).raised
    ensures var step := StepWithFair(cfg, s, e, fair);
            Agrees(cfg, step.state, NoteAll(DelaysOf(cfg), l, step.emitted))
  {
    var d, next := DelaysOf(cfg), AfterFills(cfg, s, e, fair);
    var head := HeadOutput(cfg, s, e, fair);
    assert SettledFills(cfg, s, e, fair) == SettledFills(cfg, AfterShock(cfg, s, e, fair), e, fair);
    HeadAgrees(cfg, s, e, fair, l);
    var l1 := NoteAll(d, l, head);
    QuotesAreDue(cfg, s, e, fair, next, l1);
    QuotingAgrees(cfg, next, e, fair, next.lastShock, l1);
    NoteConcat(d, l, head, QuoteStep(cfg, next, e, fair, next.lastShock).emitted);
  }

  lemma StepAgrees(cfg: Config, s: PipelineState, e: Event, l: Ledger)
    requires Agrees(cfg, s, l) && !Step(cfg, s, e).raised
    ensures Agrees(cfg, Step(cfg, s, e).state, NoteAll(DelaysOf(cfg), l, Step(cfg, s, e).emitted))
  {
    ObservedAgrees(cfg, s, e, l);
    var seen := Observed(cfg, s, e);
    var u := FromMarketEvent(cfg.fair, seen.sources, seen.book, e);
    StepWithFairAgrees(cfg, seen.(sources := u.sources), e, u.state.value, l);
  }

  lemma {:induction false} RunAgrees(cfg: Config, events: seq<Event>)
    ensures var r := Run(cfg, events);
            var l := NoteAll(DelaysOf(cfg), BLANK, r.trace);
            l.orderly && l.caused && (!r.raised ==> Agrees(cfg, r.state, l))
  {
    if events == [] {
      InitiallyAgrees(cfg);
    } else {
      RunSnoc(cfg, events);
      var init, e := events[..|events| - 1], events[|events| - 1];
      RunAgrees(cfg, init);
      hide Run, Step, Agrees, NoteAll;
      var before, step, d := Run(cfg, init), Step(cfg, Run(cfg, init).state, e), DelaysOf(cfg);
      if !before.raised {
        NoteConcat(d, BLANK, before.trace, step.emitted);
        if step.raised {
          RaisedEmitsNothing(cfg, before.state, e);
          assert before.trace + [] == before.trace;
        } else {
          StepAgrees(cfg, before.state, e, NoteAll(d, BLANK, before.trace));
          AgreedIsOrderly(cfg, step.state, NoteAll(d, NoteAll(d, BLANK, before.trace), step.emitted));
        }
      }
    }
  }

  lemma AgreedIsOrderly(cfg: Config, s: PipelineState, l: Ledger)
    requires Agrees(cfg, s, l)
    ensures l.orderly && l.caused
  {
  }

  // ----- main results -----

  /** The tracked order is the placed order, whatever has been filled of it. */
  ghost predicate SameOrder(t: Tracked, o: ActiveOrder) {
    t.id == o.id && t.side == o.side && t.price == o.price && t.createdAt == o.createdAt
  }

  /** The tracked order `t` is what the fills of the trace left of an order placed in it. */
  ghost predicate Remainder(trace: seq<Emitted>, t: Tracked) {
    exists i :: PlacesAt(trace, i, t.id) && SameOrder(t, trace[i].change.order)
      && trace[i].change.order.size == t.remaining + TraceFilled(trace, t.id)
      && DUST < t.remaining < trace[i].change.order.size
  }

  /** After every completed run: an order active in the projector is tracked by the fill model, unfilled, under the
      same id, side, price and creation time; a tracked order that is not active is exactly the remainder of a
      placed order with fills, more than dust and less than the placed size. */
  lemma BooksAgree(cfg: Config, events: seq<Event>)
    requires !Run(cfg, events).raised
    ensures var r := Run(cfg, events);
            var active, orders := r.state.projector.active, r.state.fills.orders;
            && UniqueKeys(active)
            && (forall a :: a in active ==>
                  a.id in orders && SameOrder(orders[a.id], a) && orders[a.id].remaining == a.size)
            && (forall id :: id in orders && (forall a :: a in active ==> a.id != id) ==>
                Remainder(r.trace, orders[id]))
  {
    RunAgrees(cfg, events);
    var r := Run(cfg, events);
    CoupledBooks(DelaysOf(cfg), r.state.projector.active, r.state.projector.counter, r.state.fills.orders, r.trace);
  }

  lemma CoupledBooks(d: Delays, active: seq<ActiveOrder>, counter: nat, orders: OrderTable, trace: seq<Emitted>)
    requires Coupled(d, active, counter, orders, NoteAll(d, BLANK, trace))
    ensures forall a :: a in active ==> a.id in orders && SameOrder(orders[a.id], a) && orders[a.id].remaining == a.size
    ensures forall id :: id in orders && (forall a :: a in active ==> a.id != id) ==> Remainder(trace, orders[id])
  {
    var l := NoteAll(d, BLANK, trace);
    forall id | id in orders && (forall a :: a in active ==> a.id != id) ensures Remainder(trace, orders[id]) {
      FilledIsTraceFilled(d, BLANK, trace, id);
      assert l.placed[id] !in active;
      var i := PlacedInTrace(d, trace, id);
      assert trace[i].change.order == l.placed[id];
    }
  }

  lemma {:induction false} PlacedInTrace(d: Delays, trace: seq<Emitted>, id: OrderId) returns (i: int)
    requires id in NoteAll(d, BLANK, trace).placed
    ensures PlacesAt(trace, i, id) && trace[i].change.order == NoteAll(d, BLANK, trace).placed[id]
    decreases |trace|
  {
    if trace == [] {
      assert false;
    } else {
      var n := |trace| - 1;
      assert trace[..|trace|] == trace;
      LedgerSteps(d, trace, n);
      if PlacesAt(trace, n, id) {
        i := n;
      } else {
        i := PlacedInTrace(d, trace[..n], id);
      }
    }
  }

  /** Over any run, also one that ends in a raise: ids are placed at most once and cancelled at most once, nothing
      happens to an id before it is placed, a cancelled id never fills afterwards, a filled id is never cancelled. */
  lemma OrderLifecycle(cfg: Config, events: seq<Event>)
    ensures LifecycleKept(Run(cfg, events).trace) && PlacedFirst(Run(cfg, events).trace)
  {
    RunAgrees(cfg, events);
    OrderlyLifecycle(DelaysOf(cfg), Run(cfg, events).trace);
    OrderlyPlacedFirst(DelaysOf(cfg), Run(cfg, events).trace);
  }

  lemma PlacementOf(d: Delays, trace: seq<Emitted>, i: int, id: OrderId)
    requires PlacesAt(trace, i, id) && NoteAll(d, BLANK, trace).orderly
    ensures var l := NoteAll(d, BLANK, trace); id in l.placed && l.placed[id] == trace[i].change.order
  {
    assert trace[..|trace|] == trace;
    NotedAt(d, trace, i);
    var k := PlacedInTrace(d, trace, id);
    OrderlyLifecycle(d, trace);
    assert i < k ==> LifecycleAt(trace, i, k, id);
    assert k < i ==> LifecycleAt(trace, k, i, id);
  }

  lemma {:induction false} CancelledInTrace(d: Delays, trace: seq<Emitted>, id: OrderId) returns (i: int)
    requires id in NoteAll(d, BLANK, trace).cancelled
    ensures CancelsAt(trace, i, id)
    decreases |trace|
  {
    if trace == [] {
      assert false;
    } else {
      var n := |trace| - 1;
      assert trace[..|trace|] == trace;
      LedgerSteps(d, trace, n);
      if CancelsAt(trace, n, id) {
        i := n;
      } else {
        i := CancelledInTrace(d, trace[..n], id);
      }
    }
  }

  ghost predicate EverCancelled(trace: seq<Emitted>, id: OrderId) {
    exists j :: CancelsAt(trace, j, id)
  }

  lemma CancelledIffInTrace(d: Delays, trace: seq<Emitted>, id: OrderId)
    ensures id in NoteAll(d, BLANK, trace).cancelled <==> EverCancelled(trace, id)
  {
    if id in NoteAll(d, BLANK, trace).cancelled {
      var j := CancelledInTrace(d, trace, id);
    }
    if EverCancelled(trace, id) {
      var j :| CancelsAt(trace, j, id);
      assert trace[..|trace|] == trace;
      NotedAt(d, trace, j);
    }
  }

  /** Nothing is lost: after every completed run the emitted trace alone decides where a placed order is. The
      projector has it exactly when it was neither cancelled nor filled at all; the fill model has it exactly when
      it was neither cancelled nor filled up to dust. */
  lemma EveryOrderAccountedFor(cfg: Config, events: seq<Event>, i: int, id: OrderId)
    requires !Run(cfg, events).raised && PlacesAt(Run(cfg, events).trace, i, id)
    ensures var r := Run(cfg, events);
            var o, filled, cancelled := r.trace[i].change.order, TraceFilled(r.trace, id), EverCancelled(r.trace, id);
            && (o in r.state.projector.active <==> !cancelled && filled == 0.0)
            && (id in r.state.fills.orders <==> !cancelled && (filled == 0.0 || o.size - filled > DUST))
  {
    RunAgrees(cfg, events);
    var r, d := Run(cfg, events), DelaysOf(cfg);
    var l := NoteAll(d, BLANK, r.trace);
    PlacementOf(d, r.trace, i, id);
    CancelledIffInTrace(d, r.trace, id);
    FilledIsTraceFilled(d, BLANK, r.trace, id);
    PlacedAccounted(d, r.state.projector.active, r.state.projector.counter, r.state.fills.orders, l, id);
  }

  lemma FilledNotCancelled(trace: seq<Emitted>, k: int, id: OrderId)
    requires LifecycleKept(trace) && FillsAt(trace, k, id)
    ensures !EverCancelled(trace, id)
  {
    forall j | 0 <= j < |trace| ensures !CancelsAt(trace, j, id) {
      assert j < k ==> LifecycleAt(trace, j, k, id);
      assert k < j ==> LifecycleAt(trace, k, j, id);
    }
  }

  /** The remainder of a partly filled order stays fillable for the rest of the run: neither its expiry nor a risk
      block nor an unsafe price ever removes it, only fills up to dust do. */
  lemma RemainderNeverExpires(cfg: Config, events: seq<Event>, i: int, k: int, id: OrderId)
    requires !Run(cfg, events).raised
    requires var trace := Run(cfg, events).trace;
             PlacesAt(trace, i, id) && FillsAt(trace, k, id) &&
               trace[i].change.order.size - TraceFilled(trace, id) > DUST
    ensures id in Run(cfg, events).state.fills.orders
  {
    OrderLifecycle(cfg, events);
    FilledNotCancelled(Run(cfg, events).trace, k, id);
    EveryOrderAccountedFor(cfg, events, i, id);
  }

  /** No order is ever filled beyond its placed size. */
  lemma NeverOverfilled(cfg: Config, events: seq<Event>, i: int, id: OrderId)
    requires PlacesAt(Run(cfg, events).trace, i, id)
    ensures var filled := TraceFilled(Run(cfg, events).trace, id);
            filled == 0.0 || 0.0 < filled <= Run(cfg, events).trace[i].change.order.size
  {
    RunAgrees(cfg, events);
    var trace, d := Run(cfg, events).trace, DelaysOf(cfg);
    FilledIsTraceFilled(d, BLANK, trace, id);
    OrderlyBounded(d, BLANK, trace);
    PlacementOf(d, trace, i, id);
  }

  /** Shock causality over any run: every placed order carries the id of a forced flow emitted before it and at
      least the minimum wait older; every fill comes at least that wait plus the minimum resting time after it. */
  lemma EveryOrderHasItsShock(cfg: Config, events: seq<Event>)
    ensures EverythingCaused(DelaysOf(cfg), Run(cfg, events).trace)
  {
    RunAgrees(cfg, events);
    CausedTrace(DelaysOf(cfg), Run(cfg, events).trace);
  }

  /** While the last shock, or the absence of any, calls for waiting, a completed step leaves no active order. */
  lemma NothingRestsWhileWaiting(cfg: Config, s: PipelineState, e: Event)
    requires !Step(cfg, s, e).raised
    requires var m := Step(cfg, s, e).state.shock; m.lastTs.None? || e.ts - m.lastTs.value < cfg.shock.minWaitMs
    ensures Step(cfg, s, e).state.projector.active == []
  {
    var seen := Observed(cfg, s, e);
    var u := FromMarketEvent(cfg.fair, seen.sources, seen.book, e);
    WaitingStepEmpties(cfg, seen.(sources := u.sources), e, u.state.value);
  }

  lemma WaitingStepEmpties(cfg: Config, s: PipelineState, e: Event, fair: FairState)
    requires !StepWithFair(cfg, s, e, fair).raised
    requires var m := AfterShock(cfg, s, e, fair).shock; m.lastTs.None? || e.ts - m.lastTs.value < cfg.shock.minWaitMs
    ensures StepWithFair(cfg, s, e, fair).state.projector.active == []
  {
    hide StepWithFair, AfterFills, Quotes, Evaluate, Sync;
    var next := AfterFills(cfg, s, e, fair);
    WaitingQuotesNothing(cfg, s, e, fair);
    StepLeavesSynced(cfg, s, e, fair);
    var decision := Evaluate(cfg.risk, next.risk, RiskInputOf(cfg, next, next.lastShock, fair, e.ts)).decision;
    SyncEmpties(cfg.projector, next.projector, [], MarketOf(next.book, decision, e.ts));
  }

  lemma WaitingQuotesNothing(cfg: Config, s: PipelineState, e: Event, fair: FairState)
    requires var m := AfterShock(cfg, s, e, fair).shock; m.lastTs.None? || e.ts - m.lastTs.value < cfg.shock.minWaitMs
    ensures var next := AfterFills(cfg, s, e, fair); Quotes(cfg, next, next.lastShock, fair) == []
  {
    ActiveOnlyAfterWait(cfg.shock, cfg.exp, s.shock, e, s.book, fair);
    hide ShockStep, SettledFills, WalkOf, LevelsUpTo, SurfaceFor, Skew;
  }

  lemma StepLeavesSynced(cfg: Config, s: PipelineState, e: Event, fair: FairState)
    requires !StepWithFair(cfg, s, e, fair).raised
    ensures var next := AfterFills(cfg, s, e, fair);
            var decision := Evaluate(cfg.risk, next.risk, RiskInputOf(cfg, next, next.lastShock, fair, e.ts)).decision;
            StepWithFair(cfg, s, e, fair).state.projector.active ==
              Sync(cfg.projector, next.projector, Quotes(cfg, next, next.lastShock, fair),
                   MarketOf(next.book, decision, e.ts)).active
  {
    hide AfterFills, SettledFills, Quotes, Evaluate, Sync, HeadOutput, WalkOf, FollowEvents, OrderOutput, LiveOutput,
      UpdateOf;
  }
}
