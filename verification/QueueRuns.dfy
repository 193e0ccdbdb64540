/** Over whole runs: the queue in front of an order absorbs flow before the order does, and trades go by priority. */
module QueueRuns {
  import opened Types
  import opened OrderBooks
  import opened FairPrice
  import opened Shocks
  import opened FillModels
  import opened FillLaws
  import opened Projectors
  import opened Risks
  import opened Pipelines
  import opened Ledgers
  import opened TraceLogs
  import opened Runs
  import opened HistoryRuns
  import opened RunSafety

  // ----- placed ids are new -----

  /** Every placed order has an id of its own, above `low` and at most `high`. */
  ghost predicate PlacesNew(events: seq<OrderEvent>, low: nat, high: nat) {
    && (forall i :: 0 <= i < |events| && events[i].Placed? ==> low < events[i].order.id <= high)
    && (forall i, j :: 0 <= i < j < |events| && events[i].Placed? && events[j].Placed? ==>
          events[i].order.id != events[j].order.id)
  }

  lemma PlacesNewConcat(a: seq<OrderEvent>, b: seq<OrderEvent>, low: nat, mid: nat, high: nat)
    requires low <= mid <= high && PlacesNew(a, low, mid) && PlacesNew(b, mid, high)
    ensures PlacesNew(a + b, low, high)
  {
    forall i | 0 <= i < |a + b| && (a + b)[i].Placed? ensures low < (a + b)[i].order.id <= high {
      if i < |a| { assert (a + b)[i] == a[i]; } else { assert (a + b)[i] == b[i - |a|]; }
    }
    forall i, j | 0 <= i < j < |a + b| && (a + b)[i].Placed? && (a + b)[j].Placed?
      ensures (a + b)[i].order.id != (a + b)[j].order.id
    {
      if j < |a| {
        assert (a + b)[i] == a[i] && (a + b)[j] == a[j];
      } else if i < |a| {
        assert (a + b)[i] == a[i] && (a + b)[j] == b[j - |a|];
      } else {
        assert (a + b)[i] == b[i - |a|] && (a + b)[j] == b[j - |a|];
      }
    }
  }

  lemma {:induction false} RefreshPlacesNew(pc: ProjectorConfig, active: seq<ActiveOrder>, quotes: seq<Quote>,
                                            now: real, counter: nat)
    ensures var r := Refresh(pc, active, quotes, now, counter);
            counter <= r.counter && PlacesNew(r.events, counter, r.counter)
    decreases |quotes|
  {
    if quotes != [] {
      var one := RefreshOne(pc, active, quotes[0], now, counter);
      var rest := Refresh(pc, one.active, quotes[1..], now, one.counter);
      assert counter <= one.counter && PlacesNew(one.events, counter, one.counter);
      RefreshPlacesNew(pc, one.active, quotes[1..], now, one.counter);
      hide RefreshOne, PlacesNew;
      PlacesNewConcat(one.events, rest.events, counter, one.counter, rest.counter);
    }
  }

  lemma {:induction false} SweepPlacesNew(active: seq<ActiveOrder>, keys: set<Key>, m: Market, counter: nat)
    ensures var r := Sweep(active, keys, m, counter); counter <= r.counter && PlacesNew(r.events, counter, r.counter)
  {
    SweepPlacesNothing(active, keys, m, counter);
    SweepCounts(active, keys, m, counter);
  }

  lemma {:induction false} SweepCounts(active: seq<ActiveOrder>, keys: set<Key>, m: Market, counter: nat)
    ensures counter <= Sweep(active, keys, m, counter).counter
  {
    if active != [] {
      SweepCounts(active[1..], keys, m, if Stays(active[0], keys, m) then counter else counter + 1);
    }
  }

  lemma {:induction false} CancelAllCounts(active: seq<ActiveOrder>, now: real, counter: nat, reason: Reason)
    ensures counter <= CancelAll(active, now, counter, reason).counter
  {
    if active != [] {
      CancelAllCounts(active[1..], now, counter + 1, reason);
    }
  }

  /** A sync numbers the orders it places with new, distinct ids. */
  lemma SyncPlacesNew(pc: ProjectorConfig, st: ProjectorState, quotes: seq<Quote>, m: Market)
    ensures var r := Sync(pc, st, quotes, m); st.counter <= r.counter && PlacesNew(r.events, st.counter, r.counter)
  {
    if !m.risk.allowQuote {
      var reason := if m.risk.reason.Some? then m.risk.reason.value else RiskBlock;
      CancelAllPlacesNothing(st.active, m.now, st.counter, reason);
      CancelAllCounts(st.active, m.now, st.counter, reason);
    } else {
      var desired := Desired(pc, quotes, m);
      var swept := Sweep(st.active, KeysOf(desired), m, st.counter);
      var refreshed := Refresh(pc, swept.active, desired, m.now, swept.counter);
      SweepPlacesNew(st.active, KeysOf(desired), m, st.counter);
      RefreshPlacesNew(pc, swept.active, desired, m.now, swept.counter);
      hide Sweep, Refresh, Desired, KeysOf, PlacesNew;
      PlacesNewConcat(swept.events, refreshed.events, st.counter, swept.counter, refreshed.counter);
    }
  }

  // ----- the fill model follows -----

  ghost predicate NotPlaced(events: seq<OrderEvent>, id: OrderId) {
    forall i :: 0 <= i < |events| && events[i].Placed? ==> events[i].order.id != id
  }

  /** Events that do not place `id` leave it as it is or cancel it. */
  lemma {:induction false} FollowLeaves(cfg: FillConfig, orders: OrderTable, events: seq<OrderEvent>, b: BookState,
                                        id: OrderId)
    requires NotPlaced(events, id)
    ensures var r := FollowEvents(cfg, orders, events, b); id in r ==> id in orders && r[id] == orders[id]
    decreases |events|
  {
    if events != [] {
      FollowLeaves(cfg, OnOrderEvent(cfg, orders, events[0], b), events[1..], b, id);
    }
  }

  /** The events that place `o`, and no other order under its id, leave it as it was placed or cancel it. */
  lemma {:induction false} FollowPlaces(cfg: FillConfig, orders: OrderTable, events: seq<OrderEvent>, b: BookState,
                                        o: ActiveOrder)
    requires forall i :: 0 <= i < |events| && events[i].Placed? && events[i].order.id == o.id ==> events[i].order == o
    requires o.id in orders ==> orders[o.id] == Track(cfg, o, b)
    ensures var r := FollowEvents(cfg, orders, events, b); o.id in r ==> r[o.id] == Track(cfg, o, b)
    decreases |events|
  {
    if events != [] {
      hide Track;
      FollowPlaces(cfg, OnOrderEvent(cfg, orders, events[0], b), events[1..], b, o);
    }
  }

  // ----- a step, by its parts -----

  function SyncOf(cfg: Config, next: PipelineState, fair: FairState, now: real): SyncResult {
    var decision := Evaluate(cfg.risk, next.risk, DecisionInput(cfg, next, fair, now)).decision;
    Sync(cfg.projector, next.projector, Quotes(cfg, next, next.lastShock, fair), MarketOf(next.book, decision, now))
  }

  lemma SyncOfPlacesNew(cfg: Config, next: PipelineState, fair: FairState, now: real)
    ensures var r := SyncOf(cfg, next, fair, now);
            next.projector.counter <= r.counter && PlacesNew(r.events, next.projector.counter, r.counter)
  {
    var decision := Evaluate(cfg.risk, next.risk, DecisionInput(cfg, next, fair, now)).decision;
    SyncPlacesNew(cfg.projector, next.projector, Quotes(cfg, next, next.lastShock, fair),
                  MarketOf(next.book, decision, now));
  }

  /** What a completed step does to the fill model and the counter of ids. */
  ghost predicate StepMoves(cfg: Config, s: PipelineState, step: StepResult, w: Walked, events: seq<OrderEvent>) {
    && step.touches == w.touches && FillsIn(step.emitted) == w.fills
    && step.state.fills.orders == FollowEvents(cfg.fill, w.orders, events, step.state.book)
    && s.projector.counter <= step.state.projector.counter
    && PlacesNew(events, s.projector.counter, step.state.projector.counter)
  }

  lemma StepWithFairMoves(cfg: Config, s: PipelineState, e: Event, fair: FairState)
    requires !StepWithFair(cfg, s, e, fair).raised
    ensures StepMoves(cfg, s, StepWithFair(cfg, s, e, fair), WalkOf(cfg.fill, s.fills, e, fair),
                      SyncOf(cfg, AfterFills(cfg, s, e, fair), fair, e.ts).events)
  {
    var next := AfterFills(cfg, s, e, fair);
    StepLogs(cfg, s, e, fair);
    SyncOfPlacesNew(cfg, next, fair, e.ts);
    StepStateParts(cfg, s, e, fair);
  }

  lemma StepStateParts(cfg: Config, s: PipelineState, e: Event, fair: FairState)
    requires !StepWithFair(cfg, s, e, fair).raised
    ensures var step, w, next := StepWithFair(cfg, s, e, fair), WalkOf(cfg.fill, s.fills, e, fair),
            AfterFills(cfg, s, e, fair);
            var synced := SyncOf(cfg, next, fair, e.ts);
            && step.touches == w.touches && next.projector.counter == s.projector.counter
            && step.state.fills.orders == FollowEvents(cfg.fill, w.orders, synced.events, step.state.book)
            && step.state.projector.counter == synced.counter
  {
    hide Evaluate, Sync, Quotes, FollowEvents, OrderOutput, LiveOutput, SettledFills, ShockStep, WalkOf, UpdateOf,
      HeadOutput;
  }

  /** The walk and the sync of a completed step. */
  ghost function WalkAt(cfg: Config, s: PipelineState, e: Event): Walked {
    var seen := Observed(cfg, s, e);
    var u := FromMarketEvent(cfg.fair, seen.sources, seen.book, e);
    WalkOf(cfg.fill, seen.fills, e, if u.state.Some? then u.state.value else NO_FAIR)
  }

  ghost function SyncedAt(cfg: Config, s: PipelineState, e: Event): seq<OrderEvent> {
    var seen := Observed(cfg, s, e);
    var u := FromMarketEvent(cfg.fair, seen.sources, seen.book, e);
    var fair := if u.state.Some? then u.state.value else NO_FAIR;
    SyncOf(cfg, AfterFills(cfg, seen.(sources := u.sources), e, fair), fair, e.ts).events
  }

  lemma StepMovesOn(cfg: Config, s: PipelineState, e: Event)
    requires !Step(cfg, s, e).raised
    ensures StepMoves(cfg, s, Step(cfg, s, e), WalkAt(cfg, s, e), SyncedAt(cfg, s, e))
  {
    var seen := Observed(cfg, s, e);
    var u := FromMarketEvent(cfg.fair, seen.sources, seen.book, e);
    StepWithFairMoves(cfg, seen.(sources := u.sources), e, u.state.value);
    ObservedKeepsProjector(cfg, s, e);
    hide FromMarketEvent, StepWithFair, Observed, StepMoves, WalkOf, SyncOf, AfterFills;
    CounterOnly(cfg, s, seen.(sources := u.sources), Step(cfg, s, e), WalkAt(cfg, s, e), SyncedAt(cfg, s, e));
  }

  lemma CounterOnly(cfg: Config, s: PipelineState, t: PipelineState, step: StepResult, w: Walked,
                    events: seq<OrderEvent>)
    requires StepMoves(cfg, t, step, w, events) && s.projector == t.projector
    ensures StepMoves(cfg, s, step, w, events)
  {
  }

  // ----- a walk, for one order -----

  ghost predicate WalkFor(orders: OrderTable, w: Walked, id: OrderId) {
    if id in orders then Absorbs(orders, w, id)
    else id !in w.orders && FilledBy(w.fills, id) == 0.0 && ReducedBy(w.touches, id) == 0.0
  }

  lemma WalkForAny(cfg: FillConfig, st: FillState, e: Event, fair: FairState, id: OrderId)
    ensures WalkFor(st.orders, WalkOf(cfg, st, e, fair), id)
  {
    var ranked, ctx := Candidates(cfg, st, e), ContextOf(st, e, fair);
    CandidatesCurrent(cfg, st, e);
    hide Absorbs, Candidates, ContextOf;
    if id in st.orders {
      WalkAbsorbs(st.orders, ranked, Volume(e), ctx, st.counter, id);
    } else {
      WalkOthers(st.orders, ranked, Volume(e), ctx, st.counter, id);
    }
  }

  lemma WalkAtFor(cfg: Config, s: PipelineState, e: Event, id: OrderId)
    ensures WalkFor(s.fills.orders, WalkAt(cfg, s, e), id)
  {
    ObservedKeepsOrders(cfg, s, e);
    hide FromMarketEvent, Observed, WalkOf, WalkFor;
    var seen := Observed(cfg, s, e);
    var u := FromMarketEvent(cfg.fair, seen.sources, seen.book, e);
    WalkForAny(cfg.fill, seen.fills, e, if u.state.Some? then u.state.value else NO_FAIR, id);
  }

  lemma ObservedKeepsOrders(cfg: Config, s: PipelineState, e: Event)
    ensures Observed(cfg, s, e).fills.orders == s.fills.orders
  {
    hide ApplyEvent, RecordTrade;
  }

  // ----- queues over runs -----

  /** All flow that a run offered to orders, in order. */
  ghost function RunTouches(cfg: Config, events: seq<Event>): seq<Touch> {
    if events == [] then [] else
    var init := events[..|events| - 1];
    RunTouches(cfg, init) + Step(cfg, Run(cfg, init).state, events[|events| - 1]).touches
  }

  /** What a run has done with flow for one order. */
  ghost predicate Unseen(s: PipelineState, fills: seq<Fill>, touches: seq<Touch>, id: OrderId) {
    id !in s.fills.orders && FilledBy(fills, id) == 0.0 && ReducedBy(touches, id) == 0.0
  }

  lemma StepUnseen(cfg: Config, s: PipelineState, e: Event, fills: seq<Fill>, touches: seq<Touch>, id: OrderId)
    requires !Step(cfg, s, e).raised && Unseen(s, fills, touches, id)
    ensures var step := Step(cfg, s, e);
            && FilledBy(fills + FillsIn(step.emitted), id) == 0.0 && ReducedBy(touches + step.touches, id) == 0.0
            && (step.state.projector.counter < id ==>
                Unseen(step.state, fills + FillsIn(step.emitted), touches + step.touches, id))
  {
    StepMovesOn(cfg, s, e);
    WalkAtFor(cfg, s, e, id);
    var step, w, events := Step(cfg, s, e), WalkAt(cfg, s, e), SyncedAt(cfg, s, e);
    hide Step, WalkAt, SyncedAt;
    FilledByConcat(fills, w.fills, id);
    ReducedByConcat(touches, w.touches, id);
    if step.state.projector.counter < id {
      FollowLeaves(cfg.fill, w.orders, events, step.state.book, id);
    }
  }

  /** Ids above the counter have not been seen yet. */
  lemma {:induction false} RunUnseen(cfg: Config, events: seq<Event>, id: OrderId)
    requires !Run(cfg, events).raised && Run(cfg, events).state.projector.counter < id
    ensures Unseen(Run(cfg, events).state, FillsIn(Run(cfg, events).trace), RunTouches(cfg, events), id)
  {
    if events != [] {
      var init, e := events[..|events| - 1], events[|events| - 1];
      var before := Run(cfg, init);
      var step := Step(cfg, before.state, e);
      StepMovesOn(cfg, before.state, e);
      RunUnseen(cfg, init, id);
      FillsConcat(before.trace, step.emitted);
      hide Step, Unseen;
      StepUnseen(cfg, before.state, e, FillsIn(before.trace), RunTouches(cfg, init), id);
    }
  }

  function QueueOf(cfg: FillConfig, o: ActiveOrder, b: BookState): real {
    InitialQueue(cfg, QueueAt(b, o.side, o.price), o.size)
  }

  /** Nothing is filled before the whole initial queue is absorbed, and the queue has lost exactly what it absorbed. */
  ghost predicate QueueFirst(orders: OrderTable, id: OrderId, queue: real, filled: real, absorbed: real) {
    && 0.0 <= filled
    && (filled > 0.0 ==> absorbed >= queue)
    && (id in orders ==> orders[id].queueAhead == queue - absorbed)
  }

  lemma WalkKeepsQueue(orders: OrderTable, w: Walked, id: OrderId, queue: real, filled: real, absorbed: real)
    requires QueueFirst(orders, id, queue, filled, absorbed) && WalkFor(orders, w, id)
    ensures QueueFirst(w.orders, id, queue, filled + FilledBy(w.fills, id), absorbed + ReducedBy(w.touches, id))
  {
  }

  ghost predicate RunQueueFirst(cfg: Config, s: PipelineState, fills: seq<Fill>, touches: seq<Touch>, id: OrderId,
                                queue: real) {
    id <= s.projector.counter && QueueFirst(s.fills.orders, id, queue, FilledBy(fills, id), ReducedBy(touches, id))
  }

  lemma PlacedElsewhere(events: seq<OrderEvent>, low: nat, high: nat, id: OrderId)
    requires PlacesNew(events, low, high) && (id <= low || high < id)
    ensures NotPlaced(events, id)
  {
  }

  lemma StepKeepsQueue(cfg: Config, s: PipelineState, e: Event, fills: seq<Fill>, touches: seq<Touch>, id: OrderId,
                       queue: real)
    requires !Step(cfg, s, e).raised && RunQueueFirst(cfg, s, fills, touches, id, queue)
    ensures var step := Step(cfg, s, e);
            RunQueueFirst(cfg, step.state, fills + FillsIn(step.emitted), touches + step.touches, id, queue)
  {
    hide Step, WalkAt, SyncedAt, WalkFor, PlacesNew, FollowEvents, FilledBy, ReducedBy, FillsIn;
    StepMovesOn(cfg, s, e);
    WalkAtFor(cfg, s, e, id);
    var step, w, events := Step(cfg, s, e), WalkAt(cfg, s, e), SyncedAt(cfg, s, e);
    PlacedElsewhere(events, s.projector.counter, step.state.projector.counter, id);
    FilledByConcat(fills, w.fills, id);
    ReducedByConcat(touches, w.touches, id);
    WalkKeepsQueue(s.fills.orders, w, id, queue, FilledBy(fills, id), ReducedBy(touches, id));
    FollowLeaves(cfg.fill, w.orders, events, step.state.book, id);
  }

  ghost function StepAt(cfg: Config, events: seq<Event>, n: nat): StepResult
    requires n < |events|
  {
    Step(cfg, Run(cfg, events[..n]).state, events[n])
  }

  /** The events of the sync are the order events of the output. */
  lemma PlacedInSync(cfg: Config, s: PipelineState, e: Event, k: int, id: OrderId) returns (j: int)
    requires !Step(cfg, s, e).raised && PlacesAt(Step(cfg, s, e).emitted, k, id)
    ensures var events := SyncedAt(cfg, s, e);
            0 <= j < |events| && events[j].Placed? && events[j].order == Step(cfg, s, e).emitted[k].change.order
  {
    hide FromMarketEvent, StepWithFair, Observed, SyncOf, AfterFills;
    var seen := Observed(cfg, s, e);
    var u := FromMarketEvent(cfg.fair, seen.sources, seen.book, e);
    j := PlacedWithFair(cfg, seen.(sources := u.sources), e, u.state.value, k, id);
  }

  lemma PlacedWithFair(cfg: Config, s: PipelineState, e: Event, fair: FairState, k: int, id: OrderId) returns (j: int)
    requires !StepWithFair(cfg, s, e, fair).raised && PlacesAt(StepWithFair(cfg, s, e, fair).emitted, k, id)
    ensures var events := SyncOf(cfg, AfterFills(cfg, s, e, fair), fair, e.ts).events;
            && 0 <= j < |events| && events[j].Placed?
            && events[j].order == StepWithFair(cfg, s, e, fair).emitted[k].change.order
  {
    var next, head := AfterFills(cfg, s, e, fair), HeadOutput(cfg, s, e, fair);
    hide StepWithFair, HeadOutput, AfterFills, SyncOf, Evaluate, LiveOutput;
    HeadPlacesNothing(cfg, s, e, fair);
    EmittedParts(cfg, s, e, fair);
    var events := SyncOf(cfg, next, fair, e.ts).events;
    var view := ViewOf(cfg, next, Evaluate(cfg.risk, next.risk, DecisionInput(cfg, next, fair, e.ts)).decision);
    LiveIsSilent(view, events);
    var update := UpdateOf(cfg, next, e.ts, view.risk, next.lastShock, fair);
    j := OrderAmong(head, update, events, LiveOutput(view, events), k);
  }

  lemma OrderAmong(head: seq<Emitted>, update: Emitted, events: seq<OrderEvent>, live: seq<Emitted>,
                   k: int) returns (j: int)
    requires (forall i :: 0 <= i < |head| ==> !head[i].Order?) && !update.Order?
    requires forall i :: 0 <= i < |live| ==> !live[i].Order?
    requires var out := head + ([update] + OrderOutput(events) + live); 0 <= k < |out| && out[k].Order?
    ensures var out := head + ([update] + OrderOutput(events) + live);
            0 <= j < |events| && events[j] == out[k].change
  {
    j := k - |head| - 1;
  }

  /** The output of a completed step: head, risk update, order events, live events. */
  lemma EmittedParts(cfg: Config, s: PipelineState, e: Event, fair: FairState)
    requires !StepWithFair(cfg, s, e, fair).raised
    ensures var next, out := AfterFills(cfg, s, e, fair), StepWithFair(cfg, s, e, fair).emitted;
            var decision := Evaluate(cfg.risk, next.risk, DecisionInput(cfg, next, fair, e.ts)).decision;
            var events := SyncOf(cfg, next, fair, e.ts).events;
            out == HeadOutput(cfg, s, e, fair) + ([UpdateOf(cfg, next, e.ts, decision, next.lastShock, fair)]
                   + OrderOutput(events) + LiveOutput(ViewOf(cfg, next, decision), events))
  {
    hide Evaluate, Sync, Quotes, FollowEvents, OrderOutput, LiveOutput, SettledFills, ShockStep, WalkOf, UpdateOf,
      HeadOutput;
  }

  /** The head of a step's output holds a mark price, a forced flow and fills, and nothing else. */
  lemma HeadKinds(cfg: Config, s: PipelineState, e: Event, fair: FairState)
    requires !StepWithFair(cfg, s, e, fair).raised
    ensures forall x :: x in HeadOutput(cfg, s, e, fair) ==> x.MarkPrice? || x.ForcedFlow? || x.VirtualFill?
  {
    hide StepWithFair, SettledFills, ShockStep, FillOutput;
    SettledNotRaised(cfg, s, e, fair);
    SettledKinds(cfg, s, e, fair);
    KindsOfThree(MarkOutput(e, fair), ShockOutput(ShockStep(cfg.shock, cfg.exp, s.shock, e, s.book, fair).shock),
                 SettledFills(cfg, s, e, fair).emitted);
  }

  lemma KindsOfThree(marks: seq<Emitted>, shocks: seq<Emitted>, fills: seq<Emitted>)
    requires forall x :: x in marks ==> x.MarkPrice?
    requires forall x :: x in shocks ==> x.ForcedFlow?
    requires forall x :: x in fills ==> x.VirtualFill?
    ensures forall x :: x in marks + shocks + fills ==> x.MarkPrice? || x.ForcedFlow? || x.VirtualFill?
  {
  }

  lemma SettledKinds(cfg: Config, s: PipelineState, e: Event, fair: FairState)
    requires !SettledFills(cfg, s, e, fair).raised
    ensures forall x :: x in SettledFills(cfg, s, e, fair).emitted ==> x.VirtualFill?
  {
    hide WalkOf, SettleFills;
    SettleEmitsFills(cfg, s.inventory, s.risk, s.projector.active, WalkOf(cfg.fill, s.fills, e, fair).fills);
  }

  lemma KindsByIndex(out: seq<Emitted>)
    requires forall x :: x in out ==> x.MarkPrice? || x.ForcedFlow? || x.VirtualFill?
    ensures forall i :: 0 <= i < |out| ==> out[i].MarkPrice? || out[i].ForcedFlow? || out[i].VirtualFill?
  {
    assert forall i :: 0 <= i < |out| ==> out[i] in out;
  }

  lemma HeadPlacesNothing(cfg: Config, s: PipelineState, e: Event, fair: FairState)
    requires !StepWithFair(cfg, s, e, fair).raised
    ensures forall i :: 0 <= i < |HeadOutput(cfg, s, e, fair)| ==> !HeadOutput(cfg, s, e, fair)[i].Order?
  {
    hide HeadOutput, StepWithFair;
    HeadKinds(cfg, s, e, fair);
    KindsByIndex(HeadOutput(cfg, s, e, fair));
  }

  /** At its placement an order starts with its initial queue and no flow. */
  lemma PlacementStartsQueue(cfg: Config, events: seq<Event>, n: nat, k: int, id: OrderId)
    requires n < |events| && !Run(cfg, events[..n + 1]).raised && PlacesAt(StepAt(cfg, events, n).emitted, k, id)
    ensures var r, o := Run(cfg, events[..n + 1]), StepAt(cfg, events, n).emitted[k].change.order;
            RunQueueFirst(cfg, r.state, FillsIn(r.trace), RunTouches(cfg, events[..n + 1]), id,
                          QueueOf(cfg.fill, o, r.state.book))
  {
    PlacementRun(cfg, events, n);
    hide Run, Step, RunTouches, FillsIn, Unseen, WalkAt, SyncedAt;
    var before := Run(cfg, events[..n]);
    var s, e, step := before.state, events[n], StepAt(cfg, events, n);
    FillsConcat(before.trace, step.emitted);
    var j := PlacedInSync(cfg, s, e, k, id);
    StepMovesOn(cfg, s, e);
    RunUnseen(cfg, events[..n], id);
    StepUnseen(cfg, s, e, FillsIn(before.trace), RunTouches(cfg, events[..n]), id);
    PlacedTracked(cfg, s, step, WalkAt(cfg, s, e), SyncedAt(cfg, s, e), j, FillsIn(before.trace),
                  RunTouches(cfg, events[..n])) by {
      WalkAtFor(cfg, s, e, id);
    }
  }

  lemma PlacementRun(cfg: Config, events: seq<Event>, n: nat)
    requires n < |events| && !Run(cfg, events[..n + 1]).raised
    ensures var before, step := Run(cfg, events[..n]), StepAt(cfg, events, n);
            && !before.raised && !step.raised
            && Run(cfg, events[..n + 1]) == RunResult(step.state, before.trace + step.emitted, false)
            && RunTouches(cfg, events[..n + 1]) == RunTouches(cfg, events[..n]) + step.touches
  {
    assert events[..n + 1][..n] == events[..n];
    RunSnoc(cfg, events[..n + 1]);
    hide Run, Step;
  }

  lemma PlacedTracked(cfg: Config, s: PipelineState, step: StepResult, w: Walked, events: seq<OrderEvent>, j: int,
                      fills: seq<Fill>, touches: seq<Touch>)
    requires StepMoves(cfg, s, step, w, events)
    requires 0 <= j < |events| && events[j].Placed?
    requires WalkFor(s.fills.orders, w, events[j].order.id) && Unseen(s, fills, touches, events[j].order.id)
    ensures var o, b := events[j].order, step.state.book;
            && o.id <= step.state.projector.counter
            && (o.id in step.state.fills.orders ==> step.state.fills.orders[o.id].queueAhead == QueueOf(cfg.fill, o, b))
  {
    var o, b := events[j].order, step.state.book;
    forall i | 0 <= i < |events| && events[i].Placed? && events[i].order.id == o.id ensures events[i].order == o {
      assert i == j;
    }
    FollowPlaces(cfg.fill, w.orders, events, b, o);
  }

  ghost predicate KeptAt(cfg: Config, events: seq<Event>, id: OrderId, queue: real) {
    var r := Run(cfg, events);
    RunQueueFirst(cfg, r.state, FillsIn(r.trace), RunTouches(cfg, events), id, queue)
  }

  lemma {:induction false} QueueKept(cfg: Config, events: seq<Event>, n: nat, id: OrderId, queue: real)
    requires n <= |events| && !Run(cfg, events).raised && KeptAt(cfg, events[..n], id, queue)
    ensures KeptAt(cfg, events, id, queue)
    decreases |events|
  {
    hide Run, KeptAt;
    if n == |events| {
      assert events[..n] == events;
    } else {
      var init := events[..|events| - 1];
      assert init[..n] == events[..n];
      InitCompleted(cfg, events);
      QueueKept(cfg, init, n, id, queue);
      QueueKeptOnce(cfg, events, id, queue);
    }
  }

  lemma QueueKeptOnce(cfg: Config, events: seq<Event>, id: OrderId, queue: real)
    requires events != [] && !Run(cfg, events).raised && !Run(cfg, events[..|events| - 1]).raised
    requires KeptAt(cfg, events[..|events| - 1], id, queue)
    ensures KeptAt(cfg, events, id, queue)
  {
    RunSnoc(cfg, events);
    var init, e := events[..|events| - 1], events[|events| - 1];
    hide Run, Step, FillsIn, RunQueueFirst;
    var before, step := Run(cfg, init), Step(cfg, Run(cfg, init).state, e);
    FillsConcat(before.trace, step.emitted);
    StepKeepsQueue(cfg, before.state, e, FillsIn(before.trace), RunTouches(cfg, init), id, queue);
  }

  lemma {:induction false} FilledByTrace(trace: seq<Emitted>, id: OrderId)
    ensures FilledBy(FillsIn(trace), id) == TraceFilled(trace, id)
    decreases |trace|
  {
    if trace != [] {
      FilledByTrace(trace[1..], id);
      FilledByConcat(FillOf(trace[0]), FillsIn(trace[1..]), id);
    }
  }

  /** An order with a fill had its queue absorb the multiplied depth and the multiplied own size first; the queue of
      a tracked order is the initial one less exactly what it absorbed. */
  ghost predicate QueueWentFirst(cfg: FillConfig, orders: OrderTable, o: ActiveOrder, b: BookState, filled: real,
                                 absorbed: real) {
    && (filled > 0.0 ==>
          && absorbed >= QueueAt(b, o.side, o.price) * cfg.queueAheadMultiplier
          && absorbed >= o.size * cfg.queueAheadMultiplier)
    && (o.id in orders ==> orders[o.id].queueAhead == QueueOf(cfg, o, b) - absorbed)
  }

  lemma QueueBounds(cfg: FillConfig, orders: OrderTable, o: ActiveOrder, b: BookState, filled: real, absorbed: real)
    requires QueueFirst(orders, o.id, QueueOf(cfg, o, b), filled, absorbed)
    ensures QueueWentFirst(cfg, orders, o, b, filled, absorbed)
  {
    hide QueueAt;
  }

  /** Over any completed run, for an order placed by event `n`: if it has any fill, trades first gave its queue at
      least the multiplier times the depth visible at its price in the book of that moment, and at least the
      multiplier times its own size; while it is tracked, its queue is the initial one less exactly what trades gave
      it. */
  lemma QueueConsumedFirst(cfg: Config, events: seq<Event>, n: nat, k: int, id: OrderId)
    requires n < |events| && !Run(cfg, events).raised && PlacesAt(StepAt(cfg, events, n).emitted, k, id)
    ensures var r, o := Run(cfg, events), StepAt(cfg, events, n).emitted[k].change.order;
            QueueWentFirst(cfg.fill, r.state.fills.orders, o, Replay(events[..n + 1]), TraceFilled(r.trace, id),
                           ReducedBy(RunTouches(cfg, events), id))
  {
    PlacedQueueKept(cfg, events, n, k, id);
    FilledByTrace(Run(cfg, events).trace, id);
    hide Run, RunTouches, StepAt, QueueOf, QueueFirst, QueueWentFirst, Replay;
    var r := Run(cfg, events);
    QueueBounds(cfg.fill, r.state.fills.orders, StepAt(cfg, events, n).emitted[k].change.order, Replay(events[..n + 1]),
                FilledBy(FillsIn(r.trace), id), ReducedBy(RunTouches(cfg, events), id));
  }

  lemma PlacedQueueKept(cfg: Config, events: seq<Event>, n: nat, k: int, id: OrderId)
    requires n < |events| && !Run(cfg, events).raised && PlacesAt(StepAt(cfg, events, n).emitted, k, id)
    ensures var r, o, b := Run(cfg, events), StepAt(cfg, events, n).emitted[k].change.order, Replay(events[..n + 1]);
            QueueFirst(r.state.fills.orders, id, QueueOf(cfg.fill, o, b), FilledBy(FillsIn(r.trace), id),
                       ReducedBy(RunTouches(cfg, events), id))
  {
    var o, b := StepAt(cfg, events, n).emitted[k].change.order, Replay(events[..n + 1]);
    hide Run, RunTouches, StepAt, QueueOf, QueueFirst, Replay;
    PrefixCompleted(cfg, events, n + 1);
    PlacementStartsQueue(cfg, events, n, k, id);
    RunBook(cfg, events[..n + 1]);
    QueueKept(cfg, events, n + 1, id, QueueOf(cfg.fill, o, b));
  }

  lemma {:induction false} PrefixCompleted(cfg: Config, events: seq<Event>, n: nat)
    requires n <= |events| && !Run(cfg, events).raised
    ensures !Run(cfg, events[..n]).raised
    decreases |events|
  {
    hide Run;
    if n == |events| {
      assert events[..n] == events;
    } else {
      var init := events[..|events| - 1];
      assert init[..n] == events[..n];
      InitCompleted(cfg, events);
      PrefixCompleted(cfg, init, n);
    }
  }

  lemma InitCompleted(cfg: Config, events: seq<Event>)
    requires events != [] && !Run(cfg, events).raised
    ensures !Run(cfg, events[..|events| - 1]).raised
  {
    hide Step;
  }

  // ----- priority over runs -----

  /** In every run, the trade of a completed step obeys price-time priority: if it gives any flow to `b`, queue or
      fill, every eligible order `a` ranked before `b` is filled with all it has left. */
  lemma RunPriority(cfg: Config, events: seq<Event>, e: Event, taker: Side, a: Tracked, b: Tracked)
    requires !Run(cfg, events).raised && !Step(cfg, Run(cfg, events).state, e).raised
    requires e.payload.Trade? && e.payload.side == Some(taker)
    requires var all := EligibleSet(cfg.fill, Run(cfg, events).state.fills.orders, taker, e.payload.price,
                                    e.ts); a in all && b in all
    requires Before(taker, a, b)
    ensures var step := Step(cfg, Run(cfg, events).state, e);
            FilledBy(FillsIn(step.emitted), b.id) != 0.0 || ReducedBy(step.touches, b.id) != 0.0 ==>
            FilledBy(FillsIn(step.emitted), a.id) == Max(a.remaining, 0.0)
  {
    var s := Run(cfg, events).state;
    StepMovesOn(cfg, s, e);
    ObservedKeepsOrders(cfg, s, e);
    hide FromMarketEvent, Observed, WalkOf, Step, Run, Before, EligibleSet;
    var seen := Observed(cfg, s, e);
    var u := FromMarketEvent(cfg.fair, seen.sources, seen.book, e);
    PriceTimePriority(cfg.fill, seen.fills, e, if u.state.Some? then u.state.value else NO_FAIR, taker, a, b);
  }
}
