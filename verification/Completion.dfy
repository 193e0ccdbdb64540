/** When steps and runs complete: exactly what makes the fair price fail or a fill overdraw the inventory. */
module Completion {
  import opened Types
  import opened OrderBooks
  import opened Statistics
  import opened FairPrice
  import opened FillModels
  import opened Projectors
  import opened Inventories
  import opened Risks
  import opened Pipelines
  import opened Runs
  import opened RunSafety
  import opened Metrics

  // ----- the fair price -----

  /** A usable book whose best prices cancel out: its spread cannot be taken of its mid. */
  predicate MidIsZero(cfg: FairConfig, b: BookState, now: real) {
    && !b.stale && BestBid(b).Some? && BestAsk(b).Some?
    && BestBid(b).value < BestAsk(b).value && BestBid(b).value + BestAsk(b).value == 0.0
    && (b.lastTs.None? || now - b.lastTs.value <= cfg.staleAfterMs)
  }

  /** There are fresh sources, none of them near their median, and none is required. */
  ghost predicate NoneNear(cfg: FairConfig, sources: seq<Source>, now: real) {
    && cfg.minSourceCount <= 0 && Fresh(cfg, sources, now) != []
    && forall x :: x in Fresh(cfg, sources, now) ==>
         DeviationBps(x.fair, Reference(cfg, sources, now)) > cfg.maxSourceDeviationBps
  }

  lemma DivisionIff(cfg: FairConfig, b: BookState, now: real)
    ensures SourceFromBook(cfg, b, now).DivisionByZero? <==> MidIsZero(cfg, b, now)
  {
    hide BestBid, BestAsk;
  }

  lemma AverageFailsIff(cfg: FairConfig, sources: seq<Source>, now: real)
    ensures FromSources(cfg, sources, now).None? <==> NoneNear(cfg, sources, now)
  {
    hide Median, Mean, MedianOptional, MaxDeviation, DeviationBps, Fresh, Pick, Names;
    if Fresh(cfg, sources, now) != [] {
      var near := Near(cfg, Fresh(cfg, sources, now), Reference(cfg, sources, now));
      assert near != [] ==> near[0] in near;
    }
  }

  lemma FairFailsIff(cfg: FairConfig, sources: seq<Source>, b: BookState, e: Event)
    ensures var u := FromMarketEvent(cfg, sources, b, e);
            u.state.None? <==> MidIsZero(cfg, b, e.ts) || NoneNear(cfg, u.sources, e.ts)
  {
    DivisionIff(cfg, b, e.ts);
    AverageFailsIff(cfg, FromMarketEvent(cfg, sources, b, e).sources, e.ts);
    hide MidIsZero, NoneNear, SourceFromBook, FromSources, Reported, Upsert, Pop;
  }

  // ----- the fills -----

  /** Some first fills together overdraw the balances. */
  ghost predicate Overdraws(cfg: InventoryConfig, inv: Inventory, fills: seq<Fill>) {
    exists k :: 0 < k <= |fills| && Overdrawn(cfg, Booked(inv, fills[..k]))
  }

  lemma BookedFirst(inv: Inventory, fills: seq<Fill>, k: nat)
    requires 0 < k <= |fills|
    ensures var f := fills[0];
            Booked(inv, fills[..k]) == Booked(ApplyFill(inv, f.side, f.price, f.size, f.fee), fills[1..][..k - 1])
  {
    hide Booked, ApplyFill;
    assert fills[..k] == [fills[0]] + fills[1..][..k - 1];
    BookedConcat(inv, [fills[0]], fills[1..][..k - 1]);
    BookedOne(inv, fills[0]);
  }

  lemma BookedOne(inv: Inventory, f: Fill)
    ensures Booked(inv, [f]) == ApplyFill(inv, f.side, f.price, f.size, f.fee)
  {
    NetOne(f);
    FillNets(inv, f);
  }

  lemma OverdrawsFirst(cfg: InventoryConfig, inv: Inventory, fills: seq<Fill>)
    requires fills != []
    ensures var f := fills[0];
            var paid := ApplyFill(inv, f.side, f.price, f.size, f.fee);
            Overdraws(cfg, inv, fills) <==> Overdrawn(cfg, paid) || Overdraws(cfg, paid, fills[1..])
  {
    hide Booked, ApplyFill, Overdrawn;
    var f, rest := fills[0], fills[1..];
    var paid := ApplyFill(inv, f.side, f.price, f.size, f.fee);
    BookedOne(inv, f);
    assert fills[..1] == [f];
    forall k | 0 < k <= |rest| ensures Booked(inv, fills[..k + 1]) == Booked(paid, rest[..k]) {
      BookedFirst(inv, fills, k + 1);
    }
    if Overdraws(cfg, inv, fills) {
      var k :| 0 < k <= |fills| && Overdrawn(cfg, Booked(inv, fills[..k]));
      assert k > 1 ==> Booked(inv, fills[..k - 1 + 1]) == Booked(paid, rest[..k - 1]);
    }
    if Overdraws(cfg, paid, rest) {
      var k :| 0 < k <= |rest| && Overdrawn(cfg, Booked(paid, rest[..k]));
      assert Overdrawn(cfg, Booked(inv, fills[..k + 1]));
    }
  }

  lemma {:induction false} SettlingRaisesIff(cfg: Config, inv: Inventory, r: RiskState, active: seq<ActiveOrder>,
                                             fills: seq<Fill>)
    ensures SettleFills(cfg, inv, r, active, fills).raised <==> Overdraws(cfg.inventory, inv, fills)
    decreases |fills|
  {
    hide ApplyFill, RecordFill, RemoveFilled, Booked, Overdrawn;
    if fills != [] {
      OverdrawsFirst(cfg.inventory, inv, fills);
      hide Overdraws;
      var f := fills[0];
      SettlingRaisesIff(cfg, ApplyFill(inv, f.side, f.price, f.size, f.fee),
                        RecordFill(cfg.risk, r, f.side, f.ts, f.price, f.size), RemoveFilled(active, f.orderId),
                        fills[1..]);
    }
  }

  // ----- steps -----

  lemma StepWithFairRaisesIff(cfg: Config, s: PipelineState, e: Event, fair: FairState)
    ensures StepWithFair(cfg, s, e, fair).raised <==>
            Overdraws(cfg.inventory, s.inventory, WalkOf(cfg.fill, s.fills, e, fair).fills)
  {
    var next := AfterFills(cfg, s, e, fair);
    SettlingRaisesIff(cfg, s.inventory, s.risk, s.projector.active, WalkOf(cfg.fill, s.fills, e, fair).fills);
    QuotingCompletes(cfg, next, e, fair, next.lastShock);
    hide AfterFills, QuoteStep, HeadOutput, WalkOf, SettleFills, Overdraws;
  }

  lemma ObservedKeepsInventory(cfg: Config, s: PipelineState, e: Event)
    ensures Observed(cfg, s, e).inventory == s.inventory
  {
  }

  /** A step raises exactly when the best prices of a usable book cancel out, when none of the fresh sources is near
      their median though none is required, or when some first fills of the event's trade overdraw the inventory. */
  lemma StepRaisesIff(cfg: Config, s: PipelineState, e: Event)
    ensures var seen := Observed(cfg, s, e);
            var u := FromMarketEvent(cfg.fair, seen.sources, seen.book, e);
            Step(cfg, s, e).raised <==>
              || MidIsZero(cfg.fair, seen.book, e.ts)
              || NoneNear(cfg.fair, u.sources, e.ts)
              || (u.state.Some? && Overdraws(cfg.inventory, s.inventory,
                                             WalkOf(cfg.fill, seen.fills, e, u.state.value).fills))
  {
    var seen := Observed(cfg, s, e);
    var u := FromMarketEvent(cfg.fair, seen.sources, seen.book, e);
    ObservedKeepsInventory(cfg, s, e);
    FairFailsIff(cfg.fair, seen.sources, seen.book, e);
    if u.state.Some? {
      StepWithFairRaisesIff(cfg, seen.(sources := u.sources), e, u.state.value);
    }
    hide Observed, FromMarketEvent, StepWithFair, MidIsZero, NoneNear, Overdraws, WalkOf;
  }

  // ----- runs -----

  lemma NothingOverdraws(cfg: InventoryConfig, inv: Inventory, fills: seq<Fill>)
    requires cfg.negativeBalancesAllowed
    ensures !Overdraws(cfg, inv, fills)
  {
    hide Booked;
  }

  /** The best prices cancel out when event `n` of the log is processed. */
  predicate MidIsZeroAt(cfg: FairConfig, log: seq<Event>, n: nat)
    requires n < |log|
  {
    MidIsZero(cfg, Replay(log[..n + 1]), log[n].ts)
  }

  lemma StepRaisesAtZeroMid(cfg: Config, s: PipelineState, e: Event)
    requires cfg.inventory.negativeBalancesAllowed && cfg.fair.minSourceCount >= 1
    ensures Step(cfg, s, e).raised <==> MidIsZero(cfg.fair, ApplyEvent(s.book, e), e.ts)
  {
    hide Step, Observed, FromMarketEvent, MidIsZero, Overdraws, WalkOf, ApplyEvent, Fresh, Reference;
    var seen := Observed(cfg, s, e);
    var u := FromMarketEvent(cfg.fair, seen.sources, seen.book, e);
    ObservedBook(cfg, s, e);
    StepRaisesIff(cfg, s, e);
    if u.state.Some? {
      NothingOverdraws(cfg.inventory, s.inventory, WalkOf(cfg.fill, seen.fills, e, u.state.value).fills);
    }
  }

  lemma LastStepRaisesIff(cfg: Config, events: seq<Event>)
    requires cfg.inventory.negativeBalancesAllowed && cfg.fair.minSourceCount >= 1
    requires events != [] && !Run(cfg, events[..|events| - 1]).raised
    ensures Run(cfg, events).raised <==> MidIsZeroAt(cfg.fair, events, |events| - 1)
  {
    hide Run, Step, MidIsZero, ApplyEvent;
    var n := |events| - 1;
    RunSnoc(cfg, events);
    RunBook(cfg, events[..n]);
    assert events[..n + 1] == events;
    StepRaisesAtZeroMid(cfg, Run(cfg, events[..n]).state, events[n]);
  }

  lemma ObservedBook(cfg: Config, s: PipelineState, e: Event)
    ensures Observed(cfg, s, e).book == ApplyEvent(s.book, e)
  {
    hide ApplySnapshot, ApplyDelta;
  }

  /** With negative balances allowed and at least one source required, the log alone decides: a run raises exactly
      when the best prices of its book, usable by then, cancel out at some event. */
  lemma {:induction false} RunRaisesIff(cfg: Config, events: seq<Event>)
    requires cfg.inventory.negativeBalancesAllowed && cfg.fair.minSourceCount >= 1
    ensures Run(cfg, events).raised <==> MidEverZero(cfg.fair, events)
  {
    if events != [] {
      hide Run, MidIsZeroAt;
      var m := |events| - 1;
      RunRaisesIff(cfg, events[..m]);
      RunSnoc(cfg, events);
      hide Step;
      OneMoreZeroMid(cfg.fair, events);
      if !Run(cfg, events[..m]).raised {
        LastStepRaisesIff(cfg, events);
      }
    }
  }

  ghost predicate MidEverZero(cfg: FairConfig, log: seq<Event>) {
    exists n :: 0 <= n < |log| && MidIsZeroAt(cfg, log, n)
  }

  lemma OneMoreZeroMid(cfg: FairConfig, log: seq<Event>)
    requires log != []
    ensures MidEverZero(cfg, log) <==> MidEverZero(cfg, log[..|log| - 1]) || MidIsZeroAt(cfg, log, |log| - 1)
  {
    hide MidIsZero, Replay;
    var m := |log| - 1;
    var init := log[..m];
    forall n | 0 <= n < m ensures MidIsZeroAt(cfg, log, n) <==> MidIsZeroAt(cfg, init, n) {
      assert init[..n + 1] == log[..n + 1];
    }
    if MidEverZero(cfg, init) {
      var n :| 0 <= n < |init| && MidIsZeroAt(cfg, init, n);
      assert MidIsZeroAt(cfg, log, n);
    }
  }

  function BidsOf(e: Event): seq<PriceLevel> {
    match e.payload
    case Snapshot(bids, _) => bids
    case Delta(bids, _) => bids
    case _ => []
  }

  ghost predicate NoNegativeBid(levels: seq<PriceLevel>) {
    forall i :: 0 <= i < |levels| ==> levels[i].price >= 0.0
  }

  ghost predicate KeysNotNegative(m: map<real, real>) {
    forall p :: p in m ==> p >= 0.0
  }

  lemma {:induction false} SnapshotKeys(levels: seq<PriceLevel>)
    requires NoNegativeBid(levels)
    ensures KeysNotNegative(SnapshotLevels(levels))
  {
    if levels != [] {
      SnapshotKeys(levels[..|levels| - 1]);
    }
  }

  lemma {:induction false} DeltaKeys(m: map<real, real>, levels: seq<PriceLevel>)
    requires KeysNotNegative(m) && NoNegativeBid(levels)
    ensures KeysNotNegative(SetLevels(m, levels))
  {
    if levels != [] {
      DeltaKeys(m, levels[..|levels| - 1]);
    }
  }

  lemma {:induction false} ReplayedBids(log: seq<Event>)
    requires forall i :: 0 <= i < |log| ==> NoNegativeBid(BidsOf(log[i]))
    ensures KeysNotNegative(Replay(log).bids)
  {
    if log != [] {
      var init, e := log[..|log| - 1], log[|log| - 1];
      ReplayedBids(init);
      SnapshotKeys(BidsOf(e));
      DeltaKeys(Replay(init).bids, BidsOf(e));
      hide KeysNotNegative, SnapshotLevels, SetLevels;
    }
  }

  lemma MidNotZero(cfg: FairConfig, b: BookState, now: real)
    requires KeysNotNegative(b.bids)
    ensures !MidIsZero(cfg, b, now)
  {
    if BestBid(b).Some? {
      assert BestBid(b).value in b.bids;
    }
  }

  /** With negative balances allowed and at least one source required, every log without a negative bid price runs
      to its end. */
  lemma RunCompletes(cfg: Config, events: seq<Event>)
    requires cfg.inventory.negativeBalancesAllowed && cfg.fair.minSourceCount >= 1
    requires forall i :: 0 <= i < |events| ==> NoNegativeBid(BidsOf(events[i]))
    ensures !Run(cfg, events).raised
  {
    RunRaisesIff(cfg, events);
    forall n | 0 <= n < |events| ensures !MidIsZeroAt(cfg.fair, events, n) {
      ReplayedBids(events[..n + 1]);
      MidNotZero(cfg.fair, Replay(events[..n + 1]), events[n].ts);
    }
  }
}
