/** The profit-and-loss ledger recomputed from the output of a run, and its agreement with the inventory. */
module Metrics {
  import opened Types
  import opened FairPrice
  import opened FillModels
  import opened Inventories
  import opened Projectors
  import opened Risks
  import opened Pipelines
  import opened TraceLogs
  import opened Runs
  import opened HistoryRuns
  import opened Replays

  // ----- the fills of an output -----

  function FillIn(o: OutEvent): seq<Fill> {
    match o
    case Out(VirtualFill(f)) => [f]
    case In(Event(_, _, _, _, _, Recorded(VirtualFill(f)))) => [f]
    case _ => []
  }

  function FillsOfOutput(out: seq<OutEvent>): seq<Fill> {
    if out == [] then [] else FillsOfOutput(out[..|out| - 1]) + FillIn(out[|out| - 1])
  }

  function SignedSize(f: Fill): real {
    if f.side.Buy? then f.size else -f.size
  }

  /** What a fill does to the cash balance. */
  function CashFlow(f: Fill): real {
    if f.side.Buy? then -(f.price * f.size + f.fee) else f.price * f.size - f.fee
  }

  function NetBase(fills: seq<Fill>): real {
    if fills == [] then 0.0 else NetBase(fills[..|fills| - 1]) + SignedSize(fills[|fills| - 1])
  }

  function NetCash(fills: seq<Fill>): real {
    if fills == [] then 0.0 else NetCash(fills[..|fills| - 1]) + CashFlow(fills[|fills| - 1])
  }

  function Fees(fills: seq<Fill>): real {
    if fills == [] then 0.0 else Fees(fills[..|fills| - 1]) + fills[|fills| - 1].fee
  }

  /** A fill's gain at the price `mark`: signed size times price improvement, less the fee. */
  function Edge(f: Fill, mark: real): real {
    SignedSize(f) * (mark - f.price) - f.fee
  }

  function TotalEdge(fills: seq<Fill>, mark: real): real {
    if fills == [] then 0.0 else TotalEdge(fills[..|fills| - 1], mark) + Edge(fills[|fills| - 1], mark)
  }

  // ----- the summary -----

  /** A missing or zero value falls through to the next choice. */
  function OrElse(value: Option<real>, otherwise: real): real {
    if value.Some? && value.value != 0.0 then value.value else otherwise
  }

  function FirstFair(out: seq<OutEvent>): Option<real> {
    var points := FairPoints(out);
    if points == [] then None else Some(points[0].fair)
  }

  function StartFair(out: seq<OutEvent>, lastFair: Option<real>): real {
    OrElse(FirstFair(out), OrElse(lastFair, 0.0))
  }

  function EndFair(out: seq<OutEvent>, lastFair: Option<real>): real {
    OrElse(lastFair, StartFair(out, lastFair))
  }

  function Equity(base: real, cash: real, mark: real): real {
    base * mark + cash
  }

  /** The account value after each fill, marked at the last fair or the fill's own price. */
  function FillValues(fills: seq<Fill>, base: real, quote: real, lastFair: Option<real>): seq<real> {
    if fills == [] then [] else
    FillValues(fills[..|fills| - 1], base, quote, lastFair)
    + [Equity(base + NetBase(fills), quote + NetCash(fills), OrElse(lastFair, fills[|fills| - 1].price))]
  }

  function PeakOf(values: seq<real>): real
    requires values != []
  {
    if |values| == 1 then values[0] else Max(PeakOf(values[..|values| - 1]), values[|values| - 1])
  }

  function MaxDrawdown(values: seq<real>): real {
    if values == [] then 0.0 else Max(MaxDrawdown(values[..|values| - 1]), PeakOf(values) - values[|values| - 1])
  }

  datatype Summary = Summary(totalPnl: real, baselinePnl: real, alphaPnl: real, startEquity: real, endEquity: real,
                             baselineEndEquity: real, realizedPnl: real, unrealizedPnl: real, feesPaid: real,
                             maxDrawdown: real, fills: nat)

  /** The summary of an account that ends with `endBase` and `endCash`. */
  function Account(base: real, quote: real, endBase: real, endCash: real, fees: real, startFair: real, endFair: real,
                   drawdown: real, fills: nat): Summary {
    var startEquity, baselineEnd, endEquity := Equity(base, quote, startFair), Equity(base, quote, endFair),
      Equity(endBase, endCash, endFair);
    Summary(endEquity - startEquity, baselineEnd - startEquity, endEquity - baselineEnd, startEquity, endEquity,
            baselineEnd,
            -fees, endEquity - startEquity + fees, fees, drawdown, fills)
  }

  function SummaryOf(out: seq<OutEvent>, base: real, quote: real, lastFair: Option<real>): Summary {
    var fills := FillsOfOutput(out);
    Account(base, quote, base + NetBase(fills), quote + NetCash(fills), Fees(fills), StartFair(out, lastFair),
            EndFair(out, lastFair),
            MaxDrawdown(FillValues(fills, base, quote, lastFair)), |fills|)
  }

  method ComputeDrawdown(values: seq<real>) returns (drawdown: real)
    ensures drawdown == MaxDrawdown(values)
  {
    drawdown := 0.0;
    var peak: Option<real> := None;
    for i := 0 to |values|
      invariant drawdown == MaxDrawdown(values[..i])
      invariant peak == if i == 0 then None else Some(PeakOf(values[..i]))
    {
      assert values[..i + 1][..i] == values[..i];
      peak := Some(if peak.None? then values[i] else Max(peak.value, values[i]));
      drawdown := Max(drawdown, peak.value - values[i]);
    }
    assert values[..|values|] == values;
  }

  method Summarize(out: seq<OutEvent>, initialBase: real, initialQuote: real,
                   lastFair: Option<real>) returns (summary: Summary)
    ensures summary == SummaryOf(out, initialBase, initialQuote, lastFair)
  {
    var fills := FillsOfOutput(out);
    var base, cash, realized, fees, fillValues := BookFills(fills, initialBase, initialQuote, lastFair);
    var drawdown := ComputeDrawdown(fillValues);
    var startFair := StartFair(out, lastFair);
    var endFair := OrElse(lastFair, startFair);
    var startEquity, baselineEnd := Equity(initialBase, initialQuote, startFair),
      Equity(initialBase, initialQuote, endFair);
    var endEquity := Equity(base, cash, endFair);
    var total := endEquity - startEquity;
    summary := Summary(total, baselineEnd - startEquity, endEquity - baselineEnd, startEquity, endEquity, baselineEnd,
                       realized, total - realized, fees, drawdown, |fills|);
  }

  method BookFills(fills: seq<Fill>, initialBase: real, initialQuote: real, lastFair: Option<real>)
    returns (base: real, cash: real, realized: real, fees: real, fillValues: seq<real>)
    ensures base == initialBase + NetBase(fills) && cash == initialQuote + NetCash(fills)
    ensures fees == Fees(fills) && realized == -fees
    ensures fillValues == FillValues(fills, initialBase, initialQuote, lastFair)
  {
    base, cash, realized, fees, fillValues := initialBase, initialQuote, 0.0, 0.0, [];
    for i := 0 to |fills|
      invariant base == initialBase + NetBase(fills[..i]) && cash == initialQuote + NetCash(fills[..i])
      invariant fees == Fees(fills[..i]) && realized == -fees
      invariant fillValues == FillValues(fills[..i], initialBase, initialQuote, lastFair)
    {
      assert fills[..i + 1][..i] == fills[..i];
      var f := fills[i];
      fees := fees + f.fee;
      realized := realized - f.fee;
      base, cash := BookFill(base, cash, f);
      fillValues := fillValues + [Equity(base, cash, OrElse(lastFair, f.price))];
    }
    assert fills[..|fills|] == fills;
  }

  method BookFill(base: real, cash: real, f: Fill) returns (base': real, cash': real)
    ensures base' == base + SignedSize(f) && cash' == cash + CashFlow(f)
  {
    if f.side.Buy? {
      base', cash' := base + f.size, cash - (f.price * f.size + f.fee);
    } else {
      base', cash' := base - f.size, cash + (f.price * f.size - f.fee);
    }
  }

  // ----- accounting identities -----

  lemma FillEdge(f: Fill, mark: real)
    ensures SignedSize(f) * mark + CashFlow(f) == Edge(f, mark)
  {
  }

  lemma {:induction false} NetIsEdge(fills: seq<Fill>, mark: real)
    ensures NetBase(fills) * mark + NetCash(fills) == TotalEdge(fills, mark)
  {
    if fills != [] {
      var init, last := fills[..|fills| - 1], fills[|fills| - 1];
      NetIsEdge(init, mark);
      FillEdge(last, mark);
      assert NetBase(fills) * mark == NetBase(init) * mark + SignedSize(last) * mark;
    }
  }

  ghost predicate Identities(s: Summary, edge: real) {
    && s.totalPnl == s.baselinePnl + s.alphaPnl
    && s.realizedPnl == -s.feesPaid && s.unrealizedPnl == s.totalPnl - s.realizedPnl
    && s.alphaPnl == edge
  }

  /** For every output: total = baseline + alpha, realized = -fees, and alpha is the sum over the fills of signed
      size times (end fair - price), less fees. */
  lemma SummaryIdentities(out: seq<OutEvent>, base: real, quote: real, lastFair: Option<real>)
    ensures Identities(SummaryOf(out, base, quote, lastFair), TotalEdge(FillsOfOutput(out), EndFair(out, lastFair)))
  {
    var fills, startFair, endFair := FillsOfOutput(out), StartFair(out, lastFair), EndFair(out, lastFair);
    var drawdown := MaxDrawdown(FillValues(fills, base, quote, lastFair));
    assert SummaryOf(out, base, quote, lastFair) ==
           Account(base, quote, base + NetBase(fills), quote + NetCash(fills), Fees(fills), startFair, endFair,
                   drawdown, |fills|);
    AccountIdentities(base, quote, fills, startFair, endFair, drawdown);
  }

  lemma AccountIdentities(base: real, quote: real, fills: seq<Fill>, startFair: real, endFair: real, drawdown: real)
    ensures Identities(Account(base, quote, base + NetBase(fills), quote + NetCash(fills), Fees(fills), startFair,
                               endFair, drawdown, |fills|),
                       TotalEdge(fills, endFair))
  {
    NetIsEdge(fills, endFair);
    EquitySplits(base, quote, NetBase(fills), NetCash(fills), endFair);
  }

  lemma EquitySplits(base: real, quote: real, netBase: real, netCash: real, mark: real)
    ensures Equity(base + netBase, quote + netCash, mark) - Equity(base, quote, mark) == netBase * mark + netCash
  {
  }

  // ----- drawdown -----

  lemma {:induction false} PeakIsMax(values: seq<real>) returns (k: nat)
    requires values != []
    ensures k < |values| && values[k] == PeakOf(values) && forall i :: 0 <= i < |values| ==> values[i] <= PeakOf(values)
  {
    if |values| == 1 {
      k := 0;
    } else {
      var n := |values| - 1;
      k := PeakIsMax(values[..n]);
      assert forall i :: 0 <= i < n ==> values[..n][i] == values[i];
      if values[n] > PeakOf(values[..n]) { k := n; }
    }
  }

  /** The drawdown is the largest fall from any value to any later one, and zero when values never fall. */
  lemma {:induction false} DrawdownIsLargestFall(values: seq<real>)
    ensures MaxDrawdown(values) >= 0.0
    ensures forall i, j :: 0 <= i <= j < |values| ==> values[i] - values[j] <= MaxDrawdown(values)
    ensures MaxDrawdown(values) != 0.0 ==>
              exists i, j :: 0 <= i <= j < |values| && values[i] - values[j] == MaxDrawdown(values)
  {
    if values != [] {
      var n := |values| - 1;
      var init := values[..n];
      DrawdownIsLargestFall(init);
      var k := PeakIsMax(values);
      assert forall i :: 0 <= i < n ==> init[i] == values[i];
      if MaxDrawdown(values) == MaxDrawdown(init) {
        if MaxDrawdown(values) != 0.0 {
          var i, j :| 0 <= i <= j < |init| && init[i] - init[j] == MaxDrawdown(init);
          assert values[i] - values[j] == MaxDrawdown(values);
        }
      } else {
        assert values[k] - values[n] == MaxDrawdown(values);
      }
    }
  }

  // ----- agreement with the inventory -----

  function FillsRecordedIn(events: seq<Event>): seq<Fill> {
    if events == [] then [] else FillsRecordedIn(events[..|events| - 1]) + FillIn(In(events[|events| - 1]))
  }

  lemma {:induction false} NetConcat(a: seq<Fill>, b: seq<Fill>)
    ensures NetBase(a + b) == NetBase(a) + NetBase(b) && NetCash(a + b) == NetCash(a) + NetCash(b)
  {
    if b == [] {
      assert a + b == a;
    } else {
      assert (a + b)[..|a + b| - 1] == a + b[..|b| - 1];
      NetConcat(a, b[..|b| - 1]);
    }
  }

  lemma {:induction false} OutputFillsConcat(a: seq<OutEvent>, b: seq<OutEvent>)
    ensures FillsOfOutput(a + b) == FillsOfOutput(a) + FillsOfOutput(b)
  {
    if b == [] {
      assert a + b == a;
    } else {
      assert (a + b)[..|a + b| - 1] == a + b[..|b| - 1];
      OutputFillsConcat(a, b[..|b| - 1]);
    }
  }

  lemma {:induction false} EmittedFills(emitted: seq<Emitted>)
    ensures FillsOfOutput(AsOut(emitted)) == FillsIn(emitted)
  {
    if emitted != [] {
      var one := [Out(emitted[0])];
      assert AsOut(emitted) == one + AsOut(emitted[1..]);
      assert one[..0] == [];
      assert FillsOfOutput(one) == FillIn(one[0]);
      OutputFillsConcat(one, AsOut(emitted[1..]));
      EmittedFills(emitted[1..]);
    }
  }

  /** The fills of a run's output are those emitted and those that were already in the input. */
  lemma {:induction false} OutputNets(cfg: Config, events: seq<Event>)
    requires !Run(cfg, events).raised
    ensures var all, emitted, recorded := FillsOfOutput(OutputOf(cfg, events)), FillsIn(Run(cfg, events).trace),
            FillsRecordedIn(events);
            && NetBase(all) == NetBase(emitted) + NetBase(recorded)
            && NetCash(all) == NetCash(emitted) + NetCash(recorded)
  {
    if events != [] {
      var n := |events| - 1;
      var before, emitted := OutputOf(cfg, events[..n]), Step(cfg, Run(cfg, events[..n]).state, events[n]).emitted;
      OutputNets(cfg, events[..n]);
      StepOutputNets(before, events[n], emitted);
      FillsConcat(Run(cfg, events[..n]).trace, emitted);
      NetConcat(FillsIn(Run(cfg, events[..n]).trace), FillsIn(emitted));
      NetConcat(FillsRecordedIn(events[..n]), FillIn(In(events[n])));
    }
  }

  lemma StepOutputNets(before: seq<OutEvent>, e: Event, emitted: seq<Emitted>)
    ensures var all := FillsOfOutput(before + [In(e)] + AsOut(emitted));
            && NetBase(all) == NetBase(FillsOfOutput(before)) + NetBase(FillIn(In(e))) + NetBase(FillsIn(emitted))
            && NetCash(all) == NetCash(FillsOfOutput(before)) + NetCash(FillIn(In(e))) + NetCash(FillsIn(emitted))
  {
    OutputFillsConcat(before + [In(e)], AsOut(emitted));
    EmittedFills(emitted);
    assert (before + [In(e)])[..|before|] == before;
    NetConcat(FillsOfOutput(before + [In(e)]), FillsIn(emitted));
    NetConcat(FillsOfOutput(before), FillIn(In(e)));
  }

  lemma {:induction false} EnrichedNets(points: seq<FairPoint>, out: seq<OutEvent>)
    requires points != []
    ensures var a, b := FillsOfOutput(out), FillsOfOutput(EnrichAll(points, out));
            NetBase(a) == NetBase(b) && NetCash(a) == NetCash(b)
  {
    if out != [] {
      var n := |out| - 1;
      EnrichedNets(points, out[..n]);
      assert EnrichAll(points, out)[..n] == EnrichAll(points, out[..n]);
      LastEnrichedNets(points, FillsOfOutput(EnrichAll(points, out[..n])), out[n]);
      NetConcat(FillsOfOutput(out[..n]), FillIn(out[n]));
      NetConcat(FillsOfOutput(EnrichAll(points, out[..n])), FillIn(out[n]));
    }
  }

  ghost predicate SameBooking(f: Fill, g: Fill) {
    f.side == g.side && f.price == g.price && f.size == g.size && f.fee == g.fee
  }

  lemma EnrichKeepsBooking(points: seq<FairPoint>, o: OutEvent)
    requires points != []
    ensures var a, b := FillIn(o), FillIn(EnrichOne(points, o));
            |a| == |b| <= 1 && (a != [] ==> a == [a[0]] && b == [b[0]] && SameBooking(a[0], b[0]))
  {
  }

  lemma LastEnrichedNets(points: seq<FairPoint>, fills: seq<Fill>, o: OutEvent)
    requires points != []
    ensures NetBase(fills + FillIn(EnrichOne(points, o))) == NetBase(fills + FillIn(o))
    ensures NetCash(fills + FillIn(EnrichOne(points, o))) == NetCash(fills + FillIn(o))
  {
    EnrichKeepsBooking(points, o);
    SameBookingNets(fills, FillIn(o), FillIn(EnrichOne(points, o)));
  }

  lemma SameBookingNets(fills: seq<Fill>, a: seq<Fill>, b: seq<Fill>)
    requires |a| == |b| <= 1 && (a != [] ==> a == [a[0]] && b == [b[0]] && SameBooking(a[0], b[0]))
    ensures NetBase(fills + a) == NetBase(fills + b) && NetCash(fills + a) == NetCash(fills + b)
  {
    hide NetBase, NetCash;
    if a != [] {
      AppendedNets(fills, a[0]);
      AppendedNets(fills, b[0]);
    } else {
      assert a == b;
    }
  }

  lemma AppendedNets(fills: seq<Fill>, f: Fill)
    ensures NetBase(fills + [f]) == NetBase(fills) + SignedSize(f) &&
            NetCash(fills + [f]) == NetCash(fills) + CashFlow(f)
  {
    assert (fills + [f])[..|fills|] == fills;
  }

  lemma NetOne(f: Fill)
    ensures NetBase([f]) == SignedSize(f) && NetCash([f]) == CashFlow(f)
  {
    assert [f][..0] == [];
  }

  lemma FillNets(inv: Inventory, f: Fill)
    ensures ApplyFill(inv, f.side, f.price, f.size, f.fee) ==
              Inventory(inv.base + SignedSize(f), inv.quote + CashFlow(f))
  {
  }

  lemma {:induction false} SettledNets(cfg: Config, inv: Inventory, r: RiskState, active: seq<ActiveOrder>,
                                       fills: seq<Fill>)
    requires !SettleFills(cfg, inv, r, active, fills).raised
    ensures SettleFills(cfg, inv, r, active, fills).inventory == Booked(inv, fills)
    decreases |fills|
  {
    if fills != [] {
      hide ApplyFill, RecordFill, RemoveFilled, NetBase, NetCash, Overdrawn;
      var f := fills[0];
      FillNets(inv, f);
      SettledNets(cfg, ApplyFill(inv, f.side, f.price, f.size, f.fee),
                  RecordFill(cfg.risk, r, f.side, f.ts, f.price, f.size),
                  RemoveFilled(active, f.orderId), fills[1..]);
      NetConcat([f], fills[1..]);
      NetOne(f);
      assert [f] + fills[1..] == fills;
    }
  }

  lemma StepNets(cfg: Config, s: PipelineState, e: Event)
    requires !Step(cfg, s, e).raised
    ensures var step := Step(cfg, s, e); step.state.inventory == Booked(s.inventory, FillsIn(step.emitted))
  {
    hide FromMarketEvent, StepWithFair;
    var seen := Observed(cfg, s, e);
    var u := FromMarketEvent(cfg.fair, seen.sources, seen.book, e);
    assert seen.inventory == s.inventory;
    StepWithFairNets(cfg, seen.(sources := u.sources), e, u.state.value);
  }

  function Booked(inv: Inventory, fills: seq<Fill>): Inventory {
    Inventory(inv.base + NetBase(fills), inv.quote + NetCash(fills))
  }

  lemma StepWithFairNets(cfg: Config, s: PipelineState, e: Event, fair: FairState)
    requires !StepWithFair(cfg, s, e, fair).raised
    ensures var step := StepWithFair(cfg, s, e, fair);
            step.state.inventory == Booked(s.inventory, FillsIn(step.emitted))
  {
    StepLogs(cfg, s, e, fair);
    SettledNets(cfg, s.inventory, s.risk, s.projector.active, WalkOf(cfg.fill, s.fills, e, fair).fills);
    QuotingKeepsInventory(cfg, s, e, fair);
  }

  lemma QuotingKeepsInventory(cfg: Config, s: PipelineState, e: Event, fair: FairState)
    ensures StepWithFair(cfg, s, e, fair).state.inventory == SettledFills(cfg, s, e, fair).inventory
  {
    assert SettledFills(cfg, s, e, fair) == SettledFills(cfg, AfterShock(cfg, s, e, fair), e, fair);
  }

  lemma {:induction false} InventoryIsNet(cfg: Config, events: seq<Event>)
    requires !Run(cfg, events).raised
    ensures var r := Run(cfg, events);
            r.state.inventory == Booked(Inventory(cfg.initialBase, cfg.initialQuote), FillsIn(r.trace))
  {
    if events != [] {
      var n := |events| - 1;
      InventoryIsNet(cfg, events[..n]);
      var before := Run(cfg, events[..n]);
      var emitted := Step(cfg, before.state, events[n]).emitted;
      StepNets(cfg, before.state, events[n]);
      FillsConcat(before.trace, emitted);
      BookedConcat(Inventory(cfg.initialBase, cfg.initialQuote), FillsIn(before.trace), FillsIn(emitted));
    }
  }

  lemma BookedConcat(start: Inventory, a: seq<Fill>, b: seq<Fill>)
    ensures Booked(start, a + b) == Booked(Booked(start, a), b)
  {
    NetConcat(a, b);
  }

  lemma EnrichedOutputNets(out: seq<OutEvent>)
    ensures var a, b := FillsOfOutput(out), FillsOfOutput(Enriched(out));
            NetBase(a) == NetBase(b) && NetCash(a) == NetCash(b)
  {
    if FairPoints(out) != [] {
      EnrichedNets(FairPoints(out), out);
    }
  }

  /** For every completed run, the base and cash recomputed from the output differ from the pipeline's inventory by
      exactly the net of the fills that the input log itself contained. */
  lemma RecomputedBalances(cfg: Config, events: seq<Event>)
    requires !Run(cfg, events).raised
    ensures var inv := Run(cfg, events).state.inventory;
            var fills, recorded := FillsOfOutput(Enriched(OutputOf(cfg, events))), FillsRecordedIn(events);
            Booked(Inventory(cfg.initialBase, cfg.initialQuote), fills) == Booked(inv, recorded)
  {
    InventoryIsNet(cfg, events);
    OutputNets(cfg, events);
    EnrichedOutputNets(OutputOf(cfg, events));
    BookedShift(Inventory(cfg.initialBase, cfg.initialQuote), FillsIn(Run(cfg, events).trace), FillsRecordedIn(events),
                FillsOfOutput(OutputOf(cfg, events)), FillsOfOutput(Enriched(OutputOf(cfg, events))));
  }

  lemma BookedShift(start: Inventory, emitted: seq<Fill>, recorded: seq<Fill>, all: seq<Fill>, enriched: seq<Fill>)
    requires NetBase(all) == NetBase(emitted) + NetBase(recorded) &&
             NetCash(all) == NetCash(emitted) + NetCash(recorded)
    requires NetBase(all) == NetBase(enriched) && NetCash(all) == NetCash(enriched)
    ensures Booked(start, enriched) == Booked(Booked(start, emitted), recorded)
  {
  }

  /** So the recomputed balances are the inventory if and only if the input's own fills net to nothing. */
  lemma LedgerAgreesIff(cfg: Config, events: seq<Event>)
    requires !Run(cfg, events).raised
    ensures Booked(Inventory(cfg.initialBase, cfg.initialQuote), FillsOfOutput(Enriched(OutputOf(cfg, events)))) ==
              Run(cfg, events).state.inventory
            <==> NetBase(FillsRecordedIn(events)) == 0.0 && NetCash(FillsRecordedIn(events)) == 0.0
  {
    RecomputedBalances(cfg, events);
  }

  /** On logs without fills of their own, the summary's end equity is the inventory's value at the end fair. */
  lemma LedgerAgrees(cfg: Config, events: seq<Event>, lastFair: Option<real>)
    requires !Run(cfg, events).raised
    requires forall i :: 0 <= i < |events| ==> FillIn(In(events[i])) == []
    ensures var inv, out := Run(cfg, events).state.inventory, Enriched(OutputOf(cfg, events));
            var s := SummaryOf(out, cfg.initialBase, cfg.initialQuote, lastFair);
            && Booked(Inventory(cfg.initialBase, cfg.initialQuote), FillsOfOutput(out)) == inv
            && s.endEquity == Equity(inv.base, inv.quote, EndFair(out, lastFair))
  {
    RecomputedBalances(cfg, events);
    NoRecordedFills(events);
    EndEquityOfBooked(Enriched(OutputOf(cfg, events)), Inventory(cfg.initialBase, cfg.initialQuote),
                      Run(cfg, events).state.inventory, lastFair);
  }

  lemma EndEquityOfBooked(out: seq<OutEvent>, start: Inventory, end: Inventory, lastFair: Option<real>)
    requires Booked(start, FillsOfOutput(out)) == end
    ensures SummaryOf(out, start.base, start.quote, lastFair).endEquity ==
              Equity(end.base, end.quote, EndFair(out, lastFair))
  {
    hide FillsOfOutput, StartFair, EndFair, MaxDrawdown, FillValues, NetBase, NetCash, Fees, Account;
    var fills, startFair, endFair := FillsOfOutput(out), StartFair(out, lastFair), EndFair(out, lastFair);
    var drawdown := MaxDrawdown(FillValues(fills, start.base, start.quote, lastFair));
    assert SummaryOf(out, start.base, start.quote, lastFair) ==
           Account(start.base, start.quote, start.base + NetBase(fills), start.quote + NetCash(fills), Fees(fills),
                   startFair, endFair, drawdown, |fills|);
    AccountEnd(start.base, start.quote, end.base, end.quote, Fees(fills), startFair, endFair, drawdown, |fills|);
  }

  lemma AccountEnd(base: real, quote: real, endBase: real, endCash: real, fees: real, startFair: real, endFair: real,
                   drawdown: real, fills: nat)
    ensures Account(base, quote, endBase, endCash, fees, startFair, endFair, drawdown, fills).endEquity ==
              Equity(endBase, endCash, endFair)
  {
  }

  lemma {:induction false} NoRecordedFills(events: seq<Event>)
    requires forall i :: 0 <= i < |events| ==> FillIn(In(events[i])) == []
    ensures FillsRecordedIn(events) == []
  {
    if events != [] {
      NoRecordedFills(events[..|events| - 1]);
    }
  }
}
