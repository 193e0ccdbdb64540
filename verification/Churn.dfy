/** Quote churn: how long orders live by the output of a run, and what that says of the orders still resting. */
module Churns {
  import opened Types
  import opened Statistics
  import opened FillModels
  import opened Coupling
  import opened Ledgers
  import opened Pipelines
  import opened Runs
  import opened Replays

  // ----- counting -----

  datatype Change = NoChange | Opens(id: OrderId, createdAt: real) | Cancels(id: OrderId) | Fills(id: OrderId)

  function ChangeOf(e: Emitted): Change {
    match e
    case Order(Placed(_, o)) => Opens(o.id, o.createdAt)
    case Order(Canceled(_, o, _, _)) => Cancels(o.id)
    case VirtualFill(f) => Fills(f.orderId)
    case _ => NoChange
  }

  /** What an output event does to an order, whether just emitted or read back from an earlier run. */
  function ChangeIn(o: OutEvent): Change {
    match o
    case Out(e) => ChangeOf(e)
    case In(Event(_, _, _, _, _, Recorded(e))) => ChangeOf(e)
    case _ => NoChange
  }

  function EmittedTs(e: Emitted): real {
    match e
    case MarkPrice(ts, _) => ts
    case ForcedFlow(id) => id.ts
    case VirtualFill(f) => f.ts
    case RiskUpdate(ts, _, _, _, _, _) => ts
    case Order(Placed(_, o)) => o.createdAt
    case Order(Canceled(_, _, ts, _)) => ts
    case LiveIntent(o) => o.createdAt
    case LiveBlocked(o, _) => o.createdAt
  }

  function TsOf(o: OutEvent): real {
    match o
    case In(e) => e.ts
    case Out(e) => EmittedTs(e)
  }

  datatype Placement = Placement(id: OrderId, createdAt: real)

  /** Assignment to a dict: a known id keeps its place. */
  function Put(placed: seq<Placement>, p: Placement): seq<Placement> {
    if placed == [] then [p]
    else if placed[0].id == p.id then [p] + placed[1..]
    else [placed[0]] + Put(placed[1..], p)
  }

  function SetDefault(closedAt: map<OrderId, real>, id: OrderId, ts: real): map<OrderId, real> {
    if id in closedAt then closedAt else closedAt[id := ts]
  }

  datatype Tally = Tally(placed: seq<Placement>, closedAt: map<OrderId, real>, orders: nat, cancels: nat, fills: nat)

  function Count(t: Tally, o: OutEvent): Tally {
    match ChangeIn(o)
    case Opens(id, createdAt) => t.(placed := Put(t.placed, Placement(id, createdAt)), orders := t.orders + 1)
    case Cancels(id) => t.(closedAt := SetDefault(t.closedAt, id, TsOf(o)), cancels := t.cancels + 1)
    case Fills(id) => t.(closedAt := SetDefault(t.closedAt, id, TsOf(o)), fills := t.fills + 1)
    case NoChange => t
  }

  function TallyOf(out: seq<OutEvent>): Tally {
    if out == [] then Tally([], map[], 0, 0, 0) else Count(TallyOf(out[..|out| - 1]), out[|out| - 1])
  }

  function FirstTs(out: seq<OutEvent>): real
    requires out != []
  {
    if |out| == 1 then TsOf(out[0]) else Min(FirstTs(out[..|out| - 1]), TsOf(out[|out| - 1]))
  }

  function LastTs(out: seq<OutEvent>): real
    requires out != []
  {
    if |out| == 1 then TsOf(out[0]) else Max(LastTs(out[..|out| - 1]), TsOf(out[|out| - 1]))
  }

  /** Of an order that is not closed, up to the end of the log. */
  function Lifetime(t: Tally, p: Placement, end: real): real {
    Max(0.0, (if p.id in t.closedAt then t.closedAt[p.id] else end) - p.createdAt)
  }

  function Lifetimes(t: Tally, end: real): (r: seq<real>)
    ensures |r| == |t.placed| && forall i :: 0 <= i < |r| ==> r[i] == Lifetime(t, t.placed[i], end)
  {
    seq(|t.placed|, i requires 0 <= i < |t.placed| => Lifetime(t, t.placed[i], end))
  }

  datatype Churn = Churn(averageLifetimeMs: Option<real>, ordersPerMinute: real, cancelsPerMinute: real,
                         fillPerActiveSecond: real)

  function Rates(t: Tally, lifetimes: seq<real>, minutes: real): Churn
    requires minutes > 0.0
  {
    var activeSeconds := Sum(lifetimes) / 1000.0;
    Churn(if lifetimes == [] then None else Some(Mean(lifetimes)), t.orders as real / minutes,
          t.cancels as real / minutes, if activeSeconds > 0.0 then t.fills as real / activeSeconds else 0.0)
  }

  function Minutes(first: real, last: real): (m: real)
    ensures m > 0.0
  {
    Max((last - first) / 60000.0, 0.000000000001)
  }

  function ChurnOf(out: seq<OutEvent>): Churn {
    if out == [] then Churn(None, 0.0, 0.0, 0.0) else
    var t, last := TallyOf(out), LastTs(out);
    Rates(t, Lifetimes(t, last), Minutes(FirstTs(out), last))
  }

  method Span(out: seq<OutEvent>) returns (first: real, last: real)
    requires out != []
    ensures first == FirstTs(out) && last == LastTs(out)
  {
    first, last := TsOf(out[0]), TsOf(out[0]);
    for i := 1 to |out|
      invariant first == FirstTs(out[..i]) && last == LastTs(out[..i])
    {
      assert out[..i + 1][..i] == out[..i];
      first, last := Min(first, TsOf(out[i])), Max(last, TsOf(out[i]));
    }
    assert out[..|out|] == out;
  }

  /** The loop with its early return for no events. */
  method QuoteChurn(out: seq<OutEvent>) returns (churn: Churn)
    ensures churn == ChurnOf(out)
  {
    if out == [] {
      return Churn(None, 0.0, 0.0, 0.0);
    }
    var first, last := Span(out);
    var placed: seq<Placement> := [];
    var closedAt: map<OrderId, real> := map[];
    var orders, cancels, fills := 0, 0, 0;
    for i := 0 to |out|
      invariant orders >= 0 && cancels >= 0 && fills >= 0
      invariant TallyOf(out[..i]) == Tally(placed, closedAt, orders, cancels, fills)
    {
      hide ChangeIn, TsOf, Put;
      assert out[..i + 1][..i] == out[..i];
      match ChangeIn(out[i]) {
        case Opens(id, createdAt) =>
          placed := Put(placed, Placement(id, createdAt));
          orders := orders + 1;
        case Cancels(id) =>
          if id !in closedAt { closedAt := closedAt[id := TsOf(out[i])]; }
          cancels := cancels + 1;
        case Fills(id) =>
          if id !in closedAt { closedAt := closedAt[id := TsOf(out[i])]; }
          fills := fills + 1;
        case NoChange =>
      }
    }
    assert out[..|out|] == out;
    var t := Tally(placed, closedAt, orders, cancels, fills);
    var lifetimes := CollectLifetimes(t, last);
    churn := Rates(t, lifetimes, Minutes(first, last));
  }

  method CollectLifetimes(t: Tally, end: real) returns (lifetimes: seq<real>)
    ensures lifetimes == Lifetimes(t, end)
  {
    lifetimes := [];
    for i := 0 to |t.placed|
      invariant |lifetimes| == i && forall j :: 0 <= j < i ==> lifetimes[j] == Lifetime(t, t.placed[j], end)
    {
      lifetimes := lifetimes + [Lifetime(t, t.placed[i], end)];
    }
  }

  // ----- what a closing time is -----

  predicate Closes(o: OutEvent, id: OrderId) {
    ChangeIn(o) == Cancels(id) || ChangeIn(o) == Fills(id)
  }

  ghost predicate ClosedIn(out: seq<OutEvent>, id: OrderId) {
    exists k :: 0 <= k < |out| && Closes(out[k], id)
  }

  lemma ClosedInSnoc(out: seq<OutEvent>, id: OrderId)
    requires out != []
    ensures ClosedIn(out, id) <==> ClosedIn(out[..|out| - 1], id) || Closes(out[|out| - 1], id)
  {
    hide Closes;
    var init := out[..|out| - 1];
    if ClosedIn(init, id) {
      var k :| 0 <= k < |init| && Closes(init[k], id);
      assert Closes(out[k], id);
    }
    if ClosedIn(out, id) {
      var k :| 0 <= k < |out| && Closes(out[k], id);
      assert k < |init| ==> Closes(init[k], id);
    }
  }

  /** An order has a closing time exactly when it is ever cancelled or filled, and it is the time of the first such
      event: a partial fill closes an order for good. */
  lemma {:induction false} ClosingTime(out: seq<OutEvent>, id: OrderId)
    ensures id in TallyOf(out).closedAt <==> ClosedIn(out, id)
    ensures ClosedIn(out, id) ==>
              exists k :: 0 <= k < |out| && Closes(out[k], id) && TallyOf(out).closedAt[id] == TsOf(out[k])
                && forall j :: 0 <= j < k ==> !Closes(out[j], id)
  {
    if out != [] {
      var n := |out| - 1;
      var init := out[..n];
      ClosingTime(init, id);
      ClosedInSnoc(out, id);
      CountCloses(TallyOf(init), out[n], id);
      hide TallyOf, Closes, TsOf, Count;
      assert TallyOf(out) == Count(TallyOf(init), out[n]) by { TallySnoc(out); }
      if ClosedIn(init, id) {
        var k :| 0 <= k < |init| && Closes(init[k], id) && TallyOf(init).closedAt[id] == TsOf(init[k])
          && forall j :: 0 <= j < k ==> !Closes(init[j], id);
        assert out[k] == init[k] && forall j :: 0 <= j < k ==> out[j] == init[j];
      } else if Closes(out[n], id) {
        assert forall j :: 0 <= j < n ==> init[j] == out[j];
      }
    }
  }

  lemma TallySnoc(out: seq<OutEvent>)
    requires out != []
    ensures TallyOf(out) == Count(TallyOf(out[..|out| - 1]), out[|out| - 1])
  {
  }

  lemma CountCloses(t: Tally, o: OutEvent, id: OrderId)
    ensures id in Count(t, o).closedAt <==> id in t.closedAt || Closes(o, id)
    ensures id in t.closedAt ==> Count(t, o).closedAt[id] == t.closedAt[id]
    ensures id !in t.closedAt && Closes(o, id) ==> Count(t, o).closedAt[id] == TsOf(o)
  {
    hide ChangeIn, TsOf, Put;
  }

  // ----- the output of a run -----

  lemma ClosedInConcat(a: seq<OutEvent>, b: seq<OutEvent>, id: OrderId)
    ensures ClosedIn(a + b, id) <==> ClosedIn(a, id) || ClosedIn(b, id)
  {
    hide Closes;
    var all := a + b;
    if ClosedIn(a, id) {
      var k :| 0 <= k < |a| && Closes(a[k], id);
      assert Closes(all[k], id);
    }
    if ClosedIn(b, id) {
      var k :| 0 <= k < |b| && Closes(b[k], id);
      assert Closes(all[|a| + k], id);
    }
    if ClosedIn(all, id) {
      var k :| 0 <= k < |all| && Closes(all[k], id);
      assert if k < |a| then Closes(a[k], id) else Closes(b[k - |a|], id);
    }
  }

  /** Cancelled or filled by an event of the input. */
  ghost predicate ClosedByInput(events: seq<Event>, id: OrderId) {
    exists k :: 0 <= k < |events| && Closes(In(events[k]), id)
  }

  lemma ClosedByInputSnoc(events: seq<Event>, id: OrderId)
    requires events != []
    ensures ClosedByInput(events, id) <==>
            ClosedByInput(events[..|events| - 1], id) || Closes(In(events[|events| - 1]), id)
  {
    hide Closes;
    var init := events[..|events| - 1];
    if ClosedByInput(init, id) {
      var k :| 0 <= k < |init| && Closes(In(init[k]), id);
      assert Closes(In(events[k]), id);
    }
    if ClosedByInput(events, id) {
      var k :| 0 <= k < |events| && Closes(In(events[k]), id);
      assert k < |init| ==> Closes(In(init[k]), id);
    }
  }

  lemma ClosedInOne(o: OutEvent, id: OrderId)
    ensures ClosedIn([o], id) <==> Closes(o, id)
  {
    if Closes(o, id) { assert Closes([o][0], id); }
  }

  /** Cancelled or filled in the trace. */
  ghost predicate ClosedByTrace(trace: seq<Emitted>, id: OrderId) {
    ClosedIn(AsOut(trace), id)
  }

  lemma {:induction false} OutputCloses(cfg: Config, events: seq<Event>, id: OrderId)
    requires !Run(cfg, events).raised
    ensures ClosedIn(OutputOf(cfg, events), id) <==>
            ClosedByTrace(Run(cfg, events).trace, id) || ClosedByInput(events, id)
  {
    if events != [] {
      var n := |events| - 1;
      RunSnoc(cfg, events);
      OutputCloses(cfg, events[..n], id);
      ClosedByInputSnoc(events, id);
      var before := Run(cfg, events[..n]);
      var emitted := Step(cfg, before.state, events[n]).emitted;
      hide Run, Step, ClosedIn, ClosedByInput, AsOut, Closes;
      ClosedInOne(In(events[n]), id);
      ClosedInConcat(OutputOf(cfg, events[..n]), [In(events[n])], id);
      ClosedInConcat(OutputOf(cfg, events[..n]) + [In(events[n])], AsOut(emitted), id);
      AsOutConcat(before.trace, emitted);
      ClosedInConcat(AsOut(before.trace), AsOut(emitted), id);
    }
  }

  lemma AsOutConcat(a: seq<Emitted>, b: seq<Emitted>)
    ensures AsOut(a + b) == AsOut(a) + AsOut(b)
  {
  }

  lemma EnrichedCloses(points: seq<FairPoint>, o: OutEvent, id: OrderId)
    requires points != []
    ensures Closes(EnrichOne(points, o), id) <==> Closes(o, id)
  {
    hide FairAtOrAfter;
  }

  lemma EnrichedOutputCloses(out: seq<OutEvent>, id: OrderId)
    ensures ClosedIn(Enriched(out), id) <==> ClosedIn(out, id)
  {
    hide Closes, EnrichOne;
    var points := FairPoints(out);
    if points != [] {
      var all := EnrichAll(points, out);
      hide FairPoints;
      forall k | 0 <= k < |out| ensures Closes(all[k], id) <==> Closes(out[k], id) {
        EnrichedCloses(points, out[k], id);
      }
      if ClosedIn(out, id) {
        var k :| 0 <= k < |out| && Closes(out[k], id);
        assert Closes(all[k], id);
      }
    }
  }

  // ----- closing times and resting orders -----

  lemma {:induction false} ClosedInLedger(d: Delays, trace: seq<Emitted>, id: OrderId)
    ensures var l := NoteAll(d, BLANK, trace); ClosedByTrace(trace, id) <==> id in l.cancelled || id in l.filled
  {
    if trace != [] {
      var n := |trace| - 1;
      assert trace[..n + 1] == trace && AsOut(trace)[..n] == AsOut(trace[..n]);
      ClosedInLedger(d, trace[..n], id);
      ClosedInSnoc(AsOut(trace), id);
      LedgerSteps(d, trace, n);
      NoteCloses(d, LedgerAt(d, trace, n), trace[n], id);
    }
  }

  lemma NoteCloses(d: Delays, l: Ledger, e: Emitted, id: OrderId)
    ensures var next := Note(d, l, e);
            id in next.cancelled || id in next.filled <==> id in l.cancelled || id in l.filled || Closes(Out(e), id)
  {
    hide DueTo, MayPlace, MayCancel, MayFill;
  }

  /** The closing times recomputed from the output say which orders still rest: after every completed run an order
      placed in it has none if and only if the projector still has it active and no cancel or fill in the input log
      names its id. */
  lemma UnclosedIffActive(cfg: Config, events: seq<Event>, i: int, id: OrderId)
    requires !Run(cfg, events).raised && PlacesAt(Run(cfg, events).trace, i, id)
    ensures id !in TallyOf(Enriched(OutputOf(cfg, events))).closedAt <==>
            Run(cfg, events).trace[i].change.order in Run(cfg, events).state.projector.active &&
              !ClosedByInput(events, id)
  {
    var r, d := Run(cfg, events), DelaysOf(cfg);
    RunAgrees(cfg, events);
    PlacementOf(d, r.trace, i, id);
    ClosedInLedger(d, r.trace, id);
    ActiveIffUnclosed(d, r.state.projector.active, r.state.projector.counter, r.state.fills.orders,
                      NoteAll(d, BLANK, r.trace), id);
    hide Run, NoteAll, Coupled, OutputOf, Enriched, TallyOf, ClosedByTrace, ClosedByInput, ClosedIn;
    OutputCloses(cfg, events, id);
    EnrichedOutputCloses(OutputOf(cfg, events), id);
    ClosingTime(Enriched(OutputOf(cfg, events)), id);
  }

  lemma ActiveIffUnclosed(d: Delays, active: seq<ActiveOrder>, counter: nat, orders: OrderTable, l: Ledger, id: OrderId)
    requires Coupled(d, active, counter, orders, l) && id in l.placed
    ensures l.placed[id] in active <==> id !in l.cancelled && id !in l.filled
  {
    PlacedAccounted(d, active, counter, orders, l, id);
  }

  /** So the remainder of a partly filled order counts as closed while it can still be filled. */
  lemma RemainderCountsAsClosed(cfg: Config, events: seq<Event>, i: int, k: int, id: OrderId)
    requires !Run(cfg, events).raised
    requires var trace := Run(cfg, events).trace;
             PlacesAt(trace, i, id) && FillsAt(trace, k, id) &&
               trace[i].change.order.size - TraceFilled(trace, id) > DUST
    ensures id in TallyOf(Enriched(OutputOf(cfg, events))).closedAt && id in Run(cfg, events).state.fills.orders
  {
    var trace := Run(cfg, events).trace;
    RemainderNeverExpires(cfg, events, i, k, id);
    hide Run, OutputOf, Enriched, TallyOf, TraceFilled;
    assert Closes(AsOut(trace)[k], id);
    OutputCloses(cfg, events, id);
    EnrichedOutputCloses(OutputOf(cfg, events), id);
    ClosingTime(Enriched(OutputOf(cfg, events)), id);
  }

  // ----- every order is still active or closed -----

  lemma {:induction false} OrdersConcat(a: seq<OutEvent>, b: seq<OutEvent>)
    ensures TallyOf(a + b).orders == TallyOf(a).orders + TallyOf(b).orders
  {
    if b == [] {
      assert a + b == a;
    } else {
      hide ChangeIn, TsOf, Put, SetDefault;
      assert (a + b)[..|a + b| - 1] == a + b[..|b| - 1];
      OrdersConcat(a, b[..|b| - 1]);
    }
  }

  lemma {:induction false} EnrichedOrders(points: seq<FairPoint>, out: seq<OutEvent>)
    requires points != []
    ensures TallyOf(EnrichAll(points, out)).orders == TallyOf(out).orders
  {
    if out != [] {
      var n := |out| - 1;
      EnrichedOrders(points, out[..n]);
      assert EnrichAll(points, out)[..n] == EnrichAll(points, out[..n]);
      EnrichedOpens(points, out[n]);
      hide ChangeIn, TsOf, Put, SetDefault, EnrichOne;
    }
  }

  lemma EnrichedOpens(points: seq<FairPoint>, o: OutEvent)
    requires points != []
    ensures ChangeIn(EnrichOne(points, o)) == ChangeIn(o)
  {
    hide FairAtOrAfter;
  }

  /** The log has no order or fill of its own. */
  ghost predicate NoOwnOrders(events: seq<Event>) {
    forall i :: 0 <= i < |events| ==> ChangeIn(In(events[i])) == NoChange
  }

  lemma {:induction false} OutputOrders(cfg: Config, events: seq<Event>)
    requires !Run(cfg, events).raised && NoOwnOrders(events)
    ensures TallyOf(OutputOf(cfg, events)).orders == TallyOf(AsOut(Run(cfg, events).trace)).orders
  {
    if events != [] {
      var n := |events| - 1;
      RunSnoc(cfg, events);
      OutputOrders(cfg, events[..n]);
      var before := Run(cfg, events[..n]);
      var emitted := Step(cfg, before.state, events[n]).emitted;
      hide Run, Step, AsOut;
      OneOrders(In(events[n]));
      hide TallyOf;
      OrdersConcat(OutputOf(cfg, events[..n]), [In(events[n])]);
      OrdersConcat(OutputOf(cfg, events[..n]) + [In(events[n])], AsOut(emitted));
      AsOutConcat(before.trace, emitted);
      OrdersConcat(AsOut(before.trace), AsOut(emitted));
    }
  }

  lemma OneOrders(o: OutEvent)
    ensures TallyOf([o]).orders == if ChangeIn(o).Opens? then 1 else 0
  {
    assert [o][..0] == [];
    hide ChangeIn, TsOf, Put, SetDefault;
  }

  lemma {:induction false} OrdersInLedger(d: Delays, trace: seq<Emitted>)
    requires NoteAll(d, BLANK, trace).orderly
    ensures TallyOf(AsOut(trace)).orders == |NoteAll(d, BLANK, trace).placed.Keys|
  {
    if trace != [] {
      var n := |trace| - 1;
      assert trace[..n + 1] == trace && AsOut(trace)[..n] == AsOut(trace[..n]);
      LedgerSteps(d, trace, n);
      NotePlaces(d, LedgerAt(d, trace, n), trace[n]);
      OrdersInLedger(d, trace[..n]);
      hide ChangeIn, TsOf, Put, SetDefault, Note, NoteAll;
    }
  }

  lemma NotePlaces(d: Delays, l: Ledger, e: Emitted)
    requires Note(d, l, e).orderly
    ensures l.orderly
    ensures |Note(d, l, e).placed.Keys| == |l.placed.Keys| + (if ChangeIn(Out(e)).Opens? then 1 else 0)
  {
    hide DueTo, MayCancel, MayFill;
    if e.Order? && e.change.Placed? {
      NewKey(l.placed, e.change.order);
    }
  }

  lemma NewKey(placed: map<OrderId, ActiveOrder>, o: ActiveOrder)
    requires o.id !in placed
    ensures |placed[o.id := o].Keys| == |placed.Keys| + 1
  {
    assert placed[o.id := o].Keys == placed.Keys + {o.id};
  }

  function IdsOf(active: seq<ActiveOrder>): (ids: set<OrderId>)
    ensures forall id :: id in ids <==> exists a :: a in active && a.id == id
  {
    set a | a in active :: a.id
  }

  lemma {:induction false} ActiveIdCount(active: seq<ActiveOrder>)
    requires forall i, j :: 0 <= i < j < |active| ==> active[i].id != active[j].id
    ensures |IdsOf(active)| == |active|
  {
    if active != [] {
      var n := |active| - 1;
      var init, last := active[..n], active[n];
      ActiveIdCount(init);
      assert active == init + [last];
      forall a | a in init ensures a.id != last.id {
        var i :| 0 <= i < n && active[i] == a;
      }
      assert IdsOf(active) == IdsOf(init) + {last.id};
    }
  }

  lemma ActiveIds(d: Delays, active: seq<ActiveOrder>, counter: nat, orders: OrderTable, l: Ledger)
    requires Coupled(d, active, counter, orders, l)
    ensures IdsOf(active) == l.placed.Keys - (l.cancelled + l.filled.Keys) && |IdsOf(active)| == |active|
    ensures l.cancelled + l.filled.Keys <= l.placed.Keys
  {
    ActiveIdsUnique(active, orders, l);
    ActiveIdCount(active);
    forall id | id in l.placed ensures id in IdsOf(active) <==> id !in l.cancelled && id !in l.filled {
      ActiveIffUnclosed(d, active, counter, orders, l, id);
    }
    hide IdsOf;
  }

  lemma Split(all: set<OrderId>, part: set<OrderId>)
    requires part <= all
    ensures |all| == |all - part| + |part|
  {
    assert all == (all - part) + part;
  }

  /** On logs without orders of their own, after every completed run the orders counted are exactly the orders still
      active and the orders with a closing time. */
  lemma OrdersBalance(cfg: Config, events: seq<Event>)
    requires !Run(cfg, events).raised && NoOwnOrders(events)
    ensures var t := TallyOf(Enriched(OutputOf(cfg, events)));
            t.orders == |Run(cfg, events).state.projector.active| + |t.closedAt.Keys|
  {
    hide Run, NoteAll, Coupled, OutputOf, Enriched, EnrichAll, FairPoints, TallyOf, ClosedByTrace, ClosedByInput,
      ClosedIn;
    var r, d, out := Run(cfg, events), DelaysOf(cfg), OutputOf(cfg, events);
    RunAgrees(cfg, events);
    var l := NoteAll(d, BLANK, r.trace);
    ActiveIds(d, r.state.projector.active, r.state.projector.counter, r.state.fills.orders, l);
    OutputOrders(cfg, events);
    OrdersInLedger(d, r.trace);
    EnrichedCount(out);
    Split(l.placed.Keys, l.cancelled + l.filled.Keys);
    var t := TallyOf(Enriched(out));
    forall id ensures id in t.closedAt.Keys <==> id in l.cancelled + l.filled.Keys {
      ClosedInLedger(d, r.trace, id);
      NothingClosedByInput(events, id);
      OutputCloses(cfg, events, id);
      EnrichedOutputCloses(out, id);
      ClosingTime(Enriched(out), id);
    }
    assert t.closedAt.Keys == l.cancelled + l.filled.Keys;
  }

  lemma EnrichedCount(out: seq<OutEvent>)
    ensures TallyOf(Enriched(out)).orders == TallyOf(out).orders
  {
    hide TallyOf, EnrichAll;
    if FairPoints(out) != [] {
      EnrichedOrders(FairPoints(out), out);
    }
  }

  lemma NothingClosedByInput(events: seq<Event>, id: OrderId)
    requires NoOwnOrders(events)
    ensures !ClosedByInput(events, id)
  {
    hide ChangeIn;
  }
}
