/** Conservation and priority of the fill model. */
module FillLaws {
  import opened Types
  import opened OrderBooks
  import opened FillModels

  // ----- sums over what a walk did -----

  function TotalReduction(t: seq<Touch>): real {
    if t == [] then 0.0 else t[0].reduction + TotalReduction(t[1..])
  }

  function TotalFilled(fills: seq<Fill>): real {
    if fills == [] then 0.0 else fills[0].size + TotalFilled(fills[1..])
  }

  function FilledBy(fills: seq<Fill>, id: OrderId): real {
    if fills == [] then 0.0 else (if fills[0].orderId == id then fills[0].size else 0.0) + FilledBy(fills[1..], id)
  }

  function ReducedBy(t: seq<Touch>, id: OrderId): real {
    if t == [] then 0.0 else (if t[0].id == id then t[0].reduction else 0.0) + ReducedBy(t[1..], id)
  }

  lemma {:induction false} TotalFilledConcat(a: seq<Fill>, b: seq<Fill>)
    ensures TotalFilled(a + b) == TotalFilled(a) + TotalFilled(b)
  {
    if a == [] {
      assert a + b == b;
    } else {
      assert (a + b)[1..] == a[1..] + b;
      TotalFilledConcat(a[1..], b);
    }
  }

  lemma {:induction false} FilledByConcat(a: seq<Fill>, b: seq<Fill>, id: OrderId)
    ensures FilledBy(a + b, id) == FilledBy(a, id) + FilledBy(b, id)
  {
    if a == [] {
      assert a + b == b;
    } else {
      assert (a + b)[1..] == a[1..] + b;
      FilledByConcat(a[1..], b, id);
    }
  }

  lemma {:induction false} ReducedByConcat(a: seq<Touch>, b: seq<Touch>, id: OrderId)
    ensures ReducedBy(a + b, id) == ReducedBy(a, id) + ReducedBy(b, id)
  {
    if a == [] {
      assert a + b == b;
    } else {
      assert (a + b)[1..] == a[1..] + b;
      ReducedByConcat(a[1..], b, id);
    }
  }

  // ----- conservation of the trade -----

  lemma ConsumeConserves(o: Tracked, flow: real)
    requires flow > 0.0
    ensures var c := Consume(o, flow);
            && flow == c.reduction + c.filled + c.flow
            && c.reduction >= 0.0 && c.filled >= 0.0 && c.flow >= 0.0
  {
  }

  lemma {:induction false} WalkConserves(orders: OrderTable, ranked: seq<Tracked>, flow: real, ctx: TradeContext,
                                         counter: nat)
    ensures var w := Walk(orders, ranked, flow, ctx, counter);
            && flow == TotalReduction(w.touches) + TotalFilled(w.fills) + w.flow
            && TotalReduction(w.touches) >= 0.0 && TotalFilled(w.fills) >= 0.0
            && (flow >= 0.0 ==> w.flow >= 0.0)
            && (flow <= 0.0 ==> w.fills == [] && w.touches == [])
    decreases |ranked|
  {
    if ranked != [] && flow > 0.0 {
      var c := Consume(ranked[0], flow);
      var fills := FillsOf(ctx, counter, c);
      var rest := Walk(Settle(orders, c), ranked[1..], c.flow, ctx, counter + |fills|);
      ConsumeConserves(ranked[0], flow);
      WalkConserves(Settle(orders, c), ranked[1..], c.flow, ctx, counter + |fills|);
      TotalFilledConcat(fills, rest.fills);
      var touch := Touch(c.order.id, c.reduction, c.filled);
      assert ([touch] + rest.touches)[1..] == rest.touches;
      if c.filled > 0.0 { assert fills[1..] == []; }
    }
  }

  /** Trade amount = queue reduction + fills + unused flow; so fills never exceed the traded amount. */
  lemma TradeFlowConserved(cfg: FillConfig, st: FillState, e: Event, fair: FairState)
    ensures var w := WalkOf(cfg, st, e, fair);
            && Volume(e) == TotalReduction(w.touches) + TotalFilled(w.fills) + w.flow
            && 0.0 <= TotalReduction(w.touches)
            && 0.0 <= TotalFilled(w.fills) <= Max(Volume(e), 0.0)
            && (Volume(e) >= 0.0 ==> w.flow >= 0.0)
  {
    WalkConserves(st.orders, Candidates(cfg, st, e), Volume(e), ContextOf(st, e, fair), st.counter);
  }

  // ----- what a walk does to each order -----

  /** The ranked entries are the current, distinct entries of the table. */
  ghost predicate Current(orders: OrderTable, ranked: seq<Tracked>) {
    && (forall i :: 0 <= i < |ranked| ==> ranked[i].id in orders && orders[ranked[i].id] == ranked[i])
    && (forall i, j :: 0 <= i < j < |ranked| ==> ranked[i].id != ranked[j].id)
  }

  lemma CurrentRest(orders: OrderTable, ranked: seq<Tracked>, flow: real)
    requires Current(orders, ranked) && ranked != []
    ensures Current(Settle(orders, Consume(ranked[0], flow)), ranked[1..])
  {
  }

  lemma CandidatesCurrent(cfg: FillConfig, st: FillState, e: Event)
    ensures Current(st.orders, Candidates(cfg, st, e))
  {
    match e.payload
    case Trade(Some(taker), price, _) =>
      var ranked := Candidates(cfg, st, e);
      forall i | 0 <= i < |ranked| ensures ranked[i].id in st.orders && st.orders[ranked[i].id] == ranked[i] {
        assert ranked[i] in ranked;
      }
      forall i, j | 0 <= i < j < |ranked| ensures ranked[i].id != ranked[j].id {
        BeforeAsymmetric(taker, ranked[i], ranked[j]);
      }
    case _ =>
  }

  /** Everything one walk does to the order `id`. */
  ghost predicate Absorbs(orders: OrderTable, w: Walked, id: OrderId)
    requires id in orders
  {
    var before, filled, reduced := orders[id], FilledBy(w.fills, id), ReducedBy(w.touches, id);
    && filled >= 0.0 && reduced >= 0.0
    && (filled > 0.0 ==> filled <= before.remaining && before.queueAhead - reduced <= 0.0)
    && (if id in w.orders then
          && w.orders[id] == before.(remaining := before.remaining - filled, queueAhead := before.queueAhead - reduced)
          && (filled > 0.0 ==> w.orders[id].remaining > DUST)
        else filled > 0.0 && before.remaining - filled <= DUST)
  }

  /** The walk behind its first order. */
  function Rest(orders: OrderTable, ranked: seq<Tracked>, flow: real, ctx: TradeContext, counter: nat): Walked
    requires ranked != []
  {
    var c := Consume(ranked[0], flow);
    Walk(Settle(orders, c), ranked[1..], c.flow, ctx, counter + |FillsOf(ctx, counter, c)|)
  }

  lemma WalkUnfold(orders: OrderTable, ranked: seq<Tracked>, flow: real, ctx: TradeContext, counter: nat, id: OrderId)
    requires ranked != [] && flow > 0.0
    ensures var w, rest := Walk(orders, ranked, flow, ctx, counter), Rest(orders, ranked, flow, ctx, counter);
            var c := Consume(ranked[0], flow);
            && w.orders == rest.orders
            && FilledBy(w.fills, id) == (if ranked[0].id == id then c.filled else 0.0) + FilledBy(rest.fills, id)
            && ReducedBy(w.touches, id) == (if ranked[0].id == id then c.reduction else 0.0)
               + ReducedBy(rest.touches, id)
  {
    var c := Consume(ranked[0], flow);
    var fills := FillsOf(ctx, counter, c);
    var rest := Rest(orders, ranked, flow, ctx, counter);
    FilledByConcat(fills, rest.fills, id);
    if c.filled > 0.0 { assert fills[1..] == []; }
    var touch := Touch(c.order.id, c.reduction, c.filled);
    assert ([touch] + rest.touches)[1..] == rest.touches;
  }

  lemma SettleOthers(orders: OrderTable, o: Tracked, flow: real, id: OrderId)
    requires o.id != id
    ensures var next := Settle(orders, Consume(o, flow));
            (id in next <==> id in orders) && (id in orders ==> next[id] == orders[id])
  {
  }

  lemma {:induction false} WalkOthers(orders: OrderTable, ranked: seq<Tracked>, flow: real, ctx: TradeContext,
                                      counter: nat, id: OrderId)
    requires forall i :: 0 <= i < |ranked| ==> ranked[i].id != id
    ensures var w := Walk(orders, ranked, flow, ctx, counter);
            && FilledBy(w.fills, id) == 0.0 && ReducedBy(w.touches, id) == 0.0
            && (id in w.orders <==> id in orders)
            && (id in orders ==> w.orders[id] == orders[id])
    decreases |ranked|
  {
    if ranked != [] && flow > 0.0 {
      var c := Consume(ranked[0], flow);
      WalkUnfold(orders, ranked, flow, ctx, counter, id);
      SettleOthers(orders, ranked[0], flow, id);
      hide Consume, Settle, FillsOf, Walk;
      WalkOthers(Settle(orders, c), ranked[1..], c.flow, ctx, counter + |FillsOf(ctx, counter, c)|, id);
    }
  }

  lemma WalkHeadAbsorbs(orders: OrderTable, ranked: seq<Tracked>, flow: real, ctx: TradeContext, counter: nat)
    requires Current(orders, ranked) && ranked != [] && flow > 0.0
    ensures Absorbs(orders, Walk(orders, ranked, flow, ctx, counter), ranked[0].id)
  {
    var c, id := Consume(ranked[0], flow), ranked[0].id;
    WalkUnfold(orders, ranked, flow, ctx, counter, id);
    WalkOthers(Settle(orders, c), ranked[1..], c.flow, ctx, counter + |FillsOf(ctx, counter, c)|, id);
  }

  lemma WalkTailAbsorbs(orders: OrderTable, ranked: seq<Tracked>, flow: real, ctx: TradeContext, counter: nat,
                        id: OrderId)
    requires ranked != [] && flow > 0.0 && id in orders && ranked[0].id != id
    requires Absorbs(Settle(orders, Consume(ranked[0], flow)), Rest(orders, ranked, flow, ctx, counter), id)
    ensures Absorbs(orders, Walk(orders, ranked, flow, ctx, counter), id)
  {
    WalkUnfold(orders, ranked, flow, ctx, counter, id);
  }

  lemma {:induction false} WalkAbsorbs(orders: OrderTable, ranked: seq<Tracked>, flow: real, ctx: TradeContext,
                                       counter: nat, id: OrderId)
    requires Current(orders, ranked) && id in orders
    ensures Absorbs(orders, Walk(orders, ranked, flow, ctx, counter), id)
    decreases |ranked|
  {
    if ranked == [] || flow <= 0.0 {
    } else if ranked[0].id == id {
      WalkHeadAbsorbs(orders, ranked, flow, ctx, counter);
    } else {
      var c := Consume(ranked[0], flow);
      CurrentRest(orders, ranked, flow);
      WalkAbsorbs(Settle(orders, c), ranked[1..], c.flow, ctx, counter + |FillsOf(ctx, counter, c)|, id);
      WalkTailAbsorbs(orders, ranked, flow, ctx, counter, id);
    }
  }

  lemma {:induction false} WalkAddsNone(orders: OrderTable, ranked: seq<Tracked>, flow: real, ctx: TradeContext,
                                        counter: nat)
    requires Current(orders, ranked)
    ensures Walk(orders, ranked, flow, ctx, counter).orders.Keys <= orders.Keys
    decreases |ranked|
  {
    if ranked != [] && flow > 0.0 {
      var c := Consume(ranked[0], flow);
      CurrentRest(orders, ranked, flow);
      WalkAddsNone(Settle(orders, c), ranked[1..], c.flow, ctx, counter + |FillsOf(ctx, counter, c)|);
    }
  }

  // ----- priority -----

  /** Filled completely and removed; an order with nothing left to fill gets no fill and stays. */
  ghost predicate Closed(w: Walked, o: Tracked) {
    FilledBy(w.fills, o.id) == Max(o.remaining, 0.0) && (o.id in w.orders <==> o.remaining <= 0.0)
  }

  ghost predicate Passed(w: Walked, o: Tracked) {
    o.id in w.orders && w.orders[o.id] == o && FilledBy(w.fills, o.id) == 0.0 && ReducedBy(w.touches, o.id) == 0.0
  }

  ghost predicate CutAt(w: Walked, ranked: seq<Tracked>, cut: nat) {
    && cut <= |ranked|
    && (forall i :: 0 <= i < cut ==> Closed(w, ranked[i]))
    && (forall i :: cut < i < |ranked| ==> Passed(w, ranked[i]))
  }

  /** Flow is left over only by an order that is closed. */
  lemma LeftoverCloses(orders: OrderTable, o: Tracked, flow: real)
    requires flow > 0.0 && Consume(o, flow).flow > 0.0 && o.id in orders
    ensures var c := Consume(o, flow);
            c.filled == Max(o.remaining, 0.0) && (o.id in Settle(orders, c) <==> o.remaining <= 0.0)
  {
  }

  lemma WalkHeadCloses(orders: OrderTable, ranked: seq<Tracked>, flow: real, ctx: TradeContext, counter: nat)
    requires Current(orders, ranked) && ranked != [] && flow > 0.0 && Consume(ranked[0], flow).flow > 0.0
    ensures Closed(Walk(orders, ranked, flow, ctx, counter), ranked[0])
  {
    hide Consume, Settle, FillsOf;
    var c, id := Consume(ranked[0], flow), ranked[0].id;
    LeftoverCloses(orders, ranked[0], flow);
    WalkUnfold(orders, ranked, flow, ctx, counter, id);
    WalkOthers(Settle(orders, c), ranked[1..], c.flow, ctx, counter + |FillsOf(ctx, counter, c)|, id);
  }

  lemma WalkPassesOn(orders: OrderTable, ranked: seq<Tracked>, flow: real, ctx: TradeContext, counter: nat, i: int)
    requires Current(orders, ranked) && flow > 0.0 && 0 < i < |ranked|
    ensures var w, rest := Walk(orders, ranked, flow, ctx, counter), Rest(orders, ranked, flow, ctx, counter);
            && (Closed(rest, ranked[1..][i - 1]) ==> Closed(w, ranked[i]))
            && (Passed(rest, ranked[1..][i - 1]) ==> Passed(w, ranked[i]))
  {
    hide Consume, Settle, FillsOf;
    assert ranked[1..][i - 1] == ranked[i];
    WalkUnfold(orders, ranked, flow, ctx, counter, ranked[i].id);
  }

  lemma SpentWalkPasses(orders: OrderTable, ranked: seq<Tracked>, flow: real, ctx: TradeContext, counter: nat)
    requires Current(orders, ranked) && flow <= 0.0
    ensures forall i :: 0 <= i < |ranked| ==> Passed(Walk(orders, ranked, flow, ctx, counter), ranked[i])
  {
  }

  /** A walk closes a prefix of the ranking completely, may leave one order open, and does not reach the rest. */
  lemma {:induction false} WalkCuts(orders: OrderTable, ranked: seq<Tracked>, flow: real, ctx: TradeContext,
                                    counter: nat)
    returns (cut: nat)
    requires Current(orders, ranked)
    ensures CutAt(Walk(orders, ranked, flow, ctx, counter), ranked, cut)
    decreases |ranked|
  {
    hide Consume, Settle, FillsOf, Closed, Passed;
    cut := 0;
    if flow <= 0.0 {
      SpentWalkPasses(orders, ranked, flow, ctx, counter);
    } else if ranked != [] {
      var c := Consume(ranked[0], flow);
      var orders1, counter1 := Settle(orders, c), counter + |FillsOf(ctx, counter, c)|;
      CurrentRest(orders, ranked, flow);
      if c.flow > 0.0 {
        var cut1 := WalkCuts(orders1, ranked[1..], c.flow, ctx, counter1);
        cut := cut1 + 1;
        WalkHeadCloses(orders, ranked, flow, ctx, counter);
      } else {
        SpentWalkPasses(orders1, ranked[1..], c.flow, ctx, counter1);
      }
      forall i | 0 < i < |ranked|
        ensures i < cut ==> Closed(Walk(orders, ranked, flow, ctx, counter), ranked[i])
        ensures i > cut ==> Passed(Walk(orders, ranked, flow, ctx, counter), ranked[i])
      {
        WalkPassesOn(orders, ranked, flow, ctx, counter, i);
      }
    }
  }

  ghost predicate GivenFlow(w: Walked, id: OrderId) {
    FilledBy(w.fills, id) != 0.0 || ReducedBy(w.touches, id) != 0.0
  }

  /** If a trade gives any flow to `b`, every eligible order `a` ranked before `b` is filled completely and removed;
      one that has nothing left to fill only lets the flow pass. */
  lemma PriceTimePriority(cfg: FillConfig, st: FillState, e: Event, fair: FairState, taker: Side, a: Tracked,
                          b: Tracked)
    requires e.payload.Trade? && e.payload.side == Some(taker)
    requires var all := EligibleSet(cfg, st.orders, taker, e.payload.price, e.ts); a in all && b in all
    requires Before(taker, a, b)
    ensures var w := WalkOf(cfg, st, e, fair);
            GivenFlow(w, b.id) ==>
              FilledBy(w.fills, a.id) == Max(a.remaining, 0.0) && (a.id in w.orders <==> a.remaining <= 0.0)
  {
    var ranked := Candidates(cfg, st, e);
    CandidatesCurrent(cfg, st, e);
    var cut := WalkCuts(st.orders, ranked, Volume(e), ContextOf(st, e, fair), st.counter);
    var i, j := RankPositions(taker, ranked, a, b);
  }

  lemma RankPositions(taker: Side, ranked: seq<Tracked>, a: Tracked, b: Tracked) returns (i: nat, j: nat)
    requires Ranked(taker, ranked) && a in ranked && b in ranked && Before(taker, a, b)
    ensures i < j < |ranked| && ranked[i] == a && ranked[j] == b
  {
    i :| 0 <= i < |ranked| && ranked[i] == a;
    j :| 0 <= j < |ranked| && ranked[j] == b;
    BeforeAsymmetric(taker, a, b);
  }

  // ----- the lifetime of an order -----

  /** What can happen to the fill model between two observations. */
  datatype FillInput =
    | OrderChange(change: OrderEvent, book: BookState)
    | Market(event: Event, fair: FairState)
    | Fee(bps: real)

  datatype FillRun = FillRun(state: FillState, fills: seq<Fill>, touches: seq<Touch>)

  ghost function RunFills(cfg: FillConfig, st: FillState, inputs: seq<FillInput>): FillRun {
    if inputs == [] then FillRun(st, [], []) else
    var r := RunFills(cfg, st, inputs[..|inputs| - 1]);
    match inputs[|inputs| - 1]
    case OrderChange(change, book) => r.(state := r.state.(orders := OnOrderEvent(cfg, r.state.orders, change, book)))
    case Market(e, fair) =>
      var w := WalkOf(cfg, r.state, e, fair);
      FillRun(AfterMarket(cfg, r.state, e, fair), r.fills + w.fills, r.touches + w.touches)
    case Fee(bps) => r.(state := r.state.(makerFeeBps := bps))
  }

  function AsWalk(r: FillRun): Walked {
    Walked(r.state.orders, r.fills, r.touches, 0.0)
  }

  ghost predicate LeavesAlone(inputs: seq<FillInput>, id: OrderId) {
    forall i :: 0 <= i < |inputs| && inputs[i].OrderChange? ==> inputs[i].change.order.id != id
  }

  lemma AbsorbsMore(orders: OrderTable, r: FillRun, w: Walked, id: OrderId)
    requires id in orders && Absorbs(orders, AsWalk(r), id)
    requires id in r.state.orders ==> Absorbs(r.state.orders, w, id)
    requires id !in r.state.orders ==>
               id !in w.orders && FilledBy(w.fills, id) == 0.0 && ReducedBy(w.touches, id) == 0.0
    ensures Absorbs(orders, Walked(w.orders, r.fills + w.fills, r.touches + w.touches, 0.0), id)
  {
    FilledByConcat(r.fills, w.fills, id);
    ReducedByConcat(r.touches, w.touches, id);
  }

  /** From any point of any run, until it is cancelled or placed anew: what an order loses in remaining size is
      exactly what it filled, what its queue loses is exactly the flow the queue absorbed, nothing fills before the
      queue is used up, and it disappears only by filling up to dust. */
  lemma {:induction false} LifetimeConserved(cfg: FillConfig, st: FillState, inputs: seq<FillInput>, id: OrderId)
    requires id in st.orders && LeavesAlone(inputs, id)
    ensures Absorbs(st.orders, AsWalk(RunFills(cfg, st, inputs)), id)
  {
    if inputs != [] {
      var n := |inputs| - 1;
      var r := RunFills(cfg, st, inputs[..n]);
      LifetimeConserved(cfg, st, inputs[..n], id);
      match inputs[n] {
        case OrderChange(change, book) =>
        case Market(e, fair) =>
          CandidatesCurrent(cfg, r.state, e);
          var ranked := Candidates(cfg, r.state, e);
          if id in r.state.orders {
            WalkAbsorbs(r.state.orders, ranked, Volume(e), ContextOf(r.state, e, fair), r.state.counter, id);
          } else {
            WalkOthers(r.state.orders, ranked, Volume(e), ContextOf(r.state, e, fair), r.state.counter, id);
          }
          AbsorbsMore(st.orders, r, WalkOf(cfg, r.state, e, fair), id);
        case Fee(bps) =>
      }
    }
  }

  /** The same, from placement: placed size = fills + remaining size, and a fill means that flow of at least
      `multiplier` times the visible depth, and of at least `multiplier` times the own size, went to the queue
      first. */
  lemma PlacedOrderConserved(cfg: FillConfig, st: FillState, o: ActiveOrder, sequence: nat, book: BookState,
                             inputs: seq<FillInput>)
    requires LeavesAlone(inputs, o.id)
    ensures var r := RunFills(cfg, st.(orders := OnOrderEvent(cfg, st.orders, Placed(sequence, o), book)), inputs);
            var filled, absorbed := FilledBy(r.fills, o.id), ReducedBy(r.touches, o.id);
            && (o.id in r.state.orders ==> o.size == filled + r.state.orders[o.id].remaining)
            && (o.id !in r.state.orders ==> 0.0 < filled && 0.0 <= o.size - filled <= DUST)
            && (filled > 0.0 ==>
                  && absorbed >= cfg.queueAheadMultiplier * QueueAt(book, o.side, o.price)
                  && absorbed >= cfg.queueAheadMultiplier * o.size)
  {
    var st1 := st.(orders := OnOrderEvent(cfg, st.orders, Placed(sequence, o), book));
    LifetimeConserved(cfg, st1, inputs, o.id);
    hide RunFills, FilledBy, ReducedBy, OnOrderEvent, QueueAt;
    PlacedAsTracked(cfg, st.orders, o, sequence, book);
    AbsorbsPlaced(cfg, st1.orders, AsWalk(RunFills(cfg, st1, inputs)), o, book);
  }

  lemma PlacedAsTracked(cfg: FillConfig, orders: OrderTable, o: ActiveOrder, sequence: nat, book: BookState)
    ensures var next := OnOrderEvent(cfg, orders, Placed(sequence, o), book);
            o.id in next && next[o.id] == Track(cfg, o, book)
  {
  }

  lemma AbsorbsPlaced(cfg: FillConfig, orders: OrderTable, w: Walked, o: ActiveOrder, book: BookState)
    requires o.id in orders && orders[o.id] == Track(cfg, o, book) && Absorbs(orders, w, o.id)
    ensures var filled, absorbed := FilledBy(w.fills, o.id), ReducedBy(w.touches, o.id);
            && (o.id in w.orders ==> o.size == filled + w.orders[o.id].remaining)
            && (o.id !in w.orders ==> 0.0 < filled && 0.0 <= o.size - filled <= DUST)
            && (filled > 0.0 ==>
                  && absorbed >= cfg.queueAheadMultiplier * QueueAt(book, o.side, o.price)
                  && absorbed >= cfg.queueAheadMultiplier * o.size)
  {
    hide FilledBy, ReducedBy, QueueAt;
  }
}
