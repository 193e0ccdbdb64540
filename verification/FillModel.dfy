/** The conservative queue fill model: one trade's volume shared among virtual orders in price-time order. */
module FillModels {
  import opened Types
  import opened OrderBooks
  import opened OrderIds

  datatype FillConfig = FillConfig(queueAheadMultiplier: real, minRestingMs: real)

  datatype Tracked = Tracked(id: OrderId, side: Side, price: real, remaining: real, createdAt: real,
                             queueAhead: real, fairAtCreation: real, activation: real,
                             shockId: Option<ShockId>, shockDirection: Direction, shockAgeMs: Option<real>)

  /** Orders are kept under their own id. */
  type OrderTable = m: map<OrderId, Tracked> | forall id :: id in m ==> m[id].id == id witness map[]

  datatype FillState = FillState(orders: OrderTable, counter: nat, makerFeeBps: real)

  const DUST := 0.000000000001

  // ----- placing and cancelling -----

  function InitialQueue(cfg: FillConfig, visible: real, size: real): real {
    Max(visible * cfg.queueAheadMultiplier, size * cfg.queueAheadMultiplier)
  }

  function Track(cfg: FillConfig, o: ActiveOrder, b: BookState): Tracked {
    Tracked(o.id, o.side, o.price, o.size, o.createdAt, InitialQueue(cfg, QueueAt(b, o.side, o.price), o.size),
            o.fair, o.activation, o.shockId, o.shockDirection, o.shockAgeMs)
  }

  /** What the model does with one order event of the projector. */
  function OnOrderEvent(cfg: FillConfig, orders: OrderTable, change: OrderEvent, b: BookState): OrderTable {
    match change
    case Placed(_, o) => orders[o.id := Track(cfg, o, b)]
    case Canceled(_, o, _, _) => orders - {o.id}
  }

  // ----- who may trade, and in which order -----

  predicate Eligible(cfg: FillConfig, o: Tracked, taker: Side, price: real, now: real) {
    && now - o.createdAt >= cfg.minRestingMs
    && o.side == Opposite(taker)
    && (if taker.Sell? then price <= o.price else price >= o.price)
  }

  function EligibleSet(cfg: FillConfig, orders: OrderTable, taker: Side, price: real, now: real): set<Tracked> {
    set id | id in orders && Eligible(cfg, orders[id], taker, price, now) :: orders[id]
  }

  /** Best price first, then age, then the text of the id. */
  predicate Before(taker: Side, a: Tracked, b: Tracked) {
    if a.price != b.price then (if taker.Sell? then a.price > b.price else a.price < b.price)
    else if a.createdAt != b.createdAt then a.createdAt < b.createdAt
    else IdBefore(a.id, b.id)
  }

  lemma BeforeTotal(taker: Side, a: Tracked, b: Tracked)
    requires a.id != b.id
    ensures Before(taker, a, b) || Before(taker, b, a)
  {
    IdTotal(a.id, b.id);
  }

  lemma BeforeAsymmetric(taker: Side, a: Tracked, b: Tracked)
    ensures !(Before(taker, a, b) && Before(taker, b, a))
  {
    IdAsymmetric(a.id, b.id);
  }

  lemma BeforeTransitive(taker: Side, a: Tracked, b: Tracked, c: Tracked)
    requires Before(taker, a, b) && Before(taker, b, c)
    ensures Before(taker, a, c)
  {
    if a.price == b.price == c.price && a.createdAt == b.createdAt == c.createdAt {
      IdTransitive(a.id, b.id, c.id);
    }
  }

  ghost predicate DistinctIds(s: set<Tracked>) {
    forall a, b :: a in s && b in s && a.id == b.id ==> a == b
  }

  ghost predicate IsFirst(taker: Side, s: set<Tracked>, m: Tracked) {
    m in s && forall o :: o in s && o != m ==> Before(taker, m, o)
  }

  ghost predicate Ranked(taker: Side, r: seq<Tracked>) {
    forall i, j :: 0 <= i < j < |r| ==> Before(taker, r[i], r[j])
  }

  ghost predicate Lists(r: seq<Tracked>, s: set<Tracked>) {
    forall o :: o in r <==> o in s
  }

  lemma {:induction false} FindFirst(taker: Side, s: set<Tracked>) returns (m: Tracked)
    requires s != {} && DistinctIds(s)
    ensures IsFirst(taker, s, m)
    decreases |s|
  {
    var x := SomeMember(s);
    m := x;
    if s - {x} != {} {
      var y := FindFirst(taker, s - {x});
      m := if Before(taker, x, y) then x else y;
      BeforeTotal(taker, x, y);
      forall o | o in s && o != m ensures Before(taker, m, o) {
        if m == x && o != y {
          assert o in s - {x};
          BeforeTransitive(taker, x, y, o);
        }
      }
    }
    assert forall o :: o in s ==> o == x || o in s - {x};
  }

  /** The price-time ranking of a set of orders. */
  ghost function Ranking(taker: Side, s: set<Tracked>): (r: seq<Tracked>)
    requires DistinctIds(s)
    ensures Ranked(taker, r) && Lists(r, s)
    decreases |s|
  {
    if s == {} then [] else
    assert exists m :: IsFirst(taker, s, m) by {
      var m := FindFirst(taker, s);
    }
    var m :| IsFirst(taker, s, m);
    var rest := Ranking(taker, s - {m});
    assert forall i :: 0 <= i < |rest| ==> rest[i] in rest;
    assert forall o :: o in s <==> o == m || o in s - {m};
    [m] + rest
  }

  lemma TableIds(cfg: FillConfig, orders: OrderTable, taker: Side, price: real, now: real)
    ensures DistinctIds(EligibleSet(cfg, orders, taker, price, now))
  {
  }

  lemma ListsEmpty(r: seq<Tracked>, s: set<Tracked>)
    requires Lists(r, s)
    ensures r == [] <==> s == {}
  {
    if r != [] { assert r[0] in r; }
  }

  /** There is only one ranking. */
  lemma {:induction false} RankingUnique(taker: Side, r: seq<Tracked>, t: seq<Tracked>, s: set<Tracked>)
    requires Ranked(taker, r) && Ranked(taker, t) && Lists(r, s) && Lists(t, s)
    ensures r == t
    decreases |r|
  {
    ListsEmpty(r, s);
    ListsEmpty(t, s);
    if s != {} {
      assert r[0] in t && t[0] in r;
      BeforeAsymmetric(taker, r[0], t[0]);
      assert r[0] == t[0];
      var m := r[0];
      forall o ensures o in r[1..] <==> o in s - {m} {
        assert o in r <==> o == m || o in r[1..];
        if o in r[1..] { var i :| 1 <= i < |r| && r[i] == o; }
      }
      forall o ensures o in t[1..] <==> o in s - {m} {
        assert o in t <==> o == m || o in t[1..];
        if o in t[1..] { var i :| 1 <= i < |t| && t[i] == o; }
      }
      RankingUnique(taker, r[1..], t[1..], s - {m});
    }
  }

  // ----- spending a trade's volume -----

  datatype Consumption = Consumption(order: Tracked, reduction: real, filled: real, flow: real)

  function Consume(o: Tracked, flow: real): Consumption {
    var reduction := if o.queueAhead > 0.0 then Min(o.queueAhead, flow) else 0.0;
    var queue, left := o.queueAhead - reduction, flow - reduction;
    var waiting := o.(queueAhead := queue);
    if queue > 0.0 || left <= 0.0 then Consumption(waiting, reduction, 0.0, left) else
    var size := Min(o.remaining, left);
    if size <= 0.0 then Consumption(waiting, reduction, 0.0, left)
    else Consumption(waiting.(remaining := o.remaining - size), reduction, size, left - size)
  }

  datatype TradeContext = TradeContext(ts: real, venue: string, symbol: string, fair: Option<real>, feeBps: real)

  function MakeFill(ctx: TradeContext, sequence: nat, c: Consumption): Fill {
    var o := c.order;
    Fill(sequence, o.id, o.side, o.price, c.filled, ctx.ts, ctx.venue, ctx.symbol,
         o.price * c.filled * ctx.feeBps / 10000.0, ctx.feeBps, o.queueAhead, ctx.fair, None, None, None,
         o.activation, o.shockId, o.shockDirection, o.shockAgeMs)
  }

  /** A fill that leaves no more than dust closes the order. */
  function Settle(orders: OrderTable, c: Consumption): OrderTable {
    if c.filled > 0.0 && c.order.remaining <= DUST then orders - {c.order.id} else orders[c.order.id := c.order]
  }

  function FillsOf(ctx: TradeContext, counter: nat, c: Consumption): seq<Fill> {
    if c.filled > 0.0 then [MakeFill(ctx, counter + 1, c)] else []
  }

  /** `touches` lists every order that was offered flow, with what it absorbed. */
  datatype Touch = Touch(id: OrderId, reduction: real, filled: real)

  datatype Walked = Walked(orders: OrderTable, fills: seq<Fill>, touches: seq<Touch>, flow: real)

  function Walk(orders: OrderTable, ranked: seq<Tracked>, flow: real, ctx: TradeContext, counter: nat): Walked
    decreases |ranked|
  {
    if ranked == [] || flow <= 0.0 then Walked(orders, [], [], flow) else
    var c := Consume(ranked[0], flow);
    var fills := FillsOf(ctx, counter, c);
    var rest := Walk(Settle(orders, c), ranked[1..], c.flow, ctx, counter + |fills|);
    Walked(rest.orders, fills + rest.fills, [Touch(c.order.id, c.reduction, c.filled)] + rest.touches, rest.flow)
  }

  function ContextOf(st: FillState, e: Event, fair: FairState): TradeContext {
    TradeContext(e.ts, e.venue, e.symbol, fair.fair, st.makerFeeBps)
  }

  ghost function Candidates(cfg: FillConfig, st: FillState, e: Event): seq<Tracked> {
    match e.payload
    case Trade(Some(taker), price, _) =>
      TableIds(cfg, st.orders, taker, price, e.ts);
      Ranking(taker, EligibleSet(cfg, st.orders, taker, price, e.ts))
    case _ => []
  }

  function Volume(e: Event): real {
    if e.payload.Trade? then e.payload.amount else 0.0
  }

  ghost function WalkOf(cfg: FillConfig, st: FillState, e: Event, fair: FairState): Walked {
    Walk(st.orders, Candidates(cfg, st, e), Volume(e), ContextOf(st, e, fair), st.counter)
  }

  ghost function AfterMarket(cfg: FillConfig, st: FillState, e: Event, fair: FairState): FillState {
    var w := WalkOf(cfg, st, e, fair);
    FillState(w.orders, st.counter + |w.fills|, st.makerFeeBps)
  }

  // ----- the object -----

  /** Some element of the set, and all others. */
  method TakeOne<T(==)>(s: set<T>) returns (x: T, rest: set<T>)
    requires s != {}
    ensures x in s && rest == s - {x}
  {
    x :| x in s;
    rest := s - {x};
  }

  function InsertRanked(taker: Side, x: Tracked, r: seq<Tracked>): seq<Tracked> {
    if r == [] || Before(taker, x, r[0]) then [x] + r else [r[0]] + InsertRanked(taker, x, r[1..])
  }

  lemma {:induction false} InsertKeepsRank(taker: Side, x: Tracked, r: seq<Tracked>)
    requires Ranked(taker, r) && forall o :: o in r ==> o.id != x.id
    ensures var t := InsertRanked(taker, x, r);
            Ranked(taker, t) && forall o :: o in t <==> o == x || o in r
  {
    if r == [] {
    } else if Before(taker, x, r[0]) {
      forall i | 0 <= i < |r| ensures Before(taker, x, r[i]) {
        if i > 0 { BeforeTransitive(taker, x, r[0], r[i]); }
      }
    } else {
      assert r[0] in r;
      BeforeTotal(taker, x, r[0]);
      InsertKeepsRank(taker, x, r[1..]);
      var rest := InsertRanked(taker, x, r[1..]);
      assert r == [r[0]] + r[1..];
      assert forall i :: 0 <= i < |rest| ==> rest[i] in rest;
    }
  }

  /** `total` is what has been filled so far followed by the walk over the ranking from position `i`. */
  ghost predicate Spends(total: Walked, fills: seq<Fill>, orders: OrderTable, ranked: seq<Tracked>, i: nat,
                         flow: real, ctx: TradeContext, counter: nat)
    requires i <= |ranked|
  {
    var rest := Walk(orders, ranked[i..], flow, ctx, counter);
    total.orders == rest.orders && total.fills == fills + rest.fills
  }

  lemma SpendOne(total: Walked, fills: seq<Fill>, orders: OrderTable, ranked: seq<Tracked>, i: nat, flow: real,
                 ctx: TradeContext, counter: nat)
    requires i < |ranked| && flow > 0.0 && Spends(total, fills, orders, ranked, i, flow, ctx, counter)
    ensures var c := Consume(ranked[i], flow);
            var more := FillsOf(ctx, counter, c);
            Spends(total, fills + more, Settle(orders, c), ranked, i + 1, c.flow, ctx, counter + |more|)
  {
    assert ranked[i..][1..] == ranked[i + 1..];
  }

  lemma SpendNothing(total: Walked, orders: OrderTable, ranked: seq<Tracked>, flow: real, ctx: TradeContext,
                     counter: nat)
    requires total == Walk(orders, ranked, flow, ctx, counter)
    ensures Spends(total, [], orders, ranked, 0, flow, ctx, counter)
  {
    hide Walk;
    assert ranked[0..] == ranked && [] + total.fills == total.fills;
  }

  lemma SpendEnds(total: Walked, fills: seq<Fill>, orders: OrderTable, ranked: seq<Tracked>, i: nat, flow: real,
                  ctx: TradeContext, counter: nat)
    requires i <= |ranked| && Spends(total, fills, orders, ranked, i, flow, ctx, counter)
    requires i == |ranked| || flow <= 0.0
    ensures total.orders == orders && total.fills == fills
  {
    assert Walk(orders, ranked[i..], flow, ctx, counter) == Walked(orders, [], [], flow);
    assert fills + [] == fills;
  }

  class ConservativeQueueFillModel {
    const cfg: FillConfig
    var makerFeeBps: real
    var orders: OrderTable
    var counter: nat

    function State(): FillState
      reads this
    {
      FillState(orders, counter, makerFeeBps)
    }

    constructor (cfg: FillConfig, makerFeeBps: real)
      ensures this.cfg == cfg && State() == FillState(map[], 0, makerFeeBps)
    {
      this.cfg, this.makerFeeBps := cfg, makerFeeBps;
      orders, counter := map[], 0;
    }

    method SetMakerFeeBps(bps: real)
      modifies this`makerFeeBps
      ensures makerFeeBps == bps
    {
      makerFeeBps := bps;
    }

    method OnVirtualOrder(sequence: nat, o: ActiveOrder, book: OrderBook)
      modifies this`orders
      ensures orders == OnOrderEvent(cfg, old(orders), Placed(sequence, o), old(book.State()))
    {
      var queue := InitialQueue(cfg, QueueAt(book.State(), o.side, o.price), o.size);
      orders := orders[o.id := Tracked(o.id, o.side, o.price, o.size, o.createdAt, queue, o.fair, o.activation,
                                       o.shockId, o.shockDirection, o.shockAgeMs)];
    }

    method OnCancel(id: OrderId)
      modifies this`orders
      ensures orders == old(orders) - {id}
    {
      orders := orders - {id};
    }

    method EligibleOrders(taker: Side, price: real, now: real) returns (ranked: seq<Tracked>)
      ensures DistinctIds(EligibleSet(cfg, orders, taker, price, now))
      ensures ranked == Ranking(taker, EligibleSet(cfg, orders, taker, price, now))
    {
      ranked := [];
      var todo := orders.Keys;
      while todo != {}
        invariant todo <= orders.Keys
        invariant Ranked(taker, ranked)
        invariant forall o :: o in ranked <==>
                    o.id in orders && o == orders[o.id] && o.id !in todo && Eligible(cfg, o, taker, price, now)
        decreases |todo|
      {
        var id;
        id, todo := TakeOne(todo);
        if Eligible(cfg, orders[id], taker, price, now) {
          InsertKeepsRank(taker, orders[id], ranked);
          ranked := InsertRanked(taker, orders[id], ranked);
        }
      }
      TableIds(cfg, orders, taker, price, now);
      var all := EligibleSet(cfg, orders, taker, price, now);
      RankingUnique(taker, ranked, Ranking(taker, all), all);
    }

    method ConsumeOrder(o: Tracked, flow: real, ctx: TradeContext) returns (fills: seq<Fill>, left: real)
      modifies this`orders, this`counter
      ensures var c := Consume(o, flow);
              && orders == Settle(old(orders), c)
              && fills == FillsOf(ctx, old(counter), c)
              && counter == old(counter) + |fills|
              && left == c.flow
    {
      var order := o;
      left := flow;
      var reduction := 0.0;
      if order.queueAhead > 0.0 {
        reduction := Min(order.queueAhead, left);
        order := order.(queueAhead := order.queueAhead - reduction);
        left := left - reduction;
      }
      orders := orders[order.id := order];
      if order.queueAhead > 0.0 || left <= 0.0 {
        return [], left;
      }
      var size := Min(order.remaining, left);
      if size <= 0.0 {
        return [], left;
      }
      left := left - size;
      order := order.(remaining := order.remaining - size);
      orders := orders[order.id := order];
      counter := counter + 1;
      fills := [MakeFill(ctx, counter, Consumption(order, reduction, size, left))];
      if order.remaining <= DUST {
        orders := orders - {order.id};
      }
    }

    method SpendVolume(ranked: seq<Tracked>, amount: real, ctx: TradeContext) returns (fills: seq<Fill>)
      modifies this`orders, this`counter
      ensures var w := Walk(old(orders), ranked, amount, ctx, old(counter));
              orders == w.orders && fills == w.fills && counter == old(counter) + |fills|
    {
      hide Walk, Spends, Consume, Settle, FillsOf;
      fills := [];
      var i, left := 0, amount;
      ghost var total := Walk(orders, ranked, amount, ctx, counter);
      SpendNothing(total, orders, ranked, amount, ctx, counter);
      while i < |ranked| && left > 0.0
        invariant 0 <= i <= |ranked|
        invariant Spends(total, fills, orders, ranked, i, left, ctx, counter)
        invariant counter == old(counter) + |fills|
      {
        SpendOne(total, fills, orders, ranked, i, left, ctx, counter);
        var more;
        more, left := ConsumeOrder(ranked[i], left, ctx);
        fills := fills + more;
        i := i + 1;
      }
      SpendEnds(total, fills, orders, ranked, i, left, ctx, counter);
    }

    method OnMarketEvent(e: Event, fair: FairState) returns (fills: seq<Fill>)
      modifies this`orders, this`counter
      ensures State() == AfterMarket(cfg, old(State()), e, fair)
      ensures fills == WalkOf(cfg, old(State()), e, fair).fills
    {
      fills := [];
      match e.payload {
        case Trade(Some(taker), price, amount) =>
          var ranked := EligibleOrders(taker, price, e.ts);
          fills := SpendVolume(ranked, amount, ContextOf(State(), e, fair));
        case _ =>
          assert Candidates(cfg, State(), e) == [];
      }
    }
  }
}
