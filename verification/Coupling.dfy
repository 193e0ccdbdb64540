/** The projector and the fill model keep separate copies of the open orders. Why they stay in agreement: an
    invariant over both and the ledger of emitted events, kept by every fill and every order event. */
module Coupling {
  import opened Types
  import opened OrderBooks
  import opened FillModels
  import opened FillLaws
  import opened Projectors
  import opened ProjectorLaws
  import opened Ledgers
  import opened Pipelines

  /** The tracked order is the placed one, but for what has been filled. */
  ghost predicate Tied(t: Tracked, o: ActiveOrder, filled: real) {
    && t.id == o.id && t.side == o.side && t.price == o.price && t.createdAt == o.createdAt && t.shockId == o.shockId
    && t.remaining + filled == o.size
  }

  ghost predicate ActiveAgrees(active: seq<ActiveOrder>, orders: OrderTable, l: Ledger) {
    forall a :: a in active ==>
      && a.id in l.placed && l.placed[a.id] == a && a.id !in l.cancelled && a.id !in l.filled && a.id in orders
  }

  ghost predicate TrackedAgrees(active: seq<ActiveOrder>, orders: OrderTable, l: Ledger) {
    forall id :: id in orders ==>
      && id in l.placed && id !in l.cancelled && Tied(orders[id], l.placed[id], Filled(l, id))
      && (if id in l.filled then orders[id].remaining > DUST else l.placed[id] in active)
  }

  ghost predicate LedgerSound(d: Delays, counter: nat, l: Ledger) {
    && l.orderly && l.caused
    && l.cancelled <= l.placed.Keys
    && (forall id :: id in l.placed ==> l.placed[id].id == id && id <= counter)
    && (forall id :: id in l.placed ==> DueTo(l.shocks, l.placed[id].shockId, l.placed[id].createdAt, d.place))
    && (forall id :: id in l.filled ==> id in l.placed && 0.0 < l.filled[id] <= l.placed[id].size)
  }

  /** An order leaves the fill model only by being cancelled or by filling up to dust. */
  ghost predicate NoneLost(orders: OrderTable, l: Ledger) {
    forall id :: id in l.placed && id !in l.cancelled && id !in orders ==>
      id in l.filled && l.placed[id].size - l.filled[id] <= DUST
  }

  ghost predicate Coupled(d: Delays, active: seq<ActiveOrder>, counter: nat, orders: OrderTable, l: Ledger) {
    && UniqueKeys(active)
    && LedgerSound(d, counter, l)
    && ActiveAgrees(active, orders, l)
    && TrackedAgrees(active, orders, l)
    && NoneLost(orders, l)
  }

  /** Where a placed order is, read off the ledger. */
  lemma PlacedAccounted(d: Delays, active: seq<ActiveOrder>, counter: nat, orders: OrderTable, l: Ledger, id: OrderId)
    requires Coupled(d, active, counter, orders, l) && id in l.placed
    ensures var o, filled := l.placed[id], Filled(l, id);
            && (o in active <==> id !in l.cancelled && filled == 0.0)
            && (id in orders <==> id !in l.cancelled && (filled == 0.0 || o.size - filled > DUST))
  {
  }

  // ----- removing a filled order -----

  lemma ActiveIdsUnique(active: seq<ActiveOrder>, orders: OrderTable, l: Ledger)
    requires UniqueKeys(active) && ActiveAgrees(active, orders, l)
    ensures forall i, j :: 0 <= i < j < |active| ==> active[i].id != active[j].id
  {
    forall i, j | 0 <= i < j < |active| ensures active[i].id != active[j].id {
      assert active[i] in active && active[j] in active;
      assert OrderKey(active[i]) != OrderKey(active[j]);
    }
  }

  lemma {:induction false} RemoveFilledIsWithoutId(active: seq<ActiveOrder>, id: OrderId)
    requires forall i, j :: 0 <= i < j < |active| ==> active[i].id != active[j].id
    ensures RemoveFilled(active, id) == WithoutId(active, id)
  {
    if active != [] {
      RemoveFilledIsWithoutId(active[1..], id);
      if active[0].id == id {
        assert forall o :: o in active[1..] ==> o.id != id;
        WithoutIdAbsent(active[1..], id);
      }
    }
  }

  lemma {:induction false} WithoutIdAbsent(active: seq<ActiveOrder>, id: OrderId)
    requires forall o :: o in active ==> o.id != id
    ensures WithoutId(active, id) == active
  {
    if active != [] {
      WithoutIdAbsent(active[1..], id);
    }
  }

  lemma {:induction false} WithoutIdKeepsKeys(active: seq<ActiveOrder>, id: OrderId)
    requires UniqueKeys(active)
    ensures UniqueKeys(WithoutId(active, id))
  {
    if active != [] {
      WithoutIdKeepsKeys(active[1..], id);
      var rest := WithoutId(active[1..], id);
      assert forall i :: 0 <= i < |rest| ==> rest[i] in rest;
      assert forall o :: o in rest ==> o in active[1..];
    }
  }

  // ----- one fill -----

  lemma QueueOnlyKeeps(d: Delays, active: seq<ActiveOrder>, counter: nat, orders: OrderTable, l: Ledger, o: Tracked,
                       queue: real)
    requires Coupled(d, active, counter, orders, l) && o.id in orders && orders[o.id] == o
    ensures Coupled(d, active, counter, orders[o.id := o.(queueAhead := queue)], l)
  {
  }

  lemma FillNoted(d: Delays, active: seq<ActiveOrder>, counter: nat, orders: OrderTable, l: Ledger, f: Fill, o: Tracked)
    requires Coupled(d, active, counter, orders, l) && o.id in orders && orders[o.id] == o
    requires f.orderId == o.id && f.shockId == o.shockId && 0.0 < f.size <= o.remaining &&
             f.ts - o.createdAt >= d.fill - d.place
    ensures LedgerSound(d, counter, Note(d, l, VirtualFill(f)))
  {
    var p := l.placed[o.id];
    assert DueTo(l.shocks, p.shockId, p.createdAt, d.place);
    assert Filled(l, o.id) >= 0.0;
    assert MayFill(l, f) && DueTo(l.shocks, f.shockId, f.ts, d.fill);
  }

  /** What a fill leaves in the fill model: the remainder, or nothing once it is dust. */
  ghost predicate Filling(orders: OrderTable, o: Tracked, f: Fill, next: OrderTable) {
    && o.id in orders && orders[o.id] == o && f.orderId == o.id && 0.0 < f.size <= o.remaining
    && (if o.remaining - f.size <= DUST then next == orders - {o.id}
        else o.id in next && next - {o.id} == orders - {o.id}
             && next[o.id] == o.(queueAhead := next[o.id].queueAhead, remaining := o.remaining - f.size))
  }

  lemma FillingElsewhere(orders: OrderTable, o: Tracked, f: Fill, next: OrderTable, id: OrderId)
    requires Filling(orders, o, f, next) && id != o.id
    ensures id in next <==> id in orders
    ensures id in next ==> next[id] == orders[id]
  {
    assert id in next <==> id in next - {o.id};
    assert id in orders <==> id in orders - {o.id};
    if id in next {
      assert next[id] == (next - {o.id})[id] == (orders - {o.id})[id] == orders[id];
    }
  }

  lemma FillLosesNone(d: Delays, active: seq<ActiveOrder>, counter: nat, orders: OrderTable, l: Ledger, f: Fill,
                      o: Tracked, next: OrderTable)
    requires Coupled(d, active, counter, orders, l) && Filling(orders, o, f, next)
    ensures NoneLost(next, Note(d, l, VirtualFill(f)))
  {
    var l' := Note(d, l, VirtualFill(f));
    forall id | id in l'.placed && id !in l'.cancelled && id !in next
      ensures id in l'.filled && l'.placed[id].size - l'.filled[id] <= DUST
    {
      if id == o.id {
        assert Tied(o, l.placed[id], Filled(l, id));
      } else {
        FillingElsewhere(orders, o, f, next, id);
      }
    }
  }

  lemma FillTracks(d: Delays, active: seq<ActiveOrder>, counter: nat, orders: OrderTable, l: Ledger, f: Fill,
                   o: Tracked, next: OrderTable)
    requires Coupled(d, active, counter, orders, l) && Filling(orders, o, f, next)
    ensures var left, l' := WithoutId(active, o.id), Note(d, l, VirtualFill(f));
            ActiveAgrees(left, next, l') && TrackedAgrees(left, next, l')
  {
    var left, l' := WithoutId(active, o.id), Note(d, l, VirtualFill(f));
    forall id | id in next
      ensures id in l'.placed && id !in l'.cancelled && Tied(next[id], l'.placed[id], Filled(l', id))
      ensures if id in l'.filled then next[id].remaining > DUST else l'.placed[id] in left
    {
      if id != o.id { FillingElsewhere(orders, o, f, next, id); }
    }
    forall a | a in left ensures a.id in next {
      FillingElsewhere(orders, o, f, next, a.id);
    }
  }

  /** A fill of a tracked order: the projector forgets it, the fill model keeps what is left above dust. */
  lemma FillKeeps(d: Delays, active: seq<ActiveOrder>, counter: nat, orders: OrderTable, l: Ledger, f: Fill,
                  o: Tracked, next: OrderTable)
    requires Coupled(d, active, counter, orders, l) && Filling(orders, o, f, next)
    requires f.shockId == o.shockId && f.ts - o.createdAt >= d.fill - d.place
    ensures Coupled(d, RemoveFilled(active, o.id), counter, next, Note(d, l, VirtualFill(f)))
  {
    FillNoted(d, active, counter, orders, l, f, o);
    ActiveIdsUnique(active, orders, l);
    RemoveFilledIsWithoutId(active, o.id);
    WithoutIdKeepsKeys(active, o.id);
    FillTracks(d, active, counter, orders, l, f, o, next);
    FillLosesNone(d, active, counter, orders, l, f, o, next);
  }

  function RemoveAll(active: seq<ActiveOrder>, fills: seq<Fill>): seq<ActiveOrder>
    decreases |fills|
  {
    if fills == [] then active else RemoveAll(RemoveFilled(active, fills[0].orderId), fills[1..])
  }

  function NoteFills(d: Delays, l: Ledger, fills: seq<Fill>): Ledger
    decreases |fills|
  {
    if fills == [] then l else NoteFills(d, Note(d, l, VirtualFill(fills[0])), fills[1..])
  }

  lemma ConsumeKeeps(d: Delays, active: seq<ActiveOrder>, counter: nat, orders: OrderTable, l: Ledger, o: Tracked,
                     flow: real, ctx: TradeContext, fillCounter: nat)
    requires Coupled(d, active, counter, orders, l) && o.id in orders && orders[o.id] == o
    requires flow > 0.0 && ctx.ts - o.createdAt >= d.fill - d.place
    ensures var c := Consume(o, flow);
            var fills := FillsOf(ctx, fillCounter, c);
            Coupled(d, RemoveAll(active, fills), counter, Settle(orders, c), NoteFills(d, l, fills))
  {
    var c := Consume(o, flow);
    var fills := FillsOf(ctx, fillCounter, c);
    var next := Settle(orders, c);
    if c.filled > 0.0 {
      assert fills[1..] == [];
      assert c.order == o.(queueAhead := c.order.queueAhead, remaining := o.remaining - c.filled);
      assert next - {o.id} == orders - {o.id};
      FillKeeps(d, active, counter, orders, l, fills[0], o, next);
    } else {
      QueueOnlyKeeps(d, active, counter, orders, l, o, c.order.queueAhead);
    }
  }

  lemma {:induction false} RemoveAllConcat(active: seq<ActiveOrder>, a: seq<Fill>, b: seq<Fill>)
    ensures RemoveAll(active, a + b) == RemoveAll(RemoveAll(active, a), b)
    decreases |a|
  {
    if a == [] {
      assert a + b == b;
    } else {
      assert (a + b)[1..] == a[1..] + b;
      RemoveAllConcat(RemoveFilled(active, a[0].orderId), a[1..], b);
    }
  }

  lemma {:induction false} NoteFillsConcat(d: Delays, l: Ledger, a: seq<Fill>, b: seq<Fill>)
    ensures NoteFills(d, l, a + b) == NoteFills(d, NoteFills(d, l, a), b)
    decreases |a|
  {
    if a == [] {
      assert a + b == b;
    } else {
      assert (a + b)[1..] == a[1..] + b;
      NoteFillsConcat(d, Note(d, l, VirtualFill(a[0])), a[1..], b);
    }
  }

  lemma WalkJoins(d: Delays, active: seq<ActiveOrder>, orders: OrderTable, l: Ledger,
                  ranked: seq<Tracked>, flow: real, ctx: TradeContext, fillCounter: nat)
    requires ranked != [] && flow > 0.0
    ensures var w, rest := Walk(orders, ranked, flow, ctx, fillCounter), Rest(orders, ranked, flow, ctx, fillCounter);
            var fills := FillsOf(ctx, fillCounter, Consume(ranked[0], flow));
            && w.orders == rest.orders
            && RemoveAll(active, w.fills) == RemoveAll(RemoveAll(active, fills), rest.fills)
            && NoteFills(d, l, w.fills) == NoteFills(d, NoteFills(d, l, fills), rest.fills)
  {
    var fills := FillsOf(ctx, fillCounter, Consume(ranked[0], flow));
    var rest := Rest(orders, ranked, flow, ctx, fillCounter);
    RemoveAllConcat(active, fills, rest.fills);
    NoteFillsConcat(d, l, fills, rest.fills);
  }

  lemma WalkStepKeeps(d: Delays, active: seq<ActiveOrder>, counter: nat, orders: OrderTable, l: Ledger,
                      ranked: seq<Tracked>, flow: real, ctx: TradeContext, fillCounter: nat, fills: seq<Fill>,
                      rest: Walked)
    requires ranked != [] && flow > 0.0
    requires fills == FillsOf(ctx, fillCounter, Consume(ranked[0], flow)) &&
             rest == Rest(orders, ranked, flow, ctx, fillCounter)
    requires Coupled(d, RemoveAll(RemoveAll(active, fills), rest.fills), counter, rest.orders,
                     NoteFills(d, NoteFills(d, l, fills), rest.fills))
    ensures var w := Walk(orders, ranked, flow, ctx, fillCounter);
            Coupled(d, RemoveAll(active, w.fills), counter, w.orders, NoteFills(d, l, w.fills))
  {
    WalkJoins(d, active, orders, l, ranked, flow, ctx, fillCounter);
  }

  lemma RestIs(orders: OrderTable, ranked: seq<Tracked>, flow: real, ctx: TradeContext, fillCounter: nat)
    requires ranked != []
    ensures Rest(orders, ranked, flow, ctx, fillCounter) ==
            Walk(Settle(orders, Consume(ranked[0], flow)), ranked[1..], Consume(ranked[0], flow).flow, ctx,
                 fillCounter + |FillsOf(ctx, fillCounter, Consume(ranked[0], flow))|)
  {
  }

  lemma RestIsCalled(orders: OrderTable, ranked: seq<Tracked>, flow: real, ctx: TradeContext, fillCounter: nat,
                     c: Consumption, fills: seq<Fill>, rest: Walked)
    requires ranked != [] && c == Consume(ranked[0], flow) && fills == FillsOf(ctx, fillCounter, c)
    requires rest == Rest(orders, ranked, flow, ctx, fillCounter)
    ensures rest == Walk(Settle(orders, c), ranked[1..], c.flow, ctx, fillCounter + |fills|)
  {
    hide Walk, Settle, Consume, FillsOf, Rest;
    RestIs(orders, ranked, flow, ctx, fillCounter);
  }

  ghost predicate Rested(ranked: seq<Tracked>, now: real, wait: real) {
    forall o :: o in ranked ==> now - o.createdAt >= wait
  }

  lemma RestedRest(ranked: seq<Tracked>, now: real, wait: real)
    requires Rested(ranked, now, wait) && ranked != []
    ensures Rested(ranked[1..], now, wait) && now - ranked[0].createdAt >= wait
  {
    assert ranked[0] in ranked;
  }

  /** A whole trade keeps the two books and the ledger in agreement. */
  lemma {:induction false} WalkKeeps(d: Delays, active: seq<ActiveOrder>, counter: nat, orders: OrderTable, l: Ledger,
                                     ranked: seq<Tracked>, flow: real, ctx: TradeContext, fillCounter: nat, w: Walked)
    requires Coupled(d, active, counter, orders, l) && Current(orders, ranked)
    requires Rested(ranked, ctx.ts, d.fill - d.place)
    requires w == Walk(orders, ranked, flow, ctx, fillCounter)
    ensures Coupled(d, RemoveAll(active, w.fills), counter, w.orders, NoteFills(d, l, w.fills))
    decreases |ranked|
  {
    if ranked != [] && flow > 0.0 {
      var c := Consume(ranked[0], flow);
      var fills := FillsOf(ctx, fillCounter, c);
      var rest := Rest(orders, ranked, flow, ctx, fillCounter);
      RestIsCalled(orders, ranked, flow, ctx, fillCounter, c, fills, rest);
      CurrentRest(orders, ranked, flow);
      RestedRest(ranked, ctx.ts, d.fill - d.place);
      ConsumeKeeps(d, active, counter, orders, l, ranked[0], flow, ctx, fillCounter);
      WalkKeeps(d, RemoveAll(active, fills), counter, Settle(orders, c), NoteFills(d, l, fills),
                ranked[1..], c.flow, ctx, fillCounter + |fills|, rest);
      WalkStepKeeps(d, active, counter, orders, l, ranked, flow, ctx, fillCounter, fills, rest);
    }
  }

  // ----- one order event -----

  ghost predicate SameMembers(a: seq<ActiveOrder>, s: set<ActiveOrder>) {
    forall o :: o in a <==> o in s
  }

  lemma CancelKeeps(d: Delays, active: seq<ActiveOrder>, counter: nat, orders: OrderTable, l: Ledger, o: ActiveOrder,
                    next: seq<ActiveOrder>, counter': nat, e: OrderEvent)
    requires Coupled(d, active, counter, orders, l) && o in active
    requires UniqueKeys(next) && SameMembers(next, AsSet(active) - {o}) && counter <= counter'
    requires e.Canceled? && e.order == o
    ensures Coupled(d, next, counter', orders - {o.id}, Note(d, l, Order(e)))
  {
    CancelNoted(d, active, counter, orders, l, o, counter', e);
    CancelAgrees(d, active, counter, orders, l, o, next, e);
    hide LedgerSound, ActiveAgrees, TrackedAgrees, UniqueKeys, Note;
    CancelLosesOne(d, active, counter, orders, l, o, e);
  }

  lemma CancelNoted(d: Delays, active: seq<ActiveOrder>, counter: nat, orders: OrderTable, l: Ledger, o: ActiveOrder,
                    counter': nat, e: OrderEvent)
    requires LedgerSound(d, counter, l) && ActiveAgrees(active, orders, l) && o in active && counter <= counter'
    requires e.Canceled? && e.order == o
    ensures LedgerSound(d, counter', Note(d, l, Order(e)))
  {
    hide DueTo;
    assert MayCancel(l, o);
  }

  lemma CancelAgrees(d: Delays, active: seq<ActiveOrder>, counter: nat, orders: OrderTable, l: Ledger, o: ActiveOrder,
                     next: seq<ActiveOrder>, e: OrderEvent)
    requires ActiveAgrees(active, orders, l) && TrackedAgrees(active, orders, l) && o in active
    requires SameMembers(next, AsSet(active) - {o})
    requires e.Canceled? && e.order == o
    ensures var l' := Note(d, l, Order(e));
            ActiveAgrees(next, orders - {o.id}, l') && TrackedAgrees(next, orders - {o.id}, l')
  {
    forall a | a in active && a.id == o.id ensures a == o {
      assert l.placed[a.id] == a;
    }
  }

  lemma CancelLosesOne(d: Delays, active: seq<ActiveOrder>, counter: nat, orders: OrderTable, l: Ledger,
                       o: ActiveOrder, e: OrderEvent)
    requires NoneLost(orders, l) && e.Canceled? && e.order == o
    ensures NoneLost(orders - {o.id}, Note(d, l, Order(e)))
  {
  }

  lemma PlaceNoted(d: Delays, counter: nat, l: Ledger, o: ActiveOrder, counter': nat, e: OrderEvent)
    requires LedgerSound(d, counter, l) && counter < o.id <= counter'
    requires DueTo(l.shocks, o.shockId, o.createdAt, d.place) && e.Placed? && e.order == o
    ensures LedgerSound(d, counter', Note(d, l, Order(e)))
    ensures o.id !in l.placed && o.id !in l.cancelled && o.id !in l.filled
  {
  }

  lemma PlaceAgrees(cfg: FillConfig, active: seq<ActiveOrder>, orders: OrderTable, l: Ledger, l': Ledger,
                    o: ActiveOrder, next: OrderTable, b: BookState)
    requires ActiveAgrees(active, orders, l) && TrackedAgrees(active, orders, l)
    requires o.id !in l.placed && o.id !in l.cancelled && o.id !in l.filled
    requires l'.placed == l.placed[o.id := o] && l'.cancelled == l.cancelled && l'.filled == l.filled
    requires next == orders[o.id := Track(cfg, o, b)]
    ensures ActiveAgrees(active + [o], next, l') && TrackedAgrees(active + [o], next, l')
  {
    assert forall x :: x in active + [o] <==> x in active || x == o;
    assert forall a :: a in active ==> a.id != o.id;
  }

  lemma PlaceKeeps(cfg: FillConfig, d: Delays, active: seq<ActiveOrder>, counter: nat, orders: OrderTable, l: Ledger,
                   o: ActiveOrder, counter': nat, e: OrderEvent, b: BookState)
    requires Coupled(d, active, counter, orders, l)
    requires counter < o.id <= counter' && OrderKey(o) !in ActiveKeys(active)
    requires DueTo(l.shocks, o.shockId, o.createdAt, d.place)
    requires e.Placed? && e.order == o
    ensures Coupled(d, active + [o], counter', OnOrderEvent(cfg, orders, e, b), Note(d, l, Order(e)))
  {
    AppendKeepsKeys(active, o);
    PlaceNoted(d, counter, l, o, counter', e);
    PlaceAgrees(cfg, active, orders, l, Note(d, l, Order(e)), o, OnOrderEvent(cfg, orders, e, b), b);
  }

  function NoteOrders(d: Delays, l: Ledger, events: seq<OrderEvent>): Ledger
    decreases |events|
  {
    if events == [] then l else NoteOrders(d, Note(d, l, Order(events[0])), events[1..])
  }

  lemma {:induction false} NoteOrdersConcat(d: Delays, l: Ledger, a: seq<OrderEvent>, b: seq<OrderEvent>)
    ensures NoteOrders(d, l, a + b) == NoteOrders(d, NoteOrders(d, l, a), b)
    decreases |a|
  {
    if a == [] {
      assert a + b == b;
    } else {
      assert (a + b)[1..] == a[1..] + b;
      NoteOrdersConcat(d, Note(d, l, Order(a[0])), a[1..], b);
    }
  }

  lemma {:induction false} FollowConcat(cfg: FillConfig, orders: OrderTable, a: seq<OrderEvent>, b: seq<OrderEvent>,
                                        book: BookState)
    ensures FollowEvents(cfg, orders, a + b, book) == FollowEvents(cfg, FollowEvents(cfg, orders, a, book), b, book)
    decreases |a|
  {
    if a == [] {
      assert a + b == b;
    } else {
      assert (a + b)[1..] == a[1..] + b;
      FollowConcat(cfg, OnOrderEvent(cfg, orders, a[0], book), a[1..], b, book);
    }
  }

  /** After the events `r.events` the fill model and the ledger agree with the active orders `next`. */
  ghost predicate Follows(cfg: FillConfig, d: Delays, orders: OrderTable, l: Ledger, r: SyncResult,
                          next: seq<ActiveOrder>, b: BookState) {
    Coupled(d, next, r.counter, FollowEvents(cfg, orders, r.events, b), NoteOrders(d, l, r.events))
  }

  lemma FollowsConcat(cfg: FillConfig, d: Delays, orders: OrderTable, l: Ledger, a: SyncResult, r: SyncResult,
                      b: BookState)
    requires Follows(cfg, d, FollowEvents(cfg, orders, a.events, b), NoteOrders(d, l, a.events), r, r.active, b)
    ensures Follows(cfg, d, orders, l, r.(events := a.events + r.events), r.active, b)
  {
    NoteOrdersConcat(d, l, a.events, r.events);
    FollowConcat(cfg, orders, a.events, r.events, b);
  }

  lemma EventFirst(cfg: FillConfig, d: Delays, orders: OrderTable, l: Ledger, e: OrderEvent, rest: seq<OrderEvent>,
                   b: BookState)
    ensures FollowEvents(cfg, orders, [e] + rest, b) == FollowEvents(cfg, OnOrderEvent(cfg, orders, e, b), rest, b)
    ensures NoteOrders(d, l, [e] + rest) == NoteOrders(d, Note(d, l, Order(e)), rest)
  {
    assert ([e] + rest)[1..] == rest;
  }

  // ----- the loops of sync -----

  lemma DropOne(kept: seq<ActiveOrder>, rest: seq<ActiveOrder>)
    requires UniqueKeys(kept + rest) && rest != []
    ensures UniqueKeys(kept + rest[1..]) && SameMembers(kept + rest[1..], AsSet(kept + rest) - {rest[0]})
    ensures rest[0] in kept + rest
  {
    var all, less := kept + rest, kept + rest[1..];
    forall i | 0 <= i < |less| ensures less[i] == all[if i < |kept| then i else i + 1] {}
    assert all[|kept|] == rest[0];
    forall o ensures o in less <==> o in all && o != rest[0] {
      if o in all && o != rest[0] {
        var i :| 0 <= i < |all| && all[i] == o;
        assert less[if i < |kept| then i else i - 1] == o;
      }
      if o in less {
        var i :| 0 <= i < |less| && less[i] == o;
      }
    }
  }

  lemma SweepStays(cfg: FillConfig, d: Delays, kept: seq<ActiveOrder>, rest: seq<ActiveOrder>, keys: set<Key>,
                   m: Market, counter: nat, orders: OrderTable, l: Ledger, b: BookState)
    requires rest != [] && Stays(rest[0], keys, m)
    requires var r := Sweep(rest[1..], keys, m, counter); Follows(cfg, d, orders, l, r, kept + [rest[0]] + r.active, b)
    ensures var r := Sweep(rest, keys, m, counter); Follows(cfg, d, orders, l, r, kept + r.active, b)
  {
    hide Coupled, FollowEvents, NoteOrders;
    var r := Sweep(rest[1..], keys, m, counter);
    assert kept + [rest[0]] + r.active == kept + ([rest[0]] + r.active);
  }

  lemma SweepCancels(cfg: FillConfig, d: Delays, kept: seq<ActiveOrder>, rest: seq<ActiveOrder>, keys: set<Key>,
                     m: Market, counter: nat, orders: OrderTable, l: Ledger, b: BookState)
    requires rest != [] && !Stays(rest[0], keys, m)
    requires var r := Sweep(rest[1..], keys, m, counter + 1);
             var e := Canceled(counter + 1, rest[0], m.now, StaleOrReplaced);
             Follows(cfg, d, OnOrderEvent(cfg, orders, e, b), Note(d, l, Order(e)), r, kept + r.active, b)
    ensures var r := Sweep(rest, keys, m, counter); Follows(cfg, d, orders, l, r, kept + r.active, b)
  {
    var e := Canceled(counter + 1, rest[0], m.now, StaleOrReplaced);
    EventFirst(cfg, d, orders, l, e, Sweep(rest[1..], keys, m, counter + 1).events, b);
  }

  lemma CoupledKeys(d: Delays, active: seq<ActiveOrder>, counter: nat, orders: OrderTable, l: Ledger)
    requires Coupled(d, active, counter, orders, l)
    ensures UniqueKeys(active)
  {
  }

  lemma {:induction false} SweepFollows(cfg: FillConfig, d: Delays, kept: seq<ActiveOrder>, rest: seq<ActiveOrder>,
                                        keys: set<Key>, m: Market, counter: nat, orders: OrderTable, l: Ledger,
                                        b: BookState)
    requires Coupled(d, kept + rest, counter, orders, l)
    ensures var r := Sweep(rest, keys, m, counter); Follows(cfg, d, orders, l, r, kept + r.active, b)
    decreases |rest|
  {
    hide Coupled, FollowEvents, NoteOrders;
    if rest == [] {
      SweepNothing(cfg, d, kept, keys, m, counter, orders, l, b);
    } else if Stays(rest[0], keys, m) {
      assert kept + rest == kept + [rest[0]] + rest[1..];
      SweepFollows(cfg, d, kept + [rest[0]], rest[1..], keys, m, counter, orders, l, b);
      SweepStays(cfg, d, kept, rest, keys, m, counter, orders, l, b);
    } else {
      var e := Canceled(counter + 1, rest[0], m.now, StaleOrReplaced);
      CoupledKeys(d, kept + rest, counter, orders, l);
      DropOne(kept, rest);
      CancelKeeps(d, kept + rest, counter, orders, l, rest[0], kept + rest[1..], counter + 1, e);
      SweepFollows(cfg, d, kept, rest[1..], keys, m, counter + 1, OnOrderEvent(cfg, orders, e, b),
                   Note(d, l, Order(e)), b);
      SweepCancels(cfg, d, kept, rest, keys, m, counter, orders, l, b);
    }
  }

  lemma SweepNothing(cfg: FillConfig, d: Delays, kept: seq<ActiveOrder>, keys: set<Key>, m: Market,
                     counter: nat, orders: OrderTable, l: Ledger, b: BookState)
    requires Coupled(d, kept + [], counter, orders, l)
    ensures var r := Sweep([], keys, m, counter); Follows(cfg, d, orders, l, r, kept + r.active, b)
  {
  }

  lemma {:induction false} CancelAllFollows(cfg: FillConfig, d: Delays, active: seq<ActiveOrder>, now: real,
                                            reason: Reason, counter: nat, orders: OrderTable, l: Ledger, b: BookState)
    requires Coupled(d, active, counter, orders, l)
    ensures var r := CancelAll(active, now, counter, reason); Follows(cfg, d, orders, l, r, r.active, b)
    decreases |active|
  {
    if active != [] {
      var e := Canceled(counter + 1, active[0], now, reason);
      assert [] + active == active && [] + active[1..] == active[1..];
      DropOne([], active);
      CancelKeeps(d, active, counter, orders, l, active[0], active[1..], counter + 1, e);
      CancelAllFollows(cfg, d, active[1..], now, reason, counter + 1, OnOrderEvent(cfg, orders, e, b),
                       Note(d, l, Order(e)), b);
      CancelAllSteps(cfg, d, active, now, reason, counter, orders, l, b);
    }
  }

  lemma CancelAllSteps(cfg: FillConfig, d: Delays, active: seq<ActiveOrder>, now: real, reason: Reason,
                       counter: nat, orders: OrderTable, l: Ledger, b: BookState)
    requires active != []
    requires var e := Canceled(counter + 1, active[0], now, reason);
             var r := CancelAll(active[1..], now, counter + 1, reason);
             Follows(cfg, d, OnOrderEvent(cfg, orders, e, b), Note(d, l, Order(e)), r, r.active, b)
    ensures var r := CancelAll(active, now, counter, reason); Follows(cfg, d, orders, l, r, r.active, b)
  {
    var e := Canceled(counter + 1, active[0], now, reason);
    EventFirst(cfg, d, orders, l, e, CancelAll(active[1..], now, counter + 1, reason).events, b);
  }

  ghost predicate QuotesDue(d: Delays, quotes: seq<Quote>, shocks: set<ShockId>, now: real) {
    forall q :: q in quotes ==> DueTo(shocks, q.shockId, now, d.place)
  }

  lemma RefreshOneFollows(cfg: FillConfig, d: Delays, pc: ProjectorConfig, active: seq<ActiveOrder>, q: Quote,
                          now: real, counter: nat, orders: OrderTable, l: Ledger, b: BookState)
    requires Coupled(d, active, counter, orders, l) && DueTo(l.shocks, q.shockId, now, d.place)
    ensures var r := RefreshOne(pc, active, q, now, counter);
            Follows(cfg, d, orders, l, r, r.active, b) && NoteOrders(d, l, r.events).shocks == l.shocks
  {
    var r := RefreshOne(pc, active, q, now, counter);
    var existing := Lookup(active, QuoteKey(q));
    if existing.Some? && KeepExisting(pc, existing.value, q, now) {
    } else if existing.Some? {
      ReplaceFollows(cfg, d, pc, active, existing.value, q, now, counter, orders, l, b);
    } else {
      PlaceFollows(cfg, d, active, NewOrder(pc, q, counter + 1, now), counter, counter + 1, orders, l, b);
    }
  }

  lemma PlaceFollows(cfg: FillConfig, d: Delays, active: seq<ActiveOrder>, o: ActiveOrder, counter: nat, counter': nat,
                     orders: OrderTable, l: Ledger, b: BookState)
    requires Coupled(d, active, counter, orders, l)
    requires counter < o.id == counter' && OrderKey(o) !in ActiveKeys(active) &&
             DueTo(l.shocks, o.shockId, o.createdAt, d.place)
    ensures var r := SyncResult(active + [o], counter', [Placed(counter', o)]);
            Follows(cfg, d, orders, l, r, r.active, b) && NoteOrders(d, l, r.events).shocks == l.shocks
  {
    var e := Placed(counter', o);
    PlaceKeeps(cfg, d, active, counter, orders, l, o, counter', e, b);
    EventFirst(cfg, d, orders, l, e, [], b);
    assert [e] + [] == [e];
  }

  lemma ReplaceCancels(d: Delays, active: seq<ActiveOrder>, prior: ActiveOrder, counter: nat, orders: OrderTable,
                       l: Ledger, cancel: OrderEvent)
    requires Coupled(d, active, counter, orders, l) && prior in active && cancel.Canceled? && cancel.order == prior
    ensures Coupled(d, WithoutKey(active, OrderKey(prior)), counter + 1, orders - {prior.id}, Note(d, l, Order(cancel)))
  {
    WithoutKeyKeepsKeys(active, OrderKey(prior));
    OnlyKeyHolder(active, prior);
    CancelKeeps(d, active, counter, orders, l, prior, WithoutKey(active, OrderKey(prior)), counter + 1, cancel);
  }

  lemma ReplaceFollows(cfg: FillConfig, d: Delays, pc: ProjectorConfig, active: seq<ActiveOrder>, prior: ActiveOrder,
                       q: Quote, now: real, counter: nat, orders: OrderTable, l: Ledger, b: BookState)
    requires Coupled(d, active, counter, orders, l) && DueTo(l.shocks, q.shockId, now, d.place)
    requires prior in active && OrderKey(prior) == QuoteKey(q)
    ensures var o := NewOrder(pc, q, counter + 2, now);
            var r := SyncResult(WithoutKey(active, QuoteKey(q)) + [o], counter + 2,
                                [Canceled(counter + 1, prior, now, Replaced), Placed(counter + 2, o)]);
            Follows(cfg, d, orders, l, r, r.active, b) && NoteOrders(d, l, r.events).shocks == l.shocks
  {
    hide Coupled, FollowEvents, NoteOrders;
    var cancel, o := Canceled(counter + 1, prior, now, Replaced), NewOrder(pc, q, counter + 2, now);
    var base, place := WithoutKey(active, QuoteKey(q)), Placed(counter + 2, o);
    assert [cancel] + [place] == [cancel, place];
    ReplaceCancels(d, active, prior, counter, orders, l, cancel);
    PlaceFollows(cfg, d, base, o, counter + 1, counter + 2, orders - {prior.id}, Note(d, l, Order(cancel)), b);
    CancelThenFollows(cfg, d, orders, l, cancel, SyncResult(base + [o], counter + 2, [place]), b);
  }

  lemma CancelThenFollows(cfg: FillConfig, d: Delays, orders: OrderTable, l: Ledger, cancel: OrderEvent,
                          r: SyncResult, b: BookState)
    requires cancel.Canceled? && Follows(cfg, d, OnOrderEvent(cfg, orders, cancel, b), Note(d, l, Order(cancel)), r,
                                         r.active, b)
    requires NoteOrders(d, Note(d, l, Order(cancel)), r.events).shocks == l.shocks
    ensures Follows(cfg, d, orders, l, r.(events := [cancel] + r.events), r.active, b)
    ensures NoteOrders(d, l, [cancel] + r.events).shocks == l.shocks
  {
    EventFirst(cfg, d, orders, l, cancel, r.events, b);
  }

  lemma OnlyKeyHolder(active: seq<ActiveOrder>, o: ActiveOrder)
    requires UniqueKeys(active) && o in active
    ensures SameMembers(WithoutKey(active, OrderKey(o)), AsSet(active) - {o})
  {
    forall x | x in active && OrderKey(x) == OrderKey(o) ensures x == o {
      var i :| 0 <= i < |active| && active[i] == x;
      var j :| 0 <= j < |active| && active[j] == o;
    }
  }

  lemma {:induction false} RefreshFollows(cfg: FillConfig, d: Delays, pc: ProjectorConfig, active: seq<ActiveOrder>,
                                          quotes: seq<Quote>, now: real, counter: nat, orders: OrderTable, l: Ledger,
                                          b: BookState)
    requires Coupled(d, active, counter, orders, l) && QuotesDue(d, quotes, l.shocks, now)
    ensures var r := Refresh(pc, active, quotes, now, counter); Follows(cfg, d, orders, l, r, r.active, b)
    decreases |quotes|
  {
    if quotes != [] {
      var one := RefreshOne(pc, active, quotes[0], now, counter);
      assert quotes[0] in quotes;
      RefreshOneFollows(cfg, d, pc, active, quotes[0], now, counter, orders, l, b);
      RefreshFollows(cfg, d, pc, one.active, quotes[1..], now, one.counter,
                     FollowEvents(cfg, orders, one.events, b), NoteOrders(d, l, one.events), b);
      FollowsConcat(cfg, d, orders, l, one, Refresh(pc, one.active, quotes[1..], now, one.counter), b);
    }
  }

  lemma {:induction false} OrdersKeepShocks(d: Delays, l: Ledger, events: seq<OrderEvent>)
    ensures NoteOrders(d, l, events).shocks == l.shocks
    decreases |events|
  {
    if events != [] {
      OrdersKeepShocks(d, Note(d, l, Order(events[0])), events[1..]);
    }
  }

  /** A whole sync, followed event by event, keeps the two books and the ledger in agreement. */
  lemma SyncFollows(cfg: FillConfig, d: Delays, pc: ProjectorConfig, st: ProjectorState, quotes: seq<Quote>, m: Market,
                    orders: OrderTable, l: Ledger, b: BookState)
    requires Coupled(d, st.active, st.counter, orders, l) && QuotesDue(d, quotes, l.shocks, m.now)
    ensures var r := Sync(pc, st, quotes, m); Follows(cfg, d, orders, l, r, r.active, b)
  {
    if !m.risk.allowQuote {
      CancelAllFollows(cfg, d, st.active, m.now, if m.risk.reason.Some? then m.risk.reason.value else RiskBlock,
                       st.counter, orders, l, b);
    } else {
      var desired := Desired(pc, quotes, m);
      forall q | q in desired ensures q in quotes {
        assert q in SafeQuotes(quotes, m);
      }
      var swept := Sweep(st.active, KeysOf(desired), m, st.counter);
      assert [] + st.active == st.active && [] + swept.active == swept.active;
      SweepFollows(cfg, d, [], st.active, KeysOf(desired), m, st.counter, orders, l, b);
      OrdersKeepShocks(d, l, swept.events);
      RefreshFollows(cfg, d, pc, swept.active, desired, m.now, swept.counter,
                     FollowEvents(cfg, orders, swept.events, b), NoteOrders(d, l, swept.events), b);
      FollowsConcat(cfg, d, orders, l, swept, Refresh(pc, swept.active, desired, m.now, swept.counter), b);
    }
  }
}
