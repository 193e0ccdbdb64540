/** The projector: keeps the active virtual orders in step with the desired quotes. */
module Projectors {
  import opened Types
  import opened OrderBooks

  datatype ProjectorConfig = ProjectorConfig(maxActiveOrders: int, ttlMs: real, minReplaceIntervalMs: real,
                                             replaceThresholdBps: real, sizeReplaceThresholdRatio: real)

  /** Active orders in insertion order; each (side, level) key occurs at most once. */
  datatype ProjectorState = ProjectorState(active: seq<ActiveOrder>, counter: nat)

  datatype Key = Key(side: Side, level: nat)

  function QuoteKey(q: Quote): Key {
    Key(q.side, q.level)
  }

  function OrderKey(o: ActiveOrder): Key {
    Key(o.side, o.level)
  }

  /** Everything a sync looks at besides the quotes. */
  datatype Market = Market(bid: Option<real>, ask: Option<real>, risk: RiskDecision, now: real)

  /** Post-only: a buy rests below the best ask, a sell above the best bid, and risk allows the side. */
  predicate PostOnlySafe(side: Side, price: real, m: Market) {
    if side.Buy? then m.risk.allowBuy && m.ask.Some? && price < m.ask.value
    else m.risk.allowSell && m.bid.Some? && price > m.bid.value
  }

  predicate KeepExisting(cfg: ProjectorConfig, o: ActiveOrder, q: Quote, now: real) {
    if now >= o.expiresAt then false
    else if o.price == q.price && o.size == q.size then true
    else if now - o.createdAt < cfg.minReplaceIntervalMs then true
    else
      var priceBps := Abs(q.price - o.price) / Max(o.price, 0.000000000001) * 10000.0;
      var sizeRatio := Abs(q.size - o.size) / Max(o.size, 0.000000000001);
      priceBps <= cfg.replaceThresholdBps && sizeRatio <= cfg.sizeReplaceThresholdRatio
  }

  function SafeQuotes(quotes: seq<Quote>, m: Market): (r: seq<Quote>)
    ensures forall q :: q in r ==> q in quotes && PostOnlySafe(q.side, q.price, m)
  {
    if quotes == [] then [] else
    var init, last := quotes[..|quotes| - 1], quotes[|quotes| - 1];
    assert quotes == init + [last];
    if PostOnlySafe(last.side, last.price, m) then SafeQuotes(init, m) + [last] else SafeQuotes(init, m)
  }

  /** The slice `quotes[:n]`; a negative bound drops from the end. */
  function SliceTo(quotes: seq<Quote>, n: int): (r: seq<Quote>)
    ensures r <= quotes
    ensures n >= 0 ==> |r| <= n
  {
    if n >= |quotes| then quotes
    else if n >= 0 then quotes[..n]
    else if |quotes| + n >= 0 then quotes[..|quotes| + n]
    else []
  }

  function Desired(cfg: ProjectorConfig, quotes: seq<Quote>, m: Market): seq<Quote> {
    SliceTo(SafeQuotes(quotes, m), cfg.maxActiveOrders)
  }

  function KeysOf(quotes: seq<Quote>): set<Key> {
    set q | q in quotes :: QuoteKey(q)
  }

  function ActiveKeys(active: seq<ActiveOrder>): set<Key> {
    set o | o in active :: OrderKey(o)
  }

  function Lookup(active: seq<ActiveOrder>, key: Key): (r: Option<ActiveOrder>)
    ensures r.Some? <==> key in ActiveKeys(active)
    ensures r.Some? ==> r.value in active && OrderKey(r.value) == key
  {
    if active == [] then None
    else if OrderKey(active[0]) == key then Some(active[0])
    else Lookup(active[1..], key)
  }

  function WithoutKey(active: seq<ActiveOrder>, key: Key): (r: seq<ActiveOrder>)
    ensures forall o :: o in r <==> o in active && OrderKey(o) != key
  {
    if active == [] then []
    else if OrderKey(active[0]) == key then WithoutKey(active[1..], key)
    else [active[0]] + WithoutKey(active[1..], key)
  }

  function WithoutId(active: seq<ActiveOrder>, id: OrderId): (r: seq<ActiveOrder>)
    ensures forall o :: o in r <==> o in active && o.id != id
  {
    if active == [] then []
    else if active[0].id == id then WithoutId(active[1..], id)
    else [active[0]] + WithoutId(active[1..], id)
  }

  datatype SyncResult = SyncResult(active: seq<ActiveOrder>, counter: nat, events: seq<OrderEvent>)

  predicate Stays(o: ActiveOrder, keys: set<Key>, m: Market) {
    OrderKey(o) in keys && m.now < o.expiresAt && PostOnlySafe(o.side, o.price, m)
  }

  /** First loop of sync: cancel what is not desired, expired or unsafe. */
  function Sweep(active: seq<ActiveOrder>, keys: set<Key>, m: Market, counter: nat): (r: SyncResult)
    ensures forall o :: o in r.active <==> o in active && Stays(o, keys, m)
  {
    if active == [] then SyncResult([], counter, []) else
    var o := active[0];
    if Stays(o, keys, m) then
      var rest := Sweep(active[1..], keys, m, counter);
      rest.(active := [o] + rest.active)
    else
      var rest := Sweep(active[1..], keys, m, counter + 1);
      rest.(events := [Canceled(counter + 1, o, m.now, StaleOrReplaced)] + rest.events)
  }

  function NewOrder(cfg: ProjectorConfig, q: Quote, id: OrderId, now: real): ActiveOrder {
    ActiveOrder(id, q.side, q.price, q.size, q.level, now, now + cfg.ttlMs, q.activation, q.inventorySkew, q.fair,
                q.shockId, q.shockDirection, q.shockAgeMs)
  }

  /** Second loop, one quote: keep, replace or place. */
  function RefreshOne(cfg: ProjectorConfig, active: seq<ActiveOrder>, q: Quote, now: real, counter: nat): SyncResult {
    var existing := Lookup(active, QuoteKey(q));
    if existing.Some? && KeepExisting(cfg, existing.value, q, now) then SyncResult(active, counter, [])
    else if existing.Some? then
      var o := NewOrder(cfg, q, counter + 2, now);
      SyncResult(WithoutKey(active, QuoteKey(q)) + [o], counter + 2,
                 [Canceled(counter + 1, existing.value, now, Replaced), Placed(counter + 2, o)])
    else
      var o := NewOrder(cfg, q, counter + 1, now);
      SyncResult(active + [o], counter + 1, [Placed(counter + 1, o)])
  }

  function Refresh(cfg: ProjectorConfig, active: seq<ActiveOrder>, quotes: seq<Quote>, now: real,
                   counter: nat): SyncResult
    decreases |quotes|
  {
    if quotes == [] then SyncResult(active, counter, []) else
    var one := RefreshOne(cfg, active, quotes[0], now, counter);
    var rest := Refresh(cfg, one.active, quotes[1..], now, one.counter);
    rest.(events := one.events + rest.events)
  }

  function CancelAll(active: seq<ActiveOrder>, now: real, counter: nat, reason: Reason): SyncResult {
    if active == [] then SyncResult([], counter, []) else
    var rest := CancelAll(active[1..], now, counter + 1, reason);
    rest.(events := [Canceled(counter + 1, active[0], now, reason)] + rest.events)
  }

  function Sync(cfg: ProjectorConfig, st: ProjectorState, quotes: seq<Quote>, m: Market): SyncResult {
    if !m.risk.allowQuote then
      CancelAll(st.active, m.now, st.counter, if m.risk.reason.Some? then m.risk.reason.value else RiskBlock)
    else
      var desired := Desired(cfg, quotes, m);
      var swept := Sweep(st.active, KeysOf(desired), m, st.counter);
      var refreshed := Refresh(cfg, swept.active, desired, m.now, swept.counter);
      refreshed.(events := swept.events + refreshed.events)
  }

  function RemoveFilled(active: seq<ActiveOrder>, id: OrderId): seq<ActiveOrder> {
    if active == [] then []
    else if active[0].id == id then active[1..]
    else [active[0]] + RemoveFilled(active[1..], id)
  }

  function MarketOf(b: BookState, risk: RiskDecision, now: real): Market {
    Market(BestBid(b), BestAsk(b), risk, now)
  }

  class OrderProjector {
    const cfg: ProjectorConfig
    var active: seq<ActiveOrder>
    var counter: nat

    function State(): ProjectorState
      reads this
    {
      ProjectorState(active, counter)
    }

    constructor (cfg: ProjectorConfig)
      ensures this.cfg == cfg && State() == ProjectorState([], 0)
    {
      this.cfg := cfg;
      active, counter := [], 0;
    }

    method SyncQuotes(quotes: seq<Quote>, book: OrderBook, risk: RiskDecision,
                      now: real) returns (events: seq<OrderEvent>)
      modifies this
      ensures SyncResult(active, counter, events) ==
                Sync(cfg, old(State()), quotes, MarketOf(old(book.State()), risk, now))
    {
      var m := MarketOf(book.State(), risk, now);
      if !risk.allowQuote {
        events := CancelEverything(now, if risk.reason.Some? then risk.reason.value else RiskBlock);
        return;
      }
      var desired := Desired(cfg, quotes, m);
      events := CancelUnwanted(KeysOf(desired), m);
      var more := PlaceDesired(desired, now);
      events := events + more;
    }

    method CancelUnwanted(keys: set<Key>, m: Market) returns (events: seq<OrderEvent>)
      modifies this
      ensures SyncResult(active, counter, events) == Sweep(old(active), keys, m, old(counter))
    {
      var orders, kept := active, [];
      events := [];
      ghost var total := Sweep(orders, keys, m, counter);
      assert orders[0..] == orders;
      for i := 0 to |orders|
        invariant active == orders && kept + Sweep(orders[i..], keys, m, counter).active == total.active
        invariant events + Sweep(orders[i..], keys, m, counter).events == total.events
        invariant Sweep(orders[i..], keys, m, counter).counter == total.counter
      {
        assert orders[i..][1..] == orders[i + 1..];
        ghost var rest := Sweep(orders[i..], keys, m, counter);
        var o := orders[i];
        if OrderKey(o) !in keys || m.now >= o.expiresAt || !PostOnlySafe(o.side, o.price, m) {
          counter := counter + 1;
          assert rest.events == [Canceled(counter, o, m.now, StaleOrReplaced)]
            + Sweep(orders[i + 1..], keys, m, counter).events;
          events := events + [Canceled(counter, o, m.now, StaleOrReplaced)];
        } else {
          assert rest.active == [o] + Sweep(orders[i + 1..], keys, m, counter).active;
          kept := kept + [o];
        }
      }
      active := kept;
    }

    method PlaceDesired(desired: seq<Quote>, now: real) returns (events: seq<OrderEvent>)
      modifies this
      ensures SyncResult(active, counter, events) == Refresh(cfg, old(active), desired, now, old(counter))
    {
      events := [];
      ghost var total := Refresh(cfg, active, desired, now, counter);
      assert desired[0..] == desired;
      for i := 0 to |desired|
        invariant Refresh(cfg, active, desired[i..], now, counter).active == total.active
        invariant Refresh(cfg, active, desired[i..], now, counter).counter == total.counter
        invariant events + Refresh(cfg, active, desired[i..], now, counter).events == total.events
      {
        assert desired[i..][1..] == desired[i + 1..];
        ghost var rest := Refresh(cfg, active, desired[i..], now, counter);
        var more := PlaceOne(desired[i], now);
        assert rest.events == more + Refresh(cfg, active, desired[i + 1..], now, counter).events;
        events := events + more;
      }
    }

    method PlaceOne(q: Quote, now: real) returns (events: seq<OrderEvent>)
      modifies this
      ensures SyncResult(active, counter, events) == RefreshOne(cfg, old(active), q, now, old(counter))
    {
      events := [];
      var key := QuoteKey(q);
      var existing := Lookup(active, key);
      if existing.Some? && KeepExisting(cfg, existing.value, q, now) {
        return;
      }
      if existing.Some? {
        counter := counter + 1;
        events := [Canceled(counter, existing.value, now, Replaced)];
        active := WithoutKey(active, key);
      }
      counter := counter + 1;
      var o := NewOrder(cfg, q, counter, now);
      active := active + [o];
      events := events + [Placed(counter, o)];
    }

    method CancelEverything(now: real, reason: Reason) returns (events: seq<OrderEvent>)
      modifies this
      ensures SyncResult(active, counter, events) == CancelAll(old(active), now, old(counter), reason)
    {
      events := [];
      ghost var total := CancelAll(active, now, counter, reason);
      assert active[0..] == active;
      for i := 0 to |active|
        invariant active == old(active)
        invariant CancelAll(active[i..], now, counter, reason).counter == total.counter
        invariant events + CancelAll(active[i..], now, counter, reason).events == total.events
      {
        assert active[i..][1..] == active[i + 1..];
        ghost var rest := CancelAll(active[i..], now, counter, reason);
        counter := counter + 1;
        assert rest.events == [Canceled(counter, active[i], now, reason)]
          + CancelAll(active[i + 1..], now, counter, reason).events;
        events := events + [Canceled(counter, active[i], now, reason)];
      }
      CancelAllEmpties(old(active), now, old(counter), reason);
      active := [];
    }

    method Forget(id: OrderId)
      modifies this`active
      ensures active == RemoveFilled(old(active), id)
    {
      var i := 0;
      while i < |active| && active[i].id != id
        invariant 0 <= i <= |active|
        invariant forall j :: 0 <= j < i ==> active[j].id != id
      {
        i := i + 1;
      }
      RemoveFilledAt(active, i, id);
      if i < |active| {
        active := active[..i] + active[i + 1..];
      }
    }
  }

  lemma {:induction false} RemoveFilledAt(active: seq<ActiveOrder>, i: nat, id: OrderId)
    requires i <= |active| && (i < |active| ==> active[i].id == id)
    requires forall j :: 0 <= j < i ==> active[j].id != id
    ensures RemoveFilled(active, id) == if i < |active| then active[..i] + active[i + 1..] else active
  {
    if i > 0 {
      RemoveFilledAt(active[1..], i - 1, id);
      var rest := active[1..];
      if i < |active| {
        assert [active[0]] + (rest[..i - 1] + rest[i..]) == active[..i] + active[i + 1..];
      }
    }
  }

  lemma {:induction false} CancelAllEmpties(active: seq<ActiveOrder>, now: real, counter: nat, reason: Reason)
    ensures CancelAll(active, now, counter, reason).active == []
  {
    if active != [] {
      CancelAllEmpties(active[1..], now, counter + 1, reason);
    }
  }
}
