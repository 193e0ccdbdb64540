/** What every sync of the projector establishes. */
module ProjectorLaws {
  import opened Types
  import opened Projectors

  ghost predicate UniqueKeys(active: seq<ActiveOrder>) {
    forall i, j :: 0 <= i < j < |active| ==> OrderKey(active[i]) != OrderKey(active[j])
  }

  // ----- unique keys are kept -----

  lemma {:induction false} WithoutKeyKeepsKeys(active: seq<ActiveOrder>, key: Key)
    requires UniqueKeys(active)
    ensures UniqueKeys(WithoutKey(active, key))
  {
    if active != [] {
      WithoutKeyKeepsKeys(active[1..], key);
      var rest := WithoutKey(active[1..], key);
      assert forall i :: 0 <= i < |rest| ==> rest[i] in rest;
      assert forall o :: o in rest ==> o in active[1..];
    }
  }

  lemma TailKeepsKeys(active: seq<ActiveOrder>)
    requires UniqueKeys(active) && active != []
    ensures UniqueKeys(active[1..])
  {
  }

  lemma KeepsKeysInFront(active: seq<ActiveOrder>, rest: seq<ActiveOrder>)
    requires UniqueKeys(active) && active != [] && UniqueKeys(rest) && forall o :: o in rest ==> o in active[1..]
    ensures UniqueKeys([active[0]] + rest)
  {
    assert forall i :: 0 <= i < |rest| ==> rest[i] in rest;
  }

  lemma {:induction false} SweepKeepsKeys(active: seq<ActiveOrder>, keys: set<Key>, m: Market, counter: nat)
    requires UniqueKeys(active)
    ensures UniqueKeys(Sweep(active, keys, m, counter).active)
    ensures |Sweep(active, keys, m, counter).active| <= |active|
  {
    if active != [] {
      var next := if Stays(active[0], keys, m) then counter else counter + 1;
      TailKeepsKeys(active);
      SweepKeepsKeys(active[1..], keys, m, next);
      hide Stays, UniqueKeys;
      KeepsKeysInFront(active, Sweep(active[1..], keys, m, next).active);
    }
  }

  lemma AppendKeepsKeys(active: seq<ActiveOrder>, o: ActiveOrder)
    requires UniqueKeys(active) && OrderKey(o) !in ActiveKeys(active)
    ensures UniqueKeys(active + [o])
  {
    forall i | 0 <= i < |active| ensures OrderKey(active[i]) != OrderKey(o) {
      assert active[i] in active;
      assert OrderKey(active[i]) in ActiveKeys(active);
    }
  }

  lemma RefreshOneKeys(cfg: ProjectorConfig, active: seq<ActiveOrder>, q: Quote, now: real, counter: nat)
    requires UniqueKeys(active)
    ensures var r := RefreshOne(cfg, active, q, now, counter);
            UniqueKeys(r.active) && ActiveKeys(r.active) == ActiveKeys(active) + {QuoteKey(q)}
  {
    var r := RefreshOne(cfg, active, q, now, counter);
    var key := QuoteKey(q);
    var existing := Lookup(active, key);
    if existing.Some? && KeepExisting(cfg, existing.value, q, now) {
    } else {
      var base := if existing.Some? then WithoutKey(active, key) else active;
      WithoutKeyKeepsKeys(active, key);
      assert key !in ActiveKeys(base);
      var o := r.active[|r.active| - 1];
      assert r.active == base + [o] && OrderKey(o) == key;
      AppendKeepsKeys(base, o);
      KeysOfAppend(base, o);
      assert ActiveKeys(base) == ActiveKeys(active) - {key};
    }
  }

  lemma KeysOfAppend(active: seq<ActiveOrder>, o: ActiveOrder)
    ensures ActiveKeys(active + [o]) == ActiveKeys(active) + {OrderKey(o)}
  {
    assert forall x :: x in active + [o] <==> x in active || x == o;
  }

  lemma {:induction false} RefreshKeys(cfg: ProjectorConfig, active: seq<ActiveOrder>, quotes: seq<Quote>, now: real,
                                       counter: nat)
    requires UniqueKeys(active)
    ensures var r := Refresh(cfg, active, quotes, now, counter);
            UniqueKeys(r.active) && ActiveKeys(r.active) == ActiveKeys(active) + KeysOf(quotes)
    decreases |quotes|
  {
    if quotes != [] {
      var one := RefreshOne(cfg, active, quotes[0], now, counter);
      RefreshOneKeys(cfg, active, quotes[0], now, counter);
      KeysSplit(quotes);
      hide RefreshOne, UniqueKeys, ActiveKeys, KeysOf;
      RefreshKeys(cfg, one.active, quotes[1..], now, one.counter);
    }
  }

  // ----- sizes -----

  lemma {:induction false} CountKeys(active: seq<ActiveOrder>)
    requires UniqueKeys(active)
    ensures |ActiveKeys(active)| == |active|
  {
    if active != [] {
      var init, last := active[..|active| - 1], active[|active| - 1];
      CountKeys(init);
      assert active == init + [last];
      KeysOfAppend(init, last);
      assert OrderKey(last) !in ActiveKeys(init);
    }
  }

  lemma {:induction false} CountQuoteKeys(quotes: seq<Quote>)
    ensures |KeysOf(quotes)| <= |quotes|
  {
    if quotes != [] {
      var init, last := quotes[..|quotes| - 1], quotes[|quotes| - 1];
      CountQuoteKeys(init);
      assert quotes == init + [last];
      assert forall q :: q in quotes <==> q in init || q == last;
      assert KeysOf(quotes) == KeysOf(init) + {QuoteKey(last)};
    }
  }

  // ----- quality of the resting orders -----

  /** Unexpired and post-only safe; an order placed without a time to live expires as it is placed. */
  ghost predicate Resting(cfg: ProjectorConfig, o: ActiveOrder, m: Market) {
    && PostOnlySafe(o.side, o.price, m)
    && (m.now < o.expiresAt || (cfg.ttlMs <= 0.0 && o.createdAt == m.now))
  }

  /** The order was made for `q` just now. */
  predicate MadeFor(o: ActiveOrder, q: Quote, now: real) {
    && o.createdAt == now && QuoteKey(q) == OrderKey(o) && q.price == o.price && q.size == o.size
    && q.shockId == o.shockId && q.activation == o.activation && q.fair == o.fair
  }

  /** What lets `o` stand for `q`: it was made for it, or it is an earlier order that need not be replaced by it. */
  predicate StandsFor(cfg: ProjectorConfig, prior: seq<ActiveOrder>, o: ActiveOrder, q: Quote, now: real) {
    QuoteKey(q) == OrderKey(o) && (MadeFor(o, q, now) || (o in prior && KeepExisting(cfg, o, q, now)))
  }

  ghost predicate Justified(cfg: ProjectorConfig, prior: seq<ActiveOrder>, o: ActiveOrder, quotes: seq<Quote>,
                            now: real) {
    exists q :: q in quotes && StandsFor(cfg, prior, o, q, now)
  }

  lemma {:induction false} RefreshRests(cfg: ProjectorConfig, active: seq<ActiveOrder>, quotes: seq<Quote>, m: Market,
                                        counter: nat)
    requires forall o :: o in active ==> Resting(cfg, o, m)
    requires forall q :: q in quotes ==> PostOnlySafe(q.side, q.price, m)
    ensures forall o :: o in Refresh(cfg, active, quotes, m.now, counter).active ==> Resting(cfg, o, m)
    decreases |quotes|
  {
    if quotes != [] {
      var one := RefreshOne(cfg, active, quotes[0], m.now, counter);
      assert quotes[0] in quotes;
      forall o | o in one.active ensures Resting(cfg, o, m) {
        assert o in active || o == one.active[|one.active| - 1];
      }
      RefreshRests(cfg, one.active, quotes[1..], m, one.counter);
    }
  }

  lemma OnlyWithKey(active: seq<ActiveOrder>, a: ActiveOrder, b: ActiveOrder)
    requires UniqueKeys(active) && a in active && b in active && OrderKey(a) == OrderKey(b)
    ensures a == b
  {
    var i :| 0 <= i < |active| && active[i] == a;
    var j :| 0 <= j < |active| && active[j] == b;
  }

  /** After one quote the order under its key stands for it, and all others are as before. */
  lemma RefreshOneStands(cfg: ProjectorConfig, active: seq<ActiveOrder>, q: Quote, now: real, counter: nat)
    requires UniqueKeys(active)
    ensures forall o :: o in RefreshOne(cfg, active, q, now, counter).active ==>
              if OrderKey(o) == QuoteKey(q) then StandsFor(cfg, active, o, q, now) else o in active
  {
    var r, existing := RefreshOne(cfg, active, q, now, counter), Lookup(active, QuoteKey(q));
    forall o | o in r.active
      ensures if OrderKey(o) == QuoteKey(q) then StandsFor(cfg, active, o, q, now) else o in active
    {
      if r.events == [] {
        if OrderKey(o) == QuoteKey(q) { OnlyWithKey(active, o, existing.value); }
      } else {
        assert o in active || o == r.active[|r.active| - 1];
      }
    }
  }

  lemma StandsEarlier(cfg: ProjectorConfig, active: seq<ActiveOrder>, quotes: seq<Quote>, now: real, counter: nat,
                      o: ActiveOrder)
    requires UniqueKeys(active) && quotes != []
    requires Justified(cfg, RefreshOne(cfg, active, quotes[0], now, counter).active, o, quotes[1..], now)
    ensures Justified(cfg, active, o, quotes, now)
  {
    var one := RefreshOne(cfg, active, quotes[0], now, counter);
    RefreshOneStands(cfg, active, quotes[0], now, counter);
    var q :| q in quotes[1..] && StandsFor(cfg, one.active, o, q, now);
    assert q in quotes && quotes[0] in quotes;
    if !StandsFor(cfg, active, o, q, now) {
      assert StandsFor(cfg, active, o, quotes[0], now);
    }
  }

  lemma {:induction false} RefreshJustified(cfg: ProjectorConfig, active: seq<ActiveOrder>, quotes: seq<Quote>,
                                            now: real, counter: nat)
    requires UniqueKeys(active)
    ensures forall o :: o in Refresh(cfg, active, quotes, now, counter).active ==>
              (o in active && OrderKey(o) !in KeysOf(quotes)) || Justified(cfg, active, o, quotes, now)
    decreases |quotes|
  {
    if quotes != [] {
      hide KeepExisting, NewOrder;
      var one := RefreshOne(cfg, active, quotes[0], now, counter);
      var rest := Refresh(cfg, one.active, quotes[1..], now, one.counter);
      RefreshOneKeys(cfg, active, quotes[0], now, counter);
      RefreshJustified(cfg, one.active, quotes[1..], now, one.counter);
      RefreshOneStands(cfg, active, quotes[0], now, counter);
      KeysSplit(quotes);
      forall o | o in rest.active
        ensures (o in active && OrderKey(o) !in KeysOf(quotes)) || Justified(cfg, active, o, quotes, now)
      {
        if Justified(cfg, one.active, o, quotes[1..], now) {
          StandsEarlier(cfg, active, quotes, now, counter, o);
        } else {
          assert quotes[0] in quotes && o in one.active;
        }
      }
    }
  }

  lemma KeysSplit(quotes: seq<Quote>)
    requires quotes != []
    ensures KeysOf(quotes) == {QuoteKey(quotes[0])} + KeysOf(quotes[1..])
  {
    assert quotes == [quotes[0]] + quotes[1..];
    assert forall q :: q in quotes <==> q == quotes[0] || q in quotes[1..];
  }

  /** After a sync that risk did not block: exactly one order for every desired key and none else, within the limit,
      all resting post-only safe on allowed sides; each stands for a desired quote of its own side and level, made
      for it now or kept because the replace rule keeps it for that quote. */
  lemma SyncOutcome(cfg: ProjectorConfig, st: ProjectorState, quotes: seq<Quote>, m: Market)
    requires m.risk.allowQuote && UniqueKeys(st.active)
    ensures var r, desired := Sync(cfg, st, quotes, m), Desired(cfg, quotes, m);
            && UniqueKeys(r.active)
            && ActiveKeys(r.active) == KeysOf(desired)
            && (cfg.maxActiveOrders >= 0 ==> |r.active| <= cfg.maxActiveOrders)
            && (forall o :: o in r.active ==> Resting(cfg, o, m) && Justified(cfg, st.active, o, desired, m.now))
  {
    SyncKeys(cfg, st, quotes, m);
    SyncRests(cfg, st, quotes, m);
    SyncJustified(cfg, st, quotes, m);
  }

  lemma SyncKeys(cfg: ProjectorConfig, st: ProjectorState, quotes: seq<Quote>, m: Market)
    requires m.risk.allowQuote && UniqueKeys(st.active)
    ensures var r, desired := Sync(cfg, st, quotes, m), Desired(cfg, quotes, m);
            && UniqueKeys(r.active)
            && ActiveKeys(r.active) == KeysOf(desired)
            && (cfg.maxActiveOrders >= 0 ==> |r.active| <= cfg.maxActiveOrders)
  {
    hide Sweep, Refresh, SafeQuotes, SliceTo, ActiveKeys, KeysOf, UniqueKeys;
    var desired := Desired(cfg, quotes, m);
    var swept := Sweep(st.active, KeysOf(desired), m, st.counter);
    SweepKeepsKeys(st.active, KeysOf(desired), m, st.counter);
    SweptKeys(st.active, KeysOf(desired), m, st.counter);
    RefreshKeys(cfg, swept.active, desired, m.now, swept.counter);
    assert ActiveKeys(swept.active) + KeysOf(desired) == KeysOf(desired);
    CountKeys(Refresh(cfg, swept.active, desired, m.now, swept.counter).active);
    CountQuoteKeys(desired);
  }

  lemma SweptKeys(active: seq<ActiveOrder>, keys: set<Key>, m: Market, counter: nat)
    ensures ActiveKeys(Sweep(active, keys, m, counter).active) <= keys
  {
  }

  lemma DesiredSafe(cfg: ProjectorConfig, quotes: seq<Quote>, m: Market)
    ensures forall q :: q in Desired(cfg, quotes, m) ==> q in quotes && PostOnlySafe(q.side, q.price, m)
  {
    forall q | q in Desired(cfg, quotes, m) ensures q in quotes && PostOnlySafe(q.side, q.price, m) {
      assert q in SafeQuotes(quotes, m);
    }
  }

  lemma SyncRests(cfg: ProjectorConfig, st: ProjectorState, quotes: seq<Quote>, m: Market)
    requires m.risk.allowQuote
    ensures forall o :: o in Sync(cfg, st, quotes, m).active ==> Resting(cfg, o, m)
  {
    var desired := Desired(cfg, quotes, m);
    var swept := Sweep(st.active, KeysOf(desired), m, st.counter);
    DesiredSafe(cfg, quotes, m);
    RefreshRests(cfg, swept.active, desired, m, swept.counter);
  }

  lemma SyncJustified(cfg: ProjectorConfig, st: ProjectorState, quotes: seq<Quote>, m: Market)
    requires m.risk.allowQuote && UniqueKeys(st.active)
    ensures var desired := Desired(cfg, quotes, m);
            forall o :: o in Sync(cfg, st, quotes, m).active ==> Justified(cfg, st.active, o, desired, m.now)
  {
    var desired := Desired(cfg, quotes, m);
    var swept := Sweep(st.active, KeysOf(desired), m, st.counter);
    SweepKeepsKeys(st.active, KeysOf(desired), m, st.counter);
    RefreshJustified(cfg, swept.active, desired, m.now, swept.counter);
    forall o | o in Sync(cfg, st, quotes, m).active ensures Justified(cfg, st.active, o, desired, m.now) {
      SweptStands(cfg, st.active, swept.active, o, desired, m.now);
    }
  }

  lemma SweptStands(cfg: ProjectorConfig, prior: seq<ActiveOrder>, swept: seq<ActiveOrder>, o: ActiveOrder,
                    desired: seq<Quote>, now: real)
    requires forall x :: x in swept ==> x in prior && OrderKey(x) in KeysOf(desired)
    requires (o in swept && OrderKey(o) !in KeysOf(desired)) || Justified(cfg, swept, o, desired, now)
    ensures Justified(cfg, prior, o, desired, now)
  {
    var q :| q in desired && StandsFor(cfg, swept, o, q, now);
    assert StandsFor(cfg, prior, o, q, now);
  }

  /** Without tolerance a kept order has the price and size of the quote it stands for. */
  predicate ReplacesAlways(cfg: ProjectorConfig) {
    cfg.minReplaceIntervalMs <= 0.0 && cfg.replaceThresholdBps <= 0.0 && cfg.sizeReplaceThresholdRatio <= 0.0
  }

  lemma NoGap(x: real, y: real, scale: real)
    requires Abs(x - y) / Max(y, 0.000000000001) * scale <= 0.0 && scale > 0.0
    ensures x == y
  {
    var d, m := Abs(x - y), Max(y, 0.000000000001);
    assert d / m <= 0.0;
    assert d / m * m == d;
  }

  lemma KeptIsCurrent(cfg: ProjectorConfig, o: ActiveOrder, q: Quote, now: real)
    requires ReplacesAlways(cfg) && o.createdAt <= now && KeepExisting(cfg, o, q, now)
    ensures o.price == q.price && o.size == q.size
  {
    if o.price != q.price || o.size != q.size {
      NoGap(q.price, o.price, 10000.0);
      NoGap(q.size, o.size, 1.0);
    }
  }

  function AsSet(active: seq<ActiveOrder>): set<ActiveOrder> {
    set o | o in active
  }

  lemma SetEmpty(active: seq<ActiveOrder>)
    ensures active == [] <==> AsSet(active) == {}
  {
    if active != [] { assert active[0] in AsSet(active); }
  }

  /** After a sync that risk blocked, or one without quotes, nothing rests. */
  lemma SyncEmpties(cfg: ProjectorConfig, st: ProjectorState, quotes: seq<Quote>, m: Market)
    requires !m.risk.allowQuote || quotes == []
    ensures Sync(cfg, st, quotes, m).active == []
  {
    if !m.risk.allowQuote {
      CancelAllEmpties(st.active, m.now, st.counter, if m.risk.reason.Some? then m.risk.reason.value else RiskBlock);
    } else {
      var swept := Sweep(st.active, {}, m, st.counter).active;
      assert KeysOf(Desired(cfg, quotes, m)) == {};
      SetEmpty(swept);
      assert AsSet(swept) == {};
    }
  }

  // ----- the emitted events tell the whole story -----

  function ReplayEvents(orders: set<ActiveOrder>, events: seq<OrderEvent>): set<ActiveOrder> {
    if events == [] then orders else
    var before := ReplayEvents(orders, events[..|events| - 1]);
    match events[|events| - 1]
    case Placed(_, o) => before + {o}
    case Canceled(_, o, _, _) => before - {o}
  }

  lemma {:induction false} ReplayConcat(orders: set<ActiveOrder>, a: seq<OrderEvent>, b: seq<OrderEvent>)
    ensures ReplayEvents(orders, a + b) == ReplayEvents(ReplayEvents(orders, a), b)
  {
    if b == [] {
      assert a + b == a;
    } else {
      assert (a + b)[..|a + b| - 1] == a + b[..|b| - 1];
      ReplayConcat(orders, a, b[..|b| - 1]);
    }
  }

  lemma ReplayOne(orders: set<ActiveOrder>, e: OrderEvent)
    ensures ReplayEvents(orders, [e]) == if e.Placed? then orders + {e.order} else orders - {e.order}
  {
    assert [e][..0] == [];
    assert ReplayEvents(orders, []) == orders;
  }

  lemma {:induction false} SweepReplays(active: seq<ActiveOrder>, others: set<ActiveOrder>, keys: set<Key>, m: Market,
                                        counter: nat)
    requires UniqueKeys(active) && others !! AsSet(active)
    ensures var r := Sweep(active, keys, m, counter);
            ReplayEvents(others + AsSet(active), r.events) == others + AsSet(r.active)
  {
    if active == [] {
      assert AsSet(active) == {};
    } else {
      var o := active[0];
      assert active == [o] + active[1..];
      assert o !in active[1..];
      assert AsSet(active) == {o} + AsSet(active[1..]);
      if Stays(o, keys, m) {
        SweepReplays(active[1..], others + {o}, keys, m, counter);
        var rest := Sweep(active[1..], keys, m, counter);
        assert AsSet([o] + rest.active) == {o} + AsSet(rest.active);
        assert others + {o} + AsSet(active[1..]) == others + AsSet(active);
        assert others + {o} + AsSet(rest.active) == others + AsSet([o] + rest.active);
      } else {
        SweepReplays(active[1..], others, keys, m, counter + 1);
        var e := Canceled(counter + 1, o, m.now, StaleOrReplaced);
        var rest := Sweep(active[1..], keys, m, counter + 1);
        ReplayOne(others + AsSet(active), e);
        ReplayConcat(others + AsSet(active), [e], rest.events);
        assert others + AsSet(active) - {o} == others + AsSet(active[1..]);
      }
    }
  }

  lemma {:induction false} CancelAllReplays(active: seq<ActiveOrder>, now: real, counter: nat, reason: Reason)
    requires UniqueKeys(active)
    ensures ReplayEvents(AsSet(active), CancelAll(active, now, counter, reason).events) == {}
  {
    if active != [] {
      var o := active[0];
      assert active == [o] + active[1..];
      assert o !in active[1..];
      var e := Canceled(counter + 1, o, now, reason);
      CancelAllReplays(active[1..], now, counter + 1, reason);
      ReplayOne(AsSet(active), e);
      ReplayConcat(AsSet(active), [e], CancelAll(active[1..], now, counter + 1, reason).events);
      assert AsSet(active) - {o} == AsSet(active[1..]);
    }
  }

  lemma RefreshOneReplays(cfg: ProjectorConfig, active: seq<ActiveOrder>, q: Quote, now: real, counter: nat)
    requires UniqueKeys(active)
    ensures var r := RefreshOne(cfg, active, q, now, counter);
            ReplayEvents(AsSet(active), r.events) == AsSet(r.active)
  {
    var r := RefreshOne(cfg, active, q, now, counter);
    var existing := Lookup(active, QuoteKey(q));
    if r.events != [] {
      var placed := r.events[|r.events| - 1];
      var base := if existing.Some? then WithoutKey(active, QuoteKey(q)) else active;
      if existing.Some? {
        ReplayOne(AsSet(active), r.events[0]);
        ReplayConcat(AsSet(active), [r.events[0]], [placed]);
        assert r.events == [r.events[0]] + [placed];
        forall o ensures o in AsSet(base) <==> o in AsSet(active) - {existing.value} {
          if o in active && OrderKey(o) == QuoteKey(q) {
            var i :| 0 <= i < |active| && active[i] == o;
            var j :| 0 <= j < |active| && active[j] == existing.value;
          }
        }
        assert AsSet(active) - {existing.value} == AsSet(base);
      } else {
        assert r.events == [placed];
      }
      ReplayOne(AsSet(base), placed);
      assert AsSet(base + [placed.order]) == AsSet(base) + {placed.order};
    }
  }

  lemma {:induction false} RefreshReplays(cfg: ProjectorConfig, active: seq<ActiveOrder>, quotes: seq<Quote>,
                                          now: real, counter: nat)
    requires UniqueKeys(active)
    ensures var r := Refresh(cfg, active, quotes, now, counter);
            ReplayEvents(AsSet(active), r.events) == AsSet(r.active)
    decreases |quotes|
  {
    if quotes != [] {
      var one := RefreshOne(cfg, active, quotes[0], now, counter);
      RefreshOneReplays(cfg, active, quotes[0], now, counter);
      RefreshOneKeys(cfg, active, quotes[0], now, counter);
      RefreshReplays(cfg, one.active, quotes[1..], now, one.counter);
      ReplayConcat(AsSet(active), one.events, Refresh(cfg, one.active, quotes[1..], now, one.counter).events);
    }
  }

  /** Replaying the emitted events over the old orders gives exactly the new orders, for every sync. */
  lemma EventsExplainSync(cfg: ProjectorConfig, st: ProjectorState, quotes: seq<Quote>, m: Market)
    requires UniqueKeys(st.active)
    ensures var r := Sync(cfg, st, quotes, m);
            ReplayEvents(AsSet(st.active), r.events) == AsSet(r.active)
  {
    if !m.risk.allowQuote {
      var reason := if m.risk.reason.Some? then m.risk.reason.value else RiskBlock;
      CancelAllReplays(st.active, m.now, st.counter, reason);
      CancelAllEmpties(st.active, m.now, st.counter, reason);
    } else {
      var desired := Desired(cfg, quotes, m);
      var keys := KeysOf(desired);
      var swept := Sweep(st.active, keys, m, st.counter);
      SweepReplays(st.active, {}, keys, m, st.counter);
      assert {} + AsSet(st.active) == AsSet(st.active) && {} + AsSet(swept.active) == AsSet(swept.active);
      SweepKeepsKeys(st.active, keys, m, st.counter);
      RefreshReplays(cfg, swept.active, desired, m.now, swept.counter);
      ReplayConcat(AsSet(st.active), swept.events, Refresh(cfg, swept.active, desired, m.now, swept.counter).events);
    }
  }
}
