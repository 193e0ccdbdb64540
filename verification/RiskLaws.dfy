/** The kernel's pruned histories against the full histories they stand for. */
module RiskLaws {
  import opened Types
  import opened Windows
  import opened Inventories
  import opened Risks

  // ----- fill bursts -----

  /** Fill number `i` of the full history makes at least the configured number of same-side fills in its window. */
  ghost predicate Bursts(cfg: RiskConfig, fills: seq<Timed<Side>>, i: int)
    requires 0 <= i < |fills|
  {
    CountSide(Recent(fills[..i + 1], fills[i].ts, cfg.burstWindowMs), fills[i].value) >= cfg.maxSameSideFills
  }

  /** The burst at fill `i` is over at `now`, or its side's cooldown outlasts it. */
  ghost predicate BurstRemembered(cfg: RiskConfig, cooldownUntil: map<Side, real>, fill: Timed<Side>, now: real) {
    var until := fill.ts + cfg.burstCooldownMs;
    now >= until || (fill.value in cooldownUntil && cooldownUntil[fill.value] >= until)
  }

  ghost predicate RemembersFills(cfg: RiskConfig, r: RiskState, fills: seq<Timed<Side>>, now: real) {
    && Tracks(r.fillHistory, fills, now, cfg.burstWindowMs)
    && (forall i :: 0 <= i < |fills| && Bursts(cfg, fills, i) ==> BurstRemembered(cfg, r.cooldownUntil, fills[i], now))
  }

  lemma FillTracked(cfg: RiskConfig, r: RiskState, fills: seq<Timed<Side>>, now: real, side: Side, ts: real)
    requires Tracks(r.fillHistory, fills, now, cfg.burstWindowMs) && now <= ts
    ensures var recent, all := DropExpired(r.fillHistory + [Timed(ts, side)], ts, cfg.burstWindowMs),
            fills + [Timed(ts, side)];
            Tracks(recent, all, ts, cfg.burstWindowMs) && recent == Recent(all, ts, cfg.burstWindowMs)
  {
    var all := fills + [Timed(ts, side)];
    AppendTracks(r.fillHistory, fills, now, Timed(ts, side), cfg.burstWindowMs);
    ExpireTracks(r.fillHistory + [Timed(ts, side)], all, ts, ts, cfg.burstWindowMs);
    ExpireIsRecent(r.fillHistory + [Timed(ts, side)], all, ts, ts, cfg.burstWindowMs);
  }

  lemma BurstsPrefix(cfg: RiskConfig, fills: seq<Timed<Side>>, x: Timed<Side>)
    ensures forall i :: 0 <= i < |fills| ==> (Bursts(cfg, fills + [x], i) <==> Bursts(cfg, fills, i))
    ensures Bursts(cfg, fills + [x], |fills|) <==>
            CountSide(Recent(fills + [x], x.ts, cfg.burstWindowMs), x.value) >= cfg.maxSameSideFills
  {
    var all := fills + [x];
    assert all[..|fills| + 1] == all;
    forall i | 0 <= i < |fills| ensures Bursts(cfg, all, i) <==> Bursts(cfg, fills, i) {
      assert all[..i + 1] == fills[..i + 1] && all[i] == fills[i];
    }
  }

  lemma CooldownRemembers(cfg: RiskConfig, cooldownUntil: map<Side, real>, recent: seq<Timed<Side>>, side: Side,
                          before: real, ts: real, fill: Timed<Side>)
    requires BurstRemembered(cfg, cooldownUntil, fill, before) && before <= ts && fill.ts <= ts
    ensures BurstRemembered(cfg, CooldownAfter(cfg, cooldownUntil, recent, side, ts), fill, ts)
  {
  }

  lemma RecordFillParts(cfg: RiskConfig, r: RiskState, side: Side, ts: real, price: real, amount: real)
    requires cfg.maxSameSideFills > 0
    ensures var next, recent := RecordFill(cfg, r, side, ts, price, amount),
            DropExpired(r.fillHistory + [Timed(ts, side)], ts, cfg.burstWindowMs);
            next.fillHistory == recent && next.cooldownUntil == CooldownAfter(cfg, r.cooldownUntil, recent, side, ts)
  {
  }

  lemma FillRemembered(cfg: RiskConfig, r: RiskState, fills: seq<Timed<Side>>, now: real, side: Side, ts: real,
                       price: real, amount: real)
    requires cfg.maxSameSideFills > 0 && RemembersFills(cfg, r, fills, now) && now <= ts
    ensures RemembersFills(cfg, RecordFill(cfg, r, side, ts, price, amount), fills + [Timed(ts, side)], ts)
  {
    RecordFillParts(cfg, r, side, ts, price, amount);
    var all, next := fills + [Timed(ts, side)], RecordFill(cfg, r, side, ts, price, amount);
    FillTracked(cfg, r, fills, now, side, ts);
    forall i | 0 <= i < |all| && Bursts(cfg, all, i) ensures BurstRemembered(cfg, next.cooldownUntil, all[i], ts) {
      BurstKept(cfg, r, fills, now, Timed(ts, side), next, i);
    }
  }

  lemma BurstKept(cfg: RiskConfig, r: RiskState, fills: seq<Timed<Side>>, now: real, x: Timed<Side>, next: RiskState,
                  i: int)
    requires RemembersFills(cfg, r, fills, now) && now <= x.ts
    requires 0 <= i <= |fills| && Bursts(cfg, fills + [x], i)
    requires next.fillHistory == Recent(fills + [x], x.ts, cfg.burstWindowMs)
    requires next.cooldownUntil == CooldownAfter(cfg, r.cooldownUntil, next.fillHistory, x.value, x.ts)
    ensures BurstRemembered(cfg, next.cooldownUntil, (fills + [x])[i], x.ts)
  {
    BurstsPrefix(cfg, fills, x);
    if i < |fills| {
      assert (fills + [x])[i] == fills[i];
      assert BurstRemembered(cfg, r.cooldownUntil, fills[i], now);
      CooldownRemembers(cfg, r.cooldownUntil, next.fillHistory, x.value, now, x.ts, fills[i]);
    }
  }

  lemma EvaluationCooldowns(cfg: RiskConfig, r: RiskState, i: RiskInput, fill: Timed<Side>, before: real)
    requires BurstRemembered(cfg, r.cooldownUntil, fill, before) && before <= i.now
    ensures BurstRemembered(cfg, Evaluate(cfg, r, i).state.cooldownUntil, fill, i.now)
    ensures i.now < fill.ts + cfg.burstCooldownMs ==> !Allows(Evaluate(cfg, r, i).decision, fill.value)
  {
    EvaluationLetsCooldownsRun(cfg, r, i);
    AllowedIff(cfg, r, i, fill.value);
    hide Evaluate;
    if i.now < fill.ts + cfg.burstCooldownMs {
      assert fill.value in LiveCooldowns(r.cooldownUntil, i.now);
    }
  }

  lemma EvaluationLetsCooldownsRun(cfg: RiskConfig, r: RiskState, i: RiskInput)
    ensures Evaluate(cfg, r, i).state.cooldownUntil ==
            if Evaluate(cfg, r, i).recorded then LiveCooldowns(r.cooldownUntil, i.now) else r.cooldownUntil
  {
  }

  /** An evaluation keeps the memory, and disallows every side with a burst less than a cooldown ago. */
  lemma EvaluationRemembers(cfg: RiskConfig, r: RiskState, fills: seq<Timed<Side>>, before: real, i: RiskInput)
    requires RemembersFills(cfg, r, fills, before) && before <= i.now
    ensures RemembersFills(cfg, Evaluate(cfg, r, i).state, fills, i.now)
    ensures forall k :: 0 <= k < |fills| && Bursts(cfg, fills, k) && i.now < fills[k].ts + cfg.burstCooldownMs
              ==> !Allows(Evaluate(cfg, r, i).decision, fills[k].value)
  {
    LaterTracks(r.fillHistory, fills, before, i.now, cfg.burstWindowMs);
    assert Evaluate(cfg, r, i).state.fillHistory == r.fillHistory;
    forall k | 0 <= k < |fills| && Bursts(cfg, fills, k)
      ensures BurstRemembered(cfg, Evaluate(cfg, r, i).state.cooldownUntil, fills[k], i.now)
      ensures i.now < fills[k].ts + cfg.burstCooldownMs ==> !Allows(Evaluate(cfg, r, i).decision, fills[k].value)
    {
      EvaluationCooldowns(cfg, r, i, fills[k], before);
    }
  }

  lemma TradeRemembers(cfg: RiskConfig, r: RiskState, fills: seq<Timed<Side>>, now: real, price: real, ts: real)
    requires RemembersFills(cfg, r, fills, now)
    ensures RemembersFills(cfg, RecordTrade(r, price, ts), fills, now)
  {
    forall i | 0 <= i < |fills| && Bursts(cfg, fills, i)
      ensures BurstRemembered(cfg, RecordTrade(r, price, ts).cooldownUntil, fills[i], now) {
      assert BurstRemembered(cfg, r.cooldownUntil, fills[i], now);
    }
  }

  // ----- one-minute notional -----

  ghost predicate RemembersChanges(r: RiskState, all: seq<Timed<Change>>, now: real) {
    Tracks(r.changes, all, now, CHANGE_HISTORY_MS)
  }

  lemma ChangeRemembered(cfg: RiskConfig, r: RiskState, all: seq<Timed<Change>>, now: real, side: Side, ts: real,
                         price: real, amount: real)
    requires RemembersChanges(r, all, now) && now <= ts
    ensures RemembersChanges(RecordFill(cfg, r, side, ts, price, amount),
                             all + [Timed(ts, Change(side, FillNotional(price, amount)))], ts)
  {
    AppendTracks(r.changes, all, now, Timed(ts, Change(side, FillNotional(price, amount))), CHANGE_HISTORY_MS);
  }

  lemma ChangesPruned(cfg: RiskConfig, r: RiskState, all: seq<Timed<Change>>, before: real, i: RiskInput)
    requires RemembersChanges(r, all, before) && before <= i.now
    ensures RemembersChanges(Evaluate(cfg, r, i).state, all, i.now)
    ensures cfg.maxOneSideChange > 0.0 ==> RecentChanges(cfg, r.changes, i.now) == Recent(all, i.now, CHANGE_HISTORY_MS)
  {
    ExpireTracks(r.changes, all, before, i.now, CHANGE_HISTORY_MS);
    ExpireIsRecent(r.changes, all, before, i.now, CHANGE_HISTORY_MS);
    LaterTracks(r.changes, all, before, i.now, CHANGE_HISTORY_MS);
    EvaluationPrunesChanges(cfg, r, i);
  }

  lemma EvaluationPrunesChanges(cfg: RiskConfig, r: RiskState, i: RiskInput)
    ensures var changes := Evaluate(cfg, r, i).state.changes;
            changes == if Evaluate(cfg, r, i).recorded then RecentChanges(cfg, r.changes, i.now) else r.changes
  {
  }

  // ----- what a decision means -----

  /** `side` is blocked for `reason`. */
  predicate BlockedFor(d: RiskDecision, side: Side, reason: Reason) {
    side in d.sideReasons && d.sideReasons[side] == reason
  }

  /** What a recorded evaluation decides from: live cooldowns, drift and the limits, in this order of precedence. */
  datatype Grounds = Grounds(cooldowns: map<Side, real>, drift: set<Side>, limits: map<Side, Reason>)

  function GroundsOf(cfg: RiskConfig, r: RiskState, i: RiskInput): Grounds
    requires i.fair.fair.Some?
  {
    var fair, changes := i.fair.fair.value, RecentChanges(cfg, r.changes, i.now);
    Grounds(LiveCooldowns(r.cooldownUntil, i.now), DriftBlocked(cfg, r.fairHistory, i.now, fair),
            InventoryReasons(cfg, i.inventory, fair, SideNotional(changes, Buy), SideNotional(changes, Sell)))
  }

  lemma RecordedDecision(cfg: RiskConfig, r: RiskState, i: RiskInput)
    requires Evaluate(cfg, r, i).recorded
    ensures i.fair.fair.Some? && i.fair.fair.value > 0.0
    ensures var g := GroundsOf(cfg, r, i);
            Evaluate(cfg, r, i).decision == Decide(cfg, i.spec, g.cooldowns,
                                                   SideReasons(g.cooldowns, g.drift, g.limits))
  {
  }

  lemma UnrecordedDisallows(cfg: RiskConfig, r: RiskState, i: RiskInput, side: Side)
    requires !Evaluate(cfg, r, i).recorded
    ensures !Allows(Evaluate(cfg, r, i).decision, side)
  {
  }

  lemma ReasonsByPrecedence(g: Grounds, side: Side)
    ensures var reasons := SideReasons(g.cooldowns, g.drift, g.limits);
            && (side in reasons <==> side in g.cooldowns || side in g.drift || side in g.limits)
            && (side in g.cooldowns ==> reasons[side] == FillBurstCooldown)
            && (side !in g.cooldowns && side in g.drift ==> reasons[side] == FairDriftTooLarge)
            && (side !in g.cooldowns && side !in g.drift && side in g.limits ==> reasons[side] == g.limits[side])
  {
  }

  predicate StopFlag(spec: Option<PairSpec>, side: Side) {
    spec.Some? && (if side.Buy? then spec.value.stopBuyOrder else spec.value.stopSellOrder)
  }

  /** A side is allowed exactly when the evaluation got through, the pair does not stop the side, and neither a live
      cooldown nor drift nor a limit blocks it. */
  lemma AllowedIff(cfg: RiskConfig, r: RiskState, i: RiskInput, side: Side)
    ensures Evaluate(cfg, r, i).recorded ==> i.fair.fair.Some?
    ensures Allows(Evaluate(cfg, r, i).decision, side) <==>
            && Evaluate(cfg, r, i).recorded
            && !StopFlag(i.spec, side)
            && side !in GroundsOf(cfg, r, i).cooldowns
            && side !in GroundsOf(cfg, r, i).drift
            && side !in GroundsOf(cfg, r, i).limits
  {
    if Evaluate(cfg, r, i).recorded {
      RecordedDecision(cfg, r, i);
      hide GroundsOf, Evaluate, SideReasons;
      ReasonsByPrecedence(GroundsOf(cfg, r, i), side);
    } else {
      UnrecordedDisallows(cfg, r, i, side);
    }
  }

  lemma LimitsIff(cfg: RiskConfig, inv: Inventory, fair: real, recentBuy: real, recentSell: real)
    ensures var limits := InventoryReasons(cfg, inv, fair, recentBuy, recentSell);
            && (Buy !in limits <==>
                  && (cfg.negativeBalancesAllowed || cfg.maxOrderSize * fair <= inv.quote)
                  && !OverMaxBase(cfg, inv) && !OverQuoteUsage(cfg, inv, fair)
                  && !OverInventoryNotional(cfg, inv, fair) && !OverOneSide(cfg, recentBuy, fair))
            && (Sell !in limits <==>
                  && (cfg.negativeBalancesAllowed || cfg.maxOrderSize <= inv.base)
                  && !OverOneSide(cfg, recentSell, fair))
  {
  }

  /** Room for one more order of maximal size on a side, by balances, position, usage and notional. */
  predicate HasRoom(cfg: RiskConfig, inv: Inventory, fair: real, side: Side) {
    if side.Buy? then
      && (cfg.negativeBalancesAllowed || cfg.maxOrderSize * fair <= inv.quote)
      && (cfg.maxBaseQty > 0.0 ==> inv.base + cfg.maxOrderSize <= cfg.maxBaseQty)
      && (cfg.maxQuoteUsage > 0.0 ==>
            Max(0.0, cfg.initialQuoteQty - inv.quote) + cfg.maxOrderSize * fair <= cfg.maxQuoteUsage)
      && (cfg.maxInventoryNotional > 0.0 ==> (inv.base + cfg.maxOrderSize) * fair <= cfg.maxInventoryNotional)
    else cfg.negativeBalancesAllowed || cfg.maxOrderSize <= inv.base
  }

  /** An allowed side has room for one more order of maximal size at the fair of the evaluation. */
  lemma AllowedHasRoom(cfg: RiskConfig, r: RiskState, i: RiskInput, side: Side)
    requires Allows(Evaluate(cfg, r, i).decision, side)
    ensures i.fair.fair.Some? && HasRoom(cfg, i.inventory, i.fair.fair.value, side)
  {
    AllowedIff(cfg, r, i, side);
    hide Evaluate, InventoryReasons;
    var changes := RecentChanges(cfg, r.changes, i.now);
    LimitsIff(cfg, i.inventory, i.fair.fair.value, SideNotional(changes, Buy), SideNotional(changes, Sell));
  }

  lemma OneSideReason(cfg: RiskConfig, inv: Inventory, fair: real, recentBuy: real, recentSell: real, side: Side)
    ensures var limits := InventoryReasons(cfg, inv, fair, recentBuy, recentSell);
            (side in limits && limits[side] == OneSideChangeLimit) <==>
            OverOneSide(cfg, if side.Buy? then recentBuy else recentSell, fair)
    ensures var limits := InventoryReasons(cfg, inv, fair, recentBuy, recentSell);
            side in limits ==> limits[side] != FairDriftTooLarge && limits[side] != FillBurstCooldown
  {
  }

  /** Which of the three grounds a recorded decision names for a side. */
  lemma ReasonIff(cfg: RiskConfig, r: RiskState, i: RiskInput, side: Side)
    requires Evaluate(cfg, r, i).recorded
    ensures i.fair.fair.Some?
    ensures var d, g := Evaluate(cfg, r, i).decision, GroundsOf(cfg, r, i);
            var recent := SideNotional(RecentChanges(cfg, r.changes, i.now), side);
            && (BlockedFor(d, side, FillBurstCooldown) <==> side in g.cooldowns)
            && (BlockedFor(d, side, FairDriftTooLarge) <==> side !in g.cooldowns && side in g.drift)
            && (BlockedFor(d, side, OneSideChangeLimit) <==>
                  side !in g.cooldowns && side !in g.drift && OverOneSide(cfg, recent, i.fair.fair.value))
  {
    RecordedDecision(cfg, r, i);
    var g, changes := GroundsOf(cfg, r, i), RecentChanges(cfg, r.changes, i.now);
    OneSideReason(cfg, i.inventory, i.fair.fair.value, SideNotional(changes, Buy), SideNotional(changes, Sell), side);
    hide Evaluate, SideReasons, InventoryReasons;
    ReasonsByPrecedence(g, side);
  }

  /** One maximal order more on top of the notional of all the side's fills of the last minute exceeds the limit. */
  ghost predicate OverMinute(cfg: RiskConfig, all: seq<Timed<Change>>, now: real, side: Side, fair: real) {
    OverOneSide(cfg, SideNotional(Recent(all, now, CHANGE_HISTORY_MS), side), fair)
  }

  /** The one-side limit over the full history of fills: a recorded evaluation leaves exactly the fills of the last
      minute in its history, and names the limit for a side if and only if neither a cooldown nor drift comes first
      and the full-history minute exceeds it; an evaluation over the limit disallows the side, recorded or not. */
  lemma OneMinuteNotionalExact(cfg: RiskConfig, r: RiskState, all: seq<Timed<Change>>, before: real, i: RiskInput,
                               side: Side)
    requires RemembersChanges(r, all, before) && before <= i.now && cfg.maxOneSideChange > 0.0
    ensures Evaluate(cfg, r, i).recorded ==>
              && i.fair.fair.Some?
              && Evaluate(cfg, r, i).state.changes == Recent(all, i.now, CHANGE_HISTORY_MS)
              && (BlockedFor(Evaluate(cfg, r, i).decision, side, OneSideChangeLimit) <==>
                    && side !in GroundsOf(cfg, r, i).cooldowns && side !in GroundsOf(cfg, r, i).drift
                    && OverMinute(cfg, all, i.now, side, i.fair.fair.value))
    ensures i.fair.fair.Some? && OverMinute(cfg, all, i.now, side, i.fair.fair.value)
            ==> !Allows(Evaluate(cfg, r, i).decision, side)
  {
    ChangesPruned(cfg, r, all, before, i);
    EvaluationPrunesChanges(cfg, r, i);
    hide Evaluate, Recent, RecentChanges, SideNotional, GroundsOf, OverOneSide;
    if i.fair.fair.Some? && OverMinute(cfg, all, i.now, side, i.fair.fair.value) {
      OverLimitDisallows(cfg, r, i, side);
    }
    if Evaluate(cfg, r, i).recorded {
      ReasonIff(cfg, r, i, side);
    }
  }

  lemma OverLimitDisallows(cfg: RiskConfig, r: RiskState, i: RiskInput, side: Side)
    requires i.fair.fair.Some?
    requires OverOneSide(cfg, SideNotional(RecentChanges(cfg, r.changes, i.now), side), i.fair.fair.value)
    ensures !Allows(Evaluate(cfg, r, i).decision, side)
  {
    AllowedIff(cfg, r, i, side);
    hide Evaluate, InventoryReasons;
    var changes := RecentChanges(cfg, r.changes, i.now);
    LimitsIff(cfg, i.inventory, i.fair.fair.value, SideNotional(changes, Buy), SideNotional(changes, Sell));
  }

  // ----- fair history -----

  /** The latest entry at or before the target in an ordered history. */
  lemma {:induction false} FairAtOrBeforeOrdered(h: seq<Timed<real>>, target: real) returns (k: int)
    requires Ordered(h)
    ensures -1 <= k < |h|
    ensures FairAtOrBefore(h, target) == if k < 0 then None else Some(h[k].value)
    ensures forall j :: 0 <= j < |h| ==> (h[j].ts <= target <==> j <= k)
  {
    if h == [] || h[0].ts > target {
      k := -1;
    } else {
      var later := FairAtOrBeforeOrdered(h[1..], target);
      k := later + 1;
      forall j | 0 <= j < |h| ensures h[j].ts <= target <==> j <= k {
        if j > 0 { assert h[j] == h[1..][j - 1]; }
      }
    }
  }

  /** `q` is the full history `h` pruned to the samples at most five seconds older than the last one. */
  ghost predicate PrunedTo(q: seq<Timed<real>>, h: seq<Timed<real>>, last: real) {
    Tracks(q, h, last, FAIR_HISTORY_MS) && forall i :: 0 <= i < |q| ==> last - q[i].ts <= FAIR_HISTORY_MS
  }

  /** A pruned answer is the full-history answer, and there is none exactly when every sample at or before the
      target is more than five seconds older than the last recorded one. */
  lemma PrunedFairRefines(q: seq<Timed<real>>, h: seq<Timed<real>>, last: real, target: real)
    requires PrunedTo(q, h, last)
    ensures FairAtOrBefore(q, target).Some? ==> FairAtOrBefore(q, target) == FairAtOrBefore(h, target)
    ensures FairAtOrBefore(q, target).None? <==> forall j :: 0 <= j < |h| && h[j].ts <= target ==>
              last - h[j].ts > FAIR_HISTORY_MS
  {
    var cut := |h| - |q|;
    var k := FairAtOrBeforeOrdered(q, target);
    var n := FairAtOrBeforeOrdered(h, target);
    assert forall j :: cut <= j < |h| ==> h[j] == q[j - cut];
    if n >= cut { assert q[n - cut].ts <= target && n - cut <= k; }
    if k >= 0 { assert h[cut + k].ts <= target && h[cut + k] == q[k]; }
    assert if k >= 0 then n == cut + k else n < cut;
  }

  /** The full-history prior that the pruned history can still give: the latest sample at or before the target,
      unless it is more than five seconds older than the last recorded one. */
  function PriorWithin(h: seq<Timed<real>>, last: real, target: real): Option<real> {
    if exists j :: 0 <= j < |h| && h[j].ts <= target && last - h[j].ts <= FAIR_HISTORY_MS then FairAtOrBefore(h, target)
    else None
  }

  lemma PrunedPrior(q: seq<Timed<real>>, h: seq<Timed<real>>, last: real, target: real)
    requires PrunedTo(q, h, last)
    ensures FairAtOrBefore(q, target) == PriorWithin(h, last, target)
  {
    PrunedFairRefines(q, h, last, target);
  }

  /** The drift decision, from the full history of recorded fairs. */
  function FullDrift(cfg: RiskConfig, h: seq<Timed<real>>, last: real, now: real, fair: real): set<Side> {
    DriftAt(PriorWithin(h, last, now - 1000.0), fair, cfg.maxDropBps1s, cfg.maxRiseBps1s)
    + DriftAt(PriorWithin(h, last, now - 5000.0), fair, cfg.maxDropBps5s, cfg.maxRiseBps5s)
  }

  lemma DriftFromFullHistory(cfg: RiskConfig, q: seq<Timed<real>>, h: seq<Timed<real>>, last: real, now: real,
                             fair: real)
    requires PrunedTo(q, h, last)
    ensures DriftBlocked(cfg, q, now, fair) == FullDrift(cfg, h, last, now, fair)
  {
    PrunedPrior(q, h, last, now - 1000.0);
    PrunedPrior(q, h, last, now - 5000.0);
  }

  /** The gap is real. Three evaluations that get through, the second more than five seconds after the first and less
      than one second before the third: a drop of the third fair from the first is drift by the full history, but the
      kernel has lost the first sample and finds the second too young. The third decision allows buying unless
      something else blocks it. */
  lemma DriftMissedAfterGap(cfg: RiskConfig, r: RiskState, first: RiskInput, second: RiskInput, third: RiskInput)
    requires var r1 := Evaluate(cfg, r, first).state; var r2 := Evaluate(cfg, r1, second).state;
             && r.fairHistory == [] && Evaluate(cfg, r, first).recorded
             && Evaluate(cfg, r1, second).recorded && Evaluate(cfg, r2, third).recorded
    requires first.now + FAIR_HISTORY_MS < second.now <= third.now < second.now + 1000.0
    requires cfg.maxDropBps1s > 0.0 && first.fair.fair.Some? && third.fair.fair.Some?
    requires Fell(first.fair.fair.value, third.fair.fair.value, cfg.maxDropBps1s)
    ensures var r2 := Evaluate(cfg, Evaluate(cfg, r, first).state, second).state;
            var h := [Timed(first.now, first.fair.fair.value)] + r2.fairHistory;
            && second.fair.fair.Some? && r2.fairHistory == [Timed(second.now, second.fair.fair.value)]
            && Buy in DriftBlocked(cfg, h, third.now, third.fair.fair.value)
            && GroundsOf(cfg, r2, third).drift == {}
            && (Allows(Evaluate(cfg, r2, third).decision, Buy) <==>
                  !StopFlag(third.spec, Buy) && Buy !in GroundsOf(cfg, r2, third).cooldowns &&
                    Buy !in GroundsOf(cfg, r2, third).limits)
  {
    EvaluationRecordsFair(cfg, r, first);
    var r1 := Evaluate(cfg, r, first).state;
    EvaluationRecordsFair(cfg, r1, second);
    var r2 := Evaluate(cfg, r1, second).state;
    AllowedIff(cfg, r2, third, Buy);
    GroundsDrift(cfg, r2, third);
    hide Evaluate, GroundsOf;
    HistoryAfterGap(Timed(first.now, first.fair.fair.value), Timed(second.now, second.fair.fair.value));
    DriftWithFirst(cfg, Timed(first.now, first.fair.fair.value), Timed(second.now, second.fair.fair.value),
                   third.now, third.fair.fair.value);
  }

  /** By at least `maxDrop`. */
  predicate Fell(before: real, after: real, maxDrop: real) {
    before > 0.0 && (after - before) / before * 10000.0 <= -maxDrop
  }

  lemma EvaluationRecordsFair(cfg: RiskConfig, r: RiskState, i: RiskInput)
    requires Evaluate(cfg, r, i).recorded
    ensures i.fair.fair.Some? && Evaluate(cfg, r, i).state.fairHistory ==
              DropExpired(r.fairHistory + [Timed(i.now, i.fair.fair.value)], i.now, FAIR_HISTORY_MS)
  {
  }

  lemma GroundsDrift(cfg: RiskConfig, r: RiskState, i: RiskInput)
    requires i.fair.fair.Some?
    ensures GroundsOf(cfg, r, i).drift == DriftBlocked(cfg, r.fairHistory, i.now, i.fair.fair.value)
  {
  }

  lemma HistoryAfterGap(x: Timed<real>, y: Timed<real>)
    requires x.ts + FAIR_HISTORY_MS < y.ts
    ensures DropExpired([] + [x], x.ts, FAIR_HISTORY_MS) == [x] && DropExpired([x] + [y], y.ts, FAIR_HISTORY_MS) == [y]
  {
    hide DropExpired;
    assert [] + [x] == [x] + [] && [y] == [y] + [];
    DropHead(x, [], x.ts, FAIR_HISTORY_MS);
    DropHead(x, [y], y.ts, FAIR_HISTORY_MS);
    DropHead(y, [], y.ts, FAIR_HISTORY_MS);
  }

  lemma DriftWithFirst(cfg: RiskConfig, x: Timed<real>, y: Timed<real>, now: real, fair: real)
    requires x.ts + FAIR_HISTORY_MS < y.ts <= now < y.ts + 1000.0
    requires cfg.maxDropBps1s > 0.0 && Fell(x.value, fair, cfg.maxDropBps1s)
    ensures DriftBlocked(cfg, [y], now, fair) == {} && Buy in DriftBlocked(cfg, [x] + [y], now, fair)
  {
    assert ([x] + [y])[1..] == [y] && [y][1..] == [];
    assert FairAtOrBefore([y], now - 1000.0) == None && FairAtOrBefore([y], now - 5000.0) == None;
    assert FairAtOrBefore([x] + [y], now - 1000.0) == Some(x.value);
    hide FairAtOrBefore;
  }

  /** Recording a fair keeps the correspondence. */
  lemma RecordedFairTracked(cfg: RiskConfig, r: RiskState, h: seq<Timed<real>>, last: real, i: RiskInput)
    requires Tracks(r.fairHistory, h, last, FAIR_HISTORY_MS) && last <= i.now
    requires Evaluate(cfg, r, i).recorded
    ensures i.fair.fair.Some?
    ensures PrunedTo(Evaluate(cfg, r, i).state.fairHistory, h + [Timed(i.now, i.fair.fair.value)], i.now)
  {
    var x := Timed(i.now, i.fair.fair.value);
    AppendTracks(r.fairHistory, h, last, x, FAIR_HISTORY_MS);
    ExpireTracks(r.fairHistory + [x], h + [x], i.now, i.now, FAIR_HISTORY_MS);
  }
}
