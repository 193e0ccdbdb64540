/** The risk kernel: decides, per side, whether quoting is allowed. */
module Risks {
  import opened Types
  import opened Windows
  import opened OrderBooks
  import opened Inventories

  datatype RiskConfig = RiskConfig(
    maxOrderSize: real, maxSpreadBps: real, minDepth: real, minActivation: real, maxAbsSkew: real,
    blockOnUnfetchedPairSpec: bool, blockOnStatusNotNormal: bool, blockOnPairStopFlags: bool, blockOnStaleBook: bool,
    maxLastTradeDeviationBps: real, lastTradeMaxAgeMs: real,
    maxSameSideFills: int, burstWindowMs: real, burstCooldownMs: real,
    maxDropBps1s: real, maxRiseBps1s: real, maxDropBps5s: real, maxRiseBps5s: real,
    negativeBalancesAllowed: bool, maxBaseQty: real, maxQuoteUsage: real, initialQuoteQty: real,
    maxInventoryNotional: real, maxOneSideChange: real)

  const FAIR_HISTORY_MS := 5000.0
  const CHANGE_HISTORY_MS := 60000.0

  datatype Change = Change(side: Side, notional: real)

  datatype RiskState = RiskState(fairHistory: seq<Timed<real>>, fillHistory: seq<Timed<Side>>,
                                 changes: seq<Timed<Change>>, cooldownUntil: map<Side, real>,
                                 lastTrade: Option<Timed<real>>)

  const NO_RISK_HISTORY := RiskState([], [], [], map[], None)

  // ----- recording -----

  function CountSide(fills: seq<Timed<Side>>, side: Side): (n: nat)
    ensures n <= |fills|
  {
    if fills == [] then 0 else
    CountSide(fills[..|fills| - 1], side) + (if fills[|fills| - 1].value == side then 1 else 0)
  }

  function SideNotional(changes: seq<Timed<Change>>, side: Side): real {
    if changes == [] then 0.0 else
    var last := changes[|changes| - 1].value;
    SideNotional(changes[..|changes| - 1], side) + (if last.side == side then last.notional else 0.0)
  }

  function FillNotional(price: real, amount: real): real {
    Max(0.0, price * amount)
  }

  function CooldownAfter(cfg: RiskConfig, cooldownUntil: map<Side, real>, recent: seq<Timed<Side>>, side: Side,
                         ts: real): map<Side, real> {
    if CountSide(recent, side) >= cfg.maxSameSideFills then cooldownUntil[side := ts + cfg.burstCooldownMs]
      else cooldownUntil
  }

  function RecordFill(cfg: RiskConfig, r: RiskState, side: Side, ts: real, price: real, amount: real): RiskState {
    var changed := r.(changes := r.changes + [Timed(ts, Change(side, FillNotional(price, amount)))]);
    if cfg.maxSameSideFills <= 0 then changed else
    var recent := DropExpired(r.fillHistory + [Timed(ts, side)], ts, cfg.burstWindowMs);
    changed.(fillHistory := recent, cooldownUntil := CooldownAfter(cfg, r.cooldownUntil, recent, side, ts))
  }

  function RecordTrade(r: RiskState, price: real, ts: real): RiskState {
    if price > 0.0 then r.(lastTrade := Some(Timed(ts, price))) else r
  }

  // ----- evaluating -----

  /** What an evaluation looks at besides the kernel's own memory. */
  datatype RiskInput = RiskInput(book: BookState, fair: FairState, shock: ShockState, inventory: Inventory,
                                 inventoryCfg: InventoryConfig, spec: Option<PairSpec>, statusNormal: Option<bool>,
                                   now: real)

  function ReasonOr(reason: Option<Reason>, default: Reason): Reason {
    if reason.Some? then reason.value else default
  }

  /** The first check that blocks all quoting. */
  function Gate(cfg: RiskConfig, i: RiskInput): (reason: Option<Reason>)
    ensures reason.None? ==> i.fair.isValid && i.fair.fair.Some? && i.fair.fair.value > 0.0
  {
    if !i.fair.isValid || i.fair.fair.None? then Some(ReasonOr(i.fair.reason, InvalidFairPrice)) else
    var spread := SpreadBps(i.book);
    if spread.None? then Some(MissingSpread)
    else if spread.value > cfg.maxSpreadBps then Some(SpreadTooWide)
    else if DepthAroundMid(i.book, 20.0) < cfg.minDepth then Some(BookTooThin)
    else if i.shock.activation < cfg.minActivation then Some(ActivationTooLow)
    else
      var skew := Skew(i.inventoryCfg, i.inventory, i.fair.fair);
      if skew.None? then Some(InvalidInventoryEquity)
      else if Abs(skew.value) > cfg.maxAbsSkew then Some(InventoryTooSkewed)
      else PairGate(cfg, i)
  }

  function PairGate(cfg: RiskConfig, i: RiskInput): Option<Reason> {
    if cfg.blockOnUnfetchedPairSpec && i.spec.None? then Some(PairSpecUnfetched)
    else if i.statusNormal.Some? && cfg.blockOnStatusNotNormal && !i.statusNormal.value then Some(StatusNotNormal)
    else if i.spec.Some? && cfg.blockOnPairStopFlags
            && (!i.spec.value.isEnabled || i.spec.value.stopOrder || i.spec.value.stopOrderAndCancel) then
               Some(PairStopFlag)
    else if i.book.stale && cfg.blockOnStaleBook then Some(ReasonOr(i.book.staleReason, BookStale))
    else None
  }

  function LastTradeDeviates(cfg: RiskConfig, r: RiskState, now: real, fair: real): bool
    requires fair > 0.0
  {
    && cfg.maxLastTradeDeviationBps > 0.0
    && r.lastTrade.Some?
    && now - r.lastTrade.value.ts <= cfg.lastTradeMaxAgeMs
    && Abs(r.lastTrade.value.value - fair) / fair * 10000.0 > cfg.maxLastTradeDeviationBps
  }

  /** The scan stops at the first sample later than the target. */
  function FairAtOrBefore(history: seq<Timed<real>>, target: real): Option<real> {
    if history == [] || history[0].ts > target then None else
    var later := FairAtOrBefore(history[1..], target);
    if later.Some? then later else Some(history[0].value)
  }

  function DriftAt(prior: Option<real>, fair: real, maxDrop: real, maxRise: real): set<Side> {
    if prior.None? || prior.value <= 0.0 then {} else
    var change := (fair - prior.value) / prior.value * 10000.0;
    (if maxDrop > 0.0 && change <= -maxDrop then {Buy} else {})
      + (if maxRise > 0.0 && change >= maxRise then {Sell} else {})
  }

  function DriftBlocked(cfg: RiskConfig, history: seq<Timed<real>>, now: real, fair: real): set<Side> {
    DriftAt(FairAtOrBefore(history, now - 1000.0), fair, cfg.maxDropBps1s, cfg.maxRiseBps1s)
    + DriftAt(FairAtOrBefore(history, now - 5000.0), fair, cfg.maxDropBps5s, cfg.maxRiseBps5s)
  }

  function LiveCooldowns(cooldownUntil: map<Side, real>, now: real): map<Side, real> {
    map side | side in cooldownUntil && now < cooldownUntil[side] :: cooldownUntil[side]
  }

  /** The limits that block a side, with the reason of each; a later one overwrites the reason of an earlier one. */
  function BalanceReasons(cfg: RiskConfig, inv: Inventory, fair: real): map<Side, Reason> {
    if cfg.negativeBalancesAllowed then map[] else
    var buy := if inv.quote < cfg.maxOrderSize * fair then map[Buy := QuoteBalanceInsufficient] else map[];
    if inv.base < cfg.maxOrderSize then buy[Sell := BaseBalanceInsufficient] else buy
  }

  predicate OverMaxBase(cfg: RiskConfig, inv: Inventory) {
    cfg.maxBaseQty > 0.0 && inv.base + cfg.maxOrderSize > cfg.maxBaseQty
  }

  predicate OverQuoteUsage(cfg: RiskConfig, inv: Inventory, fair: real) {
    cfg.maxQuoteUsage > 0.0 && Max(0.0, cfg.initialQuoteQty - inv.quote) + cfg.maxOrderSize * fair > cfg.maxQuoteUsage
  }

  predicate OverInventoryNotional(cfg: RiskConfig, inv: Inventory, fair: real) {
    cfg.maxInventoryNotional > 0.0 && (inv.base + cfg.maxOrderSize) * fair > cfg.maxInventoryNotional
  }

  predicate OverOneSide(cfg: RiskConfig, recent: real, fair: real) {
    cfg.maxOneSideChange > 0.0 && recent + cfg.maxOrderSize * fair > cfg.maxOneSideChange
  }

  function PositionReasons(cfg: RiskConfig, inv: Inventory, fair: real): map<Side, Reason> {
    var m0 := BalanceReasons(cfg, inv, fair);
    var m1 := if OverMaxBase(cfg, inv) then m0[Buy := MaxBaseQty] else m0;
    var m2 := if OverQuoteUsage(cfg, inv, fair) then m1[Buy := MaxQuoteUsage] else m1;
    if OverInventoryNotional(cfg, inv, fair) then m2[Buy := MaxInventoryNotional] else m2
  }

  function InventoryReasons(cfg: RiskConfig, inv: Inventory, fair: real, recentBuy: real, recentSell: real)
    : map<Side, Reason>
  {
    WithOneSide(cfg, PositionReasons(cfg, inv, fair), fair, recentBuy, recentSell)
  }

  function WithOneSide(cfg: RiskConfig, m: map<Side, Reason>, fair: real, recentBuy: real, recentSell: real)
    : map<Side, Reason>
  {
    var buy := if OverOneSide(cfg, recentBuy, fair) then m[Buy := OneSideChangeLimit] else m;
    if OverOneSide(cfg, recentSell, fair) then buy[Sell := OneSideChangeLimit] else buy
  }

  function Constant(sides: set<Side>, reason: Reason): map<Side, Reason> {
    map side | side in sides :: reason
  }

  /** Cooldown first, then drift, then inventory. */
  function SideReasons(cooldowns: map<Side, real>, drift: set<Side>, inventory: map<Side, Reason>): map<Side, Reason> {
    inventory + Constant(drift, FairDriftTooLarge) + Constant(cooldowns.Keys, FillBurstCooldown)
  }

  function LatestCooldown(cooldowns: map<Side, real>): Option<real> {
    if Buy in cooldowns && Sell in cooldowns then Some(Max(cooldowns[Buy], cooldowns[Sell]))
    else if Buy in cooldowns then Some(cooldowns[Buy])
    else if Sell in cooldowns then Some(cooldowns[Sell])
    else None
  }

  function Decide(cfg: RiskConfig, spec: Option<PairSpec>, cooldowns: map<Side, real>,
                  reasons: map<Side, Reason>): RiskDecision {
    var allowBuy := !(spec.Some? && spec.value.stopBuyOrder) && Buy !in reasons;
    var allowSell := !(spec.Some? && spec.value.stopSellOrder) && Sell !in reasons;
    var reason := if Buy in reasons then Some(reasons[Buy]) else if Sell in reasons then Some(reasons[Sell]) else None;
    RiskDecision(allowBuy || allowSell, allowBuy, allowSell, cfg.maxOrderSize, reason, LatestCooldown(cooldowns),
                 reasons)
  }

  function Blocked(reason: Reason): RiskDecision {
    RiskDecision(false, false, false, 0.0, Some(reason), None, map[])
  }

  const DEVIATION_BLOCK := RiskDecision(false, false, false, 0.0, Some(LastTradeDeviation), None,
                                        map[Buy := LastTradeDeviation, Sell := LastTradeDeviation])

  /** `recorded` says whether the evaluation got as far as recording the fair. */
  datatype Evaluated = Evaluated(state: RiskState, decision: RiskDecision, recorded: bool)

  function RecentChanges(cfg: RiskConfig, changes: seq<Timed<Change>>, now: real): seq<Timed<Change>> {
    if cfg.maxOneSideChange > 0.0 then DropExpired(changes, now, CHANGE_HISTORY_MS) else changes
  }

  function Evaluate(cfg: RiskConfig, r: RiskState, i: RiskInput): Evaluated {
    var gate := Gate(cfg, i);
    if gate.Some? then Evaluated(r, Blocked(gate.value), false) else
    var fair, now := i.fair.fair.value, i.now;
    if LastTradeDeviates(cfg, r, now, fair) then Evaluated(r, DEVIATION_BLOCK, false) else
    var drift := DriftBlocked(cfg, r.fairHistory, now, fair);
    var cooldowns := LiveCooldowns(r.cooldownUntil, now);
    var changes := RecentChanges(cfg, r.changes, now);
    var next := r.(fairHistory := DropExpired(r.fairHistory + [Timed(now, fair)], now, FAIR_HISTORY_MS),
                   cooldownUntil := cooldowns, changes := changes);
    var inventory := InventoryReasons(cfg, i.inventory, fair, SideNotional(changes, Buy), SideNotional(changes, Sell));
    Evaluated(next, Decide(cfg, i.spec, cooldowns, SideReasons(cooldowns, drift, inventory)), true)
  }

  // ----- the object -----

  class RiskKernel {
    const cfg: RiskConfig
    var fairHistory: seq<Timed<real>>
    var fillHistory: seq<Timed<Side>>
    var changes: seq<Timed<Change>>
    var cooldownUntil: map<Side, real>
    var lastTrade: Option<Timed<real>>

    function State(): RiskState
      reads this
    {
      RiskState(fairHistory, fillHistory, changes, cooldownUntil, lastTrade)
    }

    constructor (cfg: RiskConfig)
      ensures this.cfg == cfg && State() == NO_RISK_HISTORY
    {
      this.cfg := cfg;
      fairHistory, fillHistory, changes, cooldownUntil, lastTrade := [], [], [], map[], None;
    }

    method Fill(side: Side, ts: real, price: real, amount: real)
      modifies this
      ensures State() == RecordFill(cfg, old(State()), side, ts, price, amount)
    {
      changes := changes + [Timed(ts, Change(side, FillNotional(price, amount)))];
      if cfg.maxSameSideFills <= 0 {
        return;
      }
      NoteBurst(side, ts);
      ghost var changed := old(State()).(changes := changes);
      assert State() == changed.(fillHistory := fillHistory, cooldownUntil := cooldownUntil);
    }

    method NoteBurst(side: Side, ts: real)
      modifies this`fillHistory, this`cooldownUntil
      ensures fillHistory == DropExpired(old(fillHistory) + [Timed(ts, side)], ts, cfg.burstWindowMs)
      ensures cooldownUntil == CooldownAfter(cfg, old(cooldownUntil), fillHistory, side, ts)
    {
      fillHistory := fillHistory + [Timed(ts, side)];
      ExpireFills(ts, cfg.burstWindowMs);
      StartCooldown(side, ts);
    }

    method StartCooldown(side: Side, ts: real)
      modifies this`cooldownUntil
      ensures cooldownUntil == CooldownAfter(cfg, old(cooldownUntil), fillHistory, side, ts)
    {
      var sameSide := CountSide(fillHistory, side);
      if sameSide >= cfg.maxSameSideFills {
        cooldownUntil := cooldownUntil[side := ts + cfg.burstCooldownMs];
      }
    }

    method Trade(price: real, ts: real)
      modifies this
      ensures State() == RecordTrade(old(State()), price, ts)
    {
      if price > 0.0 {
        lastTrade := Some(Timed(ts, price));
      }
    }

    method ExpireFills(now: real, window: real)
      modifies this`fillHistory
      ensures fillHistory == DropExpired(old(fillHistory), now, window)
    {
      while fillHistory != [] && now - fillHistory[0].ts > window
        invariant DropExpired(fillHistory, now, window) == DropExpired(old(fillHistory), now, window)
        decreases |fillHistory|
      {
        fillHistory := fillHistory[1..];
      }
    }

    method RecordFair(now: real, fair: real)
      modifies this`fairHistory
      ensures fairHistory == DropExpired(old(fairHistory) + [Timed(now, fair)], now, FAIR_HISTORY_MS)
    {
      fairHistory := fairHistory + [Timed(now, fair)];
      ghost var all := fairHistory;
      while fairHistory != [] && now - fairHistory[0].ts > FAIR_HISTORY_MS
        invariant DropExpired(fairHistory, now, FAIR_HISTORY_MS) == DropExpired(all, now, FAIR_HISTORY_MS)
        decreases |fairHistory|
      {
        fairHistory := fairHistory[1..];
      }
    }

    method ExpireChanges(now: real)
      modifies this`changes
      ensures changes == DropExpired(old(changes), now, CHANGE_HISTORY_MS)
    {
      while changes != [] && now - changes[0].ts > CHANGE_HISTORY_MS
        invariant DropExpired(changes, now, CHANGE_HISTORY_MS) == DropExpired(old(changes), now, CHANGE_HISTORY_MS)
        decreases |changes|
      {
        changes := changes[1..];
      }
    }

    method PriorFair(target: real) returns (value: Option<real>)
      ensures value == FairAtOrBefore(fairHistory, target)
    {
      value := None;
      var i := 0;
      assert fairHistory[0..] == fairHistory;
      while i < |fairHistory| && fairHistory[i].ts <= target
        invariant 0 <= i <= |fairHistory|
        invariant var rest := FairAtOrBefore(fairHistory[i..], target);
                  FairAtOrBefore(fairHistory, target) == if rest.Some? then rest else value
      {
        assert fairHistory[i..][1..] == fairHistory[i + 1..];
        value := Some(fairHistory[i].value);
        i := i + 1;
      }
    }

    method DriftingSides(now: real, fair: real) returns (sides: set<Side>)
      ensures sides == DriftBlocked(cfg, fairHistory, now, fair)
    {
      var prior1 := PriorFair(now - 1000.0);
      var prior5 := PriorFair(now - 5000.0);
      sides := DriftAt(prior1, fair, cfg.maxDropBps1s, cfg.maxRiseBps1s)
        + DriftAt(prior5, fair, cfg.maxDropBps5s, cfg.maxRiseBps5s);
    }

    /** Drops the cooldowns that have run out; the rest still block. */
    method CoolingSides(now: real)
      modifies this`cooldownUntil
      ensures cooldownUntil == LiveCooldowns(old(cooldownUntil), now)
    {
      if Buy in cooldownUntil && now >= cooldownUntil[Buy] {
        cooldownUntil := cooldownUntil - {Buy};
      }
      if Sell in cooldownUntil && now >= cooldownUntil[Sell] {
        cooldownUntil := cooldownUntil - {Sell};
      }
      forall side: Side ensures side in cooldownUntil <==> side in LiveCooldowns(old(cooldownUntil), now) {
        match side
        case Buy =>
        case Sell =>
      }
    }

    method InventoryBlocks(inv: Inventory, fair: real, now: real) returns (reasons: map<Side, Reason>)
      modifies this`changes
      ensures changes == RecentChanges(cfg, old(changes), now)
      ensures reasons == InventoryReasons(cfg, inv, fair, SideNotional(changes, Buy), SideNotional(changes, Sell))
    {
      hide PositionReasons, SideNotional, DropExpired;
      reasons := PositionBlocks(inv, fair);
      if cfg.maxOneSideChange > 0.0 {
        ExpireChanges(now);
        reasons := OneSideBlocks(reasons, fair);
      }
    }

    method OneSideBlocks(blocked: map<Side, Reason>, fair: real) returns (reasons: map<Side, Reason>)
      requires cfg.maxOneSideChange > 0.0
      ensures reasons == WithOneSide(cfg, blocked, fair, SideNotional(changes, Buy), SideNotional(changes, Sell))
    {
      hide SideNotional;
      reasons := blocked;
      var recentBuy, recentSell := SideNotional(changes, Buy), SideNotional(changes, Sell);
      if recentBuy + cfg.maxOrderSize * fair > cfg.maxOneSideChange {
        reasons := reasons[Buy := OneSideChangeLimit];
      }
      if recentSell + cfg.maxOrderSize * fair > cfg.maxOneSideChange {
        reasons := reasons[Sell := OneSideChangeLimit];
      }
    }

    method PositionBlocks(inv: Inventory, fair: real) returns (reasons: map<Side, Reason>)
      ensures reasons == PositionReasons(cfg, inv, fair)
    {
      reasons := BalanceBlocks(inv, fair);
      if cfg.maxBaseQty > 0.0 && inv.base + cfg.maxOrderSize > cfg.maxBaseQty {
        reasons := reasons[Buy := MaxBaseQty];
      }
      if cfg.maxQuoteUsage > 0.0 {
        var used := Max(0.0, cfg.initialQuoteQty - inv.quote);
        if used + cfg.maxOrderSize * fair > cfg.maxQuoteUsage {
          reasons := reasons[Buy := MaxQuoteUsage];
        }
      }
      if cfg.maxInventoryNotional > 0.0 && (inv.base + cfg.maxOrderSize) * fair > cfg.maxInventoryNotional {
        reasons := reasons[Buy := MaxInventoryNotional];
      }
    }

    method BalanceBlocks(inv: Inventory, fair: real) returns (reasons: map<Side, Reason>)
      ensures reasons == BalanceReasons(cfg, inv, fair)
    {
      reasons := map[];
      if !cfg.negativeBalancesAllowed {
        if inv.quote < cfg.maxOrderSize * fair {
          reasons := reasons[Buy := QuoteBalanceInsufficient];
        }
        if inv.base < cfg.maxOrderSize {
          reasons := reasons[Sell := BaseBalanceInsufficient];
        }
      }
    }

    method Assess(i: RiskInput) returns (decision: RiskDecision, ghost recorded: bool)
      modifies this
      ensures Evaluated(State(), decision, recorded) == Evaluate(cfg, old(State()), i)
    {
      hide Gate, LastTradeDeviates, DriftBlocked, InventoryReasons, SideReasons, Decide, SideNotional, DropExpired,
        LiveCooldowns, RecentChanges;
      recorded := false;
      var gate := Gate(cfg, i);
      if gate.Some? {
        return Blocked(gate.value), false;
      }
      var fair := i.fair.fair.value;
      if LastTradeDeviates(cfg, State(), i.now, fair) {
        return DEVIATION_BLOCK, false;
      }
      var drift := DriftingSides(i.now, fair);
      RecordFair(i.now, fair);
      CoolingSides(i.now);
      var inventory := InventoryBlocks(i.inventory, fair, i.now);
      decision := Decide(cfg, i.spec, cooldownUntil, SideReasons(cooldownUntil, drift, inventory));
      recorded := true;
    }
  }
}
