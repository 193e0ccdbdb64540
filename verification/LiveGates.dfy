/** The gates in front of a live order. The replay core evaluates them for every placed order and reports the reason
    for blocking it; an order that passes all gates is blocked as well. */
module LiveGates {
  import opened Types
  import opened OrderBooks
  import opened BitbankRules

  /** Configuration and environment, as far as the gates look at them. */
  datatype GateConfig = GateConfig(modeLive: bool, venueBitbank: bool, liveOrdersEnabled: bool, envVarSet: bool,
                                   apiKeysSet: bool, postOnlyForced: bool, unmanagedOrders: bool,
                                   withdrawalConfirmed: bool, qualityGatePassed: bool, pairBtcJpy: bool,
                                   clockDriftLimitMs: real)

  /** The gates on configuration and environment, in order. */
  function ConfigGate(cfg: GateConfig, spec: Option<PairSpec>, normal: Option<bool>): (reason: Option<GateReason>)
    ensures reason.None? ==> spec.Some? && normal == Some(true)
  {
    if !cfg.modeLive then Some(ModeNotLive)
    else if !cfg.venueBitbank then Some(VenueNotBitbank)
    else if !cfg.liveOrdersEnabled then Some(LiveOrdersDisabled)
    else if !cfg.envVarSet then Some(EnvVarMissing)
    else if !cfg.apiKeysSet then Some(ApiKeyMissing)
    else if spec.None? then Some(PairSpecMissing)
    else if normal.None? || !normal.value then Some(ExchangeNotNormal)
    else if !cfg.postOnlyForced then Some(PostOnlyNotForced)
    else if cfg.unmanagedOrders then Some(UnmanagedOrdersOpen)
    else if !cfg.withdrawalConfirmed then Some(WithdrawalUnconfirmed)
    else if !cfg.qualityGatePassed then Some(QualityGateNotPassed)
    else None
  }

  /** The gates on the pair and the clock; the drift passed in by the replay core is zero. */
  function PairGateReason(cfg: GateConfig, spec: PairSpec, side: Side): Option<GateReason> {
    if !cfg.pairBtcJpy || !spec.isBtcJpy then Some(NotBtcJpy)
    else if !spec.isEnabled then Some(GatePairDisabled)
    else if spec.stopOrder || spec.stopOrderAndCancel then Some(GatePairStopped)
    else if side.Buy? && spec.stopBuyOrder then Some(GateBuyStopped)
    else if side.Sell? && spec.stopSellOrder then Some(GateSellStopped)
    else if 0.0 > cfg.clockDriftLimitMs then Some(ClockDriftTooHigh)
    else None
  }

  predicate Crosses(b: BookState, side: Side, price: real) {
    if side.Buy? then BestAsk(b).Some? && price >= BestAsk(b).value
    else BestBid(b).Some? && price <= BestBid(b).value
  }

  /** The gates on the order itself. */
  function OrderGate(spec: PairSpec, b: BookState, risk: RiskDecision, o: ActiveOrder): GateReason {
    if !risk.allowQuote || !Allows(risk, o.side) then RiskKernelBlocked
    else if Crosses(b, o.side, o.price) then WouldCross
    else
      var verdict := ValidateOrder(spec, o.side, o.price, o.size);
      if verdict.Accepted? then SubmissionDisabled else Invalid(verdict)
  }

  /** Everything the gates look at besides the order. */
  datatype GateView = GateView(cfg: GateConfig, spec: Option<PairSpec>, normal: Option<bool>, book: BookState,
                               risk: RiskDecision)

  /** Orders of the replay core are post-only limit orders. */
  function GateReasonOf(v: GateView, o: ActiveOrder): GateReason {
    var reason := ConfigGate(v.cfg, v.spec, v.normal);
    if reason.Some? then reason.value else
    var pair := PairGateReason(v.cfg, v.spec.value, o.side);
    if pair.Some? then pair.value else OrderGate(v.spec.value, v.book, v.risk, o)
  }
}
