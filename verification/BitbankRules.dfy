/** The exchange's order rules for one pair. */
module BitbankRules {
  import opened Types
  import opened Rounding

  function TickSize(spec: PairSpec): real {
    TenTo(-spec.priceDigits)
  }

  function LotSize(spec: PairSpec): real {
    TenTo(-spec.amountDigits)
  }

  /** The checks that do not depend on price and amount. */
  function PairVerdict(spec: PairSpec, side: Side): Verdict {
    if !spec.isBtcJpy then PairMustBeBtcJpy
    else if !spec.isEnabled then PairDisabled
    else if spec.stopOrder || spec.stopOrderAndCancel then PairOrderStopped
    else if side.Buy? && spec.stopBuyOrder then BuyStopped
    else if side.Sell? && spec.stopSellOrder then SellStopped
    else Accepted
  }

  function ValidateOrder(spec: PairSpec, side: Side, price: real, amount: real): Verdict {
    if !PairVerdict(spec, side).Accepted? then PairVerdict(spec, side)
    else if amount < spec.unitAmount then AmountBelowUnit
    else if amount > spec.limitMaxAmount then AmountAboveLimit
    else if FloorToStep(amount, LotSize(spec)) != amount then AmountPrecision
    else if FloorToStep(price, TickSize(spec)) != price then PricePrecision
    else Accepted
  }

  /** The maker fee taken over from a pair spec; a rebate is clamped to zero on request. */
  function MakerFeeBps(spec: PairSpec, clampNegative: bool): real {
    var bps := spec.makerFeeRateQuote * 10000.0;
    if bps < 0.0 && clampNegative then 0.0 else bps
  }
}
