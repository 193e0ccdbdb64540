/** Base and quote balances. */
module Inventories {
  import opened Types

  datatype InventoryConfig = InventoryConfig(targetBaseRatio: real, negativeBalancesAllowed: bool)

  datatype Inventory = Inventory(base: real, quote: real)

  /** The deviation of the base ratio from its target; None without a positive fair and equity. */
  function Skew(cfg: InventoryConfig, inv: Inventory, fair: Option<real>): (s: Option<real>)
    ensures s.Some? ==> fair.Some? && fair.value > 0.0
  {
    if fair.None? || fair.value <= 0.0 then None else
    var equity := inv.base * fair.value + inv.quote;
    if equity <= 0.0 then None else Some(inv.base * fair.value / equity - cfg.targetBaseRatio)
  }

  function ApplyFill(inv: Inventory, side: Side, price: real, amount: real, fee: real): Inventory {
    if side.Buy? then Inventory(inv.base + amount, inv.quote - (price * amount + fee))
    else Inventory(inv.base - amount, inv.quote + (price * amount - fee))
  }

  /** Balances on which applying a fill raises, after they have been updated. */
  predicate Overdrawn(cfg: InventoryConfig, inv: Inventory) {
    !cfg.negativeBalancesAllowed && (inv.base < -0.000000000001 || inv.quote < -0.000001)
  }

  class InventoryState {
    const cfg: InventoryConfig
    var baseQty: real
    var quoteQty: real

    function State(): Inventory
      reads this
    {
      Inventory(baseQty, quoteQty)
    }

    constructor (cfg: InventoryConfig, base: real, quote: real)
      ensures this.cfg == cfg && State() == Inventory(base, quote)
    {
      this.cfg, baseQty, quoteQty := cfg, base, quote;
    }

    /** Not ok when the fill overdraws a balance; the balances have changed by then. */
    method Apply(side: Side, price: real, amount: real, fee: real) returns (ok: bool)
      modifies this
      ensures State() == ApplyFill(old(State()), side, price, amount, fee)
      ensures ok <==> !Overdrawn(cfg, State())
    {
      if side.Buy? {
        baseQty := baseQty + amount;
        quoteQty := quoteQty - (price * amount + fee);
      } else {
        baseQty := baseQty - amount;
        quoteQty := quoteQty + (price * amount - fee);
      }
      ok := cfg.negativeBalancesAllowed || (baseQty >= -0.000000000001 && quoteQty >= -0.000001);
    }
  }
}
