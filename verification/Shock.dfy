/** Forced-flow detection over a rolling window of trades, and the activation that follows a shock. */
module Shocks {
  import opened Types
  import opened Windows
  import opened OrderBooks

  datatype ShockConfig = ShockConfig(windowMs: real, depthBps: real, threshold: real, temperature: real,
                                     minWaitMs: real, decayMs: real, oppositeRatio: real)

  /** One trade's notional; the side is None when its text is neither "buy" nor "sell". */
  datatype Flow = Flow(side: Option<Side>, notional: real)

  datatype ShockMemory = ShockMemory(trades: seq<Timed<Flow>>, lastTs: Option<real>,
                                     lastId: Option<ShockId>, lastDirection: Direction)

  const NO_SHOCK := ShockMemory([], None, None, Neutral)

  function FlowSum(trades: seq<Timed<Flow>>, side: Side): real {
    if trades == [] then 0.0 else
    var last := trades[|trades| - 1].value;
    FlowSum(trades[..|trades| - 1], side) + (if last.side == Some(side) then last.notional else 0.0)
  }

  function PressureDirection(buy: real, sell: real): Direction {
    if sell > buy then SellShock else if buy > sell then BuyShock else Neutral
  }

  function Product(x: real, y: real): real {
    x * y
  }

  /** The bid and ask activation: the opposite side gets a clamped share. */
  function SideActivations(activation: real, direction: Direction, oppositeRatio: real): (real, real) {
    var opposite := Product(Max(0.0, Min(1.0, oppositeRatio)), activation);
    match direction
    case SellShock => (activation, opposite)
    case BuyShock => (opposite, activation)
    case Neutral => (0.0, 0.0)
  }

  /** Sigmoid of the force ratio, decayed with the age of the shock. */
  function Activation(cfg: ShockConfig, exp: ExpFn, forceRatio: real, age: real): (a: real)
    ensures 0.0 <= a <= 1.0
  {
    Max(0.0, Min(1.0, Product(Sigmoid(cfg, exp, forceRatio), Decay(cfg, exp, age))))
  }

  function Sigmoid(cfg: ShockConfig, exp: ExpFn, forceRatio: real): (a: real)
    ensures 0.0 < a < 1.0
  {
    Logistic(exp(Exponent(cfg, forceRatio)))
  }

  function Exponent(cfg: ShockConfig, forceRatio: real): real {
    -cfg.temperature * (forceRatio - cfg.threshold)
  }

  function Logistic(e: real): (a: real)
    requires e > 0.0
    ensures 0.0 < a < 1.0
  {
    SharePositive(e);
    1.0 / (1.0 + e)
  }

  lemma SharePositive(e: real)
    requires e > 0.0
    ensures 0.0 < 1.0 / (1.0 + e) < 1.0
  {
    var x := 1.0 / (1.0 + e);
    assert x * (1.0 + e) == 1.0;
  }

  function Decay(cfg: ShockConfig, exp: ExpFn, age: real): (d: real)
    ensures d > 0.0
  {
    exp(-age / Max(cfg.decayMs, 1.0))
  }

  // ----- the activation falls with age and follows the force -----

  lemma DecayFalls(cfg: ShockConfig, exp: ExpFn, younger: real, older: real)
    requires younger <= older
    ensures Decay(cfg, exp, older) <= Decay(cfg, exp, younger)
  {
    var scale := Max(cfg.decayMs, 1.0);
    assert -younger / scale - -older / scale == (older - younger) / scale;
    ExpMono(exp, -older / scale, -younger / scale);
  }

  lemma ExpMono(exp: ExpFn, x: real, y: real)
    requires x <= y
    ensures 0.0 < exp(x) <= exp(y)
  {
    assert x < y ==> exp(x) < exp(y);
  }

  lemma LogisticFalls(x: real, y: real)
    requires 0.0 < x <= y
    ensures Logistic(y) <= Logistic(x)
    ensures x < y ==> Logistic(y) < Logistic(x)
  {
    var p, q := 1.0 + x, 1.0 + y;
    assert 1.0 / p - 1.0 / q == (q - p) / (p * q);
    assert p * q > 0.0;
  }

  lemma SigmoidRises(cfg: ShockConfig, exp: ExpFn, weaker: real, stronger: real)
    requires weaker <= stronger && cfg.temperature >= 0.0
    ensures Sigmoid(cfg, exp, weaker) <= Sigmoid(cfg, exp, stronger)
  {
    hide Exponent, Logistic;
    var x, y := Exponent(cfg, weaker), Exponent(cfg, stronger);
    ExponentFalls(cfg, weaker, stronger);
    ExpMono(exp, y, x);
    LogisticFalls(exp(y), exp(x));
  }

  lemma ExponentFalls(cfg: ShockConfig, weaker: real, stronger: real)
    requires cfg.temperature >= 0.0 && weaker <= stronger
    ensures Exponent(cfg, stronger) <= Exponent(cfg, weaker)
  {
    assert cfg.temperature * (stronger - weaker) >= 0.0;
    assert Exponent(cfg, weaker) - Exponent(cfg, stronger) == cfg.temperature * (stronger - weaker);
  }

  /** On a negative temperature one unit more of force lowers the sigmoid. */
  lemma ColdSigmoidFalls(cfg: ShockConfig, exp: ExpFn)
    requires cfg.temperature < 0.0
    ensures Sigmoid(cfg, exp, cfg.threshold + 1.0) < Sigmoid(cfg, exp, cfg.threshold)
  {
    ColdExponents(cfg);
    hide Exponent, Logistic;
    assert exp(0.0) < exp(-cfg.temperature);
    LogisticFalls(exp(0.0), exp(-cfg.temperature));
  }

  lemma ColdExponents(cfg: ShockConfig)
    ensures Exponent(cfg, cfg.threshold) == 0.0 && Exponent(cfg, cfg.threshold + 1.0) == -cfg.temperature
  {
    assert cfg.threshold + 1.0 - cfg.threshold == 1.0 && cfg.threshold - cfg.threshold == 0.0;
  }

  lemma ProductsOrdered(x: real, y: real, z: real)
    requires x <= y && z >= 0.0
    ensures Product(x, z) <= Product(y, z) && Product(z, x) <= Product(z, y)
  {
    assert (y - x) * z >= 0.0;
  }

  lemma ProductsApart(x: real, y: real, z: real)
    requires x < y && z > 0.0
    ensures Product(x, z) < Product(y, z)
  {
    assert Product(y, z) - Product(x, z) == Product(y - x, z);
  }

  /** An older shock never activates more. */
  lemma ActivationFades(cfg: ShockConfig, exp: ExpFn, forceRatio: real, younger: real, older: real)
    requires younger <= older
    ensures Activation(cfg, exp, forceRatio, older) <= Activation(cfg, exp, forceRatio, younger)
  {
    hide Sigmoid, Decay, Product;
    DecayFalls(cfg, exp, younger, older);
    ProductsOrdered(Decay(cfg, exp, older), Decay(cfg, exp, younger), Sigmoid(cfg, exp, forceRatio));
  }

  ghost predicate NeverLess(cfg: ShockConfig, exp: ExpFn, weaker: real, stronger: real, age: real) {
    Activation(cfg, exp, weaker, age) <= Activation(cfg, exp, stronger, age)
  }

  /** At every age of a shock: more force never activates less if and only if the temperature is not negative. */
  lemma ActivationRisesIff(cfg: ShockConfig, exp: ExpFn, age: real)
    requires age >= 0.0
    ensures (forall weaker: real, stronger: real :: weaker <= stronger ==> NeverLess(cfg, exp, weaker, stronger, age))
            <==> cfg.temperature >= 0.0
  {
    hide Sigmoid, Decay, Product;
    if cfg.temperature >= 0.0 {
      forall weaker: real, stronger: real | weaker <= stronger ensures NeverLess(cfg, exp, weaker, stronger, age) {
        SigmoidRises(cfg, exp, weaker, stronger);
        ProductsOrdered(Sigmoid(cfg, exp, weaker), Sigmoid(cfg, exp, stronger), Decay(cfg, exp, age));
      }
    } else {
      ColdActivationFalls(cfg, exp, age);
      assert !NeverLess(cfg, exp, cfg.threshold, cfg.threshold + 1.0, age);
    }
  }

  lemma ColdActivationFalls(cfg: ShockConfig, exp: ExpFn, age: real)
    requires age >= 0.0 && cfg.temperature < 0.0
    ensures Activation(cfg, exp, cfg.threshold + 1.0, age) < Activation(cfg, exp, cfg.threshold, age)
  {
    hide Sigmoid, Decay, Product, Activation;
    var f, g := cfg.threshold, cfg.threshold + 1.0;
    ColdSigmoidFalls(cfg, exp);
    ProductsApart(Sigmoid(cfg, exp, g), Sigmoid(cfg, exp, f), Decay(cfg, exp, age));
    Unclamped(cfg, exp, f, age);
    Unclamped(cfg, exp, g, age);
  }

  lemma Unclamped(cfg: ShockConfig, exp: ExpFn, forceRatio: real, age: real)
    requires age >= 0.0
    ensures Activation(cfg, exp, forceRatio, age) == Product(Sigmoid(cfg, exp, forceRatio), Decay(cfg, exp, age))
  {
    hide Sigmoid;
    assert Decay(cfg, exp, 0.0) == 1.0 by {
      assert -0.0 / Max(cfg.decayMs, 1.0) == 0.0;
      assert exp(0.0) == 1.0;
    }
    DecayFalls(cfg, exp, 0.0, age);
    hide Decay, Product;
    ProductShare(Sigmoid(cfg, exp, forceRatio), Decay(cfg, exp, age));
  }

  /** The event's trade, if it is one, as an entry of the window. */
  function TradeFlow(e: Event): seq<Timed<Flow>> {
    match e.payload
    case Trade(side, price, amount) => [Timed(e.ts, Flow(side, price * amount))]
    case _ => []
  }

  datatype Observation = Observation(buy: real, sell: real, depth: real, forceRatio: real, direction: Direction)

  function Observe(cfg: ShockConfig, trades: seq<Timed<Flow>>, b: BookState): Observation {
    var buy, sell := FlowSum(trades, Buy), FlowSum(trades, Sell);
    var depth := DepthAroundMid(b, cfg.depthBps);
    Observation(buy, sell, depth, Max(buy, sell) / Max(depth, 1.0), PressureDirection(buy, sell))
  }

  /** A new shock needs enough force and more than one window since the last one. */
  predicate Triggers(cfg: ShockConfig, m: ShockMemory, o: Observation, now: real) {
    o.forceRatio >= cfg.threshold && (m.lastTs.None? || now - m.lastTs.value > cfg.windowMs)
  }

  function Detect(cfg: ShockConfig, m: ShockMemory, o: Observation, e: Event): Option<ShockId> {
    if Triggers(cfg, m, o, e.ts) then
      Some(ShockId(e.ts, e.venue, e.symbol, e.sequence, o.forceRatio, o.buy, o.sell, o.depth, o.direction))
    else None
  }

  /** The state published for an event, given the memory after detection. */
  function Publish(cfg: ShockConfig, exp: ExpFn, m: ShockMemory, o: Observation, fair: FairState,
                   now: real): ShockState {
    var age := if m.lastTs.Some? then Some(now - m.lastTs.value) else None;
    var waiting := age.Some? && age.value < cfg.minWaitMs;
    var active := age.Some? && !waiting && fair.isValid;
    var activation := if active then Activation(cfg, exp, o.forceRatio, age.value) else 0.0;
    var direction := if age.None? || !fair.isValid then Neutral else m.lastDirection;
    var reason := if !fair.isValid then (if fair.reason.Some? then fair.reason.value else InvalidFair)
                  else if age.None? then NoRecentShock else if waiting then WaitingAfterShock else AftershockRebuild;
    var (bid, ask) := SideActivations(activation, direction, cfg.oppositeRatio);
    ShockState(activation, o.forceRatio, o.buy, o.sell, o.depth, m.lastTs, reason, direction, bid, ask, m.lastId, age)
  }

  datatype ShockUpdate = ShockUpdate(memory: ShockMemory, state: ShockState, shock: Option<ShockId>)

  function Remember(m: ShockMemory, shock: Option<ShockId>): ShockMemory {
    if shock.None? then m
    else m.(lastTs := Some(shock.value.ts), lastId := shock, lastDirection := shock.value.direction)
  }

  function ShockStep(cfg: ShockConfig, exp: ExpFn, m: ShockMemory, e: Event, b: BookState,
                     fair: FairState): ShockUpdate {
    var seen := m.(trades := DropExpired(m.trades + TradeFlow(e), e.ts, cfg.windowMs));
    var o := Observe(cfg, seen.trades, b);
    var shock := Detect(cfg, seen, o, e);
    var next := Remember(seen, shock);
    ShockUpdate(next, Publish(cfg, exp, next, o, fair, e.ts), shock)
  }

  // ----- what an update guarantees -----

  lemma SidesShare(activation: real, direction: Direction, oppositeRatio: real)
    requires activation >= 0.0
    ensures var (bid, ask) := SideActivations(activation, direction, oppositeRatio);
            && 0.0 <= bid <= activation && 0.0 <= ask <= activation
            && (direction.SellShock? ==> bid == activation) && (direction.BuyShock? ==> ask == activation)
  {
    hide Product;
    ProductShare(Max(0.0, Min(1.0, oppositeRatio)), activation);
  }

  lemma ProductShare(share: real, x: real)
    requires 0.0 <= share <= 1.0 && x >= 0.0
    ensures 0.0 <= Product(share, x) <= x
  {
    assert x - share * x == (1.0 - share) * x;
  }

  /** What is published is active only with a valid fair and after the wait, and the sides get shares of it. */
  lemma Published(cfg: ShockConfig, exp: ExpFn, m: ShockMemory, o: Observation, fair: FairState, now: real)
    ensures var s := Publish(cfg, exp, m, o, fair, now);
            && 0.0 <= s.activation <= 1.0 && s.lastShockId == m.lastId
            && 0.0 <= s.bidActivation <= s.activation && 0.0 <= s.askActivation <= s.activation
            && (s.direction.SellShock? ==> s.bidActivation == s.activation)
            && (s.direction.BuyShock? ==> s.askActivation == s.activation)
            && (s.activation > 0.0 ==> fair.isValid && m.lastTs.Some? && now - m.lastTs.value >= cfg.minWaitMs)
  {
    hide Activation, SideActivations;
    var s := Publish(cfg, exp, m, o, fair, now);
    SidesShare(s.activation, s.direction, cfg.oppositeRatio);
  }

  /** Quoting activation needs a valid fair and a shock that has aged past the minimum wait. */
  lemma ActiveOnlyAfterWait(cfg: ShockConfig, exp: ExpFn, m: ShockMemory, e: Event, b: BookState, fair: FairState)
    ensures var u := ShockStep(cfg, exp, m, e, b, fair);
            u.state.bidActivation > 0.0 || u.state.askActivation > 0.0 ==>
              && fair.isValid
              && u.memory.lastTs.Some?
              && e.ts - u.memory.lastTs.value >= cfg.minWaitMs
              && u.state.activation > 0.0
              && u.state.lastShockId == u.memory.lastId
  {
    hide Observe, Detect, DropExpired, Publish, Remember, TradeFlow;
    var u := ShockStep(cfg, exp, m, e, b, fair);
    var seen := m.(trades := DropExpired(m.trades + TradeFlow(e), e.ts, cfg.windowMs));
    Published(cfg, exp, u.memory, Observe(cfg, seen.trades, b), fair, e.ts);
  }

  /** Activations are shares: 0 <= side activation <= activation <= 1, and the shock's own side gets all of it. */
  lemma ActivationShares(cfg: ShockConfig, exp: ExpFn, m: ShockMemory, e: Event, b: BookState, fair: FairState)
    ensures var s := ShockStep(cfg, exp, m, e, b, fair).state;
            && 0.0 <= s.activation <= 1.0
            && 0.0 <= s.bidActivation <= s.activation && 0.0 <= s.askActivation <= s.activation
            && (s.direction.SellShock? ==> s.bidActivation == s.activation)
            && (s.direction.BuyShock? ==> s.askActivation == s.activation)
  {
    hide Observe, Detect, DropExpired, Publish, Remember, TradeFlow;
    var seen := m.(trades := DropExpired(m.trades + TradeFlow(e), e.ts, cfg.windowMs));
    var o := Observe(cfg, seen.trades, b);
    Published(cfg, exp, Remember(seen, Detect(cfg, seen, o, e)), o, fair, e.ts);
  }

  /** The memory after an update points at the shock of this update, if there is one, and else where it did before. */
  lemma ShockRemembered(cfg: ShockConfig, exp: ExpFn, m: ShockMemory, e: Event, b: BookState, fair: FairState)
    ensures var u := ShockStep(cfg, exp, m, e, b, fair);
            if u.shock.Some? then u.memory.lastTs == Some(u.shock.value.ts) && u.memory.lastId == u.shock
            else u.memory.lastTs == m.lastTs && u.memory.lastId == m.lastId
    ensures var u := ShockStep(cfg, exp, m, e, b, fair);
            u.shock.Some? && m.lastTs.Some? ==> u.shock.value.ts - m.lastTs.value > cfg.windowMs
  {
    hide Observe, DropExpired, Publish, TradeFlow;
  }

  class ShockActivator {
    const cfg: ShockConfig
    const exp: ExpFn
    var trades: seq<Timed<Flow>>
    var lastShockTs: Option<real>
    var lastShockId: Option<ShockId>
    var lastShockDirection: Direction

    function State(): ShockMemory
      reads this
    {
      ShockMemory(trades, lastShockTs, lastShockId, lastShockDirection)
    }

    constructor (cfg: ShockConfig, exp: ExpFn)
      ensures this.cfg == cfg && this.exp == exp && State() == NO_SHOCK
    {
      this.cfg, this.exp := cfg, exp;
      trades, lastShockTs, lastShockId, lastShockDirection := [], None, None, Neutral;
    }

    method Update(e: Event, book: OrderBook, fair: FairState) returns (state: ShockState, shock: Option<ShockId>)
      modifies this
      ensures ShockUpdate(State(), state, shock) == ShockStep(cfg, exp, old(State()), e, old(book.State()), fair)
    {
      hide Observe, DropExpired, TradeFlow, Detect, Remember, Publish;
      var b := book.State();
      Append(e);
      Expire(e.ts);
      ghost var seen := old(State()).(trades := DropExpired(old(State()).trades + TradeFlow(e), e.ts, cfg.windowMs));
      assert State() == seen;
      var o := Observe(cfg, trades, b);
      shock := NoteShock(o, e);
      state := Describe(o, fair, e.ts);
    }

    method Append(e: Event)
      modifies this`trades
      ensures trades == old(trades) + TradeFlow(e)
    {
      match e.payload {
        case Trade(side, price, amount) =>
          var trade := Timed(e.ts, Flow(side, price * amount));
          assert TradeFlow(e)[0].value == trade.value;
          trades := trades + [trade];
        case _ =>
          assert trades == trades + TradeFlow(e);
      }
    }

    /** Takes down a new shock, if there is one. */
    method NoteShock(o: Observation, e: Event) returns (shock: Option<ShockId>)
      modifies this
      ensures shock == Detect(cfg, old(State()), o, e) && State() == Remember(old(State()), shock)
    {
      ghost var m := State();
      shock := None;
      if o.forceRatio >= cfg.threshold && (lastShockTs.None? || e.ts - lastShockTs.value > cfg.windowMs) {
        shock := Some(ShockId(e.ts, e.venue, e.symbol, e.sequence, o.forceRatio, o.buy, o.sell, o.depth, o.direction));
        lastShockTs, lastShockId, lastShockDirection := Some(e.ts), shock, o.direction;
        assert Triggers(cfg, m, o, e.ts);
      }
      assert State() == Remember(m, shock);
    }

    method Describe(o: Observation, fair: FairState, now: real) returns (state: ShockState)
      ensures state == Publish(cfg, exp, State(), o, fair, now)
    {
      var activation, direction, reason := 0.0, Neutral, NoRecentShock;
      var age: Option<real> := None;
      if lastShockTs.Some? {
        age := Some(now - lastShockTs.value);
        direction := lastShockDirection;
        if age.value < cfg.minWaitMs {
          reason := WaitingAfterShock;
        } else {
          activation := Activation(cfg, exp, o.forceRatio, age.value);
          reason := AftershockRebuild;
        }
      }
      if !fair.isValid {
        activation, direction := 0.0, Neutral;
        reason := if fair.reason.Some? then fair.reason.value else InvalidFair;
      }
      var (bid, ask) := SideActivations(activation, direction, cfg.oppositeRatio);
      state := ShockState(activation, o.forceRatio, o.buy, o.sell, o.depth, lastShockTs, reason, direction,
                          bid, ask, lastShockId, age);
    }

    method Expire(now: real)
      modifies this`trades
      ensures trades == DropExpired(old(trades), now, cfg.windowMs)
    {
      while trades != [] && now - trades[0].ts > cfg.windowMs
        invariant DropExpired(trades, now, cfg.windowMs) == DropExpired(old(trades), now, cfg.windowMs)
        decreases |trades|
      {
        trades := trades[1..];
      }
    }
  }
}
