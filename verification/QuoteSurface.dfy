/** The quote ladder around the fair price. */
module QuoteSurfaces {
  import opened Types
  import opened Rounding
  import opened BitbankRules

  datatype AmmConfig = AmmConfig(levels: int, baseOrderSize: real, halfSpreadBps: real, stepBps: real,
                                 skewStrengthBps: real, sizeSkewStrength: real, minOrderSizeFallback: real,
                                 maxOrderSize: real, tickSizeFallback: real, lotSizeFallback: real)

  datatype Surface = Surface(cfg: AmmConfig, exp: ExpFn, minOrderSize: real, tickSize: real, lotSize: real)

  /** Steps and minimum come from the pair spec when there is one. */
  function SurfaceFor(cfg: AmmConfig, exp: ExpFn, spec: Option<PairSpec>): Surface {
    if spec.Some? then Surface(cfg, exp, spec.value.unitAmount, TickSize(spec.value), LotSize(spec.value))
    else Surface(cfg, exp, cfg.minOrderSizeFallback, cfg.tickSizeFallback, cfg.lotSizeFallback)
  }

  datatype QuoteInput = QuoteInput(fair: real, skew: real, bidActivation: real, askActivation: real,
                                   shockId: Option<ShockId>, shockDirection: Direction, shockAgeMs: Option<real>)

  function FloorQuoteSize(s: Surface, value: real): Option<real> {
    if value < s.minOrderSize then None else
    var size := FloorToStep(Min(value, s.cfg.maxOrderSize), s.lotSize);
    if size >= s.minOrderSize then Some(size) else None
  }

  function Distance(s: Surface, level: nat): real {
    s.cfg.halfSpreadBps / 10000.0 + level as real * (s.cfg.stepBps / 10000.0)
  }

  function SkewShift(s: Surface, skew: real): real {
    s.cfg.skewStrengthBps * skew / 10000.0
  }

  function BidTarget(s: Surface, i: QuoteInput, level: nat): real {
    i.fair * s.exp(-(Distance(s, level) + SkewShift(s, i.skew)))
  }

  function AskTarget(s: Surface, i: QuoteInput, level: nat): real {
    i.fair * s.exp(Distance(s, level) - SkewShift(s, i.skew))
  }

  function BidPrice(s: Surface, i: QuoteInput, level: nat): real {
    FloorToStep(BidTarget(s, i, level), s.tickSize)
  }

  function AskPrice(s: Surface, i: QuoteInput, level: nat): real {
    CeilToStep(AskTarget(s, i, level), s.tickSize)
  }

  /** The size before rounding, the same on every level. */
  function RawSize(s: Surface, i: QuoteInput, side: Side): real {
    if side.Buy? then s.cfg.baseOrderSize * i.bidActivation * s.exp(-s.cfg.sizeSkewStrength * i.skew)
    else s.cfg.baseOrderSize * i.askActivation * s.exp(s.cfg.sizeSkewStrength * i.skew)
  }

  function BidSize(s: Surface, i: QuoteInput): Option<real> {
    FloorQuoteSize(s, RawSize(s, i, Buy))
  }

  function AskSize(s: Surface, i: QuoteInput): Option<real> {
    FloorQuoteSize(s, RawSize(s, i, Sell))
  }

  function LevelQuote(s: Surface, i: QuoteInput, side: Side, level: nat, size: real): Quote {
    Quote(side, if side.Buy? then BidPrice(s, i, level) else AskPrice(s, i, level), size, level,
          if side.Buy? then i.bidActivation else i.askActivation, i.skew, i.fair, i.shockId, i.shockDirection,
          i.shockAgeMs)
  }

  function LevelQuotes(s: Surface, i: QuoteInput, level: nat): seq<Quote> {
    var bid, ask := BidSize(s, i), AskSize(s, i);
    (if bid.None? then [] else [LevelQuote(s, i, Buy, level, bid.value)])
    + (if ask.None? then [] else [LevelQuote(s, i, Sell, level, ask.value)])
  }

  function LevelsUpTo(s: Surface, i: QuoteInput, n: nat): seq<Quote> {
    if n == 0 then [] else LevelsUpTo(s, i, n - 1) + LevelQuotes(s, i, n - 1)
  }

  function LevelCount(s: Surface): nat {
    if s.cfg.levels >= 0 then s.cfg.levels else 0
  }

  predicate Quoting(i: QuoteInput) {
    i.fair > 0.0 && (i.bidActivation > 0.0 || i.askActivation > 0.0)
  }

  function Generated(s: Surface, i: QuoteInput): seq<Quote> {
    if Quoting(i) then LevelsUpTo(s, i, LevelCount(s)) else []
  }

  method Generate(s: Surface, i: QuoteInput) returns (quotes: seq<Quote>)
    ensures quotes == Generated(s, i)
  {
    hide BidPrice, AskPrice, BidSize, AskSize;
    quotes := [];
    if i.fair <= 0.0 || (i.bidActivation <= 0.0 && i.askActivation <= 0.0) {
      return;
    }
    var level := 0;
    while level < s.cfg.levels
      invariant 0 <= level && (level <= s.cfg.levels || level == 0)
      invariant quotes == LevelsUpTo(s, i, level)
    {
      var bid, ask := BidSize(s, i), AskSize(s, i);
      if bid.Some? {
        quotes := quotes + [Quote(Buy, BidPrice(s, i, level), bid.value, level, i.bidActivation, i.skew, i.fair,
                                  i.shockId, i.shockDirection, i.shockAgeMs)];
      }
      if ask.Some? {
        quotes := quotes + [Quote(Sell, AskPrice(s, i, level), ask.value, level, i.askActivation, i.skew, i.fair,
                                  i.shockId, i.shockDirection, i.shockAgeMs)];
      }
      assert quotes == LevelsUpTo(s, i, level) + LevelQuotes(s, i, level);
      level := level + 1;
    }
  }

  // ----- every quote, by its level -----

  ghost predicate QuotedAt(s: Surface, i: QuoteInput, q: Quote) {
    && Some(q.size) == (if q.side.Buy? then BidSize(s, i) else AskSize(s, i))
    && q == LevelQuote(s, i, q.side, q.level, q.size)
  }

  lemma LevelQuoted(s: Surface, i: QuoteInput, level: nat, q: Quote)
    ensures q in LevelQuotes(s, i, level) <==> q.level == level && QuotedAt(s, i, q)
  {
  }

  lemma {:induction false} LevelsQuoted(s: Surface, i: QuoteInput, n: nat, q: Quote)
    ensures q in LevelsUpTo(s, i, n) <==> q.level < n && QuotedAt(s, i, q)
  {
    hide LevelQuotes, QuotedAt;
    if n > 0 {
      LevelsQuoted(s, i, n - 1, q);
      LevelQuoted(s, i, n - 1, q);
    }
  }

  /** Exactly these quotes are generated: on every level, for each side whose size is large enough, the side's price
      and size with the input's activation, skew, fair and shock. */
  lemma GeneratedQuoted(s: Surface, i: QuoteInput)
    ensures forall q :: q in Generated(s, i) <==> Quoting(i) && q.level < LevelCount(s) && QuotedAt(s, i, q)
  {
    hide LevelsUpTo, QuotedAt;
    forall q ensures q in LevelsUpTo(s, i, LevelCount(s)) <==> q.level < LevelCount(s) && QuotedAt(s, i, q) {
      LevelsQuoted(s, i, LevelCount(s), q);
    }
  }

  ghost predicate InLevelOrder(quotes: seq<Quote>) {
    forall j, k :: 0 <= j < k < |quotes| ==>
      quotes[j].level < quotes[k].level
      || (quotes[j].level == quotes[k].level && quotes[j].side.Buy? && quotes[k].side.Sell?)
  }

  lemma {:induction false} LevelsInOrder(s: Surface, i: QuoteInput, n: nat)
    ensures InLevelOrder(LevelsUpTo(s, i, n))
    ensures forall k :: 0 <= k < |LevelsUpTo(s, i, n)| ==> LevelsUpTo(s, i, n)[k].level < n
  {
    hide LevelQuote;
    if n > 0 {
      LevelsInOrder(s, i, n - 1);
      OneLevelInOrder(s, i, n - 1);
    }
  }

  lemma OneLevelInOrder(s: Surface, i: QuoteInput, level: nat)
    ensures InLevelOrder(LevelQuotes(s, i, level))
    ensures forall k :: 0 <= k < |LevelQuotes(s, i, level)| ==> LevelQuotes(s, i, level)[k].level == level
  {
  }

  /** Levels in order, the bid of a level before its ask; so no side and level is quoted twice. */
  lemma GeneratedInOrder(s: Surface, i: QuoteInput)
    ensures InLevelOrder(Generated(s, i))
  {
    LevelsInOrder(s, i, LevelCount(s));
  }

  // ----- the ladder -----

  lemma DistanceGrows(s: Surface, a: nat, b: nat)
    requires a < b
    ensures Distance(s, a) <= Distance(s, b) <==> s.cfg.stepBps >= 0.0
  {
    var n, step := (b - a) as real, s.cfg.stepBps / 10000.0;
    assert Distance(s, b) - Distance(s, a) == n * step;
    assert n * step >= 0.0 <==> step >= 0.0;
  }

  lemma ScaledExp(s: Surface, fair: real, x: real, y: real)
    requires fair > 0.0 && x <= y
    ensures fair * s.exp(x) <= fair * s.exp(y)
  {
    assert s.exp(x) <= s.exp(y);
    assert fair * (s.exp(y) - s.exp(x)) >= 0.0;
  }

  /** The farther bid is not above the nearer one. */
  lemma FartherBid(s: Surface, i: QuoteInput, a: nat, b: nat)
    requires i.fair > 0.0 && Distance(s, a) <= Distance(s, b)
    ensures BidPrice(s, i, a) >= BidPrice(s, i, b)
  {
    hide FloorToStep, CeilToStep;
    var shift := SkewShift(s, i.skew);
    ScaledExp(s, i.fair, -(Distance(s, b) + shift), -(Distance(s, a) + shift));
    RoundingMonotone(BidTarget(s, i, b), BidTarget(s, i, a), s.tickSize);
  }

  lemma FartherAsk(s: Surface, i: QuoteInput, a: nat, b: nat)
    requires i.fair > 0.0 && Distance(s, a) <= Distance(s, b)
    ensures AskPrice(s, i, a) <= AskPrice(s, i, b)
  {
    hide FloorToStep, CeilToStep;
    var shift := SkewShift(s, i.skew);
    ScaledExp(s, i.fair, Distance(s, a) - shift, Distance(s, b) - shift);
    RoundingMonotone(AskTarget(s, i, a), AskTarget(s, i, b), s.tickSize);
  }

  lemma BidBelowAsk(s: Surface, i: QuoteInput, a: nat, b: nat)
    requires i.fair > 0.0 && Distance(s, a) + Distance(s, b) >= 0.0
    ensures BidPrice(s, i, a) <= AskPrice(s, i, b)
  {
    hide FloorToStep, CeilToStep;
    var shift := SkewShift(s, i.skew);
    ScaledExp(s, i.fair, -(Distance(s, a) + shift), Distance(s, b) - shift);
    FloorBelowCeil(BidTarget(s, i, a), AskTarget(s, i, b), s.tickSize);
  }

  /** Every generated ladder, on any tick: the farther level has the lower bid and the higher ask, and a bid is above
      an ask only if their distances from the fair sum to less than nothing. */
  lemma LadderOrdered(s: Surface, i: QuoteInput, p: Quote, q: Quote)
    requires p in Generated(s, i) && q in Generated(s, i)
    ensures p.side == q.side && Distance(s, p.level) <= Distance(s, q.level) ==>
              if p.side.Buy? then p.price >= q.price else p.price <= q.price
    ensures p.side.Buy? && q.side.Sell? && Distance(s, p.level) + Distance(s, q.level) >= 0.0 ==> p.price <= q.price
  {
    hide Distance, BidPrice, AskPrice, BidSize, AskSize, Generated;
    GeneratedQuoted(s, i);
    if Distance(s, p.level) <= Distance(s, q.level) {
      FartherBid(s, i, p.level, q.level);
      FartherAsk(s, i, p.level, q.level);
    }
    if Distance(s, p.level) + Distance(s, q.level) >= 0.0 {
      BidBelowAsk(s, i, p.level, q.level);
    }
  }

  /** An input without skew. */
  function Level(fair: real): QuoteInput {
    QuoteInput(fair, 0.0, 1.0, 1.0, None, Neutral, None)
  }

  /** A fair at which two different factors are farther apart than rounding on the tick reaches from both. */
  lemma FarApart(u: real, v: real, tick: real) returns (fair: real)
    requires u < v
    ensures fair > 0.0 && fair * v - fair * u > 2.0 * Reach(tick)
  {
    var gap := 2.0 * Reach(tick) + 1.0;
    fair := gap / (v - u);
    assert fair * (v - u) == gap;
  }

  lemma LevelTargets(s: Surface, fair: real, level: nat)
    ensures BidTarget(s, Level(fair), level) == fair * s.exp(-Distance(s, level))
    ensures AskTarget(s, Level(fair), level) == fair * s.exp(Distance(s, level))
  {
    assert SkewShift(s, 0.0) == 0.0;
  }

  lemma BidsDisordered(s: Surface, a: nat, b: nat) returns (i: QuoteInput)
    requires Distance(s, b) < Distance(s, a)
    ensures i.fair > 0.0 && BidPrice(s, i, a) < BidPrice(s, i, b)
  {
    hide FloorToStep, CeilToStep, Reach, Distance;
    var fair := FarApart(s.exp(-Distance(s, a)), s.exp(-Distance(s, b)), s.tickSize);
    i := Level(fair);
    LevelTargets(s, fair, a);
    LevelTargets(s, fair, b);
    RoundedApart(BidTarget(s, i, a), BidTarget(s, i, b), s.tickSize);
  }

  lemma AsksDisordered(s: Surface, a: nat, b: nat) returns (i: QuoteInput)
    requires Distance(s, b) < Distance(s, a)
    ensures i.fair > 0.0 && AskPrice(s, i, a) > AskPrice(s, i, b)
  {
    hide FloorToStep, CeilToStep, Reach, Distance;
    var fair := FarApart(s.exp(Distance(s, b)), s.exp(Distance(s, a)), s.tickSize);
    i := Level(fair);
    LevelTargets(s, fair, a);
    LevelTargets(s, fair, b);
    RoundedApart(AskTarget(s, i, b), AskTarget(s, i, a), s.tickSize);
  }

  lemma LadderCrosses(s: Surface, a: nat, b: nat) returns (i: QuoteInput)
    requires Distance(s, a) + Distance(s, b) < 0.0
    ensures i.fair > 0.0 && BidPrice(s, i, a) > AskPrice(s, i, b)
  {
    hide FloorToStep, CeilToStep, Reach, Distance;
    var fair := FarApart(s.exp(Distance(s, b)), s.exp(-Distance(s, a)), s.tickSize);
    i := Level(fair);
    LevelTargets(s, fair, a);
    LevelTargets(s, fair, b);
    RoundedApart(AskTarget(s, i, b), BidTarget(s, i, a), s.tickSize);
  }

  ghost predicate BidsOrdered(s: Surface, i: QuoteInput, a: nat, b: nat) {
    BidPrice(s, i, a) >= BidPrice(s, i, b)
  }

  ghost predicate AsksOrdered(s: Surface, i: QuoteInput, a: nat, b: nat) {
    AskPrice(s, i, a) <= AskPrice(s, i, b)
  }

  /** On any tick: the bid of a later level is never above that of an earlier one, whatever the fair, skew and
      activation, if and only if the configured step is not negative. */
  lemma BidsMonotoneIff(s: Surface, a: nat, b: nat)
    requires a < b
    ensures (forall i: QuoteInput :: i.fair > 0.0 ==> BidsOrdered(s, i, a, b)) <==> s.cfg.stepBps >= 0.0
  {
    hide Distance, BidPrice;
    DistanceGrows(s, a, b);
    if Distance(s, a) <= Distance(s, b) {
      forall i: QuoteInput | i.fair > 0.0 ensures BidsOrdered(s, i, a, b) {
        FartherBid(s, i, a, b);
      }
    } else {
      var i := BidsDisordered(s, a, b);
      assert !BidsOrdered(s, i, a, b);
    }
  }

  /** The same for asks: never below that of an earlier level if and only if the step is not negative. */
  lemma AsksMonotoneIff(s: Surface, a: nat, b: nat)
    requires a < b
    ensures (forall i: QuoteInput :: i.fair > 0.0 ==> AsksOrdered(s, i, a, b)) <==> s.cfg.stepBps >= 0.0
  {
    hide Distance, AskPrice;
    DistanceGrows(s, a, b);
    if Distance(s, a) <= Distance(s, b) {
      forall i: QuoteInput | i.fair > 0.0 ensures AsksOrdered(s, i, a, b) {
        FartherAsk(s, i, a, b);
      }
    } else {
      var i := AsksDisordered(s, a, b);
      assert !AsksOrdered(s, i, a, b);
    }
  }

  ghost predicate LevelsUncrossed(s: Surface, i: QuoteInput, a: nat, b: nat) {
    BidPrice(s, i, a) <= AskPrice(s, i, b)
  }

  /** On any tick: the bid of level `a` is never above the ask of level `b` if and only if their distances from the
      fair do not sum to less than nothing; with a half-spread and a step that are not negative they never do. */
  lemma LadderUncrossedIff(s: Surface, a: nat, b: nat)
    ensures (forall i: QuoteInput :: i.fair > 0.0 ==> LevelsUncrossed(s, i, a, b)) <==>
            Distance(s, a) + Distance(s, b) >= 0.0
    ensures s.cfg.halfSpreadBps >= 0.0 && s.cfg.stepBps >= 0.0 ==> Distance(s, a) + Distance(s, b) >= 0.0
  {
    DistancesPositive(s, a);
    DistancesPositive(s, b);
    hide Distance, BidPrice, AskPrice;
    if Distance(s, a) + Distance(s, b) >= 0.0 {
      forall i: QuoteInput | i.fair > 0.0 ensures LevelsUncrossed(s, i, a, b) {
        BidBelowAsk(s, i, a, b);
      }
    } else {
      var i := LadderCrosses(s, a, b);
      assert !LevelsUncrossed(s, i, a, b);
    }
  }

  lemma DistancesPositive(s: Surface, a: nat)
    ensures s.cfg.halfSpreadBps >= 0.0 && s.cfg.stepBps >= 0.0 ==> Distance(s, a) >= 0.0
  {
    if s.cfg.stepBps >= 0.0 {
      assert a as real * (s.cfg.stepBps / 10000.0) >= 0.0;
    }
  }

  // ----- the exchange's rules -----

  /** A quote generated for a pair spec can fail validation only for the pair's own flags or the maximum amount. */
  lemma GeneratedQuotesValidate(cfg: AmmConfig, exp: ExpFn, spec: PairSpec, i: QuoteInput, q: Quote)
    requires q in Generated(SurfaceFor(cfg, exp, Some(spec)), i)
    ensures ValidateOrder(spec, q.side, q.price, q.size) ==
            if !PairVerdict(spec, q.side).Accepted? then PairVerdict(spec, q.side)
            else if q.size > spec.limitMaxAmount then AmountAboveLimit
            else Accepted
    ensures spec.unitAmount <= q.size <= FloorToStep(cfg.maxOrderSize, LotSize(spec))
  {
    var s := SurfaceFor(cfg, exp, Some(spec));
    GeneratedQuoted(s, i);
    QuotedSizeOnLot(s, spec.amountDigits, i, q);
    PriceOnTick(s, spec.priceDigits, i, q);
  }

  lemma QuotedSizeOnLot(s: Surface, digits: int, i: QuoteInput, q: Quote)
    requires s.lotSize == TenTo(-digits) && QuotedAt(s, i, q)
    ensures s.minOrderSize <= q.size <= FloorToStep(s.cfg.maxOrderSize, s.lotSize)
    ensures FloorToStep(q.size, s.lotSize) == q.size
  {
    SizeOnLot(s, digits, RawSize(s, i, q.side));
  }

  lemma SizeOnLot(s: Surface, digits: int, value: real)
    requires s.lotSize == TenTo(-digits)
    ensures var size := FloorQuoteSize(s, value);
            size.Some? ==>
              && s.minOrderSize <= size.value <= FloorToStep(s.cfg.maxOrderSize, s.lotSize)
              && FloorToStep(size.value, s.lotSize) == size.value
  {
    var v := Min(value, s.cfg.maxOrderSize);
    StepsExact(v, digits);
    FloorOfMultiple(FloorSteps(v, s.lotSize), digits);
    RoundingMonotone(v, s.cfg.maxOrderSize, s.lotSize);
  }

  lemma PriceOnTick(s: Surface, digits: int, i: QuoteInput, q: Quote)
    requires s.tickSize == TenTo(-digits) && QuotedAt(s, i, q)
    ensures FloorToStep(q.price, s.tickSize) == q.price
  {
    var target := if q.side.Buy? then BidTarget(s, i, q.level) else AskTarget(s, i, q.level);
    StepsExact(target, digits);
    FloorOfMultiple(FloorSteps(target, s.tickSize), digits);
    FloorOfMultiple(CeilSteps(target, s.tickSize), digits);
  }

  /** The maximum check holds for every raw size if and only if the rounded-down configured maximum meets it, or no
      size is ever quoted. The fudge can lift the configured maximum by one lot. */
  lemma MaximumCheckIff(s: Surface, digits: int, limit: real)
    requires s.lotSize == TenTo(-digits)
    ensures (forall value :: FloorQuoteSize(s, value).Some? ==> FloorQuoteSize(s, value).value <= limit) <==>
            FloorToStep(s.cfg.maxOrderSize, s.lotSize) <= limit ||
              FloorToStep(s.cfg.maxOrderSize, s.lotSize) < s.minOrderSize
  {
    var top := FloorToStep(s.cfg.maxOrderSize, s.lotSize);
    forall value | FloorQuoteSize(s, value).Some? ensures s.minOrderSize <= FloorQuoteSize(s, value).value <= top {
      SizeOnLot(s, digits, value);
    }
    var largest := Max(s.cfg.maxOrderSize, s.minOrderSize);
    assert top >= s.minOrderSize ==> FloorQuoteSize(s, largest) == Some(top);
  }

  /** The lift happens: with whole lots and a configured maximum just below one lot, a full lot is quoted. */
  lemma FudgeExceedsMaximum(s: Surface)
    requires s.lotSize == TenTo(0) && s.cfg.maxOrderSize == 0.9999999995 && s.minOrderSize <= 1.0
    ensures FloorQuoteSize(s, 1.0) == Some(1.0) && 1.0 > s.cfg.maxOrderSize
  {
    StepsExact(s.cfg.maxOrderSize, 0);
    assert FloorSteps(s.cfg.maxOrderSize, 1.0) == 1;
  }

  /** A configured maximum that is a lot multiple within the exchange limit is enough. */
  lemma LotMultipleMaximumAccepted(cfg: AmmConfig, exp: ExpFn, spec: PairSpec, i: QuoteInput, q: Quote, lots: int)
    requires q in Generated(SurfaceFor(cfg, exp, Some(spec)), i)
    requires cfg.maxOrderSize == Multiple(lots, LotSize(spec)) && cfg.maxOrderSize <= spec.limitMaxAmount
    ensures ValidateOrder(spec, q.side, q.price, q.size) == PairVerdict(spec, q.side)
  {
    FloorOfMultiple(lots, spec.amountDigits);
    GeneratedQuotesValidate(cfg, exp, spec, i, q);
  }
}
