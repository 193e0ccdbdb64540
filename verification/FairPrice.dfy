/** The robust fair price: freshness, reference median, deviation filter, aggregation. */
module FairPrice {
  import opened Types
  import opened OrderBooks
  import opened Statistics

  datatype FairConfig = FairConfig(maxSpreadBps: real, staleAfterMs: real, minSourceCount: int,
                                   maxSourceAgeMs: real, maxSourceDeviationBps: real, useMedian: bool)

  datatype Source = Source(name: string, fair: real, ts: real, spreadBps: Option<real>)

  function Filter(keep: Source -> bool, s: seq<Source>): (r: seq<Source>)
    ensures |r| <= |s|
    ensures forall x :: x in r <==> x in s && keep(x)
  {
    if s == [] then [] else
    var init, last := s[..|s| - 1], s[|s| - 1];
    assert s == init + [last];
    if keep(last) then Filter(keep, init) + [last] else Filter(keep, init)
  }

  /** The values `pick` finds, in order; sources without one are skipped. */
  function Pick(pick: Source -> Option<real>, s: seq<Source>): (r: seq<real>)
    ensures |r| <= |s|
  {
    if s == [] then [] else
    var rest, v := Pick(pick, s[..|s| - 1]), pick(s[|s| - 1]);
    if v.Some? then rest + [v.value] else rest
  }

  const FAIR: Source -> Option<real> := (x: Source) => Some(x.fair)
  const SPREAD: Source -> Option<real> := (x: Source) => x.spreadBps

  function Fairs(s: seq<Source>): (r: seq<real>)
    ensures |r| == |s| && forall i :: 0 <= i < |s| ==> r[i] == s[i].fair
  {
    FairsAreFairs(s);
    Pick(FAIR, s)
  }

  lemma {:induction false} FairsAreFairs(s: seq<Source>)
    ensures var r := Pick(FAIR, s); |r| == |s| && forall i :: 0 <= i < |s| ==> r[i] == s[i].fair
  {
    if s != [] {
      FairsAreFairs(s[..|s| - 1]);
    }
  }

  function DeviationBps(value: real, reference: real): real {
    if reference <= 0.0 then 0.0 else Abs(value - reference) / reference * 10000.0
  }

  function Fresh(cfg: FairConfig, sources: seq<Source>, now: real): seq<Source> {
    Filter((x: Source) => now - x.ts <= cfg.maxSourceAgeMs, sources)
  }

  function Near(cfg: FairConfig, sources: seq<Source>, reference: real): seq<Source> {
    Filter((x: Source) => DeviationBps(x.fair, reference) <= cfg.maxSourceDeviationBps, sources)
  }

  function MedianOptional(values: seq<real>): Option<real> {
    if values == [] then None else Some(Median(values))
  }

  function MaxDeviation(sources: seq<Source>, fair: real): Option<real> {
    if sources == [] then None else
    var deviations := set x | x in sources :: DeviationBps(x.fair, fair);
    assert DeviationBps(sources[0].fair, fair) in deviations;
    Some(MaxOf(deviations))
  }

  function Names(sources: seq<Source>): seq<string> {
    seq(|sources|, i requires 0 <= i < |sources| => sources[i].name)
  }

  /** The state aggregated from the sources near the reference price. None when averaging fails: an average of no
      sources, possible only when none are required. */
  function Aggregate(cfg: FairConfig, near: seq<Source>, reference: real): Option<FairState> {
    var spread := MedianOptional(Pick(SPREAD, near));
    if |near| < cfg.minSourceCount then
      Some(FairState(None, |near|, spread, false, Some(InsufficientFairSources), Names(near),
                     MaxDeviation(near, reference)))
    else if near == [] then None
    else
      var fair := if cfg.useMedian then Median(Fairs(near)) else Mean(Fairs(near));
      Some(FairState(Some(fair), |near|, spread, true, None, Names(near), MaxDeviation(near, fair)))
  }

  function FromSources(cfg: FairConfig, sources: seq<Source>, now: real): Option<FairState> {
    var usable := Fresh(cfg, sources, now);
    if usable == [] then Some(FairState(None, 0, None, false, Some(NoFreshFairSources), [], None)) else
    var reference := Median(Fairs(usable));
    Aggregate(cfg, Near(cfg, usable, reference), reference)
  }

  // ----- robustness -----

  function Reference(cfg: FairConfig, sources: seq<Source>, now: real): real
    requires Fresh(cfg, sources, now) != []
  {
    Median(Fairs(Fresh(cfg, sources, now)))
  }

  lemma NearBounds(value: real, reference: real, bps: real)
    requires reference > 0.0
    ensures DeviationBps(value, reference) <= bps <==>
            reference - reference * bps / 10000.0 <= value <= reference + reference * bps / 10000.0
  {
    var d := Abs(value - reference);
    var q := d / reference;
    assert q * reference == d;
    if q * 10000.0 <= bps {
      assert q * reference <= bps / 10000.0 * reference;
    }
    if d <= reference * bps / 10000.0 {
      assert reference * q <= reference * (bps / 10000.0);
      CancelPositive(reference, q, bps / 10000.0);
    }
  }

  lemma CancelPositive(c: real, x: real, y: real)
    requires c > 0.0 && c * x <= c * y
    ensures x <= y
  {
    assert c * (y - x) >= 0.0;
  }

  lemma AveragesNear(near: seq<Source>, reference: real, bps: real)
    requires near != [] && reference > 0.0
    requires forall x :: x in near ==> DeviationBps(x.fair, reference) <= bps
    ensures DeviationBps(Median(Fairs(near)), reference) <= bps && DeviationBps(Mean(Fairs(near)), reference) <= bps
  {
    var lo, hi := reference - reference * bps / 10000.0, reference + reference * bps / 10000.0;
    forall i | 0 <= i < |near| ensures lo <= Fairs(near)[i] <= hi {
      assert near[i] in near;
      NearBounds(near[i].fair, reference, bps);
    }
    AveragesBetween(Fairs(near), lo, hi);
    NearBounds(Median(Fairs(near)), reference, bps);
    NearBounds(Mean(Fairs(near)), reference, bps);
  }

  /** Every valid fair lies within the configured deviation of the reference median; measured as the filter measures
      it, so that everything is at deviation zero from a reference that is not positive. */
  lemma PublishedFairNearReference(cfg: FairConfig, sources: seq<Source>, now: real, state: FairState)
    requires FromSources(cfg, sources, now) == Some(state) && state.isValid
    ensures Fresh(cfg, sources, now) != [] && state.fair.Some?
    ensures DeviationBps(state.fair.value, Reference(cfg, sources, now)) <= cfg.maxSourceDeviationBps
  {
    var usable := Fresh(cfg, sources, now);
    var reference := Reference(cfg, sources, now);
    var near := Near(cfg, usable, reference);
    if reference > 0.0 {
      AveragesNear(near, reference, cfg.maxSourceDeviationBps);
    } else {
      assert near[0] in near;
    }
  }

  /** With a strict majority of the fresh prices in [lo, hi], the reference is in [lo, hi]. */
  lemma MajorityBoundsReference(cfg: FairConfig, sources: seq<Source>, now: real, lo: real, hi: real)
    requires var usable := Fresh(cfg, sources, now); 2 * CountWithin(Fairs(usable), lo, hi) > |usable|
    ensures Fresh(cfg, sources, now) != [] && lo <= Reference(cfg, sources, now) <= hi
  {
    MedianOfMajority(Fairs(Fresh(cfg, sources, now)), lo, hi);
  }

  ghost predicate FairWithin(state: Option<FairState>, lo: real, hi: real) {
    state.Some? && state.value.isValid ==> state.value.fair.Some? && lo <= state.value.fair.value <= hi
  }

  /** A minority of outliers cannot move the fair far: with a strict majority of the fresh prices in [lo, hi], a valid
      fair is at most the configured deviation above hi, taken of hi, and at most that deviation below lo, taken of
      lo; a deviation above 100% counts from hi there, which then gives the lower value. */
  lemma MajorityBoundsFair(cfg: FairConfig, sources: seq<Source>, now: real, lo: real, hi: real)
    requires 0.0 < lo && cfg.maxSourceDeviationBps >= 0.0
    requires var usable := Fresh(cfg, sources, now); 2 * CountWithin(Fairs(usable), lo, hi) > |usable|
    ensures FairWithin(FromSources(cfg, sources, now), LowEnd(lo, hi, cfg.maxSourceDeviationBps),
                       hi + Share(hi, cfg.maxSourceDeviationBps))
  {
    MajorityBoundsReference(cfg, sources, now, lo, hi);
    FairFollowsReference(cfg, sources, now, lo, hi);
  }

  function Share(x: real, bps: real): real {
    x * bps / 10000.0
  }

  function LowEnd(lo: real, hi: real, bps: real): real {
    if bps <= 10000.0 then lo - Share(lo, bps) else hi - Share(hi, bps)
  }

  lemma FairFollowsReference(cfg: FairConfig, sources: seq<Source>, now: real, lo: real, hi: real)
    requires cfg.maxSourceDeviationBps >= 0.0
    requires Fresh(cfg, sources, now) != [] && 0.0 < lo <= Reference(cfg, sources, now) <= hi
    ensures FairWithin(FromSources(cfg, sources, now), LowEnd(lo, hi, cfg.maxSourceDeviationBps),
                       hi + Share(hi, cfg.maxSourceDeviationBps))
  {
    hide LowEnd, Share, Median, FromSources, Fresh;
    var state := FromSources(cfg, sources, now);
    if state.Some? && state.value.isValid {
      PublishedFairNearReference(cfg, sources, now, state.value);
      WithinOfReference(state.value.fair.value, Reference(cfg, sources, now), cfg.maxSourceDeviationBps, lo, hi);
    }
  }

  lemma WithinOfReference(fair: real, reference: real, bps: real, lo: real, hi: real)
    requires 0.0 < lo <= reference <= hi && bps >= 0.0 && DeviationBps(fair, reference) <= bps
    ensures LowEnd(lo, hi, bps) <= fair <= hi + Share(hi, bps)
  {
    hide DeviationBps, LowEnd, Share;
    NearShare(fair, reference, bps);
    ShareMono(reference, hi, bps);
    LowEndLowest(reference, bps, lo, hi);
  }

  lemma NearShare(value: real, reference: real, bps: real)
    requires reference > 0.0
    ensures DeviationBps(value, reference) <= bps <==>
            reference - Share(reference, bps) <= value <= reference + Share(reference, bps)
  {
    NearBounds(value, reference, bps);
    hide DeviationBps;
  }

  lemma LowEndLowest(reference: real, bps: real, lo: real, hi: real)
    requires lo <= reference <= hi
    ensures LowEnd(lo, hi, bps) <= reference - Share(reference, bps)
  {
    if bps <= 10000.0 {
      RemainderMono(lo, reference, bps);
    } else {
      RemainderMono(reference, hi, bps);
    }
  }

  /** What a share leaves grows with the whole, or falls with it when the share is more than all. */
  lemma RemainderMono(x: real, y: real, bps: real)
    requires x <= y
    ensures bps <= 10000.0 ==> x - Share(x, bps) <= y - Share(y, bps)
    ensures bps >= 10000.0 ==> x - Share(x, bps) >= y - Share(y, bps)
  {
    var left := 1.0 - bps / 10000.0;
    assert y - Share(y, bps) - (x - Share(x, bps)) == (y - x) * left;
    ProductSign(y - x, left);
  }

  lemma ProductSign(x: real, y: real)
    requires x >= 0.0
    ensures (y >= 0.0 ==> x * y >= 0.0) && (y <= 0.0 ==> x * y <= 0.0)
  {
  }

  lemma ShareMono(x: real, y: real, bps: real)
    requires x <= y && bps >= 0.0
    ensures Share(x, bps) <= Share(y, bps)
  {
    ProductSign(y - x, bps);
  }

  // ----- the order of the sources does not matter -----

  lemma {:induction false} FilterMultiplicity(keep: Source -> bool, s: seq<Source>, x: Source)
    ensures multiset(Filter(keep, s))[x] == if keep(x) then multiset(s)[x] else 0
  {
    if s != [] {
      FilterMultiplicity(keep, s[..|s| - 1], x);
      assert s == s[..|s| - 1] + [s[|s| - 1]];
    }
  }

  lemma FilterPermuted(keep: Source -> bool, s: seq<Source>, t: seq<Source>)
    requires multiset(s) == multiset(t)
    ensures multiset(Filter(keep, s)) == multiset(Filter(keep, t))
  {
    forall x ensures multiset(Filter(keep, s))[x] == multiset(Filter(keep, t))[x] {
      FilterMultiplicity(keep, s, x);
      FilterMultiplicity(keep, t, x);
    }
  }

  lemma {:induction false} PickConcat(pick: Source -> Option<real>, a: seq<Source>, b: seq<Source>)
    ensures Pick(pick, a + b) == Pick(pick, a) + Pick(pick, b)
  {
    if b == [] {
      assert a + b == a;
    } else {
      assert (a + b)[..|a + b| - 1] == a + b[..|b| - 1];
      PickConcat(pick, a, b[..|b| - 1]);
    }
  }

  lemma PickAround(pick: Source -> Option<real>, a: seq<Source>, x: Source, b: seq<Source>)
    ensures multiset(Pick(pick, a + [x] + b)) == multiset(Pick(pick, a + b)) + multiset(Pick(pick, [x]))
  {
    PickConcat(pick, a, b);
    PickConcat(pick, a + [x], b);
    PickConcat(pick, a, [x]);
  }

  lemma RemoveAt(t: seq<Source>, i: nat)
    requires i < |t|
    ensures t == t[..i] + [t[i]] + t[i + 1..]
    ensures multiset(t[..i] + t[i + 1..]) == multiset(t) - multiset{t[i]}
  {
    assert t == t[..i] + [t[i]] + t[i + 1..];
  }

  lemma {:induction false} PickPermuted(pick: Source -> Option<real>, s: seq<Source>, t: seq<Source>)
    requires multiset(s) == multiset(t)
    ensures multiset(Pick(pick, s)) == multiset(Pick(pick, t))
  {
    if s == [] {
      assert |multiset(t)| == |t| && |multiset(s)| == |s|;
    } else {
      hide Pick;
      var n := |s| - 1;
      assert s[n] in multiset(t);
      var i :| 0 <= i < |t| && t[i] == s[n];
      RemoveAt(s, n);
      RemoveAt(t, i);
      assert s[..n] + s[n + 1..] == s[..n];
      PickPermuted(pick, s[..n], t[..i] + t[i + 1..]);
      PickAround(pick, t[..i], t[i], t[i + 1..]);
      PickAround(pick, s[..n], s[n], s[n + 1..]);
    }
  }

  lemma MaxDeviationPermuted(s: seq<Source>, t: seq<Source>, fair: real)
    requires multiset(s) == multiset(t)
    ensures MaxDeviation(s, fair) == MaxDeviation(t, fair)
  {
    forall x ensures x in s <==> x in t {
      assert x in s <==> x in multiset(s);
      assert x in t <==> x in multiset(t);
    }
    if s != [] { assert s[0] in t; }
    if t != [] { assert t[0] in s; }
    assert (set x | x in s :: DeviationBps(x.fair, fair)) == (set x | x in t :: DeviationBps(x.fair, fair));
  }

  ghost predicate SameUpToNames(a: Option<FairState>, b: Option<FairState>) {
    if a.None? then b.None? else b.Some? && b.value == a.value.(sources := b.value.sources)
  }

  lemma AveragesPermuted(a: seq<Source>, b: seq<Source>)
    requires multiset(a) == multiset(b)
    ensures |a| == |b| && (a != [] ==> Median(Fairs(a)) == Median(Fairs(b)) && Mean(Fairs(a)) == Mean(Fairs(b)))
  {
    PickPermuted(FAIR, a, b);
    OrderIndependent(Fairs(a), Fairs(b));
  }

  lemma SpreadPermuted(a: seq<Source>, b: seq<Source>)
    requires multiset(a) == multiset(b)
    ensures MedianOptional(Pick(SPREAD, a)) == MedianOptional(Pick(SPREAD, b))
  {
    PickPermuted(SPREAD, a, b);
    OrderIndependent(Pick(SPREAD, a), Pick(SPREAD, b));
  }

  lemma AggregatePermuted(cfg: FairConfig, a: seq<Source>, b: seq<Source>, reference: real)
    requires multiset(a) == multiset(b)
    ensures SameUpToNames(Aggregate(cfg, a, reference), Aggregate(cfg, b, reference))
  {
    hide Median, Mean, MaxDeviation, MedianOptional;
    AveragesPermuted(a, b);
    SpreadPermuted(a, b);
    MaxDeviationPermuted(a, b, reference);
    if a != [] {
      MaxDeviationPermuted(a, b, if cfg.useMedian then Median(Fairs(a)) else Mean(Fairs(a)));
    }
  }

  /** Permuting the sources changes nothing but the order of the listed names. */
  lemma SourceOrderIrrelevant(cfg: FairConfig, s: seq<Source>, t: seq<Source>, now: real)
    requires multiset(s) == multiset(t)
    ensures SameUpToNames(FromSources(cfg, s, now), FromSources(cfg, t, now))
  {
    var fs, ft := Fresh(cfg, s, now), Fresh(cfg, t, now);
    FilterPermuted((x: Source) => now - x.ts <= cfg.maxSourceAgeMs, s, t);
    PickPermuted(FAIR, fs, ft);
    OrderIndependent(Fairs(fs), Fairs(ft));
    if fs != [] {
      var reference := Median(Fairs(fs));
      FilterPermuted((x: Source) => DeviationBps(x.fair, reference) <= cfg.maxSourceDeviationBps, fs, ft);
      AggregatePermuted(cfg, Near(cfg, fs, reference), Near(cfg, ft, reference), reference);
    }
  }

  // ----- collecting sources from events -----

  const BOOK_SOURCE := "bitbank_orderbook_mid"

  /** Assignment to a dict: a known name keeps its place. */
  function Upsert(sources: seq<Source>, s: Source): seq<Source> {
    if sources == [] then [s]
    else if sources[0].name == s.name then [s] + sources[1..]
    else [sources[0]] + Upsert(sources[1..], s)
  }

  function Pop(sources: seq<Source>, name: string): seq<Source> {
    Filter((x: Source) => x.name != name, sources)
  }

  datatype BookSource = Absent | Present(source: Source) | DivisionByZero

  function SourceFromBook(cfg: FairConfig, b: BookState, now: real): BookSource {
    if b.stale then Absent else
    var bid, ask := BestBid(b), BestAsk(b);
    if bid.None? || ask.None? || bid.value >= ask.value then Absent
    else if b.lastTs.Some? && now - b.lastTs.value > cfg.staleAfterMs then Absent
    else if bid.value + ask.value == 0.0 then DivisionByZero
    else
      var mid := (bid.value + ask.value) / 2.0;
      var spread := (ask.value - bid.value) / mid * 10000.0;
      if spread > cfg.maxSpreadBps then Absent
      else
        // a timestamp of zero counts as missing
        var ts := if b.lastTs.Some? && b.lastTs.value != 0.0 then b.lastTs.value else now;
        Present(Source(BOOK_SOURCE, mid, ts, Some(spread)))
  }

  function SourceFromTicker(e: Event): Option<Source>
    requires e.payload.Ticker?
  {
    var Ticker(buy, sell, last) := e.payload;
    if buy.Some? && sell.Some? && buy.value > 0.0 && sell.value > 0.0 && buy.value < sell.value then
      var mid := (buy.value + sell.value) / 2.0;
      Some(Source("bitbank_ticker_mid", mid, e.ts, Some((sell.value - buy.value) / mid * 10000.0)))
    else if last.Some? && last.value > 0.0 then Some(Source("bitbank_ticker_last", last.value, e.ts, None))
    else None
  }

  function Positive(v: Option<real>): Option<real> {
    if v.Some? && v.value > 0.0 then v else None
  }

  function SourceFromExternal(e: Event): Option<Source>
    requires e.payload.ExternalFair?
  {
    var ExternalFair(fairJpy, btcUsd, usdJpy, name, tsMs, spread) := e.payload;
    var fair := if Positive(fairJpy).Some? then fairJpy
                else if Positive(btcUsd).Some? && Positive(usdJpy).Some? then Some(btcUsd.value * usdJpy.value)
                else None;
    if fair.None? then None else
    Some(Source(if name.Some? && name.value != "" then name.value else "external_btc_usd_jpy", fair.value,
                if tsMs.Some? then tsMs.value else e.ts, spread))
  }

  /** The sources after an event, before the book is consulted. */
  function Reported(sources: seq<Source>, e: Event): seq<Source> {
    var reported := if e.payload.Ticker? then SourceFromTicker(e)
                    else if e.payload.ExternalFair? then SourceFromExternal(e) else None;
    if reported.Some? then Upsert(sources, reported.value) else sources
  }

  datatype FairUpdate = FairUpdate(sources: seq<Source>, state: Option<FairState>)

  function FromMarketEvent(cfg: FairConfig, sources: seq<Source>, b: BookState, e: Event): FairUpdate {
    var reported := Reported(sources, e);
    match SourceFromBook(cfg, b, e.ts)
    case DivisionByZero => FairUpdate(reported, None)
    case Present(source) =>
      var all := Upsert(reported, source);
      FairUpdate(all, FromSources(cfg, all, e.ts))
    case Absent =>
      var all := Pop(reported, BOOK_SOURCE);
      FairUpdate(all, FromSources(cfg, all, e.ts))
  }

  class FairPriceEngine {
    const cfg: FairConfig
    var sources: seq<Source>

    constructor (cfg: FairConfig)
      ensures this.cfg == cfg && sources == []
    {
      this.cfg := cfg;
      sources := [];
    }

    /** None when the book has a mid of zero or no source is left to average; the step then raises. */
    method Update(book: OrderBook, e: Event) returns (state: Option<FairState>)
      modifies this
      ensures FairUpdate(sources, state) == FromMarketEvent(cfg, old(sources), old(book.State()), e)
    {
      if e.payload.Ticker? {
        var reported := SourceFromTicker(e);
        if reported.Some? { sources := Upsert(sources, reported.value); }
      } else if e.payload.ExternalFair? {
        var reported := SourceFromExternal(e);
        if reported.Some? { sources := Upsert(sources, reported.value); }
      }
      var fromBook := SourceFromBook(cfg, book.State(), e.ts);
      match fromBook {
        case DivisionByZero => return None;
        case Present(source) => sources := Upsert(sources, source);
        case Absent => sources := Pop(sources, BOOK_SOURCE);
      }
      state := FromSources(cfg, sources, e.ts);
    }
  }
}
