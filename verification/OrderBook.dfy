/** The reconstructed order book. */
module OrderBooks {
  import opened Types

  datatype BookState = BookState(bids: map<real, real>, asks: map<real, real>, lastSequence: Option<int>,
                                 lastTs: Option<real>, stale: bool, staleReason: Option<Reason>)

  const EMPTY_BOOK := BookState(map[], map[], None, None, true, Some(NoSnapshot))

  // ----- what the book holds -----

  /** Levels of a snapshot: zero and negative amounts are dropped, a repeated price keeps the last one. */
  function SnapshotLevels(levels: seq<PriceLevel>): map<real, real> {
    if levels == [] then map[] else
    var m := SnapshotLevels(levels[..|levels| - 1]);
    var l := levels[|levels| - 1];
    if l.amount > 0.0 then m[l.price := l.amount] else m
  }

  function SetLevel(m: map<real, real>, l: PriceLevel): map<real, real> {
    if l.amount == 0.0 then m - {l.price} else m[l.price := l.amount]
  }

  function SetLevels(m: map<real, real>, levels: seq<PriceLevel>): map<real, real> {
    if levels == [] then m else SetLevel(SetLevels(m, levels[..|levels| - 1]), levels[|levels| - 1])
  }

  function ApplySnapshot(bids: seq<PriceLevel>, asks: seq<PriceLevel>, sequence: Option<int>, ts: real): BookState {
    BookState(SnapshotLevels(bids), SnapshotLevels(asks), sequence, Some(ts), false, None)
  }

  predicate OutOfSequence(b: BookState, sequence: Option<int>) {
    sequence.Some? && b.lastSequence.Some? && sequence.value <= b.lastSequence.value
  }

  function ApplyDelta(b: BookState, bids: seq<PriceLevel>, asks: seq<PriceLevel>, sequence: Option<int>,
                      ts: real): BookState {
    if b.stale then b
    else if OutOfSequence(b, sequence) then b.(stale := true, staleReason := Some(SequenceNotMonotonic))
    else BookState(SetLevels(b.bids, bids), SetLevels(b.asks, asks),
                   if sequence.Some? then sequence else b.lastSequence, Some(ts), false, b.staleReason)
  }

  function ApplyEvent(b: BookState, e: Event): BookState {
    match e.payload
    case Snapshot(bids, asks) => ApplySnapshot(bids, asks, e.sequence, e.ts)
    case Delta(bids, asks) => ApplyDelta(b, bids, asks, e.sequence, e.ts)
    case _ => b
  }

  /** The book after a whole log. */
  function Replay(log: seq<Event>): BookState {
    if log == [] then EMPTY_BOOK else ApplyEvent(Replay(log[..|log| - 1]), log[|log| - 1])
  }

  // ----- reading the book -----

  lemma SomeMember<T>(s: set<T>) returns (x: T)
    requires s != {}
    ensures x in s
  {
    x :| x in s;
  }

  ghost predicate IsMax(x: real, s: set<real>) {
    x in s && forall y :: y in s ==> y <= x
  }

  lemma {:induction false} FindMax(s: set<real>) returns (m: real)
    requires s != {}
    ensures IsMax(m, s)
    decreases |s|
  {
    var x := SomeMember(s);
    m := x;
    if s - {x} != {} {
      var rest := FindMax(s - {x});
      m := Max(x, rest);
    }
    forall y | y in s ensures y <= m {
      if y != x { assert y in s - {x}; }
    }
  }

  function MaxOf(s: set<real>): (x: real)
    requires s != {}
    ensures IsMax(x, s)
  {
    assert exists x :: IsMax(x, s) by {
      var m := FindMax(s);
    }
    var x :| x in s && forall y :: y in s ==> y <= x;
    x
  }

  function MinOf(s: set<real>): (x: real)
    requires s != {}
    ensures x in s && forall y :: y in s ==> x <= y
  {
    var negated := set y | y in s :: -y;
    assert negated != {} by {
      var y := SomeMember(s);
      assert -y in negated;
    }
    var least := -MaxOf(negated);
    assert forall y :: y in s ==> -y in negated;
    least
  }

  function BestBid(b: BookState): Option<real> {
    if b.bids == map[] then None else Some(MaxOf(b.bids.Keys))
  }

  function BestAsk(b: BookState): Option<real> {
    if b.asks == map[] then None else Some(MinOf(b.asks.Keys))
  }

  function Mid(b: BookState): Option<real> {
    var bid, ask := BestBid(b), BestAsk(b);
    if bid.None? || ask.None? || bid.value >= ask.value then None else Some((bid.value + ask.value) / 2.0)
  }

  function SpreadBps(b: BookState): Option<real> {
    var bid, ask := BestBid(b), BestAsk(b);
    if bid.None? || ask.None? then None else
    var mid := (bid.value + ask.value) / 2.0;
    if mid <= 0.0 then None else Some((ask.value - bid.value) / mid * 10000.0)
  }

  /** Notional resting at the given prices, summed from the highest price down. */
  function Notional(m: map<real, real>, prices: set<real>): real
    requires prices <= m.Keys
  {
    if prices == {} then 0.0 else
    var p := MaxOf(prices);
    p * m[p] + Notional(m, prices - {p})
  }

  function DepthAroundMid(b: BookState, bps: real): real {
    var mid := Mid(b);
    if mid.None? then 0.0 else
    var floor := mid.value * (1.0 - bps / 10000.0);
    var ceiling := mid.value * (1.0 + bps / 10000.0);
    Notional(b.bids, set p | p in b.bids && p >= floor) + Notional(b.asks, set p | p in b.asks && p <= ceiling)
  }

  function QueueAt(b: BookState, side: Side, price: real): real {
    var levels := if side.Buy? then b.bids else b.asks;
    if price in levels then levels[price] else 0.0
  }

  // ----- the object -----

  class OrderBook {
    var bids: map<real, real>
    var asks: map<real, real>
    var lastSequence: Option<int>
    var lastTs: Option<real>
    var stale: bool
    var staleReason: Option<Reason>

    function State(): BookState
      reads this
    {
      BookState(bids, asks, lastSequence, lastTs, stale, staleReason)
    }

    constructor ()
      ensures State() == EMPTY_BOOK
    {
      bids, asks, lastSequence, lastTs := map[], map[], None, None;
      stale, staleReason := true, Some(NoSnapshot);
    }

    method Snapshot(newBids: seq<PriceLevel>, newAsks: seq<PriceLevel>, sequence: Option<int>, ts: real)
      modifies this
      ensures State() == ApplySnapshot(newBids, newAsks, sequence, ts)
    {
      bids, asks := SnapshotLevels(newBids), SnapshotLevels(newAsks);
      lastSequence, lastTs := sequence, Some(ts);
      stale, staleReason := false, None;
    }

    method Delta(bidChanges: seq<PriceLevel>, askChanges: seq<PriceLevel>, sequence: Option<int>, ts: real)
      modifies this
      ensures State() == ApplyDelta(old(State()), bidChanges, askChanges, sequence, ts)
    {
      if stale {
        return;
      }
      if OutOfSequence(State(), sequence) {
        stale, staleReason := true, Some(SequenceNotMonotonic);
        return;
      }
      for i := 0 to |bidChanges|
        invariant State() == old(State()).(bids := SetLevels(old(bids), bidChanges[..i]))
      {
        assert bidChanges[..i + 1][..i] == bidChanges[..i];
        bids := SetLevel(bids, bidChanges[i]);
      }
      assert bidChanges[..|bidChanges|] == bidChanges;
      for i := 0 to |askChanges|
        invariant State() == old(State()).(bids := SetLevels(old(bids), bidChanges),
                                           asks := SetLevels(old(asks), askChanges[..i]))
      {
        assert askChanges[..i + 1][..i] == askChanges[..i];
        asks := SetLevel(asks, askChanges[i]);
      }
      assert askChanges[..|askChanges|] == askChanges;
      if sequence.Some? {
        lastSequence := sequence;
      }
      lastTs := Some(ts);
    }

    method Apply(e: Event)
      modifies this
      ensures State() == ApplyEvent(old(State()), e)
    {
      match e.payload {
        case Snapshot(newBids, newAsks) => Snapshot(newBids, newAsks, e.sequence, e.ts);
        case Delta(bidChanges, askChanges) => Delta(bidChanges, askChanges, e.sequence, e.ts);
        case _ =>
      }
    }
  }
}
