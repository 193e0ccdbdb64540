/** The strict sequence check that replay makes before processing a log. */
module StrictSequence {
  import opened Types
  import opened OrderBooks

  /** The event type by name; snapshots and deltas share one stream. */
  function StreamOf(p: Payload): string {
    match p
    case Snapshot(_, _) => "order_book"
    case Delta(_, _) => "order_book"
    case Trade(_, _, _) => "trade"
    case Ticker(_, _, _) => "bitbank_ticker"
    case ExternalFair(_, _, _, _, _, _) => "external_fair_price"
    case PairSpecInfo(_) => "bitbank_pair_spec"
    case StatusInfo(_) => "bitbank_status"
    case Recorded(output) => EmittedType(output)
    case Unrelated(eventType) => eventType
  }

  function EmittedType(e: Emitted): string {
    match e
    case MarkPrice(_, _) => "mark_price"
    case ForcedFlow(_) => "forced_flow"
    case VirtualFill(_) => "virtual_fill"
    case RiskUpdate(_, _, _, _, _, _) => "risk_state"
    case Order(change) => if change.Placed? then "virtual_order_placed" else "virtual_order_canceled"
    case LiveIntent(_) => "live_order_intent"
    case LiveBlocked(_, _) => "live_order_blocked"
  }

  datatype StreamKey = StreamKey(venue: string, symbol: string, stream: string)

  function KeyOf(e: Event): StreamKey {
    StreamKey(e.venue, e.symbol, StreamOf(e.payload))
  }

  /** Parsed sequences never decrease within a stream. */
  ghost predicate StreamsMonotone(log: seq<Event>) {
    forall i, j :: 0 <= i < j < |log| && log[i].sequence.Some? && log[j].sequence.Some? &&
      KeyOf(log[i]) == KeyOf(log[j])
      ==> log[i].sequence.value <= log[j].sequence.value
  }

  /** `last` holds the latest, and greatest, sequence of each stream of `log`. */
  ghost predicate LastOfStreams(last: map<StreamKey, int>, log: seq<Event>) {
    && (forall j :: 0 <= j < |log| && log[j].sequence.Some? ==>
          KeyOf(log[j]) in last && log[j].sequence.value <= last[KeyOf(log[j])])
    && (forall key :: key in last ==>
          exists j :: 0 <= j < |log| && KeyOf(log[j]) == key && log[j].sequence == Some(last[key]))
  }

  /** The index of the first event whose sequence falls behind its stream, if there is one. */
  method AssertMonotonicSequences(log: seq<Event>) returns (violation: Option<nat>)
    ensures violation.None? <==> StreamsMonotone(log)
    ensures violation.Some? ==>
              violation.value < |log| && StreamsMonotone(log[..violation.value]) &&
                !StreamsMonotone(log[..violation.value + 1])
  {
    hide StreamOf;
    var last: map<StreamKey, int> := map[];
    for n := 0 to |log|
      invariant StreamsMonotone(log[..n])
      invariant LastOfStreams(last, log[..n])
    {
      var e := log[n];
      assert log[..n + 1] == log[..n] + [e];
      if e.sequence.Some? {
        var key := KeyOf(e);
        if key in last && e.sequence.value < last[key] {
          BreaksStream(log, n, last);
          return Some(n);
        }
        LastExtends(last, log, n);
        last := last[key := e.sequence.value];
      }
    }
    assert log[..|log|] == log;
    violation := None;
  }

  lemma BreaksStream(log: seq<Event>, n: nat, last: map<StreamKey, int>)
    requires n < |log| && LastOfStreams(last, log[..n])
    requires log[n].sequence.Some? && KeyOf(log[n]) in last && log[n].sequence.value < last[KeyOf(log[n])]
    ensures !StreamsMonotone(log[..n + 1]) && !StreamsMonotone(log)
  {
    var prefix, key := log[..n], KeyOf(log[n]);
    var j :| 0 <= j < |prefix| && KeyOf(prefix[j]) == key && prefix[j].sequence == Some(last[key]);
    var longer := log[..n + 1];
    assert longer[j] == prefix[j] == log[j] && longer[n] == log[n];
  }

  lemma LastExtends(last: map<StreamKey, int>, log: seq<Event>, n: nat)
    requires n < |log| && LastOfStreams(last, log[..n]) && StreamsMonotone(log[..n])
    requires log[n].sequence.Some?
    requires KeyOf(log[n]) in last ==> last[KeyOf(log[n])] <= log[n].sequence.value
    ensures StreamsMonotone(log[..n + 1])
    ensures LastOfStreams(last[KeyOf(log[n]) := log[n].sequence.value], log[..n + 1])
  {
    var key := KeyOf(log[n]);
    var before, after := log[..n], log[..n + 1];
    assert after == before + [log[n]];
    var next := last[key := log[n].sequence.value];
    forall k | k in next
      ensures exists j :: 0 <= j < |after| && KeyOf(after[j]) == k && after[j].sequence == Some(next[k])
    {
      if k == key {
        assert after[n].sequence == Some(next[k]);
      } else {
        var j :| 0 <= j < |before| && KeyOf(before[j]) == k && before[j].sequence == Some(last[k]);
        assert after[j] == before[j];
      }
    }
  }

  // ----- what the check guarantees about the book -----

  predicate Depth(e: Event) {
    e.payload.Snapshot? || e.payload.Delta?
  }

  ghost predicate SingleMarket(log: seq<Event>) {
    forall i, j :: 0 <= i < |log| && 0 <= j < |log| && Depth(log[i]) && Depth(log[j])
      ==> log[i].venue == log[j].venue && log[i].symbol == log[j].symbol
  }

  lemma {:induction false} BookSequenceComesFromLog(log: seq<Event>)
    ensures Replay(log).lastSequence.Some? ==>
              exists j :: 0 <= j < |log| && Depth(log[j]) && log[j].sequence == Replay(log).lastSequence
  {
    if log != [] && Replay(log).lastSequence.Some? {
      var n := |log| - 1;
      var init := log[..n];
      BookSequenceComesFromLog(init);
      if Depth(log[n]) && log[n].sequence == Replay(log).lastSequence {
      } else {
        var j :| 0 <= j < |init| && Depth(init[j]) && init[j].sequence == Replay(init).lastSequence;
        assert Depth(log[j]) && log[j].sequence == Replay(log).lastSequence;
      }
    }
  }

  /** On an accepted log of one market, a fresh book goes stale exactly on a delta that repeats its last sequence. */
  lemma AcceptedLogGoesStaleOnlyOnRepeat(log: seq<Event>, n: nat)
    requires StreamsMonotone(log) && SingleMarket(log) && n < |log|
    requires !Replay(log[..n]).stale
    ensures Replay(log[..n + 1]).stale <==>
            log[n].payload.Delta? && log[n].sequence.Some? && log[n].sequence == Replay(log[..n]).lastSequence
  {
    var before := log[..n];
    assert log[..n + 1][..n] == before;
    BookSequenceComesFromLog(before);
    if log[n].payload.Delta? && log[n].sequence.Some? && Replay(before).lastSequence.Some? {
      var j :| 0 <= j < |before| && Depth(before[j]) && before[j].sequence == Replay(before).lastSequence;
      assert Depth(log[j]) && Depth(log[n]) && KeyOf(log[j]) == KeyOf(log[n]);
    }
  }
}
