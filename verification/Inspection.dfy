/** The depth-sequence check of recording inspection, against the book that replays the same log. */
module Inspection {
  import opened Types
  import opened OrderBooks

  datatype DepthScan = DepthScan(last: Option<int>, violations: nat)

  function ScanEvent(s: DepthScan, e: Event): DepthScan {
    match e.payload
    case Snapshot(_, _) => s.(last := e.sequence)
    case Delta(_, _) =>
      if e.sequence.Some? && s.last.Some? then
        DepthScan(e.sequence, if e.sequence.value <= s.last.value then s.violations + 1 else s.violations)
      else s
    case _ => s
  }

  function Scan(log: seq<Event>): DepthScan {
    if log == [] then DepthScan(None, 0) else ScanEvent(Scan(log[..|log| - 1]), log[|log| - 1])
  }

  method CountSequenceViolations(log: seq<Event>) returns (violations: nat)
    ensures violations == Scan(log).violations
  {
    var last: Option<int> := None;
    violations := 0;
    for i := 0 to |log|
      invariant Scan(log[..i]) == DepthScan(last, violations)
    {
      assert log[..i + 1][..i] == log[..i];
      var e := log[i];
      if e.payload.Snapshot? {
        last := e.sequence;
      } else if e.payload.Delta? && e.sequence.Some? && last.Some? {
        if e.sequence.value <= last.value {
          violations := violations + 1;
        }
        last := e.sequence;
      }
    }
    assert log[..|log|] == log;
  }

  // ----- what the book decides about the same log -----

  predicate HasSnapshot(log: seq<Event>) {
    exists i :: 0 <= i < |log| && log[i].payload.Snapshot?
  }

  /** From its first snapshot on, the replayed book is never stale. */
  ghost predicate StaysFresh(log: seq<Event>) {
    forall n :: 0 <= n <= |log| && HasSnapshot(log[..n]) ==> !Replay(log[..n]).stale
  }

  predicate SequencedDelta(e: Event) {
    e.payload.Delta? && e.sequence.Some?
  }

  predicate Follows(log: seq<Event>, i: int, k: int)
    requires 0 <= i <= k < |log|
  {
    log[i].payload.Snapshot? && forall m :: i < m <= k ==> !log[m].payload.Snapshot?
  }

  /** Behind a snapshot without a sequence, the sequenced deltas strictly increase. */
  ghost predicate UnsequencedRunsIncrease(log: seq<Event>) {
    forall i, j, k :: 0 <= i < j < k < |log| && Follows(log, i, k) && log[i].sequence.None?
      && SequencedDelta(log[j]) && SequencedDelta(log[k])
      ==> log[j].sequence.value < log[k].sequence.value
  }

  /** Where the book's last sequence comes from while the book is fresh. */
  ghost predicate LastSequenceExplained(log: seq<Event>, i: int)
    requires 0 <= i < |log|
  {
    var b := Replay(log);
    if log[i].sequence.Some? then b.lastSequence.Some? && Scan(log).last == b.lastSequence
    else
      && Scan(log).last.None?
      && (forall j :: i < j < |log| && SequencedDelta(log[j]) ==>
            b.lastSequence.Some? && log[j].sequence.value <= b.lastSequence.value)
      && (b.lastSequence.Some? ==>
            exists j :: i < j < |log| && SequencedDelta(log[j]) && log[j].sequence == b.lastSequence)
  }

  lemma StaysFreshPrefix(log: seq<Event>)
    requires log != []
    ensures StaysFresh(log) <==> StaysFresh(log[..|log| - 1]) && (HasSnapshot(log) ==> !Replay(log).stale)
  {
    var init := log[..|log| - 1];
    assert log[..|log|] == log;
    assert forall n :: 0 <= n <= |init| ==> log[..n] == init[..n];
    forall n | StaysFresh(log) && 0 <= n <= |init| && HasSnapshot(init[..n]) ensures !Replay(init[..n]).stale {
      assert log[..n] == init[..n];
    }
    forall n | StaysFresh(init) && (HasSnapshot(log) ==> !Replay(log).stale) && 0 <= n <= |log| && HasSnapshot(log[..n])
      ensures !Replay(log[..n]).stale
    {
      if n < |log| { assert log[..n] == init[..n]; }
    }
  }

  lemma {:induction false} NoSnapshotYet(log: seq<Event>)
    requires !HasSnapshot(log)
    ensures Replay(log) == EMPTY_BOOK && Scan(log).last.None?
  {
    if log != [] {
      NoSnapshotYet(log[..|log| - 1]);
      assert log[|log| - 1] in log;
    }
  }

  lemma {:induction false} FreshBookExplained(log: seq<Event>, i: int)
    requires 0 <= i < |log| && Follows(log, i, |log| - 1) && StaysFresh(log)
    ensures LastSequenceExplained(log, i)
    decreases |log|
  {
    var n := |log| - 1;
    if i < n {
      var init := log[..n];
      StaysFreshPrefix(log);
      FreshBookExplained(init, i);
      assert forall j :: 0 <= j < n ==> init[j] == log[j];
      assert log[..|log|] == log && HasSnapshot(log);
      assert HasSnapshot(init) by { assert init[i].payload.Snapshot?; }
      assert init[..n] == init;
      var b, e := Replay(init), log[n];
      assert !b.stale;
      if log[i].sequence.None? {
        forall j | i < j < |log| && SequencedDelta(log[j])
          ensures Replay(log).lastSequence.Some? && log[j].sequence.value <= Replay(log).lastSequence.value
        {
          if j < n { assert SequencedDelta(init[j]); }
        }
        if Replay(log).lastSequence.Some? {
          if SequencedDelta(e) {
            assert log[n].sequence == Replay(log).lastSequence;
          } else {
            var j :| i < j < |init| && SequencedDelta(init[j]) && init[j].sequence == b.lastSequence;
            assert SequencedDelta(log[j]) && log[j].sequence == Replay(log).lastSequence;
          }
        }
      }
    }
  }

  lemma {:induction false} LastSnapshot(log: seq<Event>) returns (i: int)
    requires HasSnapshot(log)
    ensures 0 <= i < |log| && Follows(log, i, |log| - 1)
  {
    var n := |log| - 1;
    if log[n].payload.Snapshot? {
      i := n;
    } else {
      var k :| 0 <= k < |log| && log[k].payload.Snapshot?;
      assert log[..n][k].payload.Snapshot?;
      i := LastSnapshot(log[..n]);
      forall m | i < m <= n ensures !log[m].payload.Snapshot? {
        if m < n { assert log[m] == log[..n][m]; }
      }
    }
  }

  lemma RunsIncreasePrefix(log: seq<Event>)
    requires log != [] && UnsequencedRunsIncrease(log)
    ensures UnsequencedRunsIncrease(log[..|log| - 1])
  {
    var init := log[..|log| - 1];
    forall i, j, k | 0 <= i < j < k < |init| && Follows(init, i, k) && init[i].sequence.None?
      && SequencedDelta(init[j]) && SequencedDelta(init[k])
      ensures init[j].sequence.value < init[k].sequence.value
    {
      assert forall m :: i < m <= k ==> log[m] == init[m];
      assert Follows(log, i, k) && SequencedDelta(log[j]) && SequencedDelta(log[k]);
    }
  }

  lemma RunsUnaffected(log: seq<Event>)
    requires log != [] && UnsequencedRunsIncrease(log[..|log| - 1])
    requires !SequencedDelta(log[|log| - 1]) || !HasSnapshot(log[..|log| - 1])
    ensures UnsequencedRunsIncrease(log)
  {
    var init := log[..|log| - 1];
    assert forall m :: 0 <= m < |init| ==> init[m] == log[m];
    forall i, j, k | 0 <= i < j < k < |log| && Follows(log, i, k) && log[i].sequence.None?
      && SequencedDelta(log[j]) && SequencedDelta(log[k])
      ensures log[j].sequence.value < log[k].sequence.value
    {
      assert init[i].payload.Snapshot?;
      assert Follows(init, i, k) && SequencedDelta(init[j]) && SequencedDelta(init[k]);
    }
  }

  lemma FreshUnaffected(log: seq<Event>)
    requires log != [] && StaysFresh(log[..|log| - 1])
    requires !SequencedDelta(log[|log| - 1]) || !HasSnapshot(log[..|log| - 1])
    ensures StaysFresh(log) && Scan(log).violations == Scan(log[..|log| - 1]).violations
  {
    var init := log[..|log| - 1];
    StaysFreshPrefix(log);
    if HasSnapshot(init) {
      assert init[..|init|] == init;
    } else {
      FirstSnapshot(log);
    }
  }

  lemma FirstSnapshot(log: seq<Event>)
    requires log != [] && !HasSnapshot(log[..|log| - 1])
    ensures HasSnapshot(log) ==> log[|log| - 1].payload.Snapshot? && !Replay(log).stale
    ensures Scan(log).violations == Scan(log[..|log| - 1]).violations
  {
    NoSnapshotYet(log[..|log| - 1]);
    SnapshotSplit(log);
  }

  lemma SnapshotSplit(log: seq<Event>)
    requires log != []
    ensures HasSnapshot(log) <==> HasSnapshot(log[..|log| - 1]) || log[|log| - 1].payload.Snapshot?
  {
    var init := log[..|log| - 1];
    assert forall i :: 0 <= i < |init| ==> init[i] == log[i];
    assert log == init + [log[|log| - 1]];
  }

  /** One more event on a log the book has survived so far. */
  lemma FreshStep(log: seq<Event>)
    requires log != []
    requires var init := log[..|log| - 1];
             StaysFresh(init) && Scan(init).violations == 0 && UnsequencedRunsIncrease(init)
    ensures StaysFresh(log) <==> Scan(log).violations == 0 && UnsequencedRunsIncrease(log)
  {
    if SequencedDelta(log[|log| - 1]) && HasSnapshot(log[..|log| - 1]) {
      FreshSequencedDelta(log);
    } else {
      FreshUnaffected(log);
      RunsUnaffected(log);
    }
  }

  lemma FreshSequencedDelta(log: seq<Event>)
    requires log != [] && SequencedDelta(log[|log| - 1]) && HasSnapshot(log[..|log| - 1])
    requires var init := log[..|log| - 1];
             StaysFresh(init) && Scan(init).violations == 0 && UnsequencedRunsIncrease(init)
    ensures StaysFresh(log) <==> Scan(log).violations == 0 && UnsequencedRunsIncrease(log)
  {
    var n := |log| - 1;
    var i := LastSnapshot(log[..n]);
    FreshBookExplained(log[..n], i);
    assert log[..n][..n] == log[..n] && !Replay(log[..n]).stale;
    StaleExactlyWhenLate(log);
    LateBreaksRun(log, i);
  }

  lemma StaleExactlyWhenLate(log: seq<Event>)
    requires log != [] && SequencedDelta(log[|log| - 1]) && HasSnapshot(log[..|log| - 1])
    requires StaysFresh(log[..|log| - 1]) && !Replay(log[..|log| - 1]).stale
    ensures StaysFresh(log) <==> !OutOfSequence(Replay(log[..|log| - 1]), log[|log| - 1].sequence)
  {
    StaysFreshPrefix(log);
    var i :| 0 <= i < |log| - 1 && log[..|log| - 1][i].payload.Snapshot?;
    assert log[i].payload.Snapshot?;
  }

  lemma LateBreaksRun(log: seq<Event>, i: int)
    requires log != [] && SequencedDelta(log[|log| - 1])
    requires 0 <= i < |log| - 1 && Follows(log[..|log| - 1], i, |log| - 2)
    requires LastSequenceExplained(log[..|log| - 1], i)
    requires Scan(log[..|log| - 1]).violations == 0 && UnsequencedRunsIncrease(log[..|log| - 1])
    ensures !OutOfSequence(Replay(log[..|log| - 1]), log[|log| - 1].sequence) <==>
            Scan(log).violations == 0 && UnsequencedRunsIncrease(log)
  {
    var n := |log| - 1;
    assert forall m :: 0 <= m < n ==> log[..n][m] == log[m];
    assert Follows(log, i, n);
    if log[i].sequence.None? {
      if OutOfSequence(Replay(log[..n]), log[n].sequence) {
        LateInRun(log, i);
      } else {
        InTimeInRun(log, i);
      }
    } else {
      RunsIncreaseAt(log, i);
    }
  }

  lemma LateInRun(log: seq<Event>, i: int)
    requires log != [] && SequencedDelta(log[|log| - 1])
    requires 0 <= i < |log| - 1 && Follows(log, i, |log| - 1) && log[i].sequence.None?
    requires LastSequenceExplained(log[..|log| - 1], i)
    requires OutOfSequence(Replay(log[..|log| - 1]), log[|log| - 1].sequence)
    ensures !UnsequencedRunsIncrease(log)
  {
    var n := |log| - 1;
    var init := log[..n];
    var j :| i < j < |init| && SequencedDelta(init[j]) && init[j].sequence == Replay(init).lastSequence;
    assert init[j] == log[j] && SequencedDelta(log[j]) && SequencedDelta(log[n]);
  }

  lemma InTimeInRun(log: seq<Event>, i: int)
    requires log != [] && SequencedDelta(log[|log| - 1])
    requires 0 <= i < |log| - 1 && Follows(log, i, |log| - 1) && log[i].sequence.None?
    requires LastSequenceExplained(log[..|log| - 1], i) && UnsequencedRunsIncrease(log[..|log| - 1])
    requires !OutOfSequence(Replay(log[..|log| - 1]), log[|log| - 1].sequence)
    ensures UnsequencedRunsIncrease(log)
  {
    var n := |log| - 1;
    forall j | i < j < n && SequencedDelta(log[j]) ensures log[j].sequence.value < log[n].sequence.value {
      assert log[..n][j] == log[j] && SequencedDelta(log[..n][j]);
    }
    RunsIncreaseAt(log, i);
  }

  lemma RunsIncreaseAt(log: seq<Event>, last: int)
    requires log != [] && UnsequencedRunsIncrease(log[..|log| - 1])
    requires 0 <= last < |log| && Follows(log, last, |log| - 1)
    requires log[last].sequence.None? && SequencedDelta(log[|log| - 1]) ==>
               forall j :: last < j < |log| - 1 && SequencedDelta(log[j]) ==>
                 log[j].sequence.value < log[|log| - 1].sequence.value
    ensures UnsequencedRunsIncrease(log)
  {
    var n := |log| - 1;
    var init := log[..n];
    assert forall m :: 0 <= m < n ==> init[m] == log[m];
    forall i, j, k | 0 <= i < j < k < |log| && Follows(log, i, k) && log[i].sequence.None?
      && SequencedDelta(log[j]) && SequencedDelta(log[k])
      ensures log[j].sequence.value < log[k].sequence.value
    {
      if k < n {
        assert Follows(init, i, k) && SequencedDelta(init[j]) && SequencedDelta(init[k]);
      } else {
        assert i == last;
      }
    }
  }

  /** For every log: exactly when does the replayed book stay fresh? */
  lemma {:induction false} BookFreshIff(log: seq<Event>)
    ensures StaysFresh(log) <==> Scan(log).violations == 0 && UnsequencedRunsIncrease(log)
  {
    if log != [] {
      BookFreshIff(log[..|log| - 1]);
      if StaysFresh(log[..|log| - 1]) {
        FreshStep(log);
      } else {
        StaysFreshPrefix(log);
        if UnsequencedRunsIncrease(log) { RunsIncreasePrefix(log); }
      }
    } else {
      assert log[..0] == log;
    }
  }

  /** Inspection and the book agree on every log whose snapshots all carry a sequence. */
  lemma InspectionDecidesStaleness(log: seq<Event>)
    requires forall i :: 0 <= i < |log| && log[i].payload.Snapshot? ==> log[i].sequence.Some?
    ensures Scan(log).violations == 0 <==> StaysFresh(log)
  {
    BookFreshIff(log);
  }

  /** Without that hypothesis inspection can pass a log on which the book goes stale. */
  lemma UnsequencedSnapshotMissed(ts: real, venue: string, symbol: string)
    ensures var log := [Event(ts, venue, symbol, None, "None", Snapshot([], [])),
                        Event(ts, venue, symbol, Some(5), "5", Delta([], [])),
                        Event(ts, venue, symbol, Some(3), "3", Delta([], []))];
            Scan(log).violations == 0 && !StaysFresh(log)
  {
    var e0 := Event(ts, venue, symbol, None, "None", Snapshot([], []));
    var e1 := Event(ts, venue, symbol, Some(5), "5", Delta([], []));
    var e2 := Event(ts, venue, symbol, Some(3), "3", Delta([], []));
    var log := [e0, e1, e2];
    assert log[..2] == [e0, e1] && [e0, e1][..1] == [e0] && [e0][..0] == [];
    assert Scan([e0]) == DepthScan(None, 0);
    assert Scan([e0, e1]) == DepthScan(None, 0);
    assert Replay([e0, e1]).lastSequence == Some(5);
    assert log[0].payload.Snapshot? && HasSnapshot(log) && log[..3] == log;
    assert Replay(log).stale;
  }
}
