/** What sorting by time and sequence text does to a log that the strict sequence check accepts. */
module SortedLogs {
  import opened Types
  import opened OrderIds
  import opened EventOrder
  import opened StrictSequence
  import opened Pipelines
  import opened Replays

  // ----- which logs stay accepted -----

  /** The parsed sequence depends on the text only. */
  ghost predicate ParsedFromText(log: seq<Event>) {
    forall i, j :: 0 <= i < |log| && 0 <= j < |log| && log[i].text == log[j].text ==> log[i].sequence == log[j].sequence
  }

  /** Both are of one stream, and `x` has the smaller sequence. */
  predicate Precedes(x: Event, y: Event) {
    KeyOf(x) == KeyOf(y) && x.sequence.Some? && y.sequence.Some? && x.sequence.value < y.sequence.value
  }

  lemma SortedMembers(log: seq<Event>)
    ensures forall e :: e in SortByKey(log) <==> e in log
  {
    SortInOrder(log);
    forall e ensures e in SortByKey(log) <==> e in log {
      assert e in SortByKey(log) <==> e in multiset(SortByKey(log));
      assert e in log <==> e in multiset(log);
    }
  }

  lemma EqualOrKeyed(x: Event, y: Event)
    ensures KeyBefore(x, y) || KeyBefore(y, x) || SameKey(x, y)
  {
    TextTotal(CodePoints(x.text), CodePoints(y.text));
    if CodePoints(x.text) == CodePoints(y.text) {
      SameText(x.text, y.text);
    }
  }

  lemma SameText(s: string, t: string)
    requires CodePoints(s) == CodePoints(t)
    ensures s == t
  {
    forall i | 0 <= i < |s| ensures s[i] == t[i] {
      assert CodePoints(s)[i] == s[i] as int && CodePoints(t)[i] == t[i] as int;
    }
  }

  ghost predicate KeysFollowSequences(log: seq<Event>) {
    forall x, y :: x in log && y in log && Precedes(x, y) ==> KeyBefore(x, y)
  }

  /** The strict check accepts the sorted log, of any log, exactly when within each stream the sort keys follow the
      sequences. */
  lemma SortedAcceptedIff(log: seq<Event>)
    requires ParsedFromText(log)
    ensures StreamsMonotone(SortByKey(log)) <==> KeysFollowSequences(log)
  {
    hide SortByKey, KeyBefore, SameKey, KeyOf;
    var sorted := SortByKey(log);
    SortInOrder(log);
    SortedMembers(log);
    if KeysFollowSequences(log) {
      KeyedIsMonotone(sorted);
    }
    if StreamsMonotone(sorted) {
      forall x, y | x in log && y in log && Precedes(x, y) ensures KeyBefore(x, y) {
        var i :| 0 <= i < |sorted| && sorted[i] == x;
        var j :| 0 <= j < |sorted| && sorted[j] == y;
        assert i < j;
        EqualOrKeyed(x, y);
        assert !SameKey(x, y) by { DifferentText(log, x, y); }
      }
    }
  }

  lemma KeyedIsMonotone(sorted: seq<Event>)
    requires InKeyOrder(sorted) && KeysFollowSequences(sorted)
    ensures StreamsMonotone(sorted)
  {
    hide KeyBefore, KeyOf;
    forall i, j | 0 <= i < j < |sorted| && sorted[i].sequence.Some? && sorted[j].sequence.Some? &&
      KeyOf(sorted[i]) == KeyOf(sorted[j])
      ensures sorted[i].sequence.value <= sorted[j].sequence.value
    {
      var x, y := sorted[i], sorted[j];
      assert Precedes(y, x) ==> KeyBefore(y, x);
    }
  }

  lemma DifferentText(log: seq<Event>, x: Event, y: Event)
    requires ParsedFromText(log) && x in log && y in log && Precedes(x, y)
    ensures !SameKey(x, y)
  {
    hide KeyOf;
    var i :| 0 <= i < |log| && log[i] == x;
    var j :| 0 <= j < |log| && log[j] == y;
  }

  /** Within each stream, of two events at the same time the text of the smaller sequence comes first. */
  ghost predicate TextsFollowSequences(log: seq<Event>) {
    forall x, y :: x in log && y in log && Precedes(x, y) && x.ts == y.ts ==>
      TextBefore(CodePoints(x.text), CodePoints(y.text))
  }

  /** Sorting an accepted log in time order keeps it accepted exactly when that is so. */
  lemma SortKeepsAcceptedIff(log: seq<Event>)
    requires StreamsMonotone(log) && Chronological(log) && ParsedFromText(log)
    ensures StreamsMonotone(SortByKey(log)) <==> TextsFollowSequences(log)
  {
    hide SortByKey, KeyOf, KeyBefore, TextBefore, CodePoints, Chronological;
    SortedAcceptedIff(log);
    forall x, y | x in log && y in log && Precedes(x, y)
      ensures KeyBefore(x, y) <==> (x.ts == y.ts ==> TextBefore(CodePoints(x.text), CodePoints(y.text)))
    {
      PairKeyed(log, x, y);
    }
  }

  lemma PairKeyed(log: seq<Event>, x: Event, y: Event)
    requires StreamsMonotone(log) && Chronological(log) && x in log && y in log && Precedes(x, y)
    ensures KeyBefore(x, y) <==> (x.ts == y.ts ==> TextBefore(CodePoints(x.text), CodePoints(y.text)))
  {
    hide KeyOf, TextBefore, CodePoints;
    var i :| 0 <= i < |log| && log[i] == x;
    var j :| 0 <= j < |log| && log[j] == y;
    assert i < j;
  }

  // ----- sequences written as plain integers -----

  function Characters(d: seq<nat>): (r: seq<nat>)
    ensures |r| == |d| && forall i :: 0 <= i < |d| ==> r[i] == '0' as int + d[i]
  {
    seq(|d|, i requires 0 <= i < |d| => '0' as int + d[i])
  }

  function IntText(n: int): seq<nat> {
    if n >= 0 then Characters(Decimal(n)) else ['-' as int] + Characters(Decimal(-n))
  }

  ghost predicate PlainText(log: seq<Event>) {
    forall i :: 0 <= i < |log| && log[i].sequence.Some? ==> CodePoints(log[i].text) == IntText(log[i].sequence.value)
  }

  lemma {:induction false} CharactersCompare(s: seq<nat>, t: seq<nat>)
    ensures TextBefore(Characters(s), Characters(t)) <==> TextBefore(s, t)
  {
    if s != [] && t != [] {
      assert Characters(s)[1..] == Characters(s[1..]) && Characters(t)[1..] == Characters(t[1..]);
      CharactersCompare(s[1..], t[1..]);
    }
  }

  /** The smaller of two numbers is at most the leading digits of the larger one. */
  predicate LeadsDigits(a: nat, b: nat)
    requires a < b
  {
    WidthGrows(a, b);
    a <= b / Power(|Decimal(b)| - |Decimal(a)|)
  }

  /** When the text of the smaller integer comes first. */
  predicate TextLeads(a: int, b: int)
    requires a < b
  {
    if a >= 0 then LeadsDigits(a, b) else b >= 0 || !LeadsDigits(-b, -a)
  }

  lemma DecimalFirstIff(a: nat, b: nat)
    requires a < b
    ensures TextBefore(Decimal(a), Decimal(b)) <==> LeadsDigits(a, b)
    ensures TextBefore(Decimal(b), Decimal(a)) <==> !LeadsDigits(a, b)
  {
    hide Decimal, IdDigits, TextBefore, Value;
    WidthGrows(a, b);
    DecimalValue(a);
    DecimalValue(b);
    DigitsFirstIff(Decimal(a), Decimal(b));
    TextTotal(Decimal(a), Decimal(b));
    TextAsymmetric(Decimal(a), Decimal(b));
  }

  lemma IntTextFirstIff(a: int, b: int)
    requires a < b
    ensures TextBefore(IntText(a), IntText(b)) <==> TextLeads(a, b)
  {
    hide LeadsDigits, Decimal;
    if a >= 0 {
      CharactersCompare(Decimal(a), Decimal(b));
      DecimalFirstIff(a, b);
    } else if b >= 0 {
      assert IntText(a)[0] == '-' as int && IntText(b)[0] >= '0' as int;
    } else {
      var minus := ['-' as int];
      assert (minus + Characters(Decimal(-a)))[1..] == Characters(Decimal(-a));
      assert (minus + Characters(Decimal(-b)))[1..] == Characters(Decimal(-b));
      CharactersCompare(Decimal(-a), Decimal(-b));
      DecimalFirstIff(-b, -a);
    }
  }

  /** With plain integers: exactly when, within each stream, of two different sequences at the same time the smaller is
      at most the leading digits of the larger, the other way round below zero. */
  lemma PlainSortKeepsAcceptedIff(log: seq<Event>)
    requires StreamsMonotone(log) && Chronological(log) && ParsedFromText(log) && PlainText(log)
    ensures StreamsMonotone(SortByKey(log)) <==>
            forall x, y :: x in log && y in log && Precedes(x, y) && x.ts == y.ts ==>
              TextLeads(x.sequence.value, y.sequence.value)
  {
    SortKeepsAcceptedIff(log);
    hide SortByKey, KeyOf, TextLeads, IntText;
    forall x, y | x in log && y in log && Precedes(x, y)
      ensures TextBefore(CodePoints(x.text), CodePoints(y.text)) <==> TextLeads(x.sequence.value, y.sequence.value)
    {
      var i :| 0 <= i < |log| && log[i] == x;
      var j :| 0 <= j < |log| && log[j] == y;
      IntTextFirstIff(x.sequence.value, y.sequence.value);
    }
  }

  // ----- a log that is refused once it is sorted -----

  function DeltaAt(ts: real, sequence: nat, text: string): Event {
    Event(ts, "", "", Some(sequence), text, Delta([], []))
  }

  lemma NineAndTen()
    ensures CodePoints("9") == IntText(9) && CodePoints("10") == IntText(10)
    ensures TextBefore(CodePoints("10"), CodePoints("9"))
  {
    assert Decimal(1) == [1] && Decimal(10) == Decimal(1) + [0] == [1, 0] && Decimal(9) == [9];
    assert CodePoints("10") == [49, 48] && CodePoints("9") == [57];
  }

  function NineThenTen(ts: real): seq<Event> {
    [DeltaAt(ts, 9, "9"), DeltaAt(ts, 10, "10")]
  }

  lemma NineAndTenAccepted(ts: real)
    ensures var log := NineThenTen(ts);
            StreamsMonotone(log) && Chronological(log) && PlainText(log) && ParsedFromText(log)
  {
    NineAndTen();
    hide CodePoints, IntText;
    assert "9" != "10";
  }

  lemma NineAndTenDisordered(ts: real)
    ensures !KeysFollowSequences(NineThenTen(ts))
  {
    NineAndTen();
    TextAsymmetric(CodePoints("9"), CodePoints("10"));
    hide CodePoints, IntText, TextBefore;
    var log := NineThenTen(ts);
    assert log[0] in log && log[1] in log && Precedes(log[0], log[1]);
  }

  /** Two deltas of one stream at the same time with sequences 9 and 10: accepted as they arrived, whatever follows,
      and refused by every strict replay that sorts them. */
  lemma SortedReplayRefused(cfg: Config, order: OrderConfig, start: PipelineState, ts: real)
    ensures var log := NineThenTen(ts);
            && StreamsMonotone(log) && Chronological(log) && PlainText(log)
            && ReplayedFrom(cfg, order, Request(ExchangeTimeSort), true, start, log) == ReplayResult(None, start)
  {
    hide NineThenTen, SortByKey, StreamsMonotone, Chronological, PlainText, KeysFollowSequences;
    NineAndTenAccepted(ts);
    NineAndTenDisordered(ts);
    SortedAcceptedIff(NineThenTen(ts));
    hide OutputFrom, Enriched;
  }
}
