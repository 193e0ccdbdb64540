/** Splitting a recording into equal time spans, with the metadata copied in front of every part. */
module Splits {
  import opened Types

  /** An event id is either recorded or derived from everything that is hashed into a copy's id. */
  datatype EventId = RecordedId(text: string) | CopyId(source: EventId, index: nat, ts: real)

  datatype LogEvent = LogEvent(id: EventId, eventType: string, ts: Option<real>, content: string)

  datatype SplitError = PartsMustBeAtLeast2 | NoInputFiles | NoTimestampedDataEvents | RecordingDurationZero
    | EmptySplit(number: nat)

  datatype Part = Part(events: seq<LogEvent>, data: seq<LogEvent>, startTs: real, endTs: real)

  datatype SplitResult = Split(parts: seq<Part>) | Failed(error: SplitError)

  // ----- metadata and data -----

  datatype Classified = Classified(metadata: seq<LogEvent>, data: seq<LogEvent>)

  predicate SeenType(metadata: seq<LogEvent>, eventType: string) {
    exists m :: m in metadata && m.eventType == eventType
  }

  function ClassifyOne(types: set<string>, c: Classified, e: LogEvent): Classified {
    if e.eventType in types && !SeenType(c.metadata, e.eventType) then c.(metadata := c.metadata + [e])
    else if e.ts.Some? then c.(data := c.data + [e])
    else c
  }

  /** The first event of each metadata type is metadata; every other event with a timestamp is data. */
  function Classify(types: set<string>, log: seq<LogEvent>): (c: Classified)
    ensures forall e :: e in c.data ==> e.ts.Some?
  {
    if log == [] then Classified([], []) else ClassifyOne(types, Classify(types, log[..|log| - 1]), log[|log| - 1])
  }

  function Flatten(files: seq<seq<LogEvent>>): seq<LogEvent> {
    if files == [] then [] else Flatten(files[..|files| - 1]) + files[|files| - 1]
  }

  // ----- the spans -----

  type Data = s: seq<LogEvent> | forall i :: 0 <= i < |s| ==> s[i].ts.Some? witness []

  function MinTs(data: Data): (t: real)
    requires data != []
    ensures forall i :: 0 <= i < |data| ==> t <= data[i].ts.value
    ensures exists i :: 0 <= i < |data| && data[i].ts.value == t
  {
    var last := data[|data| - 1].ts.value;
    if |data| == 1 then last else Min(MinTs(data[..|data| - 1]), last)
  }

  function MaxTs(data: Data): (t: real)
    requires data != []
    ensures forall i :: 0 <= i < |data| ==> data[i].ts.value <= t
    ensures exists i :: 0 <= i < |data| && data[i].ts.value == t
  {
    var last := data[|data| - 1].ts.value;
    if |data| == 1 then last else Max(MaxTs(data[..|data| - 1]), last)
  }

  datatype Span = Span(first: real, last: real, parts: int)

  predicate Proper(p: Span) {
    p.parts >= 2 && p.first < p.last
  }

  function Boundary(p: Span, i: int): real
    requires Proper(p)
  {
    p.first + (p.last - p.first) * i as real / p.parts as real
  }

  predicate InSplit(p: Span, ts: real, i: int)
    requires Proper(p)
  {
    Boundary(p, i) <= ts && (if i == p.parts - 1 then ts <= Boundary(p, i + 1) else ts < Boundary(p, i + 1))
  }

  function Select(p: Span, data: Data, i: int): (r: Data)
    requires Proper(p)
    ensures |r| <= |data|
  {
    if data == [] then [] else
    var rest, last := Select(p, data[..|data| - 1], i), data[|data| - 1];
    if InSplit(p, last.ts.value, i) then rest + [last] else rest
  }

  // ----- metadata copies -----

  /** Copies end one millisecond before the part starts, one millisecond apart. */
  function MetadataFor(metadata: seq<LogEvent>, start: real): (r: seq<LogEvent>)
    ensures |r| == |metadata|
  {
    seq(|metadata|, k requires 0 <= k < |metadata| =>
      var ts := start - (|metadata| - k) as real;
      metadata[k].(id := CopyId(metadata[k].id, k, ts), ts := Some(ts)))
  }

  function MakePart(metadata: seq<LogEvent>, selected: Data): Part
    requires selected != []
  {
    Part(MetadataFor(metadata, MinTs(selected)) + selected, selected, MinTs(selected), MaxTs(selected))
  }

  function PartsUpTo(p: Span, c: Classified, n: nat): SplitResult
    requires Proper(p) && n <= p.parts && forall e :: e in c.data ==> e.ts.Some?
  {
    if n == 0 then Split([]) else
    var before := PartsUpTo(p, c, n - 1);
    if before.Failed? then before else
    var selected := Select(p, c.data, n - 1);
    if selected == [] then Failed(EmptySplit(n)) else Split(before.parts + [MakePart(c.metadata, selected)])
  }

  function SpanOf(data: Data, parts: int): Span
    requires data != []
  {
    Span(MinTs(data), MaxTs(data), parts)
  }

  function SplitByTime(files: seq<seq<LogEvent>>, parts: int, types: set<string>): SplitResult {
    if parts < 2 then Failed(PartsMustBeAtLeast2)
    else if files == [] then Failed(NoInputFiles)
    else
      var c := Classify(types, Flatten(files));
      if c.data == [] then Failed(NoTimestampedDataEvents)
      else
        var p := SpanOf(c.data, parts);
        if p.last <= p.first then Failed(RecordingDurationZero) else PartsUpTo(p, c, parts)
  }

  method SplitRecording(files: seq<seq<LogEvent>>, parts: int, types: set<string>) returns (result: SplitResult)
    ensures result == SplitByTime(files, parts, types)
  {
    if parts < 2 {
      return Failed(PartsMustBeAtLeast2);
    }
    if files == [] {
      return Failed(NoInputFiles);
    }
    var log := Flatten(files);
    var c := Classified([], []);
    for i := 0 to |log|
      invariant c == Classify(types, log[..i])
    {
      assert log[..i + 1][..i] == log[..i];
      c := ClassifyOne(types, c, log[i]);
    }
    assert log[..|log|] == log;
    if c.data == [] {
      return Failed(NoTimestampedDataEvents);
    }
    var p := SpanOf(c.data, parts);
    if p.last <= p.first {
      return Failed(RecordingDurationZero);
    }
    result := MakeParts(p, c);
  }

  method MakeParts(p: Span, c: Classified) returns (result: SplitResult)
    requires Proper(p) && forall e :: e in c.data ==> e.ts.Some?
    ensures result == PartsUpTo(p, c, p.parts)
  {
    hide Select, MakePart;
    var made := [];
    for index := 0 to p.parts
      invariant PartsUpTo(p, c, index) == Split(made)
    {
      var selected := Select(p, c.data, index);
      if selected == [] {
        FailureStays(p, c, index + 1, p.parts);
        return Failed(EmptySplit(index + 1));
      }
      made := made + [MakePart(c.metadata, selected)];
    }
    result := Split(made);
  }

  lemma {:induction false} FailureStays(p: Span, c: Classified, n: nat, m: nat)
    requires Proper(p) && n <= m <= p.parts && forall e :: e in c.data ==> e.ts.Some?
    requires PartsUpTo(p, c, n).Failed?
    ensures PartsUpTo(p, c, m) == PartsUpTo(p, c, n)
    decreases m
  {
    if n < m {
      FailureStays(p, c, n, m - 1);
    }
  }

  // ----- every timestamp is in exactly one span -----

  lemma BoundaryMono(p: Span, i: int)
    requires Proper(p)
    ensures Boundary(p, i) < Boundary(p, i + 1)
  {
    var span, n := p.last - p.first, p.parts as real;
    var a, b := span * i as real, span * (i + 1) as real;
    assert b - a == span;
    assert b / n - a / n == span / n;
    assert span / n > 0.0;
  }

  lemma BoundaryEnds(p: Span)
    requires Proper(p)
    ensures Boundary(p, 0) == p.first && Boundary(p, p.parts) == p.last
  {
    var span, n := p.last - p.first, p.parts as real;
    assert span * n / n == span;
  }

  /** How many of the first `k` spans contain the timestamp. */
  function Hits(p: Span, ts: real, k: nat): (n: nat)
    requires Proper(p)
    ensures n <= k
  {
    if k == 0 then 0 else Hits(p, ts, k - 1) + (if InSplit(p, ts, k - 1) then 1 else 0)
  }

  lemma {:induction false} HitsBelow(p: Span, ts: real, k: nat)
    requires Proper(p) && k < p.parts && p.first <= ts
    ensures Hits(p, ts, k) == if ts < Boundary(p, k) then 1 else 0
  {
    BoundaryEnds(p);
    if k > 0 {
      HitsBelow(p, ts, k - 1);
      BoundaryMono(p, k - 1);
    }
  }

  lemma HitsOnce(p: Span, ts: real)
    requires Proper(p) && p.first <= ts <= p.last
    ensures Hits(p, ts, p.parts) == 1
  {
    HitsBelow(p, ts, p.parts - 1);
    BoundaryEnds(p);
    BoundaryMono(p, p.parts - 1);
  }

  lemma {:induction false} NoHit(p: Span, ts: real, k: nat)
    requires Proper(p)
    ensures Hits(p, ts, k) == 0 <==> forall i :: 0 <= i < k ==> !InSplit(p, ts, i)
  {
    hide InSplit;
    if k > 0 {
      NoHit(p, ts, k - 1);
    }
  }

  /** The only span that contains a timestamp that is in just one. */
  lemma {:induction false} OneHit(p: Span, ts: real, k: nat) returns (i: nat)
    requires Proper(p) && Hits(p, ts, k) == 1
    ensures i < k && InSplit(p, ts, i)
    ensures forall j :: 0 <= j < k && j != i ==> !InSplit(p, ts, j)
  {
    hide InSplit;
    if InSplit(p, ts, k - 1) {
      NoHit(p, ts, k - 1);
      i := k - 1;
    } else {
      i := OneHit(p, ts, k - 1);
    }
  }

  // ----- selections -----

  /** The positions of the data events selected for span `i`. */
  function Positions(p: Span, data: Data, i: int): (r: seq<nat>)
    requires Proper(p)
    ensures forall k :: 0 <= k < |r| ==> r[k] < |data|
  {
    if data == [] then [] else
    var n := |data| - 1;
    var rest := Positions(p, data[..n], i);
    if InSplit(p, data[n].ts.value, i) then rest + [n] else rest
  }

  /** A selection is the data at strictly increasing positions: exactly those whose timestamp is in the span. */
  lemma {:induction false} SelectKeepsOrder(p: Span, data: Data, i: int)
    requires Proper(p)
    ensures var at, r := Positions(p, data, i), Select(p, data, i);
            && |at| == |r| && (forall k :: 0 <= k < |r| ==> r[k] == data[at[k]])
            && (forall k, m :: 0 <= k < m < |at| ==> at[k] < at[m])
            && (forall j :: 0 <= j < |data| ==> (j in at <==> InSplit(p, data[j].ts.value, i)))
  {
    if data != [] {
      var n := |data| - 1;
      SelectKeepsOrder(p, data[..n], i);
      var at := Positions(p, data[..n], i);
      forall j | 0 <= j < |data| ensures j in Positions(p, data, i) <==> InSplit(p, data[j].ts.value, i) {
        if j < n { assert data[..n][j] == data[j]; }
        assert n !in at;
      }
    }
  }

  function TotalSelected(p: Span, data: Data, k: nat): nat
    requires Proper(p)
  {
    if k == 0 then 0 else TotalSelected(p, data, k - 1) + |Select(p, data, k - 1)|
  }

  lemma {:induction false} TotalSelectedSnoc(p: Span, data: Data, k: nat)
    requires Proper(p) && data != []
    ensures TotalSelected(p, data, k) == TotalSelected(p, data[..|data| - 1], k) + Hits(p, data[|data| - 1].ts.value, k)
  {
    if k > 0 {
      TotalSelectedSnoc(p, data, k - 1);
    }
  }

  lemma {:induction false} SelectionsCover(p: Span, data: Data)
    requires Proper(p) && forall i :: 0 <= i < |data| ==> p.first <= data[i].ts.value <= p.last
    ensures TotalSelected(p, data, p.parts) == |data|
  {
    if data == [] {
      NothingSelected(p, p.parts);
    } else {
      SelectionsCover(p, data[..|data| - 1]);
      TotalSelectedSnoc(p, data, p.parts);
      HitsOnce(p, data[|data| - 1].ts.value);
    }
  }

  lemma {:induction false} NothingSelected(p: Span, k: nat)
    requires Proper(p)
    ensures TotalSelected(p, [], k) == 0
  {
    if k > 0 { NothingSelected(p, k - 1); }
  }

  // ----- main results -----

  function TotalData(parts: seq<Part>): nat {
    if parts == [] then 0 else TotalData(parts[..|parts| - 1]) + |parts[|parts| - 1].data|
  }

  lemma NoData()
    ensures TotalData([]) == 0
  {
  }

  lemma PartsSnoc(p: Span, c: Classified, n: nat)
    requires Proper(p) && 0 < n <= p.parts && forall e :: e in c.data ==> e.ts.Some?
    requires PartsUpTo(p, c, n).Split?
    ensures PartsUpTo(p, c, n - 1).Split? && Select(p, c.data, n - 1) != []
    ensures var part := MakePart(c.metadata, Select(p, c.data, n - 1));
            PartsUpTo(p, c, n).parts == PartsUpTo(p, c, n - 1).parts + [part] && part.data == Select(p, c.data, n - 1)
  {
    hide Select, MetadataFor;
  }

  lemma {:induction false} PartsCounted(p: Span, c: Classified, n: nat)
    requires Proper(p) && n <= p.parts && forall e :: e in c.data ==> e.ts.Some?
    requires PartsUpTo(p, c, n).Split?
    ensures var parts := PartsUpTo(p, c, n).parts; |parts| == n && TotalData(parts) == TotalSelected(p, c.data, n)
  {
    hide TotalData, Select;
    if n == 0 {
      NoData();
    } else {
      PartsSnoc(p, c, n);
      hide PartsUpTo, MakePart;
      PartsCounted(p, c, n - 1);
      var before, selected := PartsUpTo(p, c, n - 1).parts, Select(p, c.data, n - 1);
      TotalDataSnoc(before, MakePart(c.metadata, selected));
    }
  }

  lemma TotalDataSnoc(parts: seq<Part>, part: Part)
    ensures TotalData(parts + [part]) == TotalData(parts) + |part.data|
  {
    assert (parts + [part])[..|parts|] == parts;
  }

  lemma {:induction false} PartsAreSelections(p: Span, c: Classified, n: nat)
    requires Proper(p) && n <= p.parts && forall e :: e in c.data ==> e.ts.Some?
    requires PartsUpTo(p, c, n).Split?
    ensures var parts := PartsUpTo(p, c, n).parts;
            |parts| == n && forall i :: 0 <= i < n ==>
              Select(p, c.data, i) != [] && parts[i] == MakePart(c.metadata, Select(p, c.data, i))
  {
    hide Select, MakePart;
    if n > 0 {
      PartsAreSelections(p, c, n - 1);
    }
  }

  lemma InOnePart(p: Span, data: Data, j: nat)
    requires Proper(p) && j < |data| && p.first <= data[j].ts.value <= p.last
    ensures OnlyPart(p, data, j)
  {
    HitsOnce(p, data[j].ts.value);
    var i := OneHit(p, data[j].ts.value, p.parts);
    hide InSplit, Positions;
    forall k | 0 <= k < p.parts ensures j in Positions(p, data, k) <==> InSplit(p, data[j].ts.value, k) {
      SelectKeepsOrder(p, data, k);
    }
  }

  /** Whenever a split succeeds it partitions the data: every data event is at a selected position of exactly one
      part, each part keeps the order of the data, and the part sizes sum to the number of data events. */
  lemma SplitPartitions(files: seq<seq<LogEvent>>, parts: int, types: set<string>)
    requires SplitByTime(files, parts, types).Split?
    ensures var data, made := Classify(types, Flatten(files)).data, SplitByTime(files, parts, types).parts;
            && data != [] && Proper(SpanOf(data, parts))
            && |made| == parts && TotalData(made) == |data|
            && (forall i :: 0 <= i < parts ==> made[i].data == Select(SpanOf(data, parts), data, i))
            && (forall j :: 0 <= j < |data| ==> OnlyPart(SpanOf(data, parts), data, j))
  {
    var c := Classify(types, Flatten(files));
    var p := SpanOf(c.data, parts);
    PartsAreSelections(p, c, parts);
    PartsCounted(p, c, parts);
    SelectionsCover(p, c.data);
    forall j | 0 <= j < |c.data| ensures OnlyPart(p, c.data, j) {
      InOnePart(p, c.data, j);
    }
  }

  /** Data event `j` is selected for exactly one part. */
  ghost predicate OnlyPart(p: Span, data: Data, j: int)
    requires Proper(p)
  {
    exists i :: 0 <= i < p.parts && j in Positions(p, data, i)
      && forall k :: 0 <= k < p.parts && k != i ==> j !in Positions(p, data, k)
  }

  ghost predicate SameButIdAndTime(copy: LogEvent, e: LogEvent) {
    copy.ts.Some? && copy.eventType == e.eventType && copy.content == e.content
  }

  /** Every part of a successful split starts with a copy of each metadata event, unchanged but for id and time; the
      copies' timestamps strictly increase and come before every data event of the part. */
  lemma MetadataLeadsEveryPart(files: seq<seq<LogEvent>>, parts: int, types: set<string>, i: int)
    requires SplitByTime(files, parts, types).Split? && 0 <= i < |SplitByTime(files, parts, types).parts|
    ensures var part, metadata := SplitByTime(files, parts, types).parts[i], Classify(types, Flatten(files)).metadata;
            var n := |metadata|;
            && |part.events| == n + |part.data| && part.events[n..] == part.data
            && (forall k :: 0 <= k < n ==> SameButIdAndTime(part.events[k], metadata[k]))
            && (forall k, m :: 0 <= k < m < n ==> part.events[k].ts.value < part.events[m].ts.value)
            && (forall k, m :: 0 <= k < n && 0 <= m < |part.data| && part.data[m].ts.Some? ==>
                  part.events[k].ts.value < part.data[m].ts.value)
  {
    var c := Classify(types, Flatten(files));
    PartsAreSelections(SpanOf(c.data, parts), c, parts);
    var selected := Select(SpanOf(c.data, parts), c.data, i);
    assert SplitByTime(files, parts, types).parts[i] == MakePart(c.metadata, selected);
  }
}
