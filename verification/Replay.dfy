/** The replay engine: strict check, one pipeline step per event, and the fair prices that follow each fill. */
module Replays {
  import opened Types
  import opened EventOrder
  import opened StrictSequence
  import opened Pipelines
  import opened Runs

  /** The output interleaves the input events with what the steps emit. */
  datatype OutEvent = In(event: Event) | Out(emitted: Emitted)

  function AsOut(emitted: seq<Emitted>): (r: seq<OutEvent>)
    ensures |r| == |emitted| && forall i :: 0 <= i < |r| ==> r[i] == Out(emitted[i])
  {
    seq(|emitted|, i requires 0 <= i < |emitted| => Out(emitted[i]))
  }

  ghost function OutputFrom(cfg: Config, start: PipelineState, events: seq<Event>): seq<OutEvent> {
    if events == [] then [] else
    var n := |events| - 1;
    OutputFrom(cfg, start, events[..n]) + [In(events[n])]
    + AsOut(Step(cfg, RunFrom(cfg, start, events[..n]).state, events[n]).emitted)
  }

  ghost function OutputOf(cfg: Config, events: seq<Event>): seq<OutEvent> {
    OutputFrom(cfg, Initial(cfg), events)
  }

  // ----- fair prices after a fill -----

  datatype FairPoint = FairPoint(ts: real, fair: real)

  /** A mark price in the output, whether just emitted or read back from an earlier run. */
  function MarkIn(o: OutEvent): seq<FairPoint> {
    match o
    case Out(MarkPrice(ts, state)) => if state.fair.Some? then [FairPoint(ts, state.fair.value)] else []
    case In(Event(ts, _, _, _, _, Recorded(MarkPrice(_, state)))) =>
      if state.fair.Some? then [FairPoint(ts, state.fair.value)] else []
    case _ => []
  }

  function FairPoints(out: seq<OutEvent>): seq<FairPoint> {
    if out == [] then [] else FairPoints(out[..|out| - 1]) + MarkIn(out[|out| - 1])
  }

  function FairAtOrAfter(points: seq<FairPoint>, target: real): real
    requires points != []
  {
    if points[0].ts >= target || |points| == 1 then points[0].fair else FairAtOrAfter(points[1..], target)
  }

  method FindFairAtOrAfter(points: seq<FairPoint>, target: real) returns (fair: real)
    requires points != []
    ensures fair == FairAtOrAfter(points, target)
  {
    assert points[0..] == points;
    for i := 0 to |points|
      invariant i < |points| ==> FairAtOrAfter(points, target) == FairAtOrAfter(points[i..], target)
      invariant i == |points| ==> FairAtOrAfter(points, target) == points[|points| - 1].fair
    {
      if points[i].ts >= target {
        return points[i].fair;
      }
      if i + 1 < |points| { assert points[i..][1..] == points[i + 1..]; }
    }
    fair := points[|points| - 1].fair;
  }

  /** The first point at or after the target, or the last point of all when there is none. */
  lemma {:induction false} FairAtOrAfterMeaning(points: seq<FairPoint>, target: real) returns (k: nat)
    requires points != []
    ensures k < |points| && FairAtOrAfter(points, target) == points[k].fair
    ensures forall j :: 0 <= j < k ==> points[j].ts < target
    ensures points[k].ts >= target || k == |points| - 1
  {
    if points[0].ts >= target || |points| == 1 {
      k := 0;
    } else {
      var rest := FairAtOrAfterMeaning(points[1..], target);
      k := rest + 1;
      forall j | 0 <= j < k ensures points[j].ts < target {
        if j > 0 { assert points[j] == points[1..][j - 1]; }
      }
    }
  }

  function EnrichFill(points: seq<FairPoint>, ts: real, f: Fill): Fill
    requires points != []
  {
    f.(fairAfter1s := Some(FairAtOrAfter(points, ts + 1000.0)),
       fairAfter5s := Some(FairAtOrAfter(points, ts + 5000.0)),
       fairAfter30s := Some(FairAtOrAfter(points, ts + 30000.0)))
  }

  function EnrichOne(points: seq<FairPoint>, o: OutEvent): OutEvent
    requires points != []
  {
    match o
    case Out(VirtualFill(f)) => Out(VirtualFill(EnrichFill(points, f.ts, f)))
    case In(Event(ts, venue, symbol, sequence, text, Recorded(VirtualFill(f)))) =>
      In(Event(ts, venue, symbol, sequence, text, Recorded(VirtualFill(EnrichFill(points, ts, f)))))
    case _ => o
  }

  function EnrichAll(points: seq<FairPoint>, out: seq<OutEvent>): (r: seq<OutEvent>)
    requires points != []
    ensures |r| == |out| && forall i :: 0 <= i < |r| ==> r[i] == EnrichOne(points, out[i])
  {
    seq(|out|, i requires 0 <= i < |out| => EnrichOne(points, out[i]))
  }

  function Enriched(out: seq<OutEvent>): seq<OutEvent> {
    if FairPoints(out) == [] then out else EnrichAll(FairPoints(out), out)
  }

  method EnrichFairAfter(out: seq<OutEvent>) returns (enriched: seq<OutEvent>)
    ensures enriched == Enriched(out)
  {
    var points := FairPoints(out);
    if points == [] {
      return out;
    }
    enriched := [];
    for i := 0 to |out|
      invariant |enriched| == i && forall j :: 0 <= j < i ==> enriched[j] == EnrichOne(points, out[j])
    {
      enriched := enriched + [EnrichOne(points, out[i])];
    }
  }

  lemma {:induction false} EnrichKeepsPoints(points: seq<FairPoint>, out: seq<OutEvent>)
    requires points != []
    ensures FairPoints(EnrichAll(points, out)) == FairPoints(out)
  {
    if out != [] {
      var n := |out| - 1;
      EnrichKeepsPoints(points, out[..n]);
      assert EnrichAll(points, out)[..n] == EnrichAll(points, out[..n]);
    }
  }

  lemma EnrichTwice(points: seq<FairPoint>, out: seq<OutEvent>)
    requires points != []
    ensures EnrichAll(points, EnrichAll(points, out)) == EnrichAll(points, out)
  {
    hide FairAtOrAfter;
    var once := EnrichAll(points, out);
    var twice := EnrichAll(points, once);
    forall i | 0 <= i < |out| ensures twice[i] == once[i] {
      EnrichOneTwice(points, out[i]);
    }
  }

  lemma EnrichOneTwice(points: seq<FairPoint>, o: OutEvent)
    requires points != []
    ensures EnrichOne(points, EnrichOne(points, o)) == EnrichOne(points, o)
  {
    hide FairAtOrAfter;
  }

  /** Enriching again changes nothing. */
  lemma EnrichIdempotent(out: seq<OutEvent>)
    ensures Enriched(Enriched(out)) == Enriched(out)
  {
    var points := FairPoints(out);
    if points != [] {
      EnrichKeepsPoints(points, out);
      EnrichTwice(points, out);
      hide FairPoints, EnrichAll;
    }
  }

  // ----- running on -----

  /** One more event. */
  lemma RunOnSnoc(cfg: Config, start: PipelineState, events: seq<Event>, i: nat)
    requires i < |events| && !RunFrom(cfg, start, events[..i]).raised
    ensures var before := RunFrom(cfg, start, events[..i]);
            var step := Step(cfg, before.state, events[i]);
            && RunFrom(cfg, start, events[..i + 1]) ==
               RunResult(step.state, before.trace + step.emitted, step.raised)
            && OutputFrom(cfg, start, events[..i + 1]) ==
               OutputFrom(cfg, start, events[..i]) + [In(events[i])] + AsOut(step.emitted)
  {
    hide Step, AsOut;
    assert events[..i + 1][..i] == events[..i];
  }

  lemma {:induction false} RaisedStaysRaised(cfg: Config, start: PipelineState, events: seq<Event>, n: nat)
    requires n <= |events| && RunFrom(cfg, start, events[..n]).raised
    ensures RunFrom(cfg, start, events) == RunFrom(cfg, start, events[..n])
    decreases |events| - n
  {
    if n == |events| {
      assert events[..n] == events;
    } else {
      assert events[..n + 1][..n] == events[..n];
      RaisedStaysRaised(cfg, start, events, n + 1);
    }
  }

  /** One event more behind `events`. */
  lemma RunOnOne(cfg: Config, start: PipelineState, events: seq<Event>, e: Event)
    ensures var before := RunFrom(cfg, start, events);
            var step := Step(cfg, before.state, e);
            && RunFrom(cfg, start, events + [e]) ==
               (if before.raised then before else RunResult(step.state, before.trace + step.emitted, step.raised))
            && OutputFrom(cfg, start, events + [e]) == OutputFrom(cfg, start, events) + [In(e)] + AsOut(step.emitted)
  {
    hide Step, AsOut;
    assert (events + [e])[..|events|] == events;
  }

  /** A run over `b` that starts where a completed run over `a` ended is the rest of one run over both. */
  lemma {:induction false} RunContinues(cfg: Config, start: PipelineState, a: seq<Event>, b: seq<Event>)
    requires !RunFrom(cfg, start, a).raised
    ensures var first := RunFrom(cfg, start, a);
            var second := RunFrom(cfg, first.state, b);
            && RunFrom(cfg, start, a + b) == RunResult(second.state, first.trace + second.trace, second.raised)
            && OutputFrom(cfg, start, a + b) == OutputFrom(cfg, start, a) + OutputFrom(cfg, first.state, b)
  {
    hide Step, AsOut, RunFrom, OutputFrom;
    if b == [] {
      NothingMore(cfg, start, a);
      assert a + b == a;
    } else {
      var init, last := b[..|b| - 1], b[|b| - 1];
      assert b == init + [last] && a + b == a + init + [last];
      RunContinues(cfg, start, a, init);
      ContinuesOne(cfg, start, a, init, last);
    }
  }

  lemma ContinuesOne(cfg: Config, start: PipelineState, a: seq<Event>, b: seq<Event>, e: Event)
    requires !RunFrom(cfg, start, a).raised
    requires var first := RunFrom(cfg, start, a);
             var second := RunFrom(cfg, first.state, b);
             && RunFrom(cfg, start, a + b) == RunResult(second.state, first.trace + second.trace, second.raised)
             && OutputFrom(cfg, start, a + b) == OutputFrom(cfg, start, a) + OutputFrom(cfg, first.state, b)
    ensures var first := RunFrom(cfg, start, a);
            var second := RunFrom(cfg, first.state, b + [e]);
            && RunFrom(cfg, start, a + b + [e]) == RunResult(second.state, first.trace + second.trace, second.raised)
            && OutputFrom(cfg, start, a + b + [e]) == OutputFrom(cfg, start, a) + OutputFrom(cfg, first.state, b + [e])
  {
    hide Step, AsOut, RunFrom, OutputFrom;
    var first := RunFrom(cfg, start, a);
    var second := RunFrom(cfg, first.state, b);
    var more := Step(cfg, second.state, e).emitted;
    RunOnOne(cfg, start, a + b, e);
    RunOnOne(cfg, first.state, b, e);
    Regroup(OutputFrom(cfg, start, a), OutputFrom(cfg, first.state, b), [In(e)] + AsOut(more));
    Regroup(first.trace, second.trace, more);
    Regroup(OutputFrom(cfg, start, a + b), [In(e)], AsOut(more));
    Regroup(OutputFrom(cfg, first.state, b), [In(e)], AsOut(more));
  }

  lemma NothingMore(cfg: Config, start: PipelineState, a: seq<Event>)
    requires !RunFrom(cfg, start, a).raised
    ensures var first := RunFrom(cfg, start, a);
            && RunFrom(cfg, first.state, []) == RunResult(first.state, [], false) && first.trace + [] == first.trace
            && OutputFrom(cfg, first.state, []) == []
            && OutputFrom(cfg, start, a) + [] == OutputFrom(cfg, start, a)
  {
    hide Step, AsOut;
  }

  lemma Regroup<T>(a: seq<T>, b: seq<T>, c: seq<T>)
    ensures a + b + c == a + (b + c)
  {
  }

  // ----- the engine -----

  /** What a replay returns, None when it raises, and where it leaves the pipeline. */
  datatype ReplayResult = ReplayResult(output: Option<seq<OutEvent>>, state: PipelineState)

  /** A replay is refused, before any event is processed, when the order is or when the strict check fails. */
  ghost predicate Accepts(order: OrderConfig, request: OrderRequest, strict: bool, events: seq<Event>) {
    var ordered := OrderEvents(order, request, events);
    ordered.Some? && (strict ==> StreamsMonotone(ordered.value))
  }

  ghost function ReplayedFrom(cfg: Config, order: OrderConfig, request: OrderRequest, strict: bool,
                              start: PipelineState, events: seq<Event>): ReplayResult {
    if !Accepts(order, request, strict, events) then ReplayResult(None, start) else
    var ordered := OrderEvents(order, request, events).value;
    var r := RunFrom(cfg, start, ordered);
    ReplayResult(if r.raised then None else Some(Enriched(OutputFrom(cfg, start, ordered))), r.state)
  }

  /** Two replays on one engine, the first of which completes: the pipeline ends where one run over both ordered logs
      ends, and the second completes exactly when that run does. */
  lemma SecondReplayContinues(cfg: Config, order: OrderConfig, q1: OrderRequest, q2: OrderRequest, strict1: bool,
                              strict2: bool, a: seq<Event>, b: seq<Event>)
    requires ReplayedFrom(cfg, order, q1, strict1, Initial(cfg), a).output.Some?
    requires Accepts(order, q2, strict2, b)
    ensures var first := ReplayedFrom(cfg, order, q1, strict1, Initial(cfg), a);
            var second := ReplayedFrom(cfg, order, q2, strict2, first.state, b);
            var both := OrderEvents(order, q1, a).value + OrderEvents(order, q2, b).value;
            second.state == Run(cfg, both).state && (second.output.None? <==> Run(cfg, both).raised)
  {
    hide OrderEvents, StreamsMonotone, RunFrom, OutputFrom, Enriched;
    RunContinues(cfg, Initial(cfg), OrderEvents(order, q1, a).value, OrderEvents(order, q2, b).value);
  }

  class ReplayEngine {
    const cfg: Config
    const order: OrderConfig
    const strictByDefault: bool
    const pipeline: GhostAmmPipeline
    var lastReplayOrder: ReplayOrder
    var lastStrictSequence: bool

    ghost predicate Valid() {
      pipeline.Valid() && pipeline.cfg == cfg && this !in pipeline.Parts()
    }

    constructor (cfg: Config, order: OrderConfig, strictByDefault: bool)
      ensures this.cfg == cfg && this.order == order && this.strictByDefault == strictByDefault
      ensures Valid() && fresh(pipeline.Parts()) && pipeline.State() == Initial(cfg)
      ensures lastReplayOrder == order.order && lastStrictSequence == strictByDefault
    {
      this.cfg, this.order, this.strictByDefault := cfg, order, strictByDefault;
      pipeline := new GhostAmmPipeline(cfg);
      lastReplayOrder, lastStrictSequence := order.order, strictByDefault;
    }

    /** Goes on from where the last run left the pipeline, completed or not. */
    method Run(events: seq<Event>, request: OrderRequest, strict: Option<bool>) returns (output: Option<seq<OutEvent>>)
      requires Valid()
      modifies this, pipeline.Parts()
      ensures var check := if strict.Some? then strict.value else strictByDefault;
              && ReplayResult(output, pipeline.State()) ==
                 ReplayedFrom(cfg, order, request, check, old(pipeline.State()), events)
              && (if OrderEvents(order, request, events).Some?
                  then lastReplayOrder == ChosenOrder(order, request) && lastStrictSequence == check
                  else lastReplayOrder == old(lastReplayOrder) && lastStrictSequence == old(lastStrictSequence))
    {
      hide OrderEvents, Enriched, OutputFrom, RunFrom, StreamsMonotone;
      var ordered := OrderEvents(order, request, events);
      if ordered.None? {
        return None;
      }
      lastReplayOrder := ChosenOrder(order, request);
      lastStrictSequence := if strict.Some? then strict.value else strictByDefault;
      if lastStrictSequence {
        var violation := AssertMonotonicSequences(ordered.value);
        if violation.Some? {
          return None;
        }
      }
      var out := ProcessAll(ordered.value);
      if out.None? {
        return None;
      }
      var enriched := EnrichFairAfter(out.value);
      output := Some(enriched);
    }

    method ProcessAll(events: seq<Event>) returns (output: Option<seq<OutEvent>>)
      requires Valid()
      modifies pipeline.Parts()
      ensures var start := old(pipeline.State());
              && pipeline.State() == RunFrom(cfg, start, events).state
              && output == if RunFrom(cfg, start, events).raised then None else Some(OutputFrom(cfg, start, events))
    {
      ghost var start := pipeline.State();
      var out: seq<OutEvent> := [];
      for i := 0 to |events|
        invariant !RunFrom(cfg, start, events[..i]).raised
        invariant pipeline.State() == RunFrom(cfg, start, events[..i]).state
        invariant out == OutputFrom(cfg, start, events[..i])
      {
        hide Step, AsOut, RunFrom, OutputFrom;
        RunOnSnoc(cfg, start, events, i);
        var emitted := pipeline.Process(events[i]);
        if emitted.None? {
          RaisedStaysRaised(cfg, start, events, i + 1);
          return None;
        }
        out := out + [In(events[i])] + AsOut(emitted.value);
      }
      assert events[..|events|] == events;
      output := Some(out);
    }
  }
}
