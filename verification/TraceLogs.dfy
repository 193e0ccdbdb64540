/** The fills and the forced flows of a trace, in order. */
module TraceLogs {
  import opened Types

  function FillOf(e: Emitted): seq<Fill> {
    if e.VirtualFill? then [e.fill] else []
  }

  function ShockOf(e: Emitted): seq<ShockId> {
    if e.ForcedFlow? then [e.id] else []
  }

  function FillsIn(trace: seq<Emitted>): seq<Fill>
    decreases |trace|
  {
    if trace == [] then [] else FillOf(trace[0]) + FillsIn(trace[1..])
  }

  function ShocksIn(trace: seq<Emitted>): seq<ShockId>
    decreases |trace|
  {
    if trace == [] then [] else ShockOf(trace[0]) + ShocksIn(trace[1..])
  }

  lemma {:induction false} FillsConcat(a: seq<Emitted>, b: seq<Emitted>)
    ensures FillsIn(a + b) == FillsIn(a) + FillsIn(b)
    decreases |a|
  {
    hide FillOf;
    if a == [] {
      assert a + b == b;
    } else {
      assert (a + b)[1..] == a[1..] + b;
      FillsConcat(a[1..], b);
    }
  }

  lemma {:induction false} ShocksConcat(a: seq<Emitted>, b: seq<Emitted>)
    ensures ShocksIn(a + b) == ShocksIn(a) + ShocksIn(b)
    decreases |a|
  {
    hide ShockOf;
    if a == [] {
      assert a + b == b;
    } else {
      assert (a + b)[1..] == a[1..] + b;
      ShocksConcat(a[1..], b);
    }
  }

  lemma LogsConcat(a: seq<Emitted>, b: seq<Emitted>)
    ensures FillsIn(a + b) == FillsIn(a) + FillsIn(b) && ShocksIn(a + b) == ShocksIn(a) + ShocksIn(b)
  {
    FillsConcat(a, b);
    ShocksConcat(a, b);
  }

  /** Four pieces of which the second has only forced flows, the third only fills, the others neither. */
  lemma LogsOfPieces(a: seq<Emitted>, b: seq<Emitted>, c: seq<Emitted>, d: seq<Emitted>)
    requires FillsIn(a) == FillsIn(b) == FillsIn(d) == [] && ShocksIn(a) == ShocksIn(c) == ShocksIn(d) == []
    ensures FillsIn(a + b + c + d) == FillsIn(c) && ShocksIn(a + b + c + d) == ShocksIn(b)
  {
    hide FillsIn, ShocksIn;
    LogsConcat(a + b + c, d);
    LogsConcat(a + b, c);
    LogsConcat(a, b);
    assert [] + FillsIn(c) == FillsIn(c) && [] + ShocksIn(b) == ShocksIn(b);
  }

  lemma {:induction false} NoFillsNorShocks(a: seq<Emitted>)
    requires forall i :: 0 <= i < |a| ==> !a[i].VirtualFill? && !a[i].ForcedFlow?
    ensures FillsIn(a) == [] && ShocksIn(a) == []
    decreases |a|
  {
    if a != [] {
      NoFillsNorShocks(a[1..]);
    }
  }

  lemma {:induction false} OnlyFills(fills: seq<Fill>, a: seq<Emitted>)
    requires |a| == |fills| && forall i :: 0 <= i < |a| ==> a[i] == VirtualFill(fills[i])
    ensures FillsIn(a) == fills && ShocksIn(a) == []
    decreases |a|
  {
    if a != [] {
      OnlyFills(fills[1..], a[1..]);
      assert fills == [fills[0]] + fills[1..];
    }
  }
}
