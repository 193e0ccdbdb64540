/** A monitor over emitted events: which orders were placed, filled and cancelled, and which shocks came before. */
module Ledgers {
  import opened Types

  /** `orderly` and `caused` turn false, for good, at the first event that breaks the order lifecycle or comes too
      soon after the shock it carries. */
  datatype Ledger = Ledger(placed: map<OrderId, ActiveOrder>, filled: map<OrderId, real>, cancelled: set<OrderId>,
                           shocks: set<ShockId>, orderly: bool, caused: bool)

  const BLANK := Ledger(map[], map[], {}, {}, true, true)

  /** How long after its shock an order may be placed, and may be filled. */
  datatype Delays = Delays(place: real, fill: real)

  function Filled(l: Ledger, id: OrderId): real {
    if id in l.filled then l.filled[id] else 0.0
  }

  predicate DueTo(shocks: set<ShockId>, shockId: Option<ShockId>, ts: real, delay: real) {
    shockId.Some? && shockId.value in shocks && ts - shockId.value.ts >= delay
  }

  predicate MayPlace(l: Ledger, o: ActiveOrder) {
    o.id !in l.placed
  }

  predicate MayCancel(l: Ledger, o: ActiveOrder) {
    o.id in l.placed && o.id !in l.cancelled && o.id !in l.filled
  }

  predicate MayFill(l: Ledger, f: Fill) {
    f.orderId in l.placed && f.orderId !in l.cancelled && f.size > 0.0
    && Filled(l, f.orderId) + f.size <= l.placed[f.orderId].size
  }

  function Note(d: Delays, l: Ledger, e: Emitted): Ledger {
    match e
    case ForcedFlow(id) => l.(shocks := l.shocks + {id})
    case Order(Placed(_, o)) =>
      l.(placed := l.placed[o.id := o], orderly := l.orderly && MayPlace(l, o),
         caused := l.caused && DueTo(l.shocks, o.shockId, o.createdAt, d.place))
    case Order(Canceled(_, o, _, _)) =>
      l.(cancelled := l.cancelled + {o.id}, orderly := l.orderly && MayCancel(l, o))
    case VirtualFill(f) =>
      l.(filled := l.filled[f.orderId := Filled(l, f.orderId) + f.size], orderly := l.orderly && MayFill(l, f),
         caused := l.caused && DueTo(l.shocks, f.shockId, f.ts, d.fill))
    case _ => l
  }

  function NoteAll(d: Delays, l: Ledger, out: seq<Emitted>): Ledger
    decreases |out|
  {
    if out == [] then l else NoteAll(d, Note(d, l, out[0]), out[1..])
  }

  lemma {:induction false} NoteConcat(d: Delays, l: Ledger, a: seq<Emitted>, b: seq<Emitted>)
    ensures NoteAll(d, l, a + b) == NoteAll(d, NoteAll(d, l, a), b)
    decreases |a|
  {
    if a == [] {
      assert a + b == b;
    } else {
      assert (a + b)[1..] == a[1..] + b;
      NoteConcat(d, Note(d, l, a[0]), a[1..], b);
    }
  }

  ghost predicate Extends(l: Ledger, later: Ledger) {
    && l.placed.Keys <= later.placed.Keys && l.filled.Keys <= later.filled.Keys
    && l.cancelled <= later.cancelled && l.shocks <= later.shocks
    && (later.orderly ==> l.orderly) && (later.caused ==> l.caused)
  }

  lemma {:induction false} NoteExtends(d: Delays, l: Ledger, out: seq<Emitted>)
    ensures Extends(l, NoteAll(d, l, out))
    decreases |out|
  {
    if out != [] {
      NoteExtends(d, Note(d, l, out[0]), out[1..]);
    }
  }

  ghost predicate Bounded(l: Ledger) {
    forall id :: id in l.filled ==> id in l.placed && 0.0 < l.filled[id] <= l.placed[id].size
  }

  lemma NoteBounded(d: Delays, l: Ledger, e: Emitted)
    requires l.orderly ==> Bounded(l)
    ensures Note(d, l, e).orderly ==> Bounded(Note(d, l, e))
  {
    hide DueTo;
  }

  lemma {:induction false} OrderlyBounded(d: Delays, l: Ledger, out: seq<Emitted>)
    requires l.orderly ==> Bounded(l)
    ensures NoteAll(d, l, out).orderly ==> Bounded(NoteAll(d, l, out))
    decreases |out|
  {
    if out != [] {
      NoteBounded(d, l, out[0]);
      hide Note, Bounded;
      OrderlyBounded(d, Note(d, l, out[0]), out[1..]);
    }
  }

  // ----- the ledger read off the trace -----

  predicate PlacesAt(trace: seq<Emitted>, i: int, id: OrderId) {
    0 <= i < |trace| && trace[i].Order? && trace[i].change.Placed? && trace[i].change.order.id == id
  }

  predicate CancelsAt(trace: seq<Emitted>, i: int, id: OrderId) {
    0 <= i < |trace| && trace[i].Order? && trace[i].change.Canceled? && trace[i].change.order.id == id
  }

  predicate FillsAt(trace: seq<Emitted>, i: int, id: OrderId) {
    0 <= i < |trace| && trace[i].VirtualFill? && trace[i].fill.orderId == id
  }

  function TraceFilled(trace: seq<Emitted>, id: OrderId): real {
    if trace == [] then 0.0 else
    (if trace[0].VirtualFill? && trace[0].fill.orderId == id then trace[0].fill.size else 0.0)
      + TraceFilled(trace[1..], id)
  }

  lemma {:induction false} FilledIsTraceFilled(d: Delays, l: Ledger, trace: seq<Emitted>, id: OrderId)
    ensures Filled(NoteAll(d, l, trace), id) == Filled(l, id) + TraceFilled(trace, id)
    decreases |trace|
  {
    if trace != [] {
      FilledIsTraceFilled(d, Note(d, l, trace[0]), trace[1..], id);
    }
  }

  /** The ledger in front of event `j`. */
  function LedgerAt(d: Delays, trace: seq<Emitted>, j: int): Ledger
    requires 0 <= j <= |trace|
  {
    NoteAll(d, BLANK, trace[..j])
  }

  lemma LedgerSteps(d: Delays, trace: seq<Emitted>, j: int)
    requires 0 <= j < |trace|
    ensures LedgerAt(d, trace, j + 1) == Note(d, LedgerAt(d, trace, j), trace[j])
  {
    assert trace[..j + 1] == trace[..j] + [trace[j]];
    NoteConcat(d, BLANK, trace[..j], [trace[j]]);
    assert [trace[j]][1..] == [];
  }

  lemma LedgerGrows(d: Delays, trace: seq<Emitted>, i: int, j: int)
    requires 0 <= i <= j <= |trace|
    ensures Extends(LedgerAt(d, trace, i), LedgerAt(d, trace, j))
  {
    assert trace[..j] == trace[..i] + trace[i..j];
    NoteConcat(d, BLANK, trace[..i], trace[i..j]);
    NoteExtends(d, LedgerAt(d, trace, i), trace[i..j]);
  }

  ghost predicate Explained(l: Ledger, trace: seq<Emitted>) {
    && (forall id :: id in l.placed ==> exists i :: PlacesAt(trace, i, id))
    && (forall id :: id in l.shocks ==> exists i :: 0 <= i < |trace| && trace[i] == ForcedFlow(id))
  }

  lemma {:induction false} LedgerExplained(d: Delays, trace: seq<Emitted>, j: int)
    requires 0 <= j <= |trace|
    ensures Explained(LedgerAt(d, trace, j), trace[..j])
    decreases j
  {
    if j > 0 {
      LedgerExplained(d, trace, j - 1);
      LedgerSteps(d, trace, j - 1);
      var before, after := trace[..j - 1], trace[..j];
      forall id | id in LedgerAt(d, trace, j).placed ensures exists i :: PlacesAt(after, i, id) {
        if PlacesAt(after, j - 1, id) {
        } else {
          var i :| PlacesAt(before, i, id);
          assert PlacesAt(after, i, id);
        }
      }
      forall id | id in LedgerAt(d, trace, j).shocks
        ensures exists i :: 0 <= i < |after| && after[i] == ForcedFlow(id) {
        if after[j - 1] == ForcedFlow(id) {
        } else {
          var i :| 0 <= i < |before| && before[i] == ForcedFlow(id);
          assert after[i] == ForcedFlow(id);
        }
      }
    }
  }

  lemma NotedAt(d: Delays, trace: seq<Emitted>, i: int)
    requires 0 <= i < |trace|
    ensures var l, e := LedgerAt(d, trace, |trace|), trace[i];
            && (e.Order? && e.change.Placed? ==> e.change.order.id in l.placed)
            && (e.Order? && e.change.Canceled? ==> e.change.order.id in l.cancelled)
            && (e.VirtualFill? ==> e.fill.orderId in l.filled)
  {
    LedgerSteps(d, trace, i);
    LedgerGrows(d, trace, i + 1, |trace|);
  }

  /** An orderly trace: each id is placed at most once and cancelled at most once, a cancelled id never fills
      afterwards, a filled id is never cancelled afterwards, and nothing happens to an id before it is placed. */
  ghost predicate LifecycleKept(trace: seq<Emitted>) {
    forall i, j, id :: 0 <= i < j < |trace| ==> LifecycleAt(trace, i, j, id)
  }

  ghost predicate LifecycleAt(trace: seq<Emitted>, i: int, j: int, id: OrderId) {
    && !(PlacesAt(trace, i, id) && PlacesAt(trace, j, id))
    && !(CancelsAt(trace, i, id) && CancelsAt(trace, j, id))
    && !(CancelsAt(trace, i, id) && FillsAt(trace, j, id))
    && !(FillsAt(trace, i, id) && CancelsAt(trace, j, id))
  }

  ghost predicate PlacedFirst(trace: seq<Emitted>) {
    forall j, id :: CancelsAt(trace, j, id) || FillsAt(trace, j, id) ==> exists i :: i < j && PlacesAt(trace, i, id)
  }

  lemma EffectsPersist(d: Delays, trace: seq<Emitted>, i: int, j: int, id: OrderId)
    requires 0 <= i < j <= |trace|
    ensures var l := LedgerAt(d, trace, j);
            && (PlacesAt(trace, i, id) ==> id in l.placed)
            && (CancelsAt(trace, i, id) ==> id in l.cancelled)
            && (FillsAt(trace, i, id) ==> id in l.filled)
  {
    LedgerSteps(d, trace, i);
    LedgerGrows(d, trace, i + 1, j);
  }

  lemma OrderlyAt(d: Delays, trace: seq<Emitted>, j: int)
    requires 0 <= j < |trace| && NoteAll(d, BLANK, trace).orderly
    ensures Note(d, LedgerAt(d, trace, j), trace[j]).orderly
  {
    assert trace[..|trace|] == trace;
    LedgerSteps(d, trace, j);
    LedgerGrows(d, trace, j + 1, |trace|);
  }

  lemma OrderlyLifecycle(d: Delays, trace: seq<Emitted>)
    requires NoteAll(d, BLANK, trace).orderly
    ensures LifecycleKept(trace)
  {
    forall i, j, id | 0 <= i < j < |trace| ensures LifecycleAt(trace, i, j, id) {
      EffectsPersist(d, trace, i, j, id);
      OrderlyAt(d, trace, j);
    }
  }

  lemma OrderlyPlacedFirst(d: Delays, trace: seq<Emitted>)
    requires NoteAll(d, BLANK, trace).orderly
    ensures PlacedFirst(trace)
  {
    forall j, id | CancelsAt(trace, j, id) || FillsAt(trace, j, id)
      ensures exists i :: i < j && PlacesAt(trace, i, id) {
      OrderlyAt(d, trace, j);
      LedgerExplained(d, trace, j);
      assert id in LedgerAt(d, trace, j).placed;
      var i :| PlacesAt(trace[..j], i, id);
      assert PlacesAt(trace, i, id);
    }
  }

  // ----- causes -----

  predicate ShockBefore(trace: seq<Emitted>, j: int, shockId: Option<ShockId>, ts: real, delay: real) {
    && shockId.Some? && ts - shockId.value.ts >= delay
    && exists i :: 0 <= i < j && i < |trace| && trace[i] == ForcedFlow(shockId.value)
  }

  /** Every placed order and every fill carries the id of a forced flow emitted earlier, long enough ago. */
  ghost predicate EverythingCaused(d: Delays, trace: seq<Emitted>) {
    forall j :: 0 <= j < |trace| ==>
      && (trace[j].Order? && trace[j].change.Placed? ==>
            ShockBefore(trace, j, trace[j].change.order.shockId, trace[j].change.order.createdAt, d.place))
      && (trace[j].VirtualFill? ==> ShockBefore(trace, j, trace[j].fill.shockId, trace[j].fill.ts, d.fill))
  }

  lemma CausedTrace(d: Delays, trace: seq<Emitted>)
    requires NoteAll(d, BLANK, trace).caused
    ensures EverythingCaused(d, trace)
  {
    forall j | 0 <= j < |trace|
      ensures trace[j].Order? && trace[j].change.Placed? ==>
                ShockBefore(trace, j, trace[j].change.order.shockId, trace[j].change.order.createdAt, d.place)
      ensures trace[j].VirtualFill? ==> ShockBefore(trace, j, trace[j].fill.shockId, trace[j].fill.ts, d.fill)
    {
      assert trace[..|trace|] == trace;
      LedgerSteps(d, trace, j);
      LedgerGrows(d, trace, j + 1, |trace|);
      LedgerExplained(d, trace, j);
      forall id | id in LedgerAt(d, trace, j).shocks
        ensures exists i :: 0 <= i < j && i < |trace| && trace[i] == ForcedFlow(id) {
        var i :| 0 <= i < |trace[..j]| && trace[..j][i] == ForcedFlow(id);
        assert trace[i] == ForcedFlow(id);
      }
    }
  }
}
