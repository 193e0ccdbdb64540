/** The order in which events are replayed: as they arrived, or sorted by exchange time and sequence text. */
module EventOrder {
  import opened Types
  import opened OrderIds

  datatype ReplayOrder = ArrivalOrder | ExchangeTimeSort | OtherOrder

  /** An order asked for by the caller of a run; an empty text counts as asking, but not as an order. */
  datatype OrderRequest = NoRequest | EmptyRequest | Request(order: ReplayOrder)

  datatype OrderConfig = OrderConfig(order: ReplayOrder, allowTimeSort: bool)

  function CodePoints(s: string): seq<nat> {
    seq(|s|, i requires 0 <= i < |s| => s[i] as int)
  }

  /** The sort key: time first, then the text of the sequence. */
  predicate KeyBefore(a: Event, b: Event) {
    a.ts < b.ts || (a.ts == b.ts && TextBefore(CodePoints(a.text), CodePoints(b.text)))
  }

  lemma KeyTransitive(a: Event, b: Event, c: Event)
    requires KeyBefore(a, b) && KeyBefore(b, c)
    ensures KeyBefore(a, c)
  {
    if a.ts == b.ts == c.ts {
      TextTransitive(CodePoints(a.text), CodePoints(b.text), CodePoints(c.text));
    }
  }

  lemma KeyAsymmetric(a: Event, b: Event)
    ensures !(KeyBefore(a, b) && KeyBefore(b, a))
  {
    TextAsymmetric(CodePoints(a.text), CodePoints(b.text));
  }

  ghost predicate InKeyOrder(events: seq<Event>) {
    forall i, j :: 0 <= i < j < |events| ==> !KeyBefore(events[j], events[i])
  }

  /** In front of the first event with a greater key. */
  function InsertByKey(e: Event, events: seq<Event>): seq<Event> {
    if events == [] || KeyBefore(e, events[0]) then [e] + events else [events[0]] + InsertByKey(e, events[1..])
  }

  function SortByKey(events: seq<Event>): seq<Event> {
    if events == [] then [] else InsertByKey(events[|events| - 1], SortByKey(events[..|events| - 1]))
  }

  lemma {:induction false} InsertPermutes(e: Event, events: seq<Event>)
    ensures multiset(InsertByKey(e, events)) == multiset(events) + multiset{e}
  {
    hide KeyBefore;
    if events != [] && !KeyBefore(e, events[0]) {
      InsertPermutes(e, events[1..]);
      assert events == [events[0]] + events[1..];
    }
  }

  lemma {:induction false} InsertInOrder(e: Event, events: seq<Event>)
    requires InKeyOrder(events)
    ensures InKeyOrder(InsertByKey(e, events))
    ensures forall x :: x in InsertByKey(e, events) <==> x == e || x in events
  {
    hide KeyBefore;
    if events == [] {
    } else if KeyBefore(e, events[0]) {
      forall j | 0 <= j < |events| ensures !KeyBefore(events[j], e) {
        if KeyBefore(events[j], e) {
          KeyTransitive(events[j], e, events[0]);
          KeyAsymmetric(events[j], events[0]);
        }
      }
    } else {
      InsertInOrder(e, events[1..]);
      var rest := InsertByKey(e, events[1..]);
      assert events == [events[0]] + events[1..];
      forall j | 0 <= j < |rest| ensures !KeyBefore(rest[j], events[0]) {
        assert rest[j] in rest;
      }
    }
  }

  lemma {:induction false} SortInOrder(events: seq<Event>)
    ensures InKeyOrder(SortByKey(events)) && multiset(SortByKey(events)) == multiset(events)
  {
    if events != [] {
      var init, e := events[..|events| - 1], events[|events| - 1];
      SortInOrder(init);
      InsertInOrder(e, SortByKey(init));
      InsertPermutes(e, SortByKey(init));
      assert events == init + [e];
    }
  }

  /** The events with the key of `k`, in order. */
  function WithKey(k: Event, events: seq<Event>): seq<Event> {
    if events == [] then [] else
    (if SameKey(events[0], k) then [events[0]] else []) + WithKey(k, events[1..])
  }

  predicate SameKey(a: Event, b: Event) {
    a.ts == b.ts && a.text == b.text
  }

  lemma {:induction false} WithKeyConcat(k: Event, a: seq<Event>, b: seq<Event>)
    ensures WithKey(k, a + b) == WithKey(k, a) + WithKey(k, b)
  {
    hide SameKey;
    if a == [] {
      assert a + b == b;
    } else {
      assert (a + b)[1..] == a[1..] + b;
      WithKeyConcat(k, a[1..], b);
    }
  }

  lemma {:induction false} NoneWithKey(k: Event, events: seq<Event>)
    requires forall i :: 0 <= i < |events| ==> !SameKey(events[i], k)
    ensures WithKey(k, events) == []
  {
    if events != [] {
      NoneWithKey(k, events[1..]);
    }
  }

  lemma {:induction false} InsertStable(k: Event, e: Event, events: seq<Event>)
    requires InKeyOrder(events)
    ensures WithKey(k, InsertByKey(e, events)) == WithKey(k, events) + WithKey(k, [e])
  {
    hide KeyBefore, SameKey;
    if events == [] {
    } else if KeyBefore(e, events[0]) {
      WithKeyConcat(k, [e], events);
      if SameKey(e, k) {
        forall i | 0 <= i < |events| ensures !SameKey(events[i], k) {
          AfterKeyDiffers(k, e, events[0], events[i]);
        }
        NoneWithKey(k, events);
      } else {
        assert WithKey(k, [e]) == [] by { NoneWithKey(k, [e]); }
      }
    } else {
      InsertStable(k, e, events[1..]);
      assert ([events[0]] + InsertByKey(e, events[1..]))[1..] == InsertByKey(e, events[1..]);
    }
  }

  lemma AfterKeyDiffers(k: Event, e: Event, first: Event, x: Event)
    requires SameKey(e, k) && KeyBefore(e, first) && (x == first || !KeyBefore(x, first))
    ensures !SameKey(x, k)
  {
    if SameKey(x, k) {
      assert x.ts == e.ts && x.text == e.text;
      KeyAsymmetric(first, first);
    }
  }

  /** The sort is stable: events with equal keys keep their order. */
  lemma {:induction false} SortStable(k: Event, events: seq<Event>)
    ensures WithKey(k, SortByKey(events)) == WithKey(k, events)
  {
    hide WithKey, InsertByKey, InKeyOrder;
    if events != [] {
      var init, e := events[..|events| - 1], events[|events| - 1];
      SortStable(k, init);
      SortInOrder(init);
      InsertStable(k, e, SortByKey(init));
      WithKeyConcat(k, init, [e]);
      assert events == init + [e];
    }
  }

  function ChosenOrder(cfg: OrderConfig, request: OrderRequest): ReplayOrder {
    if request.Request? then request.order else cfg.order
  }

  /** None: the order is not supported, or sorting is not allowed. */
  function OrderEvents(cfg: OrderConfig, request: OrderRequest, events: seq<Event>): Option<seq<Event>> {
    match ChosenOrder(cfg, request)
    case OtherOrder => None
    case ArrivalOrder => Some(events)
    case ExchangeTimeSort => if cfg.allowTimeSort || !request.NoRequest? then Some(SortByKey(events)) else None
  }

  /** Whatever order is chosen, the same events are replayed; sorted ones are in time order, then in the order of
      their sequence text, and otherwise as they arrived. */
  lemma OrderedEvents(cfg: OrderConfig, request: OrderRequest, events: seq<Event>)
    requires OrderEvents(cfg, request, events).Some?
    ensures var ordered := OrderEvents(cfg, request, events).value;
            && multiset(ordered) == multiset(events)
            && (forall k :: WithKey(k, ordered) == WithKey(k, events))
            && (ordered == events || (InKeyOrder(ordered) && Chronological(ordered)))
  {
    SortInOrder(events);
    forall k ensures WithKey(k, SortByKey(events)) == WithKey(k, events) {
      SortStable(k, events);
    }
    hide SortByKey, WithKey;
    var sorted := SortByKey(events);
    forall i, j | 0 <= i < j < |sorted| ensures sorted[i].ts <= sorted[j].ts {
      assert !KeyBefore(sorted[j], sorted[i]);
    }
  }
}
