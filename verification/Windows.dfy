/** Deques pruned from the left by age, against the full history they stand for. */
module Windows {
  datatype Timed<+T> = Timed(ts: real, value: T)

  /** What `while q and now - q[0].ts > window: q.popleft()` leaves. */
  function DropExpired<T>(q: seq<Timed<T>>, now: real, window: real): (r: seq<Timed<T>>)
    ensures |r| <= |q| && r == q[|q| - |r|..]
  {
    if q != [] && now - q[0].ts > window then DropExpired(q[1..], now, window) else q
  }

  lemma DropHead<T>(x: Timed<T>, rest: seq<Timed<T>>, now: real, window: real)
    ensures DropExpired([x] + rest, now, window) ==
              if now - x.ts > window then DropExpired(rest, now, window) else [x] + rest
  {
    assert ([x] + rest)[1..] == rest;
  }

  /** The full-history definition: every entry at most `window` old. */
  function Recent<T(!new)>(h: seq<Timed<T>>, now: real, window: real): (r: seq<Timed<T>>)
    ensures forall x :: x in r <==> x in h && now - x.ts <= window
  {
    if h == [] then [] else
    var rest := Recent(h[..|h| - 1], now, window);
    var last := h[|h| - 1];
    assert h == h[..|h| - 1] + [last];
    if now - last.ts <= window then rest + [last] else rest
  }

  ghost predicate Ordered<T>(h: seq<Timed<T>>) {
    forall i, j :: 0 <= i < j < |h| ==> h[i].ts <= h[j].ts
  }

  /** `q` is the history `h` (ordered, nothing later than `now`) without a prefix of expired entries. */
  ghost predicate Tracks<T(!new)>(q: seq<Timed<T>>, h: seq<Timed<T>>, now: real, window: real) {
    && Ordered(h)
    && (forall i :: 0 <= i < |h| ==> h[i].ts <= now)
    && |q| <= |h|
    && q == h[|h| - |q|..]
    && (forall i :: 0 <= i < |h| - |q| ==> now - h[i].ts > window)
  }

  lemma {:induction false} RecentOfExpired<T(!new)>(h: seq<Timed<T>>, now: real, window: real)
    requires forall i :: 0 <= i < |h| ==> now - h[i].ts > window
    ensures Recent(h, now, window) == []
  {
    if h != [] {
      RecentOfExpired(h[..|h| - 1], now, window);
    }
  }

  lemma {:induction false} RecentOfFresh<T(!new)>(h: seq<Timed<T>>, now: real, window: real)
    requires forall i :: 0 <= i < |h| ==> now - h[i].ts <= window
    ensures Recent(h, now, window) == h
  {
    if h != [] {
      RecentOfFresh(h[..|h| - 1], now, window);
      assert h == h[..|h| - 1] + [h[|h| - 1]];
    }
  }

  lemma {:induction false} RecentConcat<T(!new)>(a: seq<Timed<T>>, b: seq<Timed<T>>, now: real, window: real)
    ensures Recent(a + b, now, window) == Recent(a, now, window) + Recent(b, now, window)
  {
    if b == [] {
      assert a + b == a;
    } else {
      RecentConcat(a, b[..|b| - 1], now, window);
      assert (a + b)[..|a + b| - 1] == a + b[..|b| - 1];
    }
  }

  /** On an ordered queue, popping expired entries from the left keeps exactly the fresh ones. */
  lemma {:induction false} DropExpiredSplits<T(!new)>(q: seq<Timed<T>>, now: real, window: real)
    requires Ordered(q)
    ensures var r := DropExpired(q, now, window);
            && (forall i :: 0 <= i < |q| - |r| ==> now - q[i].ts > window)
            && (forall i :: 0 <= i < |r| ==> now - r[i].ts <= window)
  {
    if q != [] && now - q[0].ts > window {
      DropExpiredSplits(q[1..], now, window);
      var r := DropExpired(q, now, window);
      forall i | 0 <= i < |q| - |r| ensures now - q[i].ts > window {
        if i > 0 { assert q[i] == q[1..][i - 1]; }
      }
    }
  }

  lemma ExpireTracks<T(!new)>(q: seq<Timed<T>>, h: seq<Timed<T>>, before: real, now: real, window: real)
    requires Tracks(q, h, before, window) && before <= now
    ensures Tracks(DropExpired(q, now, window), h, now, window)
    ensures forall i :: 0 <= i < |DropExpired(q, now, window)| ==> now - DropExpired(q, now, window)[i].ts <= window
  {
    var cut := |h| - |q|;
    var r := DropExpired(q, now, window);
    DropExpiredSplits(q, now, window);
    forall i | 0 <= i < |h| - |r| ensures now - h[i].ts > window {
      if i >= cut { assert h[i] == q[i - cut]; }
    }
  }

  /** Pruning at a later time yields the full-history window. */
  lemma ExpireIsRecent<T(!new)>(q: seq<Timed<T>>, h: seq<Timed<T>>, before: real, now: real, window: real)
    requires Tracks(q, h, before, window) && before <= now
    ensures DropExpired(q, now, window) == Recent(h, now, window)
  {
    ExpireTracks(q, h, before, now, window);
    hide DropExpired, Recent, Ordered;
    RecentOfTracked(DropExpired(q, now, window), h, now, window);
  }

  lemma RecentOfTracked<T(!new)>(r: seq<Timed<T>>, h: seq<Timed<T>>, now: real, window: real)
    requires Tracks(r, h, now, window) && forall i :: 0 <= i < |r| ==> now - r[i].ts <= window
    ensures Recent(h, now, window) == r
  {
    hide Recent, Ordered;
    var gone := h[..|h| - |r|];
    assert h == gone + r;
    RecentOfExpired(gone, now, window);
    RecentOfFresh(r, now, window);
    RecentConcat(gone, r, now, window);
  }

  lemma AppendTracks<T(!new)>(q: seq<Timed<T>>, h: seq<Timed<T>>, before: real, x: Timed<T>, window: real)
    requires Tracks(q, h, before, window) && before <= x.ts
    ensures Tracks(q + [x], h + [x], x.ts, window)
  {
  }

  lemma LaterTracks<T(!new)>(q: seq<Timed<T>>, h: seq<Timed<T>>, before: real, now: real, window: real)
    requires Tracks(q, h, before, window) && before <= now
    ensures Tracks(q, h, now, window)
  {
  }
}
