/** Sorting, median and mean over reals, independent of the order of the values. */
module Statistics {

  ghost predicate Sorted(s: seq<real>) {
    forall i, j :: 0 <= i < j < |s| ==> s[i] <= s[j]
  }

  function Insert(x: real, s: seq<real>): (r: seq<real>)
    requires Sorted(s)
    ensures Sorted(r) && |r| == |s| + 1
    ensures forall y :: y in r ==> y == x || y in s
  {
    if s == [] then [x]
    else if x <= s[0] then [x] + s
    else
      var rest := Insert(x, s[1..]);
      assert forall i :: 0 <= i < |rest| ==> rest[i] in rest;
      [s[0]] + rest
  }

  function Sort(s: seq<real>): (r: seq<real>)
    ensures Sorted(r) && |r| == |s|
    ensures forall y :: y in r ==> y in s
  {
    if s == [] then [] else Insert(s[|s| - 1], Sort(s[..|s| - 1]))
  }

  lemma {:induction false} InsertPermutes(x: real, s: seq<real>)
    requires Sorted(s)
    ensures multiset(Insert(x, s)) == multiset(s) + multiset{x}
  {
    if s != [] && s[0] < x {
      InsertPermutes(x, s[1..]);
      assert s == [s[0]] + s[1..];
    }
  }

  lemma {:induction false} SortPermutes(s: seq<real>)
    ensures multiset(Sort(s)) == multiset(s)
  {
    if s != [] {
      SortPermutes(s[..|s| - 1]);
      InsertPermutes(s[|s| - 1], Sort(s[..|s| - 1]));
      assert s == s[..|s| - 1] + [s[|s| - 1]];
    }
  }

  /** The middle value, or the mean of the two middle values. */
  function Middle(t: seq<real>): real
    requires t != []
  {
    var n := |t|;
    if n % 2 == 1 then t[n / 2] else (t[n / 2 - 1] + t[n / 2]) / 2.0
  }

  function Median(s: seq<real>): real
    requires s != []
  {
    Middle(Sort(s))
  }

  function Sum(s: seq<real>): real {
    if s == [] then 0.0 else Sum(s[..|s| - 1]) + s[|s| - 1]
  }

  function Mean(s: seq<real>): real
    requires s != []
  {
    Sum(s) / |s| as real
  }

  function CountWithin(s: seq<real>, lo: real, hi: real): (n: nat)
    ensures n <= |s|
  {
    if s == [] then 0 else
    CountWithin(s[..|s| - 1], lo, hi) + (if lo <= s[|s| - 1] <= hi then 1 else 0)
  }

  lemma {:induction false} CountConcat(a: seq<real>, b: seq<real>, lo: real, hi: real)
    ensures CountWithin(a + b, lo, hi) == CountWithin(a, lo, hi) + CountWithin(b, lo, hi)
  {
    if b == [] {
      assert a + b == a;
    } else {
      assert (a + b)[..|a + b| - 1] == a + b[..|b| - 1];
      CountConcat(a, b[..|b| - 1], lo, hi);
    }
  }

  lemma {:induction false} SumConcat(a: seq<real>, b: seq<real>)
    ensures Sum(a + b) == Sum(a) + Sum(b)
  {
    if b == [] {
      assert a + b == a;
    } else {
      assert (a + b)[..|a + b| - 1] == a + b[..|b| - 1];
      SumConcat(a, b[..|b| - 1]);
    }
  }

  lemma {:induction false} InsertKeeps(x: real, s: seq<real>, lo: real, hi: real)
    requires Sorted(s)
    ensures Sum(Insert(x, s)) == x + Sum(s)
    ensures CountWithin(Insert(x, s), lo, hi) == CountWithin(s, lo, hi) + (if lo <= x <= hi then 1 else 0)
  {
    var one := [x];
    assert one[..0] == [];
    assert Sum(one) == x && CountWithin(one, lo, hi) == (if lo <= x <= hi then 1 else 0);
    if s == [] {
    } else if x <= s[0] {
      SumConcat(one, s);
      CountConcat(one, s, lo, hi);
    } else {
      InsertKeeps(x, s[1..], lo, hi);
      var head := [s[0]];
      assert s == head + s[1..];
      SumConcat(head, s[1..]);
      CountConcat(head, s[1..], lo, hi);
      SumConcat(head, Insert(x, s[1..]));
      CountConcat(head, Insert(x, s[1..]), lo, hi);
    }
  }

  lemma {:induction false} SortKeeps(s: seq<real>, lo: real, hi: real)
    ensures Sum(Sort(s)) == Sum(s)
    ensures CountWithin(Sort(s), lo, hi) == CountWithin(s, lo, hi)
  {
    if s != [] {
      SortKeeps(s[..|s| - 1], lo, hi);
      InsertKeeps(s[|s| - 1], Sort(s[..|s| - 1]), lo, hi);
    }
  }

  lemma LastIsMax(s: seq<real>, t: seq<real>)
    requires Sorted(s) && s != [] && t != [] && multiset(s) == multiset(t)
    ensures t[|t| - 1] <= s[|s| - 1]
  {
    var x := t[|t| - 1];
    assert x in multiset(t);
    assert x in s;
  }

  lemma InitMultiset(s: seq<real>)
    requires s != []
    ensures multiset(s[..|s| - 1]) == multiset(s) - multiset{s[|s| - 1]}
  {
    assert s == s[..|s| - 1] + [s[|s| - 1]];
  }

  lemma SameSize(s: seq<real>, t: seq<real>)
    requires multiset(s) == multiset(t)
    ensures |s| == |t|
  {
    assert |multiset(s)| == |s| && |multiset(t)| == |t|;
  }

  lemma {:induction false} SortedUnique(s: seq<real>, t: seq<real>)
    requires Sorted(s) && Sorted(t) && multiset(s) == multiset(t)
    ensures s == t
  {
    SameSize(s, t);
    if s != [] {
      var n := |s| - 1;
      LastIsMax(s, t);
      LastIsMax(t, s);
      InitMultiset(s);
      InitMultiset(t);
      SortedUnique(s[..n], t[..n]);
      assert s == s[..n] + [s[n]] && t == t[..n] + [s[n]];
    }
  }

  lemma SameSort(s: seq<real>, t: seq<real>)
    requires multiset(s) == multiset(t)
    ensures Sort(s) == Sort(t)
  {
    SortPermutes(s);
    SortPermutes(t);
    SortedUnique(Sort(s), Sort(t));
  }

  /** Median and mean depend only on the multiset of the values. */
  lemma OrderIndependent(s: seq<real>, t: seq<real>)
    requires multiset(s) == multiset(t)
    ensures |s| == |t| && (s != [] ==> Median(s) == Median(t) && Mean(s) == Mean(t))
  {
    SameSize(s, t);
    SameSort(s, t);
    SortKeeps(s, 0.0, 0.0);
    SortKeeps(t, 0.0, 0.0);
  }

  lemma {:induction false} CountAllOutside(s: seq<real>, lo: real, hi: real)
    requires forall i :: 0 <= i < |s| ==> !(lo <= s[i] <= hi)
    ensures CountWithin(s, lo, hi) == 0
  {
    if s != [] {
      CountAllOutside(s[..|s| - 1], lo, hi);
    }
  }

  lemma LowMiddleInside(t: seq<real>, lo: real, hi: real)
    requires Sorted(t) && t != [] && 2 * CountWithin(t, lo, hi) > |t|
    ensures lo <= t[(|t| - 1) / 2]
  {
    var low := (|t| - 1) / 2;
    if t[low] < lo {
      var below, rest := t[..low + 1], t[low + 1..];
      assert t == below + rest;
      CountAllOutside(below, lo, hi);
      CountConcat(below, rest, lo, hi);
      assert false;
    }
  }

  lemma HighMiddleInside(t: seq<real>, lo: real, hi: real)
    requires Sorted(t) && t != [] && 2 * CountWithin(t, lo, hi) > |t|
    ensures t[|t| / 2] <= hi
  {
    var high := |t| / 2;
    if t[high] > hi {
      var rest, above := t[..high], t[high..];
      assert t == rest + above;
      CountAllOutside(above, lo, hi);
      CountConcat(rest, above, lo, hi);
      assert false;
    }
  }

  lemma MiddleBetween(t: seq<real>, lo: real, hi: real)
    requires Sorted(t) && t != [] && lo <= t[(|t| - 1) / 2] && t[|t| / 2] <= hi
    ensures lo <= Middle(t) <= hi
  {
    assert t[(|t| - 1) / 2] <= t[|t| / 2];
  }

  /** If a strict majority of the values lies in [lo, hi], so does the median. */
  lemma MedianOfMajority(s: seq<real>, lo: real, hi: real)
    requires s != [] && 2 * CountWithin(s, lo, hi) > |s|
    ensures lo <= Median(s) <= hi
  {
    var t := Sort(s);
    assert |t| == |s|;
    SortKeeps(s, lo, hi);
    LowMiddleInside(t, lo, hi);
    HighMiddleInside(t, lo, hi);
    MiddleBetween(t, lo, hi);
  }

  lemma {:induction false} SumBetween(s: seq<real>, lo: real, hi: real)
    requires forall i :: 0 <= i < |s| ==> lo <= s[i] <= hi
    ensures lo * |s| as real <= Sum(s) <= hi * |s| as real
  {
    if s != [] {
      SumBetween(s[..|s| - 1], lo, hi);
    }
  }

  /** Median and mean of values in [lo, hi] are in [lo, hi]. */
  lemma AveragesBetween(s: seq<real>, lo: real, hi: real)
    requires s != [] && forall i :: 0 <= i < |s| ==> lo <= s[i] <= hi
    ensures lo <= Median(s) <= hi && lo <= Mean(s) <= hi
  {
    var t := Sort(s);
    forall i | 0 <= i < |t| ensures lo <= t[i] <= hi {
      assert t[i] in s;
    }
    SumBetween(s, lo, hi);
    MeanBounds(Sum(s), |s| as real, lo, hi);
  }

  lemma MeanBounds(sum: real, n: real, lo: real, hi: real)
    requires n > 0.0 && lo * n <= sum <= hi * n
    ensures lo <= sum / n <= hi
  {
    assert sum / n == lo + (sum - lo * n) / n;
    assert sum / n == hi - (hi * n - sum) / n;
  }
}
