/** Order ids as text. Ids made at the same time share their prefix and differ in the zero-padded counter, so the
    text order of two such ids is the lexicographic order of the padded digits. */
module OrderIds {
  function Decimal(n: nat): (d: seq<nat>)
    ensures d != [] && forall i :: 0 <= i < |d| ==> d[i] < 10
  {
    if n < 10 then [n] else Decimal(n / 10) + [n % 10]
  }

  function Pad(d: seq<nat>): (r: seq<nat>)
    ensures |r| == if |d| >= 6 then |d| else 6
    ensures (forall i :: 0 <= i < |d| ==> d[i] < 10) ==> forall i :: 0 <= i < |r| ==> r[i] < 10
    decreases if |d| < 6 then 6 - |d| else 0
  {
    if |d| >= 6 then d else Pad([0] + d)
  }

  /** The counter formatted with at least six digits. */
  function IdDigits(n: nat): (d: seq<nat>)
    ensures |d| >= 6 && forall i :: 0 <= i < |d| ==> d[i] < 10
  {
    Pad(Decimal(n))
  }

  /** Text order: the first difference decides, a proper prefix comes first. */
  predicate TextBefore(s: seq<nat>, t: seq<nat>) {
    t != [] && (s == [] || s[0] < t[0] || (s[0] == t[0] && TextBefore(s[1..], t[1..])))
  }

  predicate IdBefore(a: nat, b: nat) {
    TextBefore(IdDigits(a), IdDigits(b))
  }

  // ----- a strict total order on ids -----

  lemma {:induction false} TextTotal(s: seq<nat>, t: seq<nat>)
    ensures s == t || TextBefore(s, t) || TextBefore(t, s)
  {
    if s != [] && t != [] && s[0] == t[0] {
      TextTotal(s[1..], t[1..]);
      assert s == [s[0]] + s[1..] && t == [t[0]] + t[1..];
    }
  }

  lemma {:induction false} TextAsymmetric(s: seq<nat>, t: seq<nat>)
    ensures !(TextBefore(s, t) && TextBefore(t, s))
  {
    if s != [] && t != [] && s[0] == t[0] {
      TextAsymmetric(s[1..], t[1..]);
    }
  }

  lemma {:induction false} TextTransitive(s: seq<nat>, t: seq<nat>, u: seq<nat>)
    requires TextBefore(s, t) && TextBefore(t, u)
    ensures TextBefore(s, u)
  {
    if s != [] && s[0] == t[0] == u[0] {
      TextTransitive(s[1..], t[1..], u[1..]);
    }
  }

  function Value(d: seq<nat>): nat {
    if d == [] then 0 else 10 * Value(d[..|d| - 1]) + d[|d| - 1]
  }

  lemma {:induction false} LeadingZero(d: seq<nat>)
    ensures Value([0] + d) == Value(d)
  {
    if d == [] {
      assert ([0] + d)[..0] == [];
    } else {
      assert ([0] + d)[..|d|] == [0] + d[..|d| - 1];
      LeadingZero(d[..|d| - 1]);
    }
  }

  lemma {:induction false} PadValue(d: seq<nat>)
    ensures Value(Pad(d)) == Value(d)
    decreases if |d| < 6 then 6 - |d| else 0
  {
    if |d| < 6 {
      LeadingZero(d);
      PadValue([0] + d);
    }
  }

  lemma {:induction false} DecimalValue(n: nat)
    ensures Value(Decimal(n)) == n
  {
    if n < 10 {
      assert [n][..0] == [];
    } else {
      DecimalValue(n / 10);
      assert (Decimal(n / 10) + [n % 10])[..|Decimal(n / 10)|] == Decimal(n / 10);
    }
  }

  lemma IdValue(n: nat)
    ensures Value(IdDigits(n)) == n
  {
    PadValue(Decimal(n));
    DecimalValue(n);
  }

  lemma IdTotal(a: nat, b: nat)
    ensures a == b || IdBefore(a, b) || IdBefore(b, a)
  {
    TextTotal(IdDigits(a), IdDigits(b));
    IdValue(a);
    IdValue(b);
  }

  lemma IdAsymmetric(a: nat, b: nat)
    ensures !(IdBefore(a, b) && IdBefore(b, a))
  {
    TextAsymmetric(IdDigits(a), IdDigits(b));
  }

  lemma IdTransitive(a: nat, b: nat, c: nat)
    requires IdBefore(a, b) && IdBefore(b, c)
    ensures IdBefore(a, c)
  {
    TextTransitive(IdDigits(a), IdDigits(b), IdDigits(c));
  }

  // ----- text order and placement order -----

  lemma {:induction false} TextBeforeSnoc(s: seq<nat>, t: seq<nat>, x: nat, y: nat)
    requires |s| == |t|
    ensures TextBefore(s + [x], t + [y]) <==> TextBefore(s, t) || (s == t && x < y)
  {
    if s != [] {
      assert (s + [x])[1..] == s[1..] + [x] && (t + [y])[1..] == t[1..] + [y];
      TextBeforeSnoc(s[1..], t[1..], x, y);
      assert s == [s[0]] + s[1..] && t == [t[0]] + t[1..];
    }
  }

  lemma {:induction false} SameWidthValue(s: seq<nat>, t: seq<nat>)
    requires |s| == |t| && forall i :: 0 <= i < |s| ==> s[i] < 10 && t[i] < 10
    ensures TextBefore(s, t) <==> Value(s) < Value(t)
    ensures Value(s) == Value(t) ==> s == t
  {
    if s != [] {
      var n := |s| - 1;
      SameWidthValue(s[..n], t[..n]);
      TextBeforeSnoc(s[..n], t[..n], s[n], t[n]);
      assert s == s[..n] + [s[n]] && t == t[..n] + [t[n]];
    }
  }

  /** Ids of the same width compare like their counters: among them the earlier placed comes first. */
  lemma PlacementOrder(a: nat, b: nat)
    requires |IdDigits(a)| == |IdDigits(b)|
    ensures IdBefore(a, b) <==> a < b
  {
    IdValue(a);
    IdValue(b);
    SameWidthValue(IdDigits(a), IdDigits(b));
  }

  function Power(k: nat): (p: nat)
    ensures p >= 1
  {
    if k == 0 then 1 else 10 * Power(k - 1)
  }

  lemma {:induction false} DecimalWidth(n: nat, k: nat)
    requires k >= 1 && n < Power(k)
    ensures |Decimal(n)| <= k
  {
    if n >= 10 {
      assert Power(1) == 10;
      assert k != 1;
      DecimalWidth(n / 10, k - 1);
    }
  }

  lemma {:induction false} DecimalAtLeast(n: nat)
    requires n >= 10
    ensures n >= Power(|Decimal(n)| - 1)
  {
    if n >= 100 {
      DecimalAtLeast(n / 10);
    } else {
      assert |Decimal(n / 10)| == 1 && Power(1) == 10;
    }
  }

  lemma {:induction false} PowerGrows(j: nat, k: nat)
    requires j <= k
    ensures Power(j) <= Power(k)
  {
    if j < k {
      PowerGrows(j, k - 1);
    }
  }

  /** A larger number is never written shorter. */
  lemma WidthGrows(a: nat, b: nat)
    requires a < b
    ensures |Decimal(a)| <= |Decimal(b)| && |IdDigits(a)| <= |IdDigits(b)|
  {
    var j, k := |Decimal(a)|, |Decimal(b)|;
    if j > k && a >= 10 {
      DecimalAtLeast(a);
      PowerGrows(k, j - 1);
      BelowPower(b);
    }
  }

  lemma {:induction false} BelowPower(n: nat)
    ensures n < Power(|Decimal(n)|)
  {
    if n < 10 {
      assert Power(1) == 10;
    } else {
      BelowPower(n / 10);
    }
  }

  lemma {:induction false} TextPrefix(s: seq<nat>, t: seq<nat>)
    requires |s| <= |t|
    ensures TextBefore(s, t) <==> TextBefore(s, t[..|s|]) || (s == t[..|s|] && |s| < |t|)
  {
    if s != [] {
      assert t[..|s|][1..] == t[1..][..|s| - 1];
      TextPrefix(s[1..], t[1..]);
      assert s == [s[0]] + s[1..] && t[..|s|] == [t[0]] + t[1..][..|s| - 1];
    }
  }

  lemma DropDigit(v: nat, d: nat, p: nat)
    requires d < 10 && p >= 1
    ensures (10 * v + d) / (10 * p) == v / p
  {
    var q, r := v / p, v % p;
    assert 10 * v + d == q * (10 * p) + (10 * r + d);
    assert 0 <= 10 * r + d < 10 * p;
    QuotientIs(10 * v + d, 10 * p, q, 10 * r + d);
  }

  lemma ProductGrows(j: int, k: int, y: nat)
    requires j <= k
    ensures j * y <= k * y
  {
    assert (k - j) * y >= 0;
  }

  lemma QuotientIs(x: nat, y: nat, q: nat, r: nat)
    requires y >= 1 && r < y && x == q * y + r
    ensures x / y == q
  {
    var z := x / y;
    assert z * y <= x < (z + 1) * y;
    if z < q {
      ProductGrows(z + 1, q, y);
    } else if z > q {
      ProductGrows(q + 1, z, y);
    }
  }

  lemma {:induction false} PrefixValue(t: seq<nat>, n: nat)
    requires n <= |t| && forall i :: 0 <= i < |t| ==> t[i] < 10
    ensures Value(t[..n]) == Value(t) / Power(|t| - n)
  {
    if n == |t| {
      assert t[..n] == t;
    } else {
      var m := |t| - 1;
      PrefixValue(t[..m], n);
      assert t[..m][..n] == t[..n];
      DropDigit(Value(t[..m]), t[m], Power(m - n));
    }
  }

  /** Digits of a smaller number that are not the longer ones come first in text order exactly when the number is at
      most the leading digits of the larger one. */
  lemma DigitsFirstIff(s: seq<nat>, t: seq<nat>)
    requires |s| <= |t| && Value(s) < Value(t)
    requires (forall i :: 0 <= i < |s| ==> s[i] < 10) && (forall i :: 0 <= i < |t| ==> t[i] < 10)
    ensures TextBefore(s, t) <==> Value(s) <= Value(t) / Power(|t| - |s|)
  {
    TextPrefix(s, t);
    PrefixValue(t, |s|);
    SameWidthValue(s, t[..|s|]);
    if |s| == |t| { assert t[..|s|] == t; }
  }

  /** Exactly when the earlier placed id comes first in the text order, for all counters: always when both are
      equally wide, and otherwise when the earlier counter is at most the leading digits of the later one. */
  lemma EarlierComesFirstIff(a: nat, b: nat)
    requires a < b
    ensures |IdDigits(a)| <= |IdDigits(b)|
    ensures IdBefore(a, b) <==> a <= b / Power(|IdDigits(b)| - |IdDigits(a)|)
  {
    WidthGrows(a, b);
    IdValue(a);
    IdValue(b);
    DigitsFirstIff(IdDigits(a), IdDigits(b));
  }

  /** Below one million the tie-break is placement order. */
  lemma BelowMillionInPlacementOrder(a: nat, b: nat)
    requires a < 1000000 && b < 1000000
    ensures IdBefore(a, b) <==> a < b
  {
    assert Power(6) == 1000000 by {
      assert Power(1) == 10 && Power(2) == 100 && Power(3) == 1000 && Power(4) == 10000 && Power(5) == 100000;
    }
    DecimalWidth(a, 6);
    DecimalWidth(b, 6);
    PlacementOrder(a, b);
  }

  /** At one million it is not: the later id comes first. */
  lemma MillionComesBeforeItsPredecessor()
    ensures IdBefore(1000000, 999999)
  {
    MillionDigits();
    NinesDigits();
    hide Decimal;
    assert IdDigits(1000000)[0] == 1 && IdDigits(999999)[0] == 9;
  }

  lemma MillionDigits()
    ensures Decimal(1000000) == [1, 0, 0, 0, 0, 0, 0]
  {
    assert Decimal(10) == [1, 0] && Decimal(100) == [1, 0, 0];
    assert Decimal(1000) == [1, 0, 0, 0] && Decimal(10000) == [1, 0, 0, 0, 0];
    assert Decimal(100000) == [1, 0, 0, 0, 0, 0];
  }

  lemma NinesDigits()
    ensures Decimal(999999) == [9, 9, 9, 9, 9, 9]
  {
    assert Decimal(99) == [9, 9] && Decimal(999) == [9, 9, 9];
    assert Decimal(9999) == [9, 9, 9, 9] && Decimal(99999) == [9, 9, 9, 9, 9];
  }
}
