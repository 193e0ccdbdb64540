/** Powers of ten, and rounding a value down or up to a multiple of a step. */
module Rounding {

  function TenTo(n: int): (r: real)
    ensures r > 0.0
    decreases if n >= 0 then n else -n
  {
    if n == 0 then 1.0 else if n > 0 then 10.0 * TenTo(n - 1) else TenTo(n + 1) / 10.0
  }

  /** The nearest integer, ties to even. */
  function RoundHalfEven(x: real): int {
    var below := x.Floor;
    var rest := x - below as real;
    if rest < 0.5 then below else if rest > 0.5 then below + 1 else if below % 2 == 0 then below else below + 1
  }

  function Scaled(x: real, decimals: nat): real {
    x * TenTo(decimals)
  }

  function Round(x: real, decimals: nat): real {
    RoundHalfEven(Scaled(x, decimals)) as real / TenTo(decimals)
  }

  /** `max(0, round(-log10(step)))`: the d with 10^(-d-1/2) <= step < 10^(-d+1/2). */
  function Decimals(step: real): nat
    requires step > 0.0
    decreases (1.0 / step).Floor
  {
    if step * step * 10.0 >= 1.0 then 0 else
    SmallStep(step);
    1 + Decimals(step * 10.0)
  }

  lemma SmallStep(step: real)
    requires 0.0 < step && step * step * 10.0 < 1.0
    ensures 0 <= (1.0 / (step * 10.0)).Floor < (1.0 / step).Floor
  {
    if step >= 0.5 {
      assert false;
    }
    var x := 1.0 / step;
    assert x * step == 1.0;
    assert x > 2.0;
    assert 1.0 / (step * 10.0) == x / 10.0;
  }

  function Multiple(k: int, step: real): real {
    k as real * step
  }

  function StepDecimals(step: real): nat
    requires step > 0.0
  {
    if step < 1.0 then Decimals(step) else 0
  }

  const FUDGE := 0.000000001

  function Ceil(x: real): int {
    -((-x).Floor)
  }

  function FloorSteps(value: real, step: real): int
    requires step > 0.0
  {
    ((value + step * FUDGE) / step).Floor
  }

  function CeilSteps(value: real, step: real): int
    requires step > 0.0
  {
    Ceil((value - step * FUDGE) / step)
  }

  function FloorToStep(value: real, step: real): real {
    if step <= 0.0 then value else Round(Multiple(FloorSteps(value, step), step), StepDecimals(step))
  }

  function CeilToStep(value: real, step: real): real {
    if step <= 0.0 then value else Round(Multiple(CeilSteps(value, step), step), StepDecimals(step))
  }

  // ----- steps that are powers of ten -----

  lemma {:induction false} TenToOpposite(n: int)
    requires n >= 0
    ensures TenTo(n) * TenTo(-n) == 1.0
  {
    if n > 0 {
      TenToOpposite(n - 1);
      var a, b := TenTo(n - 1), TenTo(-(n - 1));
      assert TenTo(n) == 10.0 * a && TenTo(-n) == b / 10.0;
      assert 10.0 * a * (b / 10.0) == a * b;
    }
  }

  lemma {:induction false} TenToInteger(n: int) returns (k: int)
    requires n >= 0
    ensures TenTo(n) == k as real && k >= 1
  {
    if n == 0 {
      k := 1;
    } else {
      var m := TenToInteger(n - 1);
      k := 10 * m;
    }
  }

  lemma {:induction false} TenToSmall(n: int)
    requires n >= 1
    ensures TenTo(-n) <= 0.1
  {
    if n > 1 { TenToSmall(n - 1); }
  }

  lemma {:induction false} DecimalsOfPower(n: int)
    requires n >= 0
    ensures Decimals(TenTo(-n)) == n
  {
    if n > 0 {
      var step := TenTo(-n);
      TenToSmall(n);
      assert step * step <= 0.01 by { SquareSmall(step); }
      assert step * 10.0 == TenTo(-(n - 1));
      DecimalsOfPower(n - 1);
    }
  }

  lemma SquareSmall(x: real)
    requires 0.0 < x <= 0.1
    ensures x * x <= 0.01
  {
    assert x * x <= x * 0.1;
  }

  lemma RoundInteger(k: int)
    ensures RoundHalfEven(k as real) == k
  {
  }

  lemma RoundMultipleFine(k: int, digits: int)
    requires digits > 0
    ensures Round(Multiple(k, TenTo(-digits)), digits) == Multiple(k, TenTo(-digits))
  {
    var step, up := TenTo(-digits), TenTo(digits);
    TenToOpposite(digits);
    Reassociate(k as real, step, up);
    assert Scaled(Multiple(k, step), digits) == k as real;
    RoundInteger(k);
    DivideBack(k as real, step, up);
  }

  lemma RoundWhole(x: real, k: int)
    requires x == k as real
    ensures Round(x, 0) == x
  {
    assert TenTo(0) == 1.0;
    assert Scaled(x, 0) == x;
    RoundInteger(k);
    assert Round(x, 0) == k as real / 1.0;
  }

  lemma RoundMultipleCoarse(k: int, digits: int)
    requires digits <= 0
    ensures Round(Multiple(k, TenTo(-digits)), 0) == Multiple(k, TenTo(-digits))
  {
    var n := TenToInteger(-digits);
    MultipleOfInteger(k, n, TenTo(-digits));
    RoundWhole(Multiple(k, TenTo(-digits)), k * n);
  }

  lemma MultipleOfInteger(k: int, n: int, step: real)
    requires step == n as real
    ensures Multiple(k, step) == (k * n) as real
  {
  }

  lemma PowerDecimals(digits: int)
    ensures StepDecimals(TenTo(-digits)) == if digits > 0 then digits else 0
  {
    if digits > 0 {
      TenToSmall(digits);
      DecimalsOfPower(digits);
    } else {
      var n := TenToInteger(-digits);
    }
  }

  /** A multiple of a power-of-ten step survives the final rounding. */
  lemma RoundMultiple(k: int, digits: int)
    ensures Round(Multiple(k, TenTo(-digits)), StepDecimals(TenTo(-digits))) == Multiple(k, TenTo(-digits))
  {
    PowerDecimals(digits);
    if digits > 0 {
      RoundMultipleFine(k, digits);
    } else {
      RoundMultipleCoarse(k, digits);
    }
  }

  lemma Reassociate(k: real, step: real, up: real)
    requires up * step == 1.0
    ensures k * step * up == k
  {
    assert k * step * up == k * (step * up);
  }

  lemma DivideBack(k: real, step: real, up: real)
    requires up > 0.0 && up * step == 1.0
    ensures k / up == k * step
  {
    Reassociate(k, step, up);
    assert (k * step) * up / up == k * step;
  }

  /** On power-of-ten steps the results are exact multiples. */
  lemma StepsExact(value: real, digits: int)
    ensures var step := TenTo(-digits);
            && FloorToStep(value, step) == Multiple(FloorSteps(value, step), step)
            && CeilToStep(value, step) == Multiple(CeilSteps(value, step), step)
  {
    var step := TenTo(-digits);
    RoundMultiple(FloorSteps(value, step), digits);
    RoundMultiple(CeilSteps(value, step), digits);
  }

  lemma StepsOfMultiple(k: int, step: real)
    requires step > 0.0
    ensures FloorSteps(Multiple(k, step), step) == k
  {
    var v := k as real * step;
    assert (v + step * FUDGE) / step == k as real + FUDGE;
  }

  /** Multiples of the step are left unchanged, despite the fudge. */
  lemma FloorOfMultiple(k: int, digits: int)
    ensures FloorToStep(Multiple(k, TenTo(-digits)), TenTo(-digits)) == Multiple(k, TenTo(-digits))
  {
    StepsExact(Multiple(k, TenTo(-digits)), digits);
    StepsOfMultiple(k, TenTo(-digits));
  }

  // ----- order, for every step -----

  lemma DivideMono(x: real, y: real, step: real)
    requires step > 0.0 && x <= y
    ensures x / step <= y / step
  {
    assert y / step - x / step == (y - x) / step;
  }

  lemma MultiplyMono(j: int, k: int, step: real)
    requires step > 0.0 && j <= k
    ensures Multiple(j, step) <= Multiple(k, step)
  {
    assert (k - j) as real * step >= 0.0;
    assert (k - j) as real * step == k as real * step - j as real * step;
  }

  lemma RoundHalfEvenMono(x: real, y: real)
    requires x <= y
    ensures RoundHalfEven(x) <= RoundHalfEven(y)
  {
    if x.Floor == y.Floor {
      assert x - x.Floor as real <= y - y.Floor as real;
    }
  }

  lemma ProductMono(x: real, y: real, z: real)
    requires x <= y && z >= 0.0
    ensures x * z <= y * z
  {
    assert (y - x) * z >= 0.0;
  }

  lemma RoundMono(x: real, y: real, decimals: nat)
    requires x <= y
    ensures Round(x, decimals) <= Round(y, decimals)
  {
    ProductMono(x, y, TenTo(decimals));
    hide RoundHalfEven, TenTo;
    RoundHalfEvenMono(Scaled(x, decimals), Scaled(y, decimals));
    hide Scaled;
    DivideMono(RoundHalfEven(Scaled(x, decimals)) as real, RoundHalfEven(Scaled(y, decimals)) as real, TenTo(decimals));
  }

  lemma RoundingMonotone(x: real, y: real, step: real)
    requires x <= y
    ensures FloorToStep(x, step) <= FloorToStep(y, step) && CeilToStep(x, step) <= CeilToStep(y, step)
  {
    hide Round, Multiple, StepDecimals;
    if step > 0.0 {
      DivideMono(x + step * FUDGE, y + step * FUDGE, step);
      DivideMono(x - step * FUDGE, y - step * FUDGE, step);
      MultiplyMono(FloorSteps(x, step), FloorSteps(y, step), step);
      MultiplyMono(CeilSteps(x, step), CeilSteps(y, step), step);
      hide FloorSteps, CeilSteps;
      RoundMono(Multiple(FloorSteps(x, step), step), Multiple(FloorSteps(y, step), step), StepDecimals(step));
      RoundMono(Multiple(CeilSteps(x, step), step), Multiple(CeilSteps(y, step), step), StepDecimals(step));
    }
  }

  lemma FudgedQuotients(x: real, y: real, step: real)
    requires step > 0.0 && x <= y
    ensures FloorSteps(x, step) <= CeilSteps(y, step)
  {
    DivideMono(x, y, step);
    assert (x + step * FUDGE) / step == x / step + FUDGE;
    assert (y - step * FUDGE) / step == y / step - FUDGE;
    CountsCompare(x / step, y / step);
  }

  lemma CountsCompare(x: real, y: real)
    requires x <= y
    ensures (x + FUDGE).Floor <= Ceil(y - FUDGE)
  {
  }

  /** Rounding down a lower value never passes rounding up a higher one: twice the fudge is less than a step. */
  lemma FloorBelowCeil(x: real, y: real, step: real)
    requires x <= y
    ensures FloorToStep(x, step) <= CeilToStep(y, step)
  {
    hide Round, Multiple, StepDecimals, FloorSteps, CeilSteps;
    if step > 0.0 {
      FudgedQuotients(x, y, step);
      MultiplyMono(FloorSteps(x, step), CeilSteps(y, step), step);
      RoundMono(Multiple(FloorSteps(x, step), step), Multiple(CeilSteps(y, step), step), StepDecimals(step));
    }
  }

  /** No value moves farther than this. */
  function Reach(step: real): real {
    if step <= 0.0 then 0.0 else step + 1.0
  }

  lemma RoundNear(x: real, decimals: nat)
    ensures -1.0 <= Round(x, decimals) - x <= 1.0
  {
    hide RoundHalfEven;
    HalfEvenNear(Scaled(x, decimals));
    var k := TenToInteger(decimals);
    NearQuotient(RoundHalfEven(Scaled(x, decimals)) as real, x, TenTo(decimals));
  }

  lemma NearQuotient(n: real, x: real, up: real)
    requires up >= 1.0 && -1.0 <= n - x * up <= 1.0
    ensures -1.0 <= n / up - x <= 1.0
  {
    QuotientsNear(n, x * up, up);
    ProductOverFactor(x, up);
  }

  lemma QuotientsNear(n: real, p: real, up: real)
    requires up >= 1.0 && -1.0 <= n - p <= 1.0
    ensures -1.0 <= n / up - p / up <= 1.0
  {
    DivideMono(n - p, up, up);
    DivideMono(-up, n - p, up);
    assert up / up == 1.0 && -up / up == -1.0;
    assert n / up - p / up == (n - p) / up;
  }

  lemma ProductOverFactor(x: real, up: real)
    requires up > 0.0
    ensures x * up / up == x
  {
  }

  lemma HalfEvenNear(x: real)
    ensures -1.0 <= RoundHalfEven(x) as real - x <= 1.0
  {
  }

  lemma FloorStepsNear(value: real, step: real)
    requires step > 0.0
    ensures value - step <= Multiple(FloorSteps(value, step), step) <= value + step
  {
    var q := value / step;
    assert (value + step * FUDGE) / step == q + FUDGE;
    WithinOneStep(value, step, FloorSteps(value, step));
  }

  lemma CeilStepsNear(value: real, step: real)
    requires step > 0.0
    ensures value - step <= Multiple(CeilSteps(value, step), step) <= value + step
  {
    var q := value / step;
    assert (value - step * FUDGE) / step == q - FUDGE;
    WithinOneStep(value, step, CeilSteps(value, step));
  }

  lemma WithinOneStep(value: real, step: real, n: int)
    requires step > 0.0 && value / step - 1.0 <= n as real <= value / step + 1.0
    ensures value - step <= Multiple(n, step) <= value + step
  {
    var d := n as real - value / step;
    assert Multiple(n, step) == value / step * step + d * step;
    assert -step <= d * step <= step;
  }

  lemma RoundedNear(value: real, step: real)
    ensures value - Reach(step) <= FloorToStep(value, step) <= value + Reach(step)
    ensures value - Reach(step) <= CeilToStep(value, step) <= value + Reach(step)
  {
    hide Round, Multiple, StepDecimals, FloorSteps, CeilSteps;
    if step > 0.0 {
      FloorStepsNear(value, step);
      CeilStepsNear(value, step);
      RoundNear(Multiple(FloorSteps(value, step), step), StepDecimals(step));
      RoundNear(Multiple(CeilSteps(value, step), step), StepDecimals(step));
    }
  }

  /** Values far enough apart are told apart by rounding down, by rounding up, and by rounding both towards each
      other. */
  lemma RoundedApart(x: real, y: real, step: real)
    requires y - x > 2.0 * Reach(step)
    ensures FloorToStep(x, step) < FloorToStep(y, step) && CeilToStep(x, step) < CeilToStep(y, step)
    ensures CeilToStep(x, step) < FloorToStep(y, step)
  {
    hide FloorToStep, CeilToStep;
    RoundedNear(x, step);
    RoundedNear(y, step);
  }
}
