/** Step and tick rounding of `shared/decimal_utils.py`, with Decimals as exact reals. */
module DecimalUtils {

  datatype Rounding = RoundDown | RoundUp | RoundHalfUp

  datatype Result<+T> = Ok(value: T) | Raised(error: string)

  datatype Option<+T> = None | Some(value: T)

  function Abs(x: real): (r: real) { if x < 0.0 then -x else x }

  function Max(x: real, y: real): (r: real) { if x < y then y else x }

  function Min(x: real, y: real): (r: real) { if y < x then y else x }

  /** Decimal's ROUND_DOWN: towards zero. */
  function Truncate(x: real): int {
    if x >= 0.0 then x.Floor else -(-x).Floor
  }

  /** Decimal.to_integral_value for the three modes in use; ROUND_UP goes away from zero. */
  function ToIntegral(x: real, mode: Rounding): int {
    match mode
    case RoundDown => Truncate(x)
    case RoundUp =>
      var t := Truncate(x);
      if t as real == x then t else if x >= 0.0 then t + 1 else t - 1
    case RoundHalfUp =>
      if x >= 0.0 then (x + 0.5).Floor else -(-x + 0.5).Floor
  }

  /** How many steps `Quantize` keeps. */
  function Steps(value: real, step: real, mode: Rounding): int
    requires step > 0.0
  {
    ToIntegral(value / step, mode)
  }

  function Multiple(n: int, step: real): real { n as real * step }

  /** quantize_step and quantize_price; their callers here raise first when the step is not positive. */
  function Quantize(value: real, step: real, mode: Rounding): real
    requires step > 0.0
  {
    Multiple(Steps(value, step, mode), step)
  }

  function SafeDiv(numerator: real, denominator: real, default: real := 0.0): real {
    if denominator == 0.0 then default else numerator / denominator
  }

  // ---------- division facts the solver needs one at a time ----------

  lemma DivBelow(x: real, d: real, y: real)
    requires d > 0.0
    ensures x / d <= y <==> x <= y * d
    ensures x / d >= y <==> x >= y * d
    ensures x / d * d == x
  {
    var q := x / d;
    assert q * d == x;
    if q < y { MulLess(q, y, d); }
    if q > y { MulLess(y, q, d); }
  }

  lemma MulLess(x: real, y: real, d: real)
    requires x < y && d > 0.0
    ensures x * d < y * d
  {
    assert (y - x) * d > 0.0;
  }

  lemma MulLeq(x: real, y: real, d: real)
    requires x <= y && d >= 0.0
    ensures x * d <= y * d
  {
    assert (y - x) * d >= 0.0;
  }

  // ---------- what the rounding promises ----------

  /** Rounding down keeps exactly the multiples that fit: n steps fit in `value` iff n <= Steps. */
  lemma RoundDownIsGreatestMultiple(value: real, step: real, n: int)
    requires step > 0.0 && value >= 0.0
    ensures Multiple(n, step) <= value <==> Multiple(n, step) <= Quantize(value, step, RoundDown)
    ensures Multiple(n, step) <= value <==> n <= Steps(value, step, RoundDown)
    ensures 0.0 <= Quantize(value, step, RoundDown) <= value < Quantize(value, step, RoundDown) + step
  {
    var q := value / step;
    var s := Steps(value, step, RoundDown);
    DivBelow(value, step, n as real);
    DivBelow(value, step, 0.0);
    DivBelow(value, step, s as real);
    DivBelow(value, step, (s + 1) as real);
    assert s as real <= q < (s + 1) as real;
    assert (s + 1) as real * step == s as real * step + step;
    MulIntOrder(n, s, step);
    MulLeq(0.0, s as real, step);
  }

  /** Rounding up keeps exactly the multiples that cover: `value` fits in n steps iff Steps <= n. */
  lemma RoundUpIsLeastMultiple(value: real, step: real, n: int)
    requires step > 0.0 && value >= 0.0
    ensures value <= Multiple(n, step) <==> Quantize(value, step, RoundUp) <= Multiple(n, step)
    ensures value <= Multiple(n, step) <==> Steps(value, step, RoundUp) <= n
    ensures value <= Quantize(value, step, RoundUp) < value + step
  {
    var q := value / step;
    var s := Steps(value, step, RoundUp);
    DivBelow(value, step, n as real);
    DivBelow(value, step, 0.0);
    DivBelow(value, step, s as real);
    DivBelow(value, step, (s - 1) as real);
    assert (s - 1) as real < q <= s as real;
    assert (s - 1) as real * step == s as real * step - step;
    MulIntOrder(s, n, step);
  }

  lemma MulIntOrder(m: int, n: int, step: real)
    requires step > 0.0
    ensures m <= n <==> Multiple(m, step) <= Multiple(n, step)
  {
    if m <= n { MulLeq(m as real, n as real, step); } else { MulLess(n as real, m as real, step); }
  }

  /** A negative value rounds towards zero under ROUND_DOWN and away from it under ROUND_UP. */
  lemma RoundingOfNegatives(value: real, step: real)
    requires step > 0.0 && value <= 0.0
    ensures value <= Quantize(value, step, RoundDown) <= 0.0
    ensures Quantize(value, step, RoundUp) <= value
    ensures Quantize(value, step, RoundDown) < value + step
    ensures Quantize(value, step, RoundUp) > value - step
  {
    var q := value / step;
    DivBelow(value, step, 0.0);
    assert (-value) / step == -q by { DivBelow(-value, step, 0.0); }
    var d, u := Steps(value, step, RoundDown), Steps(value, step, RoundUp);
    DivBelow(value, step, d as real);
    DivBelow(value, step, u as real);
    DivBelow(value, step, (d - 1) as real);
    DivBelow(value, step, (u + 1) as real);
    assert (d - 1) as real * step == d as real * step - step;
    assert (u + 1) as real * step == u as real * step + step;
    MulLeq(d as real, 0.0, step);
  }

  /** ROUND_HALF_UP takes the nearest multiple, and of two the one away from zero. */
  lemma RoundHalfUpIsNearest(value: real, step: real)
    requires step > 0.0
    ensures var d := Quantize(value, step, RoundHalfUp) - value;
            if value >= 0.0 then -step / 2.0 < d <= step / 2.0 else -step / 2.0 <= d < step / 2.0
  {
    var q, n := value / step, Steps(value, step, RoundHalfUp);
    DivBelow(value, step, 0.0);
    if value >= 0.0 {
      assert (n as real - 0.5) <= q < (n as real + 0.5);
    } else {
      assert (n as real - 0.5) < q <= (n as real + 0.5);
    }
    DivBelow(value, step, n as real - 0.5);
    DivBelow(value, step, n as real + 0.5);
    assert (n as real - 0.5) * step == Multiple(n, step) - step / 2.0;
    assert (n as real + 0.5) * step == Multiple(n, step) + step / 2.0;
  }

  lemma WholeNumbersStay(n: int, mode: Rounding)
    ensures ToIntegral(n as real, mode) == n
  {
  }

  /** A value that is already a multiple is left alone by every mode: rounding is idempotent. */
  lemma QuantizeFixesMultiples(n: int, step: real, mode: Rounding)
    requires step > 0.0
    ensures Quantize(Multiple(n, step), step, mode) == Multiple(n, step)
  {
    DivBelow(Multiple(n, step), step, n as real);
    WholeNumbersStay(n, mode);
  }
}
