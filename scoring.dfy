/** Shared vocabulary of the assessment engine: an optional value (a callback that may not
    fire, a JavaScript `undefined`) and the exact integer form of `Math.round(a / b)`. */
module Scoring {

  datatype Option<+T> = None | Some(value: T)

  /** `Math.round(a / b)` for `a >= 0` and `b > 0`, computed exactly. `Math.round` rounds
      halves upwards, so the result is the unique `r` with `r - 1/2 <= a/b < r + 1/2`. */
  function RoundDiv(a: nat, b: nat): (r: nat)
    requires b > 0
    ensures 2 * b * r <= 2 * a + b < 2 * b * (r + 1)
  {
    (2 * a + b) / (2 * b)
  }

  lemma MulMonotone(x: nat, p: nat, q: nat)
    requires p <= q
    ensures x * p <= x * q
  {
    assert x * q == x * p + x * (q - p);
  }

  lemma MulCancel(x: nat, p: nat, q: nat)
    requires x > 0 && x * p < x * q
    ensures p < q
  {
    if q <= p {
      MulMonotone(x, q, p);
    }
  }

  /** The rounding characterisation above has only one solution. */
  lemma RoundDivUnique(a: nat, b: nat, r: nat)
    requires b > 0 && 2 * b * r <= 2 * a + b < 2 * b * (r + 1)
    ensures RoundDiv(a, b) == r
  {
    var q := RoundDiv(a, b);
    if q < r {
      MulMonotone(2 * b, q + 1, r);
    } else if r < q {
      MulMonotone(2 * b, r + 1, q);
    }
  }

  /** A rounded quotient never exceeds a bound the exact quotient stays within. */
  lemma RoundDivAtMost(a: nat, b: nat, k: nat)
    requires b > 0 && a <= k * b
    ensures RoundDiv(a, b) <= k
  {
    var r := RoundDiv(a, b);
    assert 2 * b * (k + 1) == 2 * (k * b) + 2 * b;
    MulCancel(2 * b, r, k + 1);
  }

  /** What rounding `100 * part / total` gives at the two ends of the range. */
  lemma RoundedPercentBounds(part: nat, total: nat)
    requires total > 0
    ensures part <= total ==> RoundDiv(100 * part, total) <= 100
    ensures part == total ==> RoundDiv(100 * part, total) == 100
  {
    if part <= total {
      RoundDivAtMost(100 * part, total, 100);
    }
    if part == total {
      RoundDivUnique(100 * part, total, 100);
    }
  }

  /** The scores every component reports: `total > 0 ? Math.round(part / total * 100) : 0`. */
  function Percentage(part: nat, total: nat): (r: nat)
    ensures total == 0 ==> r == 0
    ensures total > 0 ==> 2 * total * r <= 200 * part + total < 2 * total * (r + 1)
    ensures part <= total ==> r <= 100
    ensures part == total && total > 0 ==> r == 100
    ensures part == 0 ==> r == 0
  {
    if total > 0 then
      RoundedPercentBounds(part, total);
      RoundDiv(100 * part, total)
    else 0
  }
}
