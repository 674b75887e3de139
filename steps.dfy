/** The stepper that runs the tests in order: an index over the steps, a progress percentage
    and a label for the current step. */
module Steps {
  import opened Scoring

  /** `Math.round(((current + 1) / total) * 100)`; with no steps the quotient is infinite,
      which is modelled as no value. */
  function Percent(current: nat, total: nat): (p: Option<nat>)
    ensures total == 0 <==> p == None
    ensures total > 0 ==> 2 * total * p.value <= 200 * (current + 1) + total < 2 * total * (p.value + 1)
  {
    if total == 0 then None else Some(RoundDiv(100 * (current + 1), total))
  }

  /** On a valid index the percentage is at most 100, exactly 100 at the last step, and at least
      1 as long as there are at most 200 steps. */
  lemma PercentRange(current: nat, total: nat)
    requires current < total
    ensures Percent(current, total).value <= 100
    ensures current == total - 1 ==> Percent(current, total).value == 100
    ensures total <= 200 ==> Percent(current, total).value >= 1
  {
    RoundedPercentBounds(current + 1, total);
  }

  /** With more than 200 steps the first one shows 0%. */
  lemma PercentZeroAtFirstOf201()
    ensures Percent(0, 201) == Some(0)
  {
  }

  /** Progress never goes down as the index advances. */
  lemma PercentMonotone(c1: nat, c2: nat, total: nat)
    requires c1 <= c2 && total > 0
    ensures Percent(c1, total).value <= Percent(c2, total).value
  {
    var p1, p2 := Percent(c1, total).value, Percent(c2, total).value;
    if p2 < p1 {
      MulMonotone(2 * total, p2 + 1, p1);
    }
  }

  /** The decimal digits of `n`, as a template string writes a number. */
  function Decimal(n: nat): (s: string)
    ensures |s| >= 1
    ensures forall i :: 0 <= i < |s| ==> '0' <= s[i] <= '9'
    ensures n > 0 ==> s[0] != '0'
  {
    if n < 10 then [('0' as int + n) as char] else Decimal(n / 10) + [('0' as int + n % 10) as char]
  }

  function ParseDecimal(s: string): nat
    requires forall i :: 0 <= i < |s| ==> '0' <= s[i] <= '9'
  {
    if s == [] then 0 else 10 * ParseDecimal(s[..|s| - 1]) + (s[|s| - 1] as int - '0' as int)
  }

  /** The digits written for a step number read back as that number. */
  lemma {:induction false} DecimalRoundTrip(n: nat)
    ensures ParseDecimal(Decimal(n)) == n
  {
    if n >= 10 {
      DecimalRoundTrip(n / 10);
      var s := Decimal(n);
      assert s[..|s| - 1] == Decimal(n / 10);
    }
  }

  /** `labels[current] || \`Step ${current + 1}\``: a missing or empty label falls back to the
      step number, so the label shown is never empty. */
  function StepLabel(labels: seq<string>, current: nat): (text: string)
    ensures text != ""
    ensures current < |labels| && labels[current] != "" ==> text == labels[current]
    ensures !(current < |labels| && labels[current] != "") ==>
              |text| > 5 && text[..5] == "Step " && text[5] != '0' &&
              (forall i :: 5 <= i < |text| ==> '0' <= text[i] <= '9') &&
              ParseDecimal(text[5..]) == current + 1
  {
    if current < |labels| && labels[current] != "" then labels[current]
    else
      DecimalRoundTrip(current + 1);
      var text := "Step " + Decimal(current + 1);
      assert text[5..] == Decimal(current + 1);
      text
  }

  /** The stepper's index; `total` is the number of steps given to it. */
  class Stepper {
    const total: nat
    var current: nat

    /** The index names a step, or stays 0 when there are no steps. */
    ghost predicate Valid()
      reads this
    {
      current < total || current == 0
    }

    constructor (total: nat)
      ensures Valid() && this.total == total && current == 0
    {
      this.total := total;
      current := 0;
    }

    /** `goPrev`: one step back, but never below the first step. */
    method GoPrev()
      requires Valid()
      modifies this
      ensures Valid()
      ensures old(current) > 0 ==> current == old(current) - 1
      ensures old(current) == 0 ==> current == 0
    {
      if current > 0 {
        current := current - 1;
      }
    }

    /** `goNext`: one step forward, or at the last step (or with no steps) `onFinish` is
        called, reported as `finished`, and the index stays. */
    method GoNext() returns (finished: bool)
      requires Valid()
      modifies this
      ensures Valid()
      ensures finished <==> old(current) as int >= total as int - 1
      ensures !finished ==> current == old(current) + 1
      ensures finished ==> current == old(current)
    {
      if current < total - 1 {
        current := current + 1;
        finished := false;
      } else {
        finished := true;
      }
    }
  }
}
