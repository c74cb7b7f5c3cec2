/** Multiples and remainders. */
module Arithmetic {
  lemma MulStep(m: nat, n: nat, unit: nat)
    requires m < n
    ensures m * unit + unit <= n * unit
  {
    assert n * unit == m * unit + (n - m) * unit;
    assert (n - m) * unit == unit + (n - m - 1) * unit;
  }

  lemma DivIsUnique(x: nat, q: nat, r: nat, unit: nat)
    requires x == q * unit + r && r < unit
    ensures x % unit == r && x / unit == q
  {
    var q', r' := x / unit, x % unit;
    assert x == q' * unit + r';
    if q < q' {
      MulStep(q, q', unit);
    } else if q' < q {
      MulStep(q', q, unit);
    }
  }

  lemma MultipleOf(n: nat, unit: nat)
    requires unit > 0
    ensures (n * unit) % unit == 0
    ensures (n * unit + unit) % unit == 0
  {
    DivIsUnique(n * unit, n, 0, unit);
    assert n * unit + unit == (n + 1) * unit;
    DivIsUnique(n * unit + unit, n + 1, 0, unit);
  }

  lemma ModPlus(a: nat, unit: nat)
    requires unit > 0
    ensures (a + unit) % unit == a % unit
  {
    assert a == a / unit * unit + a % unit;
    assert a + unit == (a / unit + 1) * unit + a % unit;
    DivIsUnique(a + unit, a / unit + 1, a % unit, unit);
  }

  /** Two different multiples of a unit are at least one unit apart. */
  lemma MultiplesApart(a: nat, b: nat, unit: nat)
    requires unit > 0 && a % unit == 0 && b % unit == 0 && a < b
    ensures a + unit <= b
  {
    var m := a / unit;
    var n := b / unit;
    assert a == m * unit && b == n * unit;
    if m < n {
      MulStep(m, n, unit);
    } else if n < m {
      MulStep(n, m, unit);
    }
  }

  /** What a rounding down to whole units leaves. */
  lemma WholePart(n: nat, unit: nat)
    requires unit > 0
    ensures var whole := n - n % unit;
            0 <= whole <= n < whole + unit && whole % unit == 0
  {
    assert n == n / unit * unit + n % unit;
    MultipleOf(n / unit, unit);
  }
}
