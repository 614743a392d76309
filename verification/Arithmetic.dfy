/** Integer division and multiplication, one fact at a time. */
module Arithmetic {
  function Floor(m: nat, n: nat): nat
    requires n > 0
  {
    m / n
  }

  function Ceil(m: nat, n: nat): nat
    requires n > 0
  {
    (m + n - 1) / n
  }

  /** n / d to the nearest whole number; 0 where there is nothing to divide by. */
  function Round(n: nat, d: nat): nat {
    if d == 0 then 0 else (2 * n + d) / (2 * d)
  }

  /** Off by half of what it divides by at most. */
  lemma RoundIsNear(n: nat, d: nat)
    requires d > 0
    ensures 2 * n - d <= 2 * (d * Round(n, d)) <= 2 * n + d
  {
    DivBounds(2 * n + d, 2 * d);
    Distribute(Round(n, d), 1, 2 * d);
    assert Round(n, d) * (2 * d) == 2 * (d * Round(n, d));
  }

  lemma MulMono(a: int, b: int, n: nat)
    requires a <= b
    ensures a * n <= b * n
  {
    assert (b - a) * n >= 0;
  }

  lemma DivBounds(x: int, n: nat)
    requires n > 0
    ensures x / n * n <= x < (x / n + 1) * n
  {
  }

  lemma DivAtLeast(x: int, q: int, n: nat)
    requires n > 0 && q * n <= x
    ensures x / n >= q
  {
    if x / n < q {
      DivBounds(x, n);
      MulMono(x / n + 1, q, n);
    }
  }

  lemma DivBelow(x: int, q: int, n: nat)
    requires n > 0 && x < q * n
    ensures x / n < q
  {
    if x / n >= q {
      DivBounds(x, n);
      MulMono(q, x / n, n);
    }
  }

  lemma Distribute(a: int, b: int, n: int)
    ensures (a + b) * n == a * n + b * n
  {
  }

  /** x + m lies m / n to ⌈m / n⌉ further along in steps of n than x. */
  lemma DivStep(x: nat, m: nat, n: nat)
    requires n > 0
    ensures Floor(m, n) <= Floor(x + m, n) - Floor(x, n) <= Ceil(m, n)
  {
    var c := (m + n - 1) / n;
    DivBounds(x, n);
    DivBounds(m, n);
    DivBounds(m + n - 1, n);
    Distribute(x / n, m / n, n);
    DivAtLeast(x + m, x / n + m / n, n);
    Distribute(c, 1, n);
    Distribute(x / n + 1, c, n);
    DivBelow(x + m, x / n + 1 + c, n);
  }

  lemma CeilCovers(m: nat, n: nat)
    requires n > 0
    ensures m <= n * Ceil(m, n) && (m > 0 ==> Ceil(m, n) > 0)
  {
    DivBounds(m + n - 1, n);
    Distribute(Ceil(m, n), 1, n);
    if m > 0 {
      DivAtLeast(m + n - 1, 1, n);
    }
  }

  lemma CeilIsOne(m: nat, n: nat)
    requires 0 < m <= n
    ensures Ceil(m, n) == 1
  {
    DivAtLeast(m + n - 1, 1, n);
    DivBelow(m + n - 1, 2, n);
  }

  lemma CeilLessOne(m: nat, n: nat)
    requires 0 < n < m
    ensures Ceil(m, n) == 1 + Ceil(m - n, n)
  {
    DivBounds(m - 1, n);
    Distribute((m - 1) / n, 1, n);
    Distribute((m - 1) / n + 1, 1, n);
    DivAtLeast(m - 1 + n, (m - 1) / n + 1, n);
    DivBelow(m - 1 + n, (m - 1) / n + 2, n);
  }

  lemma CeilIs(m: nat, n: nat, q: nat)
    requires n > 0 && q > 0 && (q - 1) * n < m <= q * n
    ensures Ceil(m, n) == q
  {
    Distribute(q - 1, 1, n);
    Distribute(q, 1, n);
    DivAtLeast(m + n - 1, q, n);
    DivBelow(m + n - 1, q + 1, n);
  }

  /** Where the i-th of `parts` cuts of m things is. */
  function Cut(i: nat, m: nat, parts: nat): nat
    requires parts > 0
  {
    Floor(i * m, parts)
  }

  lemma CutStep(i: nat, m: nat, parts: nat)
    requires parts > 0
    ensures Cut(0, m, parts) == 0 && Cut(parts, m, parts) == m
    ensures Floor(m, parts) <= Cut(i + 1, m, parts) - Cut(i, m, parts) <= Ceil(m, parts)
  {
    Distribute(i, 1, m);
    DivStep(i * m, m, parts);
    DivAtLeast(parts * m, m, parts);
    DivBelow(parts * m, m + 1, parts);
  }

  lemma CutMono(i: nat, j: nat, m: nat, parts: nat)
    requires parts > 0 && i <= j
    ensures Cut(i, m, parts) <= Cut(j, m, parts)
  {
    MulMono(i, j, m);
    DivBounds(i * m, parts);
    DivAtLeast(j * m, Cut(i, m, parts), parts);
  }

  lemma CutIsIn(i: nat, m: nat, parts: nat)
    requires i < parts && m > 0
    ensures Cut(i, m, parts) < m
  {
    Distribute(i, parts - i, m);
    MulMono(1, parts - i, m);
    DivBelow(i * m, m, parts);
  }
}
