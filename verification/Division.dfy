/** Facts about integer products and quotients. */
module Division {
  lemma DivBound(n: nat, divisor: nat)
    requires divisor > 0
    ensures 0 <= n / divisor <= n
  {
    DivLess(n, divisor, n + 1);
    MulMonotone(1, divisor, n + 1);
  }

  lemma MulMonotone(a: int, b: int, c: nat)
    requires a <= b
    ensures a * c <= b * c
  {
  }

  lemma DivMonotone(a: int, b: int, divisor: nat)
    requires a <= b && divisor > 0
    ensures a / divisor <= b / divisor
  {
    if a / divisor > b / divisor {
      MulMonotone(b / divisor + 1, a / divisor, divisor);
    }
  }

  lemma DivLess(n: int, divisor: nat, bound: int)
    requires divisor > 0
    ensures n / divisor < bound <==> n < bound * divisor
  {
    if n / divisor < bound {
      MulMonotone(n / divisor + 1, bound, divisor);
    } else {
      MulMonotone(bound, n / divisor, divisor);
    }
  }

  lemma DivCancels(a: int, divisor: nat)
    requires divisor > 0
    ensures a * divisor / divisor == a
  {
    DivLess(a * divisor, divisor, a + 1);
    DivLess(a * divisor, divisor, a);
  }

  lemma DivShift(n: int, divisor: nat)
    requires divisor > 0
    ensures (n + divisor) / divisor == n / divisor + 1
  {
    DivLess(n + divisor, divisor, n / divisor + 2);
    DivLess(n + divisor, divisor, n / divisor + 1);
    DivLess(n, divisor, n / divisor + 1);
    DivLess(n, divisor, n / divisor);
  }

  lemma ProductBound(a: nat, b: nat, A: nat, B: nat)
    requires a <= A && b <= B
    ensures a * b <= A * B
  {
    MulMonotone(a, A, b);
    MulMonotone(b, B, A);
  }

  /** `q` is the exact quotient of `n` by `divisor`, rounded down. */
  predicate IsFloor(q: int, n: int, divisor: int) {
    q * divisor <= n < (q + 1) * divisor
  }

  lemma DivIsFloor(n: int, divisor: nat)
    requires divisor > 0
    ensures IsFloor(n / divisor, n, divisor)
  {
    DivLess(n, divisor, n / divisor);
    DivLess(n, divisor, n / divisor + 1);
  }

  lemma FloorIsDiv(q: int, n: int, divisor: nat)
    requires divisor > 0 && IsFloor(q, n, divisor)
    ensures q == n / divisor
  {
    DivLess(n, divisor, q + 1);
    DivLess(n, divisor, q);
  }
}
