/** Division by a divisor that is not a constant. */
module DivMod {

  lemma {:induction false} TimesLess(a: nat, b: nat, c: nat)
    requires a <= b
    ensures a * c <= b * c
    decreases b - a
  {
    if a < b {
      TimesLess(a, b - 1, c);
      assert b * c == (b - 1) * c + c;
    }
  }

  lemma ModIs(a: nat, d: nat, q: nat, m: nat)
    requires m < d && a == q * d + m
    ensures a % d == m && a / d == q
  {
    var r := a / d;
    assert a == r * d + a % d;
    if r < q { TimesLess(r + 1, q, d); assert false; }
    if q < r { TimesLess(q + 1, r, d); assert false; }
  }

  lemma AddMod(a: nat, b: nat, p: nat)
    requires p > 0
    ensures (a + b) % p == if a % p + b % p < p then a % p + b % p else a % p + b % p - p
  {
    var q := a / p + b / p;
    assert (a / p) * p + (b / p) * p == q * p;
    if a % p + b % p < p { ModIs(a + b, p, q, a % p + b % p); }
    else {
      assert (q + 1) * p == q * p + p;
      ModIs(a + b, p, q + 1, a % p + b % p - p);
    }
  }

  lemma NextMod(m: nat, p: nat)
    requires p > 0
    ensures if m % p + 1 == p then (m + 1) % p == 0 && (m + 1) / p == m / p + 1
            else (m + 1) % p == m % p + 1 && (m + 1) / p == m / p
  {
    var q := m / p;
    if m % p + 1 == p {
      assert (q + 1) * p == q * p + p;
      ModIs(m + 1, p, q + 1, 0);
    } else {
      ModIs(m + 1, p, q, m % p + 1);
    }
  }
}
