// Facts about multiplication, division and remainders that the solver does not find by itself.
module Arithmetic {

  lemma MulMono(a: nat, b: nat, c: nat)
    requires a <= b
    ensures a * c <= b * c && (a + 1) * c == a * c + c
  {
    assert b * c == a * c + (b - a) * c;
    assert (b - a) * c >= 0;
  }

  lemma Distributes(a: int, b: int, c: int)
    ensures (a + b) * c == a * c + b * c && c * (a + b) == c * a + c * b
  {
  }

  lemma Swaps(a: int, b: int, c: int)
    ensures a * (b * c) == b * (a * c)
  {
    assert a * (b * c) == (a * b) * c;
    assert b * (a * c) == (b * a) * c;
  }

  lemma Cancels(a: nat, b: nat, c: nat)
    requires c > 0 && a * c <= b * c
    ensures a <= b
  {
    if a > b { MulMono(b + 1, a, c); MulMono(b, b, c); }
  }

  lemma SmallMod(a: nat, m: nat)
    requires a < m
    ensures a % m == a
  {
  }

  lemma ModDrops(a: nat, b: nat, m: nat)
    requires m > 0
    ensures (a + b * m) % m == a % m
  {
    DivMod(a, m);
    assert (a / m + b) * m == a / m * m + b * m;
    ModUnique(a + b * m, a / m + b, a % m, m);
  }

  lemma ModUnique(x: nat, q: nat, r: nat, m: nat)
    requires m > 0 && x == q * m + r && r < m
    ensures x / m == q && x % m == r
  {
    var q', r' := x / m, x % m;
    DivMod(x, m);
    if q' < q {
      MulMono(q', q', m);
      MulMono(q' + 1, q, m);
    } else if q' > q {
      MulMono(q, q, m);
      MulMono(q + 1, q', m);
    }
  }

  lemma DivMod(x: nat, m: nat)
    requires m > 0
    ensures x == x / m * m + x % m && x % m < m && x / m >= 0
  {
  }

  lemma DivTwice(a: nat, m: nat)
    requires m > 0
    ensures a / (2 * m) == a / 2 / m
  {
    DivMod(a / 2, m);
    var q, r := a / 2 / m, a / 2 % m;
    assert 2 * (q * m) == q * (2 * m);
    ModUnique(a, q, 2 * r + a % 2, 2 * m);
  }
}
