/** Powers of two, division and remainders: the arithmetic of shifts and masks. */
module Powers {
  function Pow2(n: nat): (p: nat)
    ensures p >= 1
  {
    if n == 0 then 1 else 2 * Pow2(n - 1)
  }

  lemma {:induction false} PowAdd(a: nat, b: nat)
    ensures Pow2(a + b) == Pow2(a) * Pow2(b)
  {
    if a > 0 {
      PowAdd(a - 1, b);
      assert 2 * (Pow2(a - 1) * Pow2(b)) == 2 * Pow2(a - 1) * Pow2(b);
    }
  }

  lemma {:induction false} PowGrows(a: nat, b: nat)
    requires a <= b
    ensures Pow2(a) <= Pow2(b)
    ensures a < b ==> Pow2(a) < Pow2(b)
  {
    if a < b { PowGrows(a, b - 1); }
  }

  lemma Scales(t: int, x: int, y: int)
    requires t > 0 && x < y
    ensures t * x + t <= t * y
  {
    assert t * (y - x - 1) >= 0;
  }

  /** Quotient and remainder are determined by their defining equation. */
  lemma DivUnique(x: int, d: int, q: int, r: int)
    requires d > 0 && 0 <= r < d && x == q * d + r
    ensures x / d == q && x % d == r
  {
    var p := x / d;
    assert x == p * d + x % d;
    if p < q { Scales(d, p, q); }
    if q < p { Scales(d, q, p); }
  }

  lemma DivParts(x: int, d: int)
    requires d > 0
    ensures x == (x / d) * d + x % d && 0 <= x % d < d
  {
  }

  lemma DivNat(x: int, d: int)
    requires x >= 0 && d > 0
    ensures x / d >= 0
  {
    DivParts(x, d);
    var q := x / d;
    if q < 0 { Scales(d, q, 0); }
  }

  lemma DivDiv(x: nat, a: nat, b: nat)
    requires a > 0 && b > 0
    ensures a * b > 0 && x / (a * b) == x / a / b
  {
    DivParts(x, a);
    DivParts(x / a, b);
    var q, r, p, s := x / a, x % a, x / a / b, (x / a) % b;
    assert a * b > 0;
    assert x == p * (a * b) + (s * a + r) by { assert q * a == p * b * a + s * a; }
    assert s * a + r < a * b by { Scales(a, s, b); }
    DivUnique(x, a * b, p, s * a + r);
  }

  /** Dividing a remainder is taking the remainder of a quotient. */
  lemma ModDiv(x: nat, a: nat, b: nat)
    requires a > 0 && b > 0
    ensures a * b > 0 && (x % (a * b)) / a == (x / a) % b
  {
    assert a * b > 0;
    DivParts(x, a);
    DivParts(x / a, b);
    var q, r, p, s := x / a, x % a, x / a / b, (x / a) % b;
    assert x == p * (a * b) + (s * a + r) by { assert q * a == p * b * a + s * a; }
    assert s * a + r < a * b by { Scales(a, s, b); }
    DivUnique(x, a * b, p, s * a + r);
    DivUnique(s * a + r, a, s, r);
  }

  lemma ModMod(x: nat, a: nat, b: nat)
    requires a > 0 && b > 0
    ensures a * b > 0 && (x % (a * b)) % a == x % a
  {
    assert a * b > 0;
    DivParts(x, a * b);
    var p, y := x / (a * b), x % (a * b);
    DivParts(y, a);
    assert x == (p * b + y / a) * a + y % a by { assert p * (a * b) == p * b * a; }
    DivUnique(x, a, p * b + y / a, y % a);
  }

  // ---- shifts and masks ----

  /** A shift right by `n` bits. */
  function Shr(x: nat, n: nat): (r: nat) {
    DivNat(x, Pow2(n));
    x / Pow2(n)
  }

  /** The low `n` bits. */
  function Low(x: nat, n: nat): (r: nat)
    ensures r < Pow2(n)
  {
    x % Pow2(n)
  }

  lemma ShrShr(x: nat, a: nat, b: nat)
    ensures Shr(Shr(x, a), b) == Shr(x, a + b)
  {
    PowAdd(a, b);
    DivDiv(x, Pow2(a), Pow2(b));
  }

  lemma ShrLow(x: nat, a: nat, b: nat)
    ensures Shr(Low(x, a + b), a) == Low(Shr(x, a), b)
  {
    PowAdd(a, b);
    ModDiv(x, Pow2(a), Pow2(b));
  }

  lemma LowLow(x: nat, a: nat, b: nat)
    ensures Low(Low(x, a + b), a) == Low(x, a)
  {
    PowAdd(a, b);
    ModMod(x, Pow2(a), Pow2(b));
  }

  lemma SmallBits(x: nat, n: nat)
    requires x < Pow2(n)
    ensures Low(x, n) == x && Shr(x, n) == 0
  {
    DivUnique(x, Pow2(n), 0, x);
  }

  lemma NoShift(x: nat)
    ensures Shr(x, 0) == x
  {
    DivUnique(x, 1, x, 0);
  }

  /** Joining high and low parts, and taking them apart. */
  lemma JoinedBits(v: nat, x: nat, n: nat)
    requires x < Pow2(n)
    ensures Shr(v * Pow2(n) + x, n) == v && Low(v * Pow2(n) + x, n) == x
  {
    DivUnique(v * Pow2(n) + x, Pow2(n), v, x);
  }

  lemma Bits8()
    ensures Pow2(8) == 256
  {
  }
}
