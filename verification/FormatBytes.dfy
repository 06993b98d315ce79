/** The loop of the shell that picks a binary unit for a byte count. */
module FormatBytes {
  newtype int64 = x: int | -0x8000_0000_0000_0000 <= x < 0x8000_0000_0000_0000

  const UNIT: int64 := 1024
  const SUFFIXES := "KMGTPE"

  function Pow(e: nat): (p: int)
    ensures p > 0
  {
    if e == 0 then 1 else 1024 * Pow(e - 1)
  }

  /** What is printed: the plain count, or the count over `div` with a suffix. */
  datatype Format = Plain(b: int64) | Scaled(b: int64, div: int64, exp: nat, suffix: char)

  lemma {:induction false} PowGrows(e: nat, f: nat)
    requires e <= f
    ensures Pow(e) <= Pow(f)
  {
    if e < f {
      PowGrows(e, f - 1);
    }
  }

  /** The seventh power of the unit does not fit an int64. */
  lemma ExponentBound(e: nat)
    ensures e >= 7 ==> Pow(e) >= 0x8000_0000_0000_0000
  {
    assert Pow(3) == 0x4000_0000;
    assert Pow(6) == 0x1000_0000_0000_0000;
    assert Pow(7) == 1024 * Pow(6);
    if e >= 7 {
      PowGrows(7, e);
    }
  }

  lemma Multiples(d: int, k: int)
    requires d > 0
    ensures k >= 1 ==> d * k >= d
    ensures k <= -1 ==> d * k <= -d
  {}

  /** One more division by the unit. */
  lemma DivideAgain(b: int, p: int)
    requires b >= 0 && p > 0
    ensures b / p / 1024 == b / (1024 * p)
  {
    var n := b / p;
    var m := n / 1024;
    var r, q := b - p * n, n - 1024 * m;
    assert 0 <= r < p && 0 <= q <= 1023;
    assert p * q <= p * 1023;
    assert b == p * (1024 * m + q) + r;
    assert p * (1024 * m + q) == (1024 * p) * m + p * q;
    Quotient(b, 1024 * p, m, p * q + r);
  }

  lemma Quotient(b: int, d: int, m: int, r: int)
    requires d > 0 && b == d * m + r && 0 <= r < d
    ensures b / d == m
  {
    var k := b / d - m;
    assert 0 <= b - d * (b / d) < d;
    assert b - d * (b / d) == r - d * k;
    Multiples(d, k);
  }

  /** Go's division truncates, which for `b >= 1024` is the Euclidean one. */
  method FormatBytes(b: int64) returns (f: Format)
    ensures b < 1024 <==> f.Plain?
    ensures f.b == b
    ensures f.Scaled? ==>
      && f.exp < 6 && f.suffix == "KMGTPE"[f.exp] && f.div as int == Pow(f.exp + 1)
      && f.div <= b && b / f.div < 1024
  {
    if b < UNIT {
      return Plain(b);
    }
    var div, e := UNIT, 0;
    var n := b / UNIT;
    assert Pow(1) == 1024;
    while n >= UNIT
      invariant 0 <= e <= 5 && div as int == Pow(e + 1)
      invariant n as int == b as int / Pow(e + 1) && n >= 1
      decreases n
    {
      assert n as int * Pow(e + 1) <= b as int;
      DivideAgain(b as int, Pow(e + 1));
      assert Pow(e + 2) <= b as int by {
        assert 1024 * Pow(e + 1) <= n as int * Pow(e + 1);
      }
      ExponentBound(e + 2);
      div := div * UNIT;
      e := e + 1;
      n := n / UNIT;
    }
    assert Pow(e + 1) <= b as int by {
      assert 1 * Pow(e + 1) <= n as int * Pow(e + 1);
    }
    return Scaled(b, div, e, SUFFIXES[e]);
  }

  /** The unit is determined by the bound: no other power of the unit brings
      the count into the printed range. */
  lemma UnitIsUnique(b: int, e: nat, f: nat)
    requires Pow(e) <= b && b / Pow(e) < 1024
    requires Pow(f) <= b && b / Pow(f) < 1024
    ensures e == f
  {
    if e < f {
      TooSmall(b, e, f);
    } else if f < e {
      TooSmall(b, f, e);
    }
  }

  lemma TooSmall(b: int, e: nat, f: nat)
    requires e < f && Pow(f) <= b
    ensures b / Pow(e) >= 1024
  {
    PowGrows(e + 1, f);
    var p, q := Pow(e), b / Pow(e);
    assert 1024 * p <= b;
    assert b < p * (q + 1);
    Multiples(p, 1024 - (q + 1));
  }
}
