/** Go's fixed-width integers: what `uint64` counters and the `int64` amount type do at their limits. */
module Machine {
  const TWO63: int := 0x8000_0000_0000_0000
  const TWO64: int := 0x1_0000_0000_0000_0000

  type Byte = x: int | 0 <= x < 256
  type Word = x: int | 0 <= x < TWO64
  type Fixed64 = x: int | -TWO63 <= x < TWO63

  // Unsigned wrap-around.
  function U64(x: int): Word {
    x % TWO64
  }

  // Conversion to a signed 64-bit value, keeping the low 64 bits.
  function I64(x: int): Fixed64 {
    var r := x % TWO64;
    if r < TWO63 then r else r - TWO64
  }

  lemma Word64(x: int)
    requires 0 <= x < TWO64
    ensures U64(x) == x
  {
  }

  // Integer division that truncates toward zero.
  function Quo(a: int, b: int): int
    requires b > 0
  {
    if a >= 0 then a / b else -((-a) / b)
  }

  lemma MulMono(a: int, x: int, y: int)
    requires 0 <= a && x <= y
    ensures a * x <= a * y
  {
  }

  lemma DivBounds(a: int, b: int)
    requires 0 <= a && 0 < b
    ensures 0 <= a / b <= a
    ensures b * (a / b) <= a < b * (a / b) + b
  {
    var q, r := a / b, a % b;
    assert a == b * q + r;
    if q < 0 {
      MulMono(b, q, -1);
    } else {
      MulMono(q, 1, b);
    }
  }

  // a / b is the unique q with b * q <= a < b * (q + 1).
  lemma DivUnique(a: int, b: int, q: int)
    requires 0 < b && b * q <= a < b * q + b
    ensures a / b == q
  {
    var d, r := a / b, a % b;
    assert a == b * d + r;
    if d < q {
      MulMono(b, d + 1, q);
    } else if d > q {
      MulMono(b, q + 1, d);
    }
  }

  lemma ModBounds(a: int, b: int)
    requires 0 <= a && 0 < b
    ensures a == b * (a / b) + a % b && 0 <= a % b <= a && a % b < b
  {
    DivBounds(a, b);
  }

  lemma DivMono(a: int, c: int, b: int)
    requires 0 <= a <= c && 0 < b
    ensures a / b <= c / b
  {
    DivBounds(a, b);
    DivBounds(c, b);
    if a / b > c / b {
      MulMono(b, c / b + 1, a / b);
    }
  }

  // Truncation brings a signed 64-bit value no further from zero than dividing its bound would.
  lemma QuoBelow(a: Fixed64, b: int)
    requires 0 < b
    ensures -((TWO63) / b) <= Quo(a, b) <= (TWO63 - 1) / b
    ensures a >= 0 ==> Quo(a, b) >= 0
  {
    if a >= 0 {
      DivMono(a, TWO63 - 1, b);
      DivBounds(a, b);
      DivBounds(TWO63, b);
    } else {
      var n: int := -(a as int);
      DivMono(n, TWO63, b);
      DivBounds(n, b);
      DivBounds(TWO63 - 1, b);
    }
  }
}
