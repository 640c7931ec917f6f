/** 32-bit unsigned arithmetic, and facts about products, quotients and remainders by a number that is not fixed. */
module Arithmetic {

  // The range of a 32-bit unsigned int, at which its arithmetic wraps around.
  const UINT_RANGE: nat := 0x1_0000_0000

  type Word = x: nat | x < UINT_RANGE witness 0

  function Wrap(x: nat): Word { x % UINT_RANGE }

  lemma InRangeWrapsToItself(x: nat)
    requires x < UINT_RANGE
    ensures Wrap(x) == x
  {
  }

  lemma AtLeastOnce(k: int, width: int)
    requires k >= 1 && width >= 0
    ensures k * width >= width && width * k >= width
  {
  }

  lemma MulMonotone(a: int, b: int, width: int)
    requires a <= b && width >= 0
    ensures a * width <= b * width
  {
    assert b * width == a * width + (b - a) * width;
  }

  lemma DivMonotone(a: nat, b: nat, width: nat)
    requires a <= b && 1 <= width
    ensures a / width <= b / width
  {
    if a / width > b / width {
      AtLeastOnce(a / width - b / width, width);
    }
  }

  lemma ModOnce(y: int, size: int)
    requires 1 <= size
    ensures (y + size) % size == y % size
  {
    var d := (y + size) / size - y / size;
    assert size * d == size + y % size - (y + size) % size;
    if d >= 2 {
      AtLeastOnce(d - 1, size);
      assert false;
    } else if d <= 0 {
      if d < 0 {
        AtLeastOnce(-d, size);
      }
      assert false;
    }
  }

  lemma {:induction false} ModShift(x: int, q: int, size: int)
    requires 1 <= size
    ensures (size * q + x) % size == x % size
    decreases if q < 0 then -q else q
  {
    if q > 0 {
      ModShift(x, q - 1, size);
      ModOnce(size * (q - 1) + x, size);
      assert size * q + x == size * (q - 1) + x + size;
    } else if q < 0 {
      ModShift(x, q + 1, size);
      ModOnce(size * q + x, size);
      assert size * q + x + size == size * (q + 1) + x;
    }
  }

  lemma ModAdd(a: int, b: int, size: int)
    requires 1 <= size
    ensures (a % size + b) % size == (a + b) % size
  {
    var q, r := a / size, a % size;
    assert a + b == size * q + (r + b);
    ModShift(r + b, q, size);
  }

  lemma SmallMod(r: int, size: int)
    requires -size < r < size
    ensures r % size == if r >= 0 then r else r + size
  {
    if r < 0 {
      ModOnce(r, size);
    }
  }

  lemma DifferenceMod(a: int, b: int, size: int)
    requires 1 <= size
    ensures (a - b) % size == (a % size - b % size) % size
  {
    var qa, ra, qb, rb := a / size, a % size, b / size, b % size;
    assert a == size * qa + ra && b == size * qb + rb;
    assert size * (qa - qb) == size * qa - size * qb;
    ModShift(ra - rb, qa - qb, size);
  }

  lemma SameRemainder(a: int, b: int, size: int)
    requires 1 <= size
    ensures a % size == b % size <==> (a - b) % size == 0
  {
    DifferenceMod(a, b, size);
    SmallMod(a % size - b % size, size);
  }
}
