/**
 Which changes of the data the checksum notices. Bit p of a buffer is bit p % 8 of byte p / 8; the bits whose
 positions agree modulo 16 form a column, and a change passes exactly when it flips an even number of bits in
 each of the 16 columns.
 */
module Detection {
  import opened Checksum

  function Mask16(i: nat): bv16
    requires i < 16
  {
    match i
    case 0 => 0x0001
    case 1 => 0x0002
    case 2 => 0x0004
    case 3 => 0x0008
    case 4 => 0x0010
    case 5 => 0x0020
    case 6 => 0x0040
    case 7 => 0x0080
    case 8 => 0x0100
    case 9 => 0x0200
    case 10 => 0x0400
    case 11 => 0x0800
    case 12 => 0x1000
    case 13 => 0x2000
    case 14 => 0x4000
    case _ => 0x8000
  }

  function Mask8(i: nat): bv8
    requires i < 8
  {
    match i
    case 0 => 0x01
    case 1 => 0x02
    case 2 => 0x04
    case 3 => 0x08
    case 4 => 0x10
    case 5 => 0x20
    case 6 => 0x40
    case _ => 0x80
  }

  function And16(x: bv16, y: bv16): bv16 { x & y }

  function Or16(x: bv16, y: bv16): bv16 { x | y }

  predicate Bit16(x: bv16, i: nat)
    requires i < 16
  {
    x & Mask16(i) != 0
  }

  predicate Bit8(x: bv8, i: nat)
    requires i < 8
  {
    x & Mask8(i) != 0
  }

  predicate DataBit(d: seq<bv8>, p: nat)
    requires p < 8 * |d|
  {
    Bit8(d[p / 8], p % 8)
  }

  predicate Flipped(d: seq<bv8>, e: seq<bv8>, p: nat)
    requires |d| == |e| && p < 8 * |d|
  {
    DataBit(d, p) != DataBit(e, p)
  }

  lemma MaskedBit(x: bv16, i: nat)
    requires i < 16
    ensures And16(x, Mask16(i)) == if Bit16(x, i) then Mask16(i) else 0
    ensures Mask16(i) != 0
  {
  }

  lemma MaskOfXor(x: bv16, y: bv16, mask: bv16)
    ensures And16(Xor16(x, y), mask) == Xor16(And16(x, mask), And16(y, mask))
  {
  }

  lemma XorCancels(x: bv16, y: bv16)
    ensures Xor16(Xor16(x, y), y) == x
    ensures Xor16(x, x) == 0 && Xor16(0, y) == y
  {
  }

  lemma XorIsZero(x: bv16, y: bv16)
    ensures Xor16(x, y) == 0 <==> x == y
  {
    hide Xor16;
    XorCancels(x, y);
  }

  lemma BitOfXor(x: bv16, y: bv16, i: nat)
    requires i < 16
    ensures Bit16(Xor16(x, y), i) <==> (Bit16(x, i) != Bit16(y, i))
  {
    hide Mask16, Xor16, And16, Bit16;
    MaskedBit(x, i);
    MaskedBit(y, i);
    MaskedBit(Xor16(x, y), i);
    MaskOfXor(x, y, Mask16(i));
    XorIsZero(And16(x, Mask16(i)), And16(y, Mask16(i)));
  }

  // The k lowest bits.
  function Below(k: nat): bv16
    requires k <= 16
  {
    match k
    case 0 => 0x0000
    case 1 => 0x0001
    case 2 => 0x0003
    case 3 => 0x0007
    case 4 => 0x000F
    case 5 => 0x001F
    case 6 => 0x003F
    case 7 => 0x007F
    case 8 => 0x00FF
    case 9 => 0x01FF
    case 10 => 0x03FF
    case 11 => 0x07FF
    case 12 => 0x0FFF
    case 13 => 0x1FFF
    case 14 => 0x3FFF
    case 15 => 0x7FFF
    case _ => 0xFFFF
  }

  lemma BelowNext(k: nat)
    requires k < 16
    ensures Below(k + 1) == Or16(Below(k), Mask16(k))
  {
  }

  lemma MaskUnion(x: bv16, y: bv16, m: bv16, n: bv16)
    requires And16(x, m) == And16(y, m) && And16(x, n) == And16(y, n)
    ensures And16(x, Or16(m, n)) == And16(y, Or16(m, n))
  {
  }

  lemma {:induction false} LowBitsDecide(x: bv16, y: bv16, k: nat)
    requires k <= 16 && forall i :: 0 <= i < k ==> Bit16(x, i) == Bit16(y, i)
    ensures And16(x, Below(k)) == And16(y, Below(k))
  {
    hide Mask16, Below, Bit16, And16, Or16;
    if k == 0 {
      AllOrNoBits(x);
      AllOrNoBits(y);
    } else {
      LowBitsDecide(x, y, k - 1);
      BelowNext(k - 1);
      MaskedBit(x, k - 1);
      MaskedBit(y, k - 1);
      MaskUnion(x, y, Below(k - 1), Mask16(k - 1));
    }
  }

  lemma AllOrNoBits(x: bv16)
    ensures And16(x, Below(0)) == 0 && And16(x, Below(16)) == x
  {
  }

  lemma BitsDecide(x: bv16, y: bv16)
    requires forall i :: 0 <= i < 16 ==> Bit16(x, i) == Bit16(y, i)
    ensures x == y
  {
    hide Bit16, Below, And16;
    LowBitsDecide(x, y, 16);
    AllOrNoBits(x);
    AllOrNoBits(y);
  }

  lemma LowHighBits(low: bv8, high: bv8, i: nat)
    requires i < 16
    ensures Bit16((low as bv16) | ((high as bv16) << 8), i) == if i < 8 then Bit8(low, i) else Bit8(high, i - 8)
  {
  }

  // A halfword's bits are sixteen consecutive bits of the buffer.
  lemma HalfBits(d: seq<bv8>, h: nat, i: nat)
    requires 2 * h + 1 < |d| && i < 16
    ensures Bit16(Half(d, h), i) == DataBit(d, 16 * h + i)
  {
    hide Bit16, Bit8;
    LowHighBits(d[2 * h], d[2 * h + 1], i);
    assert (16 * h + i) / 8 == if i < 8 then 2 * h else 2 * h + 1;
    assert (16 * h + i) % 8 == if i < 8 then i else i - 8;
  }

  // How many bits of column i differ in the first m halfwords.
  function ColumnFlips(d: seq<bv8>, e: seq<bv8>, i: nat, m: nat): nat
    requires |d| == |e| && i < 16 && 2 * m <= |d|
  {
    if m == 0 then 0
    else ColumnFlips(d, e, i, m - 1) + if Flipped(d, e, 16 * (m - 1) + i) then 1 else 0
  }

  lemma {:induction false} ColumnParity(d: seq<bv8>, e: seq<bv8>, i: nat, m: nat)
    requires Buffer(d) && |d| == |e| && i < 16 && 2 * m <= |d|
    ensures Bit16(XorHalves(Halves(d)[..m]), i) != Bit16(XorHalves(Halves(e)[..m]), i)
      <==> ColumnFlips(d, e, i, m) % 2 == 1
  {
    hide Bit16, Xor16, Half, DataBit;
    if m > 0 {
      var x, y := Halves(d), Halves(e);
      ColumnParity(d, e, i, m - 1);
      HalfBits(d, m - 1, i);
      HalfBits(e, m - 1, i);
      BitOfXor(XorHalves(x[..m - 1]), x[m - 1], i);
      BitOfXor(XorHalves(y[..m - 1]), y[m - 1], i);
      assert x[..m][..m - 1] == x[..m - 1];
      assert y[..m][..m - 1] == y[..m - 1];
    }
  }

  ghost predicate EvenColumns(d: seq<bv8>, e: seq<bv8>)
    requires Buffer(d) && |d| == |e|
  {
    forall i :: 0 <= i < 16 ==> ColumnFlips(d, e, i, |d| / 2) % 2 == 0
  }

  // Exact detection power: a change of the data leaves the checksum alone if and only if it flips an even
  // number of bits in every column.
  lemma AcceptedIffEvenColumns(d: seq<bv8>, e: seq<bv8>)
    requires Buffer(d) && |d| == |e|
    ensures Sum(d) == Sum(e) <==> EvenColumns(d, e)
  {
    hide Bit16, Sum, XorHalves, Halves, ColumnFlips;
    var m := |d| / 2;
    assert Halves(d)[..m] == Halves(d) && Halves(e)[..m] == Halves(e);
    SameSum(d, e);
    forall i | 0 <= i < 16
      ensures Bit16(XorHalves(Halves(d)), i) == Bit16(XorHalves(Halves(e)), i) <==>
              ColumnFlips(d, e, i, m) % 2 == 0
    {
      ColumnParity(d, e, i, m);
    }
    if EvenColumns(d, e) {
      BitsDecide(XorHalves(Halves(d)), XorHalves(Halves(e)));
    }
  }

  // A buffer of the same length with no bit set; flips against it are the bits that are set.
  function Zeros(n: nat): (d: seq<bv8>)
    ensures |d| == n
  {
    seq(n, _ => 0)
  }

  // How many bits of column i are set.
  function ColumnOnes(d: seq<bv8>, i: nat): nat
    requires Buffer(d) && i < 16
  {
    ColumnFlips(d, Zeros(|d|), i, |d| / 2)
  }

  lemma {:induction false} XorOfZeros(n: nat, m: nat)
    requires n % 4 == 0 && 2 * m <= n
    ensures XorHalves(Halves(Zeros(n))[..m]) == 0
  {
    if m > 0 {
      XorOfZeros(n, m - 1);
      var hs := Halves(Zeros(n));
      assert hs[..m][..m - 1] == hs[..m - 1];
    }
  }

  lemma NoBits(i: nat)
    requires i < 16
    ensures !Bit16(0, i)
  {
  }

  lemma RotatedBit(x: bv16, i: nat)
    requires i < 16
    ensures Bit16(Rotl16(x), (i + 1) % 16) == Bit16(x, i)
  {
  }

  // The sum bit by bit, straight from the bits of the data: bit i + 1 (bit 0 for i = 15) says whether column i has an
  // odd number of set bits, turned over where the pattern has a bit.
  lemma SumBits(d: seq<bv8>, i: nat)
    requires Buffer(d) && i < 16
    ensures Bit16(Sum(d), (i + 1) % 16) <==> (ColumnOnes(d, i) % 2 == 1) != Bit16(0xAF76, i)
  {
    hide Bit16, Sum, XorHalves, Halves, ColumnFlips, Rotl16, Xor16;
    var m, x := |d| / 2, XorHalves(Halves(d));
    assert Halves(d)[..m] == Halves(d);
    ClosedForm(d);
    ColumnParity(d, Zeros(|d|), i, m);
    XorOfZeros(|d|, m);
    NoBits(i);
    RotatedBit(x ^ 0xAF76, i);
    assert x ^ 0xAF76 == Xor16(x, 0xAF76) by { PatternXor(x); }
    BitOfXor(x, 0xAF76, i);
  }

  lemma PatternXor(x: bv16)
    ensures x ^ 0xAF76 == Xor16(x, 0xAF76)
  {
  }

  lemma {:induction false} NoFlips(d: seq<bv8>, e: seq<bv8>, i: nat, m: nat)
    requires |d| == |e| && i < 16 && 2 * m <= |d|
    requires forall h :: 0 <= h < m ==> !Flipped(d, e, 16 * h + i)
    ensures ColumnFlips(d, e, i, m) == 0
  {
    hide Flipped;
    if m > 0 {
      NoFlips(d, e, i, m - 1);
    }
  }

  lemma {:induction false} OneFlip(d: seq<bv8>, e: seq<bv8>, i: nat, m: nat, at: nat)
    requires |d| == |e| && i < 16 && 2 * m <= |d| && at < m
    requires forall h :: 0 <= h < m ==> (Flipped(d, e, 16 * h + i) <==> h == at)
    ensures ColumnFlips(d, e, i, m) == 1
  {
    hide Flipped;
    if at == m - 1 {
      NoFlips(d, e, i, m - 1);
    } else {
      OneFlip(d, e, i, m - 1, at);
    }
  }

  lemma OnlyOneInColumn(d: seq<bv8>, e: seq<bv8>, start: nat, i: nat, at: nat, h: nat)
    requires |d| == |e| && i < 16 && 16 * at + i < 8 * |d| && 16 * h + i < 8 * |d|
    requires Flipped(d, e, 16 * at + i)
    requires forall q :: 0 <= q < 8 * |d| && Flipped(d, e, q) ==> start <= q < start + 16
    ensures Flipped(d, e, 16 * h + i) <==> h == at
  {
    hide Flipped;
  }

  // A burst: whatever is flipped within sixteen consecutive bits, if anything is, the checksum changes.
  lemma BurstDetected(d: seq<bv8>, e: seq<bv8>, start: nat, p: nat)
    requires Buffer(d) && |d| == |e|
    requires p < 8 * |d| && Flipped(d, e, p)
    requires forall q :: 0 <= q < 8 * |d| && Flipped(d, e, q) ==> start <= q < start + 16
    ensures Sum(d) != Sum(e)
  {
    hide Flipped, Sum, ColumnFlips;
    var i, at, m := p % 16, p / 16, |d| / 2;
    assert p == 16 * at + i && at < m;
    forall h | 0 <= h < m
      ensures Flipped(d, e, 16 * h + i) <==> h == at
    {
      OnlyOneInColumn(d, e, start, i, at, h);
    }
    OneFlip(d, e, i, m, at);
    assert ColumnFlips(d, e, i, m) % 2 == 1;
    AcceptedIffEvenColumns(d, e);
  }

  // How many of the first n bits differ.
  function Flips(d: seq<bv8>, e: seq<bv8>, n: nat): nat
    requires |d| == |e| && n <= 8 * |d|
  {
    if n == 0 then 0 else Flips(d, e, n - 1) + if Flipped(d, e, n - 1) then 1 else 0
  }

  // How many bits of the first k columns differ in the first m halfwords.
  function ColumnsFlips(d: seq<bv8>, e: seq<bv8>, k: nat, m: nat): nat
    requires |d| == |e| && k <= 16 && 2 * m <= |d|
  {
    if k == 0 then 0 else ColumnsFlips(d, e, k - 1, m) + ColumnFlips(d, e, k - 1, m)
  }

  lemma {:induction false} NextHalf(d: seq<bv8>, e: seq<bv8>, k: nat, m: nat)
    requires |d| == |e| && k <= 16 && 2 * m + 2 <= |d|
    ensures ColumnsFlips(d, e, k, m + 1) - ColumnsFlips(d, e, k, m) == Flips(d, e, 16 * m + k) - Flips(d, e, 16 * m)
  {
    hide Flipped;
    if k > 0 {
      NextHalf(d, e, k - 1, m);
    }
  }

  lemma {:induction false} NothingBeforeFirst(d: seq<bv8>, e: seq<bv8>, k: nat)
    requires |d| == |e| && k <= 16
    ensures ColumnsFlips(d, e, k, 0) == 0
  {
    if k > 0 {
      NothingBeforeFirst(d, e, k - 1);
    }
  }

  // Counting by position and counting by column agree.
  lemma {:induction false} FlipsByColumn(d: seq<bv8>, e: seq<bv8>, m: nat)
    requires |d| == |e| && 2 * m <= |d|
    ensures Flips(d, e, 16 * m) == ColumnsFlips(d, e, 16, m)
  {
    hide Flipped;
    if m == 0 {
      NothingBeforeFirst(d, e, 16);
    } else {
      FlipsByColumn(d, e, m - 1);
      NextHalf(d, e, 16, m - 1);
    }
  }

  lemma {:induction false} EvenSum(d: seq<bv8>, e: seq<bv8>, k: nat)
    requires Buffer(d) && |d| == |e| && k <= 16 && EvenColumns(d, e)
    ensures ColumnsFlips(d, e, k, |d| / 2) % 2 == 0
  {
    hide ColumnFlips;
    if k > 0 {
      EvenSum(d, e, k - 1);
    }
  }

  // Every odd number of flipped bits changes the checksum.
  lemma OddFlipsDetected(d: seq<bv8>, e: seq<bv8>)
    requires Buffer(d) && |d| == |e| && Flips(d, e, 8 * |d|) % 2 == 1
    ensures Sum(d) != Sum(e)
  {
    hide Sum, Flips, ColumnsFlips;
    FlipsByColumn(d, e, |d| / 2);
    AcceptedIffEvenColumns(d, e);
    if EvenColumns(d, e) {
      EvenSum(d, e, 16);
    }
  }

  lemma XorCommutes(x: bv16, y: bv16)
    ensures Xor16(x, y) == Xor16(y, x)
  {
  }

  lemma {:induction false} XorWithout(hs: seq<bv16>, i: nat)
    requires i < |hs|
    ensures XorHalves(hs) == Xor16(XorHalves(hs[..i] + hs[i + 1..]), hs[i])
    decreases |hs|
  {
    hide Xor16;
    var last := |hs| - 1;
    if i == last {
      assert hs[..i] + hs[i + 1..] == hs[..last];
    } else {
      var rest := hs[..i] + hs[i + 1..];
      XorWithout(hs[..last], i);
      assert hs[..last][..i] + hs[..last][i + 1..] == rest[..last - 1];
      var x := XorHalves(rest[..last - 1]);
      Xor16Associates(x, hs[i], hs[last]);
      XorCommutes(hs[i], hs[last]);
      Xor16Associates(x, hs[last], hs[i]);
    }
  }

  lemma RemoveOne(gs: seq<bv16>, i: nat)
    requires i < |gs|
    ensures multiset(gs[..i] + gs[i + 1..]) == multiset(gs) - multiset{gs[i]}
  {
    assert gs == (gs[..i] + [gs[i]]) + gs[i + 1..];
  }

  lemma {:induction false} XorOfPermutation(hs: seq<bv16>, gs: seq<bv16>)
    requires multiset(hs) == multiset(gs)
    ensures XorHalves(hs) == XorHalves(gs)
    decreases |hs|
  {
    hide Xor16;
    assert |hs| == |multiset(hs)| == |multiset(gs)| == |gs|;
    if hs != [] {
      var last := |hs| - 1;
      assert hs == hs[..last] + [hs[last]];
      assert hs[last] in multiset(gs);
      var i :| 0 <= i < |gs| && gs[i] == hs[last];
      RemoveOne(gs, i);
      XorWithout(gs, i);
      XorOfPermutation(hs[..last], gs[..i] + gs[i + 1..]);
    }
  }

  // What the checksum cannot see: any rearrangement of the halfwords passes.
  lemma PermutationAccepted(d: seq<bv8>, e: seq<bv8>)
    requires Buffer(d) && Buffer(e) && multiset(Halves(d)) == multiset(Halves(e))
    ensures Sum(d) == Sum(e)
  {
    hide Sum, Halves, XorHalves;
    XorOfPermutation(Halves(d), Halves(e));
    SameSum(d, e);
  }
}
