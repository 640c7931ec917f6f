/**
 The checksum of a work item's data: what it computes, in closed form over 16-bit halfwords, and exactly which
 changes of the data it notices. Buffers are of any length that is a multiple of four bytes; words are read
 from them low byte first.
 */
module Checksum {

  const PATTERN: bv32 := 0x0000AF76

  predicate Buffer(d: seq<bv8>) { |d| % 4 == 0 }

  function Word(d: seq<bv8>, i: nat): bv32
    requires 4 * i + 3 < |d|
  {
    (d[4 * i] as bv32) | ((d[4 * i + 1] as bv32) << 8) | ((d[4 * i + 2] as bv32) << 16) | ((d[4 * i + 3] as bv32) << 24)
  }

  function Half(d: seq<bv8>, h: nat): bv16
    requires 2 * h + 1 < |d|
  {
    (d[2 * h] as bv16) | ((d[2 * h + 1] as bv16) << 8)
  }

  function Words(d: seq<bv8>): (ws: seq<bv32>)
    requires Buffer(d)
    ensures |ws| == |d| / 4
  {
    seq(|d| / 4, i requires 0 <= i < |d| / 4 => Word(d, i))
  }

  function Halves(d: seq<bv8>): (hs: seq<bv16>)
    requires Buffer(d)
    ensures |hs| == |d| / 2
  {
    seq(|d| / 2, h requires 0 <= h < |d| / 2 => Half(d, h))
  }

  function Xor32(x: bv32, y: bv32): bv32 { x ^ y }

  function Xor16(x: bv16, y: bv16): bv16 { x ^ y }

  function XorWords(ws: seq<bv32>): bv32 {
    if ws == [] then 0 else Xor32(XorWords(ws[..|ws| - 1]), ws[|ws| - 1])
  }

  function XorHalves(hs: seq<bv16>): bv16 {
    if hs == [] then 0 else Xor16(XorHalves(hs[..|hs| - 1]), hs[|hs| - 1])
  }

  function Rotl32(x: bv32): bv32 { (x << 1) | (x >> 31) }

  function Rotl16(x: bv16): bv16 { (x << 1) | (x >> 15) }

  function Fold(x: bv32): bv16 { (0xFFFF & ((x >> 16) ^ x)) as bv16 }

  // What is done with the XOR of the words: pattern, 32-bit rotation, fold.
  function Finish(x: bv32): bv16 { Fold(Rotl32(x ^ PATTERN)) }

  // The same on halfwords: pattern, 16-bit rotation.
  function FinishHalf(x: bv16): bv16 { Rotl16(x ^ 0xAF76) }

  // The checksum the program computes.
  function Sum(d: seq<bv8>): bv16
    requires Buffer(d)
  {
    Finish(XorWords(Words(d)))
  }

  lemma FoldXors(x: bv32, y: bv32)
    ensures Fold(Xor32(x, y)) == Xor16(Fold(x), Fold(y))
    ensures Fold(0) == 0
  {
  }

  // Folding turns the 32-bit rotation into the 16-bit one.
  lemma FoldRotates(x: bv32)
    ensures Fold(Rotl32(x)) == Rotl16(Fold(x))
    ensures Finish(x) == FinishHalf(Fold(x))
  {
  }

  lemma FoldWord(d: seq<bv8>, i: nat)
    requires 4 * i + 3 < |d|
    ensures Fold(Word(d, i)) == Xor16(Half(d, 2 * i), Half(d, 2 * i + 1))
  {
  }

  lemma Xor16Associates(x: bv16, y: bv16, z: bv16)
    ensures Xor16(Xor16(x, y), z) == Xor16(x, Xor16(y, z))
  {
  }

  lemma XorTwo(hs: seq<bv16>, a: bv16, b: bv16)
    ensures XorHalves(hs + [a, b]) == Xor16(XorHalves(hs), Xor16(a, b))
  {
    hide Xor16;
    assert (hs + [a, b])[..|hs| + 1] == hs + [a];
    assert (hs + [a])[..|hs|] == hs;
    Xor16Associates(XorHalves(hs), a, b);
  }

  lemma {:induction false} FoldWords(d: seq<bv8>, n: nat)
    requires Buffer(d) && n <= |d| / 4
    ensures Fold(XorWords(Words(d)[..n])) == XorHalves(Halves(d)[..2 * n])
  {
    hide Xor16, Xor32, Fold, Word, Half;
    if n == 0 {
      FoldXors(0, 0);
    } else {
      var ws, hs := Words(d), Halves(d);
      var h := 2 * (n - 1);
      FoldWords(d, n - 1);
      FoldWord(d, n - 1);
      FoldXors(XorWords(ws[..n - 1]), ws[n - 1]);
      assert ws[..n][..n - 1] == ws[..n - 1];
      assert hs[..2 * n] == hs[..h] + [hs[h], hs[h + 1]];
      XorTwo(hs[..h], hs[h], hs[h + 1]);
    }
  }

  // Closed form: the 16-bit rotation of the XOR of all halfwords and the pattern.
  lemma ClosedForm(d: seq<bv8>)
    requires Buffer(d)
    ensures Sum(d) == FinishHalf(XorHalves(Halves(d)))
  {
    hide Finish, FinishHalf, Fold, Rotl32, Rotl16, Word, Half;
    FoldRotates(XorWords(Words(d)));
    FoldWords(d, |d| / 4);
    assert Words(d)[..|d| / 4] == Words(d);
    assert Halves(d)[..|d| / 2] == Halves(d);
  }

  function UndoFinishHalf(y: bv16): bv16 { ((y >> 1) | (y << 15)) ^ 0xAF76 }

  lemma FinishUndone(x: bv16)
    ensures UndoFinishHalf(FinishHalf(x)) == x
  {
  }

  // A changed buffer passes for the original one exactly when their halfwords have the same XOR.
  lemma SameSum(d: seq<bv8>, e: seq<bv8>)
    requires Buffer(d) && Buffer(e)
    ensures Sum(d) == Sum(e) <==> XorHalves(Halves(d)) == XorHalves(Halves(e))
  {
    hide Sum, FinishHalf, UndoFinishHalf, XorHalves, Halves;
    ClosedForm(d);
    ClosedForm(e);
    FinishUndone(XorHalves(Halves(d)));
    FinishUndone(XorHalves(Halves(e)));
  }
}
