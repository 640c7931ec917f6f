/** Numbers cut into consecutive blocks of equal width, the way workers are numbered core by core. */
module Blocks {
  import opened Arithmetic

  function BlockOf(id: int, width: int): int
    requires 1 <= width
  {
    id / width
  }

  lemma BlockMember(block: int, i: int, width: int)
    requires 1 <= width && 0 <= i < width
    ensures BlockOf(block * width + i, width) == block
    ensures (block * width + i) % width == i
  {
    var id := block * width + i;
    var q, r := id / width, id % width;
    assert (q - block) * width == i - r;
    if q > block {
      AtLeastOnce(q - block, width);
    } else if q < block {
      AtLeastOnce(block - q, width);
    }
  }

  // The first numbers of consecutive blocks, and the last block that fits.
  lemma BlockFits(block: nat, blocks: nat, width: nat)
    requires block < blocks
    ensures block * width + width == (block + 1) * width <= blocks * width
  {
    assert blocks * width == (block + 1) * width + (blocks - block - 1) * width;
  }

  // Every number below the total lies in one of the blocks.
  lemma BlockExists(id: nat, blocks: nat, width: nat)
    requires 1 <= width && id < blocks * width
    ensures 0 <= BlockOf(id, width) < blocks
    ensures BlockOf(id, width) * width <= id < BlockOf(id, width) * width + width
  {
    var block := BlockOf(id, width);
    assert id == block * width + id % width;
    if block >= blocks {
      MulMonotone(blocks, block, width);
    }
  }
}
