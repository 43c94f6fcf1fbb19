/**
 * Row-major indexing of a square `size` x `size` grid: cell (x, y) lives at
 * index y * size + x. Both the height generator's random draws and the brick
 * texture's pixel array are laid out this way.
 */
module RowMajor {

  /** Multiplying by a non-negative factor preserves order. */
  lemma MulMonotone(a: nat, b: nat, c: nat)
    requires a <= b
    ensures a * c <= b * c
  {
    assert b * c == a * c + (b - a) * c;
  }

  /** Cell (x, y) of a size x size grid has an index below size * size. */
  lemma IndexInRange(x: nat, y: nat, size: nat)
    requires x < size && y < size
    ensures y * size + x < size * size
  {
    MulMonotone(y + 1, size, size);
    assert (y + 1) * size == y * size + size;
  }

  /** Two cells with the same index are the same cell: every index is written at most once. */
  lemma IndexInjective(x1: nat, y1: nat, x2: nat, y2: nat, size: nat)
    requires x1 < size && y1 < size && x2 < size && y2 < size
    requires y1 * size + x1 == y2 * size + x2
    ensures x1 == x2 && y1 == y2
  {
    if y1 < y2 {
      MulMonotone(y1 + 1, y2, size);
      assert false;
    } else if y2 < y1 {
      MulMonotone(y2 + 1, y1, size);
      assert false;
    }
  }

  /** Every index below size * size is the index of the cell (i % size, i / size). */
  lemma IndexCovers(i: nat, size: nat)
    requires i < size * size
    ensures size > 0
    ensures i % size < size && i / size < size
    ensures (i / size) * size + i % size == i
  {
    if size == 0 {
      assert false;
    }
    var q, r := i / size, i % size;
    assert q * size + r == i;
    if q >= size {
      MulMonotone(size, q, size);
      assert false;
    }
  }

  /** Cell (x, y) is recovered from its index: x is the remainder and y the quotient by size. */
  lemma IndexDecomposes(x: nat, y: nat, size: nat)
    requires x < size
    ensures (y * size + x) / size == y && (y * size + x) % size == x
  {
    var i := y * size + x;
    var q, r := i / size, i % size;
    assert q * size + r == i;
    if q < y {
      MulMonotone(q + 1, y, size);
      assert false;
    } else if q > y {
      MulMonotone(y + 1, q, size);
      assert false;
    }
  }
}

