/** Ring buffers: a stream position and the slot it is kept in. */
module Rings {
  import opened Samples

  /** What masking with `size - 1` leaves when `size` is a power of two, also for negative
      positions. */
  function Slot(size: nat, k: int): (i: int)
    requires size > 0
    ensures 0 <= i < size
  {
    k % size
  }

  lemma SlotStep(size: nat, k: int, j: int)
    requires size > 0
    ensures Slot(size, Slot(size, k) + j) == Slot(size, k + j)
  {
    var m := k % size + j;
    assert k == size * (k / size) + k % size && m == size * (m / size) + m % size;
    Spread(size, k / size, m / size);
    SlotIs(size, k + j, k / size + m / size, m % size);
  }

  lemma SlotDistance(size: nat, w: int, r: int)
    requires 0 <= w - r < size
    ensures Slot(size, Slot(size, w) - Slot(size, r)) == w - r
  {
    assert w == size * (w / size) + w % size && r == size * (r / size) + r % size;
    Spread(size, r / size - w / size, w / size);
    SlotIs(size, w % size - r % size, r / size - w / size, w - r);
  }

  lemma SlotsDiffer(size: nat, j: int, k: int)
    requires j < k < j + size
    ensures Slot(size, j) != Slot(size, k)
  {
    assert j == size * (j / size) + j % size && k == size * (k / size) + k % size;
    ProductStep(size, j / size, k / size);
    ProductStep(size, k / size, j / size);
  }

  lemma SlotIs(size: nat, a: int, t: int, r: int)
    requires 0 <= r < size && a == size * t + r
    ensures Slot(size, a) == r
  {
    assert a == size * (a / size) + a % size;
    ProductStep(size, t, a / size);
    ProductStep(size, a / size, t);
  }

  lemma Spread(n: nat, x: int, y: int)
    ensures n * (x + y) == n * x + n * y
  {
  }
}
