/** `EventLoopPool::schedule` (crates/dispatch/src/lib.rs): least-loaded placement
    by a scan that starts at a rotating offset. */
module Placement {
  import opened Wrappers

  const USIZE: nat := 0x1_0000_0000_0000_0000

  /** The loop visited at `offset`: `(scan_start + scan_offset) % loop_count`, the
      addition wrapping as it does in release builds. */
  function Slot(start: nat, offset: nat, n: nat): (i: nat)
    requires n > 0
    ensures i < n
  {
    (start + offset) % USIZE % n
  }

  // ----- The rotation visits each loop once

  predicate Visited(start: nat, i: nat, n: nat)
    requires n > 0
  {
    exists k :: 0 <= k < n && Slot(start, k, n) == i
  }

  predicate VisitsEachOnce(start: nat, n: nat)
    requires n > 0
  {
    && (forall i :: 0 <= i < n ==> Visited(start, i, n))
    && (forall j, k :: 0 <= j < k < n ==> Slot(start, j, n) != Slot(start, k, n))
  }

  /** The addition never wraps, or wrapping does not disturb residues. */
  predicate Rotates(start: nat, n: nat)
    requires n > 0
  {
    start + n <= USIZE || USIZE % n == 0
  }

  lemma {:induction false} ModShift(x: nat, q: nat, n: nat)
    requires n > 0
    ensures (x + q * n) % n == x % n
  {
    if q > 0 {
      ModShift(x, q - 1, n);
      assert x + q * n == (x + (q - 1) * n) + n;
      ModAddOne(x + (q - 1) * n, n);
    }
  }

  lemma {:induction false} ModAddOne(x: nat, n: nat)
    requires n > 0
    ensures (x + n) % n == x % n
  {
    var q, r := x / n, x % n;
    assert x + n == (q + 1) * n + r;
    ModUnique(x + n, q + 1, r, n);
  }

  lemma {:induction false} ModUnique(x: nat, q: nat, r: nat, n: nat)
    requires n > 0 && r < n && x == q * n + r
    ensures x % n == r
  {
    MulMonotone(x / n, q, n);
    MulMonotone(q, x / n, n);
  }

  lemma {:induction false} MulMonotone(a: int, b: int, n: nat)
    ensures a < b ==> (a + 1) * n <= b * n
  {
  }

  lemma {:induction false} ModDistinct(a: nat, b: nat, n: nat)
    requires n > 0 && a < b < a + n
    ensures a % n != b % n
  {
    MulMonotone(a / n, b / n, n);
    MulMonotone(b / n, a / n, n);
  }

  /** Within the rotation condition the slots are plain residues. */
  lemma {:induction false} SlotIsResidue(start: nat, offset: nat, n: nat)
    requires n > 0 && offset < n && start < USIZE && Rotates(start, n)
    ensures Slot(start, offset, n) == (start + offset) % n
  {
    var x := start + offset;
    if x >= USIZE {
      var m, q := USIZE / n, x / USIZE;
      assert USIZE == m * n;
      assert x == q * USIZE + x % USIZE;
      assert q * USIZE == (q * m) * n;
      ModShift(x % USIZE, q * m, n);
    }
  }

  lemma {:induction false} FirstSlot(start: nat, n: nat)
    requires n > 0 && start < USIZE
    ensures Slot(start, 0, n) == start % n
  {
  }

  lemma {:induction false} SlotOf(start: nat, i: nat, n: nat) returns (k: nat)
    requires n > 0 && i < n && start < USIZE && Rotates(start, n)
    ensures k < n && Slot(start, k, n) == i
  {
    hide Slot, Rotates;
    var r := start % n;
    k := if i >= r then i - r else i + n - r;
    SlotIsResidue(start, k, n);
    var q := start / n;
    if i >= r {
      assert start + k == q * n + i;
      ModUnique(start + k, q, i, n);
    } else {
      assert start + k == (q + 1) * n + i;
      ModUnique(start + k, q + 1, i, n);
    }
  }

  /** Exactly when the rotation condition holds does a scan see every loop once;
      past it some loop is read twice and another not at all. */
  lemma {:induction false} RotationVisitsEachOnce(start: nat, n: nat)
    requires 0 < n < USIZE && start < USIZE
    ensures VisitsEachOnce(start, n) <==> Rotates(start, n)
  {
    if Rotates(start, n) {
      forall i | 0 <= i < n ensures Visited(start, i, n) {
        var k := SlotOf(start, i, n);
      }
      forall j, k | 0 <= j < k < n ensures Slot(start, j, n) != Slot(start, k, n) {
        SlotIsResidue(start, j, n);
        SlotIsResidue(start, k, n);
        ModDistinct(start + j, start + k, n);
      }
    } else {
      var j, k := RepeatedSlot(start, n);
    }
  }

  lemma {:induction false} RepeatedSlot(start: nat, n: nat) returns (j: nat, k: nat)
    requires 0 < n < USIZE && start < USIZE && !Rotates(start, n)
    ensures j < k < n && Slot(start, j, n) == Slot(start, k, n)
  {
    var w, r, m := USIZE - start, USIZE % n, USIZE / n;
    hide Rotates, Slot;
    if r <= n - w {
      j, k := w - 1, w + r - 1;
      SlotIs(start, j, n, m * n + (r - 1), m, r - 1);
      SlotIs(start, k, n, r - 1, 0, r - 1);
    } else {
      j, k := n - 1 - r, n - 1;
      SlotIs(start, j, n, m * n + (n - 1 - w), m, n - 1 - w);
      SlotIs(start, k, n, n - 1 - w, 0, n - 1 - w);
    }
  }

  lemma {:induction false} SlotIs(start: nat, offset: nat, n: nat, wrapped: nat, q: nat, r: nat)
    requires r < n && wrapped < USIZE && wrapped == q * n + r
    requires start + offset == wrapped || start + offset == USIZE + wrapped
    ensures Slot(start, offset, n) == r
  {
    ModUnique(wrapped, q, r, n);
  }

  function Pow2(e: nat): (p: nat)
    ensures p > 0
  {
    if e == 0 then 1 else 2 * Pow2(e - 1)
  }

  lemma {:induction false} Pow2Adds(a: nat, b: nat)
    ensures Pow2(a + b) == Pow2(a) * Pow2(b)
  {
    if a > 0 {
      Pow2Adds(a - 1, b);
    }
  }

  /** Powers of two rotate for every starting value, wrapped or not. */
  lemma {:induction false} PowersOfTwoAlwaysRotate(start: nat, e: nat)
    requires e <= 64
    ensures Rotates(start, Pow2(e))
  {
    Pow2Of64();
    hide Pow2;
    Pow2Adds(64 - e, e);
    ModUnique(USIZE, Pow2(64 - e), 0, Pow2(e));
  }

  lemma {:induction false} Pow2Of64()
    ensures Pow2(64) == USIZE
  {
    assert Pow2(4) == 16;
    hide Pow2;
    Pow2Squares(4, 0x10);
    Pow2Squares(8, 0x100);
    Pow2Squares(16, 0x1_0000);
    Pow2Squares(32, 0x1_0000_0000);
  }

  lemma {:induction false} Pow2Squares(e: nat, p: nat)
    requires Pow2(e) == p
    ensures Pow2(2 * e) == p * p
  {
    Pow2Adds(e, e);
  }

  // ----- One scan over a fixed load vector

  /** `k` is the offset of the first minimum in rotation order. */
  predicate FirstMinimum(loads: seq<nat>, start: nat, k: nat)
    requires loads != []
  {
    var n := |loads|;
    && k < n
    && (forall j :: 0 <= j < n ==> loads[Slot(start, k, n)] <= loads[Slot(start, j, n)])
    && (forall j :: 0 <= j < k ==> loads[Slot(start, k, n)] < loads[Slot(start, j, n)])
  }

  /** The early-exit scan finds the first minimum in rotation order; where the
      rotation is sound that is a least-loaded loop of the whole pool. */
  method Scan(loads: seq<nat>, start: nat) returns (chosen: nat)
    requires loads != [] && start < USIZE
    ensures chosen < |loads|
    ensures exists k :: 0 <= k < |loads| && chosen == Slot(start, k, |loads|) && FirstMinimum(loads, start, k)
    ensures Rotates(start, |loads|) ==> forall i :: 0 <= i < |loads| ==> loads[chosen] <= loads[i]
  {
    var n := |loads|;
    chosen := Slot(start, 0, n);
    var lowest := loads[chosen];
    ghost var at := 0;
    var offset := 1;
    while offset < n
      invariant 1 <= offset <= n && 0 <= at < offset
      invariant chosen == Slot(start, at, n) && lowest == loads[chosen]
      invariant forall j :: 0 <= j < offset ==> lowest <= loads[Slot(start, j, n)]
      invariant forall j :: 0 <= j < at ==> lowest < loads[Slot(start, j, n)]
    {
      if lowest == 0 { break; }
      var candidate := Slot(start, offset, n);
      var load := loads[candidate];
      if load < lowest {
        chosen := candidate;
        lowest := load;
        at := offset;
      }
      offset := offset + 1;
    }
    assert FirstMinimum(loads, start, at);
    if Rotates(start, n) {
      forall i | 0 <= i < n ensures loads[chosen] <= loads[i] {
        var k := SlotOf(start, i, n);
      }
    }
  }

  /** The pool as the source keeps it: one gauge per loop and the rotating start. */
  class EventLoopPool {
    var loads: seq<nat>
    var scanStartIndex: nat

    ghost predicate Valid()
      reads this
    {
      loads != [] && scanStartIndex < USIZE
    }

    constructor (size: nat)
      requires size > 0
      ensures Valid() && loads == seq(size, _ => 0) && scanStartIndex == 0
    {
      loads := seq(size, _ => 0);
      scanStartIndex := 0;
    }

    /** `start`: a pool of no loops is refused at once. */
    static method Start(size: nat) returns (pool: Option<EventLoopPool>)
      ensures pool.None? <==> size == 0
      ensures pool.Some? ==> fresh(pool.value) && pool.value.Valid() && pool.value.loads == seq(size, _ => 0)
    {
      if size == 0 { return None; }
      var started := new EventLoopPool(size);
      pool := Some(started);
    }

    /** One undisturbed placement: the start advances, wrapping, and exactly the
        chosen loop's gauge goes up. */
    method Schedule() returns (chosen: nat)
      requires Valid()
      modifies this
      ensures Valid() && scanStartIndex == (old(scanStartIndex) + 1) % USIZE
      ensures chosen < |old(loads)| && loads == old(loads)[chosen := old(loads)[chosen] + 1]
      ensures exists k :: FirstMinimum(old(loads), old(scanStartIndex), k) && chosen == Slot(old(scanStartIndex), k, |old(loads)|)
      ensures Rotates(old(scanStartIndex), |old(loads)|) ==>
                forall i :: 0 <= i < |old(loads)| ==> old(loads)[chosen] <= old(loads)[i]
      ensures old(loads)[Slot(old(scanStartIndex), 0, |old(loads)|)] == 0 ==>
                chosen == Slot(old(scanStartIndex), 0, |old(loads)|)
    {
      var start := scanStartIndex;
      scanStartIndex := (scanStartIndex + 1) % USIZE;
      chosen := Scan(loads, start);
      loads := loads[chosen := loads[chosen] + 1];
    }
  }
}
