/** Whole runs of the pool: any number of placements under way at once, completions at
    any moment, even between the reads of a scan. */
module PlacementRuns {
  import opened Wrappers
  import opened Placement
  import opened Sums

  /** A scan's locals between two reads. `before` is the loads when it began with the
      placements made since, and `overtaken` is how many those are. */
  datatype Scanning = Scanning(start: nat, next: nat, chosen: nat, lowest: nat, before: seq<nat>, overtaken: nat)

  /** `scans` are the placements under way. `peak` is the highest total in flight reached
      so far, completions that land during a scan being counted after the placement it
      serves; `overtaken` is the most placements that landed during one scan. */
  datatype Pool = Pool(loads: seq<nat>, scanStart: nat, scans: seq<Scanning>, peak: nat, placed: nat, overtaken: nat)

  datatype Step =
    | Begin            // fetch_add on the scan start, first loop read
    | Read(k: nat)     // one more turn of the scan loop of placement `k`
    | Place(k: nat)    // the loop it has chosen: its gauge goes up
    | Complete(i: nat) // some request of loop `i` completes

  /** The other scans after a placement on loop `c`. */
  function Credited(scans: seq<Scanning>, c: nat): seq<Scanning> {
    seq(|scans|, k requires 0 <= k < |scans| => Credit(scans[k], c))
  }

  function Credit(s: Scanning, c: nat): Scanning {
    s.(before := if c < |s.before| then s.before[c := s.before[c] + 1] else s.before, overtaken := s.overtaken + 1)
  }

  function Max(a: nat, b: nat): nat {
    if a > b then a else b
  }

  /** The scan after one more read. */
  function Seen(s: Scanning, candidate: nat, load: nat): Scanning {
    (if load < s.lowest then s.(chosen := candidate, lowest := load) else s).(next := s.next + 1)
  }

  function Without(scans: seq<Scanning>, k: nat): seq<Scanning>
    requires k < |scans|
  {
    scans[..k] + scans[k + 1..]
  }

  /** The pool after a step; `None` when the step is not possible. */
  function Next(p: Pool, step: Step): Option<Pool>
    requires p.loads != []
  {
    var n := |p.loads|;
    match step
    case Begin =>
      var chosen := Slot(p.scanStart, 0, n);
      Some(p.(scanStart := (p.scanStart + 1) % USIZE,
              scans := p.scans + [Scanning(p.scanStart, 1, chosen, p.loads[chosen], p.loads, 0)]))
    case Read(k) =>
      if k >= |p.scans| || p.scans[k].next >= n || p.scans[k].lowest == 0 then None
      else
        var s := p.scans[k];
        var candidate := Slot(s.start, s.next, n);
        Some(p.(scans := p.scans[k := Seen(s, candidate, p.loads[candidate])]))
    case Place(k) =>
      if k >= |p.scans| || (p.scans[k].next < n && p.scans[k].lowest != 0) || p.scans[k].chosen >= n then None
      else
        var s := p.scans[k];
        Some(p.(loads := p.loads[s.chosen := p.loads[s.chosen] + 1],
                scans := Credited(Without(p.scans, k), s.chosen),
                peak := Max(p.peak, Sum(s.before) + 1), placed := p.placed + 1,
                overtaken := Max(p.overtaken, s.overtaken)))
    case Complete(i) =>
      if i >= n || p.loads[i] == 0 then None
      else Some(p.(loads := p.loads[i := p.loads[i] - 1]))
  }

  function Run(p: Pool, steps: seq<Step>): (q: Option<Pool>)
    requires p.loads != []
    ensures q.Some? ==> |q.value.loads| == |p.loads|
    decreases |steps|
  {
    if steps == [] then Some(p)
    else
      var q := Next(p, steps[0]);
      if q.None? then None else Run(q.value, steps[1..])
  }

  function IdlePool(n: nat, scanStart: nat): Pool
    requires n > 0
  {
    Pool(seq(n, _ => 0), scanStart, [], 0, 0, 0)
  }

  /** No more than `m` placements are ever under way at once. */
  predicate AtMost(p: Pool, steps: seq<Step>, m: nat)
    requires p.loads != []
    decreases |steps|
  {
    |p.scans| <= m && (steps != [] && Next(p, steps[0]).Some? ==> AtMost(Next(p, steps[0]).value, steps[1..], m))
  }

  // ----- What every step keeps

  /** Rotation stays sound for `budget` more placements. */
  predicate Sound(p: Pool, budget: nat)
    requires p.loads != []
  {
    p.scanStart < USIZE && (USIZE % |p.loads| == 0 || p.scanStart + budget + |p.loads| <= USIZE)
  }

  /** What a scan under way knows: loads have grown only by the placements it was
      credited, the chosen loop carries at most `lowest` and those, and no loop read so far
      was below `lowest`. */
  predicate ScanOk(loads: seq<nat>, s: Scanning)
    requires loads != []
  {
    var n := |loads|;
    && s.start < USIZE && Rotates(s.start, n)
    && |s.before| == n && 1 <= s.next <= n && s.chosen < n
    && (forall i :: 0 <= i < n ==> loads[i] <= s.before[i])
    && loads[s.chosen] <= s.lowest + s.overtaken
    && (forall j :: 0 <= j < s.next ==> s.lowest <= s.before[Slot(s.start, j, n)])
  }

  /** A load is at most the peak divided by the loops, rounded up, and `extra` more. */
  predicate Within(load: nat, n: nat, peak: nat, extra: nat) {
    load <= extra || (load - extra - 1) * n < peak
  }

  predicate Inv(p: Pool) {
    && p.loads != []
    && (forall i :: 0 <= i < |p.loads| ==> Within(p.loads[i], |p.loads|, p.peak, p.overtaken))
    && (forall k :: 0 <= k < |p.scans| ==> ScanOk(p.loads, p.scans[k]))
  }

  predicate Finished(loads: seq<nat>, s: Scanning) {
    s.next == |loads| || s.lowest == 0
  }

  /** A finished scan has found a load no loop was below. */
  lemma {:induction false} ScanFindsFloor(loads: seq<nat>, s: Scanning)
    requires loads != [] && ScanOk(loads, s) && Finished(loads, s)
    ensures forall i :: 0 <= i < |s.before| ==> s.lowest <= s.before[i]
  {
    forall i | 0 <= i < |s.before| ensures s.lowest <= s.before[i] {
      if s.lowest > 0 {
        var k := SlotOf(s.start, i, |loads|);
      }
    }
  }

  lemma {:induction false} WithinSmaller(load: nat, load': nat, n: nat, peak: nat, peak': nat, extra: nat, extra': nat)
    requires Within(load, n, peak, extra) && load' <= load && peak <= peak' && extra <= extra'
    ensures Within(load', n, peak', extra')
  {
    if load' > extra' { MulMonotone(load' - extra' - 2, load - extra - 1, n); }
  }

  lemma {:induction false} PlacedWithin(load: nat, lowest: nat, n: nat, total: nat, peak: nat, overtaken: nat, extra: nat)
    requires load <= lowest + overtaken && overtaken <= extra && lowest * n <= total && total + 1 <= peak
    ensures Within(load + 1, n, peak, extra)
  {
    if load + 1 > extra { MulMonotone(load - extra - 1, lowest, n); }
  }

  lemma {:induction false} ReadOk(loads: seq<nat>, s: Scanning)
    requires loads != [] && ScanOk(loads, s) && s.next < |loads|
    ensures var c := Slot(s.start, s.next, |loads|); ScanOk(loads, Seen(s, c, loads[c]))
  {
    hide Slot;
  }

  lemma {:induction false} CreditOk(loads: seq<nat>, s: Scanning, c: nat)
    requires loads != [] && ScanOk(loads, s) && c < |loads|
    ensures ScanOk(loads[c := loads[c] + 1], Credit(s, c))
  {
    hide Slot;
  }

  lemma {:induction false} BeginOk(p: Pool, budget: nat)
    requires Inv(p) && Sound(p, budget) && (budget > 0 || USIZE % |p.loads| == 0)
    ensures Inv(Next(p, Begin).value) && Sound(Next(p, Begin).value, if budget > 0 then budget - 1 else budget)
  {
    hide Slot, Within;
  }

  lemma {:induction false} PlaceOk(p: Pool, k: nat)
    requires Inv(p) && Next(p, Place(k)).Some?
    ensures Inv(Next(p, Place(k)).value)
  {
    var q, s := Next(p, Place(k)).value, p.scans[k];
    ScanFindsFloor(p.loads, s);
    SumAtLeast(s.before, s.lowest);
    hide Slot, Within, ScanOk;
    assert p.loads[s.chosen] <= s.lowest + s.overtaken && |s.before| == |p.loads| by { ChosenOk(p.loads, s); }
    PlacedWithin(p.loads[s.chosen], s.lowest, |p.loads|, Sum(s.before), q.peak, s.overtaken, q.overtaken);
    forall i | 0 <= i < |p.loads| ensures Within(q.loads[i], |p.loads|, q.peak, q.overtaken) {
      if i != s.chosen { WithinSmaller(p.loads[i], p.loads[i], |p.loads|, p.peak, q.peak, p.overtaken, q.overtaken); }
    }
    var others := Without(p.scans, k);
    forall l | 0 <= l < |q.scans| ensures ScanOk(q.loads, q.scans[l]) {
      assert others[l] == p.scans[if l < k then l else l + 1];
      CreditOk(p.loads, others[l], s.chosen);
    }
  }

  lemma {:induction false} ChosenOk(loads: seq<nat>, s: Scanning)
    requires loads != [] && ScanOk(loads, s)
    ensures s.chosen < |loads| == |s.before| && loads[s.chosen] <= s.lowest + s.overtaken
  {
  }

  lemma {:induction false} StepKeepsInv(p: Pool, step: Step, budget: nat)
    requires Inv(p) && Sound(p, budget) && (step.Begin? ==> budget > 0 || USIZE % |p.loads| == 0) && Next(p, step).Some?
    ensures Inv(Next(p, step).value)
    ensures Sound(Next(p, step).value, if step.Begin? && budget > 0 then budget - 1 else budget)
  {
    match step {
      case Begin => BeginOk(p, budget);
      case Read(k) => ReadOk(p.loads, p.scans[k]);
      case Place(k) => PlaceOk(p, k);
      case Complete(i) => CompleteOk(p, i);
    }
  }

  lemma {:induction false} CompleteOk(p: Pool, i: nat)
    requires Inv(p) && i < |p.loads| && p.loads[i] > 0
    ensures Inv(p.(loads := p.loads[i := p.loads[i] - 1]))
  {
    WithinSmaller(p.loads[i], p.loads[i] - 1, |p.loads|, p.peak, p.peak, p.overtaken, p.overtaken);
    hide Slot, Within;
  }

  function CeilDiv(x: nat, n: nat): nat
    requires n > 0
  {
    (x + n - 1) / n
  }

  lemma {:induction false} WithinIsCeiling(load: nat, n: nat, peak: nat, extra: nat)
    requires n > 0 && Within(load, n, peak, extra)
    ensures load <= CeilDiv(peak, n) + extra
  {
    if load > extra {
      var q, x := CeilDiv(peak, n), load - extra;
      MulMonotone(q, x, n);
      assert (x - 1) * n == x * n - n;
      assert (q + 1) * n == q * n + n;
    }
  }

  /** The number of placements a run begins. */
  function Begins(steps: seq<Step>): nat {
    if steps == [] then 0 else (if steps[0].Begin? then 1 else 0) + Begins(steps[1..])
  }

  lemma {:induction false} RunKeepsInv(p: Pool, steps: seq<Step>)
    requires Inv(p) && Sound(p, Begins(steps)) && Run(p, steps).Some?
    ensures Inv(Run(p, steps).value)
    decreases |steps|
  {
    hide Inv, Next, Sound;
    if steps != [] {
      StepKeepsInv(p, steps[0], Begins(steps));
      RunKeepsInv(Next(p, steps[0]).value, steps[1..]);
    }
  }

  lemma {:induction false} IdleOk(n: nat, scanStart: nat)
    requires n > 0
    ensures Inv(IdlePool(n, scanStart))
  {
  }

  /** The bound for any interleaving of scans, placements and completions: no loop ever
      carries more than the peak total shared evenly and rounded up, and one more for
      every placement that can land during a scan. */
  lemma {:induction false} OvertakingBound(n: nat, scanStart: nat, steps: seq<Step>, i: nat)
    requires i < n && Sound(IdlePool(n, scanStart), Begins(steps))
    requires Run(IdlePool(n, scanStart), steps).Some?
    ensures var p := Run(IdlePool(n, scanStart), steps).value;
            p.loads[i] <= CeilDiv(p.peak, n) + p.overtaken
  {
    hide Sound, Next;
    IdleOk(n, scanStart);
    RunKeepsInv(IdlePool(n, scanStart), steps);
    var p := Run(IdlePool(n, scanStart), steps).value;
    WithinIsCeiling(p.loads[i], n, p.peak, p.overtaken);
  }

  // ----- In the number of placements under way

  lemma {:induction false} AtMostNow(p: Pool, steps: seq<Step>, m: nat)
    requires p.loads != [] && AtMost(p, steps, m)
    ensures |p.scans| <= m
  {
  }

  /** The scans that are to place on `c` having read no more than `v`. */
  function Pending(scans: seq<Scanning>, c: nat, v: nat): nat {
    if scans == [] then 0
    else (if scans[0].chosen == c && scans[0].lowest <= v then 1 else 0) + Pending(scans[1..], c, v)
  }

  lemma {:induction false} PendingBound(scans: seq<Scanning>, c: nat, v: nat)
    ensures Pending(scans, c, v) <= |scans|
  {
    if scans != [] { PendingBound(scans[1..], c, v); }
  }

  lemma {:induction false} PendingAppend(a: seq<Scanning>, b: seq<Scanning>, c: nat, v: nat)
    ensures Pending(a + b, c, v) == Pending(a, c, v) + Pending(b, c, v)
  {
    if a == [] {
      assert a + b == b;
    } else {
      assert (a + b)[1..] == a[1..] + b;
      PendingAppend(a[1..], b, c, v);
    }
  }

  function PendingOne(s: Scanning, c: nat, v: nat): nat {
    if s.chosen == c && s.lowest <= v then 1 else 0
  }

  lemma {:induction false} PendingSingle(s: Scanning, c: nat, v: nat)
    ensures Pending([s], c, v) == PendingOne(s, c, v)
  {
    assert [s][1..] == [];
  }

  lemma {:induction false} PendingSplit(scans: seq<Scanning>, k: nat, c: nat, v: nat)
    requires k < |scans|
    ensures Pending(scans, c, v) == Pending(Without(scans, k), c, v) + PendingOne(scans[k], c, v)
  {
    var one := [scans[k]];
    assert scans == scans[..k] + (one + scans[k + 1..]);
    PendingAppend(scans[..k], one + scans[k + 1..], c, v);
    PendingAppend(one, scans[k + 1..], c, v);
    PendingAppend(scans[..k], scans[k + 1..], c, v);
    assert one[1..] == [];
  }

  lemma {:induction false} PendingCredited(scans: seq<Scanning>, d: nat, c: nat, v: nat)
    ensures Pending(Credited(scans, d), c, v) == Pending(scans, c, v)
  {
    if scans != [] {
      PendingCredited(scans[1..], d, c, v);
      assert Credited(scans, d)[1..] == Credited(scans[1..], d);
    }
  }

  /** If `c` is above `v`, then what it is above, with the scans that are still to place
      there on an older reading, is no more than `m`. */
  predicate Crowded(p: Pool, c: nat, v: nat, m: nat)
    requires c < |p.loads|
  {
    p.loads[c] > v ==> p.loads[c] + Pending(p.scans, c, v) <= v + m
  }

  lemma {:induction false} BeginCrowds(p: Pool, c: nat, v: nat, m: nat)
    requires p.loads != [] && c < |p.loads| && Crowded(p, c, v, m)
    ensures Crowded(Next(p, Begin).value, c, v, m)
  {
    hide Slot, Pending;
    var q := Next(p, Begin).value;
    var one := [q.scans[|p.scans|]];
    PendingAppend(p.scans, one, c, v);
    PendingSingle(one[0], c, v);
  }

  lemma {:induction false} ReadCrowds(p: Pool, k: nat, c: nat, v: nat, m: nat)
    requires p.loads != [] && c < |p.loads| && Crowded(p, c, v, m) && Next(p, Read(k)).Some?
    ensures Crowded(Next(p, Read(k)).value, c, v, m)
  {
    hide Slot, Pending;
    var q := Next(p, Read(k)).value;
    PendingSplit(p.scans, k, c, v);
    PendingSplit(q.scans, k, c, v);
    assert Without(q.scans, k) == Without(p.scans, k);
  }

  lemma {:induction false} PlaceCrowds(p: Pool, k: nat, c: nat, v: nat, m: nat)
    requires p.loads != [] && c < |p.loads| && Crowded(p, c, v, m) && Next(p, Place(k)).Some? && |p.scans| <= m
    requires p.scans[k].lowest <= v
    ensures Crowded(Next(p, Place(k)).value, c, v, m)
  {
    hide Slot, Pending, Sum, Credited;
    PendingSplit(p.scans, k, c, v);
    PendingCredited(Without(p.scans, k), p.scans[k].chosen, c, v);
    PendingBound(p.scans, c, v);
  }

  /** No loop is crowded above `v`. */
  predicate Capped(p: Pool, v: nat, m: nat) {
    |p.scans| <= m && forall c :: 0 <= c < |p.loads| ==> Crowded(p, c, v, m)
  }

  lemma {:induction false} StepCaps(p: Pool, step: Step, v: nat, m: nat)
    requires p.loads != [] && Capped(p, v, m) && Next(p, step).Some? && |Next(p, step).value.scans| <= m
    requires step.Place? && step.k < |p.scans| ==> p.scans[step.k].lowest <= v
    ensures Capped(Next(p, step).value, v, m)
  {
    hide Slot, Sum, Pending, Credited;
    var q := Next(p, step).value;
    forall c | 0 <= c < |q.loads| ensures Crowded(q, c, v, m) {
      assert Crowded(p, c, v, m);
      match step {
        case Begin => BeginCrowds(p, c, v, m);
        case Read(k) => ReadCrowds(p, k, c, v, m);
        case Place(k) => PlaceCrowds(p, k, c, v, m);
        case Complete(_) =>
      }
    }
  }

  /** A finished scan has read no more than an even share of the peak it makes. */
  lemma {:induction false} LowestFits(p: Pool, k: nat, peak: nat)
    requires Inv(p) && Next(p, Place(k)).Some? && Next(p, Place(k)).value.peak <= peak
    ensures peak > 0 && CeilDiv(peak, |p.loads|) > 0 && p.scans[k].lowest <= CeilDiv(peak, |p.loads|) - 1
  {
    var s, n := p.scans[k], |p.loads|;
    ScanFindsFloor(p.loads, s);
    SumAtLeast(s.before, s.lowest);
    ChosenOk(p.loads, s);
    hide Slot, ScanOk, Sum, CeilDiv;
    assert s.lowest * n < peak;
    WithinIsCeiling(s.lowest + 1, n, peak, 0);
  }

  lemma {:induction false} PeakGrows(p: Pool, steps: seq<Step>)
    requires p.loads != [] && Run(p, steps).Some?
    ensures p.peak <= Run(p, steps).value.peak
    decreases |steps|
  {
    hide Slot, Sum;
    if steps != [] { PeakGrows(Next(p, steps[0]).value, steps[1..]); }
  }

  /** Until something is placed nothing is in flight. */
  predicate Started(p: Pool) {
    p.peak == 0 ==> forall c :: 0 <= c < |p.loads| ==> p.loads[c] == 0
  }

  lemma {:induction false} RunStarted(p: Pool, steps: seq<Step>)
    requires p.loads != [] && Run(p, steps).Some? && Started(p)
    ensures Started(Run(p, steps).value)
    decreases |steps|
  {
    hide Slot, Sum;
    if steps != [] { RunStarted(Next(p, steps[0]).value, steps[1..]); }
  }

  lemma {:induction false} RunCaps(p: Pool, steps: seq<Step>, peak: nat, m: nat)
    requires Inv(p) && Sound(p, Begins(steps)) && Run(p, steps).Some? && AtMost(p, steps, m)
    requires Run(p, steps).value.peak <= peak && CeilDiv(peak, |p.loads|) > 0 && Capped(p, CeilDiv(peak, |p.loads|) - 1, m)
    ensures Capped(Run(p, steps).value, CeilDiv(peak, |p.loads|) - 1, m)
    decreases |steps|
  {
    hide Sound, Capped, CeilDiv;
    if steps != [] {
      var q := Next(p, steps[0]).value;
      AtMostNow(q, steps[1..], m);
      PeakGrows(q, steps[1..]);
      if steps[0].Place? { LowestFits(p, steps[0].k, peak); }
      StepCaps(p, steps[0], CeilDiv(peak, |p.loads|) - 1, m);
      StepKeepsInv(p, steps[0], Begins(steps));
      hide Inv;
      LoadsKept(p, steps[0]);
      RunCaps(q, steps[1..], peak, m);
    }
  }

  lemma {:induction false} LoadsKept(p: Pool, step: Step)
    requires p.loads != [] && Next(p, step).Some?
    ensures |Next(p, step).value.loads| == |p.loads|
  {
  }

  /** The bound in the number of placements under way: with at most `m` at once, in any
      order and with completions anywhere, a load exceeds the peak total shared evenly and
      rounded up by no more than `m - 1`. */
  lemma {:induction false} ConcurrencyBound(n: nat, scanStart: nat, steps: seq<Step>, m: nat, i: nat)
    requires i < n && m > 0 && Sound(IdlePool(n, scanStart), Begins(steps)) && Run(IdlePool(n, scanStart), steps).Some?
    requires AtMost(IdlePool(n, scanStart), steps, m)
    ensures var p := Run(IdlePool(n, scanStart), steps).value;
            p.loads[i] <= CeilDiv(p.peak, n) + m - 1
  {
    hide Sound, Next, AtMost;
    var p := Run(IdlePool(n, scanStart), steps).value;
    IdleOk(n, scanStart);
    RunStarted(IdlePool(n, scanStart), steps);
    if p.peak > 0 {
      WithinIsCeiling(1, n, p.peak, 0);
      RunCaps(IdlePool(n, scanStart), steps, p.peak, m);
      assert Crowded(p, i, CeilDiv(p.peak, n) - 1, m);
    }
  }

  /** The placement bound for placements one at a time: with completions at any moment,
      even between the reads of a scan, no loop ever carries more than the peak total
      shared evenly and rounded up. */
  lemma {:induction false} PlacementBound(n: nat, scanStart: nat, steps: seq<Step>, i: nat)
    requires i < n && Sound(IdlePool(n, scanStart), Begins(steps)) && Run(IdlePool(n, scanStart), steps).Some?
    requires AtMost(IdlePool(n, scanStart), steps, 1)
    ensures var p := Run(IdlePool(n, scanStart), steps).value; p.loads[i] <= CeilDiv(p.peak, n)
  {
    hide Sound, Next, AtMost;
    ConcurrencyBound(n, scanStart, steps, 1, i);
  }

  // ----- Spread

  predicate NoCompletions(steps: seq<Step>) {
    forall i :: 0 <= i < |steps| ==> !steps[i].Complete?
  }

  /** Some loop carries no more than `v`. */
  predicate Reaches(loads: seq<nat>, v: nat) {
    exists j :: 0 <= j < |loads| && loads[j] <= v
  }

  /** Without completions a scan never reads more than is there later. */
  predicate Fresh(loads: seq<nat>, s: Scanning)
    requires loads != []
  {
    forall j :: 0 <= j < s.next ==> s.lowest <= loads[Slot(s.start, j, |loads|)]
  }

  ghost predicate Level(p: Pool, m: nat) {
    && Inv(p) && |p.scans| <= m && Sum(p.loads) == p.placed
    && (forall k :: 0 <= k < |p.scans| ==> Fresh(p.loads, p.scans[k]))
    && (forall c: nat, v: nat :: c < |p.loads| && Reaches(p.loads, v) ==> Crowded(p, c, v, m))
  }

  lemma {:induction false} FreshFloor(loads: seq<nat>, s: Scanning)
    requires loads != [] && Fresh(loads, s) && s.start < USIZE && Rotates(s.start, |loads|)
    requires s.next == |loads| || s.lowest == 0
    ensures forall j :: 0 <= j < |loads| ==> s.lowest <= loads[j]
  {
    forall j | 0 <= j < |loads| ensures s.lowest <= loads[j] {
      if s.lowest > 0 { var k := SlotOf(s.start, j, |loads|); }
    }
  }

  lemma {:induction false} ReadFresh(loads: seq<nat>, s: Scanning)
    requires loads != [] && Fresh(loads, s) && s.next < |loads|
    ensures var c := Slot(s.start, s.next, |loads|); Fresh(loads, Seen(s, c, loads[c]))
  {
    hide Slot;
  }

  lemma {:induction false} CreditFresh(loads: seq<nat>, s: Scanning, c: nat)
    requires loads != [] && Fresh(loads, s) && c < |loads|
    ensures Fresh(loads[c := loads[c] + 1], Credit(s, c))
  {
    hide Slot;
  }

  lemma {:induction false} PlaceLevel(p: Pool, k: nat, m: nat)
    requires Level(p, m) && Next(p, Place(k)).Some?
    ensures Level(Next(p, Place(k)).value, m)
  {
    hide Inv, ScanOk, Fresh, Crowded, Slot, Sum;
    var q, s := Next(p, Place(k)).value, p.scans[k];
    PlaceOk(p, k);
    SumUpdate(p.loads, s.chosen, p.loads[s.chosen] + 1);
    PlacesFloor(p, k);
    forall c: nat, v: nat | c < |q.loads| && Reaches(q.loads, v) ensures Crowded(q, c, v, m) {
      PlaceCrowdsReached(p, k, c, v, m);
    }
    forall l | 0 <= l < |q.scans| ensures Fresh(q.loads, q.scans[l]) {
      OtherFresh(p, k, l);
    }
  }

  lemma {:induction false} PlacesFloor(p: Pool, k: nat)
    requires Inv(p) && k < |p.scans| && Fresh(p.loads, p.scans[k]) && Next(p, Place(k)).Some?
    ensures forall j :: 0 <= j < |p.loads| ==> p.scans[k].lowest <= p.loads[j]
  {
    assert ScanOk(p.loads, p.scans[k]);
    hide Slot, Sum;
    FreshFloor(p.loads, p.scans[k]);
  }

  lemma {:induction false} PlaceCrowdsReached(p: Pool, k: nat, c: nat, v: nat, m: nat)
    requires p.loads != [] && c < |p.loads| && Next(p, Place(k)).Some? && |p.scans| <= m
    requires Reaches(p.loads, v) ==> Crowded(p, c, v, m)
    requires forall j :: 0 <= j < |p.loads| ==> p.scans[k].lowest <= p.loads[j]
    requires Reaches(Next(p, Place(k)).value.loads, v)
    ensures Crowded(Next(p, Place(k)).value, c, v, m)
  {
    hide Crowded, Slot, Sum, Credited;
    var q := Next(p, Place(k)).value;
    var j :| 0 <= j < |q.loads| && q.loads[j] <= v;
    assert p.loads[j] <= v;
    PlaceCrowds(p, k, c, v, m);
  }

  lemma {:induction false} OtherFresh(p: Pool, k: nat, l: nat)
    requires p.loads != [] && Next(p, Place(k)).Some? && l < |Next(p, Place(k)).value.scans|
    requires forall j :: 0 <= j < |p.scans| ==> Fresh(p.loads, p.scans[j])
    ensures Fresh(Next(p, Place(k)).value.loads, Next(p, Place(k)).value.scans[l])
  {
    hide Fresh, Slot, Sum;
    var others := Without(p.scans, k);
    assert others[l] == p.scans[if l < k then l else l + 1];
    CreditFresh(p.loads, others[l], p.scans[k].chosen);
  }

  lemma {:induction false} StepKeepsLevel(p: Pool, step: Step, budget: nat, m: nat)
    requires Level(p, m) && !step.Complete? && Next(p, step).Some? && |Next(p, step).value.scans| <= m
    requires Sound(p, budget) && (step.Begin? ==> budget > 0 || USIZE % |p.loads| == 0)
    ensures Level(Next(p, step).value, m)
  {
    StepKeepsInv(p, step, budget);
    hide Inv, Crowded, Slot, Sum;
    var q := Next(p, step).value;
    match step {
      case Begin =>
        forall c: nat, v: nat | c < |q.loads| && Reaches(q.loads, v) ensures Crowded(q, c, v, m) {
          BeginCrowds(p, c, v, m);
        }
      case Read(k) =>
        ReadFresh(p.loads, p.scans[k]);
        forall c: nat, v: nat | c < |q.loads| && Reaches(q.loads, v) ensures Crowded(q, c, v, m) {
          ReadCrowds(p, k, c, v, m);
        }
      case Place(k) => PlaceLevel(p, k, m);
    }
  }

  lemma {:induction false} RunKeepsLevel(p: Pool, steps: seq<Step>, m: nat)
    requires Level(p, m) && NoCompletions(steps) && Sound(p, Begins(steps)) && Run(p, steps).Some? && AtMost(p, steps, m)
    ensures Level(Run(p, steps).value, m)
    decreases |steps|
  {
    hide Next, Level, Sound, Inv;
    LevelInv(p, m);
    if steps != [] {
      var q := Next(p, steps[0]).value;
      AtMostNow(q, steps[1..], m);
      StepKeepsLevel(p, steps[0], Begins(steps), m);
      StepKeepsInv(p, steps[0], Begins(steps));
      RunKeepsLevel(q, steps[1..], m);
    }
  }

  lemma {:induction false} LevelInv(p: Pool, m: nat)
    requires Level(p, m)
    ensures Inv(p) && p.loads != []
  {
  }

  lemma {:induction false} IdleLevel(n: nat, scanStart: nat, m: nat)
    requires n > 0
    ensures Level(IdlePool(n, scanStart), m)
  {
    IdleOk(n, scanStart);
    SumAtMost(seq(n, _ => 0), 0);
  }

  /** Spread: without completions, with at most `m` placements under way at once in any
      order, no loop carries more than `m` above another. */
  lemma {:induction false} SpreadBound(n: nat, scanStart: nat, steps: seq<Step>, m: nat, i: nat, j: nat)
    requires i < n && j < n && NoCompletions(steps) && Sound(IdlePool(n, scanStart), Begins(steps))
    requires Run(IdlePool(n, scanStart), steps).Some? && AtMost(IdlePool(n, scanStart), steps, m)
    ensures var p := Run(IdlePool(n, scanStart), steps).value;
            p.loads[i] <= p.loads[j] + m && Sum(p.loads) == p.placed
  {
    hide Sound, Next, AtMost;
    IdleLevel(n, scanStart, m);
    RunKeepsLevel(IdlePool(n, scanStart), steps, m);
    var p := Run(IdlePool(n, scanStart), steps).value;
    assert Reaches(p.loads, p.loads[j]) && Crowded(p, i, p.loads[j], m);
  }

  /** Even spread: placements one at a time with no completion leave every load at the
      total divided by the loops, rounded down or up. */
  lemma {:induction false} EvenSpread(n: nat, scanStart: nat, steps: seq<Step>, i: nat)
    requires i < n && NoCompletions(steps) && Sound(IdlePool(n, scanStart), Begins(steps))
    requires Run(IdlePool(n, scanStart), steps).Some? && AtMost(IdlePool(n, scanStart), steps, 1)
    ensures var p := Run(IdlePool(n, scanStart), steps).value;
            p.placed / n <= p.loads[i] <= CeilDiv(p.placed, n)
  {
    hide Sound, Next, AtMost;
    var p := Run(IdlePool(n, scanStart), steps).value;
    forall a, b | 0 <= a < n && 0 <= b < n ensures p.loads[a] <= p.loads[b] + 1 && Sum(p.loads) == p.placed {
      SpreadBound(n, scanStart, steps, 1, a, b);
    }
    assert p.loads[i] <= p.loads[i] + 1;
    LevelLoad(p.loads, p.placed, i);
  }

  lemma {:induction false} LevelLoad(loads: seq<nat>, total: nat, i: nat)
    requires i < |loads| && Sum(loads) == total
    requires forall i, j :: 0 <= i < |loads| && 0 <= j < |loads| ==> loads[i] <= loads[j] + 1
    ensures total / |loads| <= loads[i] <= CeilDiv(total, |loads|)
  {
    var n, load := |loads|, loads[i];
    SumAtMost(loads[i := load + 1], load + 1);
    SumUpdate(loads, i, load + 1);
    if load > 0 {
      SumAtLeast(loads[i := load - 1], load - 1);
      SumUpdate(loads, i, load - 1);
    }
    LevelBounds(load, n, total);
  }

  lemma {:induction false} LevelBounds(load: nat, n: nat, total: nat)
    requires n > 0 && total + 1 <= (load + 1) * n
    requires load == 0 || (load - 1) * n + 1 <= total
    ensures total / n <= load <= CeilDiv(total, n)
  {
    WithinIsCeiling(load, n, total, 0);
    MulMonotone(load, total / n, n);
    assert total == (total / n) * n + total % n;
  }

  /** A pool at rest: nothing in flight and no scan under way. */
  predicate AtRest(p: Pool) {
    p.loads != [] && p.scans == [] && p.scanStart < USIZE && forall i :: 0 <= i < |p.loads| ==> p.loads[i] == 0
  }

  /** The pool after one placement has been made and completed. */
  function Rested(p: Pool): Option<Pool>
    requires p.loads != []
  {
    Run(p, [Begin, Place(0), Complete(Slot(p.scanStart, 0, |p.loads|))])
  }

  /** On a pool at rest the scan stops at its first loop: the request goes to the
      rotation's start, and once it completes the pool is at rest again. */
  lemma {:induction false} RestingPlacement(p: Pool)
    requires AtRest(p)
    ensures Next(p, Begin).Some? && Next(Next(p, Begin).value, Read(0)).None?
    ensures var home, placed := Slot(p.scanStart, 0, |p.loads|), Next(Next(p, Begin).value, Place(0));
            placed.Some? && placed.value.loads == p.loads[home := 1]
    ensures Rested(p).Some? && AtRest(Rested(p).value) && |Rested(p).value.loads| == |p.loads|
    ensures Rested(p).value.scanStart == (p.scanStart + 1) % USIZE
  {
    hide Slot;
    var home := Slot(p.scanStart, 0, |p.loads|);
    var scanned := Next(p, Begin).value;
    var placed := Next(scanned, Place(0)).value;
    var rested := Next(placed, Complete(home)).value;
    var visit := [Begin, Place(0), Complete(home)];
    assert visit[1..] == [Place(0), Complete(home)] && visit[1..][1..] == [Complete(home)];
    assert visit[1..][1..][1..] == [];
    assert Run(placed, [Complete(home)]) == Some(rested);
    assert Run(scanned, [Place(0), Complete(home)]) == Some(rested);
  }

  /** The loop that the `k`-th of a series of resting placements lands on. */
  function Landing(p: Pool, k: nat): (i: nat)
    requires AtRest(p)
    ensures i < |p.loads|
    decreases k
  {
    RestingPlacement(p);
    if k == 0 then Slot(p.scanStart, 0, |p.loads|) else Landing(Rested(p).value, k - 1)
  }

  lemma {:induction false} LandingIs(p: Pool, k: nat)
    requires AtRest(p) && p.scanStart + k < USIZE
    ensures Landing(p, k) == Slot(p.scanStart + k, 0, |p.loads|)
    decreases k
  {
    hide Slot, Rested, AtRest;
    if k > 0 {
      RestingPlacement(p);
      LandingIs(Rested(p).value, k - 1);
    }
  }

  /** As many placements as loops, each completing before the next, land on
      distinct loops. */
  lemma {:induction false} RestingPlacementsSpread(p: Pool, j: nat, k: nat)
    requires AtRest(p) && j < k < |p.loads| && p.scanStart + |p.loads| <= USIZE
    ensures Landing(p, j) != Landing(p, k)
  {
    hide Landing, Slot;
    LandingIs(p, j);
    LandingIs(p, k);
    FirstSlot(p.scanStart + j, |p.loads|);
    FirstSlot(p.scanStart + k, |p.loads|);
    ModDistinct(p.scanStart + j, p.scanStart + k, |p.loads|);
  }

  // ----- One undisturbed placement

  /** `count` turns of the scan loop of the only placement under way. */
  function Reads(count: nat): seq<Step> {
    if count == 0 then [] else [Read(0)] + Reads(count - 1)
  }

  /** The only scan has seen `loads` as they are, and holds the first minimum so far. */
  predicate ScansAlone(p: Pool, loads: seq<nat>, start: nat, at: nat) {
    && loads != [] && p.loads == loads && |p.scans| == 1
    && var s, n := p.scans[0], |loads|;
       && s.start == start && at < s.next <= n && s.chosen == Slot(start, at, n) && s.lowest == loads[s.chosen]
       && (forall j :: 0 <= j < s.next ==> s.lowest <= loads[Slot(start, j, n)])
       && (forall j :: 0 <= j < at ==> s.lowest < loads[Slot(start, j, n)])
  }

  lemma {:induction false} ReadAlone(p: Pool, loads: seq<nat>, start: nat, at: nat) returns (next: nat)
    requires ScansAlone(p, loads, start, at) && Next(p, Read(0)).Some?
    ensures var q := Next(p, Read(0)).value; ScansAlone(q, loads, start, next) && q.scanStart == p.scanStart
  {
    hide Slot;
    var s := p.scans[0];
    next := if loads[Slot(start, s.next, |loads|)] < s.lowest then s.next else at;
  }

  lemma {:induction false} ReadsAlone(p: Pool, loads: seq<nat>, start: nat, at: nat, count: nat) returns (last: nat)
    requires ScansAlone(p, loads, start, at) && Run(p, Reads(count)).Some?
    ensures var q := Run(p, Reads(count)).value; ScansAlone(q, loads, start, last) && q.scanStart == p.scanStart
    decreases count
  {
    hide Next, ScansAlone;
    last := at;
    if count > 0 {
      assert Reads(count)[0] == Read(0) && Reads(count)[1..] == Reads(count - 1);
      NotEmpty(p, loads, start, at);
      last := ReadAlone(p, loads, start, at);
      last := ReadsAlone(Next(p, Read(0)).value, loads, start, last, count - 1);
    } else {
      NotEmpty(p, loads, start, at);
    }
  }

  lemma {:induction false} NotEmpty(p: Pool, loads: seq<nat>, start: nat, at: nat)
    requires ScansAlone(p, loads, start, at)
    ensures p.loads != []
  {
  }

  /** A placement that nothing disturbs, however many turns its scan takes, is that of
      `Placement.Scan`: the first minimum in rotation order is chosen, its gauge goes up and
      the start advances. */
  lemma {:induction false} UndisturbedPlacement(p: Pool, count: nat) returns (k: nat)
    requires p.loads != [] && p.scans == [] && Run(p, [Begin] + Reads(count) + [Place(0)]).Some?
    ensures var q := Run(p, [Begin] + Reads(count) + [Place(0)]).value;
            && FirstMinimum(p.loads, p.scanStart, k)
            && var chosen := Slot(p.scanStart, k, |p.loads|);
               q.loads == p.loads[chosen := p.loads[chosen] + 1] && q.scans == [] && q.scanStart == (p.scanStart + 1) % USIZE
  {
    var begun := BeginAlone(p);
    var looks, end := Reads(count), [Place(0)];
    StepsOf(p, begun, looks, end);
    hide Next, Reads, FirstMinimum;
    k := ReadsAlone(begun, p.loads, p.scanStart, 0, count);
    PlaceAlone(Run(begun, looks).value, p.loads, p.scanStart, k);
  }

  lemma {:induction false} BeginAlone(p: Pool) returns (q: Pool)
    requires p.loads != [] && p.scans == []
    ensures Next(p, Begin) == Some(q) && ScansAlone(q, p.loads, p.scanStart, 0) && q.scanStart == (p.scanStart + 1) % USIZE
  {
    hide Slot;
    q := Next(p, Begin).value;
  }

  lemma {:induction false} StepsOf(p: Pool, q: Pool, middle: seq<Step>, end: seq<Step>)
    requires p.loads != [] && Next(p, Begin) == Some(q) && |q.loads| == |p.loads| && Run(p, [Begin] + middle + end).Some?
    ensures Run(q, middle).Some? && Run(Run(q, middle).value, end) == Run(p, [Begin] + middle + end)
  {
    hide Next;
    assert ([Begin] + middle + end)[1..] == middle + end;
    SplitRun(q, middle, end);
    RunAppend(q, middle, end);
  }

  lemma {:induction false} SplitRun(p: Pool, a: seq<Step>, b: seq<Step>)
    requires p.loads != [] && Run(p, a + b).Some?
    ensures Run(p, a).Some?
    decreases |a|
  {
    hide Next;
    if a != [] {
      assert (a + b)[1..] == a[1..] + b;
      SplitRun(Next(p, a[0]).value, a[1..], b);
    }
  }

  lemma {:induction false} PlaceAlone(p: Pool, loads: seq<nat>, start: nat, at: nat)
    requires ScansAlone(p, loads, start, at) && Run(p, [Place(0)]).Some?
    ensures FirstMinimum(loads, start, at)
    ensures var q, chosen := Run(p, [Place(0)]).value, Slot(start, at, |loads|);
            q.loads == loads[chosen := loads[chosen] + 1] && q.scans == [] && q.scanStart == p.scanStart
  {
    hide Slot;
    assert [Place(0)][1..] == [];
    assert Next(p, Place(0)).Some?;
  }

  // ----- Placements that do not wait for each other

  lemma {:induction false} RunAppend(p: Pool, a: seq<Step>, b: seq<Step>)
    requires p.loads != [] && Run(p, a).Some?
    ensures Run(p, a + b) == Run(Run(p, a).value, b)
    decreases |a|
  {
    hide Next;
    if a == [] {
      assert a + b == b;
    } else {
      assert (a + b)[1..] == a[1..] + b;
      RunAppend(Next(p, a[0]).value, a[1..], b);
    }
  }

  /** Two loops carrying 1 and `a`, and `j` scans that all found the second one idle. */
  predicate Piled(p: Pool, a: nat, j: nat) {
    && p.loads == [1, a] && |p.scans| == j && p.scanStart < USIZE
    && (forall k :: 0 <= k < j ==> p.scans[k].chosen == 1 && p.scans[k].lowest == 0)
  }

  /** One more scan that finds the second loop idle. */
  lemma {:induction false} PileUp(p: Pool, j: nat) returns (steps: seq<Step>)
    requires Piled(p, 0, j)
    ensures Run(p, steps).Some? && Piled(Run(p, steps).value, 0, j + 1)
  {
    var q := Next(p, Begin).value;
    assert [Begin][1..] == [] && Run(q, []) == Some(q);
    assert Run(p, [Begin]) == Some(q);
    if Slot(p.scanStart, 0, 2) == 1 {
      steps := [Begin];
    } else {
      steps := [Begin] + [Read(j)];
      assert Slot(p.scanStart, 1, 2) == 1;
      var r := Next(q, Read(j)).value;
      assert [Read(j)][1..] == [] && Run(r, []) == Some(r);
      assert Run(q, [Read(j)]) == Some(r);
      RunAppend(p, [Begin], [Read(j)]);
    }
  }

  lemma {:induction false} PileAll(p: Pool, m: nat) returns (steps: seq<Step>)
    requires Piled(p, 0, 0)
    ensures Run(p, steps).Some? && Piled(Run(p, steps).value, 0, m)
    decreases m
  {
    hide Next;
    if m == 0 {
      steps := [];
    } else {
      var first := PileAll(p, m - 1);
      var last := PileUp(Run(p, first).value, m - 1);
      RunAppend(p, first, last);
      steps := first + last;
    }
  }

  lemma {:induction false} PlaceAll(p: Pool, a: nat, j: nat) returns (steps: seq<Step>)
    requires Piled(p, a, j)
    ensures Run(p, steps).Some? && Piled(Run(p, steps).value, a + j, 0)
    ensures Run(p, steps).value.placed == p.placed + j
    decreases j
  {
    if j == 0 {
      steps := [];
    } else {
      var q := Next(p, Place(0)).value;
      PlaceOne(p, a, j);
      var rest := PlaceAll(q, a + 1, j - 1);
      steps := [Place(0)] + rest;
      assert steps[1..] == rest;
    }
  }

  lemma {:induction false} PlaceOne(p: Pool, a: nat, j: nat)
    requires Piled(p, a, j) && j > 0
    ensures Next(p, Place(0)).Some? && Piled(Next(p, Place(0)).value, a + 1, j - 1)
    ensures Next(p, Place(0)).value.placed == p.placed + 1
  {
    hide Slot, Sum;
    assert forall k :: 0 <= k < j - 1 ==> Without(p.scans, 0)[k] == p.scans[k + 1];
  }

  /** Placements that all scan before any is counted pile up: for every `m` there is a run
      from an idle pool of two loops, one placement and then `m` at once, that leaves `m`
      requests on one loop and one on the other; the even share of the total is less as
      soon as `m` is three. */
  lemma {:induction false} ConcurrentPlacementsOverload(m: nat) returns (steps: seq<Step>)
    ensures Run(IdlePool(2, 0), steps).Some?
    ensures var p := Run(IdlePool(2, 0), steps).value;
            p.loads == [1, m] && p.scans == [] && (m >= 3 ==> p.loads[1] > CeilDiv(p.loads[0] + p.loads[1], 2))
  {
    var first := FirstPlaced();
    var p := Run(IdlePool(2, 0), first).value;
    var piling := PileAll(p, m);
    RunAppend(IdlePool(2, 0), first, piling);
    var q := Run(p, piling).value;
    var placing := PlaceAll(q, 0, m);
    RunAppend(IdlePool(2, 0), first + piling, placing);
    steps := first + piling + placing;
  }

  lemma {:induction false} FirstPlaced() returns (steps: seq<Step>)
    ensures Run(IdlePool(2, 0), steps).Some? && Piled(Run(IdlePool(2, 0), steps).value, 0, 0)
  {
    var p := IdlePool(2, 0);
    var q := Next(p, Begin).value;
    var r := Next(q, Place(0)).value;
    assert r.loads == [1, 0];
    steps := [Begin, Place(0)];
    assert steps[1..] == [Place(0)] && [Place(0)][1..] == [];
    assert Run(r, []) == Some(r) && Run(q, [Place(0)]) == Some(r);
  }

  /** Two at once are enough: from an idle pool of two loops, with never more than two
      placements under way, a loop comes to carry two of a peak total of two. */
  lemma {:induction false} TwoAtOnceOverload() returns (steps: seq<Step>)
    ensures Run(IdlePool(2, 0), steps).Some? && AtMost(IdlePool(2, 0), steps, 2)
    ensures var p := Run(IdlePool(2, 0), steps).value; p.peak == 2 && p.loads == [2, 0] && p.loads[0] > CeilDiv(p.peak, 2)
  {
    hide Next, Run, AtMost;
    steps := [Begin, Begin, Place(1), Complete(1), Begin, Place(0), Place(0)];
    var p0 := IdlePool(2, 0);
    var p1, p2 := TwoBegin(p0);
    var p3 := Lands(p2, 1);
    var p4, p5 := Leaves(p3);
    var p6 := Lands(p5, 0);
    var p7 := Lands(p6, 0);
    assert steps[7..] == [];
    NothingLeft(p7);
    Played(p6, p7, steps, 6);
    Played(p5, p6, steps, 5);
    Played(p4, p5, steps, 4);
    Played(p3, p4, steps, 3);
    Played(p2, p3, steps, 2);
    Played(p1, p2, steps, 1);
    Played(p0, p1, steps, 0);
    assert steps[0..] == steps;
  }

  /** A scan that found loop `c` idle, with `a` and `b` as its loads to go by. */
  predicate Found(s: Scanning, c: nat, a: nat, b: nat) {
    c < 2 && s.chosen == c && s.lowest == 0 && s.before == [a, b]
  }

  predicate Stand(p: Pool, a: nat, b: nat, peak: nat, scans: nat) {
    p.loads == [a, b] && p.peak == peak && |p.scans| == scans
  }

  lemma {:induction false} PairSum(a: nat, b: nat)
    ensures Sum([a, b]) == a + b
  {
    var pair: seq<nat>, last: seq<nat> := [a, b], [b];
    assert pair[1..] == last && last[1..] == [];
    assert Sum(pair) == a + Sum(last) && Sum(last) == b + Sum([]);
  }

  /** The first two scans of an idle pool of two find one loop each. */
  lemma {:induction false} TwoBegin(p: Pool) returns (q: Pool, r: Pool)
    requires p == IdlePool(2, 0)
    ensures Next(p, Begin) == Some(q) && Next(q, Begin) == Some(r) && |q.scans| == 1 && q.loads != []
    ensures Stand(r, 0, 0, 0, 2) && r.scanStart == 2 && Found(r.scans[0], 0, 0, 0) && Found(r.scans[1], 1, 0, 0)
  {
    assert p.loads == [0, 0];
    q := Next(p, Begin).value;
    r := Next(q, Begin).value;
  }

  /** A scan is placed on the loop it found; those left are credited with it. */
  lemma {:induction false} Lands(p: Pool, k: nat) returns (q: Pool)
    requires |p.loads| == 2 && k < |p.scans| && p.scans[k].lowest == 0 && p.scans[k].chosen < 2 && |p.scans[k].before| == 2
    ensures Next(p, Place(k)) == Some(q) && q.scanStart == p.scanStart && |q.scans| == |p.scans| - 1
    ensures q.loads == p.loads[p.scans[k].chosen := p.loads[p.scans[k].chosen] + 1]
    ensures q.peak == Max(p.peak, p.scans[k].before[0] + p.scans[k].before[1] + 1)
    ensures forall l :: 0 <= l < |q.scans| ==> q.scans[l] == Credit(p.scans[if l < k then l else l + 1], p.scans[k].chosen)
  {
    var before := p.scans[k].before;
    PairSum(before[0], before[1]);
    assert before == [before[0], before[1]];
    hide Sum;
    q := Next(p, Place(k)).value;
  }

  /** The request on loop 1 completes, and a third scan finds loop 0 idle. */
  lemma {:induction false} Leaves(p: Pool) returns (q: Pool, r: Pool)
    requires Stand(p, 0, 1, 1, 1) && p.scanStart == 2
    ensures Next(p, Complete(1)) == Some(q) && Next(q, Begin) == Some(r) && q.loads != [] && |q.scans| == 1
    ensures Stand(r, 0, 0, 1, 2) && r.scans[0] == p.scans[0] && Found(r.scans[1], 0, 0, 0)
  {
    q := Next(p, Complete(1)).value;
    assert q.loads == [0, 0];
    r := Next(q, Begin).value;
  }

  lemma {:induction false} NothingLeft(p: Pool)
    requires p.loads != [] && |p.scans| <= 2
    ensures Run(p, []) == Some(p) && AtMost(p, [], 2)
  {
  }

  lemma {:induction false} Played(p: Pool, q: Pool, steps: seq<Step>, j: nat)
    requires j < |steps| && p.loads != [] && q.loads != [] && Next(p, steps[j]) == Some(q) && |p.scans| <= 2
    requires AtMost(q, steps[j + 1..], 2)
    ensures Run(p, steps[j..]) == Run(q, steps[j + 1..]) && AtMost(p, steps[j..], 2)
  {
    hide Next;
    assert steps[j..][0] == steps[j] && steps[j..][1..] == steps[j + 1..];
  }
}
