/** The order of a shutdown: which call gets to wait for the drain, and that no loop is
    told to stop before that is over, unless another caller comes in meanwhile. */
module ShutdownOrder {
  import opened Wrappers
  import P = Protocol
  import Safety = ProtocolSafety
  import opened Shutdown

  /** The call is draining, cancelling, or draining again. */
  predicate Waiting(call: Call) {
    call.Draining? || call.Cancelling? || call.DrainingAgain?
  }

  /** The call has turned to stopping the loops. */
  predicate Stops(call: Call) {
    call.Stopping? || call.Finished?
  }

  predicate SomeStopped(s: Server) {
    exists j :: 0 <= j < |s.loops| && EverStopped(s.loops[j])
  }

  // ----- Steps

  lemma {:induction false} ServerStep(s: Server, step: Step)
    requires Enabled(s, step)
    ensures var t := Next(s, step);
            && |s.calls| <= |t.calls| && |t.loops| == |s.loops| && (t.slot ==> s.slot) && (step.TakeSlot? ==> !t.slot)
  {
    hide P.Next, P.Enabled;
  }

  lemma {:induction false} CallStep(s: Server, step: Step, c: nat)
    requires Enabled(s, step) && c < |Next(s, step).calls|
    ensures var t := Next(s, step);
            && (Waiting(t.calls[c]) ==> (c < |s.calls| && Waiting(s.calls[c])) || (step == TakeSlot(c) && s.slot))
            && (Stops(t.calls[c]) ==>
                  || (c < |s.calls| && Stops(s.calls[c]))
                  || (step == TakeSlot(c) && !s.slot) || step == Wait(c, true) || (step.WaitAgain? && step.call == c))
            && (c < |s.calls| && Stops(s.calls[c]) ==> Stops(t.calls[c]))
            && (step == TakeSlot(c) && !s.slot ==> Stops(t.calls[c]))
            && (c < |s.calls| && Waiting(s.calls[c]) ==> Waiting(t.calls[c]) || Stops(t.calls[c]))
  {
    hide P.Next, P.Enabled;
  }

  lemma {:induction false} StoppedStep(s: Server, step: Step)
    requires Enabled(s, step) && SomeStopped(Next(s, step)) && !SomeStopped(s)
    ensures step.StopLoop?
  {
    hide P.Next, P.Enabled;
    var t := Next(s, step);
    var j :| 0 <= j < |t.loops| && EverStopped(t.loops[j]);
    if step.OnLoop? { NoNewStops(s.loops[step.loop], step.step); }
    assert !EverStopped(s.loops[j]);
  }

  // ----- Who waits

  /** Call `c` passed `TakeSlot` at step `i` and found the receiver. */
  predicate TookAt(run: seq<Server>, steps: seq<Step>, i: nat, c: nat) {
    i < |steps| && i < |run| && steps[i] == TakeSlot(c) && run[i].slot
  }

  lemma {:induction false} SlotGone(size: nat, run: seq<Server>, steps: seq<Step>, i: nat, j: nat)
    requires IsRun(size, run, steps) && i < j < |run| && steps[i].TakeSlot?
    ensures !run[j].slot
    decreases j
  {
    hide Next, Enabled;
    ServerStep(run[j - 1], steps[j - 1]);
    if j > i + 1 { SlotGone(size, run, steps, i, j - 1); }
  }

  lemma {:induction false} WaitingTook(size: nat, run: seq<Server>, steps: seq<Step>, n: nat, c: nat)
    requires IsRun(size, run, steps) && n < |run| && c < |run[n].calls| && Waiting(run[n].calls[c])
    ensures exists i :: 0 <= i < n && TookAt(run, steps, i, c)
  {
    hide Next, Enabled, Waiting, Stops;
    if n > 0 {
      CallStep(run[n - 1], steps[n - 1], c);
      if !TookAt(run, steps, n - 1, c) { WaitingTook(size, run, steps, n - 1, c); }
    }
  }

  /** Exactly one call ever waits: whichever calls are seen waiting in a run, at whatever
      times, are the same. */
  lemma {:induction false} OneCallWaits(size: nat, run: seq<Server>, steps: seq<Step>, n: nat, c: nat, m: nat, d: nat)
    requires IsRun(size, run, steps) && n < |run| && m < |run| && c < |run[n].calls| && d < |run[m].calls|
    requires Waiting(run[n].calls[c]) && Waiting(run[m].calls[d])
    ensures c == d
  {
    hide IsRun, Waiting;
    WaitingTook(size, run, steps, n, c);
    WaitingTook(size, run, steps, m, d);
    var i :| 0 <= i < n && TookAt(run, steps, i, c);
    var k :| 0 <= k < m && TookAt(run, steps, k, d);
    TookOnce(size, run, steps, i, c, k, d);
  }

  lemma {:induction false} TookOnce(size: nat, run: seq<Server>, steps: seq<Step>, i: nat, c: nat, k: nat, d: nat)
    requires IsRun(size, run, steps) && TookAt(run, steps, i, c) && TookAt(run, steps, k, d)
    ensures i == k && c == d
  {
    hide IsRun;
    if i < k { SlotGone(size, run, steps, i, k); } else if k < i { SlotGone(size, run, steps, k, i); }
  }

  // ----- Who stops loops

  ghost predicate SomeStops(s: Server) {
    exists d :: 0 <= d < |s.calls| && Stops(s.calls[d])
  }

  lemma {:induction false} StopsStay(s: Server, step: Step)
    requires Enabled(s, step) && SomeStops(s)
    ensures SomeStops(Next(s, step))
  {
    hide Next, Enabled, Stops;
    var d :| 0 <= d < |s.calls| && Stops(s.calls[d]);
    ServerStep(s, step);
    CallStep(s, step, d);
  }

  /** A loop was told to stop only by a call that has turned to stopping. */
  lemma {:induction false} StoppedBy(size: nat, run: seq<Server>, steps: seq<Step>, n: nat)
    requires IsRun(size, run, steps) && n < |run| && SomeStopped(run[n])
    ensures SomeStops(run[n])
  {
    if n > 0 {
      if SomeStopped(run[n - 1]) {
        StoppedBy(size, run, steps, n - 1);
        hide Next;
        StopsStay(run[n - 1], steps[n - 1]);
      } else {
        StoppedStep(run[n - 1], steps[n - 1]);
        hide P.Next;
        assert Stops(run[n].calls[steps[n - 1].call]);
      }
    }
  }

  /** The step sent call `d` to stopping: it found the receiver gone, or its drain ended. */
  predicate Turns(s: Server, step: Step, d: nat) {
    (step == TakeSlot(d) && !s.slot) || step == Wait(d, true) || (step.WaitAgain? && step.call == d)
  }

  lemma {:induction false} StopsSince(size: nat, run: seq<Server>, steps: seq<Step>, n: nat, d: nat)
    requires IsRun(size, run, steps) && n < |run| && d < |run[n].calls| && Stops(run[n].calls[d])
    ensures exists i :: 0 <= i < n && Turns(run[i], steps[i], d)
  {
    hide Next, Enabled, Stops;
    if n > 0 {
      CallStep(run[n - 1], steps[n - 1], d);
      if !Turns(run[n - 1], steps[n - 1], d) { StopsSince(size, run, steps, n - 1, d); }
    }
  }

  /** Every call that stops has passed `TakeSlot`. */
  lemma {:induction false} StopsPassed(size: nat, run: seq<Server>, steps: seq<Step>, n: nat, d: nat)
    requires IsRun(size, run, steps) && n < |run| && d < |run[n].calls| && Stops(run[n].calls[d])
    ensures exists i :: 0 <= i < n && steps[i] == TakeSlot(d)
  {
    StopsSince(size, run, steps, n, d);
    var i :| 0 <= i < n && Turns(run[i], steps[i], d);
    assert Enabled(run[i], steps[i]);
    if steps[i] != TakeSlot(d) {
      hide Next;
      WaitingTook(size, run, steps, i, d);
      var k :| 0 <= k < i && TookAt(run, steps, k, d);
    }
  }

  lemma {:induction false} StopsForGood(size: nat, run: seq<Server>, steps: seq<Step>, i: nat, n: nat, d: nat)
    requires IsRun(size, run, steps) && i <= n < |run| && d < |run[i].calls| && Stops(run[i].calls[d])
    ensures d < |run[n].calls| && Stops(run[n].calls[d])
    decreases n
  {
    hide Next, Enabled, Stops;
    if n > i {
      StopsForGood(size, run, steps, i, n - 1, d);
      ServerStep(run[n - 1], steps[n - 1]);
      CallStep(run[n - 1], steps[n - 1], d);
    }
  }

  // ----- When the grace period is skipped

  /** A loop has been told to stop, or may be with the next step. */
  ghost predicate StopComes(s: Server) {
    SomeStopped(s) || exists d :: 0 <= d < |s.calls| && Enabled(s, StopLoop(d))
  }

  /** After `c` took the receiver another call passed `TakeSlot`. */
  ghost predicate Joined(run: seq<Server>, steps: seq<Step>, n: nat, c: nat) {
    exists k, i, d :: 0 <= k < i < n && TookAt(run, steps, k, c) && i < |steps| && steps[i] == TakeSlot(d) && d != c
  }

  lemma {:induction false} SizeKept(size: nat, run: seq<Server>, steps: seq<Step>, n: nat)
    requires IsRun(size, run, steps) && n < |run|
    ensures |run[n].loops| == size
  {
    hide Next, Enabled;
    if n > 0 {
      SizeKept(size, run, steps, n - 1);
      ServerStep(run[n - 1], steps[n - 1]);
    }
  }

  lemma {:induction false} StopperStops(s: Server, d: nat)
    requires Inv(s) && d < |s.calls| && Stops(s.calls[d]) && |s.loops| > 0
    ensures StopComes(s)
  {
    hide Safety.Reachable;
    assert CallOk(s, d);
    match s.calls[d] {
      case Stopping(j, worker) =>
        if worker.Some? {
          assert EverStopped(s.loops[j]);
        } else if j == 0 {
          assert Enabled(s, StopLoop(d));
        } else {
          assert EverStopped(s.loops[0]);
        }
      case Finished => assert EverStopped(s.loops[0]);
    }
  }

  /** Exactly when the grace period is skipped: while a call waits, a loop has been told to
      stop or may be with the next step if and only if another call passed `TakeSlot`
      after the waiting one had taken the receiver. */
  lemma {:induction false} GraceSkippedExactly(size: nat, run: seq<Server>, steps: seq<Step>, n: nat, c: nat)
    requires size > 0 && IsRun(size, run, steps) && n < |run| && c < |run[n].calls| && Waiting(run[n].calls[c])
    ensures StopComes(run[n]) <==> Joined(run, steps, n, c)
  {
    WaitingTook(size, run, steps, n, c);
    var k :| 0 <= k < n && TookAt(run, steps, k, c);
    if StopComes(run[n]) {
      hide Next;
      var d := Stopper(size, run, steps, n);
      StopsPassed(size, run, steps, n, d);
      var i :| 0 <= i < n && steps[i] == TakeSlot(d);
      if i < k {
        SlotGone(size, run, steps, i, k);
        assert false;
      }
      assert k < i && d != c;
    }
    if Joined(run, steps, n, c) {
      JoinedStops(size, run, steps, n, c);
    }
  }

  lemma {:induction false} Stopper(size: nat, run: seq<Server>, steps: seq<Step>, n: nat) returns (d: nat)
    requires IsRun(size, run, steps) && n < |run| && StopComes(run[n])
    ensures d < |run[n].calls| && Stops(run[n].calls[d])
  {
    hide IsRun;
    if SomeStopped(run[n]) {
      StoppedBy(size, run, steps, n);
      d :| 0 <= d < |run[n].calls| && Stops(run[n].calls[d]);
    } else {
      d :| 0 <= d < |run[n].calls| && Enabled(run[n], StopLoop(d));
    }
  }

  lemma {:induction false} JoinedStops(size: nat, run: seq<Server>, steps: seq<Step>, n: nat, c: nat)
    requires size > 0 && IsRun(size, run, steps) && n < |run| && Joined(run, steps, n, c)
    ensures StopComes(run[n])
  {
    hide Next, StopComes, Stops, Inv;
    var k, i, d :| 0 <= k < i < n && TookAt(run, steps, k, c) && i < |steps| && steps[i] == TakeSlot(d) && d != c;
    SlotGone(size, run, steps, k, i);
    ServerStep(run[i], steps[i]);
    CallStep(run[i], steps[i], d);
    StopsForGood(size, run, steps, i + 1, n, d);
    RunKeeps(size, run, steps, n);
    SizeKept(size, run, steps, n);
    StopperStops(run[n], d);
  }

  // ----- Callers one after the other

  /** If the receiver is gone, the first call is past taking it. */
  predicate FirstTook(s: Server) {
    !s.slot ==> s.calls != [] && (Waiting(s.calls[0]) || Stops(s.calls[0]))
  }

  lemma {:induction false} FirstTookStep(s: Server, step: Step)
    requires Enabled(s, step) && FirstTook(s) && OneByOne(s)
    ensures FirstTook(Next(s, step))
    ensures step == TakeSlot(0) ==> s.slot
  {
    hide P.Next, P.Enabled;
  }

  lemma {:induction false} RunFirstTook(size: nat, run: seq<Server>, steps: seq<Step>, n: nat)
    requires IsRun(size, run, steps) && InTurn(run, steps) && n < |run|
    ensures FirstTook(run[n])
  {
    hide Next, Enabled, OneByOne;
    if n > 0 {
      hide FirstTook;
      RunFirstTook(size, run, steps, n - 1);
      RunOneByOne(size, run, steps, n - 1);
      FirstTookStep(run[n - 1], steps[n - 1]);
    }
  }

  /** The drain of call `c` is behind it: the first one in time, or the second one. */
  ghost predicate Drained(steps: seq<Step>, n: nat, c: nat) {
    exists m :: 0 <= m < n <= |steps| && (steps[m] == Wait(c, true) || (steps[m].WaitAgain? && steps[m].call == c))
  }

  /** Callers one after the other, as many as there are: no loop is told to stop while a
      call still waits, nor before the drain of the first call is over. */
  lemma {:induction false} LoopsStopLast(size: nat, run: seq<Server>, steps: seq<Step>, n: nat, j: nat, c: nat)
    requires IsRun(size, run, steps) && InTurn(run, steps) && n < |run|
    requires j < |run[n].loops| && EverStopped(run[n].loops[j]) && c < |run[n].calls|
    ensures !Waiting(run[n].calls[c])
    ensures Drained(steps, n, 0)
  {
    assert SomeStopped(run[n]);
    hide Next, Enabled, SomeStopped, EverStopped;
    StoppedBy(size, run, steps, n);
    var d :| 0 <= d < |run[n].calls| && Stops(run[n].calls[d]);
    RunOneByOne(size, run, steps, n);
    assert Stops(run[n].calls[0]);
    StopsSince(size, run, steps, n, 0);
    var i :| 0 <= i < n && Turns(run[i], steps[i], 0);
    RunFirstTook(size, run, steps, i);
    RunOneByOne(size, run, steps, i);
    FirstTookStep(run[i], steps[i]);
    if Waiting(run[n].calls[c]) {
      LastWaits(size, run, steps, n, c, d);
      assert false;
    }
  }

  /** While a call waits, no other has turned to stopping. */
  lemma {:induction false} LastWaits(size: nat, run: seq<Server>, steps: seq<Step>, n: nat, c: nat, d: nat)
    requires IsRun(size, run, steps) && InTurn(run, steps) && n < |run| && c < |run[n].calls| && d < |run[n].calls|
    requires Waiting(run[n].calls[c])
    ensures !Stops(run[n].calls[d])
  {
    hide Next, Enabled;
    RunOneByOne(size, run, steps, n);
    WaitingTook(size, run, steps, n, c);
    var k :| 0 <= k < n && TookAt(run, steps, k, c);
    FirstTakes(size, run, steps, k, c);
  }

  lemma {:induction false} FirstTakes(size: nat, run: seq<Server>, steps: seq<Step>, k: nat, c: nat)
    requires IsRun(size, run, steps) && InTurn(run, steps) && TookAt(run, steps, k, c)
    ensures c == 0
  {
    assert Enabled(run[k], steps[k]);
    hide Next;
    RunOneByOne(size, run, steps, k);
    if c > 0 {
      StopsPassed(size, run, steps, k, 0);
      var i :| 0 <= i < k && steps[i] == TakeSlot(0);
      SlotGone(size, run, steps, i, k);
      assert false;
    }
  }

  // ----- Who is asked to cancel

  /** Since its drain timed out, call `c` has asked every live task of loop `j`. */
  ghost predicate AskedSince(run: seq<Server>, steps: seq<Step>, m: nat, n: nat, c: nat, j: nat)
    requires |steps| < |run| && n <= |steps|
  {
    exists k :: m < k < n && steps[k] == CancelLoop(c) && At(run[k], c, Cancelling(j))
      && j < |run[k].loops| && j < |run[k + 1].asked| && run[k].loops[j].live <= run[k + 1].asked[j]
  }

  /** How far a call that is cancelling has come. */
  ghost predicate Asks(run: seq<Server>, steps: seq<Step>, n: nat, c: nat, upTo: nat)
    requires |steps| < |run| && n <= |steps|
  {
    exists m :: 0 <= m < n && steps[m] == Wait(c, false) && forall j :: 0 <= j < upTo ==> AskedSince(run, steps, m, n, c, j)
  }

  lemma {:induction false} AsksOn(run: seq<Server>, steps: seq<Step>, n: nat, c: nat, upTo: nat)
    requires |steps| < |run| && n < |steps| && Asks(run, steps, n, c, upTo)
    ensures Asks(run, steps, n + 1, c, upTo)
  {
    var m :| 0 <= m < n && steps[m] == Wait(c, false) && forall j :: 0 <= j < upTo ==> AskedSince(run, steps, m, n, c, j);
    var later := n + 1;
    forall j | 0 <= j < upTo ensures AskedSince(run, steps, m, later, c, j) {
      assert AskedSince(run, steps, m, n, c, j);
    }
  }

  /** The step of a call that is cancelling, or comes to. */
  lemma {:induction false} CancelStep(s: Server, step: Step, c: nat)
    requires Enabled(s, step) && c < |Next(s, step).calls|
    ensures var call := Next(s, step).calls[c];
            && (call.Cancelling? ==>
                  || (c < |s.calls| && s.calls[c] == call && step != CancelLoop(c))
                  || (step == Wait(c, false) && call.loop == 0)
                  || (step == CancelLoop(c) && call.loop > 0 && At(s, c, Cancelling(call.loop - 1)) && call.loop - 1 < |s.loops|
                      && call.loop - 1 < |Next(s, step).asked| && s.loops[call.loop - 1].live <= Next(s, step).asked[call.loop - 1]))
            && (call.DrainingAgain? ==>
                  || (c < |s.calls| && s.calls[c] == call)
                  || (step == CancelLoop(c) && c < |s.calls| && s.calls[c].Cancelling? && s.calls[c].loop >= |s.loops|))
  {
    hide P.Next, P.Enabled;
  }

  lemma {:induction false} AsksNext(run: seq<Server>, steps: seq<Step>, n: nat, c: nat, j: nat)
    requires |steps| < |run| && n < |steps| && Asks(run, steps, n, c, j)
    requires steps[n] == CancelLoop(c) && At(run[n], c, Cancelling(j)) && j < |run[n].loops| && j < |run[n + 1].asked|
    requires run[n].loops[j].live <= run[n + 1].asked[j]
    ensures Asks(run, steps, n + 1, c, j + 1)
  {
    var m :| 0 <= m < n && steps[m] == Wait(c, false) && forall i :: 0 <= i < j ==> AskedSince(run, steps, m, n, c, i);
    var later := n + 1;
    forall i | 0 <= i < j + 1 ensures AskedSince(run, steps, m, later, c, i) {
      if i < j { assert AskedSince(run, steps, m, n, c, i); }
    }
  }

  lemma {:induction false} CancellingAsks(size: nat, run: seq<Server>, steps: seq<Step>, n: nat, c: nat)
    requires IsRun(size, run, steps) && n < |run| && c < |run[n].calls|
    ensures run[n].calls[c].Cancelling? ==> Asks(run, steps, n, c, run[n].calls[c].loop)
    ensures run[n].calls[c].DrainingAgain? ==> Asks(run, steps, n, c, size)
  {
    hide Next, Enabled, AskedSince;
    if n > 0 {
      var call := run[n].calls[c];
      CancelStep(run[n - 1], steps[n - 1], c);
      SizeKept(size, run, steps, n - 1);
      if call.Cancelling? || call.DrainingAgain? {
        if steps[n - 1] == Wait(c, false) && call == Cancelling(0) {
          assert steps[n - 1] == Wait(c, false);
        } else {
          CancellingAsks(size, run, steps, n - 1, c);
          hide Asks;
          var before := run[n - 1].calls[c];
          if before == call {
            AsksOn(run, steps, n - 1, c, if call.Cancelling? then call.loop else size);
          } else if call.Cancelling? {
            AsksNext(run, steps, n - 1, c, before.loop);
          } else {
            AsksFewer(run, steps, n - 1, c, before.loop, size);
            AsksOn(run, steps, n - 1, c, size);
          }
        }
      }
    }
  }

  lemma {:induction false} AsksFewer(run: seq<Server>, steps: seq<Step>, n: nat, c: nat, upTo: nat, less: nat)
    requires |steps| < |run| && n <= |steps| && Asks(run, steps, n, c, upTo) && less <= upTo
    ensures Asks(run, steps, n, c, less)
  {
    hide AskedSince;
  }

  /** Between a call's drain that timed out and its second one, every task that is live on
      any loop when that loop's turn comes is asked to cancel. */
  lemma {:induction false} EveryLoopAsked(size: nat, run: seq<Server>, steps: seq<Step>, n: nat, c: nat)
    requires IsRun(size, run, steps) && n < |steps| && steps[n].WaitAgain? && steps[n].call == c
    ensures exists m :: 0 <= m < n && steps[m] == Wait(c, false) && forall j :: 0 <= j < size ==> AskedSince(run, steps, m, n, c, j)
  {
    assert Enabled(run[n], steps[n]);
    hide Next, Enabled, AskedSince;
    CancellingAsks(size, run, steps, n, c);
  }

  /** Every call that is past its first step has signalled shutdown. */
  lemma {:induction false} SignalledFirst(size: nat, run: seq<Server>, steps: seq<Step>, n: nat, c: nat)
    requires IsRun(size, run, steps) && n < |run| && c < |run[n].calls| && !run[n].calls[c].Signalling?
    ensures run[n].signalled
  {
    hide Next, Enabled;
    if n > 0 {
      SignalStep(run[n - 1], steps[n - 1], c);
      if c < |run[n - 1].calls| && !run[n - 1].calls[c].Signalling? { SignalledFirst(size, run, steps, n - 1, c); }
    }
  }

  lemma {:induction false} SignalStep(s: Server, step: Step, c: nat)
    requires Enabled(s, step) && c < |Next(s, step).calls| && !Next(s, step).calls[c].Signalling?
    ensures Next(s, step).signalled || (c < |s.calls| && !s.calls[c].Signalling?)
    ensures s.signalled ==> Next(s, step).signalled
  {
    hide P.Next, P.Enabled;
  }
}
