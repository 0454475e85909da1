/** Shutdown comes to an end: whatever the interleaving of callers, `schedule` calls and
    loop threads, and however the timed drains go, every `shutdown_impl` call returns. */
module ShutdownProgress {
  import opened Wrappers
  import opened Sums
  import P = Protocol
  import Safety = ProtocolSafety
  import Race = ProtocolRace
  import Work = ProtocolProgress
  import opened Shutdown
  import opened ShutdownOrder

  /** A step of a call under way or of a loop's own work; the others are new calls, and what
      comes in on a loop. */
  predicate Works(step: Step) {
    !step.Invoke? && (step.OnLoop? ==> Work.Work(step.step))
  }

  predicate AllBack(s: Server) {
    && (forall c :: 0 <= c < |s.calls| ==> s.calls[c].Finished?)
    && (forall j :: 0 <= j < |s.loops| ==> Work.AllBack(s.loops[j]))
  }

  // ----- What is left to do

  /** Stopping one loop takes five units: the two steps here and what they start there. */
  function CallCost(call: Call, size: nat): nat {
    match call
    case Finished => 0
    case Stopping(j, worker) =>
      if worker.None? then 5 * (if j < size then size - j else 0) + 1 else 5 * (if j < size then size - j else 1) - 3
    case DrainingAgain => 5 * size + 2
    case Cancelling(j) => 5 * size + 3 + if j < size then size - j else 0
    case Draining => 6 * size + 4
    case TakingSlot => 6 * size + 5
    case Signalling => 6 * size + 6
  }

  function CallCosts(calls: seq<Call>, size: nat): seq<nat> {
    seq(|calls|, c requires 0 <= c < |calls| => CallCost(calls[c], size))
  }

  function LoopCosts(loops: seq<P.State>): seq<nat> {
    seq(|loops|, j requires 0 <= j < |loops| => Work.Cost(loops[j]))
  }

  function Cost(s: Server): nat {
    Sum(CallCosts(s.calls, |s.loops|)) + Sum(LoopCosts(s.loops))
  }

  lemma {:induction false} SetCall(calls: seq<Call>, size: nat, c: nat, call: Call)
    requires c < |calls|
    ensures Sum(CallCosts(calls[c := call], size)) == Sum(CallCosts(calls, size)) - CallCost(calls[c], size) + CallCost(call, size)
  {
    hide Sum, CallCost;
    SumUpdate(CallCosts(calls, size), c, CallCost(call, size));
    assert CallCosts(calls[c := call], size) == CallCosts(calls, size)[c := CallCost(call, size)];
  }

  lemma {:induction false} SetLoop(loops: seq<P.State>, j: nat, l: P.State)
    requires j < |loops|
    ensures Sum(LoopCosts(loops[j := l])) == Sum(LoopCosts(loops)) - Work.Cost(loops[j]) + Work.Cost(l)
  {
    hide Sum, Work.Cost;
    SumUpdate(LoopCosts(loops), j, Work.Cost(l));
    assert LoopCosts(loops[j := l]) == LoopCosts(loops)[j := Work.Cost(l)];
  }

  // ----- Work gets less

  /** A `stop` that begins adds three units to its loop at most. */
  lemma {:induction false} StopAdds(l: P.State)
    ensures Work.Cost(P.Next(l, P.CallStop)) <= Work.Cost(l) + 3
  {
    hide Sum, Work.RequestCosts, Work.ThreadCosts;
    var w := P.Thread(if |l.workers| == 1 then P.Joining else P.Draining, {}, None);
    SumAppend(Work.ThreadCosts(l.workers), Work.ThreadCost(w));
    WorkersGrow(l.workers, w);
  }

  lemma {:induction false} WorkersGrow(workers: seq<P.Thread>, w: P.Thread)
    ensures Work.ThreadCosts(workers + [w]) == Work.ThreadCosts(workers) + [Work.ThreadCost(w)]
  {
    hide Work.ThreadCost;
  }

  /** The step of a call, by itself. */
  lemma {:induction false} CallLowers(s: Server, step: Step, c: nat)
    requires Enabled(s, step) && !step.OnLoop? && !step.Invoke? && step.call == c && c < |s.calls| && CallOk(s, c)
    ensures var t := Next(s, step);
            && t.calls == s.calls[c := t.calls[c]] && |t.loops| == |s.loops|
            && (!step.StopLoop? ==> t.loops == s.loops)
            && CallCost(t.calls[c], |s.loops|) + (if step.StopLoop? then 3 else 0) < CallCost(s.calls[c], |s.loops|)
  {
    hide P.Next, P.Enabled;
  }

  lemma {:induction false} WorkLowers(s: Server, step: Step)
    requires Inv(s) && Enabled(s, step) && Works(step)
    ensures Cost(Next(s, step)) < Cost(s)
  {
    hide P.Next, P.Enabled, Safety.Reachable, CallOk, CallCost, CallCosts, LoopCosts, Sum, Work.Cost, Work.Work;
    if step.OnLoop? {
      Work.WorkLowers(s.loops[step.loop], step.step);
      SetLoop(s.loops, step.loop, P.Next(s.loops[step.loop], step.step));
    } else {
      var c := step.call;
      CallLowers(s, step, c);
      SetCall(s.calls, |s.loops|, c, Next(s, step).calls[c]);
      if step.StopLoop? {
        var j := s.calls[c].loop;
        StopIsEnabled(s.loops[j]);
        StopAdds(s.loops[j]);
        SetLoop(s.loops, j, P.Next(s.loops[j], P.CallStop));
      }
    }
  }

  // ----- Work goes on

  /** A call that has not returned can go on, or waits for a loop that can. */
  lemma {:induction false} WorkThere(s: Server) returns (step: Step)
    requires Inv(s) && !AllBack(s)
    ensures Enabled(s, step) && Works(step)
  {
    hide P.Next, P.Enabled, Safety.Reachable, Work.Work, Work.AllBack;
    if j :| 0 <= j < |s.loops| && !Work.AllBack(s.loops[j]) {
      var inner := Work.WorkThere(s.loops[j]);
      NoStopCall(inner);
      step := OnLoop(j, inner);
    } else {
      var c :| 0 <= c < |s.calls| && !s.calls[c].Finished?;
      assert CallOk(s, c);
      step := CallGoesOn(s, c);
    }
  }

  lemma {:induction false} NoStopCall(step: P.Step)
    requires Work.Work(step)
    ensures !step.CallStop?
  {
  }

  lemma {:induction false} CallGoesOn(s: Server, c: nat) returns (step: Step)
    requires c < |s.calls| && !s.calls[c].Finished? && CallOk(s, c) && |s.asked| == |s.loops|
    requires forall j :: 0 <= j < |s.loops| ==> Work.AllBack(s.loops[j])
    ensures Enabled(s, step) && Works(step)
  {
    match s.calls[c] {
      case Signalling => step := Signal(c);
      case TakingSlot => step := TakeSlot(c);
      case Draining => step := Wait(c, true);
      case Cancelling(_) => step := CancelLoop(c);
      case DrainingAgain => step := WaitAgain(c, true);
      case Stopping(j, worker) =>
        step := if worker.Some? then LoopStopped(c) else if j < |s.loops| then StopLoop(c) else Return(c);
    }
  }

  // ----- Every call returns

  lemma {:induction false} WorkBounded(size: nat, run: seq<Server>, steps: seq<Step>, a: nat, b: nat)
    requires IsRun(size, run, steps) && a <= b < |run| && forall k :: a <= k < b ==> Works(steps[k])
    ensures Cost(run[b]) + (b - a) <= Cost(run[a])
    decreases b
  {
    hide Next, Enabled, Works, Cost, Inv;
    if b > a {
      WorkBounded(size, run, steps, a, b - 1);
      RunKeeps(size, run, steps, b - 1);
      WorkLowers(run[b - 1], steps[b - 1]);
    }
  }

  ghost predicate AtRest(s: Server) {
    forall step :: Enabled(s, step) ==> !Works(step)
  }

  /** Termination: from any point of any run the calls under way, on the server and on its
      loops, do no more steps than what was left then, however they are interleaved and
      however the drains go, and when nothing of it can go on every one has returned. */
  lemma {:induction false} EveryShutdownReturns(size: nat, run: seq<Server>, steps: seq<Step>, a: nat)
    requires IsRun(size, run, steps) && a <= |steps| && forall k :: a <= k < |steps| ==> Works(steps[k])
    ensures |steps| - a <= Cost(run[a])
    ensures AtRest(run[|steps|]) ==> AllBack(run[|steps|])
  {
    WorkBounded(size, run, steps, a, |steps|);
    hide Next, Enabled, Cost, Works, Inv;
    RunKeeps(size, run, steps, |steps|);
    if AtRest(run[|steps|]) && !AllBack(run[|steps|]) {
      var step := WorkThere(run[|steps|]);
      assert false;
    }
  }

  /** No deadlock: every run can go on until every call has returned. */
  lemma {:induction false} ShutdownsCanReturn(size: nat, run: seq<Server>, steps: seq<Step>)
    returns (longer: seq<Server>, more: seq<Step>)
    requires IsRun(size, run, steps)
    ensures IsRun(size, longer, more) && run <= longer && steps <= more
    ensures (forall k :: |steps| <= k < |more| ==> Works(more[k])) && AllBack(longer[|more|])
    decreases Cost(run[|steps|])
  {
    hide Next, Enabled, Cost, Works, Inv, AllBack;
    var s := run[|steps|];
    RunKeeps(size, run, steps, |steps|);
    if AllBack(s) {
      longer, more := run, steps;
    } else {
      var step := WorkThere(s);
      WorkLowers(s, step);
      RunOn(size, run, steps, step);
      longer, more := ShutdownsCanReturn(size, run + [Next(s, step)], steps + [step]);
    }
  }

  lemma {:induction false} RunOn(size: nat, run: seq<Server>, steps: seq<Step>, step: Step)
    requires IsRun(size, run, steps) && Enabled(run[|steps|], step)
    ensures IsRun(size, run + [Next(run[|steps|], step)], steps + [step])
  {
    hide Next, Enabled;
  }

  // ----- The drains are left open

  /** However a run has gone, a call that is draining may drain in time, and turn to stopping
      the loops, or run out of time, and then goes on to its second drain. */
  lemma {:induction false} DrainsEitherWay(size: nat, run: seq<Server>, steps: seq<Step>, c: nat, drained: bool)
    returns (longer: seq<Server>, more: seq<Step>)
    requires IsRun(size, run, steps) && At(run[|steps|], c, Draining)
    ensures IsRun(size, longer, more) && run <= longer && steps <= more
    ensures |steps| < |more| && more[|steps|] == Wait(c, drained) && forall k :: |steps| <= k < |more| ==> Works(more[k])
    ensures At(longer[|more|], c, if drained then Stopping(0, None) else DrainingAgain)
  {
    var s, step := run[|steps|], Wait(c, drained);
    longer, more := run + [Next(s, step)], steps + [step];
    hide P.Next, P.Enabled;
    RunOn(size, run, steps, step);
    if !drained {
      hide Next, Enabled, Works;
      longer, more := CancelsOn(size, longer, more, c, 0);
    }
  }

  lemma {:induction false} CancelsOn(size: nat, run: seq<Server>, steps: seq<Step>, c: nat, j: nat)
    returns (longer: seq<Server>, more: seq<Step>)
    requires IsRun(size, run, steps) && At(run[|steps|], c, Cancelling(j)) && j <= size
    ensures IsRun(size, longer, more) && run <= longer && steps <= more
    ensures (forall k :: |steps| <= k < |more| ==> Works(more[k])) && At(longer[|more|], c, DrainingAgain)
    decreases size - j
  {
    var s := run[|steps|];
    RunKeeps(size, run, steps, |steps|);
    SizeKept(size, run, steps, |steps|);
    hide P.Next, P.Enabled, Safety.Reachable, CallOk, IsRun;
    longer, more := run + [Next(s, CancelLoop(c))], steps + [CancelLoop(c)];
    RunOn(size, run, steps, CancelLoop(c));
    if j < size {
      hide Next, Enabled, Works, Inv;
      longer, more := CancelsOn(size, longer, more, c, j + 1);
    }
  }
}
