/** Which tasks are finished when every call is over: all but those that never reached
    the loop and that no `stop` picked up on the way. */
module ProtocolFinish {
  import opened Wrappers
  import opened Protocol
  import opened ProtocolSafety
  import opened ProtocolRace

  // ----- A task that no thread touches

  /** Nobody has it, and nobody has finished it. */
  ghost predicate Untouched(s: State, i: nat) {
    i < |s.requests| && !s.requests[i].finished && forall k :: 0 <= k < |s.workers| ==> !Has(s.workers[k], i)
  }

  /** Its `schedule` call has given up on the loop. */
  predicate GaveUp(pc: Pc) {
    pc.AllocFailed? || Rejected(pc)
  }

  lemma {:induction false} AdvanceUntouched(s: State, k: nat, i: nat)
    requires Busy(s, k) && Untouched(s, i)
    ensures Untouched(Advanced(s, k), i)
  {
    hide Worked;
    var t, job := Advanced(s, k), s.workers[k].job.value;
    assert Has(s.workers[k], job.request);
    forall l | 0 <= l < |t.workers| ensures !Has(t.workers[l], i) {
      assert !Has(s.workers[l], i);
    }
  }

  lemma {:induction false} MovedFinished(r: Request, step: Step)
    requires OnRequest(step) && (step.RemoveCallback? ==> r.pending > 0)
    ensures Moved(r, step).finished == r.finished
  {
  }

  /** It stays so unless it is drained, or its turn comes. */
  lemma {:induction false} UntouchedStays(s: State, step: Step, i: nat)
    requires Untouched(s, i) && Enabled(s, step) && step != BeginTurn(i)
    requires !(step.Drain? && i in s.live)
    ensures Untouched(Next(s, step), i)
  {
    hide Moved, Worked, Onward, Advanced;
    if step.Advance? {
      AdvanceUntouched(s, step.worker, i);
    } else if OnRequest(step) {
      MovedFinished(s.requests[step.request], step);
    } else {
      var t := Next(s, step);
      forall l | 0 <= l < |t.workers| ensures !Has(t.workers[l], i) {
        if l < |s.workers| { assert !Has(s.workers[l], i); }
      }
    }
  }

  lemma {:induction false} NewIsUntouched(s: State, i: nat)
    requires Inv(s) && i < |s.requests| && !Past(s.requests[i].pc)
    ensures Untouched(s, i) && i !in s.live
  {
    assert RequestOk(s, i);
    assert i in s.live ==> LiveOk(s, i);
    forall k | 0 <= k < |s.workers| ensures !Has(s.workers[k], i) {
      assert ThreadOk(s, k);
    }
  }

  // ----- What a `schedule` call goes through

  lemma {:induction false} PcStep(s: State, step: Step, i: nat)
    requires Enabled(s, step) && i < |s.requests|
    ensures var t := Next(s, step);
            && i < |t.requests|
            && (s.requests[i].pc.Accepted? ==> t.requests[i].pc.Accepted?)
            && (t.requests[i].pc != s.requests[i].pc ==> OnRequest(step) && step.request == i)
  {
    if step.Advance? { AdvanceKeepsPcs(s, step.worker); }
    hide Worked, Onward, Advanced;
  }

  lemma {:induction false} GaveUpStep(s: State, step: Step, i: nat)
    requires Enabled(s, step) && i < |Next(s, step).requests|
    ensures var t := Next(s, step);
            && (i < |s.requests| && GaveUp(s.requests[i].pc) ==>
                  GaveUp(t.requests[i].pc) && (i !in s.live ==> i !in t.live))
            && (GaveUp(t.requests[i].pc) ==>
                  (i < |s.requests| && GaveUp(s.requests[i].pc)) || step == AllocFail(i) || step == TakeBack(i))
            && (Listed(t.requests[i].pc) ==> (i < |s.requests| && Listed(s.requests[i].pc)) || step == Insert(i))
  {
    if i < |s.requests| {
      PcStep(s, step, i);
      if OnRequest(step) && step.request == i {
        MovedPc(s.requests[i], step);
        hide Moved;
      } else {
        LiveStep(s, step, i);
        hide Next, Enabled;
      }
    }
  }

  lemma {:induction false} LiveStep(s: State, step: Step, i: nat)
    requires Enabled(s, step) && !(OnRequest(step) && step.request == i)
    ensures i !in s.live ==> i !in Next(s, step).live
  {
    hide Moved, Worked, Onward;
  }

  lemma {:induction false} MovedPc(r: Request, step: Step)
    requires OnRequest(step) && (step.RemoveCallback? ==> r.pending > 0)
    ensures var pc := Moved(r, step).pc;
            && (GaveUp(pc) ==> GaveUp(r.pc) || step.AllocFail? || step.TakeBack? || step.SendRefusal?)
            && (Listed(pc) ==> Listed(r.pc) || step.Insert? || step.Enqueue?)
            && (GaveUp(r.pc) ==> GaveUp(pc) || step.Build? || step.Insert? || step.Enqueue?)
  {
  }

  lemma {:induction false} GaveUpSince(run: seq<State>, steps: seq<Step>, n: nat, i: nat)
    requires IsRun(run, steps) && n < |run| && i < |run[n].requests| && GaveUp(run[n].requests[i].pc)
    ensures exists m :: 0 <= m < n && (steps[m] == AllocFail(i) || steps[m] == TakeBack(i))
  {
    hide Next, Enabled, GaveUp;
    if n > 0 {
      GaveUpStep(run[n - 1], steps[n - 1], i);
      if steps[n - 1] != AllocFail(i) && steps[n - 1] != TakeBack(i) { GaveUpSince(run, steps, n - 1, i); }
    }
  }

  lemma {:induction false} ListedSince(run: seq<State>, steps: seq<Step>, n: nat, i: nat)
    requires IsRun(run, steps) && n < |run| && i < |run[n].requests| && Listed(run[n].requests[i].pc)
    ensures exists m :: 0 <= m < n && steps[m] == Insert(i)
  {
    hide Next, Enabled, Listed;
    if n > 0 {
      GaveUpStep(run[n - 1], steps[n - 1], i);
      if steps[n - 1] != Insert(i) { ListedSince(run, steps, n - 1, i); }
    }
  }

  /** Once accepted, or once given up, for good. */
  lemma {:induction false} Settles(run: seq<State>, steps: seq<Step>, m: nat, n: nat, i: nat)
    requires IsRun(run, steps) && m <= n < |run| && i < |run[m].requests|
    ensures i < |run[n].requests|
    ensures run[m].requests[i].pc.Accepted? ==> run[n].requests[i].pc.Accepted?
    ensures GaveUp(run[m].requests[i].pc) ==> GaveUp(run[n].requests[i].pc)
    decreases n
  {
    hide Next, Enabled, GaveUp;
    if n > m {
      Settles(run, steps, m, n - 1, i);
      PcStep(run[n - 1], steps[n - 1], i);
      GaveUpStep(run[n - 1], steps[n - 1], i);
    }
  }

  /** Between its insertion and its being taken back a request is neither accepted nor
      given up. */
  lemma {:induction false} Undecided(run: seq<State>, steps: seq<Step>, l: nat, m: nat, i: nat)
    requires IsRun(run, steps) && l <= m < |steps| && steps[m] == TakeBack(i) && i < |run[l].requests|
    ensures !run[l].requests[i].pc.Accepted? && !GaveUp(run[l].requests[i].pc)
    ensures l < m ==> steps[l] != TakeBack(i)
  {
    Settles(run, steps, l, m, i);
    if l < m && steps[l] == TakeBack(i) {
      Settles(run, steps, l + 1, m, i);
      assert false;
    }
  }

  // ----- Untouched to the end

  lemma {:induction false} OutStays(run: seq<State>, steps: seq<Step>, m: nat, n: nat, i: nat)
    requires IsRun(run, steps) && m <= n < |run| && Untouched(run[m], i)
    requires i !in run[m].live && GaveUp(run[m].requests[i].pc)
    ensures Untouched(run[n], i) && i !in run[n].live && GaveUp(run[n].requests[i].pc)
    decreases n
  {
    hide Next;
    if n > m {
      OutStays(run, steps, m, n - 1, i);
      UntouchedStays(run[n - 1], steps[n - 1], i);
      GaveUpStep(run[n - 1], steps[n - 1], i);
    }
  }

  predicate NoDrainBetween(steps: seq<Step>, n: nat, m: nat) {
    forall l :: n < l < m && l < |steps| ==> !steps[l].Drain?
  }

  lemma {:induction false} UntouchedUntil(run: seq<State>, steps: seq<Step>, n: nat, l: nat, m: nat, i: nat)
    requires IsRun(run, steps) && n < l <= m < |steps| && steps[n] == Insert(i) && steps[m] == TakeBack(i)
    requires NoDrainBetween(steps, n, m)
    ensures Untouched(run[l], i)
    decreases l
  {
    RunKeeps(run, steps, l - 1);
    hide Next, Inv;
    if l == n + 1 {
      NewIsUntouched(run[n], i);
    } else {
      UntouchedUntil(run, steps, n, l - 1, m, i);
      Undecided(run, steps, l - 1, m, i);
    }
    UntouchedStays(run[l - 1], steps[l - 1], i);
  }

  /** Refused with no `stop` draining the registry while the request was on it. */
  ghost predicate RefusedUndrained(steps: seq<Step>, i: nat) {
    exists n, m :: 0 <= n < m < |steps| && steps[n] == Insert(i) && steps[m] == TakeBack(i) && NoDrainBetween(steps, n, m)
  }

  lemma {:induction false} NeverReached(run: seq<State>, steps: seq<Step>, i: nat)
    requires IsRun(run, steps) && (AllocFail(i) in steps || RefusedUndrained(steps, i))
    ensures Untouched(run[|steps|], i)
  {
    if AllocFail(i) in steps {
      var m :| 0 <= m < |steps| && steps[m] == AllocFail(i);
      RunKeeps(run, steps, m);
      NewIsUntouched(run[m], i);
      hide Inv;
      UntouchedStays(run[m], steps[m], i);
      OutStays(run, steps, m + 1, |steps|, i);
    } else {
      var n, m :| 0 <= n < m < |steps| && steps[n] == Insert(i) && steps[m] == TakeBack(i) && NoDrainBetween(steps, n, m);
      UntouchedUntil(run, steps, n, m, m, i);
      UntouchedStays(run[m], steps[m], i);
      OutStays(run, steps, m + 1, |steps|, i);
    }
  }

  // ----- Picked up by a `stop`

  /** It is finished, or with a `stop` that will finish it. */
  ghost predicate Doomed(s: State, i: nat) {
    i < |s.requests| && (s.requests[i].finished || exists k :: 1 <= k < |s.workers| && Has(s.workers[k], i))
  }

  lemma {:induction false} AdvanceDoomed(s: State, k: nat, i: nat)
    requires Inv(s) && Busy(s, k) && Doomed(s, i)
    ensures Doomed(Advanced(s, k), i)
  {
    assert ThreadOk(s, k);
    hide Inv;
    var t := Advanced(s, k);
    if !s.requests[i].finished {
      var l :| 1 <= l < |s.workers| && Has(s.workers[l], i);
      if l != k || i in s.workers[k].left {
        assert Has(t.workers[l], i);
      } else {
        assert s.workers[k].job.value.stage.Working? || s.workers[k].job.value.stage.Mark?;
        assert t.requests[i].finished || Has(t.workers[k], i);
      }
    }
  }

  lemma {:induction false} HasStays(s: State, step: Step, l: nat, i: nat)
    requires Enabled(s, step) && !step.Advance? && 1 <= l < |s.workers| && Has(s.workers[l], i)
    requires step.Drain? ==> step.worker < |s.workers| && s.workers[step.worker].left == {}
    ensures l < |Next(s, step).workers| && Has(Next(s, step).workers[l], i)
  {
    hide Moved, Advanced;
  }

  lemma {:induction false} FinishedStays(s: State, step: Step, i: nat)
    requires Enabled(s, step) && !step.Advance? && i < |s.requests|
    ensures i < |Next(s, step).requests| && Next(s, step).requests[i].finished == s.requests[i].finished
  {
    if OnRequest(step) { MovedFinished(s.requests[step.request], step); }
    hide Moved, Advanced;
  }

  lemma {:induction false} DoomedStays(s: State, step: Step, i: nat)
    requires Inv(s) && Enabled(s, step) && Doomed(s, i)
    ensures Doomed(Next(s, step), i)
  {
    if step.Advance? {
      AdvanceDoomed(s, step.worker, i);
    } else {
      if step.Drain? { assert ThreadOk(s, step.worker); }
      FinishedStays(s, step, i);
      hide Inv, Has, Next;
      if !s.requests[i].finished {
        var l :| 1 <= l < |s.workers| && Has(s.workers[l], i);
        HasStays(s, step, l, i);
      }
    }
  }

  lemma {:induction false} DoomedForGood(run: seq<State>, steps: seq<Step>, m: nat, n: nat, i: nat)
    requires IsRun(run, steps) && m <= n < |run| && Doomed(run[m], i)
    ensures Doomed(run[n], i)
    decreases n
  {
    hide Next, Enabled, Doomed;
    if n > m {
      DoomedForGood(run, steps, m, n - 1, i);
      RunKeeps(run, steps, n - 1);
      hide Inv;
      DoomedStays(run[n - 1], steps[n - 1], i);
    }
  }

  /** On the registry until taken back, unless a `stop` gets it first. */
  lemma {:induction false} ListedOrDoomed(s: State, step: Step, i: nat)
    requires Inv(s) && Enabled(s, step) && i < |s.requests| && i in s.live
    requires !s.requests[i].pc.Accepted? && step != TakeBack(i)
    ensures if step.Drain? then Doomed(Next(s, step), i) else i in Next(s, step).live
  {
    assert ThreadOk(s, 0);
    if step.Advance? || step.Drain? { assert ThreadOk(s, step.worker); }
    hide Inv, Worked, Onward, Moved;
    if step.Drain? { assert Has(Next(s, step).workers[step.worker], i); }
  }

  lemma {:induction false} InsertLists(s: State, step: Step, i: nat)
    requires Enabled(s, step) && step == Insert(i)
    ensures i < |s.requests| && i in Next(s, step).live
  {
    hide Moved;
  }

  lemma {:induction false} DrainedBetween(run: seq<State>, steps: seq<Step>, n: nat, l: nat, m: nat, i: nat)
    requires IsRun(run, steps) && n < l <= m < |steps| && steps[n] == Insert(i) && steps[m] == TakeBack(i)
    ensures if NoDrainBetween(steps, n, l) then i in run[l].live else Doomed(run[l], i)
    decreases l
  {
    hide Next, Inv, Enabled;
    InsertLists(run[n], steps[n], i);
    if l > n + 1 {
      DrainedBetween(run, steps, n, l - 1, m, i);
      RunKeeps(run, steps, l - 1);
      Settles(run, steps, n, l - 1, i);
      Undecided(run, steps, l - 1, m, i);
      if NoDrainBetween(steps, n, l - 1) {
        ListedOrDoomed(run[l - 1], steps[l - 1], i);
      } else {
        DoomedStays(run[l - 1], steps[l - 1], i);
      }
    }
  }

  lemma {:induction false} OverIsFinished(s: State, i: nat)
    requires Inv(s) && StopsReturned(s) && Doomed(s, i)
    ensures s.requests[i].finished
  {
    if !s.requests[i].finished {
      var k :| 1 <= k < |s.workers| && Has(s.workers[k], i);
      IdleThread(s, k);
      assert false;
    }
  }

  /** Exactly which tasks are unfinished when every call is over: those that were never
      allocated, those refused with no drain between their insertion and their being taken
      back, and those stranded because closing the loop failed. */
  lemma {:induction false} UnfinishedExactly(run: seq<State>, steps: seq<Step>, i: nat)
    requires IsRun(run, steps) && Over(run[|steps|]) && i < |run[|steps|].requests|
    ensures !run[|steps|].requests[i].finished <==>
              || AllocFail(i) in steps || RefusedUndrained(steps, i)
              || (run[|steps|].requests[i].pc.Accepted? && ListedTooLate(steps, i))
    ensures run[|steps|].phase == Dead(true) ==> !(run[|steps|].requests[i].pc.Accepted? && ListedTooLate(steps, i))
  {
    var s := run[|steps|];
    StrandedExactly(run, steps, i);
    RunKeeps(run, steps, |steps|);
    if AllocFail(i) in steps || RefusedUndrained(steps, i) {
      hide Inv;
      NeverReached(run, steps, i);
    } else if s.requests[i].pc.Failed? {
      hide Inv, ListedTooLate;
      PickedUp(run, steps, i);
      OverIsFinished(s, i);
    } else {
      hide ListedTooLate, RefusedUndrained, IsRun;
      AcceptedFinished(s, i);
    }
  }

  /** When the `stop`s have returned, an accepted task is finished unless its sender is
      still there. */
  lemma {:induction false} AcceptedFinished(s: State, i: nat)
    requires Inv(s) && StopsReturned(s) && i < |s.requests| && s.requests[i].pc.Accepted?
    ensures s.requests[i].finished <==> s.requests[i].answers != []
  {
    ReturnedRequest(s, i);
    assert RequestOk(s, i);
    assert i in s.live ==> LiveOk(s, i);
    IdleThread(s, 0);
  }

  lemma {:induction false} PickedUp(run: seq<State>, steps: seq<Step>, i: nat)
    requires IsRun(run, steps) && i < |run[|steps|].requests| && run[|steps|].requests[i].pc.Failed?
    requires AllocFail(i) !in steps && !RefusedUndrained(steps, i)
    ensures Doomed(run[|steps|], i)
  {
    GaveUpSince(run, steps, |steps|, i);
    var m :| 0 <= m < |steps| && steps[m] == TakeBack(i);
    assert Enabled(run[m], steps[m]);
    ListedSince(run, steps, m, i);
    var n :| 0 <= n < m && steps[n] == Insert(i);
    DrainedBetween(run, steps, n, m, m, i);
    DoomedForGood(run, steps, m, |steps|, i);
  }
}
