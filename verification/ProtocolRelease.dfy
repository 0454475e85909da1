/** The response is released last: nobody sees a response from a task that is not
    completely finished, unless the loop thread and a `stop` have come to share it; and
    with `stop` calls one after the other that does not happen. */
module ProtocolRelease {
  import opened Wrappers
  import opened Protocol
  import opened ProtocolSafety
  import opened ProtocolRace

  /** Nothing is left to do for the task itself: it is finished, out of asyncio (or that
      was tried), and each callback was removed or handed on. */
  predicate Clean(r: Request) {
    r.finished && !r.listed && !r.registered && r.pending == 0 && r.added == r.removed + r.handed
  }

  /** Nor in the registry. */
  predicate Complete(s: State, i: nat) {
    i < |s.requests| && Clean(s.requests[i]) && i !in s.live
  }

  /** The loop thread and a `stop` both have the task, which is not complete, and whose
      sender is still there. */
  predicate Shared(s: State, i: nat) {
    && i < |s.requests| && s.requests[i].channel.Armed? && !Complete(s, i)
    && |s.workers| > 0 && Has(s.workers[0], i)
    && exists k :: 1 <= k < |s.workers| && Has(s.workers[k], i)
  }

  /** At most one thread has the task. */
  predicate Alone(s: State, i: nat) {
    forall k, l :: 0 <= k < l < |s.workers| && Has(s.workers[k], i) ==> !Has(s.workers[l], i)
  }

  // ----- A task that one thread at a time has

  predicate TidyRequest(r: Request) {
    && (!r.finished ==> r.listed == r.registered && r.added == r.removed + r.pending + r.handed)
    && (r.finished ==> !r.registered && r.pending == 0)
    && (Released(r) ==> Clean(r))
  }

  /** How far the request is when a thread is at `stage` of its job. */
  predicate TidyStage(r: Request, job: Job) {
    match job.stage
    case Working => !r.finished
    case Mark => !r.finished
    case Unlist => r.finished && r.added == r.removed + r.handed + job.firing && (r.listed ==> job.wasRegistered)
    case Unregister => r.finished && r.added == r.removed + r.handed + job.firing && (r.listed ==> job.wasRegistered)
    case Fire => r.finished && r.added == r.removed + r.handed + job.firing && !r.listed
    case _ => Clean(r)
  }

  /** The thread, if it has `i`, is as far with it as the request says. */
  predicate TidyThread(w: Thread, r: Request, i: nat, listed: bool) {
    && (i in w.left ==> !r.finished)
    && (w.job.Some? && w.job.value.request == i ==>
          && TidyStage(r, w.job.value)
          && (listed ==> w.job.value.stage.Working? || w.job.value.stage.Mark? || w.job.value.stage.Unlist?))
  }

  predicate Tidy(s: State, i: nat) {
    i < |s.requests| ==>
      && TidyRequest(s.requests[i])
      && (Released(s.requests[i]) ==> i !in s.live)
      && (forall k :: 0 <= k < |s.workers| ==> TidyThread(s.workers[k], s.requests[i], i, i in s.live))
  }

  lemma {:induction false} MovedTidy(r: Request, step: Step, job: Job)
    requires OnRequest(step) && (step.RemoveCallback? ==> r.pending > 0) && TidyRequest(r)
    ensures TidyRequest(Moved(r, step)) && (Released(Moved(r, step)) ==> Released(r))
    ensures Moved(r, step).finished == r.finished
    ensures TidyStage(r, job) ==> TidyStage(Moved(r, step), job)
  {
  }

  lemma {:induction false} WorkedTidy(r: Request, job: Job, k: nat)
    requires TidyRequest(r) && TidyStage(r, job) && StageOk(r, k, job.stage)
    ensures TidyRequest(Worked(r, job, k))
    ensures Onward(r, job).Some? ==> TidyStage(Worked(r, job, k), Onward(r, job).value)
    ensures !Released(r) && Released(Worked(r, job, k)) ==> job.stage.Take?
  {
  }

  lemma {:induction false} OnwardListing(r: Request, job: Job)
    requires TidyStage(r, job)
    ensures Onward(r, job).Some? ==>
              && Onward(r, job).value.request == job.request
              && var stage := Onward(r, job).value.stage;
              !stage.Working? && !stage.Mark? && !stage.Unlist? ==> !job.stage.Working? && !job.stage.Mark?
  {
  }

  /** Nothing about `i` changed. */
  predicate SameFor(s: State, t: State, i: nat) {
    && i < |s.requests| && i < |t.requests| && t.requests[i] == s.requests[i]
    && (i in t.live ==> i in s.live)
    && |s.workers| <= |t.workers|
    && (forall k :: 0 <= k < |s.workers| ==> SameHold(s.workers[k], t.workers[k], i))
    && (forall k :: |s.workers| <= k < |t.workers| ==> !Has(t.workers[k], i))
  }

  /** The thread has of `i` what it had, or no more of it. */
  predicate SameHold(w: Thread, v: Thread, i: nat) {
    && (i in v.left ==> i in w.left)
    && (v.job.Some? && v.job.value.request == i ==> v.job == w.job)
  }

  lemma {:induction false} SameStaysTidy(s: State, t: State, i: nat)
    requires SameFor(s, t, i) && Tidy(s, i)
    ensures Tidy(t, i)
  {
    hide TidyStage, TidyRequest;
    forall k | 0 <= k < |t.workers| ensures TidyThread(t.workers[k], t.requests[i], i, i in t.live) {
      if k < |s.workers| { assert SameHold(s.workers[k], t.workers[k], i); }
    }
  }

  lemma {:induction false} AdvanceOther(s: State, k: nat, i: nat)
    requires Busy(s, k) && i < |s.requests| && s.workers[k].job.value.request != i
    ensures SameFor(s, Advanced(s, k), i)
  {
    OnwardRequest(s.requests[s.workers[k].job.value.request], s.workers[k].job.value);
    hide Worked, Onward;
  }

  lemma {:induction false} OnwardRequest(r: Request, job: Job)
    ensures Onward(r, job).Some? ==> Onward(r, job).value.request == job.request
  {
  }

  lemma {:induction false} AdvanceTidy(s: State, k: nat, i: nat)
    requires Inv(s) && Busy(s, k) && i < |s.requests| && Tidy(s, i) && Alone(s, i)
    ensures Tidy(Advanced(s, k), i)
  {
    var t, job := Advanced(s, k), s.workers[k].job.value;
    if job.request != i {
      AdvanceOther(s, k, i);
      SameStaysTidy(s, t, i);
    } else {
      assert ThreadOk(s, k);
      assert TidyThread(s.workers[k], s.requests[i], i, i in s.live) && Has(s.workers[k], i);
      WorkedTidy(s.requests[i], job, k);
      OnwardListing(s.requests[i], job);
      hide Inv, TidyStage, TidyRequest, Worked, Onward, StageOk, Released;
      forall l | 0 <= l < |t.workers| ensures TidyThread(t.workers[l], t.requests[i], i, i in t.live) {
        if l != k { OnlyOne(s, k, l, i); }
      }
    }
  }

  lemma {:induction false} OnlyOne(s: State, k: nat, l: nat, i: nat)
    requires Alone(s, i) && k < |s.workers| && l < |s.workers| && l != k && Has(s.workers[k], i)
    ensures !Has(s.workers[l], i)
  {
    hide Has;
    if l < k && Has(s.workers[l], i) { assert false; }
  }

  lemma {:induction false} NobodyHas(s: State, i: nat, k: nat)
    requires Inv(s) && k < |s.workers| && (i < |s.requests| ==> !Past(s.requests[i].pc))
    ensures !Has(s.workers[k], i)
  {
    assert ThreadOk(s, k);
  }

  lemma {:induction false} ScheduleTidy(s: State, step: Step, i: nat)
    requires Inv(s) && Enabled(s, step) && OnRequest(step) && i < |s.requests| && Tidy(s, i)
    ensures Tidy(Scheduled(s, step), i)
  {
    var t := Scheduled(s, step);
    if step.request != i {
      hide Moved;
      SameStaysTidy(s, t, i);
    } else {
      forall job ensures TidyStage(s.requests[i], job) ==> TidyStage(t.requests[i], job) {
        MovedTidy(s.requests[i], step, job);
      }
      MovedTidy(s.requests[i], step, Job(i, Working, false, 0));
      if step.Insert? {
        assert RequestOk(s, i);
        forall k | 0 <= k < |s.workers| ensures !Has(s.workers[k], i) {
          NobodyHas(s, i, k);
        }
      }
      hide Inv, TidyStage, TidyRequest, Moved;
      forall k | 0 <= k < |t.workers| ensures TidyThread(t.workers[k], t.requests[i], i, i in t.live) {
        assert TidyThread(s.workers[k], s.requests[i], i, i in s.live);
      }
    }
  }

  /** A drain, a disposal or the begin of a turn gives a thread a task that is unfinished,
      if no other thread has it. */
  lemma {:induction false} TakenUpTidy(s: State, step: Step, i: nat)
    requires Inv(s) && Enabled(s, step) && (step.Drain? || step.Dispose? || step.BeginTurn? || step.EndTurn?)
    requires i < |s.requests| && Tidy(s, i) && Alone(Next(s, step), i)
    ensures Tidy(Next(s, step), i)
  {
    var t := Next(s, step);
    assert i in s.live ==> LiveOk(s, i);
    if step.Drain? {
      assert ThreadOk(s, step.worker) && ThreadOk(s, 0);
      if i in s.live { OnlyOne(t, step.worker, 0, i); }
    }
    hide Inv, TidyRequest, Released;
    forall k | 0 <= k < |t.workers| ensures TidyThread(t.workers[k], t.requests[i], i, i in t.live) {
      assert TidyThread(s.workers[k], s.requests[i], i, i in s.live);
    }
  }

  lemma {:induction false} RegisterTidy(s: State, i: nat)
    requires Inv(s) && Enabled(s, Register) && i < |s.requests| && Tidy(s, i)
    ensures Tidy(Next(s, Register), i)
  {
    var t := Next(s, Register);
    if s.workers[0].job.value.request != i {
      SameStaysTidy(s, t, i);
    } else {
      assert TidyThread(s.workers[0], s.requests[i], i, i in s.live);
      hide Inv;
      forall k | 0 <= k < |t.workers| ensures TidyThread(t.workers[k], t.requests[i], i, i in t.live) {
        assert TidyThread(s.workers[k], s.requests[i], i, i in s.live);
      }
    }
  }

  lemma {:induction false} SceneTidy(s: State, step: Step, i: nat)
    requires Inv(s) && Enabled(s, step) && OnScene(step) && Tidy(s, i)
    ensures Tidy(Next(s, step), i)
  {
    var t := Next(s, step);
    if i < |s.requests| {
      SceneShape(s, step);
      SceneAdds(s, step);
      hide Inv, Next, Enabled, Tidy, Shape;
      forall k | 0 <= k < |s.workers| ensures SameHold(s.workers[k], t.workers[k], i) {
        assert SameLoad(s.workers[k], t.workers[k]);
      }
      SameStaysTidy(s, t, i);
    } else if i < |t.requests| {
      CountTidy(s, i);
    }
  }

  lemma {:induction false} CountTidy(s: State, i: nat)
    requires Inv(s) && i == |s.requests|
    ensures Tidy(Next(s, Count), i)
  {
    hide Inv, Tidy;
    forall k | 0 <= k < |s.workers| ensures !Has(s.workers[k], i) {
      NobodyHas(s, i, k);
    }
    UnheldTidy(Next(s, Count), i);
  }

  lemma {:induction false} UnheldTidy(s: State, i: nat)
    requires i < |s.requests| && s.requests[i] == COUNTED && forall k :: 0 <= k < |s.workers| ==> !Has(s.workers[k], i)
    ensures Tidy(s, i)
  {
    hide TidyRequest, Released, TidyStage;
    CountedTidy();
    forall k | 0 <= k < |s.workers| ensures TidyThread(s.workers[k], s.requests[i], i, i in s.live) {
      assert !Has(s.workers[k], i);
    }
  }

  lemma {:induction false} CountedTidy()
    ensures TidyRequest(COUNTED) && !Released(COUNTED)
  {
  }

  lemma {:induction false} SceneAdds(s: State, step: Step)
    requires Enabled(s, step) && OnScene(step)
    ensures forall k :: |s.workers| <= k < |Next(s, step).workers| ==>
              Next(s, step).workers[k].left == {} && Next(s, step).workers[k].job.None?
  {
  }

  /** As long as no two threads have the task, it stays tidy. */
  lemma {:induction false} StepTidies(s: State, step: Step, i: nat)
    requires Inv(s) && Enabled(s, step) && Tidy(s, i) && Alone(s, i) && Alone(Next(s, step), i)
    ensures Tidy(Next(s, step), i)
  {
    hide Inv, Tidy, Alone;
    if OnScene(step) {
      SceneTidy(s, step, i);
    } else {
      RequestsKept(s, step);
      if i < |s.requests| {
        hide Next;
        if OnRequest(step) { NextScheduled(s, step); ScheduleTidy(s, step, i); }
        else if step.Advance? { NextAdvanced(s, step.worker); AdvanceTidy(s, step.worker, i); }
        else if step.Register? { RegisterTidy(s, i); }
        else { TakenUpTidy(s, step, i); }
      } else {
        NoRequestTidy(Next(s, step), i);
      }
    }
  }

  lemma {:induction false} NoRequestTidy(s: State, i: nat)
    requires i >= |s.requests|
    ensures Tidy(s, i)
  {
  }

  lemma {:induction false} RequestsKept(s: State, step: Step)
    requires Enabled(s, step) && !step.Count?
    ensures |Next(s, step).requests| == |s.requests|
  {
    hide Moved, Worked, Onward;
  }

  lemma {:induction false} NextScheduled(s: State, step: Step)
    requires Enabled(s, step) && OnRequest(step)
    ensures Next(s, step) == Scheduled(s, step)
  {
    hide Scheduled, Advanced;
  }

  lemma {:induction false} NextAdvanced(s: State, k: nat)
    requires Enabled(s, Advance(k))
    ensures Next(s, Advance(k)) == Advanced(s, k)
  {
    hide Scheduled, Advanced;
  }

  lemma {:induction false} AloneTidies(run: seq<State>, steps: seq<Step>, n: nat, i: nat)
    requires IsRun(run, steps) && n < |run| && forall m :: 0 <= m <= n ==> Alone(run[m], i)
    ensures Tidy(run[n], i)
  {
    hide Next, Enabled, Alone;
    if n > 0 {
      hide Inv, Tidy;
      RunKeeps(run, steps, n - 1);
      AloneTidies(run, steps, n - 1, i);
      assert Alone(run[n], i) && run[(n - 1) + 1] == Next(run[n - 1], steps[n - 1]);
      StepTidies(run[n - 1], steps[n - 1], i);
    }
  }

  // ----- When two threads come to have it

  /** A thread newly has a task: it drained it, or the loop begins its turn. */
  lemma {:induction false} NewlyHas(s: State, step: Step, l: nat, i: nat)
    requires Inv(s) && Enabled(s, step) && l < |Next(s, step).workers| && Has(Next(s, step).workers[l], i)
    ensures || (l < |s.workers| && Has(s.workers[l], i))
            || (step == Drain(l) && i in s.live) || (step == BeginTurn(i) && l == 0)
  {
    if step.Advance? {
      var job := s.workers[step.worker].job.value;
      OnwardRequest(s.requests[job.request], job);
    }
    hide Inv, Worked, Onward, Moved;
  }

  /** A complete task that nobody can touch any more. */
  predicate Settled(s: State, i: nat) {
    && Complete(s, i) && Past(s.requests[i].pc) && |s.workers| > 0 && !Doing(s.workers[0], i, Working)
    && (forall k :: 0 <= k < |s.workers| ==> NothingToFire(s.workers[k], i))
  }

  predicate NothingToFire(w: Thread, i: nat) {
    w.job.Some? && w.job.value.request == i ==> w.job.value.firing == 0
  }

  lemma {:induction false} MovedClean(r: Request, step: Step)
    requires OnRequest(step) && (step.RemoveCallback? ==> r.pending > 0) && Clean(r)
    ensures Clean(Moved(r, step))
  {
  }

  lemma {:induction false} WorkedClean(r: Request, job: Job, k: nat)
    requires Clean(r) && job.firing == 0
    ensures Clean(Worked(r, job, k))
    ensures Onward(r, job).Some? ==> Onward(r, job).value.firing == 0
    ensures Onward(r, job).Some? ==> !Onward(r, job).value.stage.Working? && Onward(r, job).value.request == job.request
  {
  }

  lemma {:induction false} AdvanceSettled(s: State, k: nat, i: nat)
    requires Busy(s, k) && Settled(s, i)
    ensures Settled(Advanced(s, k), i)
  {
    var t, job := Advanced(s, k), s.workers[k].job.value;
    AdvanceKeepsPcs(s, k);
    OnwardRequest(s.requests[job.request], job);
    if job.request == i {
      assert NothingToFire(s.workers[k], i);
      WorkedClean(s.requests[i], job, k);
    }
    hide Worked, Onward, Clean;
    forall l | 0 <= l < |t.workers| ensures NothingToFire(t.workers[l], i) {
      assert NothingToFire(s.workers[l], i);
    }
  }

  lemma {:induction false} SettledStays(s: State, step: Step, i: nat)
    requires Inv(s) && Enabled(s, step) && Settled(s, i)
    ensures Settled(Next(s, step), i)
  {
    if step.Advance? {
      AdvanceSettled(s, step.worker, i);
    } else {
      if OnRequest(step) && step.request == i {
        assert RequestOk(s, i);
        MovedClean(s.requests[i], step);
        ScheduledPast(s.requests[i], step);
      }
      assert ThreadOk(s, 0);
      hide Inv, Moved, Advanced, Clean;
      OthersSettled(s, step, i);
    }
  }

  lemma {:induction false} ScheduledPast(r: Request, step: Step)
    requires OnRequest(step) && (step.RemoveCallback? ==> r.pending > 0) && Past(r.pc)
    requires !step.AllocFail? && !step.Build?
    ensures Past(Moved(r, step).pc)
  {
  }

  lemma {:induction false} OthersSettled(s: State, step: Step, i: nat)
    requires Enabled(s, step) && !step.Advance? && Settled(s, i) && s.workers[0].role.LoopThread?
    requires OnRequest(step) && step.request == i ==>
               Clean(Moved(s.requests[i], step)) && Past(Moved(s.requests[i], step).pc)
    ensures Settled(Next(s, step), i)
  {
    var t := Next(s, step);
    if step.Register? { assert !Doing(s.workers[0], i, Working); }
    if step.BeginTurn? { UnfinishedIsNotClean(s.requests[step.request]); }
    hide Moved, Advanced, Clean;
    forall l | 0 <= l < |t.workers| ensures NothingToFire(t.workers[l], i) {
      if l < |s.workers| { assert NothingToFire(s.workers[l], i); }
    }
  }

  lemma {:induction false} UnfinishedIsNotClean(r: Request)
    ensures !r.finished ==> !Clean(r)
  {
  }

  lemma {:induction false} AcceptedArmed(s: State, i: nat)
    requires Inv(s) && i < |s.requests| && s.requests[i].pc.Accepted? && !Released(s.requests[i])
    ensures s.requests[i].channel.Armed?
  {
    assert RequestOk(s, i);
    ReturnedChannel(s.requests[i]);
  }

  /** The first time two threads have a task they share it as `Shared` says, or it is
      complete and stays so. */
  lemma {:induction false} FirstSharing(s: State, step: Step, i: nat)
    requires Inv(s) && Enabled(s, step) && Tidy(s, i) && Alone(s, i) && !Alone(Next(s, step), i)
    ensures Shared(Next(s, step), i) || Settled(Next(s, step), i)
  {
    var t := Next(s, step);
    var k, l :| 0 <= k < l < |t.workers| && Has(t.workers[k], i) && Has(t.workers[l], i);
    NewlyHas(s, step, k, i);
    NewlyHas(s, step, l, i);
    if step.BeginTurn? {
      TurnShares(s, step, l, i);
    } else {
      DrainShares(s, step, if k == step.worker then l else k, i);
    }
  }

  lemma {:induction false} TurnShares(s: State, step: Step, l: nat, i: nat)
    requires Inv(s) && Enabled(s, step) && step == BeginTurn(i) && 1 <= l < |s.workers| && Has(s.workers[l], i)
    ensures Shared(Next(s, step), i)
  {
    assert RequestOk(s, i);
    AcceptedArmed(s, i);
    hide Inv;
    assert Has(Next(s, step).workers[l], i);
  }

  lemma {:induction false} DrainShares(s: State, step: Step, k: nat, i: nat)
    requires Inv(s) && Enabled(s, step) && step.Drain? && i in s.live && Tidy(s, i) && Alone(s, i)
    requires k < |s.workers| && k != step.worker && Has(s.workers[k], i)
    ensures Shared(Next(s, step), i) || Settled(Next(s, step), i)
  {
    var t, d := Next(s, step), step.worker;
    assert LiveOk(s, i) && ThreadOk(s, k) && ThreadOk(s, d) && ThreadOk(s, 0);
    assert k == 0 && s.requests[i].pc.Accepted?;
    AcceptedArmed(s, i);
    assert TidyThread(s.workers[0], s.requests[i], i, true);
    hide Inv;
    assert Has(t.workers[0], i) && Has(t.workers[d], i);
    if Complete(t, i) {
      forall l | 0 <= l < |t.workers| ensures NothingToFire(t.workers[l], i) {
        if 0 < l { assert !Has(s.workers[l], i); }
      }
    }
  }

  // ----- Whole runs

  /** One thread at a time has had the task, or it is complete for good. */
  predicate Calm(s: State, i: nat) {
    (Alone(s, i) && Tidy(s, i)) || Settled(s, i)
  }

  lemma {:induction false} StepCalm(s: State, step: Step, i: nat)
    requires Inv(s) && Enabled(s, step) && Calm(s, i) && !Shared(Next(s, step), i)
    ensures Calm(Next(s, step), i)
  {
    hide Inv, Next, Enabled, Alone, Tidy, Settled, Shared;
    if Settled(s, i) {
      SettledStays(s, step, i);
    } else if Alone(Next(s, step), i) {
      StepTidies(s, step, i);
    } else {
      FirstSharing(s, step, i);
    }
  }

  lemma {:induction false} RunCalm(run: seq<State>, steps: seq<Step>, n: nat, i: nat)
    requires IsRun(run, steps) && n < |run| && forall m :: 0 <= m <= n ==> !Shared(run[m], i)
    ensures Calm(run[n], i)
  {
    hide Next, Enabled, Shared;
    if n > 0 {
      hide Inv, Calm;
      RunKeeps(run, steps, n - 1);
      RunCalm(run, steps, n - 1, i);
      assert !Shared(run[n], i) && run[(n - 1) + 1] == Next(run[n - 1], steps[n - 1]);
      StepCalm(run[n - 1], steps[n - 1], i);
    }
  }

  /** Released last: from the moment `finish` takes the sender, the task is finished, off
      the live list, unregistered as far as can be, and every done callback has been
      removed or handed to `call_soon`; unless the loop thread and a `stop` have come to
      share it before it was complete. */
  lemma {:induction false} ReleasedLast(run: seq<State>, steps: seq<Step>, n: nat, i: nat)
    requires IsRun(run, steps) && n < |run| && forall m :: 0 <= m <= n ==> !Shared(run[m], i)
    requires i < |run[n].requests| && Released(run[n].requests[i])
    ensures Complete(run[n], i)
  {
    hide Next, Enabled, Shared;
    RunCalm(run, steps, n, i);
  }

  // ----- Without early drains

  lemma {:induction false} EarlyStays(s: State, step: Step)
    requires Enabled(s, step)
    ensures s.early ==> Next(s, step).early
  {
  }

  /** A `stop` that has anything drained it from a dead loop. */
  predicate LateDrains(s: State) {
    forall k :: 1 <= k < |s.workers| && (s.workers[k].job.Some? || s.workers[k].left != {}) ==> s.phase.Dead?
  }

  lemma {:induction false} LateDrainsStay(s: State, step: Step)
    requires Inv(s) && Enabled(s, step) && LateDrains(s) && !Next(s, step).early
    ensures LateDrains(Next(s, step))
  {
    hide Inv, Worked, Onward, Moved;
  }

  lemma {:induction false} AloneStays(s: State, step: Step, i: nat)
    requires Inv(s) && Enabled(s, step) && LateDrains(s) && Alone(s, i) && !Next(s, step).early
    ensures Alone(Next(s, step), i)
  {
    var t := Next(s, step);
    forall k, l | 0 <= k < l < |t.workers| && Has(t.workers[k], i) ensures !Has(t.workers[l], i) {
      if Has(t.workers[l], i) {
        NewlyHas(s, step, k, i);
        NewlyHas(s, step, l, i);
        OthersHold(s, step, k, i);
        OthersHold(s, step, l, i);
        assert false;
      }
    }
  }

  /** Who has `i` already when a thread newly gets it: nobody. */
  lemma {:induction false} OthersHold(s: State, step: Step, k: nat, i: nat)
    requires Inv(s) && Enabled(s, step) && LateDrains(s) && !Next(s, step).early
    ensures k < |s.workers| && Has(s.workers[k], i) && step.Drain? && i in s.live ==> false
    ensures k < |s.workers| && Has(s.workers[k], i) && step == BeginTurn(i) ==> false
  {
    if k < |s.workers| { assert ThreadOk(s, k); }
    hide Worked, Onward, Moved, RequestOk, OpenCount;
  }

  lemma {:induction false} NeverEarly(run: seq<State>, steps: seq<Step>, n: nat, i: nat)
    requires IsRun(run, steps) && n < |run| && !run[n].early
    ensures LateDrains(run[n]) && forall m :: 0 <= m <= n ==> Alone(run[m], i)
  {
    hide Next, Enabled, Alone;
    if n == 0 {
      StartAlone(i);
    } else {
      hide Inv, LateDrains;
      EarlyStays(run[n - 1], steps[n - 1]);
      NeverEarly(run, steps, n - 1, i);
      RunKeeps(run, steps, n - 1);
      LateDrainsStay(run[n - 1], steps[n - 1]);
      AloneStays(run[n - 1], steps[n - 1], i);
    }
  }

  lemma {:induction false} StartAlone(i: nat)
    ensures Alone(STARTED, i)
  {
  }

  /** If no `stop` has drained a live loop, responses are released last. */
  lemma {:induction false} ReleasedLastUnlessEarly(s: State, i: nat)
    requires Reachable(s) && !s.early && i < |s.requests| && Released(s.requests[i])
    ensures Complete(s, i)
  {
    hide Next, Enabled, Alone;
    var run, steps :| IsRun(run, steps) && run[|steps|] == s;
    NeverEarly(run, steps, |steps|, i);
    AloneTidies(run, steps, |steps|, i);
  }

  /** `finish` then finds no task finished already, and no two threads share a task. */
  lemma {:induction false} FinishedByOne(s: State, k: nat, l: nat, i: nat)
    requires Reachable(s) && !s.early && k < |s.workers| && l < |s.workers| && Has(s.workers[k], i)
    ensures i < |s.requests|
    ensures Doing(s.workers[k], i, Mark) ==> !s.requests[i].finished
    ensures l != k ==> !Has(s.workers[l], i)
  {
    ReachableInv(s);
    assert ThreadOk(s, k);
    assert i in s.workers[k].left ==> Drainable(s, i);
    hide Next, Enabled, Inv;
    var run, steps :| IsRun(run, steps) && run[|steps|] == s;
    NeverEarly(run, steps, |steps|, i);
    AloneTidies(run, steps, |steps|, i);
    assert TidyThread(s.workers[k], s.requests[i], i, i in s.live);
    assert Alone(run[|steps|], i);
    if l != k { OnlyOne(s, k, l, i); }
  }

  /** Each `stop` is called after the ones before have returned. */
  ghost predicate StopsInTurn(run: seq<State>, steps: seq<Step>) {
    && IsRun(run, steps)
    && (forall n :: 0 <= n < |steps| && steps[n].CallStop? ==> AllStopped(run[n], |run[n].workers|))
  }

  predicate AllStopped(s: State, below: nat) {
    forall k :: 1 <= k < below && k < |s.workers| ==> s.workers[k].role.Stopped?
  }

  lemma {:induction false} OneAtATime(s: State, step: Step)
    requires Inv(s) && !s.early && Enabled(s, step) && AllStopped(s, |s.workers| - 1)
    requires step.CallStop? ==> AllStopped(s, |s.workers|)
    ensures var t := Next(s, step); !t.early && |t.workers| > 0 && AllStopped(t, |t.workers| - 1)
  {
    hide OpenCount, RequestOk, LiveOk, JobOk, Worked, Moved, Onward;
    if step.Drain? {
      assert ThreadOk(s, step.worker) && step.worker > 0;
      assert ThreadOk(s, 1);
    } else if step.Join? || step.Dispose? || step.ReturnStop? {
      assert ThreadOk(s, step.worker);
    }
  }

  /** With one `stop` at a time, none drains before the loop is dead. */
  lemma {:induction false} InTurnIsNeverEarly(run: seq<State>, steps: seq<Step>, n: nat)
    requires StopsInTurn(run, steps) && n < |run|
    ensures !run[n].early && |run[n].workers| > 0 && AllStopped(run[n], |run[n].workers| - 1)
  {
    hide Next, Enabled;
    if n > 0 {
      InTurnIsNeverEarly(run, steps, n - 1);
      RunKeeps(run, steps, n - 1);
      hide Inv;
      OneAtATime(run[n - 1], steps[n - 1]);
    }
  }
}
