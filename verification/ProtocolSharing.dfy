/** Exactly when a response can get out before its task is complete: when the loop thread
    and a `stop` come to share the task while its sender is still there. */
module ProtocolSharing {
  import opened Wrappers
  import opened Protocol
  import opened ProtocolSafety
  import opened ProtocolRace
  import opened ProtocolRelease

  /** The response is out, or on its way, and the task is not complete. */
  predicate Early(s: State, i: nat) {
    i < |s.requests| && Released(s.requests[i]) && !Complete(s, i)
  }

  // ----- Runs that continue a run

  ghost predicate Continues(past: seq<State>, done: seq<Step>, run: seq<State>, steps: seq<Step>) {
    IsRun(run, steps) && |past| <= |run| && run[..|past|] == past && |done| <= |steps| && steps[..|done|] == done
  }

  /** Some continuation gets to `s`. */
  ghost predicate Leads(past: seq<State>, done: seq<Step>, s: State) {
    exists run, steps :: Continues(past, done, run, steps) && run[|steps|] == s
  }

  lemma {:induction false} LeadOn(past: seq<State>, done: seq<Step>, s: State, step: Step, t: State)
    requires Leads(past, done, s) && Enabled(s, step) && Next(s, step) == t
    ensures Leads(past, done, t)
  {
    hide Next, Enabled;
    var run, steps :| Continues(past, done, run, steps) && run[|steps|] == s;
    var longer, more := run + [t], steps + [step];
    assert longer[..|past|] == run[..|past|] && more[..|done|] == steps[..|done|];
    assert Continues(past, done, longer, more) && longer[|more|] == t;
  }

  lemma {:induction false} LeadsReachable(past: seq<State>, done: seq<Step>, s: State)
    requires Leads(past, done, s)
    ensures Reachable(s)
  {
    hide IsRun;
  }

  lemma {:induction false} FromStart(s: State)
    requires Reachable(s)
    ensures Leads([STARTED], [], s)
  {
    hide Next, Enabled;
    var run, steps :| IsRun(run, steps) && run[|steps|] == s;
    var none: seq<Step> := [];
    assert Continues([STARTED], none, run, steps);
  }

  // ----- What every run keeps

  /** The done callbacks of an unfinished task add up. */
  predicate AddsUp(r: Request) {
    !r.finished ==> r.added == r.removed + r.pending + r.handed
  }

  ghost predicate AllAddUp(s: State) {
    forall i :: 0 <= i < |s.requests| ==> AddsUp(s.requests[i])
  }

  lemma {:induction false} StepAddsUp(s: State, step: Step)
    requires Enabled(s, step) && AllAddUp(s) && Inv(s)
    ensures AllAddUp(Next(s, step))
  {
    hide Inv, AllAddUp, Advanced, Scheduled;
    if step.Advance? {
      AdvanceAddsUp(s, step.worker);
    } else if OnRequest(step) {
      ScheduleAddsUp(s, step);
    } else {
      OthersAddUp(s, step);
    }
  }

  lemma {:induction false} AdvanceAddsUp(s: State, k: nat)
    requires Busy(s, k) && AllAddUp(s) && Inv(s)
    ensures AllAddUp(Advanced(s, k))
  {
    var job := s.workers[k].job.value;
    assert ThreadOk(s, k) && AddsUp(s.requests[job.request]);
    WorkedAddsUp(s.requests[job.request], job, k);
    hide Inv, Onward, Worked, AddsUp;
  }

  lemma {:induction false} ScheduleAddsUp(s: State, step: Step)
    requires OnRequest(step) && Enabled(s, step) && AllAddUp(s)
    ensures AllAddUp(Scheduled(s, step))
  {
    assert AddsUp(s.requests[step.request]);
    MovedAddsUp(s.requests[step.request], step);
    hide Moved, AddsUp;
  }

  lemma {:induction false} OthersAddUp(s: State, step: Step)
    requires Enabled(s, step) && AllAddUp(s) && !step.Advance? && !OnRequest(step)
    ensures AllAddUp(Next(s, step))
  {
    hide Advanced, Scheduled;
    if step.Register? { assert AddsUp(s.requests[s.workers[0].job.value.request]); }
  }

  lemma {:induction false} WorkedAddsUp(r: Request, job: Job, k: nat)
    requires AddsUp(r) && StageOk(r, k, job.stage)
    ensures AddsUp(Worked(r, job, k))
  {
  }

  lemma {:induction false} MovedAddsUp(r: Request, step: Step)
    requires AddsUp(r) && OnRequest(step) && (step.RemoveCallback? ==> r.pending > 0)
    ensures AddsUp(Moved(r, step))
  {
  }

  lemma {:induction false} RunAddsUp(run: seq<State>, steps: seq<Step>, n: nat)
    requires IsRun(run, steps) && n < |run|
    ensures AllAddUp(run[n])
  {
    hide Next, Enabled, AddsUp;
    if n > 0 {
      RunAddsUp(run, steps, n - 1);
      RunKeeps(run, steps, n - 1);
      hide Inv;
      StepAddsUp(run[n - 1], steps[n - 1]);
    }
  }

  lemma {:induction false} ReachableAddsUp(s: State)
    requires Reachable(s)
    ensures AllAddUp(s)
  {
    hide AllAddUp, Next, Enabled;
    var run, steps :| IsRun(run, steps) && run[|steps|] == s;
    RunAddsUp(run, steps, |steps|);
  }

  /** The thread is between marking the task and taking its sender. */
  predicate Cleans(w: Thread, i: nat) {
    Doing(w, i, Unlist) || Doing(w, i, Unregister) || Doing(w, i, Fire)
  }

  predicate OneCleans(s: State, i: nat) {
    forall k, l :: 0 <= k < l < |s.workers| && Cleans(s.workers[k], i) ==> !Cleans(s.workers[l], i)
  }

  lemma {:induction false} NewlyCleans(s: State, step: Step, l: nat, i: nat)
    requires Enabled(s, step) && l < |Next(s, step).workers| && Cleans(Next(s, step).workers[l], i)
    ensures || (l < |s.workers| && Cleans(s.workers[l], i))
            || (step == Advance(l) && i < |s.requests| && !s.requests[i].finished)
  {
    if step.Advance? {
      if step.worker == l { OnwardCleans(s, l, i); }
      hide Worked, Onward;
    } else {
      hide Advanced, Moved;
    }
  }

  lemma {:induction false} OnwardCleans(s: State, k: nat, i: nat)
    requires Busy(s, k) && Cleans(Advanced(s, k).workers[k], i)
    ensures Cleans(s.workers[k], i) || (i < |s.requests| && !s.requests[i].finished)
  {
    hide Worked;
  }

  lemma {:induction false} OneCleansStays(s: State, step: Step, i: nat)
    requires Inv(s) && Enabled(s, step) && OneCleans(s, i)
    ensures OneCleans(Next(s, step), i)
  {
    var t := Next(s, step);
    forall k, l | 0 <= k < l < |t.workers| && Cleans(t.workers[k], i) ensures !Cleans(t.workers[l], i) {
      if Cleans(t.workers[l], i) {
        NewlyCleans(s, step, k, i);
        NewlyCleans(s, step, l, i);
        if k < |s.workers| { CleansFinished(s, k, i); }
        if l < |s.workers| { CleansFinished(s, l, i); }
        assert false;
      }
    }
  }

  lemma {:induction false} CleansFinished(s: State, k: nat, i: nat)
    requires Inv(s) && k < |s.workers|
    ensures Cleans(s.workers[k], i) ==> i < |s.requests| && s.requests[i].finished
  {
    assert ThreadOk(s, k);
  }

  lemma {:induction false} RunOneCleans(run: seq<State>, steps: seq<Step>, n: nat, i: nat)
    requires IsRun(run, steps) && n < |run|
    ensures OneCleans(run[n], i)
  {
    hide Next, Enabled;
    if n > 0 {
      hide OneCleans;
      RunOneCleans(run, steps, n - 1, i);
      RunKeeps(run, steps, n - 1);
      hide Inv;
      OneCleansStays(run[n - 1], steps[n - 1], i);
    }
  }

  lemma {:induction false} ReachableOneCleans(s: State, i: nat)
    requires Reachable(s)
    ensures OneCleans(s, i)
  {
    hide OneCleans, Next, Enabled;
    var run, steps :| IsRun(run, steps) && run[|steps|] == s;
    RunOneCleans(run, steps, |steps|, i);
  }

  // ----- From sharing to an early release

  /** `i` and every thread but `k` are as they were. */
  predicate Aside(s: State, t: State, i: nat, k: nat) {
    && |t.requests| == |s.requests| && |t.workers| == |s.workers| && i < |s.requests| && k < |s.workers|
    && t.requests[i] == s.requests[i] && (i in t.live <==> i in s.live)
    && t.workers == s.workers[k := t.workers[k]]
    && t.workers[k].left == s.workers[k].left && t.workers[k].role == s.workers[k].role
  }

  /** A thread can always run the job it is in to its end. */
  lemma {:induction false} JobEnds(past: seq<State>, done: seq<Step>, s: State, k: nat, i: nat) returns (t: State)
    requires Leads(past, done, s) && i < |s.requests| && k < |s.workers|
    requires s.workers[k].job.Some? ==> Busy(s, k) && s.workers[k].job.value.request != i
    ensures Leads(past, done, t) && Aside(s, t, i, k) && t.workers[k].job.None?
    decreases if s.workers[k].job.None? then -1 else Rank(s.workers[k].job.value.stage),
              if s.workers[k].job.None? then 0 else s.workers[k].job.value.firing
  {
    hide Leads;
    if s.workers[k].job.None? {
      t := s;
    } else {
      var next := Advanced(s, k);
      LeadOn(past, done, s, Advance(k), next);
      t := JobEnds(past, done, next, k, i);
    }
  }

  /** A thread is at work on `i` and has not yet come to mark it. */
  predicate AtWork(w: Thread, i: nat) {
    Doing(w, i, Working) || Doing(w, i, Mark)
  }

  /** One more step, at most, and it is about to mark. */
  lemma {:induction false} ReachMark(past: seq<State>, done: seq<Step>, s: State, k: nat, i: nat) returns (t: State)
    requires Leads(past, done, s) && i < |s.requests| && k < |s.workers| && AtWork(s.workers[k], i)
    ensures Leads(past, done, t) && Aside(s, t, i, k) && Doing(t.workers[k], i, Mark)
  {
    hide Leads;
    if Doing(s.workers[k], i, Mark) {
      t := s;
    } else {
      t := Advanced(s, k);
      LeadOn(past, done, s, Advance(k), t);
    }
  }

  /** A thread that finds the task marked goes straight to taking the sender. */
  lemma {:induction false} MarkedReleases(past: seq<State>, done: seq<Step>, s: State, k: nat, i: nat) returns (t: State)
    requires Leads(past, done, s) && i < |s.requests| && k < |s.workers| && AtWork(s.workers[k], i)
    requires s.requests[i].finished && s.requests[i].channel.Armed? && !Complete(s, i)
    ensures Leads(past, done, t) && Early(t, i)
  {
    hide Leads;
    var marking := ReachMark(past, done, s, k, i);
    var taking := Advanced(marking, k);
    LeadOn(past, done, marking, Advance(k), taking);
    t := TakeReleases(past, done, taking, k, i);
  }

  lemma {:induction false} TakeReleases(past: seq<State>, done: seq<Step>, s: State, k: nat, i: nat) returns (t: State)
    requires Leads(past, done, s) && i < |s.requests| && k < |s.workers| && Doing(s.workers[k], i, Take)
    requires s.requests[i].channel.Armed? && !Complete(s, i)
    ensures Leads(past, done, t) && Early(t, i)
  {
    hide Leads;
    t := Advanced(s, k);
    LeadOn(past, done, s, Advance(k), t);
  }

  /** `k` has the task among those it drained: it can get to work on it. */
  lemma {:induction false} TakesUp(past: seq<State>, done: seq<Step>, s: State, k: nat, i: nat) returns (t: State)
    requires Leads(past, done, s) && i < |s.requests| && 0 < k < |s.workers| && i in s.workers[k].left
    ensures Leads(past, done, t) && |t.requests| == |s.requests| && |t.workers| == |s.workers|
    ensures t.requests[i] == s.requests[i] && (i in t.live <==> i in s.live)
    ensures t.workers[0] == s.workers[0] && AtWork(t.workers[k], i)
  {
    LeadsReachable(past, done, s);
    ReachableInv(s);
    assert ThreadOk(s, k);
    hide Leads, Reachable, Inv;
    var free := JobEnds(past, done, s, k, i);
    t := Next(free, Dispose(k, i));
    LeadOn(past, done, free, Dispose(k, i), t);
  }

  /** Both are at work on an unfinished task: whoever is first marks it, and a callback
      added meanwhile is not handed on when the other sends the response. */
  lemma {:induction false} SharedWorkReleases(past: seq<State>, done: seq<Step>, s: State, k: nat, i: nat) returns (t: State)
    requires Leads(past, done, s) && i < |s.requests| && 0 < k < |s.workers| && AtWork(s.workers[0], i) && AtWork(s.workers[k], i)
    requires !s.requests[i].finished && s.requests[i].channel.Armed?
    ensures Leads(past, done, t) && Early(t, i)
  {
    LeadsReachable(past, done, s);
    ReachableAddsUp(s);
    assert AddsUp(s.requests[i]);
    hide Leads, Reachable, AllAddUp;
    var watched := Next(s, AddCallback(i));
    LeadOn(past, done, s, AddCallback(i), watched);
    var ready := ReachMark(past, done, watched, k, i);
    var marked := Advanced(ready, k);
    LeadOn(past, done, ready, Advance(k), marked);
    assert marked.workers[0] == s.workers[0];
    t := MarkedReleases(past, done, marked, 0, i);
  }

  /** Where the loop thread and a `stop` share a task that is not complete while its sender
      is there, its response can get out too early. */
  lemma {:induction false} SharingReleasesEarly(past: seq<State>, done: seq<Step>, s: State, i: nat) returns (t: State)
    requires Leads(past, done, s) && Shared(s, i)
    ensures Leads(past, done, t) && Early(t, i)
  {
    var k :| 1 <= k < |s.workers| && Has(s.workers[k], i);
    SharersStand(past, done, s, k, i);
    hide Leads;
    if i in s.workers[k].left {
      var taken := TakesUp(past, done, s, k, i);
      if s.requests[i].finished {
        t := MarkedReleases(past, done, taken, k, i);
      } else {
        t := SharedWorkReleases(past, done, taken, k, i);
      }
    } else if !s.requests[i].finished {
      t := SharedWorkReleases(past, done, s, k, i);
    } else if AtWork(s.workers[0], i) {
      t := MarkedReleases(past, done, s, 0, i);
    } else if AtWork(s.workers[k], i) {
      t := MarkedReleases(past, done, s, k, i);
    } else {
      t := TakeReleases(past, done, s, if Doing(s.workers[0], i, Take) then 0 else k, i);
    }
  }

  /** Where two threads that share a task can stand. */
  lemma {:induction false} SharersStand(past: seq<State>, done: seq<Step>, s: State, k: nat, i: nat)
    requires Leads(past, done, s) && Shared(s, i) && 1 <= k < |s.workers| && Has(s.workers[k], i)
    ensures !s.requests[i].finished ==> AtWork(s.workers[0], i) && (i in s.workers[k].left || AtWork(s.workers[k], i))
    ensures i !in s.workers[k].left ==>
              || AtWork(s.workers[0], i) || AtWork(s.workers[k], i)
              || Doing(s.workers[0], i, Take) || Doing(s.workers[k], i, Take)
  {
    LeadsReachable(past, done, s);
    ReachableInv(s);
    ReachableOneCleans(s, i);
    hide Leads, Reachable;
    assert ThreadOk(s, 0) && ThreadOk(s, k);
    hide Inv;
    StageOf(s.workers[0], i);
    if i !in s.workers[k].left { StageOf(s.workers[k], i); }
  }

  lemma {:induction false} StageOf(w: Thread, i: nat)
    requires Has(w, i) && i !in w.left
    ensures AtWork(w, i) || Cleans(w, i) || Doing(w, i, Take) || Doing(w, i, Lower) || Doing(w, i, Deliver)
  {
  }

  /** Exactly when a response can be released early: after any run in which the task has not
      been shared, some continuation releases its response too early if and only if some
      continuation makes the loop thread and a `stop` share it while it is not complete
      and its sender is there. */
  lemma {:induction false} EarlyReleaseExactly(past: seq<State>, done: seq<Step>, i: nat)
    requires IsRun(past, done) && forall m :: 0 <= m < |past| ==> !Shared(past[m], i)
    ensures (exists s :: Leads(past, done, s) && Early(s, i)) <==> (exists s :: Leads(past, done, s) && Shared(s, i))
  {
    if exists s :: Leads(past, done, s) && Early(s, i) {
      var s :| Leads(past, done, s) && Early(s, i);
      var t := EarlyWasShared(past, done, s, i);
    }
    if exists s :: Leads(past, done, s) && Shared(s, i) {
      var s :| Leads(past, done, s) && Shared(s, i);
      var t := SharingReleasesEarly(past, done, s, i);
    }
  }

  lemma {:induction false} EarlyWasShared(past: seq<State>, done: seq<Step>, s: State, i: nat) returns (t: State)
    requires IsRun(past, done) && forall m :: 0 <= m < |past| ==> !Shared(past[m], i)
    requires Leads(past, done, s) && Early(s, i)
    ensures Leads(past, done, t) && Shared(t, i)
  {
    hide Next, Enabled, Shared, Complete;
    var run, steps :| Continues(past, done, run, steps) && run[|steps|] == s;
    assert forall j :: 0 <= j < |past| ==> run[..|past|][j] == run[j];
    if forall m :: 0 <= m <= |steps| ==> !Shared(run[m], i) {
      ReleasedLast(run, steps, |steps|, i);
    }
    var m :| 0 <= m <= |steps| && Shared(run[m], i);
    t := run[m];
    assert m >= |past|;
    var shorter, fewer := run[..m + 1], steps[..m];
    assert shorter[..|past|] == run[..|past|] && fewer[..|done|] == steps[..|done|];
    assert IsRun(shorter, fewer);
    assert Continues(past, done, shorter, fewer) && shorter[|fewer|] == t;
  }
}
