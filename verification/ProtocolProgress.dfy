/** Every call comes back: whatever the interleaving, the work of the `schedule` and `stop`
    calls under way and of the loop thread is bounded, and as long as one of them has not
    returned some part of it can go on. */
module ProtocolProgress {
  import opened Wrappers
  import opened Sums
  import opened Protocol
  import opened ProtocolSafety
  import opened ProtocolRace
  import opened ProtocolSharing

  /** A step of a call under way or of the loop thread; the others are new requests, new
      `stop` calls, new turns, and what Python code does to a task. */
  predicate Work(step: Step) {
    && !step.Count? && !step.CallStop? && !step.BeginTurn? && !step.Register?
    && !step.AddCallback? && !step.RemoveCallback?
  }

  /** Every `schedule` and every `stop` has returned. */
  predicate AllBack(s: State) {
    && (forall i :: 0 <= i < |s.requests| ==> Returned(s.requests[i]))
    && (forall k :: 1 <= k < |s.workers| ==> s.workers[k].role.Stopped?)
  }

  // ----- What is left to do

  /** Disposing of one task takes at most this many steps, its callbacks aside. */
  const TASK: nat := 9

  function CallCost(pc: Pc): nat {
    match pc
    case Counted => 16
    case Built => 15
    case Inserted => 5
    case Refused => 4
    case SendTake => 3
    case SendLower => 2
    case SendDeliver => 1
    case AllocFailed => 1
    case Accepted => 0
    case Failed => 0
  }

  function RequestCost(r: Request): nat {
    CallCost(r.pc) + r.pending
  }

  function JobCost(job: Option<Job>): nat {
    if job.None? then 0 else Rank(job.value.stage) + 1 + job.value.firing
  }

  function RoleCost(role: Role): nat {
    match role
    case Joining => 3
    case Draining => 2
    case Disposing => 1
    case _ => 0
  }

  function ThreadCost(w: Thread): nat {
    RoleCost(w.role) + TASK * |w.left| + JobCost(w.job)
  }

  function PhaseCost(phase: Phase): nat {
    match phase
    case Running => 2
    case Ended => 1
    case Dead(_) => 0
  }

  function RequestCosts(requests: seq<Request>): seq<nat> {
    seq(|requests|, i requires 0 <= i < |requests| => RequestCost(requests[i]))
  }

  function ThreadCosts(workers: seq<Thread>): seq<nat> {
    seq(|workers|, k requires 0 <= k < |workers| => ThreadCost(workers[k]))
  }

  function Cost(s: State): nat {
    Sum(RequestCosts(s.requests)) + Sum(ThreadCosts(s.workers)) + TASK * |s.live| + PhaseCost(s.phase)
  }

  lemma {:induction false} SetRequest(requests: seq<Request>, i: nat, r: Request)
    requires i < |requests|
    ensures Sum(RequestCosts(requests[i := r])) == Sum(RequestCosts(requests)) - RequestCost(requests[i]) + RequestCost(r)
  {
    hide Sum, RequestCost;
    SumUpdate(RequestCosts(requests), i, RequestCost(r));
    assert RequestCosts(requests[i := r]) == RequestCosts(requests)[i := RequestCost(r)];
  }

  lemma {:induction false} SetWorker(workers: seq<Thread>, k: nat, w: Thread)
    requires k < |workers|
    ensures Sum(ThreadCosts(workers[k := w])) == Sum(ThreadCosts(workers)) - ThreadCost(workers[k]) + ThreadCost(w)
  {
    hide Sum, ThreadCost;
    SumUpdate(ThreadCosts(workers), k, ThreadCost(w));
    assert ThreadCosts(workers[k := w]) == ThreadCosts(workers)[k := ThreadCost(w)];
  }

  lemma {:induction false} Smaller(live: set<nat>, i: nat)
    ensures |live - {i}| <= |live| && |live + {i}| <= |live| + 1
    ensures i in live ==> |live - {i}| == |live| - 1
  {
    if i in live {
      assert live + {i} == live;
      assert live == (live - {i}) + {i};
    } else {
      assert live - {i} == live;
    }
  }

  // ----- Work gets less

  /** One piece of a job, on the request and on the job. */
  lemma {:induction false} PieceLowers(r: Request, job: Job, k: nat)
    ensures RequestCost(Worked(r, job, k)) + JobCost(Onward(r, job)) < RequestCost(r) + JobCost(Some(job))
  {
  }

  lemma {:induction false} AdvanceLowers(s: State, k: nat)
    requires Busy(s, k)
    ensures Cost(Advanced(s, k)) < Cost(s)
  {
    hide Sum, Worked, Onward, RequestCosts, ThreadCosts, RequestCost, JobCost;
    var job := s.workers[k].job.value;
    var i := job.request;
    PieceLowers(s.requests[i], job, k);
    SetRequest(s.requests, i, Worked(s.requests[i], job, k));
    SetWorker(s.workers, k, s.workers[k].(job := Onward(s.requests[i], job)));
    Smaller(s.live, i);
  }

  /** One step of a `schedule` call, with what it does to the registry. */
  lemma {:induction false} MoveLowers(r: Request, step: Step)
    requires OnRequest(step) && Work(step) && !step.Reclaim?
    requires match step
             case AllocFail(_) => r.pc.Counted?
             case DropLower(_) => r.pc.AllocFailed?
             case Build(_) => r.pc.Counted?
             case Insert(_) => r.pc.Built?
             case Enqueue(_, _) => r.pc.Inserted?
             case TakeBack(_) => r.pc.Refused?
             case _ => r.pc.SendTake? || r.pc.SendLower? || r.pc.SendDeliver?
    ensures RequestCost(Moved(r, step)) + (if step.Insert? then TASK else 0) < RequestCost(r)
  {
  }

  lemma {:induction false} ScheduleLowers(s: State, step: Step)
    requires Inv(s) && OnRequest(step) && Enabled(s, step) && Work(step) && !step.Reclaim?
    ensures Cost(Scheduled(s, step)) < Cost(s)
  {
    var i := step.request;
    assert RequestOk(s, i);
    hide Sum, Moved, RequestCosts, ThreadCosts, RequestCost;
    MoveLowers(s.requests[i], step);
    SetRequest(s.requests, i, Moved(s.requests[i], step));
    Smaller(s.live, i);
  }

  lemma {:induction false} StopLowers(s: State, step: Step)
    requires Inv(s) && Enabled(s, step) && (step.Join? || step.Drain? || step.Dispose? || step.ReturnStop?)
    ensures Cost(Next(s, step)) < Cost(s)
  {
    hide Sum, RequestCosts, ThreadCosts, Inv, ThreadCost, ThreadOk, Advanced, Scheduled;
    var k := step.worker;
    ThreadIsOk(s, k);
    SetWorker(s.workers, k, Next(s, step).workers[k]);
    ThreadLowers(s, step);
  }

  lemma {:induction false} ThreadIsOk(s: State, k: nat)
    requires Inv(s) && k < |s.workers|
    ensures ThreadOk(s, k)
  {
  }

  lemma {:induction false} ThreadLowers(s: State, step: Step)
    requires Enabled(s, step) && (step.Join? || step.Drain? || step.Dispose? || step.ReturnStop?)
    requires step.worker < |s.workers| && ThreadOk(s, step.worker)
    ensures ThreadCost(Next(s, step).workers[step.worker])
          < ThreadCost(s.workers[step.worker]) + if step.Drain? then TASK * |s.live| else 0
  {
    if step.Dispose? { Smaller(s.workers[step.worker].left, step.request); }
  }

  /** Every piece of work lowers what is left, in every reachable state. */
  lemma {:induction false} WorkLowers(s: State, step: Step)
    requires Reachable(s) && Enabled(s, step) && Work(step)
    ensures Cost(Next(s, step)) < Cost(s)
  {
    ReachableInv(s);
    if step.Reclaim? {
      AnsweredAtMostOnce(s, step.request);
      assert false;
    }
    hide Reachable, Inv, Cost;
    match step {
      case Advance(k) => AdvanceLowers(s, k);
      case EndTurn => TurnEndLowers(s);
      case EndLoop => PhaseLowers(s, step);
      case Close(_) => PhaseLowers(s, step);
      case _ => if OnRequest(step) { ScheduleLowers(s, step); } else { StopLowers(s, step); }
    }
  }

  lemma {:induction false} TurnEndLowers(s: State)
    requires Enabled(s, EndTurn)
    ensures Cost(Next(s, EndTurn)) < Cost(s)
  {
    hide Sum, RequestCosts, ThreadCosts;
    SetWorker(s.workers, 0, s.workers[0].(job := None));
  }

  lemma {:induction false} PhaseLowers(s: State, step: Step)
    requires Enabled(s, step) && (step.EndLoop? || step.Close?)
    ensures Cost(Next(s, step)) < Cost(s)
  {
    hide Sum, RequestCosts, ThreadCosts;
  }

  // ----- Work goes on

  /** A call that has not returned can go on, or waits for work that can. */
  lemma {:induction false} WorkThere(s: State) returns (step: Step)
    requires Reachable(s) && !AllBack(s)
    ensures Enabled(s, step) && Work(step)
  {
    ReachableInv(s);
    hide Reachable;
    if i :| 0 <= i < |s.requests| && !Returned(s.requests[i]) {
      step := CallGoesOn(s, i);
    } else {
      var k :| 1 <= k < |s.workers| && !s.workers[k].role.Stopped?;
      step := StopGoesOn(s, k);
    }
  }

  lemma {:induction false} CallGoesOn(s: State, i: nat) returns (step: Step)
    requires Inv(s) && i < |s.requests| && !Returned(s.requests[i])
    ensures Enabled(s, step) && Work(step)
  {
    assert RequestOk(s, i);
    match s.requests[i].pc {
      case Counted => step := Build(i);
      case AllocFailed => step := DropLower(i);
      case Built => step := Insert(i);
      case Inserted => step := Enqueue(i, false);
      case Refused => step := TakeBack(i);
      case _ => step := SendRefusal(i);
    }
  }

  lemma {:induction false} StopGoesOn(s: State, k: nat) returns (step: Step)
    requires Inv(s) && 1 <= k < |s.workers| && !s.workers[k].role.Stopped?
    ensures Enabled(s, step) && Work(step)
  {
    var w := s.workers[k];
    assert ThreadOk(s, k) && ThreadOk(s, 0);
    match w.role {
      case Joining =>
        step := if s.phase.Dead? then Join(k)
                else if s.phase.Ended? then Close(true)
                else if s.workers[0].job.Some? then Advance(0)
                else EndLoop;
      case Draining => step := Drain(k);
      case Disposing =>
        if w.job.Some? {
          step := Advance(k);
        } else if w.left != {} {
          var i :| i in w.left;
          step := Dispose(k, i);
        } else {
          step := ReturnStop(k);
        }
    }
  }

  // ----- Every call returns

  lemma {:induction false} WorkBounded(run: seq<State>, steps: seq<Step>, a: nat, b: nat)
    requires IsRun(run, steps) && a <= b < |run| && forall k :: a <= k < b ==> Work(steps[k])
    ensures Cost(run[b]) + (b - a) <= Cost(run[a])
    decreases b
  {
    hide Next, Enabled, Work, Cost;
    if b > a {
      WorkBounded(run, steps, a, b - 1);
      PrefixReachable(run, steps, b - 1);
      WorkLowers(run[b - 1], steps[b - 1]);
    }
  }

  lemma {:induction false} PrefixReachable(run: seq<State>, steps: seq<Step>, n: nat)
    requires IsRun(run, steps) && n < |run|
    ensures Reachable(run[n])
  {
    hide Next, Enabled;
    assert IsRun(run[..n + 1], steps[..n]) && run[..n + 1][|steps[..n]|] == run[n];
  }

  /** No part of the work can go on. */
  ghost predicate AtRest(s: State) {
    forall step :: Enabled(s, step) ==> !Work(step)
  }

  /** Termination: from any point of any run, however the threads are interleaved, the calls
      under way do no more steps than what was left then, and when nothing of it can go on
      every `schedule` and every `stop` has returned. */
  lemma {:induction false} EveryCallReturns(run: seq<State>, steps: seq<Step>, a: nat)
    requires IsRun(run, steps) && a <= |steps| && forall k :: a <= k < |steps| ==> Work(steps[k])
    ensures |steps| - a <= Cost(run[a])
    ensures AtRest(run[|steps|]) ==> AllBack(run[|steps|])
  {
    WorkBounded(run, steps, a, |steps|);
    hide Next, Enabled, Cost, Work;
    PrefixReachable(run, steps, |steps|);
    if AtRest(run[|steps|]) && !AllBack(run[|steps|]) {
      var step := WorkThere(run[|steps|]);
      assert false;
    }
  }

  /** No deadlock: every run has a continuation in which every call has returned. */
  lemma {:induction false} CallsCanReturn(past: seq<State>, done: seq<Step>, s: State) returns (t: State)
    requires Leads(past, done, s)
    ensures Leads(past, done, t) && AllBack(t)
    decreases Cost(s)
  {
    LeadsReachable(past, done, s);
    hide Next, Enabled, Cost, Leads, AllBack, Reachable;
    if AllBack(s) {
      t := s;
    } else {
      var step := WorkThere(s);
      WorkLowers(s, step);
      LeadOn(past, done, s, step, Next(s, step));
      t := CallsCanReturn(past, done, Next(s, step));
    }
  }
}
