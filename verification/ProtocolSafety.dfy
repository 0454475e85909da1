/** What every interleaving of `schedule`, the loop thread and any number of `stop`
    calls keeps: the gauge counts the open channels, no channel answers twice, and no
    request is left unanswered. */
module ProtocolSafety {
  import opened Wrappers
  import opened Sums
  import opened Protocol

  // ----- The gauge

  /** The channel has been counted in and not yet counted out. */
  function Open(r: Request): nat {
    if r.channel.Lowered? || r.channel.Resolved? then 0 else 1
  }

  function OpenBits(requests: seq<Request>): seq<nat> {
    seq(|requests|, i requires 0 <= i < |requests| => Open(requests[i]))
  }

  /** Schedules that have raised the gauge and not built their channel, channels with
      their sender, and senders taken but not yet counted out. */
  function OpenCount(s: State): nat {
    Sum(OpenBits(s.requests))
  }

  lemma {:induction false} SetOpen(s: State, t: State, i: nat)
    requires i < |s.requests| == |t.requests| && t.requests == s.requests[i := t.requests[i]]
    ensures OpenCount(t) == OpenCount(s) - Open(s.requests[i]) + Open(t.requests[i])
  {
    hide Sum, Open;
    SumUpdate(OpenBits(s.requests), i, Open(t.requests[i]));
    assert OpenBits(t.requests) == OpenBits(s.requests)[i := Open(t.requests[i])];
  }

  // ----- Threads

  /** The thread will still try to take the sender of `i`. A turn may end with the
      task parked, so a loop thread commits only once `finish` is called. */
  predicate WillTake(w: Thread, i: nat) {
    || i in w.left
    || (w.job.Some? && w.job.value.request == i && !w.job.value.stage.Lower? && !w.job.value.stage.Deliver?
        && (w.job.value.stage.Working? ==> !w.role.LoopThread?))
  }

  predicate Doing(w: Thread, i: nat, stage: Stage) {
    w.job.Some? && w.job.value.request == i && w.job.value.stage == stage
  }

  /** Its entry has been in the registry. */
  predicate Past(pc: Pc) {
    !pc.Counted? && !pc.AllocFailed? && !pc.Built?
  }

  predicate Drainable(s: State, i: nat) {
    i < |s.requests| && Past(s.requests[i].pc) && i !in s.live
  }

  predicate StageOk(r: Request, k: nat, stage: Stage) {
    && (!stage.Working? && !stage.Mark? ==> r.finished)
    && (stage.Lower? ==> r.channel == Taken(Worker(k)))
    && (stage.Deliver? ==> r.channel == Lowered(Worker(k)))
  }

  predicate JobOk(s: State, k: nat, job: Job) {
    && job.request < |s.requests|
    && Past(s.requests[job.request].pc)
    && (if k == 0 then s.requests[job.request].pc.Accepted? else job.request !in s.live)
    && StageOk(s.requests[job.request], k, job.stage)
  }

  predicate ThreadOk(s: State, k: nat)
    requires k < |s.workers|
  {
    var w := s.workers[k];
    && (w.role.LoopThread? <==> k == 0)
    && (w.role.Joining? ==> k == 1)
    && (k == 1 ==> (s.swept <==> w.role.Disposing? || w.role.Stopped?))
    && (k == 1 && w.role.Draining? ==> s.phase.Dead?)
    && (w.job.Some? ==> w.role.LoopThread? || w.role.Disposing?)
    && (w.job.Some? ==> JobOk(s, k, w.job.value) && w.job.value.request !in w.left)
    && (w.left != {} ==> w.role.Disposing?)
    && (forall i :: i in w.left ==> Drainable(s, i))
  }

  // ----- Requests

  /** Whoever must still see to the channel of `i`: its `schedule` call, the registry
      a `stop` will drain, or a thread. */
  predicate Covered(s: State, i: nat)
    requires i < |s.requests|
  {
    || s.requests[i].pc.Built? || s.requests[i].pc.Refused? || s.requests[i].pc.SendTake?
    || i in s.live
    || (exists k :: 0 <= k < |s.workers| && WillTake(s.workers[k], i))
  }

  predicate Listed(pc: Pc) {
    pc.Inserted? || pc.Refused? || pc.Accepted?
  }

  predicate HeldBy(s: State, i: nat, who: By, stage: Stage) {
    who.Worker? ==> who.index < |s.workers| && Doing(s.workers[who.index], i, stage)
  }

  predicate AnswersOk(r: Request) {
    && |r.answers| == (if r.channel.Dropping? || r.channel.Resolved? then 1 else 0)
    && (r.answers != [] ==>
          match r.answers[0]
          case FromTurn => r.finished && r.pc.Accepted?
          case FromDisposal => r.finished && Past(r.pc)
          case FromSchedule => r.pc.Failed?
          case SenderDropped => r.pc.AllocFailed? || r.pc.Failed?)
  }

  predicate ChannelOk(r: Request) {
    && (r.channel.Unbuilt? <==> r.pc.Counted?)
    && (r.channel.Dropping? <==> r.pc.AllocFailed?)
    && (r.channel == Taken(Scheduler) <==> r.pc.SendLower?)
    && (r.channel == Lowered(Scheduler) <==> r.pc.SendDeliver?)
    && (r.pc.Built? ==> r.channel.Armed?)
    && ((r.channel.Taken? || r.channel.Lowered?) && r.channel.who.Worker? ==> r.finished && Past(r.pc))
    && (r.pc.Failed? ==> !r.channel.Armed?)
    && (r.finished ==> Past(r.pc))
    && AnswersOk(r)
  }

  predicate RequestOk(s: State, i: nat)
    requires i < |s.requests|
  {
    var r := s.requests[i];
    && ChannelOk(r)
    && (r.channel.Taken? ==> HeldBy(s, i, r.channel.who, Lower))
    && (r.channel.Lowered? ==> HeldBy(s, i, r.channel.who, Deliver))
    && (r.channel.Armed? ==> Covered(s, i))
  }

  predicate LiveOk(s: State, i: nat) {
    && i < |s.requests|
    && Listed(s.requests[i].pc)
    && (s.requests[i].pc.Accepted? ==> !(s.swept && s.phase == Dead(true)))
    && (s.requests[i].finished ==> |s.workers| > 0 && Doing(s.workers[0], i, Unlist))
  }

  predicate Shape(s: State) {
    && |s.workers| > 0
    && (!s.phase.Running? ==> s.workers[0].job.None?)
    && (s.swept ==> s.phase.Dead? && |s.workers| > 1)
    && s.gauge == OpenCount(s)
  }

  predicate Inv(s: State) {
    && Shape(s)
    && (forall i :: i in s.live ==> LiveOk(s, i))
    && (forall k :: 0 <= k < |s.workers| ==> ThreadOk(s, k))
    && (forall i :: 0 <= i < |s.requests| ==> RequestOk(s, i))
  }

  // ----- Steps touch one request and one thread

  /** What any step may do to a request, seen from every thread but `k`. */
  predicate Smooth(r: Request, q: Request, k: nat) {
    && (Past(r.pc) ==> Past(q.pc))
    && (r.pc.Accepted? ==> q.pc.Accepted?)
    && (r.finished ==> q.finished)
    && ((r.channel.Taken? || r.channel.Lowered?) && r.channel.who.Worker? && r.channel.who.index != k ==>
          q.channel == r.channel)
  }

  /** From `s` to `t` only request `i` and thread `k` changed. */
  ghost predicate Local(s: State, t: State, i: nat, k: nat) {
    && |t.requests| == |s.requests| && |t.workers| == |s.workers|
    && t.phase == s.phase && t.swept == s.swept
    && i < |s.requests| && k < |s.workers|
    && t.requests == s.requests[i := t.requests[i]]
    && t.workers == s.workers[k := t.workers[k]]
    && Smooth(s.requests[i], t.requests[i], k)
    && (forall j :: j != i ==> (j in t.live <==> j in s.live))
    && (Past(s.requests[i].pc) && i !in s.live ==> i !in t.live)
  }

  /** Thread `k` keeps what it has, `i` aside. */
  ghost predicate KeepsRest(w: Thread, v: Thread, i: nat) {
    && (forall j :: j != i ==> (j in w.left <==> j in v.left))
    && (w.job.Some? && w.job.value.request != i ==> v.job == w.job)
    && v.role == w.role
  }

  lemma {:induction false} OtherRequests(s: State, t: State, i: nat, k: nat, j: nat)
    requires Local(s, t, i, k) && KeepsRest(s.workers[k], t.workers[k], i)
    requires j < |s.requests| && j != i && RequestOk(s, j)
    ensures RequestOk(t, j)
  {
    if exists l :: 0 <= l < |s.workers| && WillTake(s.workers[l], j) {
      var l :| 0 <= l < |s.workers| && WillTake(s.workers[l], j);
      assert WillTake(t.workers[l], j);
    }
  }

  lemma {:induction false} OtherThreads(s: State, t: State, i: nat, k: nat, l: nat)
    requires Local(s, t, i, k) && l < |s.workers| && l != k && ThreadOk(s, l)
    ensures ThreadOk(t, l)
  {
  }

  lemma {:induction false} LocalKeeps(s: State, t: State, i: nat, k: nat)
    requires Inv(s) && Local(s, t, i, k) && KeepsRest(s.workers[k], t.workers[k], i)
    requires Shape(t) && RequestOk(t, i) && ThreadOk(t, k) && (i in t.live ==> LiveOk(t, i))
    ensures Inv(t)
  {
    forall j | 0 <= j < |t.requests| ensures RequestOk(t, j) {
      if j != i { OtherRequests(s, t, i, k, j); }
    }
    forall l | 0 <= l < |t.workers| ensures ThreadOk(t, l) {
      if l != k { OtherThreads(s, t, i, k, l); }
    }
    forall j | j in t.live ensures LiveOk(t, j) {
      if j != i { assert LiveOk(s, j); }
    }
  }

  /** A step of a `schedule` call, or a touch of its task: no thread moves. */
  lemma {:induction false} RequestMoves(s: State, t: State, i: nat)
    requires Inv(s) && Local(s, t, i, 0) && t.workers == s.workers && t.gauge == OpenCount(t)
    requires Smooth(s.requests[i], t.requests[i], |s.workers|)
    requires ChannelOk(t.requests[i]) && (i in t.live ==> LiveOk(t, i))
    requires (t.requests[i].channel.Taken? || t.requests[i].channel.Lowered?) && t.requests[i].channel.who.Worker? ==>
               t.requests[i].channel == s.requests[i].channel
    requires t.requests[i].channel.Armed? ==> Covered(t, i)
    ensures Inv(t)
  {
    assert RequestOk(s, i);
    assert ThreadOk(s, 0);
    LocalKeeps(s, t, i, 0);
  }

  lemma {:induction false} MovedOk(r: Request, step: Step, k: nat)
    requires ChannelOk(r) && OnRequest(step) && !step.Reclaim? && (step.RemoveCallback? ==> r.pending > 0)
    requires step.AllocFail? || step.Build? ==> r.pc.Counted?
    requires step.DropLower? ==> r.channel.Dropping?
    requires step.Insert? ==> r.pc.Built?
    requires step.Enqueue? ==> r.pc.Inserted?
    requires step.TakeBack? ==> r.pc.Refused?
    requires step.SendRefusal? ==> r.pc.SendTake? || r.pc.SendLower? || r.pc.SendDeliver?
    ensures var q := Moved(r, step);
            && Smooth(r, q, k) && ChannelOk(q)
            && ((q.channel.Taken? || q.channel.Lowered?) && q.channel.who.Worker? ==> q.channel == r.channel)
            && Open(q) == Open(r) - if Lowers(r, step) then 1 else 0
  {
  }

  lemma {:induction false} ScheduleListing(s: State, step: Step)
    requires Enabled(s, step) && OnRequest(step) && !step.Reclaim?
    requires step.request in s.live ==> LiveOk(s, step.request)
    requires var r := s.requests[step.request]; ChannelOk(r) && (r.channel.Armed? ==> Covered(s, step.request))
    ensures var i, t := step.request, Scheduled(s, step);
            && (i in t.live ==> LiveOk(t, i))
            && (t.requests[i].channel.Armed? ==> Covered(t, i))
  {
  }

  lemma {:induction false} ScheduleKeeps(s: State, step: Step)
    requires Inv(s) && Enabled(s, step) && OnRequest(step)
    ensures Inv(Scheduled(s, step))
  {
    var i, t := step.request, Scheduled(s, step);
    assert RequestOk(s, i);
    if step.Reclaim? {
      ArmedIsReachable(s, i);
      assert false;
    } else {
      if i in s.live { assert LiveOk(s, i); }
      MovedOk(s.requests[i], step, |s.workers|);
      MovedOk(s.requests[i], step, 0);
      ScheduleListing(s, step);
      hide OpenCount, Moved, ChannelOk, Smooth, ThreadOk, RequestOk, Covered, LiveOk, Open;
      SetOpen(s, t, i);
      RequestMoves(s, t, i);
    }
  }

  lemma {:induction false} RegisterKeeps(s: State)
    requires Inv(s) && Enabled(s, Register)
    ensures Inv(Next(s, Register))
  {
    hide OpenCount;
    var i, t := s.workers[0].job.value.request, Next(s, Register);
    assert RequestOk(s, i);
    SetOpen(s, t, i);
    if i in s.live { assert LiveOk(s, i); }
    RequestMoves(s, t, i);
  }

  /** The task of an armed channel is always reachable: `Drop` never loses one. */
  lemma {:induction false} ArmedIsReachable(s: State, i: nat)
    requires Inv(s) && i < |s.requests| && s.requests[i].channel.Armed?
    ensures !Unreachable(s, i)
  {
    assert RequestOk(s, i);
  }

  lemma {:induction false} WorkedOk(r: Request, job: Job, k: nat)
    requires ChannelOk(r) && Past(r.pc) && StageOk(r, k, job.stage) && (k == 0 ==> r.pc.Accepted?)
    ensures var q := Worked(r, job, k);
            && Smooth(r, q, k) && ChannelOk(q) && q.pc == r.pc
            && Open(q) == Open(r) - (if job.stage.Lower? then 1 else 0)
            && (Onward(r, job).Some? ==> StageOk(q, k, Onward(r, job).value.stage))
  {
  }

  /** While the channel is armed, the thread goes on towards taking the sender. */
  lemma {:induction false} AdvanceCovers(r: Request, w: Thread, k: nat)
    requires w.job.Some? && StageOk(r, k, w.job.value.stage)
    requires Worked(r, w.job.value, k).channel.Armed?
    ensures WillTake(w.(job := Onward(r, w.job.value)), w.job.value.request)
  {
  }

  lemma {:induction false} AdvanceRequest(s: State, k: nat)
    requires Busy(s, k) && JobOk(s, k, s.workers[k].job.value) && RequestOk(s, s.workers[k].job.value.request)
    ensures RequestOk(Advanced(s, k), s.workers[k].job.value.request)
  {
    var w, t := s.workers[k], Advanced(s, k);
    var i := w.job.value.request;
    WorkedOk(s.requests[i], w.job.value, k);
    var q := t.requests[i];
    if q.channel.Armed? {
      AdvanceCovers(s.requests[i], w, k);
      assert WillTake(t.workers[k], i);
    } else if (q.channel.Taken? || q.channel.Lowered?) && q.channel.who.Worker? {
      hide ChannelOk;
      var l := q.channel.who.index;
      if l != k { assert t.workers[l] == s.workers[l]; }
    }
  }

  lemma {:induction false} AdvanceThread(s: State, k: nat)
    requires Busy(s, k) && ThreadOk(s, k)
    requires ChannelOk(s.requests[s.workers[k].job.value.request])
    ensures ThreadOk(Advanced(s, k), k)
  {
    var t, job := Advanced(s, k), s.workers[k].job.value;
    WorkedOk(s.requests[job.request], job, k);
    hide ChannelOk, Worked, StageOk, Smooth, Open;
    forall j | j in t.workers[k].left ensures Drainable(t, j) {
      assert Drainable(s, j);
    }
  }

  lemma {:induction false} AdvanceKeeps(s: State, k: nat)
    requires Inv(s) && Enabled(s, Advance(k))
    ensures Inv(Next(s, Advance(k)))
  {
    var t := Advanced(s, k);
    var job := s.workers[k].job.value;
    var i := job.request;
    assert RequestOk(s, i);
    assert ThreadOk(s, k);
    WorkedOk(s.requests[i], job, k);
    AdvanceRequest(s, k);
    if i in s.live { assert LiveOk(s, i); }
    hide OpenCount, ChannelOk, Smooth, RequestOk, Open, Worked;
    SetOpen(s, t, i);
    AdvanceThread(s, k);
    hide ThreadOk, Onward;
    LocalKeeps(s, t, i, k);
  }

  /** A thread takes up a task, or the loop thread leaves one parked. */
  lemma {:induction false} ThreadMoves(s: State, t: State, i: nat, k: nat)
    requires Inv(s) && Local(s, t, i, k) && KeepsRest(s.workers[k], t.workers[k], i)
    requires t.requests == s.requests && t.live == s.live && t.gauge == s.gauge && ThreadOk(t, k)
    requires k == 0 && !s.phase.Running? ==> t.workers[0].job.None?
    requires k == 0 && i in s.live ==> !s.requests[i].finished
    requires WillTake(s.workers[k], i) ==> WillTake(t.workers[k], i)
    requires !Doing(s.workers[k], i, Lower) && !Doing(s.workers[k], i, Deliver)
    ensures Inv(t)
  {
    hide OpenCount, ChannelOk, ThreadOk, WillTake;
    assert RequestOk(s, i);
    if i in s.live { assert LiveOk(s, i); }
    SameOpen(s, t);
    TurnCovers(s, t, i, k);
    LocalKeeps(s, t, i, k);
  }

  lemma {:induction false} LoopTurnsUnfinished(s: State, step: Step, i: nat)
    requires Enabled(s, step) && ((step.BeginTurn? && i == step.request) || (step.EndTurn? && Doing(s.workers[0], i, Working)))
    requires forall j :: j in s.live ==> LiveOk(s, j)
    ensures i in s.live ==> !s.requests[i].finished
  {
  }

  lemma {:induction false} TurnKeeps(s: State, step: Step)
    requires Inv(s) && Enabled(s, step) && (step.BeginTurn? || step.EndTurn?)
    ensures Inv(Next(s, step))
  {
    hide OpenCount, RequestOk, LiveOk;
    assert ThreadOk(s, 0);
    var i := if step.EndTurn? then s.workers[0].job.value.request else step.request;
    LoopTurnsUnfinished(s, step, i);
    ThreadMoves(s, Next(s, step), i, 0);
  }

  lemma {:induction false} DisposeKeeps(s: State, k: nat, i: nat)
    requires Inv(s) && Enabled(s, Dispose(k, i))
    ensures Inv(Next(s, Dispose(k, i)))
  {
    hide OpenCount, RequestOk, LiveOk;
    var t := Next(s, Dispose(k, i));
    assert ThreadOk(s, k) && Drainable(s, i);
    forall j | j in t.workers[k].left ensures Drainable(t, j) {
      assert Drainable(s, j);
    }
    ThreadMoves(s, t, i, k);
  }

  lemma {:induction false} SameOpen(s: State, t: State)
    requires s.requests == t.requests
    ensures OpenCount(s) == OpenCount(t)
  {
  }

  lemma {:induction false} TurnCovers(s: State, t: State, i: nat, k: nat)
    requires i < |s.requests| && k < |s.workers| && RequestOk(s, i)
    requires |t.workers| == |s.workers| && t.workers == s.workers[k := t.workers[k]]
    requires t.requests == s.requests && t.live == s.live
    requires WillTake(s.workers[k], i) ==> WillTake(t.workers[k], i)
    requires !Doing(s.workers[k], i, Lower) && !Doing(s.workers[k], i, Deliver)
    ensures RequestOk(t, i)
  {
    hide ChannelOk;
    if exists l :: 0 <= l < |s.workers| && WillTake(s.workers[l], i) {
      var l :| 0 <= l < |s.workers| && WillTake(s.workers[l], i);
      assert WillTake(t.workers[l], i);
    }
  }

  // ----- Steps that only change the scene

  /** Threads and requests may be added; those there have what they had. */
  predicate Grows(s: State, t: State) {
    && |s.workers| <= |t.workers| && |s.requests| <= |t.requests|
    && s.requests == t.requests[..|s.requests|]
    && s.live == t.live
    && (forall k :: 0 <= k < |s.workers| ==> SameLoad(s.workers[k], t.workers[k]))
  }

  predicate SameLoad(w: Thread, v: Thread) {
    v.left == w.left && v.job == w.job && v.role.LoopThread? == w.role.LoopThread?
  }

  lemma {:induction false} GrowsKeepsRequest(s: State, t: State, i: nat)
    requires Grows(s, t) && i < |s.requests| && RequestOk(s, i)
    ensures RequestOk(t, i)
  {
  }

  predicate OnScene(step: Step) {
    step.Count? || step.EndLoop? || step.Close? || step.CallStop? || step.Join? || step.ReturnStop?
  }

  lemma {:induction false} SceneThread(s: State, step: Step, k: nat)
    requires Shape(s) && Enabled(s, step) && OnScene(step) && k < |Next(s, step).workers|
    requires forall l :: 0 <= l < |s.workers| ==> ThreadOk(s, l)
    ensures ThreadOk(Next(s, step), k)
  {
    hide StageOk, OpenCount;
    if k < |s.workers| {
      assert ThreadOk(s, k);
      forall j | j in s.workers[k].left ensures Drainable(Next(s, step), j) {
        assert Drainable(s, j);
      }
    }
  }

  lemma {:induction false} SceneKeeps(s: State, step: Step)
    requires Inv(s) && Enabled(s, step) && OnScene(step)
    ensures Inv(Next(s, step))
  {
    var t := Next(s, step);
    SceneShape(s, step);
    hide ThreadOk, OpenCount, LiveOk, RequestOk, Next;
    forall k | 0 <= k < |t.workers| ensures ThreadOk(t, k) {
      SceneThread(s, step, k);
    }
    forall i | i in t.live ensures LiveOk(t, i) {
      SceneLive(s, step, i);
    }
    forall i | 0 <= i < |t.requests| ensures RequestOk(t, i) {
      if i < |s.requests| { GrowsKeepsRequest(s, t, i); } else { CountedOk(s, step, i); }
    }
  }

  lemma {:induction false} SceneLive(s: State, step: Step, i: nat)
    requires Shape(s) && Enabled(s, step) && OnScene(step) && LiveOk(s, i)
    ensures LiveOk(Next(s, step), i)
  {
    hide OpenCount;
  }

  lemma {:induction false} CountedOk(s: State, step: Step, i: nat)
    requires Enabled(s, step) && OnScene(step) && |s.requests| <= i < |Next(s, step).requests|
    ensures RequestOk(Next(s, step), i)
  {
  }

  lemma {:induction false} SceneShape(s: State, step: Step)
    requires Inv(s) && Enabled(s, step) && OnScene(step)
    ensures Shape(Next(s, step)) && Grows(s, Next(s, step))
  {
    var t := Next(s, step);
    hide Sum, RequestOk, LiveOk, JobOk;
    if step.Count? {
      SumAppend(OpenBits(s.requests), 1);
      assert OpenBits(t.requests) == OpenBits(s.requests) + [1];
    }
    if step.Join? { assert ThreadOk(s, step.worker); }
    if step.ReturnStop? { assert ThreadOk(s, step.worker); }
  }

  lemma {:induction false} DrainKeeps(s: State, k: nat)
    requires Inv(s) && Enabled(s, Drain(k))
    ensures Inv(Next(s, Drain(k)))
  {
    var t := Next(s, Drain(k));
    hide OpenCount, ChannelOk, StageOk;
    SameOpen(s, t);
    assert ThreadOk(s, k);
    forall l | 0 <= l < |t.workers| ensures ThreadOk(t, l) {
      assert ThreadOk(s, l);
      forall j | j in t.workers[l].left ensures Drainable(t, j) {
        if l == k { assert LiveOk(s, j); } else { assert Drainable(s, j); }
      }
    }
    forall i | 0 <= i < |t.requests| ensures RequestOk(t, i) {
      assert RequestOk(s, i);
      DrainCovers(s, t, i, k);
    }
  }

  lemma {:induction false} DrainCovers(s: State, t: State, i: nat, k: nat)
    requires i < |s.requests| && k < |s.workers| && RequestOk(s, i)
    requires t.requests == s.requests && t.workers == s.workers[k := Thread(Disposing, s.live, None)]
    requires s.workers[k].job.None? && s.workers[k].left == {}
    ensures RequestOk(t, i)
  {
    hide ChannelOk;
    if i in s.live {
      assert WillTake(t.workers[k], i);
    } else if exists l :: 0 <= l < |s.workers| && WillTake(s.workers[l], i) {
      var l :| 0 <= l < |s.workers| && WillTake(s.workers[l], i);
      assert WillTake(t.workers[l], i);
    }
  }

  lemma {:induction false} StepKeeps(s: State, step: Step)
    requires Inv(s) && Enabled(s, step)
    ensures Inv(Next(s, step))
  {
    hide Inv;
    if OnScene(step) { SceneKeeps(s, step); }
    else if OnRequest(step) { ScheduleKeeps(s, step); }
    else if step.Register? { RegisterKeeps(s); }
    else if step.Drain? { DrainKeeps(s, step.worker); }
    else if step.Advance? { AdvanceKeeps(s, step.worker); }
    else if step.Dispose? { DisposeKeeps(s, step.worker, step.request); }
    else { TurnKeeps(s, step); }
  }

  lemma {:induction false} RunKeeps(run: seq<State>, steps: seq<Step>, n: nat)
    requires IsRun(run, steps) && n < |run|
    ensures Inv(run[n])
  {
    hide Next, Enabled;
    if n > 0 {
      hide Inv;
      RunKeeps(run, steps, n - 1);
      StepKeeps(run[n - 1], steps[n - 1]);
    }
  }

  ghost predicate Reachable(s: State) {
    exists run, steps :: IsRun(run, steps) && run[|steps|] == s
  }

  lemma {:induction false} ReachStart()
    ensures Reachable(STARTED)
  {
    var steps: seq<Step> := [];
    assert IsRun([STARTED], steps) && [STARTED][|steps|] == STARTED;
  }

  lemma {:induction false} Reach(s: State, step: Step, t: State)
    requires Reachable(s) && Enabled(s, step) && Next(s, step) == t
    ensures Reachable(t)
  {
    hide Next, Enabled;
    var run, steps :| IsRun(run, steps) && run[|steps|] == s;
    var longer, more := run + [t], steps + [step];
    assert IsRun(longer, more);
    assert longer[|more|] == t;
  }

  lemma {:induction false} ReachableInv(s: State)
    requires Reachable(s)
    ensures Inv(s)
  {
    hide Inv, Next, Enabled;
    var run, steps :| IsRun(run, steps) && run[|steps|] == s;
    RunKeeps(run, steps, |steps|);
  }
}
