/** The two views of `finish` agree: run alone, the atomic pieces that `Protocol`
    interleaves make the calls that `TaskMachine.Finish` lists, in that order. */
module TaskProtocol {
  import opened Wrappers
  import opened Responses
  import opened TaskMachine
  import P = Protocol

  /** What other threads can see of a call. */
  datatype Kind = LeavesRegistry | LeavesAsyncio | HandsCallback | Answers

  function KindOf(e: Effect): seq<Kind> {
    match e
    case RemoveLive => [LeavesRegistry]
    case UnregisterTask => [LeavesAsyncio]
    case Fire(_) => [HandsCallback]
    case Respond(_) => [Answers]
    case _ => []
  }

  function Kinds(effects: seq<Effect>): seq<Kind> {
    if effects == [] then [] else KindOf(effects[0]) + Kinds(effects[1..])
  }

  lemma {:induction false} KindsAppend(a: seq<Effect>, b: seq<Effect>)
    ensures Kinds(a + b) == Kinds(a) + Kinds(b)
  {
    if a == [] {
      assert a + b == b;
    } else {
      assert (a + b)[1..] == a[1..] + b;
      KindsAppend(a[1..], b);
    }
  }

  lemma {:induction false} KindsOne(e: Effect)
    ensures Kinds([e]) == KindOf(e)
  {
  }

  /** The same of a piece of a job. */
  function StageKind(job: P.Job): seq<Kind> {
    match job.stage
    case Unlist => [LeavesRegistry]
    case Unregister => if job.wasRegistered then [LeavesAsyncio] else []
    case Fire => if job.firing > 0 then [HandsCallback] else []
    case Take => [Answers]
    case _ => []
  }

  /** A job of thread `k` run to its end without interference. */
  function RunJob(r: P.Request, job: P.Job, k: nat): (P.Request, seq<Kind>)
    decreases P.Rank(job.stage), job.firing
  {
    var next := P.Onward(r, job);
    var done := P.Worked(r, job, k);
    if next.None? then (done, StageKind(job))
    else
      var rest := RunJob(done, next.value, k);
      (rest.0, StageKind(job) + rest.1)
  }

  /** Task and request agree on what they share. */
  predicate Matches(s: TaskState, r: P.Request) {
    r.finished == s.finished && r.registered == s.registered && r.pending == |s.doneCallbacks|
  }

  /** From `Take` on: one attempt to answer, which succeeds if the sender is there. */
  lemma {:induction false} TakeRuns(r: P.Request, job: P.Job, k: nat)
    requires job.stage.Take?
    ensures var end := RunJob(r, job, k);
            && end.1 == [Answers]
            && end.0 == (if r.channel.Armed?
                         then r.(channel := P.Resolved, answers := r.answers + [if k == 0 then P.FromTurn else P.FromDisposal])
                         else r)
  {
    if r.channel.Armed? {
      var lower, deliver := job.(stage := P.Lower), job.(stage := P.Deliver);
      var taken := r.(channel := P.Taken(P.Worker(k)));
      var lowered := r.(channel := P.Lowered(P.Worker(k)));
      assert RunJob(lowered, deliver, k).1 == [];
      assert RunJob(taken, lower, k) == (RunJob(lowered, deliver, k).0, [] + RunJob(lowered, deliver, k).1);
      assert RunJob(r, job, k) == (RunJob(taken, lower, k).0, [Answers] + RunJob(taken, lower, k).1);
    }
  }

  lemma {:induction false} JobStep(r: P.Request, job: P.Job, k: nat)
    requires P.Onward(r, job).Some?
    ensures var rest := RunJob(P.Worked(r, job, k), P.Onward(r, job).value, k);
            RunJob(r, job, k).0 == rest.0 && RunJob(r, job, k).1 == StageKind(job) + rest.1
  {
  }

  lemma {:induction false} FireRuns(r: P.Request, job: P.Job, k: nat, callbacks: seq<Callback>)
    requires job.stage.Fire? && job.firing == |callbacks|
    ensures var fired := r.(handed := r.handed + |callbacks|);
            var end := RunJob(r, job, k);
            && end.1 == Kinds(Fires(callbacks)) + [Answers]
            && end.0 == RunJob(fired, job.(stage := P.Take, firing := 0), k).0
    decreases |callbacks|
  {
    hide RunJob, Kinds, Fires;
    FiresKinds(callbacks);
    JobStep(r, job, k);
    if callbacks == [] {
      assert job.(stage := P.Take, firing := 0) == job.(stage := P.Take) && r.(handed := r.handed + 0) == r;
      TakeRuns(r, job.(stage := P.Take), k);
    } else {
      FireRuns(r.(handed := r.handed + 1), job.(firing := job.firing - 1), k, callbacks[1..]);
    }
  }

  lemma {:induction false} FiresKinds(callbacks: seq<Callback>)
    ensures Kinds(Fires(callbacks)) == if callbacks == [] then [] else [HandsCallback] + Kinds(Fires(callbacks[1..]))
  {
    if callbacks != [] { assert Fires(callbacks)[1..] == Fires(callbacks[1..]); }
  }

  lemma {:induction false} FinishKinds(s: TaskState, response: HandlerResponse, completion: Completion)
    ensures Kinds(Finish(s, response, completion).effects)
         == if s.finished then [Answers]
            else [LeavesRegistry] + (if s.registered then [LeavesAsyncio] else []) + Kinds(Fires(s.doneCallbacks)) + [Answers]
  {
    hide Kinds, Fires;
    KindsOne(Respond(response));
    if !s.finished {
      var head := [Ended(completion), RemoveLive] + if s.registered then [UnregisterTask] else [];
      HeadKinds(completion, s.registered);
      KindsAppend(head, Fires(s.doneCallbacks));
      KindsAppend(head + Fires(s.doneCallbacks), [Respond(response)]);
    }
  }

  lemma {:induction false} HeadKinds(completion: Completion, registered: bool)
    ensures Kinds([Ended(completion), RemoveLive] + if registered then [UnregisterTask] else [])
         == [LeavesRegistry] + if registered then [LeavesAsyncio] else []
  {
    hide Kinds;
    KindsOne(Ended(completion));
    KindsOne(RemoveLive);
    KindsOne(UnregisterTask);
    NoKinds();
    KindsAppend([Ended(completion)], [RemoveLive]);
    assert [Ended(completion)] + [RemoveLive] == [Ended(completion), RemoveLive];
    KindsAppend([Ended(completion), RemoveLive], if registered then [UnregisterTask] else []);
  }

  lemma {:induction false} NoKinds()
    ensures Kinds([]) == []
  {
  }

  /** A job that calls `finish`, run alone, makes the calls `TaskMachine.Finish` makes in
      its order, leaves request and task in agreement, hands on every callback, and
      answers if the sender was still there. */
  lemma {:induction false} FinishAgrees(s: TaskState, r: P.Request, job: P.Job, k: nat, response: HandlerResponse, completion: Completion)
    requires Matches(s, r) && job.stage.Mark?
    ensures var o, end := Finish(s, response, completion), RunJob(r, job, k);
            && end.1 == Kinds(o.effects)
            && (!s.finished ==> Matches(o.state, end.0) && end.0.handed == r.handed + |s.doneCallbacks|)
            && (r.channel.Armed? <==> end.0.answers != r.answers) && !end.0.channel.Armed?
  {
    FinishKinds(s, response, completion);
    hide Kinds, Fires, FinishProgram;
    if s.finished {
      JobStep(r, job, k);
      TakeRuns(r, job.(stage := P.Take), k);
    } else {
      MarkRuns(s, r, job, k);
    }
  }

  lemma {:induction false} MarkRuns(s: TaskState, r: P.Request, job: P.Job, k: nat)
    requires Matches(s, r) && !s.finished && job.stage.Mark?
    ensures var end := RunJob(r, job, k);
            && end.1 == [LeavesRegistry] + (if s.registered then [LeavesAsyncio] else [])
                        + Kinds(Fires(s.doneCallbacks)) + [Answers]
            && end.0.finished && !end.0.registered && end.0.pending == 0
            && end.0.handed == r.handed + |s.doneCallbacks|
            && (r.channel.Armed? <==> end.0.answers != r.answers) && !end.0.channel.Armed?
  {
    hide RunJob, Kinds, Fires;
    var marked := r.(finished := true, registered := false, pending := 0);
    var unlist := P.Job(job.request, P.Unlist, s.registered, |s.doneCallbacks|);
    var unregister, fire := unlist.(stage := P.Unregister), unlist.(stage := P.Fire);
    var left := marked.(listed := marked.listed && !s.registered);
    JobStep(r, job, k);
    JobStep(marked, unlist, k);
    JobStep(marked, unregister, k);
    FireRuns(left, fire, k, s.doneCallbacks);
    TakeRuns(left.(handed := left.handed + |s.doneCallbacks|), fire.(stage := P.Take, firing := 0), k);
  }
}
